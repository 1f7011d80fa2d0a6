/** How often a contact is nudged: at most one callback offer between two visits to the main
menu, never before enough answers, at most one discount per conversation, and never both at once. */
module EngagementLaws {
  import opened Wrappers
  import opened Calendar
  import opened Domain
  import opened Funnel
  import opened FunnelLaws

  function Count(replies: seq<Reply>, kind: Reply): nat {
    multiset(replies)[kind]
  }

  /** The turns that return to a menu and start counting afresh. */
  predicate StartsAfresh(c: Conv, m: Inbound) {
    && !m.unsupported && !Capturing(c.state)
    && (m.tap == Some(MenuCourses) || m.tap == Some(MenuEnrolled)
        || (m.tap.None? && (m.said.wantsMenu || m.said.greeting)))
  }

  /** What was sent: answers and callback offers since the last fresh start, discounts ever. */
  datatype Ledger = Ledger(answers: nat, nudges: nat, discounts: nat)

  const NOTHING_SENT := Ledger(0, 0, 0)

  function Entered(l: Ledger, c: Conv, m: Inbound, replies: seq<Reply>): Ledger {
    var base := if StartsAfresh(c, m) then Ledger(0, 0, l.discounts) else l;
    Ledger(base.answers + Count(replies, Answer), base.nudges + Count(replies, CallbackOffer),
           base.discounts + Count(replies, DiscountOffer))
  }

  /** The flags and the counter in the context agree with what was really sent. */
  predicate Balanced(d: Deps, c: Chat, l: Ledger) {
    && c.qnaCount == l.answers
    && l.nudges <= (if c.nudged then 1 else 0)
    && (0 < l.nudges ==> d.nudgeThreshold <= l.answers)
    && l.discounts <= (if c.offerSent then 1 else 0)
  }

  /** One turn's entry, counted from the chat it started on. */
  predicate Tallied(d: Deps, c: Chat, after: Chat, replies: seq<Reply>) {
    && after.qnaCount == c.qnaCount + Count(replies, Answer)
    && (if Count(replies, CallbackOffer) == 0 then c.nudged ==> after.nudged
        else Count(replies, CallbackOffer) == 1 && !c.nudged && after.nudged && d.nudgeThreshold <= after.qnaCount)
    && (if Count(replies, DiscountOffer) == 0 then c.offerSent ==> after.offerSent
        else Count(replies, DiscountOffer) == 1 && !c.offerSent && after.offerSent)
    && (Count(replies, CallbackOffer) == 0 || Count(replies, DiscountOffer) == 0)
  }

  /** A discount goes out only while selling, and never to an enrolled student. */
  predicate WellPlaced(before: Conv, after: Conv, replies: seq<Reply>) {
    DiscountOffer in replies ==>
      !Capturing(before.state) && Selling(after.state)
      && before.leadType != Some(PostSales) && after.leadType != Some(PostSales)
  }

  ghost predicate Kept(d: Deps, w: World, o: Outcome) {
    Tallied(d, w.conv.chat, o.0.conv.chat, o.1.replies) && WellPlaced(w.conv, o.0.conv, o.1.replies)
  }

  /** Nothing that counts was sent. */
  predicate Quiet(w: World, o: Outcome) {
    && Answer !in o.1.replies && CallbackOffer !in o.1.replies && DiscountOffer !in o.1.replies
    && o.0.conv.chat.qnaCount == w.conv.chat.qnaCount
    && o.0.conv.chat.nudged == w.conv.chat.nudged && o.0.conv.chat.offerSent == w.conv.chat.offerSent
  }

  lemma QuietIsKept(d: Deps, w: World, o: Outcome)
    requires Quiet(w, o)
    ensures Kept(d, w, o)
  {
  }

  lemma StartCaptureQuiet(w: World, leadType: LeadType)
    ensures Quiet(w, StartCapture(w, leadType))
  {
  }

  lemma FinishCaptureQuiet(w: World)
    ensures Quiet(w, FinishCapture(w))
  {
  }

  lemma AskRemainingQuiet(x: World, at: Moment)
    ensures Quiet(x, AskRemainingOrRemarks(x, at))
  {
  }

  lemma AskedTimeQuiet(d: Deps, w: World, m: Inbound)
    ensures Quiet(w, AskedTime(d, w, m))
  {
    var named := WithAnnouncedName(w, m);
    var parsed := d.validator.Parse(m.text, m.now, named.conv.form.pendingDate);
    if parsed.slot.Some? {
      var timed := named.conv.form.(
        pendingDate := None, pendingTime := Some(parsed.slot.value.at), pendingTimeRaw := Some(TakeRaw(m.text)));
      AskRemainingQuiet(WithForm(named, Absorb(timed, m.text, m.said.foundLater)), parsed.slot.value.at);
    }
  }

  lemma AskedNameQuiet(w: World, m: Inbound)
    ensures Quiet(w, AskedName(w, m))
  {
    var c := Absorb(w.conv.form, m.text, m.said.found);
    var given := OrElse(c.pendingName, m.said.wholeName);
    FinishCaptureQuiet(Named(w, c, given.GetOr(w.user.profileName.GetOr("there"))));
  }

  lemma AskedDetailQuiet(w: World, m: Inbound, slot: FormSlot)
    ensures Quiet(w, AskedDetail(w, m, slot))
  {
    FinishCaptureQuiet(Tried(w, m, slot));
  }

  lemma AskedPhoneQuiet(d: Deps, w: World, m: Inbound)
    ensures Quiet(w, AskedPhone(d, w, m))
  {
    var absorbed := Absorb(w.conv.form, m.text, m.said.found);
    var accepted := WithForm(w, absorbed.(contactPhone := Some(w.user.phone)));
    if m.tap == Some(PhoneConfirm) || (m.tap.None? && m.said.affirmative) {
      FinishCaptureQuiet(WithForm(w, w.conv.form.(contactPhone := Some(w.user.phone))));
    } else if m.tap == Some(PhoneOther) {
      FinishCaptureQuiet(w);
    } else if w.conv.form.contactPhone.None? && absorbed.contactPhone.Some? {
      FinishCaptureQuiet(WithForm(w, absorbed));
    } else if accepted.conv.form.pendingTime.Some? {
      FinishCaptureQuiet(accepted);
    } else {
      AskedTimeQuiet(d, InState(accepted, AskCallbackTime), m);
    }
  }

  lemma AskedRemarksQuiet(w: World, m: Inbound)
    ensures Quiet(w, AskedRemarks(w, m))
  {
  }

  lemma InCaptureQuiet(d: Deps, w: World, m: Inbound)
    requires Capturing(w.conv.state)
    ensures Quiet(w, InCapture(d, w, m))
  {
    match w.conv.state
    case AskName => AskedNameQuiet(w, m);
    case AskEmail => AskedDetailQuiet(w, m, EmailSlot);
    case AskEnrolledCourse => AskedDetailQuiet(w, m, CourseSlot);
    case AskPhone => AskedPhoneQuiet(d, w, m);
    case AskCallbackTime => AskedTimeQuiet(d, w, m);
    case AskRemarks => AskedRemarksQuiet(w, m);
  }

  lemma CountsOfAnswers()
    ensures forall kind :: Count([Answer], kind) == if kind == Answer then 1 else 0
    ensures forall kind ::
      Count([Answer, DiscountOffer], kind) == if kind == Answer || kind == DiscountOffer then 1 else 0
    ensures forall kind ::
      Count([Answer, CallbackOffer], kind) == if kind == Answer || kind == CallbackOffer then 1 else 0
  {
    assert multiset([Answer]) == multiset{Answer};
    assert multiset([Answer, DiscountOffer]) == multiset{Answer, DiscountOffer};
    assert multiset([Answer, CallbackOffer]) == multiset{Answer, CallbackOffer};
  }

  /** One more answer was counted, and nothing else that these laws look at. */
  predicate AnsweredOnce(w: World, x: World) {
    && !Capturing(w.conv.state) && Selling(x.conv.state) && x.conv.leadType == w.conv.leadType
    && x.conv.chat.qnaCount == w.conv.chat.qnaCount + 1
    && x.conv.chat.nudged == w.conv.chat.nudged && x.conv.chat.offerSent == w.conv.chat.offerSent
  }

  lemma AnswersAreKept(d: Deps, w: World, x: World, m: Inbound, resume: State)
    requires AnsweredOnce(w, x)
    ensures OfferDue(d, x.conv, m) ==> Kept(d, w, (Offered(x), Say([Answer, DiscountOffer])))
    ensures NudgeDue(d, x.conv) ==> Kept(d, w, (OfferCallback(x, resume), Say([Answer, CallbackOffer])))
    ensures Kept(d, w, (x, Say([Answer])))
  {
    CountsOfAnswers();
  }

  lemma AnswerAndNudgeKept(d: Deps, w: World, m: Inbound)
    requires w.conv.state.CourseQna? || w.conv.state.GeneralQna?
    ensures Kept(d, w, AnswerAndNudge(d, w, m))
  {
    AnswersAreKept(d, w, Counted(w), m, w.conv.state);
  }

  lemma DiscoveryKept(d: Deps, w: World, m: Inbound)
    requires w.conv.state.Discovery?
    ensures Kept(d, w, InDiscovery(d, w, m))
  {
    AnswersAreKept(d, w, Discovered(d, w, m), m, Discovery);
  }

  lemma MenuReplyKept(d: Deps, w: World, m: Inbound)
    ensures Kept(d, w, AtMenuReply(w, m))
  {
  }

  lemma MainMenuKept(d: Deps, w: World, m: Inbound)
    ensures Kept(d, w, AtMainMenu(w, m))
  {
    if ChosenFromMenu(m) == Some(ChooseCounselor) {
      StartCaptureQuiet(w, PreSales);
      QuietIsKept(d, w, StartCapture(w, PreSales));
    } else {
      MenuReplyKept(d, w, m);
    }
  }

  lemma SupportQueryKept(d: Deps, w: World, m: Inbound)
    ensures Kept(d, w, InSupportQuery(w, m)) && DiscountOffer !in InSupportQuery(w, m).1.replies
  {
    StartCaptureQuiet(w, PostSales);
  }

  /** The discount a handler shows after changing the state or the course is placed as if it had not. */
  lemma KeptFrom(d: Deps, w: World, x: World, o: Outcome)
    requires Kept(d, x, o) && x.conv.chat.(profile := None, supportTopic := None)
                              == w.conv.chat.(profile := None, supportTopic := None)
    requires DiscountOffer in o.1.replies ==> !Capturing(w.conv.state) && x.conv.leadType == w.conv.leadType
    ensures Kept(d, w, o)
  {
  }

  lemma StartKept(d: Deps, w: World, m: Inbound)
    ensures Kept(d, w, AtStart(InState(w, Start), m))
  {
    MainMenuKept(d, InState(w, MainMenu), m);
  }

  lemma QnaKept(d: Deps, w: World, m: Inbound)
    ensures w.conv.state.CourseQna? ==> Kept(d, w, InCourseQna(d, w, m))
    ensures w.conv.state.GeneralQna? ==> Kept(d, w, InGeneralQna(d, w, m))
  {
    if w.conv.state.CourseQna? {
      var course := if m.said.course.Some? then Some(m.said.course.value.slug) else w.conv.course;
      var x := WithProfile(w.(conv := w.conv.(course := course)), m);
      AnswerAndNudgeKept(d, x, m);
      KeptFrom(d, w, x, InCourseQna(d, w, m));
    } else if w.conv.state.GeneralQna? {
      var x := if m.said.course.Some?
               then w.(conv := w.conv.(state := CourseQna, course := Some(m.said.course.value.slug)))
               else w;
      AnswerAndNudgeKept(d, x, m);
      KeptFrom(d, w, x, InGeneralQna(d, w, m));
    }
  }

  lemma CourseGroupKept(d: Deps, w: World, m: Inbound)
    ensures Kept(d, w, AtCourseGroup(w, m))
  {
  }

  lemma CourseSelectionKept(d: Deps, w: World, m: Inbound)
    ensures Kept(d, w, AtCourseSelection(d, w, m))
  {
  }

  lemma EnrollmentTypeQuiet(w: World, m: Inbound)
    ensures Quiet(w, AtEnrollmentType(w, m))
  {
  }

  lemma SupportMenuKept(d: Deps, w: World, m: Inbound)
    ensures Kept(d, w, AtSupportMenu(w, m))
  {
    SupportQueryKept(d, w.(conv := w.conv.(state := SupportQuery, leadType := Some(PostSales))), m);
  }

  lemma SupportCallbackKept(d: Deps, w: World, m: Inbound)
    ensures Kept(d, w, InSupportCallback(w, m))
  {
    var escalate := m.tap == Some(ConfirmNo) || (m.tap.None? && (m.said.negative || m.said.wantsHuman));
    if escalate {
      StartCaptureQuiet(w, PostSales);
      QuietIsKept(d, w, StartCapture(w, PostSales));
    } else if !(m.tap == Some(ConfirmYes) || (m.tap.None? && m.said.affirmative)) {
      SupportQueryKept(d, InState(w, SupportQuery), m);
      KeptFrom(d, w, InState(w, SupportQuery), InSupportCallback(w, m));
    }
  }

  lemma AskedCallbackKept(d: Deps, w: World, m: Inbound)
    ensures Kept(d, w, AskedCallback(w, m))
  {
    var accepted := m.tap == Some(ConfirmYes) || (m.tap.None? && (m.said.affirmative || m.said.wantsHuman));
    if accepted {
      StartCaptureQuiet(w, w.conv.leadType.GetOr(PreSales));
      QuietIsKept(d, w, StartCaptureHere(w));
    }
  }

  lemma RescheduleQuiet(w: World, m: Inbound)
    ensures Quiet(w, AskedMove(w, m))
    ensures Quiet(w, StartReschedule(w, m.now))
    ensures Quiet(w, StartOrOfferMove(w, m.now))
  {
    StartCaptureQuiet(w, w.conv.leadType.GetOr(PreSales));
  }

  lemma ByStateKept(d: Deps, w: World, m: Inbound)
    ensures Kept(d, w, ByState(d, w, m))
  {
    if Capturing(w.conv.state) {
      InCaptureQuiet(d, w, m);
      QuietIsKept(d, w, InCapture(d, w, m));
      return;
    }
    match w.conv.state
    case Start => StartKept(d, w, m);
    case MainMenu => MainMenuKept(d, w, m);
    case CourseGroup => CourseGroupKept(d, w, m);
    case CourseSelection => CourseSelectionKept(d, w, m);
    case CourseQna => QnaKept(d, w, m);
    case GeneralQna => QnaKept(d, w, m);
    case Discovery => DiscoveryKept(d, w, m);
    case EnrollmentType => EnrollmentTypeQuiet(w, m); QuietIsKept(d, w, AtEnrollmentType(w, m));
    case SupportMenu => SupportMenuKept(d, w, m);
    case SupportQuery => SupportQueryKept(d, w, m);
    case SupportCallback => SupportCallbackKept(d, w, m);
    case AskCallback => AskedCallbackKept(d, w, m);
    case ConfirmReschedule => RescheduleQuiet(w, m); QuietIsKept(d, w, AskedMove(w, m));
    case LeadCreated => StartKept(d, w, m);
    case End => StartKept(d, w, m);
  }

  // ------------------------------------------------------------------
  // One turn, and any run
  // ------------------------------------------------------------------

  /** The chat a turn's entry is counted from. */
  function Base(c: Conv, m: Inbound): Chat {
    if StartsAfresh(c, m) then c.chat.(qnaCount := 0, nudged := false) else c.chat
  }

  lemma NavigationQuiet(d: Deps, w: World, m: Inbound)
    requires OnNavigation(d, w, m).Some? && !m.unsupported
    ensures Quiet(w.(conv := w.conv.(chat := Base(w.conv, m))), OnNavigation(d, w, m).value)
  {
    StartCaptureQuiet(w, w.conv.leadType.GetOr(PreSales));
  }

  lemma CommandQuiet(d: Deps, w: World, m: Inbound)
    requires OnCommand(d, w, m).Some? && !m.unsupported
    ensures Quiet(w.(conv := w.conv.(chat := Base(w.conv, m))), OnCommand(d, w, m).value)
  {
    RescheduleQuiet(w, m);
  }

  lemma TurnTallied(d: Deps, w: World, m: Inbound)
    ensures var o := Handle(d, w, m);
      Tallied(d, Base(w.conv, m), o.0.conv.chat, o.1.replies) && WellPlaced(w.conv, o.0.conv, o.1.replies)
  {
    var x := w.(conv := w.conv.(chat := Base(w.conv, m)));
    if m.unsupported {
    } else if OnOfferTap(w, m).Some? {
    } else if OnNavigation(d, w, m).Some? {
      NavigationQuiet(d, w, m);
      QuietIsKept(d, x, OnNavigation(d, w, m).value);
    } else if OnCommand(d, w, m).Some? {
      CommandQuiet(d, w, m);
      QuietIsKept(d, x, OnCommand(d, w, m).value);
    } else {
      ByStateKept(d, w, m);
    }
  }

  /** Everything sent over a run of one conversation. */
  function LedgerOf(d: Deps, w: World, ms: seq<Inbound>, l: Ledger): Ledger
    decreases |ms|
  {
    if ms == [] then l
    else
      var (next, r) := Handle(d, w, ms[0]);
      LedgerOf(d, next, ms[1..], Entered(l, w.conv, ms[0], r.replies))
  }

  lemma TurnBalanced(d: Deps, w: World, m: Inbound, l: Ledger)
    requires Balanced(d, w.conv.chat, l)
    ensures var (next, r) := Handle(d, w, m);
      Balanced(d, next.conv.chat, Entered(l, w.conv, m, r.replies))
  {
    TurnTallied(d, w, m);
  }

  /** Over any run of a conversation: since the last fresh start at most one callback offer, and
  none before the threshold of answers; at most one discount in the whole conversation. */
  lemma {:induction false} NudgesAreRationed(d: Deps, w: World, ms: seq<Inbound>, l: Ledger)
    requires Balanced(d, w.conv.chat, l)
    ensures var sent := LedgerOf(d, w, ms, l);
      && sent.nudges <= 1 && sent.discounts <= 1
      && sent.nudges * d.nudgeThreshold <= sent.answers
    decreases |ms|
  {
    if ms != [] {
      var (next, r) := Handle(d, w, ms[0]);
      TurnBalanced(d, w, ms[0], l);
      NudgesAreRationed(d, next, ms[1..], Entered(l, w.conv, ms[0], r.replies));
    }
  }

  /** No turn sends both offers, and a discount is never sent in a capture state or to an enrolled student. */
  lemma OffersAreWellPlaced(d: Deps, w: World, m: Inbound)
    ensures var replies := Handle(d, w, m).1.replies;
      && !(CallbackOffer in replies && DiscountOffer in replies)
      && WellPlaced(w.conv, Handle(d, w, m).0.conv, replies)
  {
    TurnTallied(d, w, m);
  }
}
