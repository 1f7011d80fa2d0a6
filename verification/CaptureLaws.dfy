/** Where capture leads and how long it takes: the questions about the contact end after at
most ten replies, only a tap on an old discount card leaves the form, and the day named in a
rejected reply is the day a later time-only reply is booked on. */
module CaptureLaws {
  import opened Wrappers
  import opened Calendar
  import opened CallbackTime
  import opened TimeText
  import opened Domain
  import opened Funnel
  import opened FunnelLaws

  /** A text, or a tap on anything but the discount card. */
  predicate Plain(m: Inbound) {
    !m.unsupported && m.tap != Some(OfferPayNow) && m.tap != Some(OfferDone) && m.tap != Some(OfferQuestion)
  }

  lemma PlainTurnInCapture(d: Deps, w: World, m: Inbound)
    requires Capturing(w.conv.state) && Plain(m)
    ensures Handle(d, w, m) == InCapture(d, w, m)
  {
    assert OnOfferTap(w, m).None? && OnNavigation(d, w, m).None? && OnCommand(d, w, m).None?;
  }

  // ------------------------------------------------------------------
  // What leaves a form
  // ------------------------------------------------------------------

  predicate OnCourse(s: State) {
    Capturing(s) || s.LeadCreated? || s.End? || s.SupportQuery?
  }

  /** Once all details are in, or one is refused, the form is left forwards. */
  predicate PastDetails(s: State) {
    s.AskCallbackTime? || s.AskRemarks? || s.LeadCreated? || s.SupportQuery?
  }

  lemma FinishCaptureState(x: World)
    requires x.conv.form.rescheduleLead.None?
    ensures var s := FinishCapture(x).0.conv.state; AsksDetail(s) || s.AskCallbackTime? || s.LeadCreated?
  {
  }

  lemma AskedTimeState(d: Deps, w: World, m: Inbound)
    requires w.conv.state.AskCallbackTime?
    ensures Capturing(AskedTime(d, w, m).0.conv.state)
  {
  }

  lemma AskedNameState(w: World, m: Inbound)
    requires w.conv.state.AskName? && w.conv.form.rescheduleLead.None?
    ensures var s := AskedName(w, m).0.conv.state; AsksDetail(s) || PastDetails(s)
  {
  }

  lemma AskedDetailState(w: World, m: Inbound, slot: FormSlot)
    requires w.conv.form.rescheduleLead.None?
    ensures var s := AskedDetail(w, m, slot).0.conv.state; AsksDetail(s) || PastDetails(s)
  {
    FinishCaptureState(Tried(w, m, slot));
  }

  lemma AskedPhoneState(d: Deps, w: World, m: Inbound)
    requires w.conv.form.rescheduleLead.None?
    ensures var s := AskedPhone(d, w, m).0.conv.state; Capturing(s) || PastDetails(s)
  {
    var absorbed := Absorb(w.conv.form, m.text, m.said.found);
    var accepted := WithForm(w, absorbed.(contactPhone := Some(w.user.phone)));
    if m.tap == Some(PhoneConfirm) || (m.tap.None? && m.said.affirmative) {
      FinishCaptureState(WithForm(w, w.conv.form.(contactPhone := Some(w.user.phone))));
    } else if m.tap == Some(PhoneOther) {
      FinishCaptureState(w);
    } else if w.conv.form.contactPhone.None? && absorbed.contactPhone.Some? {
      FinishCaptureState(WithForm(w, absorbed));
    } else if accepted.conv.form.pendingTime.Some? {
      FinishCaptureState(accepted);
    } else {
      AskedTimeState(d, InState(accepted, AskCallbackTime), m);
    }
  }

  lemma AskedRemarksState(w: World, m: Inbound)
    ensures var s := AskedRemarks(w, m).0.conv.state; s.LeadCreated? || s.End?
  {
  }

  /** A reply to a question about the contact leads to another one or past them all. */
  lemma DetailTurnState(d: Deps, w: World, m: Inbound)
    requires AsksDetail(w.conv.state) && w.conv.form.rescheduleLead.None?
    ensures var s := InCapture(d, w, m).0.conv.state; AsksDetail(s) || PastDetails(s)
  {
    match w.conv.state
    case AskName => AskedNameState(w, m);
    case AskEmail => AskedDetailState(w, m, EmailSlot);
    case AskEnrolledCourse => AskedDetailState(w, m, CourseSlot);
    case AskPhone => AskedPhoneState(d, w, m);
  }

  lemma CaptureTurnState(d: Deps, w: World, m: Inbound)
    requires FormSound(w.conv) && Capturing(w.conv.state)
    ensures OnCourse(InCapture(d, w, m).0.conv.state)
  {
    if w.conv.state.AskCallbackTime? {
      AskedTimeState(d, w, m);
    } else if w.conv.state.AskRemarks? {
      AskedRemarksState(w, m);
    } else {
      DetailTurnState(d, w, m);
    }
  }

  lemma CardTurnInCapture(d: Deps, w: World, m: Inbound)
    requires Capturing(w.conv.state) && !Plain(m)
    ensures Handle(d, w, m).0.conv.state
         == if m.unsupported || m.tap != Some(OfferQuestion) then w.conv.state
            else if w.conv.course.Some? then CourseQna else Discovery
  {
    assert m.unsupported || OnOfferTap(w, m).Some?;
  }

  /** From a capture state the machine leaves the form backwards exactly when the discount
  card's question button is tapped. */
  lemma OnlyOfferQuestionLeavesCapture(d: Deps, w: World, m: Inbound)
    requires FormSound(w.conv) && Capturing(w.conv.state)
    ensures OnCourse(Handle(d, w, m).0.conv.state) <==> (m.unsupported || m.tap != Some(OfferQuestion))
  {
    if Plain(m) {
      PlainTurnInCapture(d, w, m);
      CaptureTurnState(d, w, m);
    } else {
      CardTurnInCapture(d, w, m);
    }
  }

  // ------------------------------------------------------------------
  // How long the questions can last
  // ------------------------------------------------------------------

  function Max(a: int, b: int): int {
    if a < b then b else a
  }

  /** Replies the name question, one detail question and the phone question can still take. */
  function NameReplies(c: Conv): int {
    if c.form.pendingName.None? then MAX_NAME_ATTEMPTS + 1 - c.form.nameAttempts else 0
  }

  function DetailReplies(c: Conv, slot: FormSlot): int {
    if c.leadType == Some(PostSales) && !Filled(c.form, slot)
    then Max(1, MAX_SLOT_ATTEMPTS + 1 - Attempts(c.form, slot)) else 0
  }

  function PhoneReplies(c: Conv): int {
    if c.form.contactPhone.None? && (!c.form.askedPhone || c.state.AskPhone?) then 1 else 0
  }

  function RepliesLeft(c: Conv): int {
    NameReplies(c) + DetailReplies(c, EmailSlot) + DetailReplies(c, CourseSlot) + PhoneReplies(c)
  }

  /** Asking never adds to what is left. */
  lemma AskingCostsNothing(x: World)
    requires x.conv.form.rescheduleLead.None? && x.conv.form.nameAttempts <= MAX_NAME_ATTEMPTS
    requires x.conv.state.AskPhone? ==> x.conv.form.askedPhone && MissingDetail(x.conv).None?
    ensures var c := FinishCapture(x).0.conv;
      AsksDetail(c.state) ==> RepliesLeft(c) <= RepliesLeft(x.conv.(state := AskName))
  {
  }

  /** Settling the name uses up the name question. */
  lemma NamingCosts(w: World, c: Form, name: Text)
    requires w.conv.form.rescheduleLead.None? && c.rescheduleLead.None? && w.conv.state.AskName?
    requires w.conv.form.pendingName.None? && c.nameAttempts == w.conv.form.nameAttempts <= MAX_NAME_ATTEMPTS
    requires forall slot :: DetailReplies(w.conv.(form := c), slot) <= DetailReplies(w.conv, slot)
    requires PhoneReplies(w.conv.(form := c)) <= PhoneReplies(w.conv)
    ensures var after := FinishCapture(Named(w, c, name)).0.conv;
      AsksDetail(after.state) ==> RepliesLeft(after) < RepliesLeft(w.conv)
  {
    AskingCostsNothing(Named(w, c, name));
  }

  lemma NameTurnProgress(w: World, m: Inbound)
    requires FormSound(w.conv) && Bounded(w.conv) && w.conv.state.AskName?
    ensures var c := AskedName(w, m).0.conv;
      AsksDetail(c.state) ==> RepliesLeft(c) < RepliesLeft(w.conv)
  {
    var c := Absorb(w.conv.form, m.text, m.said.found);
    var given := OrElse(c.pendingName, m.said.wholeName);
    if given.Some? || c.nameAttempts == MAX_NAME_ATTEMPTS {
      NamingCosts(w, c, given.GetOr(w.user.profileName.GetOr("there")));
    }
  }

  /** A reply that does not give up has answered its question or used up an attempt at it. */
  lemma TryingCosts(w: World, m: Inbound, slot: FormSlot)
    requires FormSound(w.conv)
    requires (w.conv.state.AskEmail? && slot.EmailSlot?) || (w.conv.state.AskEnrolledCourse? && slot.CourseSlot?)
    ensures var tried := Tried(w, m, slot).conv;
      GivesUp(tried.form, m, slot) || RepliesLeft(tried.(state := AskName)) < RepliesLeft(w.conv)
  {
  }

  lemma DetailTurnProgress(w: World, m: Inbound, slot: FormSlot)
    requires FormSound(w.conv) && Bounded(w.conv)
    requires (w.conv.state.AskEmail? && slot.EmailSlot?) || (w.conv.state.AskEnrolledCourse? && slot.CourseSlot?)
    ensures var c := AskedDetail(w, m, slot).0.conv;
      AsksDetail(c.state) ==> RepliesLeft(c) < RepliesLeft(w.conv)
  {
    TryingCosts(w, m, slot);
    AskingCostsNothing(Tried(w, m, slot));
  }

  /** The phone question is the last one: whatever the reply, no question about the contact follows. */
  lemma PhoneTurnProgress(d: Deps, w: World, m: Inbound)
    requires FormSound(w.conv) && w.conv.state.AskPhone?
    ensures !AsksDetail(AskedPhone(d, w, m).0.conv.state)
  {
    var absorbed := Absorb(w.conv.form, m.text, m.said.found);
    var accepted := WithForm(w, absorbed.(contactPhone := Some(w.user.phone)));
    if m.tap == Some(PhoneConfirm) || (m.tap.None? && m.said.affirmative) {
      NothingLeftToAsk(WithForm(w, w.conv.form.(contactPhone := Some(w.user.phone))));
    } else if m.tap == Some(PhoneOther) {
      NothingLeftToAsk(w);
    } else if absorbed.contactPhone.Some? {
      NothingLeftToAsk(WithForm(w, absorbed));
    } else if accepted.conv.form.pendingTime.Some? {
      NothingLeftToAsk(accepted);
    } else {
      NoDetailAfterTime(d, InState(accepted, AskCallbackTime), m);
    }
  }

  lemma NothingLeftToAsk(x: World)
    requires MissingDetail(x.conv).None? && x.conv.form.askedPhone && x.conv.form.rescheduleLead.None?
    ensures !AsksDetail(FinishCapture(x).0.conv.state)
  {
  }

  lemma NoDetailAfterTime(d: Deps, w: World, m: Inbound)
    requires MissingDetail(w.conv).None? && w.conv.form.askedPhone && w.conv.state.AskCallbackTime?
    ensures !AsksDetail(AskedTime(d, w, m).0.conv.state)
  {
  }

  lemma DetailTurnCounts(d: Deps, w: World, m: Inbound)
    requires Sound(w) && AsksDetail(w.conv.state) && Plain(m)
    ensures 1 <= RepliesLeft(w.conv) <= 10
    ensures var c := Handle(d, w, m).0.conv;
      if AsksDetail(c.state) then RepliesLeft(c) < RepliesLeft(w.conv) else PastDetails(c.state)
  {
    PlainTurnInCapture(d, w, m);
    DetailTurnState(d, w, m);
    match w.conv.state
    case AskName => NameTurnProgress(w, m);
    case AskEmail => DetailTurnProgress(w, m, EmailSlot);
    case AskEnrolledCourse => DetailTurnProgress(w, m, CourseSlot);
    case AskPhone => PhoneTurnProgress(d, w, m);
  }

  /** Every one of these messages, in turn, answers a question about the contact. */
  predicate AnswersDetails(d: Deps, w: World, ms: seq<Inbound>)
    decreases |ms|
  {
    ms != [] ==>
      AsksDetail(w.conv.state) && Plain(ms[0]) && AnswersDetails(d, Handle(d, w, ms[0]).0, ms[1..])
  }

  /** Whatever the contact writes or taps, at most ten replies are taken for their name, email,
  course and number before the machine asks for a time, finishes, or goes back to support. */
  lemma {:induction false} DetailsTakeAtMostTenReplies(d: Deps, w: World, ms: seq<Inbound>)
    requires Sound(w) && AnswersDetails(d, w, ms)
    ensures |ms| <= 10 && (ms != [] ==> |ms| <= RepliesLeft(w.conv))
    decreases |ms|
  {
    if ms != [] {
      DetailTurnCounts(d, w, ms[0]);
      TurnKeeps(d, w, ms[0]);
      DetailsTakeAtMostTenReplies(d, Handle(d, w, ms[0]).0, ms[1..]);
    }
  }

  /** A text in which nothing is found. */
  predicate Blank(m: Inbound) {
    && Plain(m) && m.tap.None? && m.said.found == Found(None, None, None, None) && m.said.wholeName.None?
    && !m.said.skip && !m.said.declines && !m.said.affirmative
  }

  predicate Gives(m: Inbound, found: Found) {
    Plain(m) && m.tap.None? && Strip(m.text) != "" && m.said.found == found
  }

  lemma BlankNameReply(d: Deps, w: World, m: Inbound)
    requires Blank(m) && w.conv.state.AskName? && w.conv.form.pendingName.None?
    requires w.conv.form.nameAttempts < MAX_NAME_ATTEMPTS
    ensures Handle(d, w, m).0 == WithForm(w, w.conv.form.(nameAttempts := w.conv.form.nameAttempts + 1))
  {
    PlainTurnInCapture(d, w, m);
  }

  /** The third blank reply gives the name up and asks for the email. */
  lemma NameGivenUp(d: Deps, w: World, m: Inbound)
    requires Blank(m) && w.conv.state.AskName? && w.conv.form.pendingName.None? && w.conv.form.rescheduleLead.None?
    requires w.conv.form.nameAttempts == MAX_NAME_ATTEMPTS
    requires w.conv.leadType == Some(PostSales) && w.conv.form.email.None?
    ensures var x := Handle(d, w, m).0;
      x.conv.state.AskEmail? && x.conv.leadType == w.conv.leadType
      && x.conv.form == w.conv.form.(pendingName := x.conv.form.pendingName, nameAttempts := 0)
      && x.conv.form.pendingName.Some?
  {
    PlainTurnInCapture(d, w, m);
  }

  lemma BlankDetailReply(d: Deps, w: World, m: Inbound, slot: FormSlot)
    requires Blank(m) && w.conv.leadType == Some(PostSales) && MissingDetail(w.conv) == Some(slot)
    requires (slot.EmailSlot? && w.conv.state.AskEmail?) || (slot.CourseSlot? && w.conv.state.AskEnrolledCourse?)
    requires w.conv.form.rescheduleLead.None? && Attempts(w.conv.form, slot) < MAX_SLOT_ATTEMPTS
    ensures Handle(d, w, m).0
         == WithForm(w, WithAttempts(w.conv.form, slot, Attempts(w.conv.form, slot) + 1))
  {
    PlainTurnInCapture(d, w, m);
    assert Absorb(w.conv.form, m.text, m.said.found) == w.conv.form;
    var x := Tried(w, m, slot);
    assert WithKnownName(x) == x;
  }

  lemma EmailGiven(d: Deps, w: World, m: Inbound, email: Text)
    requires Gives(m, Found(Some(email), None, None, None)) && w.conv.leadType == Some(PostSales)
    requires w.conv.state.AskEmail? && MissingDetail(w.conv) == Some(EmailSlot) && w.conv.form.enrolledCourse.None?
    requires w.conv.form.rescheduleLead.None?
    ensures Handle(d, w, m).0
         == InState(WithForm(w, w.conv.form.(email := Some(email), emailAttempts := 0)), AskEnrolledCourse)
  {
    PlainTurnInCapture(d, w, m);
    var x := Tried(w, m, EmailSlot);
    assert x == WithForm(w, w.conv.form.(email := Some(email), emailAttempts := 0));
    assert WithKnownName(x) == x;
  }

  lemma CourseGiven(d: Deps, w: World, m: Inbound, course: Course)
    requires Gives(m, Found(None, None, Some(course), None)) && w.conv.leadType == Some(PostSales)
    requires w.conv.state.AskEnrolledCourse? && MissingDetail(w.conv) == Some(CourseSlot)
    requires w.conv.form.rescheduleLead.None? && w.conv.form.contactPhone.None? && !w.conv.form.askedPhone
    ensures Handle(d, w, m).0.conv.state.AskPhone?
  {
    PlainTurnInCapture(d, w, m);
    var x := Tried(w, m, CourseSlot);
    assert x == WithForm(w, w.conv.form.(enrolledCourse := Some(course.name), courseAttempts := 0));
    assert WithKnownName(x) == x;
  }

  lemma OneMoreAnswers(d: Deps, w: World, m: Inbound, ms: seq<Inbound>)
    requires AsksDetail(w.conv.state) && Plain(m) && AnswersDetails(d, Handle(d, w, m).0, ms)
    ensures AnswersDetails(d, w, [m] + ms)
  {
    assert ([m] + ms)[1..] == ms;
  }

  lemma CourseTakesThree(d: Deps, w: World, blank: Inbound, answer: Inbound, course: Course)
    requires Blank(blank) && Gives(answer, Found(None, None, Some(course), None)) && w.conv.leadType == Some(PostSales)
    requires w.conv.state.AskEnrolledCourse? && MissingDetail(w.conv) == Some(CourseSlot)
    requires w.conv.form.rescheduleLead.None? && w.conv.form.contactPhone.None? && !w.conv.form.askedPhone
    requires w.conv.form.courseAttempts == 0
    ensures AnswersDetails(d, w, [blank] + ([blank] + ([answer] + ([blank] + []))))
  {
    BlankDetailReply(d, w, blank, CourseSlot);
    var x := Handle(d, w, blank).0;
    BlankDetailReply(d, x, blank, CourseSlot);
    var y := Handle(d, x, blank).0;
    CourseGiven(d, y, answer, course);
    var z := Handle(d, y, answer).0;
    OneMoreAnswers(d, z, blank, []);
    OneMoreAnswers(d, y, answer, [blank] + []);
    OneMoreAnswers(d, x, blank, [answer] + ([blank] + []));
    OneMoreAnswers(d, w, blank, [blank] + ([answer] + ([blank] + [])));
  }

  lemma EmailTakesThree(d: Deps, w: World, blank: Inbound, answer: Inbound, email: Text, ms: seq<Inbound>)
    requires Blank(blank) && Gives(answer, Found(Some(email), None, None, None)) && w.conv.leadType == Some(PostSales)
    requires w.conv.state.AskEmail? && MissingDetail(w.conv) == Some(EmailSlot) && w.conv.form.enrolledCourse.None?
    requires w.conv.form.rescheduleLead.None? && w.conv.form.emailAttempts == 0
    requires AnswersDetails(
        d, InState(WithForm(w, w.conv.form.(email := Some(email), emailAttempts := 0)), AskEnrolledCourse), ms)
    ensures AnswersDetails(d, w, [blank] + ([blank] + ([answer] + ms)))
  {
    BlankDetailReply(d, w, blank, EmailSlot);
    var x := Handle(d, w, blank).0;
    BlankDetailReply(d, x, blank, EmailSlot);
    var y := Handle(d, x, blank).0;
    EmailGiven(d, y, answer, email);
    OneMoreAnswers(d, y, answer, ms);
    OneMoreAnswers(d, x, blank, [answer] + ms);
    OneMoreAnswers(d, w, blank, [blank] + ([answer] + ms));
  }

  lemma NameTakesThree(d: Deps, w: World, blank: Inbound, ms: seq<Inbound>) returns (named: World)
    requires Blank(blank) && w.conv.state.AskName? && w.conv.leadType == Some(PostSales)
    requires w.conv.form.pendingName.None? && w.conv.form.email.None? && w.conv.form.rescheduleLead.None?
    requires w.conv.form.nameAttempts == 0
    ensures named.conv.state.AskEmail? && named.conv.leadType == w.conv.leadType && named.conv.form.pendingName.Some?
    ensures named.conv.form == w.conv.form.(pendingName := named.conv.form.pendingName)
    ensures AnswersDetails(d, named, ms) ==> AnswersDetails(d, w, [blank] + ([blank] + ([blank] + ms)))
  {
    BlankNameReply(d, w, blank);
    var x := Handle(d, w, blank).0;
    BlankNameReply(d, x, blank);
    var y := Handle(d, x, blank).0;
    NameGivenUp(d, y, blank);
    named := Handle(d, y, blank).0;
    if AnswersDetails(d, named, ms) {
      OneMoreAnswers(d, y, blank, ms);
      OneMoreAnswers(d, x, blank, [blank] + ms);
      OneMoreAnswers(d, w, blank, [blank] + ([blank] + ms));
    }
  }

  /** The bound is reached: an enrolled student who answers every question only at the last
  chance spends ten replies on them. */
  lemma TenRepliesCanPass(
      d: Deps, w: World, blank: Inbound, givesEmail: Inbound, email: Text, givesCourse: Inbound, course: Course)
    returns (ms: seq<Inbound>)
    requires w.conv.state.AskName? && w.conv.leadType == Some(PostSales) && w.conv.form == EMPTY_FORM
    requires Blank(blank) && Gives(givesEmail, Found(Some(email), None, None, None))
    requires Gives(givesCourse, Found(None, None, Some(course), None))
    ensures |ms| == 10 && AnswersDetails(d, w, ms)
  {
    var rest := [blank] + ([blank] + ([givesCourse] + ([blank] + [])));
    var middle := [blank] + ([blank] + ([givesEmail] + rest));
    var named := NameTakesThree(d, w, blank, middle);
    var answered := named.conv.form.(email := Some(email), emailAttempts := 0);
    var known := InState(WithForm(named, answered), AskEnrolledCourse);
    CourseTakesThree(d, known, blank, givesCourse, course);
    EmailTakesThree(d, named, blank, givesEmail, email, rest);
    ms := [blank] + ([blank] + ([blank] + middle));
  }

  // ------------------------------------------------------------------
  // The remembered day
  // ------------------------------------------------------------------

  /** The day most recently named in these replies, or the one remembered before them. */
  function LastDayNamed(ms: seq<Inbound>, before: Option<Ordinal>): Option<Ordinal> {
    if ms == [] then before
    else LastDayNamed(ms[1..], OrElse(DayNamed(ms[0]), before))
  }

  predicate RejectedAt(d: Deps, w: World, m: Inbound) {
    w.conv.state.AskCallbackTime? && Plain(m) && Handle(d, w, m).0.conv.state.AskCallbackTime?
  }

  predicate AllRejected(d: Deps, w: World, ms: seq<Inbound>)
    decreases |ms|
  {
    ms != [] ==> RejectedAt(d, w, ms[0]) && AllRejected(d, Handle(d, w, ms[0]).0, ms[1..])
  }

  function After(d: Deps, w: World, ms: seq<Inbound>): World
    decreases |ms|
  {
    if ms == [] then w else After(d, Handle(d, w, ms[0]).0, ms[1..])
  }

  /** The time question is left exactly when the validator takes the reply. */
  lemma TimeTurn(d: Deps, w: World, m: Inbound)
    requires w.conv.state.AskCallbackTime? && Plain(m)
    ensures TimeAnswered(d, w.conv, m, Handle(d, w, m).0.conv)
  {
    PlainTurnInCapture(d, w, m);
    AskedTimeAnswers(d, w, m);
  }

  predicate TimeAnswered(d: Deps, before: Conv, m: Inbound, after: Conv) {
    var parsed := d.validator.Parse(m.text, m.now, before.form.pendingDate);
      && (after.state.AskCallbackTime? <==> parsed.slot.None?)
      && (parsed.slot.None? ==> after.form.pendingDate == OrElse(parsed.parsedDate, before.form.pendingDate))
      && (parsed.slot.Some? ==> after.form.pendingDate.None? && after.form.pendingTime == Some(parsed.slot.value.at))
  }

  lemma AskedTimeAnswers(d: Deps, w: World, m: Inbound)
    requires w.conv.state.AskCallbackTime?
    ensures TimeAnswered(d, w.conv, m, AskedTime(d, w, m).0.conv)
  {
    var named := WithAnnouncedName(w, m);
    var parsed := d.validator.Parse(m.text, m.now, w.conv.form.pendingDate);
    assert named.conv.form.pendingDate == w.conv.form.pendingDate;
    if parsed.slot.Some? {
      var timed := named.conv.form.(
        pendingDate := None, pendingTime := Some(parsed.slot.value.at), pendingTimeRaw := Some(TakeRaw(m.text)));
      var x := WithForm(named, Absorb(timed, m.text, m.said.foundLater));
      AskRemainingState(x, parsed.slot.value.at);
    }
  }

  lemma AskRemainingState(x: World, at: Moment)
    requires x.conv.form.pendingTime.Some?
    ensures var c := AskRemainingOrRemarks(x, at).0.conv;
      && !c.state.AskCallbackTime?
      && c.form.pendingDate == x.conv.form.pendingDate && c.form.pendingTime == x.conv.form.pendingTime
  {
  }

  /** Through any number of rejected replies the remembered day is the one most recently named. */
  lemma {:induction false} RejectedRepliesRememberLastDay(d: Deps, w: World, ms: seq<Inbound>)
    requires AllRejected(d, w, ms)
    ensures After(d, w, ms).conv.form.pendingDate == LastDayNamed(ms, w.conv.form.pendingDate)
    ensures w.conv.state.AskCallbackTime? ==> After(d, w, ms).conv.state.AskCallbackTime?
    decreases |ms|
  {
    if ms != [] {
      TimeTurn(d, w, ms[0]);
      RejectionKeepsDay(d, ms[0], w.conv.form.pendingDate);
      RejectedRepliesRememberLastDay(d, Handle(d, w, ms[0]).0, ms[1..]);
    }
  }

  /** The time of a reply that names a time, no day, and does not ask for the earliest slot. */
  function OnlyTime(v: Validator, m: Inbound): Option<TimeOfDay> {
    var cleaned := Lower(Strip(m.text));
    if cleaned == "" || ContainsAny(cleaned, ASAP_WORDS) || DayNamed(m).Some? then None else v.ParseTime(cleaned)
  }

  /** After rejected replies, a time-only reply is judged on the day last named as long as that
  day is not past: it is booked there, or nowhere. */
  lemma TimeOnlyReplyKeepsDay(d: Deps, w: World, ms: seq<Inbound>, m: Inbound)
    requires w.conv.state.AskCallbackTime? && AllRejected(d, w, ms)
    requires Plain(m) && OnlyTime(d.validator, m).Some?
    requires LastDayNamed(ms, w.conv.form.pendingDate).Some?
    requires m.now.day <= LastDayNamed(ms, w.conv.form.pendingDate).value
    ensures var at := Moment(LastDayNamed(ms, w.conv.form.pendingDate).value, OnlyTime(d.validator, m).value);
      var after := After(d, w, ms + [m]).conv;
      if d.validator.Accepts(at, m.now)
      then after.form.pendingTime == Some(at) && !after.state.AskCallbackTime?
      else after.state.AskCallbackTime? && after.form.pendingDate == Some(at.day)
  {
    RejectedRepliesRememberLastDay(d, w, ms);
    var x := After(d, w, ms);
    AfterOneMore(d, w, ms, m);
    TimeTurn(d, x, m);
    RememberedDayIsJudged(d.validator, m, x.conv.form.pendingDate.value);
  }

  lemma RememberedDayIsJudged(v: Validator, m: Inbound, day: Ordinal)
    requires OnlyTime(v, m).Some? && m.now.day <= day
    ensures var r := v.Parse(m.text, m.now, Some(day));
      var at := Moment(day, OnlyTime(v, m).value);
      && r.parsedDate == Some(day)
      && (if v.Accepts(at, m.now) then r.slot.Some? && r.slot.value.at == at else r.slot.None?)
  {
  }

  lemma {:induction false} AfterOneMore(d: Deps, w: World, ms: seq<Inbound>, m: Inbound)
    ensures After(d, w, ms + [m]) == Handle(d, After(d, w, ms), m).0
    decreases |ms|
  {
    if ms == [] {
      assert [m][1..] == [];
    } else {
      assert (ms + [m])[1..] == ms[1..] + [m];
      AfterOneMore(d, Handle(d, w, ms[0]).0, ms[1..], m);
    }
  }
}
