/** Where the fields of a lead row come from: what each turn adds to the form, and so, over a whole
conversation, which of its replies the row's email, course and number were taken from. */
module LeadRowLaws {
  import opened Wrappers
  import opened CallbackTime
  import opened Domain
  import opened Funnel
  import opened FunnelLaws
  import opened InputLaws
  import opened FormLaws
  import opened FunnelRuns
  import opened TimeText

  // ------------------------------------------------------------------
  // Turns outside a form
  // ------------------------------------------------------------------

  /** A reply in which someone says how they are enrolled by naming a course. */
  predicate NamesEnrolment(d: Deps, w: World, m: Inbound) {
    && Ordinary(d, w, m) && w.conv.state.EnrollmentType?
    && !m.said.paid && !m.said.free && m.said.course.Some?
  }

  /** No lead is written, and email, number and time are left alone; the course too, but for a reply
  that names the one enrolled in. */
  predicate LeavesForm(d: Deps, w: World, m: Inbound, o: Outcome) {
    var f, g := w.conv.form, o.0.conv.form;
    && o.1.lead.None? && o.0.leads == w.leads
    && g.email == f.email && g.contactPhone == f.contactPhone && g.pendingTime == f.pendingTime
    && g.enrolledCourse == if NamesEnrolment(d, w, m) then Some(m.said.course.value.name) else f.enrolledCourse
  }

  lemma TapLeavesForm(d: Deps, w: World, m: Inbound, tap: ReplyId)
    requires !m.unsupported && m.tap == Some(tap) && !ReachesForm(w, m) && !Ordinary(d, w, m)
    ensures LeavesForm(d, w, m, Handle(d, w, m))
  {
    OfferTap(d, w, m);
    if !Capturing(w.conv.state) {
      MenuTap(d, w, m);
      CourseTap(d, w, m);
    }
  }

  lemma CommandLeavesForm(d: Deps, w: World, m: Inbound)
    requires Typed(w, m) && !Ordinary(d, w, m)
    ensures LeavesForm(d, w, m, Handle(d, w, m))
  {
    UpcomingIsNext(w, m.now);
    Command(d, w, m, Upcoming(w, m.now));
  }

  lemma AnswerLeavesForm(d: Deps, w: World, c: Conv, m: Inbound, callable: bool)
    requires c.form == w.conv.form
    ensures var o := Answered(d, w, c, m, callable);
      o.1.lead.None? && o.0.leads == w.leads && o.0.conv.form == w.conv.form
  {
  }

  lemma QuestionLeavesForm(d: Deps, w: World, m: Inbound)
    requires Ordinary(d, w, m) && Selling(w.conv.state)
    ensures LeavesForm(d, w, m, Handle(d, w, m))
  {
    var next := Upcoming(w, m.now);
    UpcomingIsNext(w, m.now);
    match w.conv.state
    case CourseQna =>
      var c := CourseQuestion(d, w, m, next);
      AnswerLeavesForm(d, w, c, m, next.None?);
    case GeneralQna =>
      var c := if m.said.course.Some?
               then w.conv.(state := CourseQna, course := Some(m.said.course.value.slug)) else w.conv;
      GeneralQuestion(d, w, m, next);
      AnswerLeavesForm(d, w, c, m, next.None?);
    case _ =>
      var c := BrowsingQuestion(d, w, m);
      AnswerLeavesForm(d, w, c, m, true);
  }

  lemma MenuLeavesForm(w: World, m: Inbound)
    ensures var o := AtMenu(w, m);
      && o.1.lead.None? && o.0.leads == w.leads
      && o.0.conv.form == w.conv.form.(pendingName := o.0.conv.form.pendingName, askedPhone := o.0.conv.form.askedPhone)
  {
  }

  lemma MenusLeaveForm(d: Deps, w: World, m: Inbound)
    requires Ordinary(d, w, m)
    requires w.conv.state.MainMenu? || w.conv.state.CourseGroup? || w.conv.state.CourseSelection?
      || w.conv.state.Start? || w.conv.state.LeadCreated? || w.conv.state.End?
    ensures LeavesForm(d, w, m, Handle(d, w, m))
  {
    match w.conv.state
    case MainMenu =>
      MainMenuReply(d, w, m);
      MenuLeavesForm(w, m);
    case CourseGroup => CourseGroupReply(d, w, m);
    case CourseSelection => CourseSelectionReply(d, w, m);
    case _ =>
      FirstReply(d, w, m);
      MenuLeavesForm(w.(conv := w.conv.(state := MainMenu)), m);
  }

  lemma SupportLeavesForm(d: Deps, w: World, m: Inbound)
    requires Ordinary(d, w, m)
    requires w.conv.state.SupportMenu? || w.conv.state.SupportQuery? || w.conv.state.SupportCallback?
    ensures LeavesForm(d, w, m, Handle(d, w, m))
  {
    match w.conv.state
    case SupportMenu => SupportMenuReply(d, w, m);
    case SupportQuery => SupportReply(d, w, m);
    case _ => HelpCheckReply(d, w, m);
  }

  lemma ChoiceLeavesForm(d: Deps, w: World, m: Inbound)
    requires Ordinary(d, w, m)
    requires w.conv.state.EnrollmentType? || w.conv.state.AskCallback? || w.conv.state.ConfirmReschedule?
    ensures LeavesForm(d, w, m, Handle(d, w, m))
  {
    match w.conv.state
    case EnrollmentType => EnrollmentReply(d, w, m);
    case AskCallback => CallOfferReply(d, w, m);
    case _ =>
      UpcomingIsNext(w, m.now);
      MoveReply(d, w, m, Upcoming(w, m.now));
  }

  /** Only a reply to a form writes a lead or fills in a detail, but for the course enrolled in. */
  lemma OnlyFormsFill(d: Deps, w: World, m: Inbound)
    requires !ReachesForm(w, m)
    ensures LeavesForm(d, w, m, Handle(d, w, m))
  {
    if m.unsupported {
      MediaTurn(d, w, m);
    } else if !Ordinary(d, w, m) {
      if m.tap.Some? {
        TapLeavesForm(d, w, m, m.tap.value);
      } else {
        CommandLeavesForm(d, w, m);
      }
    } else if Selling(w.conv.state) {
      QuestionLeavesForm(d, w, m);
    } else if w.conv.state.MainMenu? || w.conv.state.CourseGroup? || w.conv.state.CourseSelection?
              || w.conv.state.Start? || w.conv.state.LeadCreated? || w.conv.state.End? {
      MenusLeaveForm(d, w, m);
    } else if w.conv.state.SupportMenu? || w.conv.state.SupportQuery? || w.conv.state.SupportCallback? {
      SupportLeavesForm(d, w, m);
    } else {
      ChoiceLeavesForm(d, w, m);
    }
  }

  // ------------------------------------------------------------------
  // What a turn hears
  // ------------------------------------------------------------------

  /** The number to call is confirmed to be the contact's own. */
  predicate ConfirmsNumber(m: Inbound) {
    m.tap == Some(PhoneConfirm) || (m.tap.None? && m.said.affirmative)
  }

  /** What is found in a reply to a question about the contact. */
  function HeardNow(w: World, m: Inbound): Option<Found> {
    if !ReachesForm(w, m) || Strip(m.text) == "" then None
    else if w.conv.state.AskPhone? && (ConfirmsNumber(m) || m.tap == Some(PhoneOther)) then None
    else if w.conv.state.AskCallbackTime? || w.conv.state.AskRemarks? then None
    else Some(m.said.found)
  }

  /** What is found beside a time that was taken: in a reply to that question, or to the one about the
  number when it gave none and the time was still open. */
  function HeardBeside(d: Deps, w: World, m: Inbound): Option<Found> {
    var asked :=
      || w.conv.state.AskCallbackTime?
      || (w.conv.state.AskPhone? && !ConfirmsNumber(m) && m.tap != Some(PhoneOther) && w.conv.form.pendingTime.None?
          && (Strip(m.text) == "" || m.said.found.phone.None?));
    if ReachesForm(w, m) && asked && Strip(m.text) != ""
       && d.validator.Parse(m.text, m.now, w.conv.form.pendingDate).slot.Some?
    then Some(m.said.foundLater)
    else None
  }

  function EmailOf(found: Option<Found>): Option<Text> {
    match found case Some(f) => f.email case None => None
  }

  function CourseOf(found: Option<Found>): Option<Text> {
    match found case Some(f) => NameOf(f.course) case None => None
  }

  function PhoneOf(found: Option<Found>): Option<Text> {
    match found case Some(f) => f.phone case None => None
  }

  function EmailHeard(d: Deps, w: World, m: Inbound): Option<Text> {
    Taken(EmailOf(HeardNow(w, m)), EmailOf(HeardBeside(d, w, m)))
  }

  function CourseHeard(d: Deps, w: World, m: Inbound): Option<Text> {
    Taken(CourseOf(HeardNow(w, m)), CourseOf(HeardBeside(d, w, m)))
  }

  /** The number given; asked for one, the contact's own unless they give another or say it is another. */
  function PhoneHeard(d: Deps, w: World, m: Inbound): Option<Text> {
    if ReachesForm(w, m) && w.conv.state.AskPhone? then
      if ConfirmsNumber(m) then Some(w.user.phone)
      else if m.tap == Some(PhoneOther) then None
      else Taken(PhoneOf(HeardNow(w, m)), Some(w.user.phone))
    else Taken(PhoneOf(HeardNow(w, m)), PhoneOf(HeardBeside(d, w, m)))
  }

  /** The form after a turn: a detail once known stays, and one still open is what this turn heard. */
  predicate Filled(d: Deps, w: World, m: Inbound, f: Form) {
    && f.email == Taken(w.conv.form.email, EmailHeard(d, w, m))
    && f.contactPhone == Taken(w.conv.form.contactPhone, PhoneHeard(d, w, m))
    && f.enrolledCourse == if NamesEnrolment(d, w, m) then Some(m.said.course.value.name)
                           else Taken(w.conv.form.enrolledCourse, CourseHeard(d, w, m))
  }

  predicate SameDetails(f: Form, g: Form) {
    f.email == g.email && f.contactPhone == g.contactPhone && f.enrolledCourse == g.enrolledCourse
  }

  lemma GoingOnKeepsDetails(w: World, form: Form)
    ensures SameDetails(GoesOn(w, form).0.conv.form, form)
  {
  }

  lemma NameFills(d: Deps, w: World, m: Inbound)
    requires ReachesForm(w, m) && w.conv.state.AskName?
    ensures Filled(d, w, m, NameReply(w, m).0.conv.form)
  {
    var form := Gathered(w.conv.form, m.text, m.said.found);
    var given := Taken(form.pendingName, m.said.wholeName);
    if given.Some? || form.nameAttempts >= 2 {
      var name: Text := match given
        case Some(n) => n
        case None => if w.user.profileName.Some? then w.user.profileName.value else "there";
      GoingOnKeepsDetails(w.(user := w.user.(name := Some(name))), form.(pendingName := Some(name), nameAttempts := 0));
    }
  }

  lemma DetailFills(d: Deps, w: World, m: Inbound, slot: FormSlot)
    requires ReachesForm(w, m) && (w.conv.state.AskEmail? || w.conv.state.AskEnrolledCourse?)
    ensures Filled(d, w, m, DetailReply(w, m, slot).0.conv.form)
  {
    var tried := TriedNow(w, m, slot);
    assert SameDetails(tried, Gathered(w.conv.form, m.text, m.said.found));
    GoingOnKeepsDetails(w.(conv := w.conv.(form := tried)), tried);
    GatheredFills(d, w, m);
  }

  lemma GatheredFills(d: Deps, w: World, m: Inbound)
    requires ReachesForm(w, m) && (w.conv.state.AskEmail? || w.conv.state.AskEnrolledCourse?)
    ensures Filled(d, w, m, Gathered(w.conv.form, m.text, m.said.found))
  {
  }

  /** What a reply with a time in it leaves in the details. */
  lemma TimeTells(w: World, m: Inbound, r: ParseResult)
    ensures SameDetails(TimeTold(w, m, r).0.conv.form,
                        if r.slot.Some? then Gathered(w.conv.form, m.text, m.said.foundLater) else w.conv.form)
  {
  }

  lemma TimeFills(d: Deps, w: World, m: Inbound)
    requires ReachesForm(w, m) && w.conv.state.AskCallbackTime?
    ensures Filled(d, w, m, TimeReply(d, w, m).0.conv.form)
  {
    TimeLeaves(d, w, m);
  }

  lemma TimeLeaves(d: Deps, w: World, m: Inbound)
    ensures SameDetails(TimeReply(d, w, m).0.conv.form,
                        if d.validator.Parse(m.text, m.now, w.conv.form.pendingDate).slot.Some?
                        then Gathered(w.conv.form, m.text, m.said.foundLater) else w.conv.form)
  {
    var announced := m.said.announcedName;
    var x := if announced.None? then w
             else w.(user := w.user.(name := announced),
                     conv := w.conv.(form := w.conv.form.(pendingName := announced)));
    TimeTells(x, m, d.validator.Parse(m.text, m.now, w.conv.form.pendingDate));
  }

  lemma PhoneSettledFills(d: Deps, w: World, m: Inbound)
    requires ReachesForm(w, m) && w.conv.state.AskPhone? && w.conv.form.contactPhone.None?
    requires ConfirmsNumber(m) || m.tap == Some(PhoneOther)
    ensures Filled(d, w, m, PhoneReply(d, w, m).0.conv.form)
  {
    GoingOnKeepsDetails(w, w.conv.form.(contactPhone := Some(w.user.phone)));
    GoingOnKeepsDetails(w, w.conv.form);
  }

  lemma PhoneGivenFills(d: Deps, w: World, m: Inbound)
    requires ReachesForm(w, m) && w.conv.state.AskPhone? && w.conv.form.contactPhone.None?
    requires !ConfirmsNumber(m) && m.tap != Some(PhoneOther) && Strip(m.text) != "" && m.said.found.phone.Some?
    ensures Filled(d, w, m, PhoneReply(d, w, m).0.conv.form)
  {
    GoingOnKeepsDetails(w, Gathered(w.conv.form, m.text, m.said.found));
  }

  lemma PhoneKeptFills(d: Deps, w: World, m: Inbound)
    requires ReachesForm(w, m) && w.conv.state.AskPhone? && w.conv.form.contactPhone.None?
    requires !ConfirmsNumber(m) && m.tap != Some(PhoneOther) && (Strip(m.text) == "" || m.said.found.phone.None?)
    ensures Filled(d, w, m, PhoneReply(d, w, m).0.conv.form)
  {
    var kept := Gathered(w.conv.form, m.text, m.said.found).(contactPhone := Some(w.user.phone));
    if kept.pendingTime.None? {
      TimeLeaves(d, w.(conv := w.conv.(state := AskCallbackTime, form := kept)), m);
    } else {
      GoingOnKeepsDetails(w, kept);
    }
  }

  lemma PhoneFills(d: Deps, w: World, m: Inbound)
    requires ReachesForm(w, m) && w.conv.state.AskPhone? && w.conv.form.contactPhone.None?
    ensures Filled(d, w, m, PhoneReply(d, w, m).0.conv.form)
  {
    if ConfirmsNumber(m) || m.tap == Some(PhoneOther) {
      PhoneSettledFills(d, w, m);
    } else if Strip(m.text) != "" && m.said.found.phone.Some? {
      PhoneGivenFills(d, w, m);
    } else {
      PhoneKeptFills(d, w, m);
    }
  }

  lemma FormFills(d: Deps, w: World, m: Inbound)
    requires ReachesForm(w, m) && FormSound(w.conv)
    ensures Filled(d, w, m, Handle(d, w, m).0.conv.form)
  {
    FormReply(d, w, m);
    match w.conv.state
    case AskName => NameFills(d, w, m);
    case AskEmail => DetailFills(d, w, m, EmailSlot);
    case AskEnrolledCourse => DetailFills(d, w, m, CourseSlot);
    case AskPhone => PhoneFills(d, w, m);
    case AskCallbackTime => TimeFills(d, w, m);
    case _ => RemarksFill(d, w, m);
  }

  lemma RemarksFill(d: Deps, w: World, m: Inbound)
    requires ReachesForm(w, m) && w.conv.state.AskRemarks?
    ensures Filled(d, w, m, RemarksReply(w, m).0.conv.form)
  {
  }

  lemma SlotsAreFilled(d: Deps, w: World, m: Inbound)
    requires FormSound(w.conv)
    ensures Filled(d, w, m, Handle(d, w, m).0.conv.form)
  {
    if ReachesForm(w, m) {
      FormFills(d, w, m);
    } else {
      OnlyFormsFill(d, w, m);
    }
  }

  // ------------------------------------------------------------------
  // The row
  // ------------------------------------------------------------------

  /** A new row, field by field: what was pending when its last reply came, and the details as that
  reply left them; the note only from the last question, and none when it was skipped. */
  predicate AsCollected(w: World, m: Inbound, o: Outcome, row: Lead) {
    var f := o.0.conv.form;
    && row.phone == w.user.phone
    && row.kind == Kind(w.conv)
    && row.status == NewLead
    && row.name == Taken(f.pendingName, Taken(o.0.user.name, w.user.profileName))
    && row.preferredTime == w.conv.form.pendingTime
    && row.preferredTimeRaw == w.conv.form.pendingTimeRaw
    && row.remarks == (if w.conv.state.AskRemarks? && !m.said.skip then Some(Cut(m.text, 2000)) else None)
    && row.contactPhone == (if f.contactPhone.Some? then f.contactPhone.value else w.user.phone)
    && row.email == f.email
    && row.enrolledCourse == f.enrolledCourse
    && row.profession == w.conv.chat.profile
    && row.issue == w.conv.chat.supportTopic
    && row.sync == Pending
  }

  predicate AddsRow(w: World, o: Outcome) {
    o.1.lead.Some? ==>
      || o.1.lead.value <= |w.leads|
      || (|o.0.leads| == |w.leads| + 1 && o.0.leads[..|w.leads|] == w.leads && o.1.lead == Some(|w.leads| + 1))
  }

  /** What an outcome that adds a row has in it. */
  predicate Collects(w: World, m: Inbound, o: Outcome) {
    AddsRow(w, o) && (o.1.lead == Some(|w.leads| + 1) ==> AsCollected(w, m, o, o.0.leads[|w.leads|]))
  }

  lemma GoingOnCollects(w: World, x: World, form: Form, m: Inbound)
    requires !w.conv.state.AskRemarks? && x.leads == w.leads
    requires x.user.phone == w.user.phone && x.user.profileName == w.user.profileName
    requires x.conv.leadType == w.conv.leadType && x.conv.chat == w.conv.chat
    requires form.pendingTime == w.conv.form.pendingTime && form.pendingTimeRaw == w.conv.form.pendingTimeRaw
    ensures Collects(w, m, GoesOn(x, form))
  {
  }

  lemma NameCollects(w: World, m: Inbound)
    requires w.conv.state.AskName?
    ensures Collects(w, m, NameReply(w, m))
  {
    var form := Gathered(w.conv.form, m.text, m.said.found);
    var given := Taken(form.pendingName, m.said.wholeName);
    if given.Some? || form.nameAttempts >= 2 {
      var name: Text := match given
        case Some(n) => n
        case None => if w.user.profileName.Some? then w.user.profileName.value else "there";
      GoingOnCollects(w, w.(user := w.user.(name := Some(name))),
                      form.(pendingName := Some(name), nameAttempts := 0), m);
    }
  }

  lemma DetailCollects(w: World, m: Inbound, slot: FormSlot)
    requires w.conv.state.AskEmail? || w.conv.state.AskEnrolledCourse?
    ensures Collects(w, m, DetailReply(w, m, slot))
  {
    var tried := TriedNow(w, m, slot);
    GoingOnCollects(w, w.(conv := w.conv.(form := tried)), tried, m);
  }

  lemma TimeWritesNothing(d: Deps, w: World, m: Inbound)
    ensures TimeReply(d, w, m).1.lead.None?
  {
    var announced := m.said.announcedName;
    var x := if announced.None? then w
             else w.(user := w.user.(name := announced),
                     conv := w.conv.(form := w.conv.form.(pendingName := announced)));
    TimeToldWritesNothing(x, m, d.validator.Parse(m.text, m.now, w.conv.form.pendingDate));
  }

  lemma TimeToldWritesNothing(w: World, m: Inbound, r: ParseResult)
    ensures TimeTold(w, m, r).1.lead.None?
  {
  }

  lemma PhoneCollects(d: Deps, w: World, m: Inbound)
    requires w.conv.state.AskPhone?
    ensures Collects(w, m, PhoneReply(d, w, m))
  {
    var form := w.conv.form;
    var given := Gathered(form, m.text, m.said.found);
    var kept := given.(contactPhone := Some(w.user.phone));
    GoingOnCollects(w, w, form.(contactPhone := Some(w.user.phone)), m);
    GoingOnCollects(w, w, form, m);
    GoingOnCollects(w, w, given, m);
    GoingOnCollects(w, w, kept, m);
    TimeWritesNothing(d, w.(conv := w.conv.(state := AskCallbackTime, form := kept)), m);
  }

  lemma RemarksCollect(w: World, m: Inbound)
    requires w.conv.state.AskRemarks?
    ensures Collects(w, m, RemarksReply(w, m))
  {
  }

  /** Every row a turn adds holds what was collected. */
  lemma NewRowIsAsCollected(d: Deps, w: World, m: Inbound)
    requires FormSound(w.conv)
    ensures Collects(w, m, Handle(d, w, m))
  {
    if !ReachesForm(w, m) {
      OnlyFormsFill(d, w, m);
    } else {
      FormReply(d, w, m);
      match w.conv.state
      case AskName => NameCollects(w, m);
      case AskEmail => DetailCollects(w, m, EmailSlot);
      case AskEnrolledCourse => DetailCollects(w, m, CourseSlot);
      case AskPhone => PhoneCollects(d, w, m);
      case AskCallbackTime => TimeWritesNothing(d, w, m);
      case _ => RemarksCollect(w, m);
    }
  }

  // ------------------------------------------------------------------
  // A whole conversation
  // ------------------------------------------------------------------

  /** One message of a conversation, and the contact and lead table as they were when it came: both
  may have changed in between. */
  datatype Exchange = Exchange(user: Contact, leads: seq<Lead>, message: Inbound)

  /** The conversation after these messages. */
  function After(d: Deps, talk: seq<Exchange>): Conv {
    if talk == [] then NEW_CONVERSATION
    else
      var last := talk[|talk| - 1];
      Handle(d, World(After(d, talk[..|talk| - 1]), last.user, last.leads), last.message).0.conv
  }

  /** The world the n-th message is handled in. */
  function At(d: Deps, talk: seq<Exchange>, n: nat): World
    requires n < |talk|
  {
    World(After(d, talk[..n]), talk[n].user, talk[n].leads)
  }

  /** Each turn starts from a sound form, as the turns of every run do. */
  predicate SoundTalk(d: Deps, talk: seq<Exchange>) {
    talk != [] ==>
      SoundTalk(d, talk[..|talk| - 1]) && FormSound(After(d, talk[..|talk| - 1]))
  }

  /** The emails heard, turn by turn. */
  function Emails(d: Deps, talk: seq<Exchange>): seq<Option<Text>> {
    if talk == [] then []
    else
      var last := |talk| - 1;
      Emails(d, talk[..last]) + [EmailHeard(d, At(d, talk, last), talk[last].message)]
  }

  /** The numbers to call heard, turn by turn. */
  function Phones(d: Deps, talk: seq<Exchange>): seq<Option<Text>> {
    if talk == [] then []
    else
      var last := |talk| - 1;
      Phones(d, talk[..last]) + [PhoneHeard(d, At(d, talk, last), talk[last].message)]
  }

  /** The first detail heard, or none when none was. */
  ghost predicate FirstHeard(heard: seq<Option<Text>>, detail: Option<Text>) {
    if detail.None? then forall n :: 0 <= n < |heard| ==> heard[n].None?
    else exists n :: 0 <= n < |heard| && heard[n] == detail && forall k :: 0 <= k < n ==> heard[k].None?
  }

  lemma OneMoreHeard(heard: seq<Option<Text>>, detail: Option<Text>, now: Option<Text>)
    requires FirstHeard(heard, detail)
    ensures FirstHeard(heard + [now], Taken(detail, now))
  {
    if detail.Some? {
      var n :| 0 <= n < |heard| && heard[n] == detail && forall k :: 0 <= k < n ==> heard[k].None?;
      assert (heard + [now])[n] == detail;
    } else if now.Some? {
      assert (heard + [now])[|heard|] == now;
    }
  }

  /** Throughout a conversation its email is the first one heard in it, and its number to call the
  first one given, confirmed or left at the contact's own. */
  lemma {:induction false} DetailsAreTheFirstHeard(d: Deps, talk: seq<Exchange>)
    requires SoundTalk(d, talk)
    ensures FirstHeard(Emails(d, talk), After(d, talk).form.email)
    ensures FirstHeard(Phones(d, talk), After(d, talk).form.contactPhone)
  {
    if talk != [] {
      var last := |talk| - 1;
      var before := talk[..last];
      DetailsAreTheFirstHeard(d, before);
      var w, m := At(d, talk, last), talk[last].message;
      SlotsAreFilled(d, w, m);
      OneMoreHeard(Emails(d, before), After(d, before).form.email, EmailHeard(d, w, m));
      OneMoreHeard(Phones(d, before), After(d, before).form.contactPhone, PhoneHeard(d, w, m));
    }
  }

  /** The row is what was collected, with the first email and the first number heard in the talk, or
  the contact's own number when none was. */
  ghost predicate RowOfTalk(d: Deps, talk: seq<Exchange>, o: Outcome)
    requires talk != []
  {
    var w, m := At(d, talk, |talk| - 1), talk[|talk| - 1].message;
    && |o.0.leads| == |w.leads| + 1 && o.0.leads[..|w.leads|] == w.leads
    && var row := o.0.leads[|w.leads|];
       && AsCollected(w, m, o, row) && FirstHeard(Emails(d, talk), row.email)
       && (FirstHeard(Phones(d, talk), Some(row.contactPhone))
           || (FirstHeard(Phones(d, talk), None) && row.contactPhone == w.user.phone))
  }

  lemma RowIsFromItsTalk(d: Deps, talk: seq<Exchange>)
    requires talk != [] && SoundTalk(d, talk)
    ensures var w, m := At(d, talk, |talk| - 1), talk[|talk| - 1].message;
      var o := Handle(d, w, m);
      o.1.lead == Some(|w.leads| + 1) ==> RowOfTalk(d, talk, o)
  {
    DetailsAreTheFirstHeard(d, talk);
    NewRowIsAsCollected(d, At(d, talk, |talk| - 1), talk[|talk| - 1].message);
  }

  // ------------------------------------------------------------------
  // Every run
  // ------------------------------------------------------------------

  /** The talk a conversation of a run came about by: its messages, in order. */
  predicate IsTalkOf(d: Deps, t: Thread, talk: seq<Exchange>) {
    && |talk| == |t.inbox| && SoundTalk(d, talk)
    && (forall n :: 0 <= n < |talk| ==> talk[n].message == t.inbox[n].message && talk[n].user.phone == t.phone)
    && (t.open ==> t.conv == After(d, talk))
  }

  ghost predicate HasTalk(d: Deps, t: Thread) {
    exists talk: seq<Exchange> :: IsTalkOf(d, t, talk)
  }

  ghost predicate AllTalks(d: Deps, threads: seq<Thread>) {
    forall k :: 0 <= k < |threads| ==> HasTalk(d, threads[k])
  }

  lemma NewThreadHasTalk(d: Deps, phone: Text)
    ensures HasTalk(d, Thread(phone, NEW_CONVERSATION, true, [], []))
  {
    assert IsTalkOf(d, Thread(phone, NEW_CONVERSATION, true, [], []), []);
  }

  lemma TalkGoesOn(d: Deps, talk: seq<Exchange>, next: Exchange)
    requires SoundTalk(d, talk) && FormSound(After(d, talk))
    ensures var more := talk + [next];
      && SoundTalk(d, more) && At(d, more, |talk|) == World(After(d, talk), next.user, next.leads)
      && After(d, more) == Handle(d, World(After(d, talk), next.user, next.leads), next.message).0.conv
  {
    assert (talk + [next])[..|talk|] == talk;
  }

  lemma ReplyIsOfTalk(d: Deps, t: Thread, talk: seq<Exchange>, next: Exchange, conv: Conv, r: TurnResult)
    requires IsTalkOf(d, t, talk) && t.open && next.user.phone == t.phone
    requires SoundTalk(d, talk + [next]) && After(d, talk + [next]) == conv
    ensures IsTalkOf(d, Replied(t, next.message, conv, r), talk + [next])
  {
  }

  /** The conversation a message finds, and the talk with that message. */
  lemma MessageExtendsTalk(d: Deps, s: Store, phone: Text, profileName: Option<Text>, m: Inbound)
      returns (talk: seq<Exchange>)
    requires Safe(d, s) && HasTalk(d, ThreadFor(s, phone))
    ensures talk != [] && SoundTalk(d, talk) && talk[|talk| - 1].message == m
    ensures At(d, talk, |talk| - 1) == WorldFor(s, phone, profileName)
    ensures var o := Handle(d, WorldFor(s, phone, profileName), m);
      IsTalkOf(d, Replied(ThreadFor(s, phone), m, o.0.conv, o.1), talk)
  {
    TurnStartsSound(d, s, phone, profileName);
    var t := ThreadFor(s, phone);
    var w := WorldFor(s, phone, profileName);
    var before: seq<Exchange> :| IsTalkOf(d, t, before);
    var next := Exchange(w.user, w.leads, m);
    TalkGoesOn(d, before, next);
    talk := before + [next];
    ReplyIsOfTalk(d, t, before, next, Handle(d, w, m).0.conv, Handle(d, w, m).1);
  }

  lemma FoundThreadHasTalk(d: Deps, s: Store, phone: Text)
    requires AllTalks(d, s.threads)
    ensures HasTalk(d, ThreadFor(s, phone))
  {
    NewThreadHasTalk(d, phone);
  }

  /** Every conversation of every run is a talk of its own messages. */
  lemma {:induction false} ThreadsAreTalks(d: Deps, events: seq<Event>)
    ensures AllTalks(d, Run(d, events).threads)
  {
    if events != [] {
      var before, e := events[..|events| - 1], events[|events| - 1];
      var s := Run(d, before);
      ThreadsAreTalks(d, before);
      RunsAreSafe(d, before);
      StepKeepsTalks(d, s, e);
    }
  }

  lemma PlacedKeepsTalks(d: Deps, threads: seq<Thread>, k: nat, t: Thread)
    requires AllTalks(d, threads) && k <= |threads| && HasTalk(d, t)
    ensures AllTalks(d, Placed(threads, k, t))
  {
  }

  lemma StepKeepsTalks(d: Deps, s: Store, e: Event)
    requires Safe(d, s) && AllTalks(d, s.threads)
    ensures AllTalks(d, Step(d, s, e).threads)
  {
    match e
    case Message(phone, profileName, m) =>
      FoundThreadHasTalk(d, s, phone);
      var talk := MessageExtendsTalk(d, s, phone, profileName, m);
      var o := Handle(d, WorldFor(s, phone, profileName), m);
      PlacedKeepsTalks(d, s.threads, IndexFor(s, phone), Replied(ThreadFor(s, phone), m, o.0.conv, o.1));
    case Paused(phone, _) =>
      FoundThreadHasTalk(d, s, phone);
      PlacedKeepsTalks(d, s.threads, IndexFor(s, phone), ThreadFor(s, phone));
    case _ =>
  }

  /** In every run, a row that a message adds is what its own conversation collected. */
  lemma RowsAreFromTheirTalks(
      d: Deps, events: seq<Event>, phone: Text, profileName: Option<Text>, m: Inbound) returns (talk: seq<Exchange>)
    ensures var s := Run(d, events);
      var w := WorldFor(s, phone, profileName);
      var o := Handle(d, w, m);
      && IsTalkOf(d, Replied(ThreadFor(s, phone), m, o.0.conv, o.1), talk)
      && talk != [] && At(d, talk, |talk| - 1) == w && talk[|talk| - 1].message == m
      && (o.1.lead == Some(|s.leads| + 1) ==> RowOfTalk(d, talk, o))
  {
    var s := Run(d, events);
    ThreadsAreTalks(d, events);
    RunsAreSafe(d, events);
    FoundThreadHasTalk(d, s, phone);
    talk := MessageExtendsTalk(d, s, phone, profileName, m);
    RowIsFromItsTalk(d, talk);
  }
}
