/** What each thing a contact can send does, outside a form: every button and every command, and
what a reply comes to in every state. The outcome is written out whole: the conversation after it,
the replies, and that nothing else changed. */
module InputLaws {
  import opened Wrappers
  import opened Calendar
  import opened Domain
  import opened Funnel
  import opened TimeText

  /** The conversation becomes c, these replies go out, and nothing else happens. */
  function Turn(w: World, c: Conv, replies: seq<Reply>): Outcome {
    (World(c, w.user, w.leads), TurnResult(replies, None, false))
  }

  function Kind(c: Conv): LeadType {
    if c.leadType == Some(PostSales) then PostSales else PreSales
  }

  lemma KindIs(c: Conv)
    ensures c.leadType.GetOr(PreSales) == Kind(c)
  {
    match c.leadType
    case None =>
    case Some(kind) => match kind case PreSales => case PostSales =>
  }

  /** A menu begins again: no course, no answers counted, no nudge made. */
  function Cleared(c: Conv): Conv {
    c.(course := None, chat := c.chat.(qnaCount := 0, nudged := false))
  }

  function OneMoreAnswer(c: Conv): Conv {
    c.(chat := c.chat.(qnaCount := c.chat.qnaCount + 1))
  }

  // ------------------------------------------------------------------
  // A booking begins
  // ------------------------------------------------------------------

  /** The name a booking starts with: the contact's, or the one given in this conversation. */
  function KnownName(w: World): Option<Text> {
    if w.user.name.Some? then w.user.name else w.conv.form.pendingName
  }

  /** What is asked first: the name; from a student email and course; the number to call, once; the time. */
  function AskedFirst(w: World, kind: LeadType): State {
    var form := w.conv.form;
    if form.rescheduleLead.Some? then if w.user.name.Some? then AskCallbackTime else AskName
    else if KnownName(w).None? then AskName
    else if kind.PostSales? && form.email.None? then AskEmail
    else if kind.PostSales? && form.enrolledCourse.None? then AskEnrolledCourse
    else if form.contactPhone.None? && !form.askedPhone then AskPhone
    else if form.pendingTime.None? || w.user.name.Some? then AskCallbackTime
    else AskName
  }

  function QuestionOf(s: State): Reply {
    match s
    case AskName => Ask(NameSlot)
    case AskEmail => Ask(EmailSlot)
    case AskEnrolledCourse => Ask(CourseSlot)
    case AskPhone => PhoneCheck
    case _ => Ask(TimeSlot)
  }

  /** A booking of this kind begins with its first question, after a note or without. */
  function Booking(w: World, kind: LeadType, noted: bool): Outcome {
    var s := AskedFirst(w, kind);
    var form := w.conv.form.(
      pendingName := KnownName(w), askedPhone := w.conv.form.askedPhone || s.AskPhone?);
    Turn(w, w.conv.(state := s, leadType := Some(kind), form := form),
         if noted then [Note, QuestionOf(s)] else [QuestionOf(s)])
  }

  lemma BookingBegins(w: World, kind: LeadType)
    ensures StartCapture(w, kind) == Booking(w, kind, false)
    ensures [Note] + StartCapture(w, kind).1.replies == Booking(w, kind, true).1.replies
    ensures AskedFirst(w, kind) in {AskName, AskEmail, AskEnrolledCourse, AskPhone, AskCallbackTime}
  {
  }

  // ------------------------------------------------------------------
  // An existing booking
  // ------------------------------------------------------------------

  predicate StillOpen(w: World, k: int, now: Moment) {
    && 0 <= k < |w.leads| && w.leads[k].phone == w.user.phone && w.leads[k].status.NewLead?
    && w.leads[k].preferredTime.Some? && Instant(now) <= Instant(w.leads[k].preferredTime.value)
  }

  /** The contact's next booking: the earliest one still open, of two at the same time the older row. */
  predicate NextBooking(w: World, now: Moment, id: Option<nat>) {
    match id
    case None => forall k :: 0 <= k < |w.leads| ==> !StillOpen(w, k, now)
    case Some(n) =>
      && StillOpen(w, n - 1, now)
      && forall k :: 0 <= k < |w.leads| && StillOpen(w, k, now) && k != n - 1 ==>
           var (best, other) := (Instant(w.leads[n - 1].preferredTime.value), Instant(w.leads[k].preferredTime.value));
           best < other || (best == other && n - 1 < k)
  }

  lemma OpenMeans(w: World, k: nat, now: Moment)
    requires k < |w.leads|
    ensures Open(w.leads[k], w.user.phone, now) <==> StillOpen(w, k, now)
  {
    if w.leads[k].preferredTime.Some? {
      MomentOrder(now, w.leads[k].preferredTime.value);
    }
  }

  predicate FirstOf(w: World, n: nat, now: Moment, id: Option<nat>) {
    match id
    case None => forall k :: 0 <= k < n ==> !StillOpen(w, k, now)
    case Some(b) =>
      && 1 <= b <= n && StillOpen(w, b - 1, now)
      && forall k :: 0 <= k < n && StillOpen(w, k, now) && k != b - 1 ==>
           var (best, other) := (Instant(w.leads[b - 1].preferredTime.value), Instant(w.leads[k].preferredTime.value));
           best < other || (best == other && b - 1 < k)
  }

  function Better(w: World, n: nat, now: Moment, best: Option<nat>): Option<nat>
    requires n < |w.leads| && FirstOf(w, n, now, best)
  {
    if !StillOpen(w, n, now) then best
    else if best.None? || Instant(w.leads[n].preferredTime.value) < Instant(w.leads[best.value - 1].preferredTime.value)
    then Some(n + 1)
    else best
  }

  lemma OneMoreRow(w: World, n: nat, now: Moment, best: Option<nat>)
    requires n < |w.leads| && FirstOf(w, n, now, best)
    ensures FirstOf(w, n + 1, now, Better(w, n, now, best))
  {
  }

  lemma ScanStep(w: World, n: nat, now: Moment, best: Option<nat>)
    requires n < |w.leads| && best == UpcomingAmong(w.leads, n, w.user.phone, now) && FirstOf(w, n, now, best)
    ensures UpcomingAmong(w.leads, n + 1, w.user.phone, now) == Better(w, n, now, best)
  {
    OpenMeans(w, n, now);
    if best.Some? && StillOpen(w, n, now) {
      MomentOrder(w.leads[n].preferredTime.value, w.leads[best.value - 1].preferredTime.value);
    }
  }

  lemma NextRow(w: World, n: nat, now: Moment, best: Option<nat>, better: Option<nat>)
    requires n < |w.leads| && best == UpcomingAmong(w.leads, n, w.user.phone, now) && FirstOf(w, n, now, best)
    requires better == UpcomingAmong(w.leads, n + 1, w.user.phone, now)
    ensures FirstOf(w, n + 1, now, better)
  {
    OneMoreRow(w, n, now, best);
    ScanStep(w, n, now, best);
  }

  lemma {:induction false} UpcomingIsFirst(w: World, n: nat, now: Moment) returns (best: Option<nat>)
    requires n <= |w.leads|
    ensures best == UpcomingAmong(w.leads, n, w.user.phone, now) && FirstOf(w, n, now, best)
  {
    best := UpcomingAmong(w.leads, n, w.user.phone, now);
    if n != 0 {
      var before := UpcomingIsFirst(w, n - 1, now);
      NextRow(w, n - 1, now, before, best);
    }
  }

  /** The scan over the lead table finds the contact's next booking. */
  lemma UpcomingIsNext(w: World, now: Moment)
    ensures NextBooking(w, now, Upcoming(w, now))
  {
    var next := UpcomingIsFirst(w, |w.leads|, now);
  }

  lemma NextBookingIsOne(w: World, now: Moment, a: Option<nat>, b: Option<nat>)
    requires NextBooking(w, now, a) && NextBooking(w, now, b)
    ensures a == b
  {
    if a.Some? {
      assert StillOpen(w, a.value - 1, now);
    }
  }

  /** A new time is asked for this booking. */
  function Moving(w: World, id: nat): Outcome
    requires 1 <= id <= |w.leads|
  {
    var form := w.conv.form.(rescheduleLead := Some(id), pendingDate := None);
    Turn(w, w.conv.(state := AskCallbackTime, leadType := Some(w.leads[id - 1].kind), form := form), [Ask(TimeSlot)])
  }

  // ------------------------------------------------------------------
  // Taps and media
  // ------------------------------------------------------------------

  /** A payment receipt counts once the pay link was sent; anything else unreadable changes nothing. */
  lemma MediaTurn(d: Deps, w: World, m: Inbound)
    requires m.unsupported
    ensures Handle(d, w, m) ==
      (if m.image && w.conv.chat.payLinkSent then w.(user := w.user.(paymentProof := true)) else w,
       TurnResult([Note], None, false))
  {
  }

  /** The discount card, in a form or not. */
  lemma OfferTap(d: Deps, w: World, m: Inbound)
    requires !m.unsupported
    ensures var c := w.conv;
      && (m.tap == Some(OfferPayNow) ==> Handle(d, w, m) == Turn(w, c.(chat := c.chat.(payLinkSent := true)), [Note]))
      && (m.tap == Some(OfferDone) ==> Handle(d, w, m) == Turn(w, c, [Note]))
      && (m.tap == Some(OfferQuestion) ==>
            Handle(d, w, m) == Turn(w, c.(state := if c.course.Some? then CourseQna else Discovery), [Note]))
  {
  }

  /** The menu buttons, from every state outside a form. */
  lemma MenuTap(d: Deps, w: World, m: Inbound)
    requires !m.unsupported && !Capturing(w.conv.state)
    ensures var c, o := w.conv, Handle(d, w, m);
      && (m.tap == Some(MenuCourses) ==>
            o == Turn(w, Cleared(c).(state := CourseGroup, leadType := Some(Kind(c))), [Menu]))
      && (m.tap == Some(MenuEnrolled) ==> o == Turn(w, Cleared(c).(state := EnrollmentType), [Menu]))
      && (m.tap == Some(MenuCounselor) ==> o == Booking(w, Kind(c), false))
      && (m.tap == Some(EnrolledPaid) ==>
            o == Turn(w, c.(state := SupportMenu, leadType := Some(PostSales)), [Menu]))
      && (m.tap == Some(EnrolledFree) || m.tap == Some(CourseUnsure) ==>
            o == Turn(w, c.(state := Discovery, leadType := Some(PreSales), course := None), [Note]))
  {
    KindIs(w.conv);
    BookingBegins(w, Kind(w.conv));
  }

  /** The course buttons, from every state outside a form. */
  lemma CourseTap(d: Deps, w: World, m: Inbound)
    requires !m.unsupported && !Capturing(w.conv.state)
    ensures var c, o := w.conv, Handle(d, w, m);
      && (m.tap == Some(GroupCohort) || m.tap == Some(GroupAdvance) ==>
            o == Turn(w, c.(state := CourseSelection, leadType := Some(Kind(c))), [Menu]))
      && (m.tap == Some(CourseOthers) ==> o == Turn(w, c.(state := CourseSelection), [Menu]))
      && (m.tap.Some? && m.tap.value.CourseRow? && m.tap.value.slug in d.courses ==>
            var course := d.courses[m.tap.value.slug];
            o == Turn(w, c.(state := CourseQna, course := Some(course.slug), leadType := Some(Kind(c))), [Note]))
  {
    KindIs(w.conv);
  }

  // ------------------------------------------------------------------
  // Typed commands
  // ------------------------------------------------------------------

  predicate Typed(w: World, m: Inbound) {
    !m.unsupported && m.tap.None? && !Capturing(w.conv.state)
  }

  predicate AsksForMenu(m: Inbound) {
    m.said.wantsMenu || m.said.greeting
  }

  predicate AsksForCatalogue(w: World, m: Inbound) {
    m.said.wantsCourses || (w.conv.course.None? && m.said.wantsTeaching)
  }

  /** These states read a request for a person themselves. */
  predicate HearsThemselves(s: State) {
    s.AskCallback? || s.SupportCallback? || s.ConfirmReschedule?
  }

  /** A typed command, wherever it is typed outside a form: the menu before the catalogue, that before
  moving a booking, and that before a counselor. */
  lemma Command(d: Deps, w: World, m: Inbound, next: Option<nat>)
    requires Typed(w, m) && NextBooking(w, m.now, next)
    ensures var c, o := w.conv, Handle(d, w, m);
      if AsksForMenu(m) then o == Turn(w, Cleared(c).(state := MainMenu), [Menu])
      else if AsksForCatalogue(w, m) then o == Turn(w, c.(state := CourseGroup, leadType := Some(Kind(c))), [Menu])
      else if m.said.wantsReschedule then
        o == if next.Some? then Moving(w, next.value) else Booking(w, Kind(c), true)
      else if m.said.wantsHuman && !HearsThemselves(c.state) then
        o == if next.Some? then Turn(w, c.(state := ConfirmReschedule), [MoveOrAnother(next)])
             else Booking(w, Kind(c), false)
      else true
  {
    UpcomingIsNext(w, m.now);
    NextBookingIsOne(w, m.now, next, Upcoming(w, m.now));
    KindIs(w.conv);
    BookingBegins(w, Kind(w.conv));
  }

  // ------------------------------------------------------------------
  // Replies, state by state
  // ------------------------------------------------------------------

  /** The buttons that mean something only where they were offered. */
  predicate LocalTap(d: Deps, tap: ReplyId) {
    match tap
    case CourseRow(slug) => slug !in d.courses
    case _ =>
      || tap.MenuGeneral? || tap.GroupUnknown? || tap.SupportRow? || tap.RescheduleMove? || tap.RescheduleNew?
      || tap.ConfirmYes? || tap.ConfirmNo? || tap.PhoneConfirm? || tap.PhoneOther? || tap.Retired?
  }

  /** Neither a form, nor a button that works everywhere, nor a command. */
  predicate Ordinary(d: Deps, w: World, m: Inbound) {
    && !m.unsupported && !Capturing(w.conv.state)
    && match m.tap
       case Some(tap) => LocalTap(d, tap)
       case None =>
         && !AsksForMenu(m) && !AsksForCatalogue(w, m) && !m.said.wantsReschedule
         && (m.said.wantsHuman ==> HearsThemselves(w.conv.state))
  }

  lemma OrdinaryTurn(d: Deps, w: World, m: Inbound)
    requires Ordinary(d, w, m)
    ensures Handle(d, w, m) == ByState(d, w, m)
  {
  }

  function BrowsingFor(w: World): Outcome {
    Turn(w, w.conv.(state := Discovery, leadType := Some(PreSales), course := None), [Note])
  }

  function CourseChosen(w: World, course: Course): Outcome {
    Turn(w, w.conv.(state := CourseQna, course := Some(course.slug), leadType := Some(PreSales)), [Note])
  }

  /** A question put at a menu is answered, and the talk becomes a general one. */
  function AnsweredAtMenu(w: World): Outcome {
    Turn(w, OneMoreAnswer(w.conv).(state := GeneralQna, leadType := Some(Kind(w.conv))), [Answer])
  }

  /** A support question is answered and the contact asked whether that helped; a person is called for
  when they ask for one. */
  function SupportAnswered(w: World, m: Inbound): Outcome {
    if m.said.wantsHuman then Booking(w, PostSales, false)
    else Turn(w, OneMoreAnswer(w.conv).(state := SupportCallback), [Answer, HelpCheck])
  }

  lemma SupportMeans(w: World, m: Inbound)
    ensures InSupportQuery(w, m) == SupportAnswered(w, m)
  {
    BookingBegins(w, PostSales);
  }

  lemma HelpCheckMeans(w: World, m: Inbound)
    ensures InSupportCallback(w, m) ==
      if m.tap == Some(ConfirmNo) then Booking(w, PostSales, false)
      else if m.tap == Some(ConfirmYes) then Turn(w, w.conv.(state := SupportQuery), [Note])
      else if m.tap.None? && (m.said.negative || m.said.wantsHuman) then Booking(w, PostSales, false)
      else if m.tap.None? && m.said.affirmative then Turn(w, w.conv.(state := SupportQuery), [Note])
      else SupportAnswered(w, m)
  {
    BookingBegins(w, PostSales);
    SupportMeans(InState(w, SupportQuery), m);
  }

  /** After an answer: "please call me" is the no button, "that helped" the yes button. */
  lemma HelpCheckReply(d: Deps, w: World, m: Inbound)
    requires Ordinary(d, w, m) && w.conv.state.SupportCallback?
    ensures var o := Handle(d, w, m);
      if m.tap == Some(ConfirmNo) then o == Booking(w, PostSales, false)
      else if m.tap == Some(ConfirmYes) then o == Turn(w, w.conv.(state := SupportQuery), [Note])
      else if m.tap.None? && (m.said.negative || m.said.wantsHuman) then o == Booking(w, PostSales, false)
      else if m.tap.None? && m.said.affirmative then o == Turn(w, w.conv.(state := SupportQuery), [Note])
      else o == SupportAnswered(w, m)
  {
    OrdinaryTurn(d, w, m);
    HelpCheckMeans(w, m);
  }

  lemma SupportReply(d: Deps, w: World, m: Inbound)
    requires Ordinary(d, w, m) && w.conv.state.SupportQuery?
    ensures Handle(d, w, m) == SupportAnswered(w, m)
  {
    OrdinaryTurn(d, w, m);
    SupportMeans(w, m);
  }

  function AtSupport(w: World, m: Inbound): Outcome {
    var student := w.conv.(leadType := Some(PostSales));
    var topic := if m.tap.Some? && m.tap.value.SupportRow? then Some(m.tap.value.topic) else m.said.topic;
    if topic.Some? then
      Turn(w, student.(state := SupportQuery, chat := student.chat.(supportTopic := topic)), [Note])
    else if m.said.atLeastThreeWords then SupportAnswered(w.(conv := student), m)
    else Turn(w, student, [Note, Menu])
  }

  lemma SupportMenuMeans(w: World, m: Inbound)
    ensures AtSupportMenu(w, m) == AtSupport(w, m)
  {
    SupportMeans(w.(conv := w.conv.(leadType := Some(PostSales), state := SupportQuery)), m);
  }

  /** At the support menu: a topic tapped, else one written, else a question, else the menu again. */
  lemma SupportMenuReply(d: Deps, w: World, m: Inbound)
    requires Ordinary(d, w, m) && w.conv.state.SupportMenu?
    ensures Handle(d, w, m) == AtSupport(w, m)
  {
    OrdinaryTurn(d, w, m);
    SupportMenuMeans(w, m);
  }

  /** How someone is enrolled: paid, free, or by the course they name. */
  lemma EnrollmentReply(d: Deps, w: World, m: Inbound)
    requires Ordinary(d, w, m) && w.conv.state.EnrollmentType?
    ensures var student := w.conv.(state := SupportMenu, leadType := Some(PostSales));
      Handle(d, w, m) ==
        if m.said.paid then Turn(w, student, [Menu])
        else if m.said.free then BrowsingFor(w)
        else if m.said.course.Some? then
          var course := m.said.course.value;
          var form := w.conv.form.(enrolledCourse := Some(course.name));
          if course.free then BrowsingFor(w.(conv := w.conv.(form := form)))
          else Turn(w, student.(form := form), [Menu])
        else Turn(w, w.conv, [Note, Menu])
  {
    OrdinaryTurn(d, w, m);
  }

  /** Where an interrupted talk goes on. */
  function Resumed(c: Conv): State {
    if c.chat.returnState.Some? then c.chat.returnState.value
    else if Kind(c).PostSales? then SupportQuery
    else if c.course.Some? then CourseQna
    else GeneralQna
  }

  /** The offer of a call: taken, declined, or talked past. */
  lemma CallOfferReply(d: Deps, w: World, m: Inbound)
    requires Ordinary(d, w, m) && w.conv.state.AskCallback?
    ensures var back := w.conv.(state := Resumed(w.conv));
      Handle(d, w, m) ==
        if m.tap == Some(ConfirmYes) then Booking(w, Kind(w.conv), false)
        else if m.tap == Some(ConfirmNo) then Turn(w, back, [Note])
        else if m.tap.None? && (m.said.affirmative || m.said.wantsHuman) then Booking(w, Kind(w.conv), false)
        else if m.tap.None? && m.said.negative then Turn(w, back, [Note])
        else Turn(w, OneMoreAnswer(back), [Answer])
  {
    OrdinaryTurn(d, w, m);
    KindIs(w.conv);
    BookingBegins(w, Kind(w.conv));
  }

  lemma MoveMeans(w: World, m: Inbound, next: Option<nat>)
    requires NextBooking(w, m.now, next)
    ensures AskedMove(w, m) ==
      if m.tap == Some(RescheduleNew) || m.said.negative then
        Turn(w, w.conv.(state := AskCallbackTime, form := w.conv.form.(rescheduleLead := None)), [Ask(TimeSlot)])
      else if (m.tap == Some(RescheduleMove) || m.said.affirmative) && next.Some? then Moving(w, next.value)
      else Turn(w, w.conv, [MoveOrAnother(next)])
  {
    UpcomingIsNext(w, m.now);
    NextBookingIsOne(w, m.now, next, Upcoming(w, m.now));
  }

  /** Whether to move a booking: another one, a new time for it, or asked again. */
  lemma MoveReply(d: Deps, w: World, m: Inbound, next: Option<nat>)
    requires Ordinary(d, w, m) && w.conv.state.ConfirmReschedule? && NextBooking(w, m.now, next)
    ensures Handle(d, w, m) ==
      if m.tap == Some(RescheduleNew) || m.said.negative then
        Turn(w, w.conv.(state := AskCallbackTime, form := w.conv.form.(rescheduleLead := None)), [Ask(TimeSlot)])
      else if (m.tap == Some(RescheduleMove) || m.said.affirmative) && next.Some? then Moving(w, next.value)
      else Turn(w, w.conv, [MoveOrAnother(next)])
  {
    OrdinaryTurn(d, w, m);
    MoveMeans(w, m, next);
  }

  /** At the list of course groups. */
  lemma CourseGroupReply(d: Deps, w: World, m: Inbound)
    requires Ordinary(d, w, m) && w.conv.state.CourseGroup?
    ensures Handle(d, w, m) ==
      if m.said.undecided then BrowsingFor(w)
      else if m.said.group && m.tap != Some(GroupUnknown) then
        Turn(w, w.conv.(state := CourseSelection, leadType := Some(PreSales)), [Menu])
      else if m.said.course.Some? then CourseChosen(w, m.said.course.value)
      else if m.said.atLeastThreeWords then AnsweredAtMenu(w)
      else Turn(w, w.conv, [Note, Menu])
  {
    OrdinaryTurn(d, w, m);
    KindIs(w.conv);
  }

  /** At the list of courses: one named, else one picked from the list. */
  lemma CourseSelectionReply(d: Deps, w: World, m: Inbound)
    requires Ordinary(d, w, m) && w.conv.state.CourseSelection?
    ensures Handle(d, w, m) ==
      if m.said.undecided then BrowsingFor(w)
      else if m.said.course.Some? then CourseChosen(w, m.said.course.value)
      else if m.said.listedCourse.Some? then CourseChosen(w, m.said.listedCourse.value)
      else if m.said.atLeastThreeWords then AnsweredAtMenu(w)
      else Turn(w, w.conv.(state := CourseGroup), [Note, Menu])
  {
    OrdinaryTurn(d, w, m);
    KindIs(w.conv);
  }

  /** What a reply at the main menu comes to. */
  function AtMenu(w: World, m: Inbound): Outcome {
    if m.said.menuChoice == Some(ChooseCounselor) then Booking(w, PreSales, false)
    else if m.said.menuChoice == Some(ChooseCourses) then
      Turn(w, w.conv.(state := CourseSelection, leadType := Some(PreSales)), [Menu])
    else if m.said.menuChoice == Some(ChooseEnrolled) then
      Turn(w, w.conv.(state := SupportMenu, leadType := Some(PostSales)), [Note, Menu])
    else if m.said.course.Some? then CourseChosen(w, m.said.course.value)
    else if m.said.greeting then Turn(w, w.conv, [Menu])
    else AnsweredAtMenu(w)
  }

  lemma MenuReply(w: World, m: Inbound)
    requires !(m.tap == Some(MenuCourses) || m.tap == Some(MenuEnrolled) || m.tap == Some(MenuCounselor))
    ensures AtMainMenu(w, m) == AtMenu(w, m)
  {
    KindIs(w.conv);
    BookingBegins(w, PreSales);
  }

  lemma MainMenuReply(d: Deps, w: World, m: Inbound)
    requires Ordinary(d, w, m) && w.conv.state.MainMenu?
    ensures Handle(d, w, m) == AtMenu(w, m)
  {
    OrdinaryTurn(d, w, m);
    MenuReply(w, m);
  }

  function AtFirst(w: World, m: Inbound): Outcome {
    if m.said.closing then Turn(w, w.conv.(state := End), [Note])
    else if m.said.greeting || m.text == "" then Turn(w, w.conv.(state := MainMenu), [Menu])
    else AtMenu(w.(conv := w.conv.(state := MainMenu)), m)
  }

  lemma FirstMeans(w: World, s: State, m: Inbound)
    requires !(m.tap == Some(MenuCourses) || m.tap == Some(MenuEnrolled) || m.tap == Some(MenuCounselor))
    ensures AtStart(InState(w, s), m) == AtFirst(w, m)
  {
    MenuReply(InState(w, MainMenu), m);
  }

  /** A conversation that is about to begin, or over, begins at the main menu. */
  lemma FirstReply(d: Deps, w: World, m: Inbound)
    requires Ordinary(d, w, m) && (w.conv.state.Start? || w.conv.state.LeadCreated? || w.conv.state.End?)
    ensures Handle(d, w, m) == AtFirst(w, m)
  {
    OrdinaryTurn(d, w, m);
    FirstMeans(w, Start, m);
  }

  // ------------------------------------------------------------------
  // Questions
  // ------------------------------------------------------------------

  /** What is known of a contact grows by each new thing said, up to 160 characters. */
  predicate Grows(before: Option<string>, fragment: Option<Text>, after: Option<string>) {
    var known := match before case Some(k) => k case None => "";
    if fragment.None? || (exists i: nat | i <= |known| :: Starts(Lower(known), i, Lower(fragment.value)))
    then after == before
    else
      var all := if known == "" then fragment.value else known + "; " + fragment.value;
      after == Some(if |all| <= 160 then all else all[..160])
  }

  /** The discount is about to be raised with the next answer: there is one, for the course talked
  about or while none is, it was not sent yet, and they mean to buy, ask the price, or asked before. */
  predicate DiscountDue(d: Deps, c: Conv, m: Inbound) {
    && d.upsell.Some? && d.offerCourse.Some? && !c.chat.offerSent && Kind(c).PreSales?
    && (c.state.Discovery? || c.state.CourseQna? || c.state.GeneralQna?)
    && (match c.course case Some(slug) => slug == d.offerCourse.value case None => c.state.Discovery?)
    && (m.said.wantsToBuy || m.said.asksPrice || 1 <= c.chat.qnaCount)
  }

  predicate CallDue(d: Deps, c: Conv) {
    !c.chat.nudged && d.nudgeThreshold <= c.chat.qnaCount + 1
  }

  /** A question answered: with the discount, with the offer of a call when `callable`, or alone. */
  function Answered(d: Deps, w: World, c: Conv, m: Inbound, callable: bool): Outcome {
    var next := OneMoreAnswer(c);
    if DiscountDue(d, c, m) then
      Turn(w, next.(chat := next.chat.(offerSent := true, nudged := true)), [Answer, DiscountOffer])
    else if CallDue(d, c) && callable then
      Turn(w, next.(state := AskCallback, chat := next.chat.(nudged := true, returnState := Some(c.state))),
           [Answer, CallbackOffer])
    else Turn(w, next, [Answer])
  }

  lemma ProfileGrows(w: World, m: Inbound)
    ensures var x := WithProfile(w, m);
      && x == w.(conv := w.conv.(chat := w.conv.chat.(profile := x.conv.chat.profile)))
      && if Strip(m.text) == "" then x.conv.chat.profile == w.conv.chat.profile
         else Grows(w.conv.chat.profile, m.said.profile, x.conv.chat.profile)
  {
  }

  lemma OfferMeans(d: Deps, c: Conv, m: Inbound)
    ensures OfferDue(d, OneMoreAnswer(c), m) <==> DiscountDue(d, c, m)
    ensures NudgeDue(d, OneMoreAnswer(c)) <==> CallDue(d, c)
  {
    KindIs(c);
  }

  lemma AnswerMeans(d: Deps, w: World, m: Inbound, next: Option<nat>)
    requires NextBooking(w, m.now, next)
    ensures AnswerAndNudge(d, w, m) == Answered(d, w, w.conv, m, next.None?)
  {
    UpcomingIsNext(w, m.now);
    NextBookingIsOne(w, m.now, next, Upcoming(w, m.now));
    OfferMeans(d, w.conv, m);
  }

  lemma SameRows(w: World, x: World, now: Moment, next: Option<nat>)
    requires NextBooking(w, now, next) && x.user == w.user && x.leads == w.leads
    ensures NextBooking(x, now, next)
  {
    forall k ensures StillOpen(w, k, now) <==> StillOpen(x, k, now) {}
  }

  lemma CourseQnaMeans(d: Deps, w: World, m: Inbound, next: Option<nat>) returns (c: Conv)
    requires NextBooking(w, m.now, next)
    ensures var named := if m.said.course.Some? then Some(m.said.course.value.slug) else w.conv.course;
      c == w.conv.(course := named, chat := w.conv.chat.(profile := c.chat.profile))
    ensures if Strip(m.text) == "" then c.chat.profile == w.conv.chat.profile
            else Grows(w.conv.chat.profile, m.said.profile, c.chat.profile)
    ensures InCourseQna(d, w, m) == Answered(d, w, c, m, next.None?)
  {
    var course := if m.said.course.Some? then Some(m.said.course.value.slug) else w.conv.course;
    var about := w.(conv := w.conv.(course := course));
    ProfileGrows(about, m);
    var x := WithProfile(about, m);
    c := x.conv;
    SameRows(w, x, m.now, next);
    AnswerMeans(d, x, m, next);
  }

  lemma GeneralQnaMeans(d: Deps, w: World, m: Inbound, next: Option<nat>)
    requires NextBooking(w, m.now, next)
    ensures var c := if m.said.course.Some?
                     then w.conv.(state := CourseQna, course := Some(m.said.course.value.slug)) else w.conv;
      InGeneralQna(d, w, m) == Answered(d, w, c, m, next.None?)
  {
    var c := if m.said.course.Some?
             then w.conv.(state := CourseQna, course := Some(m.said.course.value.slug)) else w.conv;
    SameRows(w, w.(conv := c), m.now, next);
    AnswerMeans(d, w.(conv := c), m, next);
  }

  /** A question about a course: of the course named, or the one talked about. */
  lemma CourseQuestion(d: Deps, w: World, m: Inbound, next: Option<nat>) returns (c: Conv)
    requires Ordinary(d, w, m) && w.conv.state.CourseQna? && NextBooking(w, m.now, next)
    ensures var named := if m.said.course.Some? then Some(m.said.course.value.slug) else w.conv.course;
      c == w.conv.(course := named, chat := w.conv.chat.(profile := c.chat.profile))
    ensures if Strip(m.text) == "" then c.chat.profile == w.conv.chat.profile
            else Grows(w.conv.chat.profile, m.said.profile, c.chat.profile)
    ensures Handle(d, w, m) == Answered(d, w, c, m, next.None?)
  {
    OrdinaryTurn(d, w, m);
    c := CourseQnaMeans(d, w, m, next);
  }

  /** A general question: naming a course makes it one about that course. */
  lemma GeneralQuestion(d: Deps, w: World, m: Inbound, next: Option<nat>)
    requires Ordinary(d, w, m) && w.conv.state.GeneralQna? && NextBooking(w, m.now, next)
    ensures var c := if m.said.course.Some?
                     then w.conv.(state := CourseQna, course := Some(m.said.course.value.slug)) else w.conv;
      Handle(d, w, m) == Answered(d, w, c, m, next.None?)
  {
    OrdinaryTurn(d, w, m);
    GeneralQnaMeans(d, w, m, next);
  }

  /** While looking around: of the course named, the one talked about, or else the one to sell; the
  offer of a call does not ask for existing bookings. */
  lemma BrowsingQuestion(d: Deps, w: World, m: Inbound) returns (c: Conv)
    requires Ordinary(d, w, m) && w.conv.state.Discovery?
    ensures var named := if m.said.course.Some? then Some(m.said.course.value.slug)
                         else if w.conv.course.None? && d.upsell.Some? then Some(d.upsell.value.slug)
                         else w.conv.course;
      c == w.conv.(course := named, chat := w.conv.chat.(profile := c.chat.profile))
    ensures if Strip(m.text) == "" then c.chat.profile == w.conv.chat.profile
            else Grows(w.conv.chat.profile, m.said.profile, c.chat.profile)
    ensures Handle(d, w, m) == Answered(d, w, c, m, true)
  {
    OrdinaryTurn(d, w, m);
    ProfileGrows(w, m);
    var known := WithProfile(w, m);
    var course := if m.said.course.Some? then Some(m.said.course.value.slug)
                  else if w.conv.course.None? && d.upsell.Some? then Some(d.upsell.value.slug)
                  else w.conv.course;
    c := known.conv.(course := course);
    OfferMeans(d, c, m);
  }
}
