/** The conversation machine as a function: what one turn does to a contact's
conversation and to the lead table. The class in ConversationMachine is proved to
compute exactly this; FunnelLaws proves what it guarantees over whole runs. */
module Funnel {
  import opened Wrappers
  import opened Calendar
  import opened CallbackTime
  import opened Domain
  import TimeText

  type Outcome = (World, TurnResult)

  // ------------------------------------------------------------------
  // Slot filling
  // ------------------------------------------------------------------

  predicate Required(leadType: Option<LeadType>, slot: FormSlot) {
    slot.NameSlot? || slot.TimeSlot? || leadType == Some(PostSales)
  }

  predicate Filled(c: Form, slot: FormSlot) {
    match slot
    case NameSlot => c.pendingName.Some?
    case EmailSlot => c.email.Some?
    case CourseSlot => c.enrolledCourse.Some?
    case TimeSlot => c.pendingTime.Some?
  }

  /** Every slot this kind of lead requires is full. */
  predicate Complete(c: Conv) {
    forall slot :: Required(c.leadType, slot) ==> Filled(c.form, slot)
  }

  /** The first identifying detail that is still missing, in asking order. */
  function MissingDetail(c: Conv): Option<FormSlot> {
    if c.form.pendingName.None? then Some(NameSlot)
    else if c.leadType == Some(PostSales) && c.form.email.None? then Some(EmailSlot)
    else if c.leadType == Some(PostSales) && c.form.enrolledCourse.None? then Some(CourseSlot)
    else None
  }

  function StateAsking(slot: FormSlot): State {
    match slot
    case NameSlot => AskName
    case EmailSlot => AskEmail
    case CourseSlot => AskEnrolledCourse
    case TimeSlot => AskCallbackTime
  }

  function OrElse<T>(a: Option<T>, b: Option<T>): Option<T> {
    if a.Some? then a else b
  }

  /** Fill every empty slot the message contains. */
  function Absorb(c: Form, text: string, f: Found): Form {
    if TimeText.Strip(text) == "" then c
    else c.(
      email := OrElse(c.email, f.email),
      contactPhone := OrElse(c.contactPhone, f.phone),
      enrolledCourse := OrElse(c.enrolledCourse, if f.course.Some? then Some(f.course.value.name) else None),
      pendingName := OrElse(c.pendingName, f.name))
  }

  function WithForm(w: World, c: Form): World {
    w.(conv := w.conv.(form := c))
  }

  function WithChat(w: World, c: Chat): World {
    w.(conv := w.conv.(chat := c))
  }

  function InState(w: World, s: State): World {
    w.(conv := w.conv.(state := s))
  }

  /** A returning contact's name counts as given. */
  function WithKnownName(w: World): World {
    WithForm(w, w.conv.form.(pendingName := OrElse(w.conv.form.pendingName, w.user.name)))
  }

  /** Ask for the next missing slot; no question means nothing more is needed. */
  function NextQuestion(w: World): (World, Option<Reply>) {
    if w.conv.form.rescheduleLead.Some? then (w, None)
    else
      var known := WithKnownName(w);
      var detail := MissingDetail(known.conv);
      var c := known.conv.form;
      if detail.Some? then (InState(known, StateAsking(detail.value)), Some(Ask(detail.value)))
      else if c.contactPhone.None? && !c.askedPhone then
        (InState(WithForm(known, c.(askedPhone := true)), AskPhone), Some(PhoneCheck))
      else if c.pendingTime.None? then (InState(known, AskCallbackTime), Some(Ask(TimeSlot)))
      else (known, None)
  }

  // ------------------------------------------------------------------
  // Bookings
  // ------------------------------------------------------------------

  /** A booking a counselor has not worked yet and whose time has not passed. */
  predicate Open(lead: Lead, phone: Text, now: Moment) {
    lead.phone == phone && lead.status == NewLead
    && lead.preferredTime.Some? && AtOrBefore(now, lead.preferredTime.value)
  }

  /** The earliest open booking among the first n leads; the older row wins a tie. */
  function UpcomingAmong(leads: seq<Lead>, n: nat, phone: Text, now: Moment): (id: Option<nat>)
    requires n <= |leads|
    ensures id.Some? ==> 1 <= id.value <= n && Open(leads[id.value - 1], phone, now)
    ensures id.None? ==> forall k :: 0 <= k < n ==> !Open(leads[k], phone, now)
    ensures id.Some? ==> forall k :: 0 <= k < n && Open(leads[k], phone, now) ==>
              AtOrBefore(leads[id.value - 1].preferredTime.value, leads[k].preferredTime.value)
  {
    if n == 0 then None
    else
      var best := UpcomingAmong(leads, n - 1, phone, now);
      if !Open(leads[n - 1], phone, now) then best
      else if best.None? || Before(leads[n - 1].preferredTime.value, leads[best.value - 1].preferredTime.value)
      then Some(n)
      else best
  }

  function Upcoming(w: World, now: Moment): Option<nat> {
    UpcomingAmong(w.leads, |w.leads|, w.user.phone, now)
  }

  predicate OwnLead(w: World, id: nat) {
    1 <= id <= |w.leads| && w.leads[id - 1].phone == w.user.phone
  }

  /** The row as `reschedule` leaves it. */
  function MovedLead(lead: Lead, at: Moment, raw: Option<string>): Lead {
    lead.(preferredTime := Some(at), preferredTimeRaw := OrElse(raw, lead.preferredTimeRaw), sync := Pending)
  }

  function Reschedule(w: World, id: nat, at: Moment): Outcome
    requires OwnLead(w, id)
  {
    var moved := w.leads[id - 1 := MovedLead(w.leads[id - 1], at, w.conv.form.pendingTimeRaw)];
    var c := w.conv.(state := End, form := w.conv.form.(rescheduleLead := None));
    (World(c, w.user, moved), TurnResult([Moved(at)], Some(id), true))
  }

  function NewLeadOf(w: World, remarks: Option<string>): Lead {
    var c := w.conv.form;
    Lead(w.user.phone, w.conv.leadType.GetOr(PreSales), NewLead, OrElse(c.pendingName, w.user.DisplayName()),
         c.pendingTime, c.pendingTimeRaw, remarks, c.contactPhone.GetOr(w.user.phone),
         c.email, c.enrolledCourse, w.conv.chat.profile, w.conv.chat.supportTopic, Pending)
  }

  function WriteLead(w: World, remarks: Option<string>): Outcome {
    var form := w.conv.form.(pendingTime := None, pendingTimeRaw := None, nameAttempts := 0);
    var chat := w.conv.chat.(returnState := None);
    (World(w.conv.(state := LeadCreated, chat := chat, form := form), w.user, w.leads + [NewLeadOf(w, remarks)]),
     TurnResult([Booked(w.conv.form.pendingTime)], Some(|w.leads| + 1), true))
  }

  /** Finish a capture: move the booking being rescheduled, or write a new lead. */
  function CreateLead(w: World, remarks: Option<string>): Outcome {
    var c := w.conv.form;
    if c.rescheduleLead.Some? && c.pendingTime.Some? then
      if OwnLead(w, c.rescheduleLead.value) then Reschedule(w, c.rescheduleLead.value, c.pendingTime.value)
      else WriteLead(WithForm(w, c.(rescheduleLead := None)), remarks)
    else WriteLead(w, remarks)
  }

  function FinishCapture(w: World): Outcome {
    var (next, question) := NextQuestion(w);
    if question.Some? then (next, Say([question.value])) else CreateLead(next, None)
  }

  /** Enter capture: the first missing slot, or the time when nothing else is needed. */
  function StartCapture(w: World, leadType: LeadType): Outcome {
    var typed := w.(conv := w.conv.(leadType := Some(leadType)));
    var named := WithForm(typed, typed.conv.form.(pendingName := OrElse(w.user.name, typed.conv.form.pendingName)));
    var (next, question) := NextQuestion(named);
    if question.Some? then (next, Say([question.value]))
    else if w.user.name.Some? then (InState(next, AskCallbackTime), Say([Ask(TimeSlot)]))
    else (InState(next, AskName), Say([Ask(NameSlot)]))
  }

  function StartCaptureHere(w: World): Outcome {
    StartCapture(w, w.conv.leadType.GetOr(PreSales))
  }

  function AskForNewTime(w: World, id: nat): Outcome
    requires 1 <= id <= |w.leads|
  {
    var c := w.conv.form.(rescheduleLead := Some(id), pendingDate := None);
    (World(w.conv.(state := AskCallbackTime, leadType := Some(w.leads[id - 1].kind), form := c), w.user, w.leads),
     Say([Ask(TimeSlot)]))
  }

  function StartReschedule(w: World, now: Moment): Outcome {
    var lead := Upcoming(w, now);
    if lead.Some? then AskForNewTime(w, lead.value)
    else
      var (next, r) := StartCaptureHere(w);
      (next, r.(replies := [Note] + r.replies))
  }

  function StartOrOfferMove(w: World, now: Moment): Outcome {
    var lead := Upcoming(w, now);
    if lead.None? then StartCaptureHere(w)
    else (InState(w, ConfirmReschedule), Say([MoveOrAnother(lead)]))
  }

  // ------------------------------------------------------------------
  // Capture handlers
  // ------------------------------------------------------------------

  const MAX_NAME_ATTEMPTS: nat := 2
  const MAX_SLOT_ATTEMPTS: nat := 2

  /** The name is settled, for this booking and for the contact. */
  function Named(w: World, c: Form, name: Text): World {
    World(w.conv.(form := c.(pendingName := Some(name), nameAttempts := 0)), w.user.(name := Some(name)), w.leads)
  }

  function AskedName(w: World, m: Inbound): Outcome {
    var c := Absorb(w.conv.form, m.text, m.said.found);
    var given := OrElse(c.pendingName, m.said.wholeName);
    if given.None? && c.nameAttempts < MAX_NAME_ATTEMPTS then
      (WithForm(w, c.(nameAttempts := c.nameAttempts + 1)), Say([AskAgain(NameSlot)]))
    else
      FinishCapture(Named(w, c, given.GetOr(w.user.profileName.GetOr("there"))))
  }

  function Attempts(c: Form, slot: FormSlot): nat {
    if slot.EmailSlot? then c.emailAttempts else c.courseAttempts
  }

  function WithAttempts(c: Form, slot: FormSlot, n: nat): Form {
    if slot.EmailSlot? then c.(emailAttempts := n) else c.(courseAttempts := n)
  }

  /** A refusal to answer; a stray tap is never one. */
  predicate Declined(m: Inbound) {
    m.tap.None? && TimeText.Strip(m.text) != "" && (m.said.skip || m.said.declines)
  }

  /** What the reply filled in, and whether this question had to be asked once more. */
  function TriedForm(form: Form, m: Inbound, slot: FormSlot): Form {
    var c := Absorb(form, m.text, m.said.found);
    WithAttempts(c, slot, if Filled(c, slot) then 0 else Attempts(c, slot) + 1)
  }

  function Tried(w: World, m: Inbound, slot: FormSlot): World {
    WithForm(w, TriedForm(w.conv.form, m, slot))
  }

  predicate GivesUp(c: Form, m: Inbound, slot: FormSlot) {
    !Filled(c, slot) && (Declined(m) || Attempts(c, slot) > MAX_SLOT_ATTEMPTS)
  }

  /** The email and enrolled-course questions. */
  function AskedDetail(w: World, m: Inbound, slot: FormSlot): Outcome {
    var tried := Tried(w, m, slot);
    if GivesUp(tried.conv.form, m, slot)
    then (InState(WithKnownName(tried), SupportQuery), Say([DetailsRequired]))
    else FinishCapture(tried)
  }

  function AskedPhone(d: Deps, w: World, m: Inbound): Outcome {
    var c := w.conv.form;
    if m.tap == Some(PhoneConfirm) || (m.tap.None? && m.said.affirmative) then
      FinishCapture(WithForm(w, c.(contactPhone := Some(w.user.phone))))
    else if m.tap == Some(PhoneOther) then FinishCapture(w)
    else
      var absorbed := Absorb(c, m.text, m.said.found);
      if c.contactPhone.None? && absorbed.contactPhone.Some? then FinishCapture(WithForm(w, absorbed))
      else
        var accepted := WithForm(w, absorbed.(contactPhone := Some(w.user.phone)));
        if accepted.conv.form.pendingTime.None? then AskedTime(d, InState(accepted, AskCallbackTime), m)
        else FinishCapture(accepted)
  }

  function WithAnnouncedName(w: World, m: Inbound): World {
    if m.said.announcedName.None? then w
    else World(w.conv.(form := w.conv.form.(pendingName := m.said.announcedName)),
               w.user.(name := m.said.announcedName), w.leads)
  }

  function TakeRaw(text: string): string {
    var stripped := TimeText.Strip(text);
    if |stripped| <= 255 then stripped else stripped[..255]
  }

  function AskRemainingOrRemarks(w: World, at: Moment): Outcome {
    var (next, question) := NextQuestion(w);
    if question.Some? then (next, Say([question.value]))
    else (InState(next, AskRemarks), Say([RemarksQuestion(at)]))
  }

  function AskedTime(d: Deps, w: World, m: Inbound): Outcome {
    var named := WithAnnouncedName(w, m);
    TimeRead(named, m, d.validator.Parse(m.text, m.now, named.conv.form.pendingDate))
  }

  /** The same, given what the reply was read as. */
  function TimeRead(w: World, m: Inbound, parsed: ParseResult): Outcome {
    var c := w.conv.form;
    if parsed.slot.None? then
      (WithForm(w, c.(pendingDate := OrElse(parsed.parsedDate, c.pendingDate))),
       Say([TimeRejected(parsed.reason, parsed.suggestions)]))
    else
      var at := parsed.slot.value.at;
      var timed := c.(pendingDate := None, pendingTime := Some(at), pendingTimeRaw := Some(TakeRaw(m.text)));
      AskRemainingOrRemarks(WithForm(w, Absorb(timed, m.text, m.said.foundLater)), at)
  }

  function TakeRemarks(text: string): string {
    var stripped := TimeText.Strip(text);
    if |stripped| <= 2000 then stripped else stripped[..2000]
  }

  function AskedRemarks(w: World, m: Inbound): Outcome {
    CreateLead(w, if m.said.skip then None else Some(TakeRemarks(m.text)))
  }

  function AskedMove(w: World, m: Inbound): Outcome {
    var lead := Upcoming(w, m.now);
    if m.tap == Some(RescheduleNew) || m.said.negative then
      (InState(WithForm(w, w.conv.form.(rescheduleLead := None)), AskCallbackTime), Say([Ask(TimeSlot)]))
    else if (m.tap == Some(RescheduleMove) || m.said.affirmative) && lead.Some? then AskForNewTime(w, lead.value)
    else (w, Say([MoveOrAnother(lead)]))
  }

  // ------------------------------------------------------------------
  // Questions, nudges and the discount
  // ------------------------------------------------------------------

  /** One more question answered. */
  function Counted(w: World): World {
    WithChat(w, w.conv.chat.(qnaCount := w.conv.chat.qnaCount + 1))
  }

  function ResumeState(c: Conv): State {
    if c.chat.returnState.Some? then c.chat.returnState.value
    else if c.leadType == Some(PostSales) then SupportQuery
    else if c.course.Some? then CourseQna
    else GeneralQna
  }

  function AskedCallback(w: World, m: Inbound): Outcome {
    var accepted := m.tap == Some(ConfirmYes) || (m.tap.None? && (m.said.affirmative || m.said.wantsHuman));
    var declined := m.tap == Some(ConfirmNo) || (m.tap.None? && m.said.negative);
    var resumed := InState(w, ResumeState(w.conv));
    if accepted then StartCaptureHere(w)
    else if declined then (resumed, Say([Note]))
    else (Counted(resumed), Say([Answer]))
  }

  /** The discount is about the course being discussed; only discovery may raise it unprompted. */
  predicate OfferRelevant(d: Deps, c: Conv) {
    c.leadType != Some(PostSales) && d.offerCourse.Some?
    && (if c.course.Some? then c.course.value == d.offerCourse.value else c.state.Discovery?)
  }

  const OFFER_AFTER_EXCHANGES: nat := 2

  predicate OfferDue(d: Deps, c: Conv, m: Inbound) {
    && d.offerCourse.Some? && !c.chat.offerSent && OfferRelevant(d, c) && Selling(c.state)
    && (m.said.wantsToBuy || m.said.asksPrice || OFFER_AFTER_EXCHANGES <= c.chat.qnaCount)
    && d.upsell.Some?
  }

  function Offered(w: World): World {
    WithChat(w, w.conv.chat.(offerSent := true, nudged := true))
  }

  predicate NudgeDue(d: Deps, c: Conv) {
    !c.chat.nudged && d.nudgeThreshold <= c.chat.qnaCount
  }

  function OfferCallback(w: World, resume: State): World {
    InState(WithChat(w, w.conv.chat.(nudged := true, returnState := Some(resume))), AskCallback)
  }

  function AnswerAndNudge(d: Deps, w: World, m: Inbound): Outcome {
    var counted := Counted(w);
    if OfferDue(d, counted.conv, m) then (Offered(counted), Say([Answer, DiscountOffer]))
    else if NudgeDue(d, counted.conv) && Upcoming(counted, m.now).None?
    then (OfferCallback(counted, w.conv.state), Say([Answer, CallbackOffer]))
    else (counted, Say([Answer]))
  }

  function Remembered(existing: Option<string>, fragment: Option<Text>): Option<string> {
    if fragment.None? then existing
    else
      var known := existing.GetOr("");
      if TimeText.Contains(TimeText.Lower(known), TimeText.Lower(fragment.value)) then existing
      else
        var combined := if known == "" then fragment.value else known + "; " + fragment.value;
        Some(if |combined| <= 160 then combined else combined[..160])
  }

  function WithProfile(w: World, m: Inbound): World {
    if TimeText.Strip(m.text) == "" then w
    else WithChat(w, w.conv.chat.(profile := Remembered(w.conv.chat.profile, m.said.profile)))
  }

  function StartDiscovery(w: World): Outcome {
    (w.(conv := w.conv.(state := Discovery, leadType := Some(PreSales), course := None)), Say([Note]))
  }

  /** The course discovery is about: the one named, the one already there, or the one to sell. */
  function Discovered(d: Deps, w: World, m: Inbound): World {
    var known := WithProfile(w, m);
    var course := if m.said.course.Some? then Some(m.said.course.value.slug)
                  else if w.conv.course.None? && d.upsell.Some? then Some(d.upsell.value.slug)
                  else w.conv.course;
    Counted(known.(conv := known.conv.(course := course)))
  }

  function InDiscovery(d: Deps, w: World, m: Inbound): Outcome {
    var counted := Discovered(d, w, m);
    if OfferDue(d, counted.conv, m) then (Offered(counted), Say([Answer, DiscountOffer]))
    else if NudgeDue(d, counted.conv) then (OfferCallback(counted, Discovery), Say([Answer, CallbackOffer]))
    else (counted, Say([Answer]))
  }

  // ------------------------------------------------------------------
  // Menus and courses
  // ------------------------------------------------------------------

  function SelectCourse(w: World, course: Course): Outcome {
    (w.(conv := w.conv.(state := CourseQna, course := Some(course.slug), leadType := Some(PreSales))), Say([Note]))
  }

  function AnswerAtMenu(w: World): Outcome {
    (Counted(w.(conv := OrPreSales(w.conv).(state := GeneralQna))), Say([Answer]))
  }

  function AtStart(w: World, m: Inbound): Outcome {
    if m.said.closing then (InState(w, End), Say([Note]))
    else if m.said.greeting || m.text == "" then (InState(w, MainMenu), Say([Menu]))
    else AtMainMenu(InState(w, MainMenu), m)
  }

  function ChosenFromMenu(m: Inbound): Option<MenuChoice> {
    match m.tap
    case Some(MenuCourses) => Some(ChooseCourses)
    case Some(MenuEnrolled) => Some(ChooseEnrolled)
    case Some(MenuCounselor) => Some(ChooseCounselor)
    case _ => m.said.menuChoice
  }

  /** Every menu reply but a request for a counselor. */
  function AtMenuReply(w: World, m: Inbound): Outcome {
    var choice := ChosenFromMenu(m);
    if choice == Some(ChooseCourses) then
      (w.(conv := w.conv.(state := CourseSelection, leadType := Some(PreSales))), Say([Menu]))
    else if choice == Some(ChooseEnrolled) then
      (w.(conv := w.conv.(state := SupportMenu, leadType := Some(PostSales))), Say([Note, Menu]))
    else if m.said.course.Some? then SelectCourse(w, m.said.course.value)
    else if m.said.greeting then (w, Say([Menu]))
    else AnswerAtMenu(w)
  }

  function AtMainMenu(w: World, m: Inbound): Outcome {
    if ChosenFromMenu(m) == Some(ChooseCounselor) then StartCapture(w, PreSales) else AtMenuReply(w, m)
  }

  function AtCourseGroup(w: World, m: Inbound): Outcome {
    var grouped := match m.tap
      case Some(GroupCohort) => true
      case Some(GroupAdvance) => true
      case Some(GroupUnknown) => false
      case _ => m.said.group;
    if m.tap == Some(CourseUnsure) || m.said.undecided then StartDiscovery(w)
    else if grouped then (w.(conv := w.conv.(state := CourseSelection, leadType := Some(PreSales))), Say([Menu]))
    else if m.said.course.Some? then SelectCourse(w, m.said.course.value)
    else if m.said.atLeastThreeWords then AnswerAtMenu(w)
    else (w, Say([Note, Menu]))
  }

  function TappedCourse(d: Deps, m: Inbound): Option<Course> {
    match m.tap
    case Some(CourseRow(slug)) => if slug in d.courses then Some(d.courses[slug]) else None
    case _ => None
  }

  function AtCourseSelection(d: Deps, w: World, m: Inbound): Outcome {
    var course := OrElse(OrElse(TappedCourse(d, m), m.said.course), m.said.listedCourse);
    if m.tap == Some(CourseUnsure) || m.said.undecided then StartDiscovery(w)
    else if m.tap == Some(CourseOthers) then (w, Say([Menu]))
    else if course.Some? then SelectCourse(w, course.value)
    else if m.said.atLeastThreeWords then AnswerAtMenu(w)
    else (InState(w, CourseGroup), Say([Note, Menu]))
  }

  function InCourseQna(d: Deps, w: World, m: Inbound): Outcome {
    var course := if m.said.course.Some? then Some(m.said.course.value.slug) else w.conv.course;
    AnswerAndNudge(d, WithProfile(w.(conv := w.conv.(course := course)), m), m)
  }

  function InGeneralQna(d: Deps, w: World, m: Inbound): Outcome {
    AnswerAndNudge(d,
                   if m.said.course.Some?
                   then w.(conv := w.conv.(state := CourseQna, course := Some(m.said.course.value.slug)))
                   else w,
                   m)
  }

  // ------------------------------------------------------------------
  // Support
  // ------------------------------------------------------------------

  function AtEnrollmentType(w: World, m: Inbound): Outcome {
    var student := w.(conv := w.conv.(state := SupportMenu, leadType := Some(PostSales)));
    if m.tap == Some(EnrolledPaid) || m.said.paid then (student, Say([Menu]))
    else if m.tap == Some(EnrolledFree) || m.said.free then StartDiscovery(w)
    else if m.said.course.Some? then
      var enrolled := m.said.course.value;
      if enrolled.free then StartDiscovery(WithForm(w, w.conv.form.(enrolledCourse := Some(enrolled.name))))
      else (WithForm(student, student.conv.form.(enrolledCourse := Some(enrolled.name))), Say([Menu]))
    else (w, Say([Note, Menu]))
  }

  function ChosenTopic(m: Inbound): Option<Topic> {
    match m.tap
    case Some(SupportRow(topic)) => Some(topic)
    case _ => m.said.topic
  }

  function AtSupportMenu(w: World, m: Inbound): Outcome {
    var support := w.(conv := w.conv.(leadType := Some(PostSales)));
    var topic := ChosenTopic(m);
    if topic.Some? then
      (InState(WithChat(support, support.conv.chat.(supportTopic := topic)), SupportQuery), Say([Note]))
    else if m.said.atLeastThreeWords then InSupportQuery(InState(support, SupportQuery), m)
    else (support, Say([Note, Menu]))
  }

  function InSupportQuery(w: World, m: Inbound): Outcome {
    if m.said.wantsHuman then StartCapture(w, PostSales)
    else (InState(Counted(w), SupportCallback), Say([Answer, HelpCheck]))
  }

  /** "That helped" is the yes button, "Please call me" the no button. */
  function InSupportCallback(w: World, m: Inbound): Outcome {
    var resolved := m.tap == Some(ConfirmYes) || (m.tap.None? && m.said.affirmative);
    var escalate := m.tap == Some(ConfirmNo) || (m.tap.None? && (m.said.negative || m.said.wantsHuman));
    if escalate then StartCapture(w, PostSales)
    else if resolved then (InState(w, SupportQuery), Say([Note]))
    else InSupportQuery(InState(w, SupportQuery), m)
  }

  // ------------------------------------------------------------------
  // The machine
  // ------------------------------------------------------------------

  function OnMedia(w: World, m: Inbound): Outcome {
    if m.image && w.conv.chat.payLinkSent then (w.(user := w.user.(paymentProof := true)), Say([Note]))
    else (w, Say([Note]))
  }

  /** A tap on the discount card; it is looked at before the capture guard. */
  function OnOfferTap(w: World, m: Inbound): Option<Outcome> {
    match m.tap
    case Some(OfferPayNow) => Some((WithChat(w, w.conv.chat.(payLinkSent := true)), Say([Note])))
    case Some(OfferDone) => Some((w, Say([Note])))
    case Some(OfferQuestion) =>
      Some((InState(w, if w.conv.course.Some? then CourseQna else Discovery), Say([Note])))
    case _ => None
  }

  /** Clear the scratch state of a branch when returning to a menu. */
  function ResetFlow(c: Conv): Conv {
    c.(course := None, chat := c.chat.(qnaCount := 0, nudged := false))
  }

  function OrPreSales(c: Conv): Conv {
    c.(leadType := Some(c.leadType.GetOr(PreSales)))
  }

  function OnNavigation(d: Deps, w: World, m: Inbound): Option<Outcome> {
    var c := w.conv;
    if m.tap.None? || Capturing(c.state) then None
    else match m.tap.value
      case MenuCourses => Some((w.(conv := OrPreSales(ResetFlow(c)).(state := CourseGroup)), Say([Menu])))
      case GroupCohort => Some((w.(conv := OrPreSales(c).(state := CourseSelection)), Say([Menu])))
      case GroupAdvance => Some((w.(conv := OrPreSales(c).(state := CourseSelection)), Say([Menu])))
      case CourseUnsure => Some(StartDiscovery(w))
      case MenuEnrolled => Some((w.(conv := ResetFlow(c).(state := EnrollmentType)), Say([Menu])))
      case EnrolledPaid => Some((w.(conv := c.(state := SupportMenu, leadType := Some(PostSales))), Say([Menu])))
      case EnrolledFree => Some(StartDiscovery(w))
      case MenuCounselor => Some(StartCaptureHere(w))
      case CourseOthers => Some((InState(w, CourseSelection), Say([Menu])))
      case CourseRow(slug) =>
        if slug in d.courses
        then Some((w.(conv := OrPreSales(c).(state := CourseQna, course := Some(d.courses[slug].slug))), Say([Note])))
        else None
      case _ => None
  }

  /** Commands that work from every state outside capture. */
  function OnCommand(d: Deps, w: World, m: Inbound): Option<Outcome> {
    var c := w.conv;
    if m.tap.Some? || Capturing(c.state) then None
    else if m.said.wantsMenu || m.said.greeting then Some((w.(conv := ResetFlow(c).(state := MainMenu)), Say([Menu])))
    else if m.said.wantsCourses || (c.course.None? && m.said.wantsTeaching) then
      Some((w.(conv := OrPreSales(c).(state := CourseGroup)), Say([Menu])))
    else if m.said.wantsReschedule then Some(StartReschedule(w, m.now))
    else if m.said.wantsHuman && !(c.state.AskCallback? || c.state.SupportCallback? || c.state.ConfirmReschedule?)
    then Some(StartOrOfferMove(w, m.now))
    else None
  }

  function InCapture(d: Deps, w: World, m: Inbound): Outcome
    requires Capturing(w.conv.state)
  {
    match w.conv.state
    case AskName => AskedName(w, m)
    case AskEmail => AskedDetail(w, m, EmailSlot)
    case AskEnrolledCourse => AskedDetail(w, m, CourseSlot)
    case AskPhone => AskedPhone(d, w, m)
    case AskCallbackTime => AskedTime(d, w, m)
    case AskRemarks => AskedRemarks(w, m)
  }

  function ByState(d: Deps, w: World, m: Inbound): Outcome {
    if Capturing(w.conv.state) then InCapture(d, w, m)
    else match w.conv.state
    case Start => AtStart(w, m)
    case MainMenu => AtMainMenu(w, m)
    case CourseGroup => AtCourseGroup(w, m)
    case CourseSelection => AtCourseSelection(d, w, m)
    case CourseQna => InCourseQna(d, w, m)
    case GeneralQna => InGeneralQna(d, w, m)
    case Discovery => InDiscovery(d, w, m)
    case EnrollmentType => AtEnrollmentType(w, m)
    case SupportMenu => AtSupportMenu(w, m)
    case SupportQuery => InSupportQuery(w, m)
    case SupportCallback => InSupportCallback(w, m)
    case AskCallback => AskedCallback(w, m)
    case ConfirmReschedule => AskedMove(w, m)
    case LeadCreated => AtStart(InState(w, Start), m)
    case End => AtStart(InState(w, Start), m)
  }

  /** One turn of the machine. */
  function Handle(d: Deps, w: World, m: Inbound): Outcome {
    if m.unsupported then OnMedia(w, m)
    else
      var offer := OnOfferTap(w, m);
      if offer.Some? then offer.value
      else
        var navigation := OnNavigation(d, w, m);
        if navigation.Some? then navigation.value
        else
          var command := OnCommand(d, w, m);
          if command.Some? then command.value else ByState(d, w, m)
  }
}
