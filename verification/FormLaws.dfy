/** The form of a booking: what each reply to each of its questions fills in, what is asked next, and
the lead row that is written in the end, field by field. */
module FormLaws {
  import opened Wrappers
  import opened Calendar
  import opened CallbackTime
  import opened Domain
  import opened Funnel
  import opened FunnelLaws
  import opened InputLaws
  import opened TimeText

  function Taken<T>(had: Option<T>, found: Option<T>): Option<T> {
    match had
    case Some(_) => had
    case None => found
  }

  function NameOf(course: Option<Course>): Option<Text> {
    match course
    case Some(c) => Some(c.name)
    case None => None
  }

  /** What a text fills in of what is still empty; a blank one fills nothing. */
  function Gathered(form: Form, text: string, found: Found): Form {
    if Strip(text) == "" then form
    else form.(
      pendingName := Taken(form.pendingName, found.name),
      email := Taken(form.email, found.email),
      contactPhone := Taken(form.contactPhone, found.phone),
      enrolledCourse := Taken(form.enrolledCourse, NameOf(found.course)))
  }

  // ------------------------------------------------------------------
  // What is asked next, and what is written
  // ------------------------------------------------------------------

  /** The question that is still open: the name, from a student email and course, the number to call
  once, the time. */
  function StillAsked(kind: LeadType, form: Form): Option<State> {
    if form.pendingName.None? then Some(AskName)
    else if kind.PostSales? && form.email.None? then Some(AskEmail)
    else if kind.PostSales? && form.enrolledCourse.None? then Some(AskEnrolledCourse)
    else if form.contactPhone.None? && !form.askedPhone then Some(AskPhone)
    else if form.pendingTime.None? then Some(AskCallbackTime)
    else None
  }

  /** The row a finished form becomes. */
  function RowOf(w: World, form: Form, remarks: Option<string>): Lead {
    Lead(
      phone := w.user.phone,
      kind := Kind(w.conv),
      status := NewLead,
      name := Taken(form.pendingName, Taken(w.user.name, w.user.profileName)),
      preferredTime := form.pendingTime,
      preferredTimeRaw := form.pendingTimeRaw,
      remarks := remarks,
      contactPhone := if form.contactPhone.Some? then form.contactPhone.value else w.user.phone,
      email := form.email,
      enrolledCourse := form.enrolledCourse,
      profession := w.conv.chat.profile,
      issue := w.conv.chat.supportTopic,
      sync := Pending)
  }

  /** The row is added, its time announced, and the form put away. */
  function Written(w: World, form: Form, remarks: Option<string>): Outcome {
    var rest := form.(pendingTime := None, pendingTimeRaw := None, nameAttempts := 0);
    var c := w.conv.(state := LeadCreated, chat := w.conv.chat.(returnState := None), form := rest);
    (World(c, w.user, w.leads + [RowOf(w, form, remarks)]),
     TurnResult([Booked(form.pendingTime)], Some(|w.leads| + 1), true))
  }

  /** With the contact's own name where none was given. */
  function WithOwnName(w: World, form: Form): Form {
    form.(pendingName := Taken(form.pendingName, w.user.name))
  }

  function Asking(w: World, form: Form, s: State): Outcome {
    Turn(w, w.conv.(state := s, form := form.(askedPhone := form.askedPhone || s.AskPhone?)), [QuestionOf(s)])
  }

  /** The next question, or the row when none is left. */
  function GoesOn(w: World, form: Form): Outcome {
    var own := WithOwnName(w, form);
    match StillAsked(Kind(w.conv), own)
    case Some(s) => Asking(w, own, s)
    case None => Written(w, own, None)
  }

  lemma TakenIsOrElse<T>(a: Option<T>, b: Option<T>)
    ensures OrElse(a, b) == Taken(a, b)
  {
  }

  lemma GatheredIsAbsorbed(form: Form, text: string, found: Found)
    ensures Absorb(form, text, found) == Gathered(form, text, found)
  {
  }

  lemma WrittenIsWriteLead(w: World, remarks: Option<string>)
    ensures WriteLead(w, remarks) == Written(w, w.conv.form, remarks)
  {
    KindIs(w.conv);
  }

  lemma AskedIsNext(w: World)
    requires w.conv.form.rescheduleLead.None?
    ensures var own, (next, question) := WithOwnName(w, w.conv.form), NextQuestion(w);
      match StillAsked(Kind(w.conv), own)
      case Some(s) => question == Some(QuestionOf(s)) && (next, Say([question.value])) == Asking(w, own, s)
      case None => question.None? && next == w.(conv := w.conv.(form := own))
  {
    KindIs(w.conv);
  }

  lemma FormGoesOn(w: World)
    requires w.conv.form.rescheduleLead.None?
    ensures FinishCapture(w) == GoesOn(w, w.conv.form)
  {
    AskedIsNext(w);
    var own := WithOwnName(w, w.conv.form);
    WrittenIsWriteLead(w.(conv := w.conv.(form := own)), None);
  }

  // ------------------------------------------------------------------
  // The questions
  // ------------------------------------------------------------------

  /** A reply that the form hears: no media, and no tap on the discount card. */
  predicate ReachesForm(w: World, m: Inbound) {
    && !m.unsupported && Capturing(w.conv.state)
    && m.tap != Some(OfferPayNow) && m.tap != Some(OfferDone) && m.tap != Some(OfferQuestion)
  }

  lemma FormTurn(d: Deps, w: World, m: Inbound)
    requires ReachesForm(w, m)
    ensures Handle(d, w, m) == InCapture(d, w, m)
  {
  }

  /** The name, asked at most three times: the one found, the whole reply, or what there is. */
  function NameReply(w: World, m: Inbound): Outcome {
    var form := Gathered(w.conv.form, m.text, m.said.found);
    var given := Taken(form.pendingName, m.said.wholeName);
    if given.None? && form.nameAttempts < 2 then
      Turn(w, w.conv.(form := form.(nameAttempts := form.nameAttempts + 1)), [AskAgain(NameSlot)])
    else
      var name: Text := match given
        case Some(n) => n
        case None => if w.user.profileName.Some? then w.user.profileName.value else "there";
      GoesOn(w.(user := w.user.(name := Some(name))), form.(pendingName := Some(name), nameAttempts := 0))
  }

  lemma NameMeans(w: World, m: Inbound)
    requires w.conv.form.rescheduleLead.None?
    ensures AskedName(w, m) == NameReply(w, m)
  {
    GatheredIsAbsorbed(w.conv.form, m.text, m.said.found);
    var form := Gathered(w.conv.form, m.text, m.said.found);
    var given := Taken(form.pendingName, m.said.wholeName);
    if given.Some? || form.nameAttempts >= 2 {
      var name := given.GetOr(w.user.profileName.GetOr("there"));
      FormGoesOn(Funnel.Named(w, form, name));
    }
  }

  predicate Given(form: Form, slot: FormSlot) {
    if slot.EmailSlot? then form.email.Some? else form.enrolledCourse.Some?
  }

  function Tries(form: Form, slot: FormSlot): nat {
    if slot.EmailSlot? then form.emailAttempts else form.courseAttempts
  }

  /** The form after such a reply, and how often the question was answered without it. */
  function TriedNow(w: World, m: Inbound, slot: FormSlot): Form {
    var form := Gathered(w.conv.form, m.text, m.said.found);
    var tries := if Given(form, slot) then 0 else Tries(form, slot) + 1;
    if slot.EmailSlot? then form.(emailAttempts := tries) else form.(courseAttempts := tries)
  }

  predicate RefusesDetail(m: Inbound) {
    m.tap.None? && Strip(m.text) != "" && (m.said.skip || m.said.declines)
  }

  /** The email and course of a student: refused, or not given three times over, the booking is off. */
  function DetailReply(w: World, m: Inbound, slot: FormSlot): Outcome {
    var tried := TriedNow(w, m, slot);
    if !Given(tried, slot) && (RefusesDetail(m) || 2 < Tries(tried, slot)) then
      Turn(w, w.conv.(state := SupportQuery, form := WithOwnName(w, tried)), [DetailsRequired])
    else GoesOn(w.(conv := w.conv.(form := tried)), tried)
  }

  lemma DetailMeans(w: World, m: Inbound, slot: FormSlot)
    requires w.conv.form.rescheduleLead.None? && (slot.EmailSlot? || slot.CourseSlot?)
    ensures AskedDetail(w, m, slot) == DetailReply(w, m, slot)
  {
    GatheredIsAbsorbed(w.conv.form, m.text, m.said.found);
    FormGoesOn(Tried(w, m, slot));
  }

  function Cut(text: string, length: nat): string {
    var stripped := Strip(text);
    if |stripped| <= length then stripped else stripped[..length]
  }

  /** The time: rejected with its reason, the day in it remembered; or taken, with whatever else the
  reply holds, and the next question asked, last of all for a note. */
  function TimeReply(d: Deps, w: World, m: Inbound): Outcome {
    var announced := m.said.announcedName;
    var x := if announced.None? then w
             else w.(user := w.user.(name := announced),
                     conv := w.conv.(form := w.conv.form.(pendingName := announced)));
    TimeTold(x, m, d.validator.Parse(m.text, m.now, w.conv.form.pendingDate))
  }

  function TimeTold(w: World, m: Inbound, r: ParseResult): Outcome {
    var form := w.conv.form;
    match r.slot
    case None =>
      Turn(w, w.conv.(form := form.(pendingDate := Taken(r.parsedDate, form.pendingDate))),
           [TimeRejected(r.reason, r.suggestions)])
    case Some(slot) =>
      var timed := form.(pendingDate := None, pendingTime := Some(slot.at), pendingTimeRaw := Some(Cut(m.text, 255)));
      TimeGoesOn(w, Gathered(timed, m.text, m.said.foundLater), slot.at)
  }

  function TimeGoesOn(w: World, form: Form, at: Moment): Outcome {
    if form.rescheduleLead.Some? then Turn(w, w.conv.(state := AskRemarks, form := form), [RemarksQuestion(at)])
    else
      var own := WithOwnName(w, form);
      match StillAsked(Kind(w.conv), own)
      case Some(s) => Asking(w, own, s)
      case None => Turn(w, w.conv.(state := AskRemarks, form := own), [RemarksQuestion(at)])
  }

  lemma TimeGoesOnMeans(w: World, at: Moment)
    ensures AskRemainingOrRemarks(w, at) == TimeGoesOn(w, w.conv.form, at)
  {
    if w.conv.form.rescheduleLead.None? {
      AskedIsNext(w);
    }
  }

  lemma TimeReadMeans(w: World, m: Inbound, r: ParseResult)
    ensures TimeRead(w, m, r) == TimeTold(w, m, r)
  {
    var c := w.conv.form;
    TakenIsOrElse(r.parsedDate, c.pendingDate);
    if r.slot.Some? {
      var at := r.slot.value.at;
      var timed := c.(pendingDate := None, pendingTime := Some(at), pendingTimeRaw := Some(TakeRaw(m.text)));
      GatheredIsAbsorbed(timed, m.text, m.said.foundLater);
      TimeGoesOnMeans(WithForm(w, Absorb(timed, m.text, m.said.foundLater)), at);
    }
  }

  lemma TimeMeans(d: Deps, w: World, m: Inbound)
    ensures AskedTime(d, w, m) == TimeReply(d, w, m)
  {
    var named := WithAnnouncedName(w, m);
    TimeReadMeans(named, m, d.validator.Parse(m.text, m.now, w.conv.form.pendingDate));
  }

  /** The number to call: the contact's own when confirmed or when the reply gives none, which is then
  read as the time; another one when given, or left open when they say it is another. */
  function PhoneReply(d: Deps, w: World, m: Inbound): Outcome {
    var form := w.conv.form;
    var own := Some(w.user.phone);
    if m.tap == Some(PhoneConfirm) || (m.tap.None? && m.said.affirmative) then GoesOn(w, form.(contactPhone := own))
    else if m.tap == Some(PhoneOther) then GoesOn(w, form)
    else
      var given := Gathered(form, m.text, m.said.found);
      if given.contactPhone.Some? then GoesOn(w, given)
      else
        var kept := given.(contactPhone := own);
        if kept.pendingTime.None? then
          TimeReply(d, w.(conv := w.conv.(state := AskCallbackTime, form := kept)), m)
        else GoesOn(w, kept)
  }

  lemma GoesOnAlike(w: World, form: Form)
    ensures GoesOn(w.(conv := w.conv.(form := form)), form) == GoesOn(w, form)
  {
  }

  lemma PhoneMeans(d: Deps, w: World, m: Inbound)
    requires w.conv.form.rescheduleLead.None? && w.conv.form.contactPhone.None?
    ensures AskedPhone(d, w, m) == PhoneReply(d, w, m)
  {
    var form := w.conv.form;
    GatheredIsAbsorbed(form, m.text, m.said.found);
    var given := Gathered(form, m.text, m.said.found);
    var kept := given.(contactPhone := Some(w.user.phone));
    FormGoesOn(WithForm(w, form.(contactPhone := Some(w.user.phone))));
    FormGoesOn(w);
    FormGoesOn(WithForm(w, given));
    FormGoesOn(WithForm(w, kept));
    GoesOnAlike(w, form.(contactPhone := Some(w.user.phone)));
    GoesOnAlike(w, given);
    GoesOnAlike(w, kept);
    TimeMeans(d, InState(WithForm(w, kept), AskCallbackTime), m);
  }

  /** The note ends it: the booking being moved gets its new time, or the row is written. */
  function RemarksReply(w: World, m: Inbound): Outcome {
    var form := w.conv.form;
    var remarks := if m.said.skip then None else Some(Cut(m.text, 2000));
    if form.rescheduleLead.Some? && form.pendingTime.Some? then
      var id := form.rescheduleLead.value;
      if 1 <= id <= |w.leads| && w.leads[id - 1].phone == w.user.phone then
        var moved := w.leads[id - 1].(
          preferredTime := form.pendingTime,
          preferredTimeRaw := Taken(form.pendingTimeRaw, w.leads[id - 1].preferredTimeRaw),
          sync := Pending);
        (World(w.conv.(state := End, form := form.(rescheduleLead := None)), w.user, w.leads[id - 1 := moved]),
         TurnResult([Moved(form.pendingTime.value)], Some(id), true))
      else Written(w, form.(rescheduleLead := None), remarks)
    else Written(w, form, remarks)
  }

  lemma RemarksMean(w: World, m: Inbound)
    ensures AskedRemarks(w, m) == RemarksReply(w, m)
  {
    var remarks := if m.said.skip then None else Some(TakeRemarks(m.text));
    WrittenIsWriteLead(w, remarks);
    WrittenIsWriteLead(WithForm(w, w.conv.form.(rescheduleLead := None)), remarks);
  }

  /** What every reply to a form comes to. */
  lemma FormReply(d: Deps, w: World, m: Inbound)
    requires ReachesForm(w, m) && FormSound(w.conv)
    ensures Handle(d, w, m) ==
      match w.conv.state
      case AskName => NameReply(w, m)
      case AskEmail => DetailReply(w, m, EmailSlot)
      case AskEnrolledCourse => DetailReply(w, m, CourseSlot)
      case AskPhone => PhoneReply(d, w, m)
      case AskCallbackTime => TimeReply(d, w, m)
      case _ => RemarksReply(w, m)
  {
    FormTurn(d, w, m);
    match w.conv.state
    case AskName => NameMeans(w, m);
    case AskEmail => DetailMeans(w, m, EmailSlot);
    case AskEnrolledCourse => DetailMeans(w, m, CourseSlot);
    case AskPhone => PhoneMeans(d, w, m);
    case AskCallbackTime => TimeMeans(d, w, m);
    case _ => RemarksMean(w, m);
  }
}
