/** What one turn of the conversation machine guarantees: the form invariant, the
rule for lead rows, and where capture can lead. */
module FunnelLaws {
  import opened Wrappers
  import opened Calendar
  import opened CallbackTime
  import opened Domain
  import opened Funnel
  import opened TimeText

  /** The four questions about the contact; the time and the remarks come after them. */
  predicate AsksDetail(s: State) {
    s.AskName? || s.AskEmail? || s.AskEnrolledCourse? || s.AskPhone?
  }

  /** States only a contact whose name is known can be in. */
  predicate KnowsName(s: State) {
    s.AskEmail? || s.AskEnrolledCourse? || s.AskPhone? || s.AskCallbackTime? || s.AskRemarks? || s.ConfirmReschedule?
  }

  /** The state and the context agree on what is still being asked. */
  predicate FormSound(c: Conv) {
    && (AsksDetail(c.state) ==> c.form.rescheduleLead.None?)
    && (c.state.AskName? ==> MissingDetail(c) == Some(NameSlot))
    && (c.state.AskEmail? ==> MissingDetail(c) == Some(EmailSlot))
    && (c.state.AskEnrolledCourse? ==> MissingDetail(c) == Some(CourseSlot))
    && (c.state.AskPhone? ==> MissingDetail(c).None? && c.form.askedPhone && c.form.contactPhone.None?)
    && (c.state.AskRemarks? ==> c.form.pendingTime.Some? && (c.form.rescheduleLead.Some? || MissingDetail(c).None?))
  }

  /** The name question is retried at most twice, and a declined callback offer resumes the branch that made it. */
  predicate Bounded(c: Conv) {
    && c.form.nameAttempts <= MAX_NAME_ATTEMPTS
    && (c.chat.returnState.Some? ==> Selling(c.chat.returnState.value))
  }

  /** The required slots are full exactly when no detail is missing and a time is pending. */
  lemma CompleteIffNothingMissing(c: Conv)
    ensures Complete(c) <==> MissingDetail(c).None? && c.form.pendingTime.Some?
  {
    if Complete(c) {
      assert Required(c.leadType, NameSlot) && Required(c.leadType, TimeSlot);
      assert Required(c.leadType, EmailSlot) <==> c.leadType == Some(PostSales);
      assert Required(c.leadType, CourseSlot) <==> c.leadType == Some(PostSales);
    }
  }

  /** A lead a counselor can act on. */
  predicate Full(lead: Lead) {
    && lead.name.Some? && lead.preferredTime.Some?
    && (lead.kind.PostSales? ==> lead.email.Some? && lead.enrolledCourse.Some?)
  }

  ghost predicate NamedIfBooked(user: Contact, leads: seq<Lead>) {
    forall k :: 0 <= k < |leads| && leads[k].phone == user.phone ==> user.name.Some?
  }

  /** The name given in this conversation is on the contact, and a booking being moved is theirs. */
  predicate Linked(w: World) {
    && (w.conv.form.pendingName.Some? ==> w.user.name.Some?)
    && (KnowsName(w.conv.state) ==> w.user.name.Some?)
    && (w.conv.form.rescheduleLead.Some? ==> OwnLead(w, w.conv.form.rescheduleLead.value))
  }

  ghost predicate Sound(w: World) {
    FormSound(w.conv) && Bounded(w.conv) && Linked(w) && NamedIfBooked(w.user, w.leads)
  }

  /** The day a reply names, read on the day it arrives. An "as soon as possible" reply is
  taken at once and names none. */
  function DayNamed(m: Inbound): Option<Ordinal> {
    var cleaned := Lower(Strip(m.text));
    if cleaned == "" then None else ParseDate(cleaned, m.now.day)
  }

  /** The validator takes this message for this moment, given the day remembered. */
  predicate Takes(d: Deps, m: Inbound, remembered: Option<Ordinal>, at: Moment) {
    var slot := d.validator.Parse(m.text, m.now, remembered).slot;
    slot.Some? && slot.value.at == at
  }

  /** A new row: full, for this contact, at the pending time. */
  predicate NewRow(w: World, row: Lead) {
    && Full(row) && row.phone == w.user.phone && row.kind == w.conv.leadType.GetOr(PreSales)
    && row.preferredTime == w.conv.form.pendingTime && row.preferredTimeRaw == w.conv.form.pendingTimeRaw
    && row.status.NewLead? && row.sync.Pending?
  }

  /** A turn writes no lead, or it closes the conversation having written exactly one: it
  moves the booking being rescheduled, or adds one full row. */
  predicate LeadRule(w: World, o: Outcome) {
    var c := w.conv.form;
    match o.1.lead
    case None => o.0.leads == w.leads && !o.1.close
    case Some(id) =>
      && o.1.close && c.pendingTime.Some?
      && if c.rescheduleLead.Some?
         then id == c.rescheduleLead.value && OwnLead(w, id)
              && o.0.leads == w.leads[id - 1 := MovedLead(w.leads[id - 1], c.pendingTime.value, c.pendingTimeRaw)]
         else id == |w.leads| + 1 && |o.0.leads| == id && o.0.leads[..id - 1] == w.leads && NewRow(w, o.0.leads[id - 1])
  }

  /** The contact stays the same person, and never loses a name once given. */
  predicate SameContact(before: Contact, after: Contact) {
    after.phone == before.phone && (before.name.Some? ==> after.name.Some?)
  }

  /** A pending time is kept, dropped, or one the validator took in this very turn, with the day
  this conversation remembered. */
  predicate TimeRule(d: Deps, w: World, m: Inbound, after: Form) {
    after.pendingTime.Some? ==>
      after.pendingTime == w.conv.form.pendingTime || Takes(d, m, w.conv.form.pendingDate, after.pendingTime.value)
  }

  /** A remembered day is kept, dropped, or one that this very message names. */
  predicate DayRule(w: World, m: Inbound, after: Form) {
    after.pendingDate.Some? ==> after.pendingDate == w.conv.form.pendingDate || after.pendingDate == DayNamed(m)
  }

  ghost predicate Keeps(d: Deps, w: World, m: Inbound, o: Outcome) {
    && Sound(o.0) && LeadRule(w, o) && SameContact(w.user, o.0.user)
    && TimeRule(d, w, m, o.0.conv.form) && DayRule(w, m, o.0.conv.form)
  }

  // ------------------------------------------------------------------
  // Turns outside capture
  // ------------------------------------------------------------------

  /** Nothing about bookings changed, and no form is open. */
  predicate Elsewhere(w: World, o: Outcome) {
    && !Capturing(o.0.conv.state) && (o.0.conv.state.ConfirmReschedule? ==> w.user.name.Some?)
    && o.0.conv.form == w.conv.form.(enrolledCourse := o.0.conv.form.enrolledCourse) && Bounded(o.0.conv)
    && o.0.user.phone == w.user.phone && o.0.user.name == w.user.name
    && o.0.leads == w.leads && o.1.lead.None? && !o.1.close
  }

  lemma ElsewhereKeeps(d: Deps, w: World, m: Inbound, o: Outcome)
    requires Sound(w) && Elsewhere(w, o)
    ensures Keeps(d, w, m, o)
  {
  }

  // ------------------------------------------------------------------
  // Asking and writing
  // ------------------------------------------------------------------

  /** A question leads to the state that asks it; no question means nothing is missing. */
  lemma NextQuestionRule(w: World)
    requires w.conv.form.pendingName.Some? ==> w.user.name.Some?
    ensures var (next, question) := NextQuestion(w);
      && next.user == w.user && next.leads == w.leads
      && next.conv.leadType == w.conv.leadType
      && next.conv.chat == w.conv.chat
      && next.conv.form == w.conv.form.(
           pendingName := next.conv.form.pendingName, askedPhone := next.conv.form.askedPhone)
      && (next.conv.form.pendingName.Some? ==> w.user.name.Some?)
      && (w.conv.form.rescheduleLead.Some? ==> question.None? && next == w)
      && (w.conv.form.rescheduleLead.None? && question.None? ==>
            MissingDetail(next.conv).None? && next.conv.form.pendingTime.Some? && next.conv.state == w.conv.state)
      && (question.Some? ==>
            (AsksDetail(next.conv.state) || next.conv.state.AskCallbackTime?)
            && (KnowsName(next.conv.state) ==> w.user.name.Some?)
            && FormSound(next.conv))
  {
    var known := WithKnownName(w);
    assert known.conv.form.pendingName.Some? <==> known.user.name.Some? || w.conv.form.pendingName.Some?;
  }

  /** Everything a new row needs, or a booking of this contact to move. */
  predicate ReadyToWrite(w: World) {
    && w.conv.form.pendingTime.Some?
    && (w.conv.form.rescheduleLead.Some? || MissingDetail(w.conv).None?)
  }

  lemma CreateLeadKeeps(w: World, remarks: Option<string>)
    requires ReadyToWrite(w) && Linked(w) && NamedIfBooked(w.user, w.leads)
    requires Bounded(w.conv)
    ensures var o := CreateLead(w, remarks);
      && Sound(o.0) && LeadRule(w, o) && o.0.user == w.user && o.1.lead.Some?
      && (o.0.conv.form.pendingTime.None? || o.0.conv.form.pendingTime == w.conv.form.pendingTime)
      && o.0.conv.form.pendingDate == w.conv.form.pendingDate
      && (o.0.conv.state.LeadCreated? || o.0.conv.state.End?)
  {
    var o := CreateLead(w, remarks);
    if w.conv.form.rescheduleLead.Some? {
      var id := w.conv.form.rescheduleLead.value;
      forall k | 0 <= k < |o.0.leads| && o.0.leads[k].phone == o.0.user.phone
        ensures o.0.user.name.Some?
      {
        assert w.leads[k].phone == w.user.phone;
      }
    }
  }

  /** The same contact and booking facts, whatever else a handler wrote down first. */
  predicate SameBooking(w: World, x: World) {
    && x.leads == w.leads && SameContact(w.user, x.user) && x.conv.leadType == w.conv.leadType
    && x.conv.form.rescheduleLead == w.conv.form.rescheduleLead
    && x.conv.form.pendingTime == w.conv.form.pendingTime && x.conv.form.pendingTimeRaw == w.conv.form.pendingTimeRaw
    && x.conv.form.pendingDate == w.conv.form.pendingDate
  }

  lemma FinishCaptureKeeps(d: Deps, w: World, x: World, m: Inbound)
    requires Sound(w) && AsksDetail(w.conv.state) && SameBooking(w, x)
    requires Linked(InState(x, AskName)) && Bounded(x.conv)
    ensures var o := FinishCapture(x);
      Keeps(d, w, m, o) && o.0.user == x.user
  {
    NextQuestionRule(x);
    var (next, question) := NextQuestion(x);
    if question.None? {
      CreateLeadKeeps(next, None);
    } else {
    }
  }

  // ------------------------------------------------------------------
  // The capture handlers
  // ------------------------------------------------------------------

  lemma AskedNameKeeps(d: Deps, w: World, m: Inbound)
    requires Sound(w) && w.conv.state.AskName?
    ensures Keeps(d, w, m, AskedName(w, m))
  {
    var c := Absorb(w.conv.form, m.text, m.said.found);
    var given := OrElse(c.pendingName, m.said.wholeName);
    if given.None? && c.nameAttempts < MAX_NAME_ATTEMPTS {
    } else {
      var name := given.GetOr(w.user.profileName.GetOr("there"));
      FinishCaptureKeeps(d, w, Named(w, c, name), m);
    }
  }

  lemma TriedIsSameBooking(w: World, m: Inbound, slot: FormSlot)
    requires Sound(w) && w.user.name.Some? && w.conv.form.rescheduleLead.None?
    ensures var x := Tried(w, m, slot);
      SameBooking(w, x) && x.user == w.user && Linked(InState(x, AskName)) && Bounded(x.conv)
  {
  }

  lemma AskedDetailKeeps(d: Deps, w: World, m: Inbound, slot: FormSlot)
    requires Sound(w) && (w.conv.state.AskEmail? || w.conv.state.AskEnrolledCourse?)
    ensures Keeps(d, w, m, AskedDetail(w, m, slot))
  {
    TriedIsSameBooking(w, m, slot);
    var x := Tried(w, m, slot);
    FinishCaptureKeeps(d, w, x, m);
    DetailRefused(d, w, x, m);
  }

  lemma DetailRefused(d: Deps, w: World, x: World, m: Inbound)
    requires Sound(w) && AsksDetail(w.conv.state) && SameBooking(w, x) && x.user == w.user
    requires Linked(InState(x, AskName)) && Bounded(x.conv) && x.user.name.Some?
    ensures Keeps(d, w, m, (InState(WithKnownName(x), SupportQuery), Say([DetailsRequired])))
  {
  }

  /** A rejected reply remembers the day it names, or else the day remembered before. */
  lemma RejectionKeepsDay(d: Deps, m: Inbound, before: Option<Ordinal>)
    requires d.validator.Parse(m.text, m.now, before).slot.None?
    ensures OrElse(d.validator.Parse(m.text, m.now, before).parsedDate, before) == OrElse(DayNamed(m), before)
  {
  }

  lemma TimeRefused(d: Deps, w: World, x: World, m: Inbound, day: Option<Ordinal>, reason: Option<Reason>,
                    suggestions: seq<Slot>)
    requires Sound(w) && w.conv.state.AskCallbackTime? && x == WithAnnouncedName(w, m)
    requires day == OrElse(DayNamed(m), w.conv.form.pendingDate)
    ensures Keeps(d, w, m, (WithForm(x, x.conv.form.(pendingDate := day)), Say([TimeRejected(reason, suggestions)])))
  {
  }

  lemma AskedTimeKeeps(d: Deps, w: World, m: Inbound)
    requires Sound(w) && w.conv.state.AskCallbackTime?
    ensures Keeps(d, w, m, AskedTime(d, w, m)) && AskedTime(d, w, m).1.lead.None?
    ensures Capturing(AskedTime(d, w, m).0.conv.state)
  {
    var named := WithAnnouncedName(w, m);
    var c := named.conv.form;
    var parsed := d.validator.Parse(m.text, m.now, c.pendingDate);
    if parsed.slot.None? {
      RejectionKeepsDay(d, m, c.pendingDate);
      TimeRefused(d, w, named, m, OrElse(parsed.parsedDate, c.pendingDate), parsed.reason, parsed.suggestions);
    } else {
      var at := parsed.slot.value.at;
      assert Takes(d, m, w.conv.form.pendingDate, at);
      var timed := c.(pendingDate := None, pendingTime := Some(at), pendingTimeRaw := Some(TakeRaw(m.text)));
      TimeTaken(d, w, WithForm(named, Absorb(timed, m.text, m.said.foundLater)), m, at);
    }
  }

  lemma TimeTaken(d: Deps, w: World, x: World, m: Inbound, at: Moment)
    requires Sound(w) && x.leads == w.leads && SameContact(w.user, x.user) && x.user.name.Some?
    requires Linked(x) && Bounded(x.conv) && x.conv.state.AskCallbackTime?
    requires x.conv.form.pendingTime == Some(at) && Takes(d, m, w.conv.form.pendingDate, at)
    requires x.conv.form.pendingDate.None?
    ensures var o := AskRemainingOrRemarks(x, at);
      Keeps(d, w, m, o) && o.1.lead.None? && Capturing(o.0.conv.state)
  {
    NextQuestionRule(x);
  }

  lemma AskedPhoneKeeps(d: Deps, w: World, m: Inbound)
    requires Sound(w) && w.conv.state.AskPhone?
    ensures Keeps(d, w, m, AskedPhone(d, w, m))
  {
    if m.tap == Some(PhoneConfirm) || (m.tap.None? && m.said.affirmative) {
      FinishCaptureKeeps(d, w, WithForm(w, w.conv.form.(contactPhone := Some(w.user.phone))), m);
    } else if m.tap == Some(PhoneOther) {
      FinishCaptureKeeps(d, w, w, m);
    } else {
      PhoneNotConfirmed(d, w, m);
    }
  }

  lemma PhoneNotConfirmed(d: Deps, w: World, m: Inbound)
    requires Sound(w) && w.conv.state.AskPhone?
    requires m.tap != Some(PhoneConfirm) && (m.tap.Some? || !m.said.affirmative) && m.tap != Some(PhoneOther)
    ensures Keeps(d, w, m, AskedPhone(d, w, m))
  {
    var absorbed := Absorb(w.conv.form, m.text, m.said.found);
    var accepted := WithForm(w, absorbed.(contactPhone := Some(w.user.phone)));
    if absorbed.contactPhone.Some? {
      FinishCaptureKeeps(d, w, WithForm(w, absorbed), m);
    } else if accepted.conv.form.pendingTime.Some? {
      FinishCaptureKeeps(d, w, accepted, m);
    } else {
      PhoneTakenForTime(d, w, accepted, m);
    }
  }

  /** A reply to the phone question that is no number is read as the answer to the next question. */
  lemma PhoneTakenForTime(d: Deps, w: World, x: World, m: Inbound)
    requires Sound(w) && AsksDetail(w.conv.state) && SameBooking(w, x) && x.user == w.user
    requires Linked(InState(x, AskCallbackTime)) && Bounded(x.conv)
    ensures Keeps(d, w, m, AskedTime(d, InState(x, AskCallbackTime), m))
  {
    AskedTimeKeeps(d, InState(x, AskCallbackTime), m);
  }

  lemma AskedRemarksKeeps(d: Deps, w: World, m: Inbound)
    requires Sound(w) && w.conv.state.AskRemarks?
    ensures Keeps(d, w, m, AskedRemarks(w, m))
  {
    CreateLeadKeeps(w, if m.said.skip then None else Some(TakeRemarks(m.text)));
  }

  // ------------------------------------------------------------------
  // Entering capture
  // ------------------------------------------------------------------

  /** Capture starts with a question and writes nothing. */
  lemma StartCaptureKeeps(d: Deps, w: World, m: Inbound, leadType: LeadType)
    requires Sound(w)
    ensures var o := StartCapture(w, leadType);
      Keeps(d, w, m, o) && o.1.lead.None? && (AsksDetail(o.0.conv.state) || o.0.conv.state.AskCallbackTime?)
  {
    var typed := w.(conv := w.conv.(leadType := Some(leadType)));
    var named := WithForm(typed, typed.conv.form.(pendingName := OrElse(w.user.name, typed.conv.form.pendingName)));
    NextQuestionRule(named);
    var (next, question) := NextQuestion(named);
  }

  lemma AskForNewTimeKeeps(d: Deps, w: World, m: Inbound, id: nat)
    requires Sound(w) && OwnLead(w, id)
    ensures Keeps(d, w, m, AskForNewTime(w, id))
  {
  }

  lemma StartRescheduleKeeps(d: Deps, w: World, m: Inbound)
    requires Sound(w)
    ensures Keeps(d, w, m, StartReschedule(w, m.now))
  {
    var lead := Upcoming(w, m.now);
    if lead.Some? {
      AskForNewTimeKeeps(d, w, m, lead.value);
    } else {
      StartCaptureKeeps(d, w, m, w.conv.leadType.GetOr(PreSales));
    }
  }

  lemma StartOrOfferMoveKeeps(d: Deps, w: World, m: Inbound)
    requires Sound(w)
    ensures Keeps(d, w, m, StartOrOfferMove(w, m.now))
  {
    var lead := Upcoming(w, m.now);
    if lead.None? {
      StartCaptureKeeps(d, w, m, w.conv.leadType.GetOr(PreSales));
    } else {
      ElsewhereKeeps(d, w, m, StartOrOfferMove(w, m.now));
    }
  }

  lemma AskedMoveKeeps(d: Deps, w: World, m: Inbound)
    requires Sound(w) && w.conv.state.ConfirmReschedule?
    ensures Keeps(d, w, m, AskedMove(w, m))
  {
    var lead := Upcoming(w, m.now);
    if lead.Some? {
      AskForNewTimeKeeps(d, w, m, lead.value);
    }
    if !(m.tap == Some(RescheduleNew) || m.said.negative)
       && !((m.tap == Some(RescheduleMove) || m.said.affirmative) && lead.Some?) {
      ElsewhereKeeps(d, w, m, AskedMove(w, m));
    }
  }

  lemma AskedCallbackKeeps(d: Deps, w: World, m: Inbound)
    requires Sound(w) && w.conv.state.AskCallback?
    ensures Keeps(d, w, m, AskedCallback(w, m))
  {
    var accepted := m.tap == Some(ConfirmYes) || (m.tap.None? && (m.said.affirmative || m.said.wantsHuman));
    if accepted {
      StartCaptureKeeps(d, w, m, w.conv.leadType.GetOr(PreSales));
    } else {
      ElsewhereKeeps(d, w, m, AskedCallback(w, m));
    }
  }

  // ------------------------------------------------------------------
  // Menus, questions and support
  // ------------------------------------------------------------------

  /** A handler that writes no lead may first move to another state outside capture. */
  lemma KeepsFrom(d: Deps, w: World, x: World, m: Inbound, o: Outcome)
    requires Keeps(d, x, m, o) && o.1.lead.None?
    requires x.user == w.user && x.leads == w.leads && x.conv.form.pendingTime == w.conv.form.pendingTime
    requires x.conv.form.pendingDate == w.conv.form.pendingDate
    ensures Keeps(d, w, m, o)
  {
  }

  lemma SoundOutside(w: World, s: State)
    requires Sound(w) && !Capturing(s) && !s.ConfirmReschedule?
    ensures Sound(InState(w, s))
  {
  }

  lemma MenuReplyIsElsewhere(w: World, m: Inbound)
    requires Bounded(w.conv) && w.conv.state.MainMenu?
    ensures Elsewhere(w, AtMenuReply(w, m))
  {
  }

  lemma MainMenuKeeps(d: Deps, w: World, m: Inbound)
    requires Sound(w) && w.conv.state.MainMenu?
    ensures Keeps(d, w, m, AtMainMenu(w, m)) && AtMainMenu(w, m).1.lead.None?
  {
    if ChosenFromMenu(m) == Some(ChooseCounselor) {
      StartCaptureKeeps(d, w, m, PreSales);
    } else {
      MenuReplyIsElsewhere(w, m);
      ElsewhereKeeps(d, w, m, AtMainMenu(w, m));
    }
  }

  lemma StartKeeps(d: Deps, w: World, m: Inbound)
    requires Sound(w) && (w.conv.state.Start? || w.conv.state.LeadCreated? || w.conv.state.End?)
    ensures Keeps(d, w, m, AtStart(InState(w, Start), m))
  {
    SoundOutside(w, MainMenu);
    MainMenuKeeps(d, InState(w, MainMenu), m);
    if m.said.closing || m.said.greeting || m.text == "" {
      ElsewhereKeeps(d, w, m, AtStart(InState(w, Start), m));
    } else {
      KeepsFrom(d, w, InState(w, MainMenu), m, AtMainMenu(InState(w, MainMenu), m));
    }
  }

  lemma CourseGroupIsElsewhere(d: Deps, w: World, m: Inbound)
    requires Bounded(w.conv) && w.conv.state.CourseGroup?
    ensures Elsewhere(w, AtCourseGroup(w, m))
  {
  }

  lemma CourseGroupKeeps(d: Deps, w: World, m: Inbound)
    requires Sound(w) && w.conv.state.CourseGroup?
    ensures Keeps(d, w, m, AtCourseGroup(w, m))
  {
    CourseGroupIsElsewhere(d, w, m);
    ElsewhereKeeps(d, w, m, AtCourseGroup(w, m));
  }

  lemma CourseSelectionIsElsewhere(d: Deps, w: World, m: Inbound)
    requires Bounded(w.conv) && w.conv.state.CourseSelection?
    ensures Elsewhere(w, AtCourseSelection(d, w, m))
  {
  }

  lemma CourseSelectionKeeps(d: Deps, w: World, m: Inbound)
    requires Sound(w) && w.conv.state.CourseSelection?
    ensures Keeps(d, w, m, AtCourseSelection(d, w, m))
  {
    CourseSelectionIsElsewhere(d, w, m);
    ElsewhereKeeps(d, w, m, AtCourseSelection(d, w, m));
  }

  lemma AnswerAndNudgeIsElsewhere(d: Deps, w: World, m: Inbound)
    requires Bounded(w.conv) && (w.conv.state.CourseQna? || w.conv.state.GeneralQna?)
    ensures Elsewhere(w, AnswerAndNudge(d, w, m))
  {
  }

  lemma CourseQnaKeeps(d: Deps, w: World, m: Inbound)
    requires Sound(w) && w.conv.state.CourseQna?
    ensures Keeps(d, w, m, InCourseQna(d, w, m))
  {
    var course := if m.said.course.Some? then Some(m.said.course.value.slug) else w.conv.course;
    var x := WithProfile(w.(conv := w.conv.(course := course)), m);
    assert Sound(x);
    AnswerAndNudgeIsElsewhere(d, x, m);
    ElsewhereKeeps(d, x, m, AnswerAndNudge(d, x, m));
    KeepsFrom(d, w, x, m, AnswerAndNudge(d, x, m));
  }

  lemma GeneralQnaKeeps(d: Deps, w: World, m: Inbound)
    requires Sound(w) && w.conv.state.GeneralQna?
    ensures Keeps(d, w, m, InGeneralQna(d, w, m))
  {
    var x := if m.said.course.Some?
             then w.(conv := w.conv.(state := CourseQna, course := Some(m.said.course.value.slug)))
             else w;
    assert Sound(x);
    AnswerAndNudgeIsElsewhere(d, x, m);
    ElsewhereKeeps(d, x, m, AnswerAndNudge(d, x, m));
    KeepsFrom(d, w, x, m, AnswerAndNudge(d, x, m));
  }

  lemma DiscoveryIsElsewhere(d: Deps, w: World, m: Inbound)
    requires Bounded(w.conv) && w.conv.state.Discovery?
    ensures Elsewhere(w, InDiscovery(d, w, m))
  {
  }

  lemma DiscoveryKeeps(d: Deps, w: World, m: Inbound)
    requires Sound(w) && w.conv.state.Discovery?
    ensures Keeps(d, w, m, InDiscovery(d, w, m))
  {
    DiscoveryIsElsewhere(d, w, m);
    ElsewhereKeeps(d, w, m, InDiscovery(d, w, m));
  }

  lemma EnrollmentTypeIsElsewhere(d: Deps, w: World, m: Inbound)
    requires Bounded(w.conv) && w.conv.state.EnrollmentType?
    ensures Elsewhere(w, AtEnrollmentType(w, m))
  {
  }

  lemma EnrollmentTypeKeeps(d: Deps, w: World, m: Inbound)
    requires Sound(w) && w.conv.state.EnrollmentType?
    ensures Keeps(d, w, m, AtEnrollmentType(w, m))
  {
    EnrollmentTypeIsElsewhere(d, w, m);
    ElsewhereKeeps(d, w, m, AtEnrollmentType(w, m));
  }

  lemma SupportQueryKeeps(d: Deps, w: World, m: Inbound)
    requires Sound(w)
    ensures Keeps(d, w, m, InSupportQuery(w, m)) && InSupportQuery(w, m).1.lead.None?
  {
    if m.said.wantsHuman {
      StartCaptureKeeps(d, w, m, PostSales);
    } else {
      ElsewhereKeeps(d, w, m, InSupportQuery(w, m));
    }
  }

  lemma SupportMenuKeeps(d: Deps, w: World, m: Inbound)
    requires Sound(w) && w.conv.state.SupportMenu?
    ensures Keeps(d, w, m, AtSupportMenu(w, m))
  {
    if ChosenTopic(m).None? && m.said.atLeastThreeWords {
      var x := w.(conv := w.conv.(state := SupportQuery, leadType := Some(PostSales)));
      SoundOutside(w, SupportQuery);
      assert Sound(x);
      SupportQueryKeeps(d, x, m);
      KeepsFrom(d, w, x, m, InSupportQuery(x, m));
    } else {
      ElsewhereKeeps(d, w, m, AtSupportMenu(w, m));
    }
  }

  lemma SupportCallbackKeeps(d: Deps, w: World, m: Inbound)
    requires Sound(w) && w.conv.state.SupportCallback?
    ensures Keeps(d, w, m, InSupportCallback(w, m))
  {
    var resolved := m.tap == Some(ConfirmYes) || (m.tap.None? && m.said.affirmative);
    var escalate := m.tap == Some(ConfirmNo) || (m.tap.None? && (m.said.negative || m.said.wantsHuman));
    SoundOutside(w, SupportQuery);
    if escalate {
      StartCaptureKeeps(d, w, m, PostSales);
    } else if resolved {
      ElsewhereKeeps(d, w, m, InSupportCallback(w, m));
    } else {
      SupportQueryKeeps(d, InState(w, SupportQuery), m);
      KeepsFrom(d, w, InState(w, SupportQuery), m, InSupportQuery(InState(w, SupportQuery), m));
    }
  }

  // ------------------------------------------------------------------
  // One turn
  // ------------------------------------------------------------------

  lemma NavigationIsElsewhere(d: Deps, w: World, m: Inbound)
    requires Bounded(w.conv) && OnNavigation(d, w, m).Some? && m.tap != Some(MenuCounselor)
    ensures Elsewhere(w, OnNavigation(d, w, m).value)
  {
  }

  lemma NavigationKeeps(d: Deps, w: World, m: Inbound)
    requires Sound(w) && OnNavigation(d, w, m).Some?
    ensures Keeps(d, w, m, OnNavigation(d, w, m).value)
  {
    if m.tap == Some(MenuCounselor) {
      StartCaptureKeeps(d, w, m, w.conv.leadType.GetOr(PreSales));
    } else {
      NavigationIsElsewhere(d, w, m);
      ElsewhereKeeps(d, w, m, OnNavigation(d, w, m).value);
    }
  }

  lemma CommandKeeps(d: Deps, w: World, m: Inbound)
    requires Sound(w) && OnCommand(d, w, m).Some?
    ensures Keeps(d, w, m, OnCommand(d, w, m).value)
  {
    var c := w.conv;
    if m.said.wantsMenu || m.said.greeting || m.said.wantsCourses || (c.course.None? && m.said.wantsTeaching) {
      ElsewhereKeeps(d, w, m, OnCommand(d, w, m).value);
    } else if m.said.wantsReschedule {
      StartRescheduleKeeps(d, w, m);
    } else {
      StartOrOfferMoveKeeps(d, w, m);
    }
  }

  /** Taps on the discount card and media change neither the form nor the leads, though the
  "question" button does leave an open form. */
  lemma OfferTapKeeps(d: Deps, w: World, m: Inbound)
    requires Sound(w) && OnOfferTap(w, m).Some?
    ensures Keeps(d, w, m, OnOfferTap(w, m).value)
  {
  }

  lemma InCaptureKeeps(d: Deps, w: World, m: Inbound)
    requires Sound(w) && Capturing(w.conv.state)
    ensures Keeps(d, w, m, InCapture(d, w, m))
  {
    match w.conv.state
    case AskName => AskedNameKeeps(d, w, m);
    case AskEmail => AskedDetailKeeps(d, w, m, EmailSlot);
    case AskEnrolledCourse => AskedDetailKeeps(d, w, m, CourseSlot);
    case AskPhone => AskedPhoneKeeps(d, w, m);
    case AskCallbackTime => AskedTimeKeeps(d, w, m);
    case AskRemarks => AskedRemarksKeeps(d, w, m);
  }

  lemma ByStateKeeps(d: Deps, w: World, m: Inbound)
    requires Sound(w)
    ensures Keeps(d, w, m, ByState(d, w, m))
  {
    if Capturing(w.conv.state) {
      InCaptureKeeps(d, w, m);
      return;
    }
    match w.conv.state
    case Start => StartKeeps(d, w, m);
    case MainMenu => MainMenuKeeps(d, w, m);
    case CourseGroup => CourseGroupKeeps(d, w, m);
    case CourseSelection => CourseSelectionKeeps(d, w, m);
    case CourseQna => CourseQnaKeeps(d, w, m);
    case GeneralQna => GeneralQnaKeeps(d, w, m);
    case Discovery => DiscoveryKeeps(d, w, m);
    case EnrollmentType => EnrollmentTypeKeeps(d, w, m);
    case SupportMenu => SupportMenuKeeps(d, w, m);
    case SupportQuery => SupportQueryKeeps(d, w, m);
    case SupportCallback => SupportCallbackKeeps(d, w, m);
    case AskCallback => AskedCallbackKeeps(d, w, m);
    case ConfirmReschedule => AskedMoveKeeps(d, w, m);
    case LeadCreated => StartKeeps(d, w, m);
    case End => StartKeeps(d, w, m);
  }

  /** Every turn, from every sound world and for every message: the form stays sound, leads are
  written by the rule, and a pending time is one the validator took. */
  lemma TurnKeeps(d: Deps, w: World, m: Inbound)
    requires Sound(w)
    ensures Keeps(d, w, m, Handle(d, w, m))
  {
    if m.unsupported {
    } else if OnOfferTap(w, m).Some? {
      OfferTapKeeps(d, w, m);
    } else if OnNavigation(d, w, m).Some? {
      NavigationKeeps(d, w, m);
    } else if OnCommand(d, w, m).Some? {
      CommandKeeps(d, w, m);
    } else {
      ByStateKeeps(d, w, m);
    }
  }
}
