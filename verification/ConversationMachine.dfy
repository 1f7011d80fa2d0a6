/** The conversation machine as the program runs it: handlers that assign to the conversation,
the contact and the lead table step by step. Each is proved to do what Funnel says. */
module ConversationMachine {
  import opened Wrappers
  import opened Calendar
  import opened CallbackTime
  import opened Domain
  import TimeText
  import Funnel
  import FunnelLaws

  class Conversation {
    var currentState: State
    var leadType: Option<LeadType>
    var currentCourse: Option<Text>
    var chat: Chat
    var form: Form

    constructor (c: Conv)
      ensures Value() == c
    {
      currentState, leadType, currentCourse, chat, form := c.state, c.leadType, c.course, c.chat, c.form;
    }

    function Value(): Conv
      reads this
    {
      Conv(currentState, leadType, currentCourse, chat, form)
    }
  }

  class User {
    const phone: Text
    var name: Option<Text>
    var profileName: Option<Text>
    var paymentProof: bool

    constructor (contact: Contact)
      ensures Value() == contact
    {
      phone, name, profileName, paymentProof := contact.phone, contact.name, contact.profileName, contact.paymentProof;
    }

    function Value(): Contact
      reads this
    {
      Contact(phone, name, profileName, paymentProof)
    }
  }

  class LeadRepository {
    var rows: seq<Lead>

    constructor (rows: seq<Lead>)
      ensures this.rows == rows
    {
      this.rows := rows;
    }

    method Create(lead: Lead) returns (id: nat)
      modifies this
      ensures rows == old(rows) + [lead] && id == |rows|
    {
      rows := rows + [lead];
      id := |rows|;
    }

    /** The earliest booking of this number a counselor has not worked and whose time has not passed. */
    method FindUpcomingCallback(phone: Text, now: Moment) returns (id: Option<nat>)
      ensures id == Funnel.UpcomingAmong(rows, |rows|, phone, now)
      ensures id.Some? ==> 1 <= id.value <= |rows|
    {
      id := None;
      for i := 0 to |rows|
        invariant id == Funnel.UpcomingAmong(rows, i, phone, now)
      {
        var lead := rows[i];
        if lead.phone == phone && lead.status == NewLead && lead.preferredTime.Some?
           && AtOrBefore(now, lead.preferredTime.value)
        {
          if id.None? || Before(lead.preferredTime.value, rows[id.value - 1].preferredTime.value) {
            id := Some(i + 1);
          }
        }
      }
    }

    method MarkSync(id: nat, sync: SyncStatus)
      requires 1 <= id <= |rows|
      modifies this
      ensures rows == old(rows)[id - 1 := old(rows)[id - 1].(sync := sync)]
    {
      rows := rows[id - 1 := rows[id - 1].(sync := sync)];
    }

    /** Leads that never made it to the sheet, oldest first. */
    method ListPendingSync(limit: nat) returns (ids: seq<nat>)
      ensures ids == AwaitingAmong(rows, |rows|, limit)
    {
      ids := [];
      for i := 0 to |rows|
        invariant ids == AwaitingAmong(rows, i, limit)
      {
        if |ids| < limit && (rows[i].sync.Pending? || rows[i].sync.Failed? || rows[i].sync.Skipped?) {
          ids := ids + [i + 1];
        }
      }
    }

    /** Move a booking; the sheet has to be brought back into line. */
    method Reschedule(id: nat, at: Moment, raw: Option<string>)
      requires 1 <= id <= |rows|
      modifies this
      ensures rows == old(rows)[id - 1 := Funnel.MovedLead(old(rows)[id - 1], at, raw)]
    {
      var lead := rows[id - 1].(preferredTime := Some(at));
      if raw.Some? {
        lead := lead.(preferredTimeRaw := raw);
      }
      lead := lead.(sync := Pending);
      rows := rows[id - 1 := lead];
    }
  }

  /** A row that has not reached the sheet: only a synced one has. */
  predicate AwaitsSync(lead: Lead) {
    lead.sync != Synced
  }

  /** The first identifiers, up to `limit`, of rows that await a sync among the first n. */
  function AwaitingAmong(rows: seq<Lead>, n: nat, limit: nat): seq<nat>
    requires n <= |rows|
  {
    if n == 0 then []
    else
      var before := AwaitingAmong(rows, n - 1, limit);
      if |before| < limit && AwaitsSync(rows[n - 1]) then before + [n] else before
  }

  /** The slots this kind of lead requires, in asking order. */
  function RequiredSlots(leadType: Option<LeadType>): seq<FormSlot> {
    if leadType == Some(PostSales) then [NameSlot, EmailSlot, CourseSlot, TimeSlot] else [NameSlot, TimeSlot]
  }

  /** The slots among these that are still empty. */
  function MissingAmong(c: Form, slots: seq<FormSlot>): seq<FormSlot> {
    if slots == [] then []
    else (if Funnel.Filled(c, slots[0]) then [] else [slots[0]]) + MissingAmong(c, slots[1..])
  }

  lemma {:induction false} MissingAmongOneMore(c: Form, slots: seq<FormSlot>, slot: FormSlot)
    ensures MissingAmong(c, slots + [slot])
         == MissingAmong(c, slots) + (if Funnel.Filled(c, slot) then [] else [slot])
  {
    if slots == [] {
      assert [slot][1..] == [];
    } else {
      assert (slots + [slot])[1..] == slots[1..] + [slot];
      MissingAmongOneMore(c, slots[1..], slot);
    }
  }

  /** The missing slots are the missing detail's first, and the time last. */
  lemma MissingDetailIsFirst(c: Conv)
    ensures var missing := MissingAmong(c.form, RequiredSlots(c.leadType));
      match Funnel.MissingDetail(c)
      case Some(slot) => missing != [] && missing[0] == slot && !slot.TimeSlot?
      case None => missing == if c.form.pendingTime.Some? then [] else [TimeSlot]
  {
    var form := c.form;
    assert [NameSlot, TimeSlot][1..] == [TimeSlot] && [TimeSlot][1..] == [];
    assert [NameSlot, EmailSlot, CourseSlot, TimeSlot][1..] == [EmailSlot, CourseSlot, TimeSlot];
    assert [EmailSlot, CourseSlot, TimeSlot][1..] == [CourseSlot, TimeSlot];
    assert [CourseSlot, TimeSlot][1..] == [TimeSlot];
    assert MissingAmong(form, []) == [];
    assert MissingAmong(form, [TimeSlot]) == if form.pendingTime.Some? then [] else [TimeSlot];
    assert MissingAmong(form, [CourseSlot, TimeSlot])
        == (if form.enrolledCourse.Some? then [] else [CourseSlot]) + MissingAmong(form, [TimeSlot]);
    assert MissingAmong(form, [EmailSlot, CourseSlot, TimeSlot])
        == (if form.email.Some? then [] else [EmailSlot]) + MissingAmong(form, [CourseSlot, TimeSlot]);
  }

  /** One inbound message and the rows it is applied to. */
  class TurnContext {
    const deps: Deps
    const inbound: Inbound
    const conversation: Conversation
    const user: User
    const leads: LeadRepository

    constructor (deps: Deps, inbound: Inbound, conversation: Conversation, user: User, leads: LeadRepository)
      ensures this.deps == deps && this.inbound == inbound
      ensures this.conversation == conversation && this.user == user && this.leads == leads
    {
      this.deps, this.inbound, this.conversation, this.user, this.leads := deps, inbound, conversation, user, leads;
    }

    function Now(): World
      reads conversation, user, leads
    {
      World(conversation.Value(), user.Value(), leads.rows)
    }

    // ----------------------------------------------------------------
    // Slot filling
    // ----------------------------------------------------------------

    method AbsorbSlots(found: Found)
      modifies conversation`form
      ensures conversation.form == Funnel.Absorb(old(conversation.form), inbound.text, found)
    {
      if TimeText.Strip(inbound.text) == "" {
        return;
      }
      if found.email.Some? && conversation.form.email.None? {
        conversation.form := conversation.form.(email := found.email);
      }
      if found.phone.Some? && conversation.form.contactPhone.None? {
        conversation.form := conversation.form.(contactPhone := found.phone);
      }
      if conversation.form.enrolledCourse.None? && found.course.Some? {
        conversation.form := conversation.form.(enrolledCourse := Some(found.course.value.name));
      }
      if conversation.form.pendingName.None? && found.name.Some? {
        conversation.form := conversation.form.(pendingName := found.name);
      }
    }

    method MissingSlots() returns (missing: seq<FormSlot>)
      modifies conversation`form
      ensures Now() == Funnel.WithKnownName(old(Now()))
      ensures missing == MissingAmong(conversation.form, RequiredSlots(conversation.leadType))
    {
      if conversation.form.pendingName.None? && user.name.Some? {
        conversation.form := conversation.form.(pendingName := user.name);
      }
      assert conversation.form
          == old(conversation.form).(pendingName := Funnel.OrElse(old(conversation.form).pendingName, user.name));
      missing := [];
      var slots := RequiredSlots(conversation.leadType);
      for i := 0 to |slots|
        invariant Now() == Funnel.WithKnownName(old(Now()))
        invariant missing == MissingAmong(conversation.form, slots[..i])
      {
        assert slots[..i + 1] == slots[..i] + [slots[i]];
        MissingAmongOneMore(conversation.form, slots[..i], slots[i]);
        if !Funnel.Filled(conversation.form, slots[i]) {
          missing := missing + [slots[i]];
        }
      }
      assert slots[..|slots|] == slots;
    }

    method NextQuestion() returns (question: Option<Reply>)
      modifies conversation`form, conversation`currentState
      ensures (Now(), question) == Funnel.NextQuestion(old(Now()))
    {
      if conversation.form.rescheduleLead.Some? {
        return None;
      }
      var missing := MissingSlots();
      MissingDetailIsFirst(conversation.Value());
      for i := 0 to |missing|
        invariant forall k :: 0 <= k < i ==> missing[k].TimeSlot?
      {
        if missing[i].TimeSlot? {
          continue;
        }
        conversation.currentState :=
          if missing[i].NameSlot? then AskName else if missing[i].EmailSlot? then AskEmail else AskEnrolledCourse;
        return Some(Ask(missing[i]));
      }
      if conversation.form.contactPhone.None? && !conversation.form.askedPhone {
        conversation.form := conversation.form.(askedPhone := true);
        conversation.currentState := AskPhone;
        return Some(PhoneCheck);
      }
      if conversation.form.pendingTime.None? {
        conversation.currentState := AskCallbackTime;
        return Some(Ask(TimeSlot));
      }
      question := None;
    }

    // ----------------------------------------------------------------
    // Writing and moving leads
    // ----------------------------------------------------------------

    method ApplyReschedule(id: nat, at: Moment) returns (moved: Option<TurnResult>)
      requires conversation.form.rescheduleLead == Some(id)
      modifies conversation, leads
      ensures if Funnel.OwnLead(old(Now()), id)
              then moved.Some? && (Now(), moved.value) == Funnel.Reschedule(old(Now()), id, at)
              else moved.None? && Now() == Funnel.WithForm(old(Now()), old(conversation.form).(rescheduleLead := None))
    {
      if !(1 <= id <= |leads.rows|) || leads.rows[id - 1].phone != user.phone {
        conversation.form := conversation.form.(rescheduleLead := None);
        return None;
      }
      leads.Reschedule(id, at, conversation.form.pendingTimeRaw);
      conversation.form := conversation.form.(rescheduleLead := None);
      conversation.currentState := End;
      moved := Some(TurnResult([Moved(at)], Some(id), true));
    }

    method CreateLead(remarks: Option<string>) returns (result: TurnResult)
      modifies conversation, leads
      ensures (Now(), result) == Funnel.CreateLead(old(Now()), remarks)
    {
      var kind := conversation.leadType.GetOr(PreSales);
      var name := if conversation.form.pendingName.Some? then conversation.form.pendingName
                  else if user.name.Some? then user.name else user.profileName;
      var preferredTime := conversation.form.pendingTime;
      var rescheduling := conversation.form.rescheduleLead;
      if rescheduling.Some? && preferredTime.Some? {
        var moved := ApplyReschedule(rescheduling.value, preferredTime.value);
        if moved.Some? {
          return moved.value;
        }
      }
      var form := conversation.form;
      var id := leads.Create(
        Lead(user.phone, kind, NewLead, name, preferredTime, form.pendingTimeRaw, remarks,
             form.contactPhone.GetOr(user.phone), form.email, form.enrolledCourse, conversation.chat.profile,
             conversation.chat.supportTopic, Pending));
      result := TurnResult([Booked(preferredTime)], Some(id), true);
      conversation.currentState := LeadCreated;
      conversation.form := conversation.form.(pendingTime := None, pendingTimeRaw := None, nameAttempts := 0);
      conversation.chat := conversation.chat.(returnState := None);
    }

    method FinishCapture() returns (result: TurnResult)
      modifies conversation, leads
      ensures (Now(), result) == Funnel.FinishCapture(old(Now()))
    {
      var followUp := NextQuestion();
      if followUp.Some? {
        return Say([followUp.value]);
      }
      result := CreateLead(None);
    }

    method StartCallbackCapture(leadType: LeadType) returns (result: TurnResult)
      modifies conversation
      ensures (Now(), result) == Funnel.StartCapture(old(Now()), leadType)
    {
      conversation.leadType := Some(leadType);
      var knownName := user.name;
      if knownName.Some? {
        conversation.form := conversation.form.(pendingName := knownName);
      }
      assert conversation.form == old(conversation.form).(pendingName := conversation.form.pendingName);
      var staged := NextQuestion();
      if staged.Some? {
        return Say([staged.value]);
      }
      if knownName.Some? {
        conversation.currentState := AskCallbackTime;
        result := Say([Ask(TimeSlot)]);
      } else {
        conversation.currentState := AskName;
        result := Say([Ask(NameSlot)]);
      }
    }

    method AskForTheNewTime(id: nat) returns (result: TurnResult)
      requires 1 <= id <= |leads.rows|
      modifies conversation
      ensures (Now(), result) == Funnel.AskForNewTime(old(Now()), id)
    {
      conversation.form := conversation.form.(rescheduleLead := Some(id));
      conversation.form := conversation.form.(pendingDate := None);
      conversation.leadType := Some(leads.rows[id - 1].kind);
      conversation.currentState := AskCallbackTime;
      result := Say([Ask(TimeSlot)]);
    }

    method StartReschedule() returns (result: TurnResult)
      modifies conversation
      ensures (Now(), result) == Funnel.StartReschedule(old(Now()), inbound.now)
    {
      var lead := leads.FindUpcomingCallback(user.phone, inbound.now);
      if lead.None? {
        var capture := StartCallbackCapture(conversation.leadType.GetOr(PreSales));
        return capture.(replies := [Note] + capture.replies);
      }
      result := AskForTheNewTime(lead.value);
    }

    method StartOrOfferMove() returns (result: TurnResult)
      modifies conversation
      ensures (Now(), result) == Funnel.StartOrOfferMove(old(Now()), inbound.now)
    {
      var existing := leads.FindUpcomingCallback(user.phone, inbound.now);
      if existing.None? {
        result := StartCallbackCapture(conversation.leadType.GetOr(PreSales));
        return;
      }
      conversation.currentState := ConfirmReschedule;
      result := Say([MoveOrAnother(existing)]);
    }

    // ----------------------------------------------------------------
    // Capture handlers
    // ----------------------------------------------------------------

    method HandleAskName() returns (result: TurnResult)
      modifies conversation, user, leads
      ensures (Now(), result) == Funnel.AskedName(old(Now()), inbound)
    {
      AbsorbSlots(inbound.said.found);
      var name := if conversation.form.pendingName.Some? then conversation.form.pendingName else inbound.said.wholeName;
      var attempts := conversation.form.nameAttempts;
      if name.None? {
        if attempts < Funnel.MAX_NAME_ATTEMPTS {
          conversation.form := conversation.form.(nameAttempts := attempts + 1);
          return Say([AskAgain(NameSlot)]);
        }
        name := Some(user.profileName.GetOr("there"));
      }
      user.name := name;
      conversation.form := conversation.form.(pendingName := name);
      conversation.form := conversation.form.(nameAttempts := 0);
      result := FinishCapture();
    }

    /** Take what the reply holds and count the attempt; true when the question has to be given up. */
    method TryDetail(expecting: FormSlot) returns (givesUp: bool)
      modifies conversation`form
      ensures conversation.form == Funnel.TriedForm(old(conversation.form), inbound, expecting)
      ensures givesUp == Funnel.GivesUp(conversation.form, inbound, expecting)
    {
      AbsorbSlots(inbound.said.found);
      if Funnel.Filled(conversation.form, expecting) {
        conversation.form := Funnel.WithAttempts(conversation.form, expecting, 0);
        return false;
      }
      var attempts := Funnel.Attempts(conversation.form, expecting) + 1;
      conversation.form := Funnel.WithAttempts(conversation.form, expecting, attempts);
      var declined :=
        inbound.tap.None? && TimeText.Strip(inbound.text) != "" && (inbound.said.skip || inbound.said.declines);
      givesUp := declined || attempts > Funnel.MAX_SLOT_ATTEMPTS;
    }

    method CaptureTurn(expecting: FormSlot) returns (result: TurnResult)
      modifies conversation, leads
      ensures (Now(), result) == Funnel.AskedDetail(old(Now()), inbound, expecting)
    {
      var givesUp := TryDetail(expecting);
      assert Now() == Funnel.Tried(old(Now()), inbound, expecting);
      if givesUp {
        var missing := MissingSlots();
        conversation.currentState := SupportQuery;
        return Say([DetailsRequired]);
      }
      result := FinishCapture();
    }

    method ConfirmPhone() returns (consumed: bool)
      modifies conversation`form
      ensures consumed == (inbound.tap == Some(PhoneConfirm) || (inbound.tap.None? && inbound.said.affirmative)
                           || inbound.tap == Some(PhoneOther)
                           || (old(conversation.form).contactPhone.None? && conversation.form.contactPhone.Some?))
      ensures conversation.form ==
        if inbound.tap == Some(PhoneConfirm) || (inbound.tap.None? && inbound.said.affirmative)
        then old(conversation.form).(contactPhone := Some(user.phone))
        else if inbound.tap == Some(PhoneOther) then old(conversation.form)
        else Funnel.Absorb(old(conversation.form), inbound.text, inbound.said.found)
    {
      if inbound.tap == Some(PhoneConfirm) || (inbound.tap.None? && inbound.said.affirmative) {
        conversation.form := conversation.form.(contactPhone := Some(user.phone));
        return true;
      }
      if inbound.tap == Some(PhoneOther) {
        return true;
      }
      var before := conversation.form.contactPhone;
      AbsorbSlots(inbound.said.found);
      consumed := before.None? && conversation.form.contactPhone.Some?;
    }

    method HandleAskPhone() returns (result: TurnResult)
      modifies conversation, user, leads
      ensures (Now(), result) == Funnel.AskedPhone(deps, old(Now()), inbound)
    {
      var consumed := ConfirmPhone();
      if consumed {
        result := FinishCapture();
        return;
      }
      conversation.form := conversation.form.(contactPhone := Some(user.phone));
      if conversation.form.pendingTime.None? {
        conversation.currentState := AskCallbackTime;
        result := HandleAskCallbackTime();
        return;
      }
      result := FinishCapture();
    }

    method CaptureVolunteeredName()
      modifies conversation`form, user`name
      ensures Now() == Funnel.WithAnnouncedName(old(Now()), inbound)
    {
      if inbound.said.announcedName.Some? {
        user.name := inbound.said.announcedName;
        conversation.form := conversation.form.(pendingName := inbound.said.announcedName);
      }
    }

    method HandleAskCallbackTime() returns (result: TurnResult)
      modifies conversation, user
      ensures (Now(), result) == Funnel.AskedTime(deps, old(Now()), inbound)
    {
      CaptureVolunteeredName();
      var parsed := deps.validator.Parse(inbound.text, inbound.now, conversation.form.pendingDate);
      if parsed.slot.None? {
        if parsed.parsedDate.Some? {
          conversation.form := conversation.form.(pendingDate := parsed.parsedDate);
        }
        assert conversation.form
            == Funnel.WithAnnouncedName(old(Now()), inbound).conv.form.(pendingDate := conversation.form.pendingDate);
        return Say([TimeRejected(parsed.reason, parsed.suggestions)]);
      }
      conversation.form := conversation.form.(pendingDate := None);
      conversation.form := conversation.form.(
        pendingTime := Some(parsed.slot.value.at), pendingTimeRaw := Some(Funnel.TakeRaw(inbound.text)));
      AbsorbSlots(inbound.said.foundLater);
      var followUp := NextQuestion();
      if followUp.Some? {
        return Say([followUp.value]);
      }
      conversation.currentState := AskRemarks;
      result := Say([RemarksQuestion(parsed.slot.value.at)]);
    }

    method HandleAskRemarks() returns (result: TurnResult)
      modifies conversation, leads
      ensures (Now(), result) == Funnel.AskedRemarks(old(Now()), inbound)
    {
      result := CreateLead(if inbound.said.skip then None else Some(Funnel.TakeRemarks(inbound.text)));
    }

    method HandleConfirmReschedule() returns (result: TurnResult)
      modifies conversation
      ensures (Now(), result) == Funnel.AskedMove(old(Now()), inbound)
    {
      if inbound.tap == Some(RescheduleNew) || inbound.said.negative {
        conversation.form := conversation.form.(rescheduleLead := None);
        conversation.currentState := AskCallbackTime;
        return Say([Ask(TimeSlot)]);
      }
      if inbound.tap == Some(RescheduleMove) || inbound.said.affirmative {
        var found := leads.FindUpcomingCallback(user.phone, inbound.now);
        if found.Some? {
          result := AskForTheNewTime(found.value);
          return;
        }
      }
      var lead := leads.FindUpcomingCallback(user.phone, inbound.now);
      result := Say([MoveOrAnother(lead)]);
    }

    method HandleAskCallback() returns (result: TurnResult)
      modifies conversation
      ensures (Now(), result) == Funnel.AskedCallback(old(Now()), inbound)
    {
      var accepted := inbound.tap == Some(ConfirmYes)
                      || (inbound.tap.None? && (inbound.said.affirmative || inbound.said.wantsHuman));
      var declined := inbound.tap == Some(ConfirmNo) || (inbound.tap.None? && inbound.said.negative);
      if accepted {
        result := StartCallbackCapture(conversation.leadType.GetOr(PreSales));
        return;
      }
      conversation.currentState := ResumeState();
      if declined {
        return Say([Note]);
      }
      BumpQnaCount();
      result := Say([Answer]);
    }

    function ResumeState(): State
      reads conversation
      ensures ResumeState() == Funnel.ResumeState(conversation.Value())
    {
      if conversation.chat.returnState.Some? then conversation.chat.returnState.value
      else if conversation.leadType == Some(PostSales) then SupportQuery
      else if conversation.currentCourse.Some? then CourseQna
      else GeneralQna
    }

    method BumpQnaCount()
      modifies conversation`chat
      ensures Now() == Funnel.Counted(old(Now()))
    {
      conversation.chat := conversation.chat.(qnaCount := conversation.chat.qnaCount + 1);
    }

    // ----------------------------------------------------------------
    // Questions, nudges and the discount
    // ----------------------------------------------------------------

    function ShouldNudgeCallback(): bool
      reads conversation
    {
      if conversation.chat.nudged then false else deps.nudgeThreshold <= conversation.chat.qnaCount
    }

    method MaybeOffer() returns (offered: bool)
      modifies conversation`chat
      ensures offered == Funnel.OfferDue(deps, old(conversation.Value()), inbound)
      ensures Now() == if offered then Funnel.Offered(old(Now())) else old(Now())
    {
      if deps.offerCourse.None? || conversation.chat.offerSent || !Funnel.OfferRelevant(deps, conversation.Value()) {
        return false;
      }
      if !Selling(conversation.currentState) {
        return false;
      }
      var closing := inbound.said.wantsToBuy || inbound.said.asksPrice;
      if !closing && conversation.chat.qnaCount < Funnel.OFFER_AFTER_EXCHANGES {
        return false;
      }
      if deps.upsell.None? {
        return false;
      }
      conversation.chat := conversation.chat.(offerSent := true);
      conversation.chat := conversation.chat.(nudged := true);
      offered := true;
    }

    method OfferCallback(resume: State)
      modifies conversation
      ensures Now() == Funnel.OfferCallback(old(Now()), resume)
    {
      conversation.chat := conversation.chat.(nudged := true);
      conversation.chat := conversation.chat.(returnState := Some(resume));
      conversation.currentState := AskCallback;
    }

    method AnswerWithOptionalNudge() returns (result: TurnResult)
      modifies conversation
      ensures (Now(), result) == Funnel.AnswerAndNudge(deps, old(Now()), inbound)
    {
      var resume := conversation.currentState;
      result := Say([Answer]);
      BumpQnaCount();
      var closing := MaybeOffer();
      if closing {
        return Say([Answer, DiscountOffer]);
      }
      if ShouldNudgeCallback() {
        var booked := leads.FindUpcomingCallback(user.phone, inbound.now);
        if booked.None? {
          OfferCallback(resume);
          result := Say([Answer, CallbackOffer]);
        }
      }
    }

    method RememberProfile()
      modifies conversation`chat
      ensures Now() == Funnel.WithProfile(old(Now()), inbound)
    {
      if TimeText.Strip(inbound.text) != "" && inbound.said.profile.Some? {
        var existing := conversation.chat.profile.GetOr("");
        var fragment := inbound.said.profile.value;
        if !TimeText.Contains(TimeText.Lower(existing), TimeText.Lower(fragment)) {
          var combined := if existing == "" then fragment else existing + "; " + fragment;
          conversation.chat := conversation.chat.(
            profile := Some(if |combined| <= 160 then combined else combined[..160]));
        }
      }
      assert conversation.chat == old(conversation.chat).(profile := conversation.chat.profile);
    }

    method StartDiscovery() returns (result: TurnResult)
      modifies conversation
      ensures (Now(), result) == Funnel.StartDiscovery(old(Now()))
    {
      conversation.currentState := Discovery;
      conversation.leadType := Some(PreSales);
      conversation.currentCourse := None;
      result := Say([Note]);
    }

    method HandleDiscovery() returns (result: TurnResult)
      modifies conversation
      ensures (Now(), result) == Funnel.InDiscovery(deps, old(Now()), inbound)
    {
      RememberProfile();
      if inbound.said.course.Some? {
        conversation.currentCourse := Some(inbound.said.course.value.slug);
      } else if deps.upsell.Some? && conversation.currentCourse.None? {
        conversation.currentCourse := Some(deps.upsell.value.slug);
      }
      BumpQnaCount();
      var closing := MaybeOffer();
      if closing {
        return Say([Answer, DiscountOffer]);
      }
      if ShouldNudgeCallback() {
        OfferCallback(Discovery);
        return Say([Answer, CallbackOffer]);
      }
      result := Say([Answer]);
    }

    // ----------------------------------------------------------------
    // Menus, courses and support
    // ----------------------------------------------------------------

    method AnswerAtMenu() returns (result: TurnResult)
      modifies conversation
      ensures (Now(), result) == Funnel.AnswerAtMenu(old(Now()))
    {
      conversation.currentState := GeneralQna;
      conversation.leadType := Some(conversation.leadType.GetOr(PreSales));
      BumpQnaCount();
      result := Say([Answer]);
    }

    method SelectCourse(course: Course) returns (result: TurnResult)
      modifies conversation
      ensures (Now(), result) == Funnel.SelectCourse(old(Now()), course)
    {
      conversation.currentState := CourseQna;
      conversation.currentCourse := Some(course.slug);
      conversation.leadType := Some(PreSales);
      result := Say([Note]);
    }

    method HandleMainMenu() returns (result: TurnResult)
      modifies conversation
      ensures (Now(), result) == Funnel.AtMainMenu(old(Now()), inbound)
    {
      var choice := Funnel.ChosenFromMenu(inbound);
      if choice == Some(ChooseCourses) {
        conversation.currentState := CourseSelection;
        conversation.leadType := Some(PreSales);
        return Say([Menu]);
      }
      if choice == Some(ChooseEnrolled) {
        conversation.currentState := SupportMenu;
        conversation.leadType := Some(PostSales);
        return Say([Note, Menu]);
      }
      if choice == Some(ChooseCounselor) {
        result := StartCallbackCapture(PreSales);
        return;
      }
      if inbound.said.course.Some? {
        result := SelectCourse(inbound.said.course.value);
        return;
      }
      if inbound.said.greeting {
        return Say([Menu]);
      }
      result := AnswerAtMenu();
    }

    method HandleStart() returns (result: TurnResult)
      modifies conversation
      ensures (Now(), result) == Funnel.AtStart(old(Now()), inbound)
    {
      if inbound.said.closing {
        conversation.currentState := End;
        return Say([Note]);
      }
      conversation.currentState := MainMenu;
      if inbound.said.greeting || inbound.text == "" {
        return Say([Menu]);
      }
      result := HandleMainMenu();
    }

    /** The defensive handlers of a finished conversation restart it. */
    method HandleFinished() returns (result: TurnResult)
      modifies conversation
      ensures (Now(), result) == Funnel.AtStart(Funnel.InState(old(Now()), Start), inbound)
    {
      conversation.currentState := Start;
      result := HandleStart();
    }

    method HandleCourseGroup() returns (result: TurnResult)
      modifies conversation
      ensures (Now(), result) == Funnel.AtCourseGroup(old(Now()), inbound)
    {
      if inbound.tap == Some(CourseUnsure) || inbound.said.undecided {
        result := StartDiscovery();
        return;
      }
      var grouped := inbound.said.group;
      if inbound.tap == Some(GroupCohort) || inbound.tap == Some(GroupAdvance) {
        grouped := true;
      } else if inbound.tap == Some(GroupUnknown) {
        grouped := false;
      }
      if grouped {
        conversation.currentState := CourseSelection;
        conversation.leadType := Some(PreSales);
        return Say([Menu]);
      }
      if inbound.said.course.Some? {
        result := SelectCourse(inbound.said.course.value);
        return;
      }
      if inbound.said.atLeastThreeWords {
        result := AnswerAtMenu();
        return;
      }
      result := Say([Note, Menu]);
    }

    method HandleCourseSelection() returns (result: TurnResult)
      modifies conversation
      ensures (Now(), result) == Funnel.AtCourseSelection(deps, old(Now()), inbound)
    {
      if inbound.tap == Some(CourseUnsure) || inbound.said.undecided {
        result := StartDiscovery();
        return;
      }
      if inbound.tap == Some(CourseOthers) {
        return Say([Menu]);
      }
      var course := Funnel.TappedCourse(deps, inbound);
      if course.None? {
        course := inbound.said.course;
      }
      if course.None? {
        course := inbound.said.listedCourse;
      }
      if course.Some? {
        result := SelectCourse(course.value);
        return;
      }
      if inbound.said.atLeastThreeWords {
        result := AnswerAtMenu();
        return;
      }
      conversation.currentState := CourseGroup;
      result := Say([Note, Menu]);
    }

    method HandleCourseQna() returns (result: TurnResult)
      modifies conversation
      ensures (Now(), result) == Funnel.InCourseQna(deps, old(Now()), inbound)
    {
      if inbound.said.course.Some? && Some(inbound.said.course.value.slug) != conversation.currentCourse {
        conversation.currentCourse := Some(inbound.said.course.value.slug);
      }
      RememberProfile();
      result := AnswerWithOptionalNudge();
    }

    method HandleGeneralQna() returns (result: TurnResult)
      modifies conversation
      ensures (Now(), result) == Funnel.InGeneralQna(deps, old(Now()), inbound)
    {
      if inbound.said.course.Some? {
        conversation.currentCourse := Some(inbound.said.course.value.slug);
        conversation.currentState := CourseQna;
      }
      result := AnswerWithOptionalNudge();
    }

    method HandleEnrollmentType() returns (result: TurnResult)
      modifies conversation
      ensures (Now(), result) == Funnel.AtEnrollmentType(old(Now()), inbound)
    {
      var paid := inbound.tap == Some(EnrolledPaid) || inbound.said.paid;
      var free := inbound.tap == Some(EnrolledFree) || inbound.said.free;
      if paid {
        conversation.currentState := SupportMenu;
        conversation.leadType := Some(PostSales);
        return Say([Menu]);
      }
      if free {
        result := StartDiscovery();
        return;
      }
      if inbound.said.course.Some? {
        var course := inbound.said.course.value;
        conversation.form := conversation.form.(enrolledCourse := Some(course.name));
        if course.free {
          result := StartDiscovery();
          return;
        }
        conversation.currentState := SupportMenu;
        conversation.leadType := Some(PostSales);
        return Say([Menu]);
      }
      result := Say([Note, Menu]);
    }

    method HandleSupportMenu() returns (result: TurnResult)
      modifies conversation
      ensures (Now(), result) == Funnel.AtSupportMenu(old(Now()), inbound)
    {
      conversation.leadType := Some(PostSales);
      var topic := Funnel.ChosenTopic(inbound);
      if topic.None? {
        if inbound.said.atLeastThreeWords {
          conversation.currentState := SupportQuery;
          result := HandleSupportQuery();
          return;
        }
        return Say([Note, Menu]);
      }
      conversation.chat := conversation.chat.(supportTopic := topic);
      conversation.currentState := SupportQuery;
      result := Say([Note]);
    }

    method HandleSupportQuery() returns (result: TurnResult)
      modifies conversation
      ensures (Now(), result) == Funnel.InSupportQuery(old(Now()), inbound)
    {
      if inbound.said.wantsHuman {
        result := StartCallbackCapture(PostSales);
        return;
      }
      BumpQnaCount();
      conversation.currentState := SupportCallback;
      result := Say([Answer, HelpCheck]);
    }

    method HandleSupportCallback() returns (result: TurnResult)
      modifies conversation
      ensures (Now(), result) == Funnel.InSupportCallback(old(Now()), inbound)
    {
      var resolved := inbound.tap == Some(ConfirmYes) || (inbound.tap.None? && inbound.said.affirmative);
      var escalate := inbound.tap == Some(ConfirmNo)
                      || (inbound.tap.None? && (inbound.said.negative || inbound.said.wantsHuman));
      if escalate {
        result := StartCallbackCapture(PostSales);
        return;
      }
      conversation.currentState := SupportQuery;
      if resolved {
        return Say([Note]);
      }
      result := HandleSupportQuery();
    }

    // ----------------------------------------------------------------
    // The machine
    // ----------------------------------------------------------------

    method HandleMedia() returns (result: TurnResult)
      modifies user
      ensures (Now(), result) == Funnel.OnMedia(old(Now()), inbound)
    {
      if inbound.image && conversation.chat.payLinkSent {
        user.paymentProof := true;
      }
      result := Say([Note]);
    }

    method HandleOfferReply() returns (result: Option<TurnResult>)
      modifies conversation
      ensures match Funnel.OnOfferTap(old(Now()), inbound)
              case Some(o) => result.Some? && (Now(), result.value) == o
              case None => result.None? && Now() == old(Now())
    {
      if inbound.tap == Some(OfferPayNow) {
        conversation.chat := conversation.chat.(payLinkSent := true);
        return Some(Say([Note]));
      }
      if inbound.tap == Some(OfferDone) {
        return Some(Say([Note]));
      }
      if inbound.tap == Some(OfferQuestion) {
        conversation.currentState := if conversation.currentCourse.Some? then CourseQna else Discovery;
        return Some(Say([Note]));
      }
      result := None;
    }

    method ResetFlow()
      modifies conversation
      ensures Now() == old(Now()).(conv := Funnel.ResetFlow(old(conversation.Value())))
    {
      conversation.currentCourse := None;
      conversation.chat := conversation.chat.(qnaCount := 0, nudged := false);
    }

    method DefaultLeadType()
      modifies conversation`leadType
      ensures Now() == old(Now()).(conv := Funnel.OrPreSales(old(conversation.Value())))
    {
      if conversation.leadType.None? {
        conversation.leadType := Some(PreSales);
      }
    }

    method TappedNavigation() returns (result: Option<TurnResult>)
      modifies conversation
      ensures match Funnel.OnNavigation(deps, old(Now()), inbound)
              case Some(o) => result.Some? && (Now(), result.value) == o
              case None => result.None? && Now() == old(Now())
    {
      if inbound.tap.None? || Capturing(conversation.currentState) {
        return None;
      }
      var r: TurnResult;
      match inbound.tap.value {
        case MenuCourses =>
          ResetFlow();
          conversation.currentState := CourseGroup;
          DefaultLeadType();
          return Some(Say([Menu]));
        case GroupCohort =>
          conversation.currentState := CourseSelection;
          DefaultLeadType();
          return Some(Say([Menu]));
        case GroupAdvance =>
          conversation.currentState := CourseSelection;
          DefaultLeadType();
          return Some(Say([Menu]));
        case CourseUnsure =>
          r := StartDiscovery();
          return Some(r);
        case MenuEnrolled =>
          ResetFlow();
          conversation.currentState := EnrollmentType;
          return Some(Say([Menu]));
        case EnrolledPaid =>
          conversation.currentState := SupportMenu;
          conversation.leadType := Some(PostSales);
          return Some(Say([Menu]));
        case EnrolledFree =>
          r := StartDiscovery();
          return Some(r);
        case MenuCounselor =>
          r := StartCallbackCapture(conversation.leadType.GetOr(PreSales));
          return Some(r);
        case CourseOthers =>
          conversation.currentState := CourseSelection;
          return Some(Say([Menu]));
        case CourseRow(slug) =>
          if slug in deps.courses {
            conversation.currentState := CourseQna;
            conversation.currentCourse := Some(deps.courses[slug].slug);
            DefaultLeadType();
            return Some(Say([Note]));
          }
        case _ =>
      }
      result := None;
    }

    method GlobalCommand() returns (result: Option<TurnResult>)
      requires inbound.tap.None?
      modifies conversation
      ensures match Funnel.OnCommand(deps, old(Now()), inbound)
              case Some(o) => result.Some? && (Now(), result.value) == o
              case None => result.None? && Now() == old(Now())
    {
      var state := conversation.currentState;
      var inCapture := Capturing(state);
      var r: TurnResult;
      if inbound.said.wantsMenu && !inCapture {
        ResetFlow();
        conversation.currentState := MainMenu;
        return Some(Say([Menu]));
      }
      if inbound.said.greeting && !inCapture {
        ResetFlow();
        conversation.currentState := MainMenu;
        return Some(Say([Menu]));
      }
      var asksForCatalogue := inbound.said.wantsCourses
                              || (conversation.currentCourse.None? && inbound.said.wantsTeaching);
      if asksForCatalogue && !inCapture {
        conversation.currentState := CourseGroup;
        DefaultLeadType();
        return Some(Say([Menu]));
      }
      if inbound.said.wantsReschedule && !inCapture {
        r := StartReschedule();
        return Some(r);
      }
      if inbound.said.wantsHuman && !inCapture
         && !state.AskCallback? && !state.SupportCallback? && !state.ConfirmReschedule?
      {
        r := StartOrOfferMove();
        return Some(r);
      }
      result := None;
    }

    method DispatchCapture() returns (result: TurnResult)
      requires Capturing(conversation.currentState)
      modifies conversation, user, leads
      ensures (Now(), result) == Funnel.InCapture(deps, old(Now()), inbound)
    {
      match conversation.currentState {
        case AskName => result := HandleAskName();
        case AskEmail => result := CaptureTurn(EmailSlot);
        case AskEnrolledCourse => result := CaptureTurn(CourseSlot);
        case AskPhone => result := HandleAskPhone();
        case AskCallbackTime => result := HandleAskCallbackTime();
        case AskRemarks => result := HandleAskRemarks();
      }
    }

    method Dispatch() returns (result: TurnResult)
      modifies conversation, user, leads
      ensures (Now(), result) == Funnel.ByState(deps, old(Now()), inbound)
    {
      if Capturing(conversation.currentState) {
        result := DispatchCapture();
        return;
      }
      match conversation.currentState {
        case Start => result := HandleStart();
        case MainMenu => result := HandleMainMenu();
        case CourseGroup => result := HandleCourseGroup();
        case CourseSelection => result := HandleCourseSelection();
        case CourseQna => result := HandleCourseQna();
        case GeneralQna => result := HandleGeneralQna();
        case Discovery => result := HandleDiscovery();
        case EnrollmentType => result := HandleEnrollmentType();
        case SupportMenu => result := HandleSupportMenu();
        case SupportQuery => result := HandleSupportQuery();
        case SupportCallback => result := HandleSupportCallback();
        case AskCallback => result := HandleAskCallback();
        case ConfirmReschedule => result := HandleConfirmReschedule();
        case LeadCreated => result := HandleFinished();
        case End => result := HandleFinished();
      }
    }

    /** One inbound message: media, discount card, navigation, commands, then the state's handler.
    A sound conversation stays sound, and leads are written by the rule. */
    method Handle() returns (result: TurnResult)
      modifies conversation, user, leads
      ensures (Now(), result) == Funnel.Handle(deps, old(Now()), inbound)
      ensures old(FunnelLaws.Sound(Now())) ==> FunnelLaws.Keeps(deps, old(Now()), inbound, (Now(), result))
    {
      ghost var before := Now();
      result := RunHandlers();
      if FunnelLaws.Sound(before) {
        FunnelLaws.TurnKeeps(deps, before, inbound);
      }
    }

    method RunHandlers() returns (result: TurnResult)
      modifies conversation, user, leads
      ensures (Now(), result) == Funnel.Handle(deps, old(Now()), inbound)
    {
      if inbound.unsupported {
        result := HandleMedia();
        return;
      }
      var offer := HandleOfferReply();
      if offer.Some? {
        return offer.value;
      }
      var navigation := TappedNavigation();
      if navigation.Some? {
        return navigation.value;
      }
      if inbound.tap.None? {
        var override := GlobalCommand();
        if override.Some? {
          return override.value;
        }
      }
      result := Dispatch();
    }
  }
}
