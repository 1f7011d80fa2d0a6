/** The map of the conversation: which state a turn can lead to from which, and what a time reply
keeps of a name given in it. */
module FunnelMap {
  import opened Wrappers
  import opened Domain
  import opened Funnel
  import opened FunnelLaws
  import opened CaptureLaws

  /** Where a command or a tap can lead from anywhere outside a form: the menus, the courses, and
  the first question of a booking. */
  predicate Hub(s: State) {
    s.MainMenu? || s.CourseGroup? || s.CourseSelection? || s.CourseQna? || s.Discovery? || s.EnrollmentType?
    || s.SupportMenu? || s.ConfirmReschedule? || AsksDetail(s) || s.AskCallbackTime?
  }

  /** The conversation is about to begin, or over. */
  predicate AtRest(s: State) {
    s.Start? || s.LeadCreated? || s.End?
  }

  /** The edges of the map that are no command's. */
  predicate Leads(before: State, after: State) {
    match after
    case Start => false
    case GeneralQna =>
      AtRest(before) || before.MainMenu? || before.CourseGroup? || before.CourseSelection? || before.AskCallback?
    case SupportQuery =>
      before.SupportMenu? || before.SupportCallback? || before.AskCallback? || before.AskEmail?
      || before.AskEnrolledCourse?
    case SupportCallback => before.SupportMenu? || before.SupportQuery?
    case AskCallback => Selling(before)
    case AskRemarks => before.AskCallbackTime? || before.AskPhone?
    case LeadCreated => AsksDetail(before) || before.AskRemarks?
    case End => AtRest(before) || before.AskRemarks?
    case CourseQna => Capturing(before)
    case Discovery => Capturing(before)
    case _ => (AsksDetail(after) || after.AskCallbackTime?) && (AsksDetail(before) || before.AskCallbackTime?)
  }

  predicate MayFollow(before: State, after: State) {
    after == before || (!Capturing(before) && Hub(after)) || Leads(before, after)
  }

  lemma StartCaptureAsks(w: World, leadType: LeadType)
    ensures var s := StartCapture(w, leadType).0.conv.state; AsksDetail(s) || s.AskCallbackTime?
  {
    var typed := w.(conv := w.conv.(leadType := Some(leadType)));
    var named := WithForm(typed, typed.conv.form.(pendingName := OrElse(w.user.name, typed.conv.form.pendingName)));
    QuestionAsks(named);
  }

  lemma QuestionAsks(w: World)
    ensures var (next, question) := NextQuestion(w);
      if question.None? then next.conv.state == w.conv.state
      else AsksDetail(next.conv.state) || next.conv.state.AskCallbackTime?
  {
  }

  lemma CommandLeadsToHub(d: Deps, w: World, m: Inbound)
    requires OnCommand(d, w, m).Some?
    ensures Hub(OnCommand(d, w, m).value.0.conv.state)
  {
    StartCaptureAsks(w, w.conv.leadType.GetOr(PreSales));
  }

  lemma NavigationLeadsToHub(d: Deps, w: World, m: Inbound)
    requires OnNavigation(d, w, m).Some?
    ensures Hub(OnNavigation(d, w, m).value.0.conv.state)
  {
    StartCaptureAsks(w, w.conv.leadType.GetOr(PreSales));
  }

  lemma MenuLeads(d: Deps, w: World, m: Inbound)
    ensures var s := AtMainMenu(w, m).0.conv.state; s == w.conv.state || Hub(s) || s.GeneralQna?
  {
    StartCaptureAsks(w, PreSales);
  }

  lemma AnswerLeads(d: Deps, w: World, m: Inbound)
    ensures var s := AnswerAndNudge(d, w, m).0.conv.state; s == w.conv.state || s.AskCallback?
  {
  }

  lemma SupportLeads(w: World, m: Inbound)
    ensures var s := InSupportQuery(w, m).0.conv.state; Hub(s) || s.SupportCallback?
  {
    StartCaptureAsks(w, PostSales);
  }

  lemma CourseQnaFollowsTheMap(d: Deps, w: World, m: Inbound)
    requires w.conv.state.CourseQna?
    ensures MayFollow(CourseQna, InCourseQna(d, w, m).0.conv.state)
  {
    var course := if m.said.course.Some? then Some(m.said.course.value.slug) else w.conv.course;
    AnswerLeads(d, WithProfile(w.(conv := w.conv.(course := course)), m), m);
  }

  lemma GeneralQnaFollowsTheMap(d: Deps, w: World, m: Inbound)
    requires w.conv.state.GeneralQna?
    ensures MayFollow(GeneralQna, InGeneralQna(d, w, m).0.conv.state)
  {
    if m.said.course.Some? {
      AnswerLeads(d, w.(conv := w.conv.(state := CourseQna, course := Some(m.said.course.value.slug))), m);
    } else {
      AnswerLeads(d, w, m);
    }
  }

  lemma SupportCallbackFollowsTheMap(w: World, m: Inbound)
    requires w.conv.state.SupportCallback?
    ensures MayFollow(SupportCallback, InSupportCallback(w, m).0.conv.state)
  {
    SupportLeads(InState(w, SupportQuery), m);
    StartCaptureAsks(w, PostSales);
  }

  lemma DiscoveryFollowsTheMap(d: Deps, w: World, m: Inbound)
    requires w.conv.state.Discovery?
    ensures MayFollow(Discovery, InDiscovery(d, w, m).0.conv.state)
  {
  }

  lemma SellingFollowsTheMap(d: Deps, w: World, m: Inbound)
    requires Selling(w.conv.state)
    ensures MayFollow(w.conv.state, ByState(d, w, m).0.conv.state)
  {
    match w.conv.state
    case Discovery => DiscoveryFollowsTheMap(d, w, m);
    case CourseQna => CourseQnaFollowsTheMap(d, w, m);
    case GeneralQna => GeneralQnaFollowsTheMap(d, w, m);
  }

  lemma SupportFollowsTheMap(d: Deps, w: World, m: Inbound)
    requires w.conv.state.SupportQuery? || w.conv.state.SupportCallback?
    ensures MayFollow(w.conv.state, ByState(d, w, m).0.conv.state)
  {
    if w.conv.state.SupportQuery? {
      SupportLeads(w, m);
    } else {
      SupportCallbackFollowsTheMap(w, m);
    }
  }

  lemma RestFollowsTheMap(d: Deps, w: World, m: Inbound)
    requires AtRest(w.conv.state)
    ensures var s := AtStart(InState(w, Start), m).0.conv.state; Hub(s) || s.GeneralQna? || s.End?
  {
    MenuLeads(d, InState(InState(w, Start), MainMenu), m);
  }

  lemma CoursesFollowTheMap(d: Deps, w: World, m: Inbound)
    requires w.conv.state.CourseGroup? || w.conv.state.CourseSelection?
    ensures MayFollow(w.conv.state, ByState(d, w, m).0.conv.state)
  {
  }

  lemma CallbackOfferFollowsTheMap(d: Deps, w: World, m: Inbound)
    requires Bounded(w.conv) && w.conv.state.AskCallback?
    ensures MayFollow(AskCallback, AskedCallback(w, m).0.conv.state)
  {
    StartCaptureAsks(w, w.conv.leadType.GetOr(PreSales));
  }

  lemma MoveOfferFollowsTheMap(w: World, m: Inbound)
    requires w.conv.state.ConfirmReschedule?
    ensures var s := AskedMove(w, m).0.conv.state; s.ConfirmReschedule? || s.AskCallbackTime?
  {
  }

  lemma SupportMenuFollowsTheMap(w: World, m: Inbound)
    requires w.conv.state.SupportMenu?
    ensures MayFollow(SupportMenu, AtSupportMenu(w, m).0.conv.state)
  {
    SupportLeads(InState(w.(conv := w.conv.(leadType := Some(PostSales))), SupportQuery), m);
  }

  /** Menus, and the two questions outside the form. */
  lemma ChoosingFollowsTheMap(d: Deps, w: World, m: Inbound)
    requires Bounded(w.conv) && !Capturing(w.conv.state) && !Selling(w.conv.state)
    requires !w.conv.state.SupportQuery? && !w.conv.state.SupportCallback?
    ensures MayFollow(w.conv.state, ByState(d, w, m).0.conv.state)
  {
    if AtRest(w.conv.state) {
      RestFollowsTheMap(d, w, m);
    } else if w.conv.state.MainMenu? {
      MenuLeads(d, w, m);
    } else if w.conv.state.CourseGroup? || w.conv.state.CourseSelection? {
      CoursesFollowTheMap(d, w, m);
    } else if w.conv.state.SupportMenu? {
      SupportMenuFollowsTheMap(w, m);
    } else if w.conv.state.AskCallback? {
      CallbackOfferFollowsTheMap(d, w, m);
    } else if w.conv.state.ConfirmReschedule? {
      MoveOfferFollowsTheMap(w, m);
    }
  }

  /** Another question of the form, or its lead. */
  predicate AsksOn(s: State) {
    AsksDetail(s) || s.AskCallbackTime? || s.LeadCreated?
  }

  lemma FinishLeads(x: World)
    requires x.conv.form.rescheduleLead.None?
    ensures AsksOn(FinishCapture(x).0.conv.state)
  {
    FinishCaptureState(x);
  }

  lemma AskedNameMay(w: World, m: Inbound)
    requires w.conv.form.rescheduleLead.None? && w.conv.state.AskName?
    ensures AsksOn(AskedName(w, m).0.conv.state)
  {
    var c := Absorb(w.conv.form, m.text, m.said.found);
    var given := OrElse(c.pendingName, m.said.wholeName);
    var name := given.GetOr(w.user.profileName.GetOr("there"));
    FinishLeads(Named(w, c, name));
  }

  lemma AskedDetailMay(w: World, m: Inbound, slot: FormSlot)
    requires w.conv.form.rescheduleLead.None? && (w.conv.state.AskEmail? || w.conv.state.AskEnrolledCourse?)
    ensures var s := AskedDetail(w, m, slot).0.conv.state; AsksOn(s) || s.SupportQuery?
  {
    FinishLeads(Tried(w, m, slot));
  }

  lemma AskedTimeMay(d: Deps, w: World, m: Inbound)
    requires w.conv.state.AskCallbackTime?
    ensures var s := AskedTime(d, w, m).0.conv.state; AsksDetail(s) || s.AskCallbackTime? || s.AskRemarks?
  {
    AskedTimeState(d, w, m);
  }

  lemma AskedPhoneMay(d: Deps, w: World, m: Inbound)
    requires w.conv.form.rescheduleLead.None? && w.conv.state.AskPhone?
    ensures var s := AskedPhone(d, w, m).0.conv.state; AsksOn(s) || s.AskRemarks?
  {
    var absorbed := Absorb(w.conv.form, m.text, m.said.found);
    var accepted := WithForm(w, absorbed.(contactPhone := Some(w.user.phone)));
    if m.tap == Some(PhoneConfirm) || (m.tap.None? && m.said.affirmative) {
      FinishLeads(WithForm(w, w.conv.form.(contactPhone := Some(w.user.phone))));
    } else if m.tap == Some(PhoneOther) {
      FinishLeads(w);
    } else if w.conv.form.contactPhone.None? && absorbed.contactPhone.Some? {
      FinishLeads(WithForm(w, absorbed));
    } else if accepted.conv.form.pendingTime.Some? {
      FinishLeads(accepted);
    } else {
      AskedTimeState(d, InState(accepted, AskCallbackTime), m);
    }
  }

  lemma EdgesOfTheForm(before: State, after: State)
    ensures AsksDetail(before) && AsksOn(after) ==> MayFollow(before, after)
    ensures before.AskPhone? && after.AskRemarks? ==> MayFollow(before, after)
    ensures (before.AskEmail? || before.AskEnrolledCourse?) && after.SupportQuery? ==> MayFollow(before, after)
    ensures before.AskCallbackTime? && (AsksDetail(after) || after.AskCallbackTime? || after.AskRemarks?) ==>
      MayFollow(before, after)
    ensures before.AskRemarks? && (after.LeadCreated? || after.End?) ==> MayFollow(before, after)
  {
  }

  lemma DetailFollowsTheMap(d: Deps, w: World, m: Inbound)
    requires FormSound(w.conv) && (w.conv.state.AskName? || w.conv.state.AskEmail? || w.conv.state.AskEnrolledCourse?)
    ensures MayFollow(w.conv.state, InCapture(d, w, m).0.conv.state)
  {
    match w.conv.state
    case AskName => AskedNameMay(w, m); EdgesOfTheForm(AskName, InCapture(d, w, m).0.conv.state);
    case AskEmail => AskedDetailMay(w, m, EmailSlot); EdgesOfTheForm(AskEmail, InCapture(d, w, m).0.conv.state);
    case AskEnrolledCourse =>
      AskedDetailMay(w, m, CourseSlot);
      EdgesOfTheForm(AskEnrolledCourse, InCapture(d, w, m).0.conv.state);
  }

  lemma PhoneFollowsTheMap(d: Deps, w: World, m: Inbound)
    requires FormSound(w.conv) && w.conv.state.AskPhone?
    ensures MayFollow(AskPhone, InCapture(d, w, m).0.conv.state)
  {
    AskedPhoneMay(d, w, m);
    EdgesOfTheForm(AskPhone, InCapture(d, w, m).0.conv.state);
  }

  lemma TimeFollowsTheMap(d: Deps, w: World, m: Inbound)
    requires w.conv.state.AskCallbackTime? || w.conv.state.AskRemarks?
    ensures MayFollow(w.conv.state, InCapture(d, w, m).0.conv.state)
  {
    if w.conv.state.AskCallbackTime? {
      AskedTimeMay(d, w, m);
      EdgesOfTheForm(AskCallbackTime, InCapture(d, w, m).0.conv.state);
    } else {
      AskedRemarksState(w, m);
      EdgesOfTheForm(AskRemarks, InCapture(d, w, m).0.conv.state);
    }
  }

  /** The questions of the form. */
  lemma CapturingFollowsTheMap(d: Deps, w: World, m: Inbound)
    requires FormSound(w.conv) && Capturing(w.conv.state)
    ensures MayFollow(w.conv.state, InCapture(d, w, m).0.conv.state)
  {
    if w.conv.state.AskPhone? {
      PhoneFollowsTheMap(d, w, m);
    } else if w.conv.state.AskCallbackTime? || w.conv.state.AskRemarks? {
      TimeFollowsTheMap(d, w, m);
    } else {
      DetailFollowsTheMap(d, w, m);
    }
  }

  /** Every turn, whatever is said or tapped, follows the map: a form's questions are entered only
  at the front, the note comes only after a time, a booking only ends a form, and nothing but a
  goodbye or a moved booking ends a conversation. */
  lemma TurnsFollowTheMap(d: Deps, w: World, m: Inbound)
    requires FormSound(w.conv) && Bounded(w.conv)
    ensures MayFollow(w.conv.state, Handle(d, w, m).0.conv.state)
  {
    if m.unsupported || OnOfferTap(w, m).Some? {
    } else if OnNavigation(d, w, m).Some? {
      NavigationLeadsToHub(d, w, m);
    } else if OnCommand(d, w, m).Some? {
      CommandLeadsToHub(d, w, m);
    } else if Capturing(w.conv.state) {
      CapturingFollowsTheMap(d, w, m);
    } else if Selling(w.conv.state) {
      SellingFollowsTheMap(d, w, m);
    } else if w.conv.state.SupportQuery? || w.conv.state.SupportCallback? {
      SupportFollowsTheMap(d, w, m);
    } else {
      ChoosingFollowsTheMap(d, w, m);
    }
  }

  // ------------------------------------------------------------------
  // Names in time replies
  // ------------------------------------------------------------------

  lemma QuestionKeepsName(w: World)
    requires w.conv.form.pendingName.Some?
    ensures NextQuestion(w).0.conv.form.pendingName == w.conv.form.pendingName && NextQuestion(w).0.user == w.user
  {
  }

  /** A name announced in the reply to the time question becomes the contact's, and the name the
  booking will carry, whether or not the time is taken; without one both stay as they are. */
  lemma AnnouncedNameIsKept(d: Deps, w: World, m: Inbound)
    requires w.conv.state.AskCallbackTime? && Plain(m) && (w.conv.form.pendingName.Some? || m.said.announcedName.Some?)
    ensures var after := Handle(d, w, m).0;
      && after.user == w.user.(name := OrElse(m.said.announcedName, w.user.name))
      && after.conv.form.pendingName == OrElse(m.said.announcedName, w.conv.form.pendingName)
  {
    PlainTurnInCapture(d, w, m);
    AskedTimeKeepsName(d, w, m);
  }

  lemma AskedTimeKeepsName(d: Deps, w: World, m: Inbound)
    requires w.conv.form.pendingName.Some? || m.said.announcedName.Some?
    ensures var after := AskedTime(d, w, m).0;
      && after.user == w.user.(name := OrElse(m.said.announcedName, w.user.name))
      && after.conv.form.pendingName == OrElse(m.said.announcedName, w.conv.form.pendingName)
  {
    var named := WithAnnouncedName(w, m);
    var parsed := d.validator.Parse(m.text, m.now, named.conv.form.pendingDate);
    if parsed.slot.Some? {
      var timed := named.conv.form.(
        pendingDate := None, pendingTime := Some(parsed.slot.value.at), pendingTimeRaw := Some(TakeRaw(m.text)));
      QuestionKeepsName(WithForm(named, Absorb(timed, m.text, m.said.foundLater)));
    }
  }
}
