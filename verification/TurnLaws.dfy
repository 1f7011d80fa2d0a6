/** What deliveries come to: the gate a turn obeys is the one last set, what it commits is what the
machine decided, and exactly the replies whose sending did not fail leave, each in its turn. */
module TurnLaws {
  import opened Wrappers
  import opened InboundTurns

  // ------------------------------------------------------------------
  // The gate obeyed
  // ------------------------------------------------------------------

  /** The gate of a contact as last set in the console; it begins open. */
  function LastGate(actions: seq<Action>, phone: Phone): Gate {
    if actions == [] then FREE
    else
      var last := actions[|actions| - 1];
      if last.SetGate? && last.phone == phone then last.gate else LastGate(actions[..|actions| - 1], phone)
  }

  /** The gate a delivery loaded with its contact. */
  function GateOf(p: Phase): Option<Gate> {
    match p
    case Identified(gate, _) => Some(gate)
    case Locked(gate, _, _) => Some(gate)
    case Stored(gate, _, _) => Some(gate)
    case Handled(gate, _, _, _) => Some(gate)
    case Recorded(gate, _, _) => Some(gate)
    case Committed(gate, _, _) => Some(gate)
    case _ => None
  }

  predicate GateIs(s: Service, phone: Phone, gate: Gate) {
    if phone in s.users then s.users[phone] == gate else gate == FREE
  }

  lemma GateStays(s: Service, a: Action, phone: Phone, gate: Gate)
    requires Safe(s) && Enabled(s, a) && GateIs(s, phone, gate)
    ensures GateIs(Next(s, a), phone, if a.SetGate? && a.phone == phone then a.gate else gate)
  {
    if a.Commit? {
      assert Consistent(s, a.k);
    }
  }

  lemma {:induction false} GateIsAsSet(actions: seq<Action>, phone: Phone)
    requires Possible(actions)
    ensures GateIs(After(actions), phone, LastGate(actions, phone))
  {
    if actions != [] {
      var before := actions[..|actions| - 1];
      GateIsAsSet(before, phone);
      TracesAreSafe(before);
      GateStays(After(before), actions[|actions| - 1], phone, LastGate(before, phone));
    }
  }

  /** Of this contact, the delivery goes by this gate. */
  predicate GoesBy(s: Service, phone: Phone, gate: Gate, k: nat)
    requires k < |s.deliveries|
  {
    var d := s.deliveries[k];
    d.phone == phone ==>
      && (GateOf(d.phase).Some? ==> GateOf(d.phase) == Some(gate))
      && (d.phase.Refused? ==> gate.blocked)
  }

  lemma StepGoesBy(s: Service, a: Action, phone: Phone, gate: Gate, k: nat)
    requires Enabled(s, a) && GateIs(s, phone, gate) && k < |Next(s, a).deliveries|
    requires k < |s.deliveries| ==> GoesBy(s, phone, gate, k)
    ensures GoesBy(Next(s, a), phone, gate, k)
  {
  }

  predicate LeavesGate(actions: seq<Action>, phone: Phone) {
    forall i :: 0 <= i < |actions| && actions[i].SetGate? ==> actions[i].phone != phone
  }

  lemma {:induction false} LaterTurnsGoByTheGate(actions: seq<Action>, more: seq<Action>, phone: Phone, k: nat)
    requires Possible(actions) && Possible(actions + more) && LeavesGate(more, phone)
    ensures LastGate(actions + more, phone) == LastGate(actions, phone)
    ensures |After(actions).deliveries| <= k < |After(actions + more).deliveries| ==>
      GoesBy(After(actions + more), phone, LastGate(actions, phone), k)
  {
    if more == [] {
      assert actions + more == actions;
    } else {
      var before, a := more[..|more| - 1], more[|more| - 1];
      assert (actions + more)[..|actions + more| - 1] == actions + before;
      assert (actions + more)[|actions + more| - 1] == a;
      LaterTurnsGoByTheGate(actions, before, phone, k);
      GateIsAsSet(actions + before, phone);
      if |After(actions).deliveries| <= k < |After(actions + more).deliveries| {
        StepGoesBy(After(actions + before), a, phone, LastGate(actions, phone), k);
      }
    }
  }

  /** A delivery that arrives once a contact's gate is set goes by that gate while nobody changes it,
  however it interleaves with others: blocked, its message is never stored; paused, no handler runs
  on it; else it is neither refused nor left to an agent. */
  lemma LaterTurnsObeyTheGate(actions: seq<Action>, more: seq<Action>, k: nat)
    requires Possible(actions) && Possible(actions + more)
    requires |After(actions).deliveries| <= k < |After(actions + more).deliveries|
    requires LeavesGate(more, After(actions + more).deliveries[k].phone)
    ensures var s := After(actions + more);
      var d := s.deliveries[k];
      var gate := LastGate(actions, d.phone);
      && (gate.blocked ==> LockOf(d.phase).None? && !Filed(s, d.id, k))
      && (gate.paused ==> !d.phase.Handled? && (d.phase.Committed? ==> d.phase.effect == NO_EFFECT))
      && (!gate.blocked ==> !d.phase.Refused?) && (!gate.paused ==> !d.phase.Recorded?)
  {
    var s := After(actions + more);
    LaterTurnsGoByTheGate(actions, more, s.deliveries[k].phone, k);
    TracesAreSafe(actions + more);
    assert Consistent(s, k);
    MessageRowsAreCommitted(actions + more, s.deliveries[k].id);
  }

  // ------------------------------------------------------------------
  // What is committed
  // ------------------------------------------------------------------

  /** The machine ran on this delivery and decided this. */
  ghost predicate Decided(actions: seq<Action>, k: nat, effect: Effect) {
    exists n :: 0 <= n < |actions| && actions[n] == RunMachine(k, effect)
  }

  ghost predicate EffectDecided(actions: seq<Action>, k: nat, p: Phase) {
    match p
    case Handled(_, _, _, effect) => Decided(actions, k, effect)
    case Committed(gate, effect, _) => if gate.paused then effect == NO_EFFECT else Decided(actions, k, effect)
    case _ => true
  }

  predicate LeadAndContact(s: Service, k: nat)
    requires k < |s.deliveries|
  {
    var d := s.deliveries[k];
    && (GateOf(d.phase).Some? && !HoldsUser(d.phase) ==> d.phone in s.users)
    && (k in s.leads <==> d.phase.Committed? && d.phase.effect.lead)
  }

  lemma DecidedStays(actions: seq<Action>, a: Action, k: nat, effect: Effect)
    ensures Decided(actions, k, effect) || a == RunMachine(k, effect) ==> Decided(actions + [a], k, effect)
  {
    if Decided(actions, k, effect) {
      var n :| 0 <= n < |actions| && actions[n] == RunMachine(k, effect);
      assert (actions + [a])[n] == RunMachine(k, effect);
    }
    assert (actions + [a])[|actions|] == a;
  }

  lemma StepDecides(actions: seq<Action>, s: Service, a: Action, k: nat)
    requires Enabled(s, a) && k < |Next(s, a).deliveries|
    requires k < |s.deliveries| ==>
      EffectDecided(actions, k, s.deliveries[k].phase) && GateObeyed(s.deliveries[k].phase)
    ensures EffectDecided(actions + [a], k, Next(s, a).deliveries[k].phase)
  {
    var p := Next(s, a).deliveries[k].phase;
    if p.Handled? || p.Committed? {
      DecidedStays(actions, a, k, p.effect);
    }
  }

  lemma StepWrites(s: Service, a: Action, k: nat)
    requires Enabled(s, a) && k < |Next(s, a).deliveries|
    requires forall i :: 0 <= i < |s.leads| ==> s.leads[i] < |s.deliveries|
    requires k < |s.deliveries| ==> LeadAndContact(s, k)
    ensures LeadAndContact(Next(s, a), k)
  {
  }

  /** A committed turn is what the machine decided on its message, or nothing when an agent has the
  contact: its message and its contact are stored, and a lead exactly if one was decided. */
  lemma {:induction false} CommittedAsDecided(actions: seq<Action>, k: nat)
    requires Possible(actions) && k < |After(actions).deliveries|
    ensures var s := After(actions);
      var d := s.deliveries[k];
      && EffectDecided(actions, k, d.phase) && LeadAndContact(s, k)
      && (d.phase.Committed? ==> Filed(s, d.id, k) && d.phone in s.users)
  {
    var before, a := actions[..|actions| - 1], actions[|actions| - 1];
    var s := After(before);
    assert actions == before + [a];
    TracesAreSafe(before);
    TracesAreSafe(actions);
    assert Consistent(After(actions), k);
    if k < |s.deliveries| {
      CommittedAsDecided(before, k);
      assert Consistent(s, k);
    }
    assert forall i :: 0 <= i < |s.leads| ==> LeadEarned(s, s.leads[i]);
    StepDecides(before, s, a, k);
    StepWrites(s, a, k);
  }

  // ------------------------------------------------------------------
  // What is sent
  // ------------------------------------------------------------------

  /** The attempts to send the replies of delivery k, in order: true for one that failed. */
  function Attempts(actions: seq<Action>, k: nat): seq<bool> {
    if actions == [] then []
    else
      var last := actions[|actions| - 1];
      Attempts(actions[..|actions| - 1], k) + if last.Send? && last.k == k then [last.fails] else []
  }

  ghost predicate SentAs(s: Service, k: nat, attempts: seq<bool>) {
    && (if k < |s.deliveries| && s.deliveries[k].phase.Committed? then s.deliveries[k].phase.delivered == |attempts|
        else attempts == [])
    && (forall r: nat :: Sent(k, r) in s.sent <==> r < |attempts| && !attempts[r])
    && forall i, j :: 0 <= i < j < |s.sent| && s.sent[i].delivery == s.sent[j].delivery == k ==>
         s.sent[i].reply < s.sent[j].reply
  }

  lemma StepSends(s: Service, a: Action, k: nat, attempts: seq<bool>)
    requires Enabled(s, a) && SentAs(s, k, attempts)
    ensures SentAs(Next(s, a), k, attempts + if a.Send? && a.k == k then [a.fails] else [])
  {
    var t := Next(s, a);
    if a.Send? && a.k == k && !a.fails {
      var x := Sent(k, |attempts|);
      assert t.sent == s.sent + [x];
      forall i | 0 <= i < |s.sent| && s.sent[i].delivery == k ensures s.sent[i].reply < |attempts| {
        assert s.sent[i] == Sent(k, s.sent[i].reply);
      }
    }
  }

  /** The replies of a turn are tried one after the other, each once, and of them exactly those leave
  whose sending did not fail, in their order; before the commit none does. */
  lemma {:induction false} RepliesLeaveAsTried(actions: seq<Action>, k: nat)
    requires Possible(actions)
    ensures SentAs(After(actions), k, Attempts(actions, k))
  {
    if actions != [] {
      var before := actions[..|actions| - 1];
      RepliesLeaveAsTried(before, k);
      StepSends(After(before), actions[|actions| - 1], k, Attempts(before, k));
    }
  }
}
