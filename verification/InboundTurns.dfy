/** Inbound turns under concurrent redelivery: any number of webhook deliveries of any
messages, each a transaction whose steps interleave with the others. */
module InboundTurns {
  import opened Wrappers

  type WaId = string
  type Phone = string

  datatype Gate = Gate(blocked: bool, paused: bool)

  /** What the machine decided: how many replies, and whether a lead was written. */
  datatype Effect = Effect(replies: nat, lead: bool)

  const NO_EFFECT := Effect(0, false)

  /** How far one delivery has come. The contact as loaded stays with the transaction. */
  datatype Phase =
    | Arrived
    | Checked
    | Inserting
    | Identified(gate: Gate, newUser: bool)
    | Locked(gate: Gate, newUser: bool, thread: nat)
    | Stored(gate: Gate, newUser: bool, thread: nat)
    | Handled(gate: Gate, newUser: bool, thread: nat, effect: Effect)
    | Recorded(gate: Gate, newUser: bool, thread: nat)
    | Committed(gate: Gate, effect: Effect, delivered: nat)
    | Duplicate
    | Refused
    /** An integrity error, on the contact's phone or on the message identifier: swallowed. */
    | Collided(onPhone: bool)
    /** Any other exception: rolled back, with an apology instead of replies. */
    | Broken

  datatype Delivery = Delivery(id: WaId, phone: Phone, phase: Phase)

  datatype Sent = Sent(delivery: nat, reply: nat)

  /** The committed tables, the deliveries in flight, and what left the building. Conversation
  rows are numbered as they are created, committed or not. */
  datatype Service = Service(
    messages: map<WaId, nat>,
    users: map<Phone, Gate>,
    threads: set<nat>,
    nextThread: nat,
    deliveries: seq<Delivery>,
    sent: seq<Sent>,
    leads: seq<nat>)

  const START := Service(map[], map[], {}, 0, [], [], [])

  /** This transaction holds an uncommitted row under the unique message index. */
  predicate HoldsMessage(p: Phase) {
    p.Stored? || p.Handled? || p.Recorded?
  }

  /** This transaction holds an uncommitted row under the unique phone index. */
  predicate HoldsUser(p: Phase) {
    match p
    case Identified(_, newUser) => newUser
    case Locked(_, newUser, _) => newUser
    case Stored(_, newUser, _) => newUser
    case Handled(_, newUser, _, _) => newUser
    case Recorded(_, newUser, _) => newUser
    case _ => false
  }

  /** The conversation whose row lock this transaction holds. */
  function LockOf(p: Phase): Option<nat> {
    match p
    case Locked(_, _, thread) => Some(thread)
    case Stored(_, _, thread) => Some(thread)
    case Handled(_, _, thread, _) => Some(thread)
    case Recorded(_, _, thread) => Some(thread)
    case _ => None
  }

  predicate InFlight(p: Phase) {
    p.Checked? || p.Inserting? || p.Identified? || p.Locked? || p.Stored? || p.Handled? || p.Recorded?
  }

  datatype Action =
    | Arrive(id: WaId, phone: Phone)
    | Check(k: nat)
    | FindUser(k: nat)
    | InsertUser(k: nat)
    | RefuseBlocked(k: nat)
    | LockThread(k: nat, thread: nat)
    | CreateThread(k: nat)
    | StoreMessage(k: nat)
    | RunMachine(k: nat, effect: Effect)
    | RecordOnly(k: nat)
    | Commit(k: nat)
    | Send(k: nat, fails: bool)
    | Break(k: nat)
    | SetGate(phone: Phone, gate: Gate)

  /** An insert waits while another transaction holds the same unique key, and a lock while
  another one holds the row. */
  ghost predicate Enabled(s: Service, a: Action) {
    match a
    case Arrive(_, _) => true
    case SetGate(phone, _) => phone in s.users
    case Check(k) => k < |s.deliveries| && s.deliveries[k].phase.Arrived?
    case FindUser(k) => k < |s.deliveries| && s.deliveries[k].phase.Checked?
    case InsertUser(k) =>
      k < |s.deliveries| && s.deliveries[k].phase.Inserting?
      && forall j :: 0 <= j < |s.deliveries| && HoldsUser(s.deliveries[j].phase) ==>
           s.deliveries[j].phone != s.deliveries[k].phone
    case RefuseBlocked(k) =>
      k < |s.deliveries| && s.deliveries[k].phase.Identified? && s.deliveries[k].phase.gate.blocked
    case LockThread(k, thread) =>
      k < |s.deliveries| && s.deliveries[k].phase.Identified? && !s.deliveries[k].phase.gate.blocked
      && thread in s.threads
      && forall j :: 0 <= j < |s.deliveries| ==> LockOf(s.deliveries[j].phase) != Some(thread)
    case CreateThread(k) =>
      k < |s.deliveries| && s.deliveries[k].phase.Identified? && !s.deliveries[k].phase.gate.blocked
    case StoreMessage(k) =>
      k < |s.deliveries| && s.deliveries[k].phase.Locked?
      && forall j :: 0 <= j < |s.deliveries| && HoldsMessage(s.deliveries[j].phase) ==>
           s.deliveries[j].id != s.deliveries[k].id
    case RunMachine(k, _) => k < |s.deliveries| && s.deliveries[k].phase.Stored? && !s.deliveries[k].phase.gate.paused
    case RecordOnly(k) => k < |s.deliveries| && s.deliveries[k].phase.Stored? && s.deliveries[k].phase.gate.paused
    case Commit(k) => k < |s.deliveries| && (s.deliveries[k].phase.Handled? || s.deliveries[k].phase.Recorded?)
    case Send(k, _) =>
      k < |s.deliveries| && s.deliveries[k].phase.Committed?
      && s.deliveries[k].phase.delivered < s.deliveries[k].phase.effect.replies
    case Break(k) => k < |s.deliveries| && InFlight(s.deliveries[k].phase)
  }

  function Moved(s: Service, k: nat, phase: Phase): Service
    requires k < |s.deliveries|
  {
    s.(deliveries := s.deliveries[k := s.deliveries[k].(phase := phase)])
  }

  function AfterCommit(s: Service, k: nat, effect: Effect): Service
    requires k < |s.deliveries| && HoldsMessage(s.deliveries[k].phase)
  {
    var d := s.deliveries[k];
    Moved(s, k, Committed(d.phase.gate, effect, 0)).(
      messages := s.messages[d.id := k],
      users := if d.phase.newUser then s.users[d.phone := Gate(false, false)] else s.users,
      threads := s.threads + {d.phase.thread},
      leads := if effect.lead then s.leads + [k] else s.leads)
  }

  ghost function Next(s: Service, a: Action): Service
    requires Enabled(s, a)
  {
    match a
    case Arrive(id, phone) => s.(deliveries := s.deliveries + [Delivery(id, phone, Arrived)])
    case SetGate(phone, gate) => s.(users := s.users[phone := gate])
    case Check(k) => Moved(s, k, if s.deliveries[k].id in s.messages then Duplicate else Checked)
    case FindUser(k) =>
      var phone := s.deliveries[k].phone;
      Moved(s, k, if phone in s.users then Identified(s.users[phone], false) else Inserting)
    case InsertUser(k) =>
      Moved(s, k, if s.deliveries[k].phone in s.users then Collided(true) else Identified(Gate(false, false), true))
    case RefuseBlocked(k) => Moved(s, k, Refused)
    case LockThread(k, thread) =>
      var p := s.deliveries[k].phase;
      Moved(s, k, Locked(p.gate, p.newUser, thread))
    case CreateThread(k) =>
      var p := s.deliveries[k].phase;
      Moved(s, k, Locked(p.gate, p.newUser, s.nextThread)).(nextThread := s.nextThread + 1)
    case StoreMessage(k) =>
      var p := s.deliveries[k].phase;
      Moved(s, k, if s.deliveries[k].id in s.messages then Collided(false) else Stored(p.gate, p.newUser, p.thread))
    case RunMachine(k, effect) =>
      var p := s.deliveries[k].phase;
      Moved(s, k, Handled(p.gate, p.newUser, p.thread, effect))
    case RecordOnly(k) =>
      var p := s.deliveries[k].phase;
      Moved(s, k, Recorded(p.gate, p.newUser, p.thread))
    case Commit(k) =>
      var p := s.deliveries[k].phase;
      AfterCommit(s, k, if p.Handled? then p.effect else NO_EFFECT)
    case Send(k, fails) =>
      var p := s.deliveries[k].phase;
      Moved(s, k, p.(delivered := p.delivered + 1)).(
        sent := if fails then s.sent else s.sent + [Sent(k, p.delivered)])
    case Break(k) => Moved(s, k, Broken)
  }

  ghost predicate Possible(actions: seq<Action>)
    decreases |actions|, 0
  {
    actions == [] ||
    (Possible(actions[..|actions| - 1]) && Enabled(After(actions[..|actions| - 1]), actions[|actions| - 1]))
  }

  ghost function After(actions: seq<Action>): Service
    requires Possible(actions)
    decreases |actions|, 1
  {
    if actions == [] then START else Next(After(actions[..|actions| - 1]), actions[|actions| - 1])
  }

  // ------------------------------------------------------------------
  // The invariant
  // ------------------------------------------------------------------

  /** One delivery against the committed tables: its uncommitted rows are not committed by
  anyone else, a committed turn is the one its message is filed under, and a collision means
  that somebody else's row, for this message or this phone, won. */
  ghost predicate Consistent(s: Service, k: nat)
    requires k < |s.deliveries|
  {
    var d := s.deliveries[k];
    && (HoldsMessage(d.phase) ==> d.id !in s.messages)
    && (d.phase.Committed? ==>
          d.id in s.messages && s.messages[d.id] == k && d.phase.delivered <= d.phase.effect.replies)
    && (HoldsUser(d.phase) ==> d.phone !in s.users)
    && (LockOf(d.phase).Some? ==> LockOf(d.phase).value < s.nextThread)
    && (d.phase.Collided? ==> if d.phase.onPhone then d.phone in s.users else d.id in s.messages)
    && GateObeyed(d.phase)
  }

  /** A blocked contact's message gets no further than the gate; a paused one's reaches no handler. */
  predicate GateObeyed(p: Phase) {
    && (p.Locked? || p.Stored? || p.Handled? || p.Recorded? || p.Committed? ==> !p.gate.blocked)
    && (p.Handled? ==> !p.gate.paused)
    && (p.Recorded? ==> p.gate.paused)
    && (p.Committed? && p.gate.paused ==> p.effect == NO_EFFECT)
  }

  /** No two transactions hold the same unique key or the same conversation. */
  ghost predicate Apart(d: Delivery, e: Delivery) {
    && (HoldsMessage(d.phase) && HoldsMessage(e.phase) ==> d.id != e.id)
    && (HoldsUser(d.phase) && HoldsUser(e.phase) ==> d.phone != e.phone)
    && (LockOf(d.phase).Some? ==> LockOf(d.phase) != LockOf(e.phase))
  }

  /** Everything sent, and every lead, comes from a committed turn that decided it. */
  ghost predicate Earned(s: Service, x: Sent) {
    && x.delivery < |s.deliveries| && s.deliveries[x.delivery].phase.Committed?
    && x.reply < s.deliveries[x.delivery].phase.delivered
  }

  ghost predicate LeadEarned(s: Service, k: nat) {
    k < |s.deliveries| && s.deliveries[k].phase.Committed? && s.deliveries[k].phase.effect.lead
  }

  predicate Unrepeated<T(==)>(xs: seq<T>) {
    forall i, j :: 0 <= i < j < |xs| ==> xs[i] != xs[j]
  }

  ghost predicate Safe(s: Service) {
    && (forall k :: 0 <= k < |s.deliveries| ==> Consistent(s, k))
    && (forall i, j :: 0 <= i < j < |s.deliveries| ==> Apart(s.deliveries[i], s.deliveries[j]))
    && (forall t :: t in s.threads ==> t < s.nextThread)
    && (forall i :: 0 <= i < |s.sent| ==> Earned(s, s.sent[i])) && Unrepeated(s.sent)
    && (forall i :: 0 <= i < |s.leads| ==> LeadEarned(s, s.leads[i])) && Unrepeated(s.leads)
  }

  /** The delivery an action is a step of. */
  function Actor(a: Action): Option<nat> {
    match a
    case Arrive(_, _) => None
    case SetGate(_, _) => None
    case _ => Some(a.k)
  }

  lemma OthersWait(s: Service, a: Action, k: nat)
    requires Enabled(s, a) && k < |s.deliveries| && Actor(a) != Some(k)
    ensures k < |Next(s, a).deliveries| && Next(s, a).deliveries[k] == s.deliveries[k]
  {
  }

  /** What a step of one transaction may newly hold, no other transaction holds. */
  lemma StepStaysApart(s: Service, a: Action, k: nat, other: nat)
    requires Enabled(s, a) && Actor(a) == Some(k) && other < |s.deliveries| && other != k
    requires Apart(s.deliveries[k], s.deliveries[other]) && Apart(s.deliveries[other], s.deliveries[k])
    requires Consistent(s, other) && forall t :: t in s.threads ==> t < s.nextThread
    ensures k < |Next(s, a).deliveries|
    ensures Apart(Next(s, a).deliveries[k], s.deliveries[other]) && Apart(s.deliveries[other], Next(s, a).deliveries[k])
  {
  }

  /** A waiting delivery stays consistent: nobody else commits its keys. */
  lemma OthersStayConsistent(s: Service, a: Action, k: nat)
    requires Enabled(s, a) && k < |s.deliveries| && Actor(a) != Some(k) && Consistent(s, k)
    requires Actor(a).Some? && Actor(a).value < |s.deliveries| ==>
      Apart(s.deliveries[Actor(a).value], s.deliveries[k]) && Consistent(s, Actor(a).value)
    ensures k < |Next(s, a).deliveries| && Consistent(Next(s, a), k)
  {
  }

  lemma ActorStaysConsistent(s: Service, a: Action, k: nat)
    requires Enabled(s, a) && Actor(a) == Some(k) && k < |s.deliveries| && Consistent(s, k)
    requires forall t :: t in s.threads ==> t < s.nextThread
    ensures k < |Next(s, a).deliveries| && Consistent(Next(s, a), k)
  {
  }

  lemma NextConsistent(s: Service, a: Action, k: nat)
    requires Safe(s) && Enabled(s, a) && k < |Next(s, a).deliveries|
    ensures Consistent(Next(s, a), k)
  {
    if k < |s.deliveries| {
      assert Consistent(s, k);
      if Actor(a) == Some(k) {
        ActorStaysConsistent(s, a, k);
      } else {
        if Actor(a).Some? {
          var j := Actor(a).value;
          assert Consistent(s, j);
          assert if j < k then Apart(s.deliveries[j], s.deliveries[k]) else Apart(s.deliveries[k], s.deliveries[j]);
        }
        OthersStayConsistent(s, a, k);
      }
    }
  }

  lemma NextApart(s: Service, a: Action, i: nat, j: nat)
    requires Safe(s) && Enabled(s, a) && i < j < |Next(s, a).deliveries|
    ensures Apart(Next(s, a).deliveries[i], Next(s, a).deliveries[j])
  {
    if j < |s.deliveries| {
      assert Apart(s.deliveries[i], s.deliveries[j]);
      assert Consistent(s, i) && Consistent(s, j);
      if Actor(a) == Some(i) {
        OthersWait(s, a, j);
        StepStaysApart(s, a, i, j);
      } else if Actor(a) == Some(j) {
        OthersWait(s, a, i);
        StepStaysApart(s, a, j, i);
      } else {
        OthersWait(s, a, i);
        OthersWait(s, a, j);
      }
    }
  }

  lemma NextOutput(s: Service, a: Action)
    requires Safe(s) && Enabled(s, a)
    ensures var t := Next(s, a);
      && (forall i :: 0 <= i < |t.sent| ==> Earned(t, t.sent[i])) && Unrepeated(t.sent)
  {
    var t := Next(s, a);
    forall i | 0 <= i < |t.sent| ensures Earned(t, t.sent[i]) {
      if i < |s.sent| { assert Earned(s, s.sent[i]); }
    }
  }

  lemma NextLeads(s: Service, a: Action)
    requires Safe(s) && Enabled(s, a)
    ensures var t := Next(s, a);
      && (forall i :: 0 <= i < |t.leads| ==> LeadEarned(t, t.leads[i])) && Unrepeated(t.leads)
  {
    var t := Next(s, a);
    forall i | 0 <= i < |t.leads| ensures LeadEarned(t, t.leads[i]) {
      if i < |s.leads| { assert LeadEarned(s, s.leads[i]); }
    }
  }

  lemma NextIsSafe(s: Service, a: Action)
    requires Safe(s) && Enabled(s, a)
    ensures Safe(Next(s, a))
  {
    var t := Next(s, a);
    forall k | 0 <= k < |t.deliveries| ensures Consistent(t, k) { NextConsistent(s, a, k); }
    forall i, j | 0 <= i < j < |t.deliveries| ensures Apart(t.deliveries[i], t.deliveries[j]) { NextApart(s, a, i, j); }
    NextOutput(s, a);
    NextLeads(s, a);
    if a.Commit? { assert Consistent(s, a.k); }
  }

  lemma {:induction false} TracesAreSafe(actions: seq<Action>)
    requires Possible(actions)
    ensures Safe(After(actions))
  {
    if actions != [] {
      TracesAreSafe(actions[..|actions| - 1]);
      NextIsSafe(After(actions[..|actions| - 1]), actions[|actions| - 1]);
    }
  }

  // ------------------------------------------------------------------
  // What every interleaving guarantees
  // ------------------------------------------------------------------

  /** Two committed turns of one message are the same turn. */
  ghost predicate SameTurn(s: Service, i: nat, j: nat)
    requires i < |s.deliveries| && j < |s.deliveries|
  {
    s.deliveries[i].phase.Committed? && s.deliveries[j].phase.Committed? && s.deliveries[i].id == s.deliveries[j].id ==>
      i == j
  }

  /** The stored message row is this delivery's. */
  predicate Filed(s: Service, id: WaId, k: nat) {
    id in s.messages && s.messages[id] == k
  }

  /** At most one committed turn for each WhatsApp message, however often and however
  concurrently it is delivered; and two replies or two leads for the same message come from
  that one turn, each of them once. */
  lemma EachMessageTakesEffectOnce(actions: seq<Action>)
    requires Possible(actions)
    ensures var s := After(actions);
      && (forall i, j :: 0 <= i < |s.deliveries| && 0 <= j < |s.deliveries| ==> SameTurn(s, i, j))
      && Unrepeated(s.sent) && Unrepeated(s.leads)
      && (forall i, j :: 0 <= i < |s.leads| && 0 <= j < |s.leads| ==>
            s.leads[i] < |s.deliveries| && s.leads[j] < |s.deliveries|
            && (s.deliveries[s.leads[i]].id == s.deliveries[s.leads[j]].id ==> i == j))
      && (forall i, j :: 0 <= i < |s.sent| && 0 <= j < |s.sent| ==>
            s.sent[i].delivery < |s.deliveries| && s.sent[j].delivery < |s.deliveries|
            && (s.deliveries[s.sent[i].delivery].id == s.deliveries[s.sent[j].delivery].id ==>
                  s.sent[i].delivery == s.sent[j].delivery && (s.sent[i].reply == s.sent[j].reply ==> i == j)))
  {
    TracesAreSafe(actions);
    var s := After(actions);
    forall i, j | 0 <= i < |s.deliveries| && 0 <= j < |s.deliveries|
      ensures SameTurn(s, i, j)
    {
      assert Consistent(s, i) && Consistent(s, j);
    }
    forall i, j | 0 <= i < |s.leads| && 0 <= j < |s.leads|
      ensures s.leads[i] < |s.deliveries| && s.leads[j] < |s.deliveries|
      ensures s.deliveries[s.leads[i]].id == s.deliveries[s.leads[j]].id ==> i == j
    {
      assert LeadEarned(s, s.leads[i]) && LeadEarned(s, s.leads[j]);
      assert SameTurn(s, s.leads[i], s.leads[j]);
    }
    forall i, j | 0 <= i < |s.sent| && 0 <= j < |s.sent|
      ensures s.sent[i].delivery < |s.deliveries| && s.sent[j].delivery < |s.deliveries|
      ensures s.deliveries[s.sent[i].delivery].id == s.deliveries[s.sent[j].delivery].id ==>
        s.sent[i].delivery == s.sent[j].delivery && (s.sent[i].reply == s.sent[j].reply ==> i == j)
    {
      assert Earned(s, s.sent[i]) && Earned(s, s.sent[j]);
      assert SameTurn(s, s.sent[i].delivery, s.sent[j].delivery);
    }
  }

  /** Nothing is sent but what a committed turn decided, to a contact that was neither blocked nor paused. */
  lemma OnlyDecidedRepliesAreSent(actions: seq<Action>, i: nat)
    requires Possible(actions) && i < |After(actions).sent|
    ensures var s := After(actions);
      var x := s.sent[i];
      && x.delivery < |s.deliveries| && s.deliveries[x.delivery].phase.Committed?
      && x.reply < s.deliveries[x.delivery].phase.effect.replies
      && Filed(s, s.deliveries[x.delivery].id, x.delivery)
      && !s.deliveries[x.delivery].phase.gate.blocked && !s.deliveries[x.delivery].phase.gate.paused
  {
    TracesAreSafe(actions);
    var s := After(actions);
    assert Earned(s, s.sent[i]);
    assert Consistent(s, s.sent[i].delivery);
  }

  /** A blocked contact's delivery runs no handler and stores no message; a paused contact's is
  stored with no reply and no lead. */
  lemma GatesHold(actions: seq<Action>, k: nat)
    requires Possible(actions) && k < |After(actions).deliveries|
    ensures var s := After(actions);
      var d := s.deliveries[k];
      && GateObeyed(d.phase)
      && (d.phase.Refused? ==> !Filed(s, d.id, k))
      && (d.phase.Committed? && d.phase.gate.paused ==>
            Filed(s, d.id, k) && k !in s.leads && forall i :: 0 <= i < |s.sent| ==> s.sent[i].delivery != k)
  {
    TracesAreSafe(actions);
    var s := After(actions);
    assert Consistent(s, k);
    if Filed(s, s.deliveries[k].id, k) {
      MessageRowsAreCommitted(actions, s.deliveries[k].id);
    }
    if s.deliveries[k].phase.Committed? && s.deliveries[k].phase.gate.paused {
      forall i | 0 <= i < |s.sent| ensures s.sent[i].delivery != k { assert Earned(s, s.sent[i]); }
      forall i | 0 <= i < |s.leads| ensures s.leads[i] != k { assert LeadEarned(s, s.leads[i]); }
    }
  }

  predicate RowCommitted(s: Service, id: WaId) {
    id in s.messages ==>
      var k := s.messages[id];
      k < |s.deliveries| && s.deliveries[k].id == id && s.deliveries[k].phase.Committed?
  }

  lemma NextRowCommitted(s: Service, a: Action, id: WaId)
    requires Enabled(s, a) && RowCommitted(s, id)
    ensures RowCommitted(Next(s, a), id)
  {
  }

  /** Every stored message belongs to a committed delivery of it. */
  lemma {:induction false} MessageRowsAreCommitted(actions: seq<Action>, id: WaId)
    requires Possible(actions)
    ensures RowCommitted(After(actions), id)
  {
    if actions != [] {
      MessageRowsAreCommitted(actions[..|actions| - 1], id);
      NextRowCommitted(After(actions[..|actions| - 1]), actions[|actions| - 1], id);
    }
  }

  /** While two turns are in flight on conversations they have locked, the conversations differ. */
  lemma ConversationsAreExclusive(actions: seq<Action>, i: nat, j: nat)
    requires Possible(actions) && i < j < |After(actions).deliveries|
    requires LockOf(After(actions).deliveries[i].phase).Some?
    ensures LockOf(After(actions).deliveries[i].phase) != LockOf(After(actions).deliveries[j].phase)
  {
    TracesAreSafe(actions);
    assert Apart(After(actions).deliveries[i], After(actions).deliveries[j]);
  }

  /** A swallowed error on the message index is always a redelivery: another delivery of the same
  message has been committed. On the phone index it only means that the contact exists by now. */
  lemma CollisionsHaveAWinner(actions: seq<Action>, k: nat)
    requires Possible(actions) && k < |After(actions).deliveries| && After(actions).deliveries[k].phase.Collided?
    ensures var s := After(actions);
      var d := s.deliveries[k];
      if d.phase.onPhone then d.phone in s.users
      else
        && d.id in s.messages && s.messages[d.id] < |s.deliveries| && s.messages[d.id] != k
        && s.deliveries[s.messages[d.id]].id == d.id && s.deliveries[s.messages[d.id]].phase.Committed?
  {
    TracesAreSafe(actions);
    assert Consistent(After(actions), k);
    MessageRowsAreCommitted(actions, After(actions).deliveries[k].id);
  }

  // ------------------------------------------------------------------
  // When a swallowed error is always a redelivery
  // ------------------------------------------------------------------

  /** Delivery k was swallowed as a collision although its message is not stored. */
  predicate Lost(s: Service, k: nat) {
    k < |s.deliveries| && s.deliveries[k].phase.Collided? && s.deliveries[k].id !in s.messages
  }

  /** After these actions and then those, a delivery of this phone that arrived after the first
  of them is lost. */
  ghost predicate LosesLater(actions: seq<Action>, more: seq<Action>, phone: Phone)
    requires Possible(actions)
  {
    Possible(actions + more) &&
    exists k ::
      && |After(actions).deliveries| <= k && Lost(After(actions + more), k)
      && After(actions + more).deliveries[k].phone == phone
  }

  /** The contact was there before this delivery came: it inserts none, and collides only with
  another delivery of its own message. */
  predicate KnewContact(s: Service, phone: Phone, k: nat)
    requires k < |s.deliveries|
  {
    s.deliveries[k].phone == phone ==>
      !s.deliveries[k].phase.Inserting? && !HoldsUser(s.deliveries[k].phase)
      && (s.deliveries[k].phase.Collided? ==> !s.deliveries[k].phase.onPhone)
  }

  lemma StillKnowsContact(s: Service, a: Action, phone: Phone, k: nat)
    requires Enabled(s, a) && phone in s.users && k < |Next(s, a).deliveries|
    requires k < |s.deliveries| ==> KnewContact(s, phone, k)
    ensures KnewContact(Next(s, a), phone, k)
  {
  }

  lemma ContactsStay(s: Service, a: Action, phone: Phone)
    requires Enabled(s, a) && phone in s.users
    ensures phone in Next(s, a).users && |s.deliveries| <= |Next(s, a).deliveries|
  {
  }

  lemma {:induction false} LaterDeliveriesKnowContact(actions: seq<Action>, more: seq<Action>, phone: Phone, k: nat)
    requires Possible(actions) && Possible(actions + more) && phone in After(actions).users
    ensures phone in After(actions + more).users && |After(actions).deliveries| <= |After(actions + more).deliveries|
    ensures |After(actions).deliveries| <= k < |After(actions + more).deliveries| ==>
      KnewContact(After(actions + more), phone, k)
  {
    if more == [] {
      assert actions + more == actions;
    } else {
      var before, a := more[..|more| - 1], more[|more| - 1];
      assert (actions + more)[..|actions + more| - 1] == actions + before;
      assert (actions + more)[|actions + more| - 1] == a;
      LaterDeliveriesKnowContact(actions, before, phone, k);
      ContactsStay(After(actions + before), a, phone);
      if |After(actions).deliveries| <= k < |After(actions + more).deliveries| {
        StillKnowsContact(After(actions + before), a, phone, k);
      }
    }
  }

  lemma KnownContactsLoseNothing(actions: seq<Action>, more: seq<Action>, phone: Phone)
    requires Possible(actions) && phone in After(actions).users
    ensures !LosesLater(actions, more, phone)
  {
    if Possible(actions + more) {
      forall k | |After(actions).deliveries| <= k && Lost(After(actions + more), k)
        ensures After(actions + more).deliveries[k].phone != phone
      {
        LaterDeliveriesKnowContact(actions, more, phone, k);
        TracesAreSafe(actions + more);
        assert Consistent(After(actions + more), k);
      }
    }
  }

  // ------------------------------------------------------------------
  // How a first message is lost
  // ------------------------------------------------------------------

  /** Nobody has this contact, committed or not, and nobody has delivered these messages. */
  ghost predicate Unseen(s: Service, phone: Phone, first: WaId, second: WaId) {
    && phone !in s.users && first !in s.messages && second !in s.messages && first != second
    && forall k :: 0 <= k < |s.deliveries| ==>
         && (HoldsUser(s.deliveries[k].phase) ==> s.deliveries[k].phone != phone)
         && s.deliveries[k].id != first && s.deliveries[k].id != second
  }

  /** The service with two more deliveries of this phone, in these phases. */
  function With(s: Service, phone: Phone, first: WaId, p: Phase, second: WaId, q: Phase): Service {
    s.(deliveries := s.deliveries + [Delivery(first, phone, p), Delivery(second, phone, q)])
  }

  lemma FirstMoves(s: Service, phone: Phone, first: WaId, p: Phase, second: WaId, q: Phase, next: Phase)
    ensures Moved(With(s, phone, first, p, second, q), |s.deliveries|, next) == With(s, phone, first, next, second, q)
    ensures Moved(With(s, phone, first, p, second, q), |s.deliveries| + 1, next)
         == With(s, phone, first, p, second, next)
  {
    var ds := s.deliveries + [Delivery(first, phone, p), Delivery(second, phone, q)];
    var n := |s.deliveries|;
    assert ds[n := Delivery(first, phone, next)]
        == s.deliveries + [Delivery(first, phone, next), Delivery(second, phone, q)];
    assert ds[n + 1 := Delivery(second, phone, next)]
        == s.deliveries + [Delivery(first, phone, p), Delivery(second, phone, next)];
  }

  lemma OneMore(actions: seq<Action>, more: seq<Action>, s: Service, a: Action) returns (longer: seq<Action>)
    requires Possible(actions + more) && After(actions + more) == s && Enabled(s, a)
    ensures longer == more + [a] && Possible(actions + longer) && After(actions + longer) == Next(s, a)
  {
    longer := more + [a];
    assert (actions + longer)[..|actions + longer| - 1] == actions + more;
  }

  lemma BothArrive(actions: seq<Action>, more: seq<Action>, s: Service, phone: Phone, first: WaId, second: WaId)
    returns (longer: seq<Action>)
    requires Possible(actions + more) && After(actions + more) == s
    ensures Possible(actions + longer) && After(actions + longer) == With(s, phone, first, Arrived, second, Arrived)
  {
    longer := OneMore(actions, more, s, Arrive(first, phone));
    var t := s.(deliveries := s.deliveries + [Delivery(first, phone, Arrived)]);
    longer := OneMore(actions, longer, t, Arrive(second, phone));
    assert t.deliveries + [Delivery(second, phone, Arrived)]
        == s.deliveries + [Delivery(first, phone, Arrived), Delivery(second, phone, Arrived)];
  }

  /** Two messages of one new number, both past the lookup that finds no contact. */
  lemma BothLookUp(actions: seq<Action>, more: seq<Action>, s: Service, phone: Phone, first: WaId, second: WaId)
    returns (longer: seq<Action>)
    requires Possible(actions + more) && Unseen(s, phone, first, second)
    requires After(actions + more) == With(s, phone, first, Arrived, second, Arrived)
    ensures Possible(actions + longer) && After(actions + longer) == With(s, phone, first, Inserting, second, Inserting)
  {
    var n := |s.deliveries|;
    longer := OneMore(actions, more, With(s, phone, first, Arrived, second, Arrived), Check(n));
    FirstMoves(s, phone, first, Arrived, second, Arrived, Checked);
    longer := OneMore(actions, longer, With(s, phone, first, Checked, second, Arrived), Check(n + 1));
    FirstMoves(s, phone, first, Checked, second, Arrived, Checked);
    longer := OneMore(actions, longer, With(s, phone, first, Checked, second, Checked), FindUser(n));
    FirstMoves(s, phone, first, Checked, second, Checked, Inserting);
    longer := OneMore(actions, longer, With(s, phone, first, Inserting, second, Checked), FindUser(n + 1));
    FirstMoves(s, phone, first, Inserting, second, Checked, Inserting);
  }

  const FREE := Gate(false, false)

  /** The first of them inserts the contact and locks a new conversation. */
  lemma FirstInserts(actions: seq<Action>, more: seq<Action>, s: Service, phone: Phone, first: WaId, second: WaId)
    returns (longer: seq<Action>)
    requires Possible(actions + more) && Unseen(s, phone, first, second)
    requires After(actions + more) == With(s, phone, first, Inserting, second, Inserting)
    ensures Possible(actions + longer)
    ensures After(actions + longer)
         == With(s.(nextThread := s.nextThread + 1), phone, first, Locked(FREE, true, s.nextThread), second, Inserting)
  {
    var n := |s.deliveries|;
    longer := OneMore(actions, more, With(s, phone, first, Inserting, second, Inserting), InsertUser(n));
    FirstMoves(s, phone, first, Inserting, second, Inserting, Identified(FREE, true));
    var identified := With(s, phone, first, Identified(FREE, true), second, Inserting);
    longer := OneMore(actions, longer, identified, CreateThread(n));
    FirstMoves(s, phone, first, Identified(FREE, true), second, Inserting, Locked(FREE, true, s.nextThread));
  }

  /** Its message is stored. */
  lemma FirstIsStored(
      actions: seq<Action>, more: seq<Action>, s: Service, phone: Phone, first: WaId, second: WaId, thread: nat)
    returns (longer: seq<Action>)
    requires Possible(actions + more) && Unseen(s, phone, first, second)
    requires After(actions + more) == With(s, phone, first, Locked(FREE, true, thread), second, Inserting)
    ensures Possible(actions + longer)
    ensures After(actions + longer) == With(s, phone, first, Stored(FREE, true, thread), second, Inserting)
  {
    longer := OneMore(actions, more, With(s, phone, first, Locked(FREE, true, thread), second, Inserting),
                      StoreMessage(|s.deliveries|));
    FirstMoves(s, phone, first, Locked(FREE, true, thread), second, Inserting, Stored(FREE, true, thread));
  }

  /** It is handled and committed while the second is still about to insert the contact. */
  lemma OneWins(
      actions: seq<Action>, more: seq<Action>, s: Service, phone: Phone, first: WaId, second: WaId, thread: nat)
    returns (longer: seq<Action>)
    requires Possible(actions + more) && Unseen(s, phone, first, second)
    requires After(actions + more) == With(s, phone, first, Stored(FREE, true, thread), second, Inserting)
    ensures Possible(actions + longer)
    ensures var t := After(actions + longer);
      && t.deliveries == With(s, phone, first, Committed(FREE, NO_EFFECT, 0), second, Inserting).deliveries
      && t.messages == s.messages[first := |s.deliveries|] && phone in t.users
  {
    var n := |s.deliveries|;
    longer := OneMore(actions, more, With(s, phone, first, Stored(FREE, true, thread), second, Inserting),
                      RunMachine(n, NO_EFFECT));
    FirstMoves(s, phone, first, Stored(FREE, true, thread), second, Inserting, Handled(FREE, true, thread, NO_EFFECT));
    var handled := With(s, phone, first, Handled(FREE, true, thread, NO_EFFECT), second, Inserting);
    longer := OneMore(actions, longer, handled, Commit(n));
    FirstMoves(s, phone, first, Handled(FREE, true, thread, NO_EFFECT), second, Inserting,
               Committed(FREE, NO_EFFECT, 0));
  }

  /** From any reachable service that knows neither the contact nor the messages, the second of
  them can be swallowed as a collision on the phone although nobody else ever delivers it. */
  lemma SecondIsLost(actions: seq<Action>, more: seq<Action>, s: Service, phone: Phone, first: WaId, second: WaId)
    returns (longer: seq<Action>)
    requires Possible(actions + more) && After(actions + more) == s && Unseen(s, phone, first, second)
    ensures Possible(actions + longer)
    ensures var t := After(actions + longer);
      && t.deliveries
         == s.deliveries + [Delivery(first, phone, Committed(FREE, NO_EFFECT, 0)),
                            Delivery(second, phone, Collided(true))]
      && Lost(t, |s.deliveries| + 1)
  {
    longer := BothArrive(actions, more, s, phone, first, second);
    longer := BothLookUp(actions, longer, s, phone, first, second);
    longer := FirstInserts(actions, longer, s, phone, first, second);
    var created := s.(nextThread := s.nextThread + 1);
    longer := FirstIsStored(actions, longer, created, phone, first, second, s.nextThread);
    longer := OneWins(actions, longer, created, phone, first, second, s.nextThread);
    var t := After(actions + longer);
    longer := OneMore(actions, longer, t, InsertUser(|s.deliveries| + 1));
    FirstMoves(s, phone, first, Committed(FREE, NO_EFFECT, 0), second, Inserting, Collided(true));
    assert Moved(t, |s.deliveries| + 1, Collided(true)).deliveries
        == With(s, phone, first, Committed(FREE, NO_EFFECT, 0), second, Collided(true)).deliveries;
  }

  /** Exactly-once does not hold: of two different first messages from a new number, one can be
  swallowed as a collision on the phone. */
  lemma FirstMessageCanBeLost(first: WaId, second: WaId, phone: Phone) returns (actions: seq<Action>)
    requires first != second
    ensures Possible(actions)
    ensures var s := After(actions);
      && |s.deliveries| == 2 && s.deliveries[0].id == first && s.deliveries[1].id == second
      && s.deliveries[0].phase.Committed? && s.deliveries[1].phase == Collided(true) && second !in s.messages
  {
    var none: seq<Action> := [];
    assert none + none == none;
    actions := SecondIsLost(none, none, START, phone, first, second);
    assert none + actions == actions;
  }

  /** An identifier longer than any delivered so far. */
  function Unused(ds: seq<Delivery>): (id: WaId)
    ensures forall k :: 0 <= k < |ds| ==> |ds[k].id| < |id|
  {
    if ds == [] then "x"
    else
      var before, last := Unused(ds[..|ds| - 1]), ds[|ds| - 1].id;
      if |last| < |before| then before else last + "x"
  }

  /** A transaction about to insert the contact can break first. */
  lemma HolderBreaks(actions: seq<Action>, phone: Phone) returns (more: seq<Action>)
    requires Possible(actions) && phone !in After(actions).users
    ensures Possible(actions + more)
    ensures var s, t := After(actions), After(actions + more);
      && phone !in t.users && t.messages == s.messages && |t.deliveries| == |s.deliveries|
      && forall k :: 0 <= k < |t.deliveries| ==>
           t.deliveries[k].id == s.deliveries[k].id
           && (HoldsUser(t.deliveries[k].phase) ==> t.deliveries[k].phone != phone)
  {
    var s := After(actions);
    more := [];
    assert actions + more == actions;
    TracesAreSafe(actions);
    if k :| 0 <= k < |s.deliveries| && HoldsUser(s.deliveries[k].phase) && s.deliveries[k].phone == phone {
      more := OneMore(actions, [], s, Break(k));
      forall j | 0 <= j < |s.deliveries| && j != k && HoldsUser(s.deliveries[j].phase)
        ensures s.deliveries[j].phone != phone
      {
        assert if j < k then Apart(s.deliveries[j], s.deliveries[k]) else Apart(s.deliveries[k], s.deliveries[j]);
      }
    }
  }

  lemma UnknownContactsCanLose(actions: seq<Action>, phone: Phone) returns (more: seq<Action>)
    requires Possible(actions) && phone !in After(actions).users
    ensures LosesLater(actions, more, phone)
  {
    var s := After(actions);
    more := HolderBreaks(actions, phone);
    var t := After(actions + more);
    var first := Unused(t.deliveries);
    var second := first + "x";
    forall id | id == first || id == second ensures id !in t.messages {
      MessageRowsAreCommitted(actions + more, id);
    }
    more := SecondIsLost(actions, more, t, phone, first, second);
    var k := |s.deliveries| + 1;
    assert Lost(After(actions + more), k) && After(actions + more).deliveries[k].phone == phone;
  }

  /** Every swallowed error of this phone's later deliveries is a redelivery of a stored message,
  whatever happens from here on, exactly when the phone has its contact row by now. */
  lemma ErrorsAreRedeliveriesExactlyWhen(actions: seq<Action>, phone: Phone)
    requires Possible(actions)
    ensures (forall more :: !LosesLater(actions, more, phone)) <==> phone in After(actions).users
  {
    if phone in After(actions).users {
      forall more ensures !LosesLater(actions, more, phone) {
        KnownContactsLoseNothing(actions, more, phone);
      }
    } else {
      var more := UnknownContactsCanLose(actions, phone);
    }
  }
}
