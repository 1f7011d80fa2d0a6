/** Whole runs: many contacts, each with any number of conversations, one lead table, and
counselors working the leads in between. */
module FunnelRuns {
  import opened Wrappers
  import opened Calendar
  import opened Domain
  import opened Funnel
  import opened FunnelLaws
  import SchedulingLaws

  /** A message as the machine handled it, and the day the conversation remembered when it came. */
  datatype Heard = Heard(message: Inbound, remembered: Option<Ordinal>)

  /** One conversation, with every message the machine has handled in it and every lead it has written. */
  datatype Thread = Thread(phone: Text, conv: Conv, open: bool, inbox: seq<Heard>, writes: seq<nat>)

  /** `writers[k]` is the conversation that last wrote the lead with identifier k + 1. */
  datatype Store = Store(users: map<Text, Contact>, threads: seq<Thread>, leads: seq<Lead>, writers: seq<nat>)

  const EMPTY_STORE := Store(map[], [], [], [])

  datatype Event =
    | Message(phone: Text, profileName: Option<Text>, inbound: Inbound)
    | Paused(phone: Text, profileName: Option<Text>)
    | Blocked(phone: Text, profileName: Option<Text>)
    | Worked(id: nat, status: LeadStatus)
    | SyncMarked(id: nat, sync: SyncStatus)

  /** The newest open conversation of this contact. */
  function ActiveAmong(threads: seq<Thread>, phone: Text): (k: Option<nat>)
    ensures k.Some? ==> k.value < |threads| && threads[k.value].open && threads[k.value].phone == phone
    ensures forall t :: 0 <= t < |threads| && threads[t].open && threads[t].phone == phone ==>
      k.Some? && t <= k.value
  {
    if threads == [] then None
    else
      var last := |threads| - 1;
      if threads[last].open && threads[last].phone == phone then Some(last)
      else ActiveAmong(threads[..last], phone)
  }

  function ContactFor(s: Store, phone: Text, profileName: Option<Text>): Contact {
    if phone in s.users
    then s.users[phone].(profileName := OrElse(profileName, s.users[phone].profileName))
    else Contact(phone, None, profileName, false)
  }

  /** A message brings its sender's name on WhatsApp, and changes nothing else of a contact: the name
  given is kept and one not given again stays, and so do the name they told us and their payment. */
  lemma ContactIsRefreshed(s: Store, phone: Text, profileName: Option<Text>)
    ensures var c := ContactFor(s, phone, profileName);
      if phone in s.users then
        var was := s.users[phone];
        && c.phone == was.phone && c.name == was.name && c.paymentProof == was.paymentProof
        && (profileName.Some? ==> c.profileName == profileName)
        && (profileName.None? ==> c.profileName == was.profileName)
      else
        c.phone == phone && c.name.None? && c.profileName == profileName && !c.paymentProof
  {
  }

  function ThreadFor(s: Store, phone: Text): Thread {
    var k := ActiveAmong(s.threads, phone);
    if k.Some? then s.threads[k.value] else Thread(phone, NEW_CONVERSATION, true, [], [])
  }

  function IndexFor(s: Store, phone: Text): nat {
    ActiveAmong(s.threads, phone).GetOr(|s.threads|)
  }

  function Placed<T>(xs: seq<T>, k: nat, x: T): seq<T>
    requires k <= |xs|
  {
    if k < |xs| then xs[k := x] else xs + [x]
  }

  function Replied(t: Thread, m: Inbound, conv: Conv, r: TurnResult): Thread {
    Thread(t.phone, if r.close then conv.(state := End) else conv, t.open && !r.close,
           t.inbox + [Heard(m, t.conv.form.pendingDate)],
           t.writes + (if r.lead.Some? then [r.lead.value] else []))
  }

  function WrittenBy(writers: seq<nat>, lead: Option<nat>, k: nat): seq<nat> {
    if lead.Some? && 1 <= lead.value <= |writers| + 1 then Placed(writers, lead.value - 1, k) else writers
  }

  /** The world a message from this contact is handled in. */
  function WorldFor(s: Store, phone: Text, profileName: Option<Text>): World {
    World(ThreadFor(s, phone).conv, ContactFor(s, phone, profileName), s.leads)
  }

  /** The contact's name on WhatsApp is known, whatever becomes of the message. */
  function Refreshed(s: Store, phone: Text, profileName: Option<Text>): Store {
    s.(users := s.users[phone := ContactFor(s, phone, profileName)])
  }

  /** The conversation a message is recorded in is open. */
  function Opened(s: Store, phone: Text, profileName: Option<Text>): Store {
    Refreshed(s, phone, profileName).(threads := Placed(s.threads, IndexFor(s, phone), ThreadFor(s, phone)))
  }

  /** What a turn's transaction leaves behind. */
  function Committed(s: Store, phone: Text, m: Inbound, o: Outcome): Store {
    var (w, r) := o;
    Store(s.users[phone := w.user],
          Placed(s.threads, IndexFor(s, phone), Replied(ThreadFor(s, phone), m, w.conv, r)),
          w.leads, WrittenBy(s.writers, r.lead, IndexFor(s, phone)))
  }

  function Step(d: Deps, s: Store, e: Event): Store {
    match e
    case Message(phone, profileName, m) =>
      Committed(s, phone, m, Handle(d, WorldFor(s, phone, profileName), m))
    case Paused(phone, profileName) => Opened(s, phone, profileName)
    case Blocked(phone, profileName) => Refreshed(s, phone, profileName)
    case Worked(id, status) =>
      if 1 <= id <= |s.leads| then s.(leads := s.leads[id - 1 := s.leads[id - 1].(status := status)]) else s
    case SyncMarked(id, sync) =>
      if 1 <= id <= |s.leads| then s.(leads := s.leads[id - 1 := s.leads[id - 1].(sync := sync)]) else s
  }

  function Run(d: Deps, events: seq<Event>): Store {
    if events == [] then EMPTY_STORE else Step(d, Run(d, events[..|events| - 1]), events[|events| - 1])
  }

  // ------------------------------------------------------------------
  // The invariant
  // ------------------------------------------------------------------

  predicate TakesHeard(d: Deps, h: Heard, at: Moment) {
    Takes(d, h.message, h.remembered, at)
  }

  /** The validator took one of these messages for this moment, with the day remembered then. */
  ghost predicate TakenFrom(d: Deps, inbox: seq<Heard>, at: Moment) {
    exists i :: 0 <= i < |inbox| && TakesHeard(d, inbox[i], at)
  }

  /** One of these messages named this day. */
  ghost predicate NamedIn(inbox: seq<Heard>, day: Option<Ordinal>) {
    day.Some? ==> exists i :: 0 <= i < |inbox| && DayNamed(inbox[i].message) == day
  }

  /** Whatever day was remembered had been named before, in this conversation. */
  ghost predicate DaysNamed(inbox: seq<Heard>) {
    forall i :: 0 <= i < |inbox| ==> NamedIn(inbox[..i], inbox[i].remembered)
  }

  /** A full row whose time was accepted in the conversation that last wrote it. */
  ghost predicate LeadSafe(d: Deps, s: Store, k: nat)
    requires k < |s.leads| == |s.writers|
  {
    var lead := s.leads[k];
    var author := s.writers[k];
    && Full(lead) && lead.phone in s.users
    && author < |s.threads| && s.threads[author].phone == lead.phone
    && TakenFrom(d, s.threads[author].inbox, lead.preferredTime.value)
  }

  /** An open conversation is sound and has written nothing; any conversation writes at most once. */
  ghost predicate ThreadSafe(d: Deps, users: map<Text, Contact>, leads: seq<Lead>, t: Thread) {
    && t.phone in users && |t.writes| <= 1 && DaysNamed(t.inbox)
    && (t.open ==>
          t.writes == [] && Sound(World(t.conv, users[t.phone], leads)) && NamedIn(t.inbox, t.conv.form.pendingDate)
          && (t.conv.form.pendingTime.Some? ==> TakenFrom(d, t.inbox, t.conv.form.pendingTime.value)))
  }

  ghost predicate UsersSafe(users: map<Text, Contact>, leads: seq<Lead>) {
    forall p :: p in users ==> users[p].phone == p && NamedIfBooked(users[p], leads)
  }

  ghost predicate Safe(d: Deps, s: Store) {
    && |s.writers| == |s.leads| && UsersSafe(s.users, s.leads)
    && (forall k :: 0 <= k < |s.leads| ==> LeadSafe(d, s, k))
    && (forall t :: 0 <= t < |s.threads| ==> ThreadSafe(d, s.users, s.leads, s.threads[t]))
  }

  /** Rows are only added, and no row changes hands. */
  predicate Grown(before: seq<Lead>, after: seq<Lead>) {
    |before| <= |after| && forall k :: 0 <= k < |before| ==> after[k].phone == before[k].phone
  }

  /** What other conversations do leaves this one sound. */
  lemma SoundThroughout(c: Conv, user: Contact, after: Contact, leads: seq<Lead>, grown: seq<Lead>)
    requires Sound(World(c, user, leads)) && SameContact(user, after)
    requires Grown(leads, grown) && NamedIfBooked(after, grown)
    ensures Sound(World(c, after, grown))
  {
  }

  /** The world a message is handled in is sound. */
  lemma TurnStartsSound(d: Deps, s: Store, phone: Text, profileName: Option<Text>)
    requires Safe(d, s)
    ensures Sound(WorldFor(s, phone, profileName))
    ensures ContactFor(s, phone, profileName).phone == phone
    ensures ThreadFor(s, phone).open && ThreadFor(s, phone).phone == phone && ThreadFor(s, phone).writes == []
    ensures var t := ThreadFor(s, phone);
      && DaysNamed(t.inbox) && NamedIn(t.inbox, t.conv.form.pendingDate)
      && (t.conv.form.pendingTime.Some? ==> TakenFrom(d, t.inbox, t.conv.form.pendingTime.value))
  {
    var user := ContactFor(s, phone, profileName);
    assert NamedIfBooked(user, s.leads) by {
      forall k | 0 <= k < |s.leads| && s.leads[k].phone == user.phone
        ensures user.name.Some?
      {
        assert LeadSafe(d, s, k);
      }
    }
    var k := ActiveAmong(s.threads, phone);
    if k.Some? {
      assert ThreadSafe(d, s.users, s.leads, s.threads[k.value]);
      SoundThroughout(s.threads[k.value].conv, s.users[phone], user, s.leads, s.leads);
    }
  }

  /** The lead rule seen from the table: rows only grow, and the one row written is full. */
  lemma LeadRuleGrows(w: World, o: Outcome)
    requires Sound(w) && LeadRule(w, o)
    ensures Grown(w.leads, o.0.leads)
    ensures o.1.lead.Some? ==> 1 <= o.1.lead.value <= |w.leads| + 1 && o.1.lead.value <= |o.0.leads|
    ensures forall k :: 0 <= k < |o.0.leads| && Some(k + 1) != o.1.lead ==> k < |w.leads| && o.0.leads[k] == w.leads[k]
    ensures o.1.lead.None? ==> |o.0.leads| == |w.leads|
    ensures o.1.lead.Some? ==> |o.0.leads| == if o.1.lead.value <= |w.leads| then |w.leads| else |w.leads| + 1
  {
    if o.1.lead.Some? && w.conv.form.rescheduleLead.None? {
      assert forall k :: 0 <= k < |w.leads| ==> o.0.leads[k] == o.0.leads[..|w.leads|][k];
    }
  }

  lemma WrittenRowIsFull(w: World, o: Outcome)
    requires Sound(w) && LeadRule(w, o) && o.1.lead.Some?
    requires forall k :: 0 <= k < |w.leads| ==> Full(w.leads[k])
    ensures var id := o.1.lead.value;
      && 1 <= id <= |o.0.leads| && Full(o.0.leads[id - 1]) && o.0.leads[id - 1].phone == w.user.phone
      && o.0.leads[id - 1].preferredTime == w.conv.form.pendingTime
  {
  }

  lemma TakenAlsoLater(d: Deps, inbox: seq<Heard>, h: Heard, at: Moment)
    ensures TakenFrom(d, inbox, at) ==> TakenFrom(d, inbox + [h], at)
    ensures TakesHeard(d, h, at) ==> TakenFrom(d, inbox + [h], at)
  {
    if TakenFrom(d, inbox, at) {
      var i :| 0 <= i < |inbox| && TakesHeard(d, inbox[i], at);
      assert (inbox + [h])[i] == inbox[i];
    }
    if TakesHeard(d, h, at) {
      assert (inbox + [h])[|inbox|] == h;
    }
  }

  /** A turn keeps it that remembered days were named before. */
  lemma DaysNamedLater(inbox: seq<Heard>, h: Heard, after: Option<Ordinal>)
    requires DaysNamed(inbox) && NamedIn(inbox, h.remembered)
    requires after.Some? ==> after == h.remembered || after == DayNamed(h.message)
    ensures DaysNamed(inbox + [h]) && NamedIn(inbox + [h], after)
  {
    var more := inbox + [h];
    forall i | 0 <= i < |more| ensures NamedIn(more[..i], more[i].remembered) {
      assert more[..i] == if i < |inbox| then inbox[..i] else inbox;
    }
    if after.Some? && after == h.remembered {
      var i :| 0 <= i < |inbox| && DayNamed(inbox[i].message) == after;
      assert more[i] == inbox[i];
    } else if after.Some? {
      assert more[|inbox|] == h;
    }
  }

  lemma CommitKeepsUsers(d: Deps, s: Store, phone: Text, profileName: Option<Text>, m: Inbound, o: Outcome)
    requires Safe(d, s) && Keeps(d, WorldFor(s, phone, profileName), m, o)
    ensures var after := Committed(s, phone, m, o); UsersSafe(after.users, after.leads)
  {
    TurnStartsSound(d, s, phone, profileName);
    var w := WorldFor(s, phone, profileName);
    LeadRuleGrows(w, o);
    var users := s.users[phone := o.0.user];
    forall p | p in users
      ensures users[p].phone == p && NamedIfBooked(users[p], o.0.leads)
    {
      if p != phone {
        OtherContact(s.users[p], w, o);
      }
    }
  }

  /** A turn writes only rows of its own contact. */
  lemma OtherContact(user: Contact, w: World, o: Outcome)
    requires Sound(w) && LeadRule(w, o) && NamedIfBooked(user, w.leads) && user.phone != w.user.phone
    ensures NamedIfBooked(user, o.0.leads)
  {
    LeadRuleGrows(w, o);
    forall k | 0 <= k < |o.0.leads| && o.0.leads[k].phone == user.phone
      ensures user.name.Some?
    {
      if Some(k + 1) != o.1.lead {
        assert w.leads[k].phone == user.phone;
      }
    }
  }

  lemma CommitKeepsThreads(d: Deps, s: Store, phone: Text, profileName: Option<Text>, m: Inbound, o: Outcome)
    requires Safe(d, s) && Keeps(d, WorldFor(s, phone, profileName), m, o)
    ensures var after := Committed(s, phone, m, o);
      forall t :: 0 <= t < |after.threads| ==> ThreadSafe(d, after.users, after.leads, after.threads[t])
  {
    TurnStartsSound(d, s, phone, profileName);
    CommitKeepsUsers(d, s, phone, profileName, m, o);
    var thread := ThreadFor(s, phone);
    var w := WorldFor(s, phone, profileName);
    LeadRuleGrows(w, o);
    var after := Committed(s, phone, m, o);
    var own := IndexFor(s, phone);
    forall t | 0 <= t < |after.threads|
      ensures ThreadSafe(d, after.users, after.leads, after.threads[t])
    {
      if t == own {
        OwnThreadSafe(d, thread, w, m, o, after.users);
      } else {
        OtherThreadSafe(d, s, after, s.threads[t]);
      }
    }
  }

  lemma OwnThreadSafe(d: Deps, thread: Thread, w: World, m: Inbound, o: Outcome, users: map<Text, Contact>)
    requires thread.open && thread.writes == [] && thread.conv == w.conv && thread.phone in users
    requires Keeps(d, w, m, o) && users[thread.phone] == o.0.user
    requires w.conv.form.pendingTime.Some? ==> TakenFrom(d, thread.inbox, w.conv.form.pendingTime.value)
    requires DaysNamed(thread.inbox) && NamedIn(thread.inbox, w.conv.form.pendingDate)
    ensures ThreadSafe(d, users, o.0.leads, Replied(thread, m, o.0.conv, o.1))
  {
    var h := Heard(m, w.conv.form.pendingDate);
    DaysNamedLater(thread.inbox, h, o.0.conv.form.pendingDate);
    if o.0.conv.form.pendingTime.Some? {
      TakenAlsoLater(d, thread.inbox, h, o.0.conv.form.pendingTime.value);
    }
    assert World(o.0.conv, o.0.user, o.0.leads) == o.0;
  }

  lemma OtherThreadSafe(d: Deps, s: Store, after: Store, t: Thread)
    requires ThreadSafe(d, s.users, s.leads, t) && UsersSafe(after.users, after.leads)
    requires Grown(s.leads, after.leads)
    requires t.phone in after.users && SameContact(s.users[t.phone], after.users[t.phone])
    ensures ThreadSafe(d, after.users, after.leads, t)
  {
    if t.open {
      SoundThroughout(t.conv, s.users[t.phone], after.users[t.phone], s.leads, after.leads);
    }
  }

  lemma CommitKeepsLeads(d: Deps, s: Store, phone: Text, profileName: Option<Text>, m: Inbound, o: Outcome)
    requires Safe(d, s) && Keeps(d, WorldFor(s, phone, profileName), m, o)
    ensures var after := Committed(s, phone, m, o);
      |after.writers| == |after.leads| && forall k :: 0 <= k < |after.leads| ==> LeadSafe(d, after, k)
  {
    var after := Committed(s, phone, m, o);
    EveryRowHasAWriter(d, s, phone, profileName, m, o);
    TurnStartsSound(d, s, phone, profileName);
    forall k | 0 <= k < |after.leads|
      ensures LeadSafe(d, after, k)
    {
      if Some(k + 1) == o.1.lead {
        WrittenRowSafe(d, s, phone, profileName, m, o, k);
      } else {
        OtherRowStays(WorldFor(s, phone, profileName), o, k);
        RowStaysSafe(d, s, phone, m, o, k);
      }
    }
  }

  lemma OtherRowStays(w: World, o: Outcome, k: nat)
    requires Sound(w) && LeadRule(w, o) && k < |o.0.leads| && Some(k + 1) != o.1.lead
    ensures k < |w.leads| && o.0.leads[k] == w.leads[k]
  {
    LeadRuleGrows(w, o);
  }

  lemma EveryRowHasAWriter(d: Deps, s: Store, phone: Text, profileName: Option<Text>, m: Inbound, o: Outcome)
    requires Safe(d, s) && Keeps(d, WorldFor(s, phone, profileName), m, o)
    ensures |Committed(s, phone, m, o).writers| == |o.0.leads|
  {
    TurnStartsSound(d, s, phone, profileName);
    LeadRuleGrows(WorldFor(s, phone, profileName), o);
  }

  /** A turn leaves every other conversation alone and only adds its message to its own. */
  lemma ThreadsStay(s: Store, phone: Text, m: Inbound, o: Outcome, t: nat)
    requires t < |s.threads|
    ensures var after, h := Committed(s, phone, m, o), Heard(m, ThreadFor(s, phone).conv.form.pendingDate);
      && |s.threads| <= |after.threads| && after.threads[t].phone == s.threads[t].phone
      && (after.threads[t].inbox == s.threads[t].inbox || after.threads[t].inbox == s.threads[t].inbox + [h])
  {
  }

  lemma RowStaysSafe(d: Deps, s: Store, phone: Text, m: Inbound, o: Outcome, k: nat)
    requires |s.leads| == |s.writers| && k < |s.leads| && LeadSafe(d, s, k)
    requires k < |o.0.leads| && o.0.leads[k] == s.leads[k] && Some(k + 1) != o.1.lead
    requires |Committed(s, phone, m, o).writers| == |o.0.leads|
    ensures LeadSafe(d, Committed(s, phone, m, o), k)
  {
    var after := Committed(s, phone, m, o);
    ThreadsStay(s, phone, m, o, s.writers[k]);
    WriterStays(s, phone, m, o, k);
    OldLeadSafe(d, s, after, k, Heard(m, ThreadFor(s, phone).conv.form.pendingDate));
  }

  lemma WriterStays(s: Store, phone: Text, m: Inbound, o: Outcome, k: nat)
    requires k < |s.writers| && Some(k + 1) != o.1.lead
    ensures var after := Committed(s, phone, m, o);
      k < |after.writers| && after.writers[k] == s.writers[k] && s.users.Keys <= after.users.Keys
  {
  }

  lemma WrittenRowSafe(
      d: Deps, s: Store, phone: Text, profileName: Option<Text>, m: Inbound, o: Outcome, k: nat)
    requires Safe(d, s) && Keeps(d, WorldFor(s, phone, profileName), m, o)
    requires k < |o.0.leads| && Some(k + 1) == o.1.lead
    requires |Committed(s, phone, m, o).writers| == |o.0.leads|
    ensures LeadSafe(d, Committed(s, phone, m, o), k)
  {
    var w := WorldFor(s, phone, profileName);
    TurnStartsSound(d, s, phone, profileName);
    forall j | 0 <= j < |s.leads| ensures Full(s.leads[j]) { assert LeadSafe(d, s, j); }
    WrittenRowIsFull(w, o);
    var thread := ThreadFor(s, phone);
    var h := Heard(m, thread.conv.form.pendingDate);
    TakenAlsoLater(d, thread.inbox, h, w.conv.form.pendingTime.value);
    assert Committed(s, phone, m, o).writers[k] == IndexFor(s, phone);
    assert Committed(s, phone, m, o).threads[IndexFor(s, phone)].inbox == thread.inbox + [h];
  }

  lemma OldLeadSafe(d: Deps, s: Store, after: Store, k: nat, h: Heard)
    requires k < |s.leads| == |s.writers| && k < |after.leads| == |after.writers|
    requires LeadSafe(d, s, k) && after.leads[k] == s.leads[k] && after.writers[k] == s.writers[k]
    requires s.users.Keys <= after.users.Keys && |s.threads| <= |after.threads|
    requires var author := s.writers[k];
      && after.threads[author].phone == s.threads[author].phone
      && (after.threads[author].inbox == s.threads[author].inbox
          || after.threads[author].inbox == s.threads[author].inbox + [h])
    ensures LeadSafe(d, after, k)
  {
    TakenAlsoLater(d, s.threads[s.writers[k]].inbox, h, s.leads[k].preferredTime.value);
  }

  lemma WorkKeepsSafe(d: Deps, s: Store, k: nat, lead: Lead)
    requires Safe(d, s) && k < |s.leads|
    requires lead == s.leads[k].(status := lead.status, sync := lead.sync)
    ensures Safe(d, s.(leads := s.leads[k := lead]))
  {
    var after := s.(leads := s.leads[k := lead]);
    assert forall j :: 0 <= j < |after.leads| ==> after.leads[j].phone == s.leads[j].phone;
    forall j | 0 <= j < |after.leads| ensures LeadSafe(d, after, j) { assert LeadSafe(d, s, j); }
    forall p | p in s.users ensures NamedIfBooked(s.users[p], after.leads) {
      forall j | 0 <= j < |after.leads| && after.leads[j].phone == s.users[p].phone ensures s.users[p].name.Some? {
        assert s.leads[j].phone == s.users[p].phone;
      }
    }
    forall t | 0 <= t < |s.threads| ensures ThreadSafe(d, after.users, after.leads, s.threads[t]) {
      OtherThreadSafe(d, s, after, s.threads[t]);
    }
  }

  /** Of a contact only the name on WhatsApp may have changed. */
  lemma RefreshKeepsSafe(d: Deps, s: Store, phone: Text, profileName: Option<Text>)
    requires Safe(d, s)
    ensures Safe(d, Refreshed(s, phone, profileName))
  {
    var after := Refreshed(s, phone, profileName);
    TurnStartsSound(d, s, phone, profileName);
    forall k | 0 <= k < |s.leads| ensures LeadSafe(d, after, k) { assert LeadSafe(d, s, k); }
    forall t | 0 <= t < |s.threads| ensures ThreadSafe(d, after.users, after.leads, s.threads[t]) {
      OtherThreadSafe(d, s, after, s.threads[t]);
    }
  }

  lemma OpenKeepsSafe(d: Deps, s: Store, phone: Text, profileName: Option<Text>)
    requires Safe(d, s)
    ensures Safe(d, Opened(s, phone, profileName))
  {
    var refreshed, after := Refreshed(s, phone, profileName), Opened(s, phone, profileName);
    RefreshKeepsSafe(d, s, phone, profileName);
    TurnStartsSound(d, s, phone, profileName);
    forall k | 0 <= k < |s.leads| ensures LeadSafe(d, after, k) { assert LeadSafe(d, refreshed, k); }
    forall t | 0 <= t < |after.threads| ensures ThreadSafe(d, after.users, after.leads, after.threads[t]) {
      if t < |s.threads| {
        assert after.threads[t] == s.threads[t];
        assert ThreadSafe(d, refreshed.users, refreshed.leads, refreshed.threads[t]);
      }
    }
  }

  lemma StepKeepsSafe(d: Deps, s: Store, e: Event)
    requires Safe(d, s)
    ensures Safe(d, Step(d, s, e))
  {
    match e
    case Message(phone, profileName, m) =>
      var w := WorldFor(s, phone, profileName);
      var o := Handle(d, w, m);
      TurnStartsSound(d, s, phone, profileName);
      TurnKeeps(d, w, m);
      CommitKeepsUsers(d, s, phone, profileName, m, o);
      CommitKeepsLeads(d, s, phone, profileName, m, o);
      CommitKeepsThreads(d, s, phone, profileName, m, o);
    case Paused(phone, profileName) => OpenKeepsSafe(d, s, phone, profileName);
    case Blocked(phone, profileName) => RefreshKeepsSafe(d, s, phone, profileName);
    case Worked(id, status) =>
      if 1 <= id <= |s.leads| { WorkKeepsSafe(d, s, id - 1, s.leads[id - 1].(status := status)); }
    case SyncMarked(id, sync) =>
      if 1 <= id <= |s.leads| { WorkKeepsSafe(d, s, id - 1, s.leads[id - 1].(sync := sync)); }
  }

  lemma {:induction false} RunsAreSafe(d: Deps, events: seq<Event>)
    ensures Safe(d, Run(d, events))
  {
    if events != [] {
      RunsAreSafe(d, events[..|events| - 1]);
      StepKeepsSafe(d, Run(d, events[..|events| - 1]), events[|events| - 1]);
    }
  }

  // ------------------------------------------------------------------
  // What every run guarantees
  // ------------------------------------------------------------------

  /** Every lead ever written has a name and a time, a support lead also an email and a course;
  and its time was accepted from a message of the conversation that wrote it, which is the
  contact's own, read with the day remembered there, which an earlier message had named. */
  lemma EveryLeadIsFull(d: Deps, events: seq<Event>, k: nat)
    requires k < |Run(d, events).leads|
    ensures var s := Run(d, events);
      && Full(s.leads[k]) && |s.writers| == |s.leads| && s.writers[k] < |s.threads|
      && s.threads[s.writers[k]].phone == s.leads[k].phone
      && TakenFrom(d, s.threads[s.writers[k]].inbox, s.leads[k].preferredTime.value)
      && DaysNamed(s.threads[s.writers[k]].inbox)
      && s.leads[k].phone in s.users && s.users[s.leads[k].phone].name.Some?
  {
    RunsAreSafe(d, events);
    var s := Run(d, events);
    assert LeadSafe(d, s, k);
    assert ThreadSafe(d, s.users, s.leads, s.threads[s.writers[k]]);
    assert s.users[s.leads[k].phone].phone == s.leads[k].phone;
  }

  /** Every lead's time is one at which the office takes calls, and it lay ahead of the message
  that asked for it, in that lead's own conversation, by the lead time less a minute. */
  lemma EveryLeadTimeIsBookable(d: Deps, events: seq<Event>, k: nat) returns (asked: Heard)
    requires d.validator.Sane() && k < |Run(d, events).leads|
    ensures var s := Run(d, events);
      && |s.writers| == |s.leads| && s.writers[k] < |s.threads| && asked in s.threads[s.writers[k]].inbox
      && s.leads[k].preferredTime.Some?
      && var at := s.leads[k].preferredTime.value;
         && TakesHeard(d, asked, at)
         && d.validator.Bookable(at) && Instant(asked.message.now) + d.validator.minLead - Minutes(1) < Instant(at)
  {
    EveryLeadIsFull(d, events, k);
    var s := Run(d, events);
    asked := TakenIsBookable(d, s.threads[s.writers[k]].inbox, s.leads[k].preferredTime.value);
  }

  lemma TakenIsBookable(d: Deps, inbox: seq<Heard>, at: Moment) returns (asked: Heard)
    requires d.validator.Sane() && TakenFrom(d, inbox, at)
    ensures asked in inbox && TakesHeard(d, asked, at) && d.validator.Bookable(at)
    ensures Instant(asked.message.now) + d.validator.minLead - Minutes(1) < Instant(at)
  {
    var i :| 0 <= i < |inbox| && TakesHeard(d, inbox[i], at);
    asked := inbox[i];
    SchedulingLaws.ParsedSlotIsSound(d.validator, asked.message.text, asked.message.now, asked.remembered);
  }

  /** A conversation writes at most one lead in its life, and none while it is open; and a
  booking an open conversation is moving is always there and the contact's own. */
  lemma ConversationsWriteOnce(d: Deps, events: seq<Event>, t: nat)
    requires t < |Run(d, events).threads|
    ensures var s := Run(d, events);
      var thread := s.threads[t];
      && |thread.writes| <= 1 && (thread.open ==> thread.writes == [])
      && (thread.open && thread.conv.form.rescheduleLead.Some? ==>
            var id := thread.conv.form.rescheduleLead.value;
            1 <= id <= |s.leads| && s.leads[id - 1].phone == thread.phone)
  {
    RunsAreSafe(d, events);
    var s := Run(d, events);
    assert ThreadSafe(d, s.users, s.leads, s.threads[t]);
    assert s.users[s.threads[t].phone].phone == s.threads[t].phone;
  }

  /** What one message in this conversation does to the lead table, given what it has written:
  nothing; or one new row; or, when the conversation was moving a booking, a new time for that
  row and no new row. */
  predicate WritesByTheRule(c: Conv, writes: seq<nat>, phone: Text, before: seq<Lead>, after: seq<Lead>) {
    if writes == [] then after == before
    else
      var id := writes[0];
      && c.form.pendingTime.Some?
      && match c.form.rescheduleLead
         case Some(moved) =>
           && id == moved && 1 <= id <= |before| && before[id - 1].phone == phone
           && after == before[
                id - 1 := before[id - 1].(
                  preferredTime := c.form.pendingTime,
                  preferredTimeRaw := OrElse(c.form.pendingTimeRaw, before[id - 1].preferredTimeRaw),
                  sync := Pending)]
         case None =>
           && |after| == |before| + 1 == id && after[..id - 1] == before
           && after[id - 1].phone == phone && after[id - 1].preferredTime == c.form.pendingTime
           && after[id - 1].kind == c.leadType.GetOr(PreSales)
  }

  predicate LeadsAfterMessage(before: Store, after: Store, phone: Text) {
    var k := IndexFor(before, phone);
    k < |after.threads| &&
    WritesByTheRule(ThreadFor(before, phone).conv, after.threads[k].writes, phone, before.leads, after.leads)
  }

  function Writes(r: TurnResult): seq<nat> {
    if r.lead.Some? then [r.lead.value] else []
  }

  lemma OutcomeWritesByTheRule(w: World, o: Outcome)
    requires LeadRule(w, o)
    ensures WritesByTheRule(w.conv, Writes(o.1), w.user.phone, w.leads, o.0.leads)
  {
  }

  lemma CommitWritesByTheRule(s: Store, phone: Text, profileName: Option<Text>, m: Inbound, o: Outcome)
    requires ThreadFor(s, phone).writes == [] && LeadRule(WorldFor(s, phone, profileName), o)
    requires ContactFor(s, phone, profileName).phone == phone
    ensures LeadsAfterMessage(s, Committed(s, phone, m, o), phone)
  {
    OutcomeWritesByTheRule(WorldFor(s, phone, profileName), o);
    assert Committed(s, phone, m, o).threads[IndexFor(s, phone)].writes == Writes(o.1);
  }

  /** In every reachable store a message changes the lead table by this rule; in particular a
  finishing reschedule never adds a row, so its fallback for a vanished booking is never taken. */
  lemma MessagesWriteByTheRule(d: Deps, events: seq<Event>, phone: Text, profileName: Option<Text>, m: Inbound)
    ensures var s := Run(d, events); LeadsAfterMessage(s, Step(d, s, Message(phone, profileName, m)), phone)
  {
    RunsAreSafe(d, events);
    var s := Run(d, events);
    var w := WorldFor(s, phone, profileName);
    TurnStartsSound(d, s, phone, profileName);
    TurnKeeps(d, w, m);
    CommitWritesByTheRule(s, phone, profileName, m, Handle(d, w, m));
  }
}
