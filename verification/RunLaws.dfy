/** From one message to the next: no contact ever has two open conversations, and what a message
leaves is what the contact's next message finds. */
module RunLaws {
  import opened Wrappers
  import opened Calendar
  import opened Domain
  import opened Funnel
  import opened FunnelRuns

  predicate OneOpenEach(threads: seq<Thread>) {
    forall i, j :: 0 <= i < j < |threads| && threads[i].open && threads[j].open ==> threads[i].phone != threads[j].phone
  }

  predicate OpenFor(t: Thread, phone: Text) {
    t.open && t.phone == phone
  }

  lemma FoundIs(threads: seq<Thread>, phone: Text, found: Option<nat>)
    requires found.Some? ==> found.value < |threads| && OpenFor(threads[found.value], phone)
    requires forall j :: 0 <= j < |threads| && OpenFor(threads[j], phone) ==> found.Some? && j <= found.value
    ensures ActiveAmong(threads, phone) == found
  {
    var k := ActiveAmong(threads, phone);
    assert k.Some? ==> OpenFor(threads[k.value], phone);
  }

  predicate OnlyOpen(threads: seq<Thread>, phone: Text, k: nat) {
    forall j :: 0 <= j < |threads| && j != k ==> !OpenFor(threads[j], phone)
  }

  /** Only the conversation found is open for this contact. */
  lemma OnlyFoundIsOpen(threads: seq<Thread>, phone: Text)
    requires OneOpenEach(threads)
    ensures OnlyOpen(threads, phone, ActiveAmong(threads, phone).GetOr(|threads|))
  {
  }

  lemma PlacedStaysOnly(threads: seq<Thread>, k: nat, t: Thread)
    requires k <= |threads| && OnlyOpen(threads, t.phone, k)
    ensures OnlyOpen(Placed(threads, k, t), t.phone, k)
    ensures OneOpenEach(threads) ==> OneOpenEach(Placed(threads, k, t))
  {
    var after := Placed(threads, k, t);
    forall j | 0 <= j < |after| && j != k ensures j < |threads| && after[j] == threads[j] {}
  }

  /** Putting back the conversation that was found, or a new one when none was. */
  lemma PlacedIsFound(threads: seq<Thread>, t: Thread)
    requires OneOpenEach(threads)
    ensures var k := ActiveAmong(threads, t.phone).GetOr(|threads|);
      && OneOpenEach(Placed(threads, k, t))
      && ActiveAmong(Placed(threads, k, t), t.phone) == if t.open then Some(k) else None
  {
    var k := ActiveAmong(threads, t.phone).GetOr(|threads|);
    OnlyFoundIsOpen(threads, t.phone);
    PlacedStaysOnly(threads, k, t);
    FoundIs(Placed(threads, k, t), t.phone, if t.open then Some(k) else None);
  }

  lemma OthersAreFound(threads: seq<Thread>, t: Thread, phone: Text)
    requires phone != t.phone
    ensures var k := ActiveAmong(threads, t.phone).GetOr(|threads|);
      ActiveAmong(Placed(threads, k, t), phone) == ActiveAmong(threads, phone)
  {
    var k := ActiveAmong(threads, t.phone).GetOr(|threads|);
    var found := ActiveAmong(threads, phone);
    assert found.Some? ==> OpenFor(threads[found.value], phone);
    FoundIs(Placed(threads, k, t), phone, found);
  }

  /** The conversation this contact's next message is handled in. */
  function TalkOf(s: Store, phone: Text): Conv {
    ThreadFor(s, phone).conv
  }

  lemma StepKeepsOneOpen(d: Deps, s: Store, e: Event)
    requires OneOpenEach(s.threads)
    ensures OneOpenEach(Step(d, s, e).threads)
  {
    match e
    case Message(phone, profileName, m) =>
      var (w, r) := Handle(d, WorldFor(s, phone, profileName), m);
      PlacedIsFound(s.threads, Replied(ThreadFor(s, phone), m, w.conv, r));
    case Paused(phone, _) => PlacedIsFound(s.threads, ThreadFor(s, phone));
    case _ =>
  }

  /** In every run a contact has at most one open conversation. */
  lemma {:induction false} OneConversationEach(d: Deps, events: seq<Event>)
    ensures OneOpenEach(Run(d, events).threads)
  {
    if events != [] {
      OneConversationEach(d, events[..|events| - 1]);
      StepKeepsOneOpen(d, Run(d, events[..|events| - 1]), events[|events| - 1]);
    }
  }

  lemma CommitIsFound(s: Store, phone: Text, m: Inbound, o: Outcome, other: Text)
    requires OneOpenEach(s.threads)
    ensures TalkOf(Committed(s, phone, m, o), other) ==
      if other != phone then TalkOf(s, other) else if o.1.close then NEW_CONVERSATION else o.0.conv
  {
    var t := Replied(ThreadFor(s, phone), m, o.0.conv, o.1);
    if other == phone {
      PlacedIsFound(s.threads, t);
    } else {
      OthersAreFound(s.threads, t, other);
    }
  }

  lemma RecordIsFound(s: Store, phone: Text, profileName: Option<Text>, other: Text)
    requires OneOpenEach(s.threads)
    ensures TalkOf(Opened(s, phone, profileName), other) == TalkOf(s, other)
  {
    var t := ThreadFor(s, phone);
    if other == phone {
      PlacedIsFound(s.threads, t);
    } else {
      OthersAreFound(s.threads, t, other);
    }
  }

  /** What an event leaves for this contact's next message. */
  predicate Leaves(d: Deps, s: Store, e: Event, t: Store, phone: Text) {
    if e.Message? then
      var o := Handle(d, WorldFor(s, e.phone, e.profileName), e.inbound);
      && t.leads == o.0.leads && t.users == s.users[e.phone := o.0.user]
      && TalkOf(t, phone) ==
           if phone != e.phone then TalkOf(s, phone) else if o.1.close then NEW_CONVERSATION else o.0.conv
    else TalkOf(t, phone) == TalkOf(s, phone) && |t.leads| == |s.leads|
  }

  /** In every run: what the machine makes of a message - its contact, the leads, and the conversation
  - is what the contact's next message finds, with a new conversation once one has ended. Everything
  else leaves every conversation alone: other contacts' messages, those an agent answers or a block
  swallows, counselors' work and the sheet. */
  lemma NextMessageFinds(d: Deps, events: seq<Event>, e: Event, phone: Text)
    ensures Leaves(d, Run(d, events), e, Run(d, events + [e]), phone)
  {
    assert (events + [e])[..|events|] == events;
    OneConversationEach(d, events);
    var s := Run(d, events);
    match e
    case Message(sender, profileName, m) =>
      CommitIsFound(s, sender, m, Handle(d, WorldFor(s, sender, profileName), m), phone);
    case Paused(sender, profileName) => RecordIsFound(s, sender, profileName, phone);
    case _ =>
  }
}
