/** The inbox component: refs and caches that asynchronous callbacks change in place. Each
callback is split where it awaits the server. */
module Inbox {
  import opened Wrappers
  import opened Handover
  import opened ConsoleProtocol

  datatype Message = Message(id: nat, text: string)

  /** What is drawn of one thread, and which messages it has seen. */
  datatype Cached = Cached(messages: seq<Message>, lastId: nat, seen: set<nat>)

  const EMPTY_THREAD := Cached([], 0, {})

  predicate Distinct(messages: seq<Message>) {
    forall i, j :: 0 <= i < j < |messages| ==> messages[i].id != messages[j].id
  }

  function Ids(messages: seq<Message>): set<nat> {
    set m | m in messages :: m.id
  }

  predicate Holds(c: Cached) {
    && Distinct(c.messages) && c.seen == Ids(c.messages)
    && (forall i :: 0 <= i < |c.messages| ==> c.messages[i].id <= c.lastId)
    && (if c.messages == [] then c.lastId == 0 else c.lastId in c.seen)
  }

  function Draw(c: Cached, m: Message): Cached {
    if m.id in c.seen then c
    else Cached(c.messages + [m], if c.lastId < m.id then m.id else c.lastId, c.seen + {m.id})
  }

  function DrawAll(c: Cached, data: seq<Message>): Cached {
    if data == [] then c else Draw(DrawAll(c, data[..|data| - 1]), data[|data| - 1])
  }

  lemma DrawHolds(c: Cached, m: Message)
    requires Holds(c)
    ensures Holds(Draw(c, m)) && c.messages <= Draw(c, m).messages
  {
    if m.id !in c.seen {
      IdsOneMore(c.messages, m);
      forall i | 0 <= i < |c.messages| ensures c.messages[i].id != m.id {
        assert c.messages[i].id in Ids(c.messages);
      }
    }
  }

  /** However deliveries overlap or repeat, a message is drawn once, in order of arrival, nothing
  drawn is lost, and the next fetch asks from the newest one on. */
  lemma {:induction false} ThreadHolds(c: Cached, data: seq<Message>)
    requires Holds(c)
    ensures Holds(DrawAll(c, data)) && c.messages <= DrawAll(c, data).messages
  {
    if data != [] {
      ThreadHolds(c, data[..|data| - 1]);
      DrawHolds(DrawAll(c, data[..|data| - 1]), data[|data| - 1]);
    }
  }

  /** Everything delivered is seen. */
  lemma {:induction false} ThreadSeesAll(c: Cached, data: seq<Message>)
    ensures DrawAll(c, data).seen == c.seen + Ids(data)
  {
    if data != [] {
      var last := |data| - 1;
      ThreadSeesAll(c, data[..last]);
      IdsOneMore(data[..last], data[last]);
      assert data[..last] + [data[last]] == data;
    }
  }

  /** What is drawn is what was delivered, identifier and text: nothing else is drawn, and of each
  identifier not seen before the first message delivered with it is. */
  lemma {:induction false} DrawnAsDelivered(c: Cached, data: seq<Message>)
    ensures forall m :: m in DrawAll(c, data).messages ==> m in c.messages || m in data
    ensures forall m :: m in c.messages ==> m in DrawAll(c, data).messages
    ensures forall i :: 0 <= i < |data| && data[i].id !in c.seen && data[i].id !in Ids(data[..i]) ==>
      data[i] in DrawAll(c, data).messages
  {
    if data != [] {
      var n := |data| - 1;
      DrawnAsDelivered(c, data[..n]);
      ThreadSeesAll(c, data[..n]);
      assert data == data[..n] + [data[n]];
      forall i | 0 <= i < |data| && data[i].id !in c.seen && data[i].id !in Ids(data[..i])
        ensures data[i] in DrawAll(c, data).messages
      {
        if i < n {
          assert data[..n][..i] == data[..i];
          assert data[..n][i] in DrawAll(c, data[..n]).messages;
        }
      }
    }
  }

  lemma IdsOneMore(messages: seq<Message>, m: Message)
    ensures Ids(messages + [m]) == Ids(messages) + {m.id}
  {
    assert m in messages + [m];
  }

  /** Delivering the same messages again draws nothing. */
  lemma {:induction false} RedeliveryDrawsNothing(c: Cached, data: seq<Message>)
    requires forall k :: 0 <= k < |data| ==> data[k].id in c.seen
    ensures DrawAll(c, data) == c
  {
    if data != [] {
      RedeliveryDrawsNothing(c, data[..|data| - 1]);
      assert data[|data| - 1].id in c.seen;
    }
  }

  // ------------------------------------------------------------------
  // Outstanding fetches of threads
  // ------------------------------------------------------------------

  /** The flag the component keeps, and the fetches really out: true for a full one. */
  datatype Fetches = Fetches(fetching: bool, out: seq<bool>)

  datatype FetchAction = Leave(full: bool) | Return(k: nat)

  const NO_FETCHES := Fetches(false, [])

  predicate CanFetch(f: Fetches, a: FetchAction) {
    a.Return? ==> a.k < |f.out|
  }

  /** An incremental fetch is not started under the flag; whatever returns clears it. */
  function FetchNext(f: Fetches, a: FetchAction): Fetches
    requires CanFetch(f, a)
  {
    match a
    case Leave(full) => if f.fetching && !full then f else Fetches(true, f.out + [full])
    case Return(k) => Fetches(false, Without(f.out, k))
  }

  predicate Fetchable(actions: seq<FetchAction>)
    decreases |actions|, 0
  {
    actions == [] ||
    (Fetchable(actions[..|actions| - 1]) && CanFetch(Fetched(actions[..|actions| - 1]), actions[|actions| - 1]))
  }

  function Fetched(actions: seq<FetchAction>): Fetches
    requires Fetchable(actions)
    decreases |actions|, 1
  {
    if actions == [] then NO_FETCHES else FetchNext(Fetched(actions[..|actions| - 1]), actions[|actions| - 1])
  }

  /** The flag only remembers the last thing that happened: it is up exactly after a start,
  whether or not that one was let through. */
  lemma FlagIsTheLastAction(actions: seq<FetchAction>)
    requires Fetchable(actions)
    ensures Fetched(actions).fetching <==> actions != [] && actions[|actions| - 1].Leave?
  {
  }

  /** At some moment of the run two incremental fetches were out together. */
  predicate EverOverlap(actions: seq<FetchAction>)
    requires Fetchable(actions)
  {
    actions != [] && (EverOverlap(actions[..|actions| - 1]) || multiset(Fetched(actions).out)[false] >= 2)
  }

  /** At some moment an incremental fetch was started right after an answer, with another still out. */
  predicate EverStartedEarly(actions: seq<FetchAction>)
    requires Fetchable(actions)
  {
    actions != [] &&
    var before := actions[..|actions| - 1];
    || EverStartedEarly(before)
    || (&& actions[|actions| - 1] == Leave(false)
        && before != [] && before[|before| - 1].Return? && false in Fetched(before).out)
  }

  /** At some moment a full fetch was started while another fetch was out. */
  predicate EverOvertaken(actions: seq<FetchAction>)
    requires Fetchable(actions)
  {
    actions != [] &&
    var before := actions[..|actions| - 1];
    EverOvertaken(before) || (actions[|actions| - 1] == Leave(true) && Fetched(before).out != [])
  }

  lemma FetchCounts(f: Fetches, a: FetchAction)
    requires CanFetch(f, a)
    ensures var n := multiset(FetchNext(f, a).out)[false];
      if a == Leave(false) && !f.fetching then n == multiset(f.out)[false] + 1 else n <= multiset(f.out)[false]
  {
    if a.Return? {
      assert f.out == f.out[..a.k] + [f.out[a.k]] + f.out[a.k + 1..];
    }
  }

  lemma AtMostOneYet(actions: seq<FetchAction>)
    requires Fetchable(actions) && !EverOverlap(actions)
    ensures multiset(Fetched(actions).out)[false] <= 1
  {
  }

  lemma {:induction false} IncrementalsOverlapExactlyWhen(actions: seq<FetchAction>)
    requires Fetchable(actions)
    ensures EverOverlap(actions) <==> EverStartedEarly(actions)
  {
    if actions != [] {
      var before, a := actions[..|actions| - 1], actions[|actions| - 1];
      IncrementalsOverlapExactlyWhen(before);
      if !EverOverlap(before) {
        AtMostOneYet(before);
        FlagIsTheLastAction(before);
        FetchCounts(Fetched(before), a);
        assert before == [] ==> Fetched(before).out == [];
      }
    }
  }

  /** As long as no full fetch overtakes another fetch, the flag says whether one is out, at most
  one is, and so no incremental ones ever overlap. */
  lemma {:induction false} OneFetchUnlessOvertaken(actions: seq<FetchAction>)
    requires Fetchable(actions) && !EverOvertaken(actions)
    ensures var f := Fetched(actions); |f.out| <= 1 && (f.fetching <==> f.out != [])
    ensures !EverOverlap(actions)
  {
    if actions != [] {
      OneFetchUnlessOvertaken(actions[..|actions| - 1]);
    }
  }

  lemma FetchedOneMore(actions: seq<FetchAction>, f: Fetches, a: FetchAction) returns (more: seq<FetchAction>)
    requires Fetchable(actions) && Fetched(actions) == f && CanFetch(f, a)
    ensures more == actions + [a] && Fetchable(more) && Fetched(more) == FetchNext(f, a)
  {
    more := actions + [a];
    assert more[..|more| - 1] == actions;
  }

  /** A poll is out; a conversation is opened, and its full fetch returns first and clears the
  flag; the next poll leaves beside the first. */
  lemma IncrementalsCanOverlap() returns (actions: seq<FetchAction>)
    ensures actions == [Leave(false), Leave(true), Return(1), Leave(false)]
    ensures Fetchable(actions) && Fetched(actions).out == [false, false] && EverOverlap(actions)
  {
    actions := FetchedOneMore([], NO_FETCHES, Leave(false));
    actions := FetchedOneMore(actions, Fetches(true, [false]), Leave(true));
    actions := FetchedOneMore(actions, Fetches(true, [false, true]), Return(1));
    actions := FetchedOneMore(actions, Fetches(false, [false]), Leave(false));
  }

  class Console {
    var toggle: Toggle
    var handoverRef: Toggle
    var current: Option<Phone>
    var fetching: bool
    var cache: map<Phone, Cached>

    constructor ()
      ensures toggle == INITIAL && handoverRef == INITIAL && current.None? && !fetching && cache == map[]
    {
      toggle, handoverRef, current, fetching, cache := INITIAL, INITIAL, None, false, map[];
    }

    function Thread(phone: Phone): Cached
      reads this
    {
      if phone in cache then cache[phone] else EMPTY_THREAD
    }

    predicate Valid()
      reads this
    {
      forall phone :: phone in cache ==> Holds(cache[phone])
    }

    /** The console's side of a network state. */
    ghost predicate Shows(s: Net)
      reads this
    {
      s.toggle == toggle && s.rendered == handoverRef && s.current == current
    }

    method Render()
      modifies this`handoverRef
      ensures handoverRef == toggle
    {
      handoverRef := toggle;
    }

    /** Start a fetch: an incremental one does not leave under the flag. */
    method StartRefresh(phone: Phone, full: bool) returns (epoch: Option<nat>)
      modifies this`fetching
      ensures epoch == if old(fetching) && !full then None else Some(handoverRef.epoch)
      ensures fetching == (old(fetching) || epoch.Some?)
    {
      if fetching && !full {
        return None;
      }
      fetching := true;
      epoch := Some(handoverRef.epoch);
    }

    /** A fetch has answered; the contact may have been switched meanwhile. */
    method FinishRefresh(phone: Phone, full: bool, epoch: nat, paused: bool, data: seq<Message>)
      requires Valid()
      modifies this`fetching, this`cache, this`toggle
      ensures Valid() && !fetching
      ensures current != Some(phone) ==> cache == old(cache) && toggle == old(toggle)
      ensures current == Some(phone) ==>
        && toggle == Reduce(old(toggle), Observed(paused, epoch))
        && cache == old(cache)[phone := DrawAll(if full then EMPTY_THREAD else old(Thread(phone)), data)]
    {
      fetching := false;
      if current != Some(phone) {
        return;
      }
      var entry := if full then EMPTY_THREAD else Thread(phone);
      ghost var start := entry;
      for k := 0 to |data|
        invariant entry == DrawAll(start, data[..k])
      {
        assert data[..k + 1][..k] == data[..k];
        if data[k].id in entry.seen {
          continue;
        }
        entry := entry.(seen := entry.seen + {data[k].id});
        entry := entry.(messages := entry.messages + [data[k]]);
        entry := entry.(lastId := if entry.lastId < data[k].id then data[k].id else entry.lastId);
      }
      assert data[..|data|] == data;
      ThreadHolds(start, data);
      cache := cache[phone := entry];
      toggle := Reduce(toggle, Observed(paused, epoch));
    }

    method Open(phone: Phone, row: bool)
      modifies this`current, this`toggle
      ensures current == Some(phone) && toggle == Reduce(old(toggle), Reset(row))
    {
      current := Some(phone);
      toggle := Reduce(toggle, Reset(row));
    }

    /** The click, up to the request it sends; ignored while one is in flight. */
    method StartToggle() returns (request: Option<Post>)
      modifies this`toggle
      ensures request.Some? <==> current.Some? && !Busy(handoverRef)
      ensures request.None? ==> toggle == old(toggle)
      ensures request.Some? ==>
        && toggle == Reduce(old(toggle), Click)
        && request.value == Post(current.value, !Shown(handoverRef), false)
    {
      if current.None? || Busy(handoverRef) {
        return None;
      }
      var want := !Shown(handoverRef);
      toggle := Reduce(toggle, Click);
      request := Some(Post(current.value, want, false));
    }

    method FinishToggle(answer: Option<bool>)
      modifies this`toggle
      ensures toggle == Reduce(old(toggle), if answer.Some? then Confirmed(answer.value) else Failed)
    {
      match answer {
        case Some(paused) => toggle := Reduce(toggle, Confirmed(paused));
        case None => toggle := Reduce(toggle, Failed);
      }
    }
  }

  // ------------------------------------------------------------------
  // The callbacks are the protocol's actions
  // ------------------------------------------------------------------

  /** A click is let through when the protocol allows it, and sends the request of the protocol. */
  method ClickFollowsProtocol(console: Console, ghost s: Net) returns (request: Option<Post>)
    requires console.Shows(s)
    modifies console
    ensures request.Some? <==> Enabled(s, ClickToggle)
    ensures request.None? ==> console.Shows(s)
    ensures request.Some? ==>
      console.Shows(Next(s, ClickToggle)) && Next(s, ClickToggle).posts == s.posts + [request.value]
  {
    request := console.StartToggle();
  }

  /** The answer to a request, or its failure, lands as the protocol says. */
  method AnswerFollowsProtocol(console: Console, k: nat, ghost s: Net, answered: Post)
    requires console.Shows(s) && k < |s.posts| && answered == s.posts[k]
    modifies console
    ensures console.Shows(Next(s, if answered.applied then AnswerPost(k) else FailPost(k)))
  {
    console.FinishToggle(if answered.applied then Some(answered.want) else None);
  }

  /** Opening a conversation is the protocol's action, and its full fetch always leaves, with the
  epoch the protocol records. */
  method OpenFollowsProtocol(console: Console, phone: Phone, row: bool, ghost s: Net) returns (epoch: Option<nat>)
    requires console.Shows(s)
    modifies console
    ensures var t := Next(s, Open(phone, row));
      && console.Shows(t) && console.fetching && epoch.Some?
      && Next(t, IssuePoll(phone)).polls == s.polls + [Poll(phone, epoch.value, t.toggle.epoch, None)]
  {
    console.Open(phone, row);
    epoch := console.StartRefresh(phone, true);
  }

  /** A fetch leaves exactly when the flag lets it, and records the rendered epoch. */
  method StartFollowsProtocol(console: Console, phone: Phone, full: bool, ghost s: Net, ghost f: Fetches)
    returns (epoch: Option<nat>)
    requires console.Shows(s) && console.fetching == f.fetching
    modifies console
    ensures console.Shows(s) && console.fetching == FetchNext(f, Leave(full)).fetching
    ensures FetchNext(f, Leave(full)).out == if epoch.Some? then f.out + [full] else f.out
    ensures epoch.Some? ==>
      Next(s, IssuePoll(phone)).polls == s.polls + [Poll(phone, epoch.value, s.toggle.epoch, None)]
  {
    epoch := console.StartRefresh(phone, full);
  }

  /** A fetch that answers lands as the protocol says, whatever it carries, and clears the flag. */
  method RefreshFollowsProtocol(console: Console, k: nat, p: Poll, data: seq<Message>, ghost s: Net, f: Fetches)
    requires console.Shows(s) && console.Valid() && p.read.Some? && k < |f.out|
    modifies console
    ensures console.Shows(Landed(s, p)) && console.Valid()
    ensures console.fetching == FetchNext(f, Return(k)).fetching
  {
    console.FinishRefresh(p.phone, f.out[k], p.recorded, p.read.value, data);
  }
}
