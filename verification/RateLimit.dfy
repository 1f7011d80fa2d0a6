/** The sliding-window limiter: a pruned and evicting table of stamps that answers as the full
log of accepted events would. */
module RateLimit {
  import opened Wrappers

  type Stamps = seq<real>

  predicate Ordered(s: Stamps) {
    forall i, j :: 0 <= i < j < |s| ==> s[i] <= s[j]
  }

  /** How many of these events are in the window that starts at `from`. */
  function Live(s: Stamps, from: real): nat {
    if s == [] then 0 else (if s[0] >= from then 1 else 0) + Live(s[1..], from)
  }

  /** The stamps left once the leading ones before `from` are gone. */
  function Pruned(s: Stamps, from: real): Stamps {
    if s != [] && s[0] < from then Pruned(s[1..], from) else s
  }

  /** Pruning takes a prefix that is out of the window. */
  lemma {:induction false} PrunedIsRest(s: Stamps, from: real)
    ensures var r := Pruned(s, from);
      && |r| <= |s| && r == s[|s| - |r|..] && forall i :: 0 <= i < |s| - |r| ==> s[i] < from
  {
    if s != [] && s[0] < from {
      PrunedIsRest(s[1..], from);
      var r := Pruned(s[1..], from);
      forall i | 0 <= i < |s| - |r| ensures s[i] < from {
        if 0 < i { assert s[1..][i - 1] == s[i]; }
      }
    }
  }

  lemma {:induction false} AllLive(s: Stamps, from: real)
    requires Ordered(s) && (s != [] ==> s[0] >= from)
    ensures Live(s, from) == |s|
  {
    if s != [] {
      AllLive(s[1..], from);
    }
  }

  lemma {:induction false} NoneLive(s: Stamps, from: real)
    requires forall i :: 0 <= i < |s| ==> s[i] < from
    ensures Live(s, from) == 0
  {
    if s != [] {
      NoneLive(s[1..], from);
    }
  }

  lemma {:induction false} LiveOfParts(a: Stamps, b: Stamps, from: real)
    ensures Live(a + b, from) == Live(a, from) + Live(b, from)
  {
    if a == [] {
      assert a + b == b;
    } else {
      assert (a + b)[1..] == a[1..] + b;
      LiveOfParts(a[1..], b, from);
    }
  }

  /** What is stored after pruning is exactly what is live. */
  lemma {:induction false} PrunedIsLive(s: Stamps, from: real)
    requires Ordered(s)
    ensures |Pruned(s, from)| == Live(s, from)
  {
    if s != [] && s[0] < from {
      PrunedIsLive(s[1..], from);
    } else {
      AllLive(s, from);
    }
  }

  lemma {:induction false} LiveAtMost(s: Stamps, from: real)
    ensures Live(s, from) <= |s|
  {
    if s != [] {
      LiveAtMost(s[1..], from);
    }
  }

  /** Once out of a window that only moves forward, an event never counts again: a stale key
  and a forgotten key get the same answer ever after. */
  lemma StaleKeysDoNotCount(s: Stamps, from: real, later: real)
    requires Ordered(s) && (s != [] ==> s[|s| - 1] < from) && from <= later
    ensures Live(s, later) == Live([], later)
  {
    NoneLive(s, later);
  }

  /** Every limit + 1 consecutive events span more than the window, counted from the first event
  after `lost`. */
  predicate Spaced(s: Stamps, lost: Option<real>, limit: nat, window: real) {
    forall i :: 0 <= i && i + limit < |s| && (lost.Some? ==> lost.value < s[i]) ==> s[i + limit] - s[i] > window
  }

  /** With fewer than `limit` live events, the one `limit` places back has left the window. */
  lemma OldestHasLeft(s: Stamps, limit: nat, from: real)
    requires Ordered(s) && Live(s, from) < limit <= |s|
    ensures s[|s| - limit] < from
  {
    var gone, recent := s[..|s| - limit], s[|s| - limit..];
    assert s == gone + recent;
    LiveOfParts(gone, recent, from);
    if s[|s| - limit] >= from {
      AllLive(recent, from);
    }
  }

  /** This event has left the window, or is no newer than one lost to eviction. */
  predicate Gone(stamp: real, lost: Option<real>, from: real) {
    stamp < from || (lost.Some? && stamp <= lost.value)
  }

  /** What is held of a key is the newest part of its log; the rest has left the window for good or
  was lost, and since then the log is spaced. */
  ghost predicate Agrees(all: Stamps, held: Stamps, lost: Option<real>, limit: nat, window: real, clock: real) {
    && Ordered(all) && (all != [] ==> all[|all| - 1] <= clock)
    && |held| <= |all| && held == all[|all| - |held|..]
    && Spaced(all, lost, limit, window) && forall i :: 0 <= i < |all| - |held| ==> Gone(all[i], lost, clock - window)
  }

  lemma AgreesLater(all: Stamps, held: Stamps, lost: Option<real>, limit: nat, window: real, clock: real, now: real)
    requires Agrees(all, held, lost, limit, window, clock) && clock <= now
    ensures Agrees(all, held, lost, limit, window, now)
  {
  }

  lemma AgreesPruned(all: Stamps, held: Stamps, lost: Option<real>, limit: nat, window: real, now: real)
    requires Agrees(all, held, lost, limit, window, now)
    ensures Agrees(all, Pruned(held, now - window), lost, limit, window, now)
  {
    var r := Pruned(held, now - window);
    var gone := |all| - |held|;
    PrunedIsRest(held, now - window);
    forall i | 0 <= i < |all| - |r| ensures Gone(all[i], lost, now - window) {
      if gone <= i { assert all[i] == held[i - gone]; }
    }
    assert r == all[|all| - |r|..];
  }

  lemma NewestHasLeft(all: Stamps, held: Stamps, lost: Option<real>, limit: nat, window: real, now: real)
    requires Agrees(all, held, lost, limit, window, now) && Live(held, now - window) < limit <= |all|
    requires lost.Some? ==> lost.value < all[|all| - limit]
    ensures all[|all| - limit] < now - window
  {
    if now - window <= all[|all| - limit] {
      assert !Gone(all[|all| - limit], lost, now - window);
      assert all[|all| - limit] == held[|held| - limit];
      OldestHasLeft(held, limit, now - window);
    }
  }

  /** Accepting an event while fewer than `limit` live ones are held keeps the log spaced. */
  lemma AcceptKeepsSpaced(all: Stamps, held: Stamps, lost: Option<real>, limit: nat, window: real, now: real)
    requires Agrees(all, held, lost, limit, window, now) && Live(held, now - window) < limit
    ensures Spaced(all + [now], lost, limit, window)
  {
    if limit <= |all| && (lost.Some? ==> lost.value < all[|all| - limit]) {
      NewestHasLeft(all, held, lost, limit, window, now);
    }
    var more := all + [now];
    forall i | 0 <= i && i + limit < |more| && (lost.Some? ==> lost.value < more[i])
      ensures more[i + limit] - more[i] > window
    {
      assert more[i] == if i < |all| then all[i] else now;
      assert more[i + limit] == if i + limit < |all| then all[i + limit] else now;
    }
  }

  lemma AgreesAccepted(all: Stamps, held: Stamps, lost: Option<real>, limit: nat, window: real, now: real)
    requires Agrees(all, held, lost, limit, window, now) && Live(held, now - window) < limit
    ensures Agrees(all + [now], held + [now], lost, limit, window, now)
  {
    AcceptKeepsSpaced(all, held, lost, limit, window, now);
  }

  /** A key may be forgotten: without loss when its newest event is stale; otherwise that one is lost. */
  lemma AgreesForgotten(all: Stamps, held: Stamps, lost: Option<real>, limit: nat, window: real, now: real)
    requires Agrees(all, held, lost, limit, window, now) && held != []
    ensures Agrees(all, [], Some(held[|held| - 1]), limit, window, now)
    ensures held[|held| - 1] < now - window ==> Agrees(all, [], lost, limit, window, now)
  {
    var last := all[|all| - 1];
    assert last == held[|held| - 1];
    forall i | 0 <= i < |all| ensures all[i] <= last {
      assert i < |all| - 1 ==> all[i] <= last;
    }
  }

  /** The full log and what is held count the same live events, unless one was lost that is live yet. */
  lemma AgreesCounts(
      all: Stamps, held: Stamps, lost: Option<real>, limit: nat, window: real, clock: real, now: real)
    requires Agrees(all, held, lost, limit, window, clock) && clock <= now
    ensures Live(held, now - window) <= Live(all, now - window)
    ensures lost.None? || lost.value < now - window ==> Live(held, now - window) == Live(all, now - window)
  {
    var gone := all[..|all| - |held|];
    assert all == gone + held;
    LiveOfParts(gone, held, now - window);
    if lost.None? || lost.value < now - window {
      NoneLive(gone, now - window);
    }
  }

  /** The newest stamp held of a key. */
  function Latest(table: map<string, Stamps>, key: string): real
    requires key in table && table[key] != []
  {
    table[key][|table[key]| - 1]
  }

  predicate Filled(table: map<string, Stamps>) {
    forall key :: key in table ==> table[key] != []
  }

  predicate NewestFirst(table: map<string, Stamps>, keys: seq<string>)
    requires Filled(table) && forall i :: 0 <= i < |keys| ==> keys[i] in table
  {
    forall i, j :: 0 <= i < j < |keys| ==> Latest(table, keys[i]) >= Latest(table, keys[j])
  }

  predicate Distinct(keys: seq<string>) {
    forall i, j :: 0 <= i < j < |keys| ==> keys[i] != keys[j]
  }

  /** No key kept is older than this one. */
  predicate NoneOlder(table: map<string, Stamps>, kept: set<string>, key: string)
    requires Filled(table) && kept <= table.Keys && key in table
  {
    forall other :: other in kept ==> Latest(table, other) >= Latest(table, key)
  }

  /** This eviction dropped live events: the table was one key over, nothing in it was stale,
  and nothing older was kept. */
  ghost predicate HadToGo(table: map<string, Stamps>, kept: set<string>, key: string, from: real)
    requires Filled(table) && kept <= table.Keys
  {
    key in table && key !in kept && NoneOlder(table, kept, key)
    && forall other :: other in table ==> Latest(table, other) >= from
  }

  // ------------------------------------------------------------------
  // The table and the history it stands for
  // ------------------------------------------------------------------

  /** The table, every accepted event of every key, the newest live event that each key lost to
  eviction, and the time of the last call. */
  datatype State = State(hits: map<string, Stamps>, log: map<string, Stamps>, lost: map<string, real>, clock: real)

  function Of(table: map<string, Stamps>, key: string): Stamps {
    if key in table then table[key] else []
  }

  function LostOf(lost: map<string, real>, key: string): Option<real> {
    if key in lost then Some(lost[key]) else None
  }

  ghost predicate KeySafe(s: State, limit: nat, window: real, key: string) {
    Agrees(Of(s.log, key), Of(s.hits, key), LostOf(s.lost, key), limit, window, s.clock)
  }

  ghost predicate Faithful(s: State, limit: nat, window: real) {
    forall key :: KeySafe(s, limit, window, key)
  }

  lemma PruneKeeps(s: State, limit: nat, window: real, key: string, now: real)
    requires Faithful(s, limit, window) && s.clock <= now
    ensures Faithful(s.(hits := s.hits[key := Pruned(Of(s.hits, key), now - window)], clock := now), limit, window)
  {
    var t := s.(hits := s.hits[key := Pruned(Of(s.hits, key), now - window)], clock := now);
    forall k ensures KeySafe(t, limit, window, k) {
      assert KeySafe(s, limit, window, k);
      AgreesLater(Of(s.log, k), Of(s.hits, k), LostOf(s.lost, k), limit, window, s.clock, now);
      if k == key {
        AgreesPruned(Of(s.log, k), Of(s.hits, k), LostOf(s.lost, k), limit, window, now);
      }
    }
  }

  lemma PrunedIsLiveIn(s: State, limit: nat, window: real, key: string, now: real)
    requires Faithful(s, limit, window)
    ensures |Pruned(Of(s.hits, key), now - window)| == Live(Of(s.hits, key), now - window)
  {
    assert KeySafe(s, limit, window, key);
    PrunedIsLive(Of(s.hits, key), now - window);
  }

  lemma AppendKeeps(s: State, limit: nat, window: real, key: string)
    requires Faithful(s, limit, window)
    requires Live(Of(s.hits, key), s.clock - window) < limit
    ensures Faithful(
        s.(hits := s.hits[key := Of(s.hits, key) + [s.clock]], log := s.log[key := Of(s.log, key) + [s.clock]]),
        limit, window)
  {
    var t := s.(hits := s.hits[key := Of(s.hits, key) + [s.clock]], log := s.log[key := Of(s.log, key) + [s.clock]]);
    forall k ensures KeySafe(t, limit, window, k) {
      assert KeySafe(s, limit, window, k);
      if k == key {
        AgreesAccepted(Of(s.log, k), Of(s.hits, k), LostOf(s.lost, k), limit, window, s.clock);
      }
    }
  }

  /** An eviction as far as answers go: keys disappear, and of one that still had live events the
  newest is remembered as lost. */
  ghost predicate Evicted(
      before: map<string, Stamps>, after: map<string, Stamps>, lost: map<string, real>, now: map<string, real>,
      from: real)
    requires Filled(before)
  {
    && after.Keys <= before.Keys && (forall key :: key in after ==> after[key] == before[key])
    && (forall key :: key !in before || key in after ==> LostOf(now, key) == LostOf(lost, key))
    && forall key :: key in before && key !in after ==>
         LostOf(now, key) == if Latest(before, key) < from then LostOf(lost, key) else Some(Latest(before, key))
  }

  lemma EvictKeeps(s: State, limit: nat, window: real, after: map<string, Stamps>, lost: map<string, real>)
    requires Faithful(s, limit, window) && Filled(s.hits)
    requires Evicted(s.hits, after, s.lost, lost, s.clock - window)
    ensures Faithful(s.(hits := after, lost := lost), limit, window)
  {
    var t := s.(hits := after, lost := lost);
    forall k ensures KeySafe(t, limit, window, k) {
      assert KeySafe(s, limit, window, k);
      if k in s.hits && k !in after {
        AgreesForgotten(Of(s.log, k), s.hits[k], LostOf(s.lost, k), limit, window, s.clock);
      }
    }
  }

  class SlidingWindowLimiter {
    const limit: nat
    const window: real
    const maxKeys: nat
    var hits: map<string, Stamps>
    ghost var log: map<string, Stamps>
    ghost var lost: map<string, real>
    ghost var clock: real

    ghost function Now(): State
      reads this
    {
      State(hits, log, lost, clock)
    }

    /** The answer `Allow` would give at this instant. */
    predicate WouldAllow(key: string, now: real)
      reads this
    {
      Live(Of(hits, key), now - window) < limit
    }

    /** The answer of the full log. */
    ghost predicate LogAllows(key: string, now: real)
      reads this
    {
      Live(Of(log, key), now - window) < limit
    }

    ghost predicate Valid()
      reads this
    {
      1 <= limit && 0.0 <= window && Filled(hits) && |hits| <= maxKeys && Faithful(Now(), limit, window)
    }

    constructor (limit: nat, window: real, maxKeys: nat, now: real)
      requires 1 <= limit && 0.0 <= window
      ensures Valid() && this.limit == limit && this.window == window && this.maxKeys == maxKeys
      ensures Now() == State(map[], map[], map[], now)
    {
      this.limit, this.window, this.maxKeys := limit, window, maxKeys;
      hits, log, lost, clock := map[], map[], map[], now;
    }

    /** Whatever this key lost to eviction has left the window by now. */
    ghost predicate Recovered(key: string, now: real)
      reads this
    {
      key in lost ==> lost[key] < now - window
    }

    /** The limiter never refuses what the full log allows, and answers exactly as it does for
    every key all of whose lost events have left the window. */
    lemma AnswersAsTheLog(key: string, now: real)
      requires Valid() && clock <= now
      ensures LogAllows(key, now) ==> WouldAllow(key, now)
      ensures Recovered(key, now) ==> (WouldAllow(key, now) <==> LogAllows(key, now))
    {
      assert KeySafe(Now(), limit, window, key);
      AgreesCounts(Of(log, key), Of(hits, key), LostOf(lost, key), limit, window, clock, now);
    }

    /** Any limit + 1 consecutive accepted events of a key span more than the window, except across
    an event that was lost. */
    lemma AcceptedEventsAreSpaced(key: string, i: nat)
      requires Valid() && i + limit < |Of(log, key)| && (key in lost ==> lost[key] < Of(log, key)[i])
      ensures Of(log, key)[i + limit] - Of(log, key)[i] > window
    {
      assert KeySafe(Now(), limit, window, key);
    }

    static lemma InsertedOnce(keys: seq<string>, key: string, at: nat)
      requires Distinct(keys) && key !in keys && at <= |keys|
      ensures var more := keys[..at] + [key] + keys[at..];
        && |more| == |keys| + 1 && (forall k :: k in more <==> k in keys || k == key) && Distinct(more)
    {
      var more := keys[..at] + [key] + keys[at..];
      assert keys == keys[..at] + keys[at..];
      forall i, j | 0 <= i < j < |more| ensures more[i] != more[j] {
        assert more[i] == if i < at then keys[i] else if i == at then key else keys[i - 1];
        assert more[j] == if j < at then keys[j] else if j == at then key else keys[j - 1];
      }
    }

    static lemma InsertedInOrder(table: map<string, Stamps>, keys: seq<string>, key: string, at: nat)
      requires Filled(table) && (forall i :: 0 <= i < |keys| ==> keys[i] in table) && key in table
      requires NewestFirst(table, keys) && at <= |keys|
      requires forall i :: 0 <= i < at ==> Latest(table, keys[i]) >= Latest(table, key)
      requires at < |keys| ==> Latest(table, keys[at]) < Latest(table, key)
      ensures var more := keys[..at] + [key] + keys[at..];
        (forall i :: 0 <= i < |more| ==> more[i] in table) && NewestFirst(table, more)
    {
      var more := keys[..at] + [key] + keys[at..];
      forall i | 0 <= i < |more|
        ensures more[i] in table && more[i] == if i < at then keys[i] else if i == at then key else keys[i - 1]
      {
      }
      forall i, j | 0 <= i < j < |more| ensures Latest(table, more[i]) >= Latest(table, more[j]) {
        if j == at {
        } else if i == at {
          assert j - 1 == at || Latest(table, keys[at]) >= Latest(table, keys[j - 1]);
        } else {
          assert Latest(table, keys[if i < at then i else i - 1]) >= Latest(table, keys[if j < at then j else j - 1]);
        }
      }
    }

    /** A key put behind all keys at least as new. */
    static method Inserted(table: map<string, Stamps>, keys: seq<string>, key: string) returns (more: seq<string>)
      requires Filled(table) && forall i :: 0 <= i < |keys| ==> keys[i] in table
      requires NewestFirst(table, keys) && Distinct(keys) && key in table && key !in keys
      ensures |more| == |keys| + 1 && forall k :: k in more <==> k in keys || k == key
      ensures (forall i :: 0 <= i < |more| ==> more[i] in table) && NewestFirst(table, more) && Distinct(more)
    {
      var at := 0;
      while at < |keys| && Latest(table, keys[at]) >= Latest(table, key)
        invariant 0 <= at <= |keys|
        invariant forall i :: 0 <= i < at ==> Latest(table, keys[i]) >= Latest(table, key)
      {
        at := at + 1;
      }
      more := keys[..at] + [key] + keys[at..];
      InsertedOnce(keys, key, at);
      InsertedInOrder(table, keys, key, at);
    }

    /** The keys of the table, newest first. */
    static method SortedByLatest(table: map<string, Stamps>) returns (ordered: seq<string>)
      requires Filled(table)
      ensures |ordered| == |table| && forall i :: 0 <= i < |ordered| ==> ordered[i] in table
      ensures NewestFirst(table, ordered) && Distinct(ordered)
      ensures forall key :: key in table ==> key in ordered
    {
      ordered := [];
      var rest := table.Keys;
      while rest != {}
        invariant rest <= table.Keys && |ordered| + |rest| == |table|
        invariant forall i :: 0 <= i < |ordered| ==> ordered[i] in table
        invariant forall key :: key in ordered ==> key !in rest
        invariant NewestFirst(table, ordered) && Distinct(ordered)
        invariant forall key :: key in table ==> key in rest || key in ordered
        decreases |rest|
      {
        var key :| key in rest;
        ordered := Inserted(table, ordered, key);
        rest := rest - {key};
      }
    }

    /** Drop keys with nothing left in the window; if there are none, drop the oldest keys. */
    method Evict(windowStart: real)
      requires Filled(hits) && |hits| == maxKeys + 1
      modifies this`hits, this`lost
      ensures Filled(hits) && |hits| <= maxKeys
      ensures Evicted(old(hits), hits, old(lost), lost, windowStart)
      ensures forall key :: LostOf(lost, key) != LostOf(old(lost), key) ==>
        HadToGo(old(hits), hits.Keys, key, windowStart)
    {
      var stale: set<string> := {};
      var rest := hits.Keys;
      while rest != {}
        invariant rest <= hits.Keys && stale <= hits.Keys
        invariant forall key :: key in stale ==> Latest(hits, key) < windowStart
        invariant forall key :: key in hits && key !in rest && key !in stale ==> Latest(hits, key) >= windowStart
        decreases |rest|
      {
        var key :| key in rest;
        if Latest(hits, key) < windowStart {
          stale := stale + {key};
        }
        rest := rest - {key};
      }
      if stale != {} {
        assert (hits - stale).Keys == hits.Keys - stale;
        hits := hits - stale;
        return;
      }
      DropOldest();
    }

    static ghost function LostWith(table: map<string, Stamps>, gone: set<string>): map<string, real>
      requires Filled(table) && gone <= table.Keys
    {
      map key | key in gone :: Latest(table, key)
    }

    /** Keep the newest keys and forget the rest, live or not. */
    method DropOldest()
      requires Filled(hits) && |hits| == maxKeys + 1
      modifies this`hits, this`lost
      ensures Filled(hits) && |hits| == maxKeys
      ensures forall key :: (LostOf(lost, key)
        == if key in old(hits) && key !in hits then Some(Latest(old(hits), key)) else LostOf(old(lost), key))
      ensures hits.Keys <= old(hits).Keys && forall key :: key in hits ==> hits[key] == old(hits)[key]
      ensures forall key :: key in old(hits).Keys - hits.Keys ==> NoneOlder(old(hits), hits.Keys, key)
    {
      var ordered := SortedByLatest(hits);
      var kept := KeepFirst(hits, ordered, maxKeys);
      forall key | key in hits.Keys - kept.Keys
        ensures NoneOlder(hits, kept.Keys, key)
      {
        NothingOlderKept(hits, ordered, maxKeys, kept.Keys, key);
      }
      lost := lost + LostWith(hits, hits.Keys - kept.Keys);
      hits := kept;
    }

    /** The table without all but the first n of these keys. */
    static method KeepFirst(table: map<string, Stamps>, ordered: seq<string>, n: nat)
      returns (kept: map<string, Stamps>)
      requires |ordered| == |table| && n < |ordered| && Distinct(ordered)
      requires forall i :: 0 <= i < |ordered| ==> ordered[i] in table
      ensures |kept| == n && kept.Keys <= table.Keys && forall key :: key in kept ==> kept[key] == table[key]
      ensures forall j :: 0 <= j < |ordered| ==> (ordered[j] in kept <==> j < n)
    {
      kept := table;
      var i := n;
      while i < |ordered|
        invariant n <= i <= |ordered| && |kept| + (i - n) == |ordered|
        invariant kept.Keys <= table.Keys && forall key :: key in kept ==> kept[key] == table[key]
        invariant forall j :: 0 <= j < |ordered| ==> (ordered[j] in kept <==> j < n || i <= j)
      {
        assert (kept - {ordered[i]}).Keys == kept.Keys - {ordered[i]};
        kept := kept - {ordered[i]};
        i := i + 1;
      }
    }

    static lemma NothingOlderKept(
        table: map<string, Stamps>, ordered: seq<string>, n: nat, kept: set<string>, key: string)
      requires Filled(table) && forall i :: 0 <= i < |ordered| ==> ordered[i] in table
      requires NewestFirst(table, ordered) && forall k :: k in table ==> k in ordered
      requires kept <= table.Keys && key in table && key !in kept
      requires forall j :: 0 <= j < |ordered| ==> (ordered[j] in kept <==> j < n)
      ensures NoneOlder(table, kept, key)
    {
      var j :| 0 <= j < |ordered| && ordered[j] == key;
      forall other | other in kept
        ensures Latest(table, other) >= Latest(table, key)
      {
        var i :| 0 <= i < |ordered| && ordered[i] == other;
        assert i < n <= j;
      }
    }

    /** Time passes: forget what has left the window of this key. */
    method Prune(key: string, now: real)
      requires Valid() && clock <= now
      modifies this`hits, this`clock
      ensures clock == now && hits == old(hits)[key := Pruned(Of(old(hits), key), now - window)]
      ensures |hits[key]| == Live(Of(old(hits), key), now - window)
      ensures Faithful(Now(), limit, window)
    {
      PruneKeeps(Now(), limit, window, key, now);
      PrunedIsLiveIn(Now(), limit, window, key, now);
      var held := PopStale(Of(hits, key), now - window);
      hits := hits[key := held];
      clock := now;
    }

    static method PopStale(stamps: Stamps, windowStart: real) returns (held: Stamps)
      ensures held == Pruned(stamps, windowStart)
    {
      held := stamps;
      while held != [] && held[0] < windowStart
        invariant Pruned(held, windowStart) == Pruned(stamps, windowStart)
        decreases |held|
      {
        held := held[1..];
      }
    }

    /** Record an event for the key and report whether it is within budget. */
    method Allow(key: string, now: real) returns (ok: bool)
      requires Valid() && clock <= now
      modifies this
      ensures Valid() && clock == now
      ensures ok == old(WouldAllow(key, now))
      ensures old(LogAllows(key, now)) ==> ok
      ensures old(Recovered(key, now)) ==> ok == old(LogAllows(key, now))
      ensures log == if ok then old(log)[key := Of(old(log), key) + [now]] else old(log)
      ensures |old(hits)| < maxKeys || key in old(hits) ==> lost == old(lost)
      ensures forall other :: LostOf(lost, other) != LostOf(old(lost), other) ==> !Recovered(other, now)
    {
      AnswersAsTheLog(key, now);
      Prune(key, now);
      if limit <= |hits[key]| {
        return false;
      }
      LiveAtMost(hits[key], now - window);
      Accept(key, now);
      ok := true;
    }

    /** Record an accepted event, and make room if the table has grown too large. */
    method Accept(key: string, now: real)
      requires 1 <= limit && 0.0 <= window && Faithful(Now(), limit, window) && now == clock
      requires key in hits && |hits| <= maxKeys + 1 && forall k :: k in hits && k != key ==> hits[k] != []
      requires WouldAllow(key, now)
      modifies this`hits, this`log, this`lost
      ensures Valid()
      ensures log == old(log)[key := Of(old(log), key) + [now]]
      ensures |old(hits)| <= maxKeys ==> lost == old(lost)
      ensures forall other :: LostOf(lost, other) != LostOf(old(lost), other) ==> !Recovered(other, now)
    {
      AppendKeeps(Now(), limit, window, key);
      hits := hits[key := hits[key] + [now]];
      log := log[key := Of(log, key) + [now]];
      if maxKeys < |hits| {
        ghost var before := Now();
        Evict(now - window);
        EvictKeeps(before, limit, window, hits, lost);
        assert Now() == before.(hits := hits, lost := lost);
      }
    }

    /** Budget left for the key: positive exactly when an event would be accepted now. */
    method Remaining(key: string, now: real) returns (left: nat)
      requires Valid() && clock <= now
      ensures 0 < left <==> WouldAllow(key, now)
      ensures left <= limit && (WouldAllow(key, now) ==> left == limit - Live(Of(hits, key), now - window))
    {
      if key !in hits {
        return limit;
      }
      var live := 0;
      var held := hits[key];
      for i := 0 to |held|
        invariant live == Live(held[..i], now - window)
      {
        LiveOfParts(held[..i], [held[i]], now - window);
        assert held[..i + 1] == held[..i] + [held[i]];
        assert Live([held[i]], now - window) == if held[i] >= now - window then 1 else 0;
        if held[i] >= now - window {
          live := live + 1;
        }
      }
      assert held[..|held|] == held;
      left := if limit < live then 0 else limit - live;
    }
  }
}
