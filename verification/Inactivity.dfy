/** The inactivity sweeper: at most two check-ins for a conversation that has gone quiet, the
second well after the first, and nothing else about the conversation touched. */
module Inactivity {
  import opened Wrappers
  import Domain

  /** Seconds since some epoch. */
  type Time = int

  datatype Sender = FromUser | FromBot | FromAgent | FromSystem

  datatype Message = Message(sender: Sender, closing: bool)

  datatype Settings = Settings(firstAfter: nat, maxAge: nat, gap: nat)

  /** A conversation joined with its contact's switches. `chasedBefore` is the flag of an older
  version that sent a single nudge. */
  datatype Thread = Thread(
    conv: Domain.Conv, active: bool, lastActivity: Time, paused: bool, blocked: bool,
    messages: seq<Message>, stage: nat, nudgedAt: Option<Time>, chasedBefore: bool)

  const MAX_STAGE: nat := 2
  const PAGE: nat := 200

  predicate Finished(s: Domain.State) {
    s.LeadCreated? || s.End?
  }

  /** The last thing the contact said was a goodbye. */
  predicate SaidGoodbye(messages: seq<Message>) {
    messages != [] &&
    var last := messages[|messages| - 1];
    if last.sender.FromUser? then last.closing else SaidGoodbye(messages[..|messages| - 1])
  }

  /** Neither the contact nor an agent spoke last. */
  predicate BotSpokeLast(messages: seq<Message>) {
    messages != [] &&
    var sender := messages[|messages| - 1].sender;
    !sender.FromUser? && !sender.FromAgent?
  }

  predicate WaitingOnThem(messages: seq<Message>) {
    BotSpokeLast(messages) && !SaidGoodbye(messages)
  }

  /** How many nudges this conversation has had, counting the older flag. */
  function StageOf(t: Thread): nat {
    if t.stage == 0 && t.chasedBefore then 1 else t.stage
  }

  predicate Eligible(c: Settings, t: Thread, now: Time) {
    && t.active && now - c.maxAge <= t.lastActivity <= now - c.firstAfter
    && !Finished(t.conv.state) && !t.paused && !t.blocked
  }

  predicate DueForSecond(c: Settings, t: Thread, now: Time) {
    t.nudgedAt.Some? && c.gap <= now - t.nudgedAt.value
  }

  predicate Due(c: Settings, t: Thread, now: Time) {
    && Eligible(c, t, now) && StageOf(t) < MAX_STAGE
    && (StageOf(t) == 1 ==> DueForSecond(c, t, now)) && WaitingOnThem(t.messages)
  }

  /** What a delivered nudge leaves behind: a bot message, a stage, a time; nothing else. */
  function Nudged(t: Thread, at: Time): Thread {
    t.(messages := t.messages + [Message(FromBot, false)], stage := StageOf(t) + 1, nudgedAt := Some(at))
  }

  /** A row after a sweep: untouched, or due and nudged after the sweep began. */
  predicate RowSwept(c: Settings, before: Thread, after: Thread, now: Time) {
    after == before
    || (Due(c, before, now) && after.nudgedAt.Some? && now <= after.nudgedAt.value
        && after == Nudged(before, after.nudgedAt.value))
  }

  /** The last thing the contact said is message i, and it was a goodbye. */
  predicate GoodbyeAt(messages: seq<Message>, i: int) {
    && 0 <= i < |messages| && messages[i].sender.FromUser? && messages[i].closing
    && forall j :: i < j < |messages| ==> !messages[j].sender.FromUser?
  }

  /** The bot spoke last, and the last thing the contact said, if anything, was no goodbye. */
  predicate LeftHanging(messages: seq<Message>) {
    && messages != [] && !messages[|messages| - 1].sender.FromUser? && !messages[|messages| - 1].sender.FromAgent?
    && forall i :: 0 <= i < |messages| ==> !GoodbyeAt(messages, i)
  }

  lemma GoodbyeStays(messages: seq<Message>, m: Message, i: int)
    requires !m.sender.FromUser? && i < |messages|
    ensures GoodbyeAt(messages + [m], i) <==> GoodbyeAt(messages, i)
  {
    var more := messages + [m];
    assert forall j :: 0 <= j < |messages| ==> more[j] == messages[j];
    if GoodbyeAt(more, i) {
      assert forall j :: i < j < |messages| ==> !more[j].sender.FromUser?;
    }
  }

  lemma {:induction false} LastWordWasGoodbye(messages: seq<Message>)
    ensures SaidGoodbye(messages) <==> exists i :: GoodbyeAt(messages, i)
  {
    if messages != [] {
      var n := |messages| - 1;
      var before := messages[..n];
      LastWordWasGoodbye(before);
      assert messages == before + [messages[n]];
      if messages[n].sender.FromUser? {
        assert messages[n].closing ==> GoodbyeAt(messages, n);
      } else {
        forall i | i < n ensures GoodbyeAt(messages, i) <==> GoodbyeAt(before, i) {
          GoodbyeStays(before, messages[n], i);
        }
      }
    }
  }

  /** A nudge is due exactly for an open conversation, neither finished nor paused nor blocked, quiet
  for long enough and not for too long, left hanging by its contact; and it is the first, or the
  second with the gap over since the first. */
  lemma NudgeIsDueExactlyWhen(c: Settings, t: Thread, now: Time)
    ensures Due(c, t, now) <==>
      && t.active && !t.paused && !t.blocked && !t.conv.state.LeadCreated? && !t.conv.state.End?
      && c.firstAfter <= now - t.lastActivity <= c.maxAge && LeftHanging(t.messages)
      && ((t.stage == 0 && !t.chasedBefore)
          || ((t.stage == 1 || (t.stage == 0 && t.chasedBefore))
              && t.nudgedAt.Some? && c.gap <= now - t.nudgedAt.value))
  {
    LastWordWasGoodbye(t.messages);
  }

  /** Both nudges go out: after the first, with nothing else happening, the second is due as soon as
  the gap is over and as long as the window is open, and after that none ever is. */
  lemma SecondNudgeFollows(c: Settings, t: Thread, now: Time, at: Time, later: Time, last: Time, ever: Time)
    requires Due(c, t, now) && t.stage == 0 && !t.chasedBefore && now <= later
    ensures Due(c, Nudged(t, at), later) <==> c.gap <= later - at && later - t.lastActivity <= c.maxAge
    ensures !Due(c, Nudged(Nudged(t, at), last), ever)
  {
    var messages := t.messages + [Message(FromBot, false)];
    assert messages[..|t.messages|] == t.messages;
  }

  predicate Unrepeated(xs: seq<nat>) {
    forall i, j :: 0 <= i < j < |xs| ==> xs[i] != xs[j]
  }

  /** The rows that differ. */
  function Changed(before: seq<Thread>, after: seq<Thread>): set<nat>
    requires |before| == |after|
  {
    set k: nat | k < |before| && after[k] != before[k]
  }

  lemma OneMoreChanged(before: seq<Thread>, rows: seq<Thread>, k: nat, at: Time)
    requires |before| == |rows| && k < |rows| && rows[k] == before[k]
    ensures |Changed(before, rows[k := Nudged(rows[k], at)])| == |Changed(before, rows)| + 1
  {
    assert Nudged(rows[k], at).messages != rows[k].messages;
    assert Changed(before, rows[k := Nudged(rows[k], at)]) == Changed(before, rows) + {k};
  }

  class InactivitySweeper {
    const settings: Settings
    var rows: seq<Thread>

    constructor (settings: Settings, rows: seq<Thread>)
      ensures this.settings == settings && this.rows == rows
    {
      this.settings, this.rows := settings, rows;
    }

    /** True only if the bot spoke last and was not being said goodbye to. */
    method IsWaitingOnThem(k: nat) returns (waiting: bool)
      requires k < |rows|
      ensures waiting == WaitingOnThem(rows[k].messages)
    {
      var messages := rows[k].messages;
      if messages == [] || messages[|messages| - 1].sender.FromUser? {
        return false;
      }
      if messages[|messages| - 1].sender.FromAgent? {
        return false;
      }
      var n := |messages|;
      assert messages[..n] == messages;
      while n > 0
        invariant 0 <= n <= |messages|
        invariant SaidGoodbye(messages) == SaidGoodbye(messages[..n])
      {
        assert messages[..n][..n - 1] == messages[..n - 1];
        if messages[n - 1].sender.FromUser? {
          return !messages[n - 1].closing;
        }
        n := n - 1;
      }
      waiting := true;
    }

    /** The rows the query returns, in the database's order, at most a page of them. */
    method Select(order: seq<nat>, now: Time) returns (page: seq<nat>)
      requires Unrepeated(order) && forall i :: 0 <= i < |order| ==> order[i] < |rows|
      ensures |page| <= PAGE && |page| <= |order| && Unrepeated(page)
      ensures forall k :: k in page ==> k in order && k < |rows| && Eligible(settings, rows[k], now)
      ensures |page| < PAGE ==> forall k :: k in order && Eligible(settings, rows[k], now) ==> k in page
    {
      page := [];
      for i := 0 to |order|
        invariant |page| <= PAGE && |page| <= i && Unrepeated(page)
        invariant forall k :: k in page ==> k in order[..i] && k < |rows| && Eligible(settings, rows[k], now)
        invariant |page| < PAGE ==> forall k :: k in order[..i] && Eligible(settings, rows[k], now) ==> k in page
      {
        assert order[..i + 1] == order[..i] + [order[i]];
        if |page| < PAGE && Eligible(settings, rows[order[i]], now) {
          page := page + [order[i]];
        }
      }
      assert order[..|order|] == order;
    }

    /** Nudge one row of the page if it is due and the message goes out. */
    method Chase(k: nat, now: Time, delivered: bool, at: Time) returns (sent: bool)
      requires k < |rows| && Eligible(settings, rows[k], now)
      modifies this`rows
      ensures sent == (delivered && Due(settings, old(rows)[k], now))
      ensures rows == if sent then old(rows)[k := Nudged(old(rows)[k], at)] else old(rows)
    {
      var t := rows[k];
      var stage := StageOf(t);
      if stage >= MAX_STAGE {
        return false;
      }
      if stage == 1 && !DueForSecond(settings, t, now) {
        return false;
      }
      var waiting := IsWaitingOnThem(k);
      if !waiting {
        return false;
      }
      if !delivered {
        return false;
      }
      t := t.(messages := t.messages + [Message(FromBot, false)]);
      t := t.(stage := stage + 1);
      t := t.(nudgedAt := Some(at));
      rows := rows[k := t];
      sent := true;
    }

    /** Nudge every stalled conversation on the page that is due. `delivers` says which sends go
    through, and `clock` what the clock reads after each of them. */
    method Sweep(order: seq<nat>, now: Time, delivers: nat -> bool, clock: nat -> Time) returns (sent: nat)
      requires Unrepeated(order) && forall i :: 0 <= i < |order| ==> order[i] < |rows|
      requires forall i :: now <= clock(i)
      modifies this`rows
      ensures |rows| == |old(rows)|
      ensures forall k :: 0 <= k < |rows| ==>
        rows[k] == old(rows)[k]
        || (k in order && delivers(k) && Due(settings, old(rows)[k], now) && rows[k] == Nudged(old(rows)[k], clock(k)))
      ensures |order| < PAGE ==>
        forall k :: 0 <= k < |rows| && k in order && delivers(k) && Due(settings, old(rows)[k], now) ==>
          rows[k] == Nudged(old(rows)[k], clock(k))
      ensures forall k :: 0 <= k < |rows| ==> RowSwept(settings, old(rows)[k], rows[k], now)
      ensures sent == |Changed(old(rows), rows)|
    {
      sent := 0;
      assert Changed(rows, rows) == {};
      var page := Select(order, now);
      for i := 0 to |page|
        invariant |rows| == |old(rows)|
        invariant forall k :: 0 <= k < |rows| && k !in page[..i] ==> rows[k] == old(rows)[k]
        invariant forall k :: 0 <= k < |rows| && k in page[..i] ==>
          rows[k] == if delivers(k) && Due(settings, old(rows)[k], now) then Nudged(old(rows)[k], clock(k))
                     else old(rows)[k]
        invariant sent == |Changed(old(rows), rows)|
      {
        ghost var before := rows;
        assert page[..i + 1] == page[..i] + [page[i]];
        assert page[i] in page;
        var nudged := Chase(page[i], now, delivers(page[i]), clock(page[i]));
        if nudged {
          OneMoreChanged(old(rows), before, page[i], clock(page[i]));
          sent := sent + 1;
        }
      }
      assert page[..|page|] == page;
    }
  }

  // ------------------------------------------------------------------
  // Whole runs
  // ------------------------------------------------------------------

  /** Between sweeps anything else happens: messages, replies, agents, new conversations, a
  changed state. None of it writes the nudge keys. */
  datatype Step = Swept(now: Time, after: seq<Thread>) | Otherwise(after: seq<Thread>)

  predicate SameNudges(before: Thread, after: Thread) {
    after.stage == before.stage && after.nudgedAt == before.nudgedAt && after.chasedBefore == before.chasedBefore
  }

  predicate StepHolds(c: Settings, before: seq<Thread>, s: Step) {
    && |before| <= |s.after|
    && match s
       case Swept(now, after) =>
         |after| == |before| && forall k :: 0 <= k < |before| ==> RowSwept(c, before[k], after[k], now)
       case Otherwise(after) =>
         && (forall k :: 0 <= k < |before| ==> SameNudges(before[k], after[k]))
         && forall k :: |before| <= k < |after| ==> Fresh(after[k])
  }

  predicate Fresh(t: Thread) {
    t.stage == 0 && t.nudgedAt.None? && !t.chasedBefore
  }

  /** A conversation this version finds: never nudged, or nudged once by the older one. */
  predicate Found(t: Thread) {
    t.stage == 0 && t.nudgedAt.None?
  }

  function Rows(start: seq<Thread>, steps: seq<Step>): seq<Thread> {
    if steps == [] then start else steps[|steps| - 1].after
  }

  predicate RunHolds(c: Settings, start: seq<Thread>, steps: seq<Step>) {
    steps == [] ||
    (RunHolds(c, start, steps[..|steps| - 1])
     && StepHolds(c, Rows(start, steps[..|steps| - 1]), steps[|steps| - 1]))
  }

  /** When conversation k was nudged in this run. */
  function NudgeTimes(start: seq<Thread>, steps: seq<Step>, k: nat): seq<Time> {
    if steps == [] then []
    else
      var before := steps[..|steps| - 1];
      var s := steps[|steps| - 1];
      NudgeTimes(start, before, k)
      + if s.Swept? && k < |Rows(start, before)| && k < |s.after| && s.after[k] != Rows(start, before)[k]
           && s.after[k].nudgedAt.Some?
        then [s.after[k].nudgedAt.value] else []
  }

  /** The stage and the time in the context are those of the nudges really sent. */
  ghost predicate Counted(c: Settings, t: Thread, times: seq<Time>) {
    && StageOf(t) == |times| + (if t.chasedBefore then 1 else 0)
    && t.nudgedAt == (if times == [] then None else Some(times[|times| - 1]))
    && (t.chasedBefore ==> times == [])
    && |times| <= MAX_STAGE && (|times| == 2 ==> c.gap <= times[1] - times[0])
  }

  lemma SweptCounts(c: Settings, before: Thread, after: Thread, now: Time, times: seq<Time>)
    requires Counted(c, before, times) && RowSwept(c, before, after, now) && after != before
    ensures after.nudgedAt.Some? && Counted(c, after, times + [after.nudgedAt.value])
  {
  }

  lemma {:induction false} RunsCount(c: Settings, start: seq<Thread>, steps: seq<Step>, k: nat)
    requires RunHolds(c, start, steps) && forall i :: 0 <= i < |start| ==> Found(start[i])
    ensures if k < |Rows(start, steps)| then Counted(c, Rows(start, steps)[k], NudgeTimes(start, steps, k))
            else NudgeTimes(start, steps, k) == []
  {
    if steps != [] {
      var before := steps[..|steps| - 1];
      var s := steps[|steps| - 1];
      RunsCount(c, start, before, k);
      if s.Swept? && k < |s.after| && s.after[k] != Rows(start, before)[k] {
        SweptCounts(c, Rows(start, before)[k], s.after[k], s.now, NudgeTimes(start, before, k));
      }
    }
  }

  /** A nudge adds one message and a stage and changes nothing else but its own keys; it goes out
  only in the quiet window, with the bot last to speak and no goodbye said, to a contact neither
  paused nor blocked, in a conversation open and not finished. */
  predicate Considerate(c: Settings, before: Thread, after: Thread, now: Time) {
    && after.conv == before.conv && after.active == before.active && after.lastActivity == before.lastActivity
    && after.paused == before.paused && after.blocked == before.blocked
    && after.messages == before.messages + [Message(FromBot, false)] && StageOf(after) == StageOf(before) + 1
    && c.firstAfter <= now - before.lastActivity <= c.maxAge
    && before.active && !before.paused && !before.blocked && !Finished(before.conv.state)
    && BotSpokeLast(before.messages) && !SaidGoodbye(before.messages)
  }

  /** Every sweep of the run left conversation k alone or nudged it considerately. */
  predicate SweptConsiderately(c: Settings, start: seq<Thread>, steps: seq<Step>, k: nat) {
    steps == [] ||
    var earlier, s := steps[..|steps| - 1], steps[|steps| - 1];
    && SweptConsiderately(c, start, earlier, k)
    && (s.Swept? && k < |s.after| ==>
          k < |Rows(start, earlier)|
          && (s.after[k] == Rows(start, earlier)[k] || Considerate(c, Rows(start, earlier)[k], s.after[k], s.now)))
  }

  /** Over any run a conversation is nudged at most twice in its life, counting a nudge of the
  older version; the second comes at least the gap after the first; and every nudge is considerate. */
  lemma {:induction false} AtMostTwoNudges(c: Settings, start: seq<Thread>, steps: seq<Step>, k: nat)
    requires RunHolds(c, start, steps) && forall i :: 0 <= i < |start| ==> Found(start[i])
    ensures k < |Rows(start, steps)| ==>
      var times := NudgeTimes(start, steps, k);
      && |times| + (if Rows(start, steps)[k].chasedBefore then 1 else 0) <= 2
      && (|times| == 2 ==> c.gap <= times[1] - times[0])
    ensures SweptConsiderately(c, start, steps, k)
  {
    RunsCount(c, start, steps, k);
    if steps != [] {
      AtMostTwoNudges(c, start, steps[..|steps| - 1], k);
    }
  }
}
