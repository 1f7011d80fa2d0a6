/** The console, the server and the network between them: clicks and their requests, and any
number of overlapping, delayed and reordered polls. */
module ConsoleProtocol {
  import opened Wrappers
  import opened Handover

  type Phone = string

  /** A poll in flight: the epoch the console recorded, and the value read at the server once it
  got there. `issued` is what the reducer's epoch really was; the recorded one may lag it. */
  datatype Poll = Poll(phone: Phone, recorded: nat, issued: nat, read: Option<bool>)

  /** The request of a click; once applied, its answer carries the value it set. */
  datatype Post = Post(phone: Phone, want: bool, applied: bool)

  /** `rendered` is the reducer state as of the last render, which the callbacks look at.
  `known` says that the server's value has been heard since the conversation was opened. */
  datatype Net = Net(
    toggle: Toggle,
    rendered: Toggle,
    current: Option<Phone>,
    known: bool,
    server: map<Phone, bool>,
    polls: seq<Poll>,
    posts: seq<Post>)
  {
    /** A contact the server has no row for is not paused. */
    function AtServer(phone: Phone): bool {
      if phone in server then server[phone] else false
    }
  }

  const START := Net(INITIAL, INITIAL, None, false, map[], [], [])

  datatype Action =
    | Open(phone: Phone, row: bool)
    | Render
    | ClickToggle
    | ApplyPost(k: nat)
    | AnswerPost(k: nat)
    | FailPost(k: nat)
    | IssuePoll(phone: Phone)
    | ReadPoll(k: nat)
    | LandPoll(k: nat)
    | LosePoll(k: nat)

  /** When an action can happen. A click is guarded by what was rendered; a request that was
  applied is answered, one that was not may fail; nobody but this console changes the server. */
  predicate Enabled(s: Net, a: Action) {
    match a
    case Open(_, _) => true
    case Render => true
    case ClickToggle => s.current.Some? && !Busy(s.rendered)
    case ApplyPost(k) => k < |s.posts| && !s.posts[k].applied
    case AnswerPost(k) => k < |s.posts| && s.posts[k].applied
    case FailPost(k) => k < |s.posts| && !s.posts[k].applied
    case IssuePoll(_) => true
    case ReadPoll(k) => k < |s.polls| && s.polls[k].read.None?
    case LandPoll(k) => k < |s.polls| && s.polls[k].read.Some?
    case LosePoll(k) => k < |s.polls|
  }

  /** What the code leaves to its user: no conversation is switched while a request is
  outstanding, and a click is made on a button that shows the reducer's value. */
  predicate CarefulAt(s: Net, a: Action) {
    match a
    case Open(_, _) => s.posts == []
    case ClickToggle => !Busy(s.toggle) && Shown(s.rendered) == Shown(s.toggle)
    case _ => true
  }

  function Without<T>(xs: seq<T>, k: nat): seq<T>
    requires k < |xs|
  {
    xs[..k] + xs[k + 1..]
  }

  predicate Accepts(t: Toggle, p: Poll) {
    t.Settled? && t.epoch <= p.recorded
  }

  /** This poll would be taken: it is of the open conversation, and the reducer accepts it. */
  predicate Taken(s: Net, p: Poll) {
    s.current == Some(p.phone) && Accepts(s.toggle, p)
  }

  /** A poll of another conversation is dropped; otherwise the reducer decides. */
  function Landed(s: Net, p: Poll): Net
    requires p.read.Some?
  {
    if s.current != Some(p.phone) then s
    else s.(toggle := Reduce(s.toggle, Observed(p.read.value, p.recorded)), known := s.known || Accepts(s.toggle, p))
  }

  function Next(s: Net, a: Action): Net
    requires Enabled(s, a)
  {
    match a
    case Open(phone, row) => s.(toggle := Reduce(s.toggle, Reset(row)), current := Some(phone), known := false)
    case Render => s.(rendered := s.toggle)
    case ClickToggle =>
      s.(toggle := Reduce(s.toggle, Click),
         posts := s.posts + [Post(s.current.value, !Shown(s.rendered), false)])
    case ApplyPost(k) =>
      s.(server := s.server[s.posts[k].phone := s.posts[k].want],
         posts := s.posts[k := s.posts[k].(applied := true)])
    case AnswerPost(k) =>
      s.(toggle := Reduce(s.toggle, Confirmed(s.posts[k].want)), known := true, posts := Without(s.posts, k))
    case FailPost(k) => s.(toggle := Reduce(s.toggle, Failed), posts := Without(s.posts, k))
    case IssuePoll(phone) => s.(polls := s.polls + [Poll(phone, s.rendered.epoch, s.toggle.epoch, None)])
    case ReadPoll(k) => s.(polls := s.polls[k := s.polls[k].(read := Some(s.AtServer(s.polls[k].phone)))])
    case LandPoll(k) => Landed(s, s.polls[k]).(polls := Without(s.polls, k))
    case LosePoll(k) => s.(polls := Without(s.polls, k))
  }

  /** These actions can happen in this order. */
  predicate Possible(actions: seq<Action>)
    decreases |actions|, 0
  {
    actions == [] ||
    (Possible(actions[..|actions| - 1]) && Enabled(After(actions[..|actions| - 1]), actions[|actions| - 1]))
  }

  function After(actions: seq<Action>): Net
    requires Possible(actions)
    decreases |actions|, 1
  {
    if actions == [] then START else Next(After(actions[..|actions| - 1]), actions[|actions| - 1])
  }

  /** Each of these actions was careful when it was made. */
  predicate Careful(actions: seq<Action>)
    requires Possible(actions)
  {
    actions == [] ||
    (Careful(actions[..|actions| - 1]) && CarefulAt(After(actions[..|actions| - 1]), actions[|actions| - 1]))
  }

  // ------------------------------------------------------------------
  // What holds however the console is used
  // ------------------------------------------------------------------

  /** Neither what was rendered nor what a poll recorded is ahead of the reducer's epoch. */
  predicate PollTimed(s: Net, p: Poll) {
    p.recorded <= p.issued <= s.toggle.epoch
  }

  predicate Timed(s: Net) {
    s.rendered.epoch <= s.toggle.epoch && forall k :: 0 <= k < |s.polls| ==> PollTimed(s, s.polls[k])
  }

  lemma NextIsTimed(s: Net, a: Action)
    requires Timed(s) && Enabled(s, a)
    ensures Timed(Next(s, a))
  {
    var t := Next(s, a);
    forall k | 0 <= k < |t.polls|
      ensures PollTimed(t, t.polls[k])
    {
      match a
      case LandPoll(j) => assert PollTimed(s, s.polls[if k < j then k else k + 1]);
      case LosePoll(j) => assert PollTimed(s, s.polls[if k < j then k else k + 1]);
      case _ => assert k < |s.polls| ==> PollTimed(s, s.polls[k]);
    }
  }

  lemma {:induction false} TracesAreTimed(actions: seq<Action>)
    requires Possible(actions)
    ensures Timed(After(actions))
  {
    if actions != [] {
      TracesAreTimed(actions[..|actions| - 1]);
      NextIsTimed(After(actions[..|actions| - 1]), actions[|actions| - 1]);
    }
  }

  /** This action writes the toggle: a click that is not ignored, a confirmation, a failure, a reset. */
  predicate WritesToggle(s: Net, a: Action) {
    (a.ClickToggle? && !Busy(s.toggle)) || a.AnswerPost? || a.FailPost? || a.Open?
  }

  /** The writes of the toggle among these actions. */
  function Writes(actions: seq<Action>): nat
    requires Possible(actions)
  {
    if actions == [] then 0
    else
      var before := actions[..|actions| - 1];
      Writes(before) + if WritesToggle(After(before), actions[|actions| - 1]) then 1 else 0
  }

  lemma {:induction false} EpochCountsWrites(actions: seq<Action>)
    requires Possible(actions)
    ensures After(actions).toggle.epoch == Writes(actions)
  {
    if actions != [] {
      EpochCountsWrites(actions[..|actions| - 1]);
    }
  }

  /** However clicks, switches and polls interleave, an observation is taken only if its poll left
  in the present epoch: nothing has written the toggle since, and no click is in flight. */
  lemma OnlyFreshPollsAreTaken(actions: seq<Action>, k: nat)
    requires Possible(actions) && k < |After(actions).polls|
    ensures var s := After(actions);
      Accepts(s.toggle, s.polls[k]) ==> s.toggle.Settled? && s.polls[k].issued == Writes(actions)
  {
    TracesAreTimed(actions);
    EpochCountsWrites(actions);
    assert PollTimed(After(actions), After(actions).polls[k]);
  }

  /** A poll that lands decides what is shown exactly when it is of the open conversation, no click is
  in flight, and the epoch it recorded is the present one. */
  lemma PollDecidesExactlyWhen(actions: seq<Action>, k: nat)
    requires Possible(actions) && Enabled(After(actions), LandPoll(k))
    ensures var s := After(actions);
      var p := s.polls[k];
      var t := Next(s, LandPoll(k)).toggle;
      && p.recorded <= s.toggle.epoch == t.epoch && t.Settled? == s.toggle.Settled?
      && (if s.current == Some(p.phone) && s.toggle.Settled? && p.recorded == s.toggle.epoch
          then Shown(t) == p.read.value
          else t == s.toggle)
  {
    TracesAreTimed(actions);
    assert PollTimed(After(actions), After(actions).polls[k]);
  }

  /** The fetch that opening a conversation makes before the next render records an epoch that
  is already past: its pause flag is not taken, now or later. */
  lemma OpeningFetchIsNeverTaken(actions: seq<Action>, phone: Phone, row: bool, later: Toggle)
    requires Possible(actions)
    requires Next(After(actions), Open(phone, row)).toggle.epoch <= later.epoch
    ensures var t := Next(Next(After(actions), Open(phone, row)), IssuePoll(phone));
      !Accepts(later, t.polls[|t.polls| - 1])
  {
    TracesAreTimed(actions);
  }

  // ------------------------------------------------------------------
  // The invariant of careful use
  // ------------------------------------------------------------------

  /** A poll that left in the present epoch of a settled toggle has read what the server still says. */
  predicate PollSafe(s: Net, p: Poll) {
    s.toggle.Settled? && p.issued == s.toggle.epoch && p.read.Some? ==> p.read.value == s.AtServer(p.phone)
  }

  predicate PollsSafe(s: Net) {
    forall k :: 0 <= k < |s.polls| ==> PollSafe(s, s.polls[k])
  }

  /** One request is out exactly while a click is pending, and it asks for what is shown; what was
  rendered before the click was what it toggled. */
  predicate ToggleSafe(s: Net) {
    match s.toggle
    case Settled(paused, _) =>
      s.posts == [] && (s.known ==> s.current.Some? && paused == s.AtServer(s.current.value))
    case Pending(want, was, _) =>
      && |s.posts| == 1 && s.current == Some(s.posts[0].phone) && s.posts[0].want == want && was == !want
      && (!Busy(s.rendered) ==> Shown(s.rendered) == was)
      && (if s.posts[0].applied then s.AtServer(s.posts[0].phone) == want
          else s.known ==> s.AtServer(s.posts[0].phone) == was)
  }

  predicate Safe(s: Net) {
    Timed(s) && PollsSafe(s) && ToggleSafe(s)
  }

  predicate OfPoll(a: Action) {
    a.IssuePoll? || a.ReadPoll? || a.LandPoll? || a.LosePoll?
  }

  predicate OfPost(a: Action) {
    a.ApplyPost? || a.AnswerPost? || a.FailPost?
  }

  lemma PollActionKeepsPolls(s: Net, a: Action)
    requires Safe(s) && Enabled(s, a) && OfPoll(a)
    ensures PollsSafe(Next(s, a))
  {
    var t := Next(s, a);
    forall k | 0 <= k < |t.polls|
      ensures PollSafe(t, t.polls[k])
    {
      match a
      case LandPoll(j) =>
        assert PollSafe(s, s.polls[j]) && PollTimed(s, s.polls[j]) && t.polls[k] == s.polls[if k < j then k else k + 1];
      case LosePoll(j) => assert t.polls[k] == s.polls[if k < j then k else k + 1];
      case IssuePoll(_) => if k < |s.polls| { assert t.polls[k] == s.polls[k]; }
      case ReadPoll(j) => assert PollSafe(s, s.polls[k]);
    }
  }

  lemma PollActionKeepsToggle(s: Net, a: Action)
    requires Safe(s) && Enabled(s, a) && OfPoll(a)
    ensures ToggleSafe(Next(s, a))
  {
    if a.LandPoll? {
      assert PollSafe(s, s.polls[a.k]) && PollTimed(s, s.polls[a.k]);
    }
  }

  lemma PostActionKeeps(s: Net, a: Action)
    requires Safe(s) && Enabled(s, a) && OfPost(a)
    ensures PollsSafe(Next(s, a)) && ToggleSafe(Next(s, a))
  {
    var t := Next(s, a);
    assert s.toggle.Pending?;
    forall k | 0 <= k < |t.polls|
      ensures PollSafe(t, t.polls[k])
    {
      assert PollSafe(s, s.polls[k]) && PollTimed(s, s.polls[k]);
    }
  }

  lemma UserActionKeeps(s: Net, a: Action)
    requires Safe(s) && Enabled(s, a) && CarefulAt(s, a) && (a.Open? || a.Render? || a.ClickToggle?)
    ensures PollsSafe(Next(s, a)) && ToggleSafe(Next(s, a))
  {
    var t := Next(s, a);
    forall k | 0 <= k < |t.polls|
      ensures PollSafe(t, t.polls[k])
    {
      assert PollSafe(s, s.polls[k]) && PollTimed(s, s.polls[k]);
    }
  }

  lemma NextIsSafe(s: Net, a: Action)
    requires Safe(s) && Enabled(s, a) && CarefulAt(s, a)
    ensures Safe(Next(s, a))
  {
    NextIsTimed(s, a);
    if OfPoll(a) {
      PollActionKeepsPolls(s, a);
      PollActionKeepsToggle(s, a);
    } else if OfPost(a) {
      PostActionKeeps(s, a);
    } else {
      UserActionKeeps(s, a);
    }
  }

  lemma {:induction false} TracesAreSafe(actions: seq<Action>)
    requires Possible(actions) && Careful(actions)
    ensures Safe(After(actions))
  {
    if actions != [] {
      TracesAreSafe(actions[..|actions| - 1]);
      NextIsSafe(After(actions[..|actions| - 1]), actions[|actions| - 1]);
    }
  }

  // ------------------------------------------------------------------
  // What is shown before the server has been heard
  // ------------------------------------------------------------------

  /** The value of the list row from which the present conversation was opened. */
  function LastRow(actions: seq<Action>): Option<bool> {
    if actions == [] then None
    else if actions[|actions| - 1].Open? then Some(actions[|actions| - 1].row)
    else LastRow(actions[..|actions| - 1])
  }

  /** Until the server has been heard, the row is what is shown, or what a failing click falls back to. */
  predicate ShowsRow(s: Net, row: Option<bool>) {
    && (s.current.Some? <==> row.Some?)
    && (!s.known && row.Some? ==> row.value == if s.toggle.Settled? then s.toggle.paused else s.toggle.was)
  }

  lemma {:induction false} UnheardShowsRow(actions: seq<Action>)
    requires Possible(actions) && Careful(actions)
    ensures ShowsRow(After(actions), LastRow(actions))
  {
    if actions != [] {
      var before, a := actions[..|actions| - 1], actions[|actions| - 1];
      UnheardShowsRow(before);
      TracesAreSafe(before);
      RowStaysShown(After(before), a, LastRow(before));
    }
  }

  lemma RowStaysShown(s: Net, a: Action, row: Option<bool>)
    requires Safe(s) && Enabled(s, a) && CarefulAt(s, a) && ShowsRow(s, row)
    ensures ShowsRow(Next(s, a), if a.Open? then Some(a.row) else row)
  {
  }

  // ------------------------------------------------------------------
  // What every careful interleaving guarantees
  // ------------------------------------------------------------------

  /** With a conversation open and no click in flight, the button shows what the server says
  exactly when the server has been heard since, or the row it was opened from said the same. */
  lemma SettledShowsServer(actions: seq<Action>)
    requires Possible(actions) && Careful(actions)
    requires After(actions).toggle.Settled? && After(actions).current.Some?
    ensures LastRow(actions).Some?
    ensures var s := After(actions);
      var says := s.AtServer(s.current.value);
      Shown(s.toggle) == says <==> s.known || LastRow(actions).value == says
  {
    TracesAreSafe(actions);
    UnheardShowsRow(actions);
  }

  lemma LandedPollFlips(s: Net, k: nat, row: Option<bool>)
    requires Safe(s) && ShowsRow(s, row) && Enabled(s, LandPoll(k))
    ensures Shown(Next(s, LandPoll(k)).toggle) != Shown(s.toggle) <==>
      Taken(s, s.polls[k]) && !s.known && row == Some(!s.AtServer(s.polls[k].phone))
  {
    assert PollSafe(s, s.polls[k]) && PollTimed(s, s.polls[k]);
  }

  lemma OnlyOwnWritesShow(s: Net, a: Action)
    requires Safe(s) && Enabled(s, a) && CarefulAt(s, a) && !a.LandPoll?
    ensures var t := Next(s, a);
      match a
      case ClickToggle => Shown(t.toggle) == !Shown(s.toggle) && |t.posts| == 1 && t.posts[0].want == Shown(t.toggle)
      case FailPost(_) => s.toggle.Pending? && Shown(t.toggle) == s.toggle.was == !Shown(s.toggle)
      case Open(_, row) => Shown(t.toggle) == row
      case _ => Shown(t.toggle) == Shown(s.toggle)
  {
  }

  /** No flip-back. A click shows the opposite, and its request asks for that; its failure shows
  what was there before it; its success changes nothing; opening shows the row. A poll changes
  what is shown exactly when it is taken as the first word from the server since opening, and the
  row had said otherwise. Nothing else changes it. */
  lemma NoFlipBack(actions: seq<Action>, a: Action)
    requires Possible(actions) && Careful(actions) && Enabled(After(actions), a) && CarefulAt(After(actions), a)
    ensures var s := After(actions);
      var t := Next(s, a);
      match a
      case ClickToggle => Shown(t.toggle) == !Shown(s.toggle) && |t.posts| == 1 && t.posts[0].want == Shown(t.toggle)
      case FailPost(_) => s.toggle.Pending? && Shown(t.toggle) == s.toggle.was == !Shown(s.toggle)
      case Open(_, row) => Shown(t.toggle) == row
      case LandPoll(k) =>
        Shown(t.toggle) != Shown(s.toggle) <==>
          Taken(s, s.polls[k]) && !s.known && LastRow(actions) == Some(!s.AtServer(s.polls[k].phone))
      case _ => Shown(t.toggle) == Shown(s.toggle)
  {
    TracesAreSafe(actions);
    UnheardShowsRow(actions);
    if a.LandPoll? {
      LandedPollFlips(After(actions), a.k, LastRow(actions));
    } else {
      OnlyOwnWritesShow(After(actions), a);
    }
  }

  /** Every conversation was opened from a row that said what the server says. */
  predicate HonestRows(actions: seq<Action>)
    requires Possible(actions)
  {
    actions == [] ||
    var before, a := actions[..|actions| - 1], actions[|actions| - 1];
    HonestRows(before) && (a.Open? ==> a.row == After(before).AtServer(a.phone))
  }

  /** Until a request has been applied or the server heard, the row still says what the server says. */
  predicate RowIsTrue(s: Net, row: Option<bool>) {
    !s.known && s.current.Some? && (s.posts == [] || !s.posts[0].applied) ==> row == Some(s.AtServer(s.current.value))
  }

  lemma RowStaysTrue(s: Net, a: Action, row: Option<bool>)
    requires Safe(s) && Enabled(s, a) && CarefulAt(s, a) && RowIsTrue(s, row)
    requires a.Open? ==> a.row == s.AtServer(a.phone)
    ensures RowIsTrue(Next(s, a), if a.Open? then Some(a.row) else row)
  {
  }

  lemma {:induction false} HonestRowsStayTrue(actions: seq<Action>)
    requires Possible(actions) && Careful(actions) && HonestRows(actions)
    ensures RowIsTrue(After(actions), LastRow(actions))
  {
    if actions != [] {
      var before, a := actions[..|actions| - 1], actions[|actions| - 1];
      HonestRowsStayTrue(before);
      TracesAreSafe(before);
      RowStaysTrue(After(before), a, LastRow(before));
    }
  }

  /** With honest rows the settled button always shows what the server says, and only a click,
  its failure or opening a conversation ever changes what is shown. */
  lemma HonestRowsNeverFlip(actions: seq<Action>, a: Action)
    requires Possible(actions) && Careful(actions) && HonestRows(actions)
    requires Enabled(After(actions), a) && CarefulAt(After(actions), a)
    ensures var s := After(actions);
      && (s.toggle.Settled? && s.current.Some? ==> Shown(s.toggle) == s.AtServer(s.current.value))
      && (Shown(Next(s, a).toggle) != Shown(s.toggle) ==> a.ClickToggle? || a.FailPost? || a.Open?)
  {
    TracesAreSafe(actions);
    HonestRowsStayTrue(actions);
    NoFlipBack(actions, a);
    if After(actions).toggle.Settled? && After(actions).current.Some? {
      SettledShowsServer(actions);
    }
  }

  // ------------------------------------------------------------------
  // What happens otherwise
  // ------------------------------------------------------------------

  lemma OneMore(actions: seq<Action>, s: Net, a: Action) returns (more: seq<Action>)
    requires Possible(actions) && After(actions) == s && Enabled(s, a)
    ensures more == actions + [a] && Possible(more) && After(more) == Next(s, a)
    ensures Careful(more) <==> Careful(actions) && CarefulAt(s, a)
    ensures LastRow(more) == if a.Open? then Some(a.row) else LastRow(actions)
  {
    more := actions + [a];
    assert more[..|more| - 1] == actions;
  }

  /** After opening a conversation whose row says "paused", and reading at the server that it is not. */
  lemma StaleRowTrace(phone: Phone) returns (actions: seq<Action>)
    ensures Possible(actions) && Careful(actions)
    ensures After(actions)
         == Net(Settled(true, 1), Settled(true, 1), Some(phone), false, map[], [Poll(phone, 1, 1, Some(false))], [])
  {
    actions := OneMore([], START, Open(phone, true));
    var s1 := Net(Settled(true, 1), INITIAL, Some(phone), false, map[], [], []);
    assert After(actions) == s1;
    actions := OneMore(actions, s1, Render);
    var s2 := s1.(rendered := Settled(true, 1));
    assert After(actions) == s2;
    actions := OneMore(actions, s2, IssuePoll(phone));
    var s3 := s2.(polls := [Poll(phone, 1, 1, None)]);
    assert After(actions) == s3;
    actions := OneMore(actions, s3, ReadPoll(0));
    assert s3.polls[0 := Poll(phone, 1, 1, Some(false))] == [Poll(phone, 1, 1, Some(false))];
  }

  /** A row that is out of date is shown until the first poll is taken, and then flips with no click. */
  lemma StaleRowFlips(phone: Phone) returns (actions: seq<Action>)
    ensures Possible(actions) && Careful(actions)
    ensures var s := After(actions);
      && s.toggle.Settled? && s.current == Some(phone) && Shown(s.toggle) && !s.AtServer(phone)
      && Enabled(s, LandPoll(0)) && !Shown(Next(s, LandPoll(0)).toggle)
  {
    actions := StaleRowTrace(phone);
  }

  /** A click the code lets through while nothing is in flight: its request asks for the opposite
  of what was rendered, and once answered the button shows what the click showed exactly when
  what was rendered was what the reducer held. */
  lemma ClickMustSeeWhatIsShown(actions: seq<Action>)
    requires Possible(actions) && Careful(actions)
    requires Enabled(After(actions), ClickToggle) && !Busy(After(actions).toggle)
    ensures var s := After(actions);
      var clicked := Next(s, ClickToggle);
      && Enabled(clicked, ApplyPost(0)) && Enabled(Next(clicked, ApplyPost(0)), AnswerPost(0))
      && var answered := Next(Next(clicked, ApplyPost(0)), AnswerPost(0));
         Shown(answered.toggle) == Shown(clicked.toggle) <==> CarefulAt(s, ClickToggle)
  {
    TracesAreSafe(actions);
  }

  /** After a click on "not paused" and its confirmation, with nothing rendered since. */
  lemma UnrenderedTrace(phone: Phone) returns (actions: seq<Action>)
    ensures Possible(actions) && Careful(actions)
    ensures After(actions)
         == Net(Settled(true, 3), Settled(false, 1), Some(phone), true, map[phone := true], [], [])
  {
    actions := OneMore([], START, Open(phone, false));
    var s1 := Net(Settled(false, 1), INITIAL, Some(phone), false, map[], [], []);
    assert After(actions) == s1;
    actions := OneMore(actions, s1, Render);
    var s2 := s1.(rendered := Settled(false, 1));
    assert After(actions) == s2;
    actions := OneMore(actions, s2, ClickToggle);
    var s3 := s2.(toggle := Pending(true, false, 2), posts := [Post(phone, true, false)]);
    assert After(actions) == s3;
    actions := OneMore(actions, s3, ApplyPost(0));
    var s4 := s3.(server := map[phone := true], posts := [Post(phone, true, true)]);
    assert After(actions) == s4;
    actions := OneMore(actions, s4, AnswerPost(0));
  }

  /** Clicking again right after a confirmation, before it is rendered: the button shows "not
  paused" and the request asks for "paused", so the answer flips it back. */
  lemma UnrenderedClickFlipsBack(phone: Phone) returns (actions: seq<Action>)
    ensures Possible(actions) && Careful(actions) && Enabled(After(actions), ClickToggle)
    ensures var clicked := Next(After(actions), ClickToggle);
      && !Shown(clicked.toggle) && Enabled(clicked, ApplyPost(0))
      && Enabled(Next(clicked, ApplyPost(0)), AnswerPost(0))
      && Shown(Next(Next(clicked, ApplyPost(0)), AnswerPost(0)).toggle)
  {
    actions := UnrenderedTrace(phone);
  }

  /** The busy check looks at what was rendered: a click is let through beside a request that is out
  exactly when the reducer is busy and that has not been rendered. The reducer ignores it, and its
  request asks for the same again. */
  lemma SecondRequestExactlyWhen(actions: seq<Action>)
    requires Possible(actions) && Careful(actions)
    ensures var s := After(actions);
      && (Enabled(s, ClickToggle) && s.posts != [] <==> Busy(s.toggle) && !Busy(s.rendered))
      && (Enabled(s, ClickToggle) && s.posts != [] ==>
            var t := Next(s, ClickToggle);
            t.toggle == s.toggle && t.posts == s.posts + [Post(s.posts[0].phone, s.posts[0].want, false)])
  {
    TracesAreSafe(actions);
  }

  /** Two clicks before a render: two requests are out at once. */
  lemma DoubleClickSendsTwo(phone: Phone) returns (actions: seq<Action>)
    ensures Possible(actions) && Careful(actions) && Enabled(After(actions), ClickToggle)
    ensures Next(After(actions), ClickToggle).posts == [Post(phone, true, false), Post(phone, true, false)]
  {
    actions := OneMore([], START, Open(phone, false));
    var s1 := Net(Settled(false, 1), INITIAL, Some(phone), false, map[], [], []);
    assert After(actions) == s1;
    actions := OneMore(actions, s1, ClickToggle);
    assert After(actions) == s1.(toggle := Pending(true, false, 2), posts := [Post(phone, true, false)]);
  }

  /** A conversation is switched while a request is out. Once that is answered, the button of the
  new conversation shows what the server says of it exactly when it is the same conversation, or
  the server happens to say what the request asked for. */
  lemma LateConfirmationMisleads(actions: seq<Action>, other: Phone, row: bool)
    requires Possible(actions) && Careful(actions) && After(actions).posts != []
    ensures var s := After(actions);
      var p := s.posts[0];
      var switched := Next(s, Open(other, row));
      && (!p.applied ==> Enabled(switched, ApplyPost(0)))
      && var applied := if p.applied then switched else Next(switched, ApplyPost(0));
         && Enabled(applied, AnswerPost(0))
         && var t := Next(applied, AnswerPost(0));
            && t.current == Some(other) && t.toggle.Settled? && t.known
            && (Shown(t.toggle) == t.AtServer(other) <==> other == p.phone || s.AtServer(other) == p.want)
  {
    TracesAreSafe(actions);
  }

  /** After a click on "not paused" that has been applied, and a switch to another conversation. */
  lemma SwitchedTrace(phone: Phone, other: Phone) returns (actions: seq<Action>)
    ensures Possible(actions) && !Careful(actions)
    ensures After(actions)
         == Net(Settled(false, 3), INITIAL, Some(other), false, map[phone := true], [], [Post(phone, true, true)])
  {
    actions := OneMore([], START, Open(phone, false));
    var s1 := Net(Settled(false, 1), INITIAL, Some(phone), false, map[], [], []);
    assert After(actions) == s1;
    actions := OneMore(actions, s1, ClickToggle);
    var s2 := s1.(toggle := Pending(true, false, 2), posts := [Post(phone, true, false)]);
    assert After(actions) == s2;
    actions := OneMore(actions, s2, ApplyPost(0));
    var s3 := s2.(server := map[phone := true], posts := [Post(phone, true, true)]);
    assert After(actions) == s3;
    actions := OneMore(actions, s3, Open(other, false));
  }

  /** Switching conversations while a request is out: its confirmation is taken for the new one. */
  lemma LateConfirmationLeaks(phone: Phone, other: Phone) returns (actions: seq<Action>)
    requires phone != other
    ensures Possible(actions) && !Careful(actions)
    ensures var s := After(actions);
      s.current == Some(other) && s.toggle.Settled? && s.known && Shown(s.toggle) && !s.AtServer(other)
  {
    actions := SwitchedTrace(phone, other);
    var s4 := After(actions);
    actions := OneMore(actions, s4, AnswerPost(0));
  }
}
