/** One inbound message end to end: de-duplication, the block and handover gates, the machine,
the transcript. Run one after another, turns are exactly the steps of FunnelRuns. */
module ConversationService {
  import opened Wrappers
  import opened Domain
  import opened FunnelRuns
  import opened ConversationMachine
  import Funnel
  import InboundTurns

  /** A transcript row: the conversation it belongs to, and WhatsApp's identifier or None for the bot. */
  datatype Row = Row(thread: nat, waId: Option<string>)

  const NOTHING := TurnResult([], None, false)

  class ConversationService {
    const deps: Deps
    var users: map<Text, Contact>
    var gates: map<Text, InboundTurns.Gate>
    var threads: seq<Thread>
    var leads: seq<Lead>
    var writers: seq<nat>
    var transcript: seq<Row>

    constructor (deps: Deps)
      ensures this.deps == deps && Value() == EMPTY_STORE && transcript == [] && gates == map[]
      ensures Safe(deps, Value())
    {
      this.deps := deps;
      users, gates, threads, leads, writers, transcript := map[], map[], [], [], [], [];
    }

    function Value(): Store
      reads this
    {
      Store(users, threads, leads, writers)
    }

    /** WhatsApp's message has a row in the transcript. */
    predicate Stored(waId: string)
      reads this
    {
      exists i :: 0 <= i < |transcript| && transcript[i].waId == Some(waId)
    }

    function GateOf(phone: Text): InboundTurns.Gate
      reads this
    {
      if phone in gates then gates[phone] else InboundTurns.Gate(false, false)
    }

    method GetOrCreateUser(phone: Text, profileName: Option<Text>)
      modifies this`users
      ensures users == old(users)[phone := ContactFor(old(Value()), phone, profileName)]
    {
      if phone in users {
        if profileName.Some? && users[phone].profileName != profileName {
          users := users[phone := users[phone].(profileName := profileName)];
        }
        assert users[phone] == ContactFor(old(Value()), phone, profileName);
        assert users == old(users)[phone := users[phone]];
      } else {
        users := users[phone := Contact(phone, None, profileName, false)];
      }
    }

    /** The newest open conversation of this contact. */
    method GetActive(phone: Text) returns (k: Option<nat>)
      ensures k == ActiveAmong(threads, phone)
    {
      var n := |threads|;
      assert threads[..n] == threads;
      while n > 0
        invariant 0 <= n <= |threads|
        invariant ActiveAmong(threads, phone) == ActiveAmong(threads[..n], phone)
      {
        if threads[n - 1].open && threads[n - 1].phone == phone {
          return Some(n - 1);
        }
        assert threads[..n][..n - 1] == threads[..n - 1];
        n := n - 1;
      }
      k := None;
    }

    method GetOrCreateActive(phone: Text) returns (k: nat)
      modifies this`threads
      ensures k == IndexFor(old(Value()), phone)
      ensures threads == Placed(old(threads), k, ThreadFor(old(Value()), phone))
    {
      var active := GetActive(phone);
      if active.Some? {
        assert threads[active.value := threads[active.value]] == threads;
        return active.value;
      }
      k := |threads|;
      threads := threads + [Thread(phone, NEW_CONVERSATION, true, [], [])];
    }

    method ExistsWaMessage(waId: string) returns (found: bool)
      ensures found == Stored(waId)
    {
      for i := 0 to |transcript|
        invariant forall j :: 0 <= j < i ==> transcript[j].waId != Some(waId)
      {
        if transcript[i].waId == Some(waId) {
          return true;
        }
      }
      found := false;
    }

    /** The rows of the bot's replies to one message. */
    static function ReplyRows(thread: nat, replies: seq<Reply>): seq<Row> {
      seq(|replies|, _ => Row(thread, None))
    }

    /** Run the machine on the contact's conversation and write back what it assigned. */
    method RunMachine(k: nat, phone: Text, inbound: Inbound) returns (result: TurnResult)
      requires k < |threads| && phone in users
      modifies this`users, this`threads, this`leads, this`writers
      ensures Value() == Answered(deps, old(Value()), k, phone, inbound)
      ensures result == OutcomeOf(deps, old(Value()), k, phone, inbound).1
    {
      var conversation := new Conversation(threads[k].conv);
      var user := new User(users[phone]);
      var repository := new LeadRepository(leads);
      var turn := new TurnContext(deps, inbound, conversation, user, repository);
      result := turn.Handle();
      users := users[phone := user.Value()];
      leads := repository.rows;
      writers := WrittenBy(writers, result.lead, k);
      threads := threads[k := Replied(threads[k], inbound, conversation.Value(), result)];
    }

    method AddReplies(k: nat, replies: seq<Reply>)
      modifies this`transcript
      ensures transcript == old(transcript) + ReplyRows(k, replies)
    {
      for i := 0 to |replies|
        invariant transcript == old(transcript) + ReplyRows(k, replies[..i])
      {
        transcript := transcript + [Row(k, None)];
      }
      assert replies[..|replies|] == replies;
    }

    /** Find or open the conversation and record the message in it. */
    method RecordTurn(waId: string, phone: Text) returns (k: nat)
      modifies this`threads, this`transcript
      ensures k == IndexFor(old(Value()), phone)
      ensures threads == Placed(old(threads), k, ThreadFor(old(Value()), phone))
      ensures transcript == old(transcript) + [Row(k, Some(waId))]
    {
      k := GetOrCreateActive(phone);
      transcript := transcript + [Row(k, Some(waId))];
    }

    /** Answering a message just recorded completes one step of the funnel. */
    method Converse(ghost before: Store, k: nat, phone: Text, profileName: Option<Text>, inbound: Inbound)
      returns (result: TurnResult)
      requires k == IndexFor(before, phone) && Value() == Opened(before, phone, profileName)
      modifies this`users, this`threads, this`leads, this`writers, this`transcript
      ensures Value() == Step(deps, before, Message(phone, profileName, inbound))
      ensures result == ResultOf(deps, before, Message(phone, profileName, inbound))
      ensures transcript == old(transcript) + ReplyRows(k, result.replies)
    {
      AnsweringIsAStep(deps, before, phone, profileName, inbound);
      result := RunMachine(k, phone, inbound);
      AddReplies(k, result.replies);
    }

    /** Past the block gate: the message is recorded, and answered unless an agent has taken over. */
    method RunUnblocked(ghost before: Store, waId: string, phone: Text, profileName: Option<Text>, inbound: Inbound)
      returns (result: TurnResult)
      requires Value() == Refreshed(before, phone, profileName) && !GateOf(phone).blocked
      modifies this`users, this`threads, this`leads, this`writers, this`transcript
      ensures var e := old(Taken(phone, profileName, inbound));
        && Value() == Step(deps, before, e) && result == ResultOf(deps, before, e)
        && transcript == old(transcript) + [Row(IndexFor(before, phone), Some(waId))]
                       + ReplyRows(IndexFor(before, phone), result.replies)
    {
      var k := RecordTurn(waId, phone);
      assert Value() == Opened(before, phone, profileName);
      if GateOf(phone).paused {
        return NOTHING;
      }
      result := Converse(before, k, phone, profileName, inbound);
    }

    /** What the gates make of a message. */
    function Taken(phone: Text, profileName: Option<Text>, inbound: Inbound): Event
      reads this
    {
      if GateOf(phone).blocked then Blocked(phone, profileName)
      else if GateOf(phone).paused then Paused(phone, profileName)
      else Message(phone, profileName, inbound)
    }

    /** What taking a message did: nothing for a redelivery, else one step of a run, with the message
    in the transcript unless it was blocked, and every reply behind it. */
    ghost predicate Taking(
        before: Store, transcribed: seq<Row>, duplicate: bool, e: Event, row: Row, result: TurnResult)
      reads this
    {
      if duplicate then Value() == before && transcript == transcribed && result == NOTHING
      else
        && Value() == Step(deps, before, e) && result == ResultOf(deps, before, e)
        && transcript
           == transcribed + (if e.Blocked? then [] else [row] + ReplyRows(row.thread, result.replies))
    }

    method TakeMessage(waId: string, phone: Text, profileName: Option<Text>, inbound: Inbound)
      returns (result: TurnResult)
      modifies this`users, this`threads, this`leads, this`writers, this`transcript
      ensures Taking(old(Value()), old(transcript), old(Stored(waId)), old(Taken(phone, profileName, inbound)),
                     Row(IndexFor(old(Value()), phone), Some(waId)), result)
    {
      var duplicate := ExistsWaMessage(waId);
      if duplicate {
        return NOTHING;
      }
      ghost var before := Value();
      GetOrCreateUser(phone, profileName);
      if GateOf(phone).blocked {
        return NOTHING;
      }
      result := RunUnblocked(before, waId, phone, profileName, inbound);
    }

    /** One message end to end. A redelivery changes nothing. Any other is one step of a run: a
    blocked contact's refreshes the profile name, a paused one's is recorded too, and the rest go
    through the funnel, their replies in the transcript behind them. So whatever comes in, in
    whatever order, the service stays within the invariant of the runs. */
    method RunTurn(waId: string, phone: Text, profileName: Option<Text>, inbound: Inbound) returns (result: TurnResult)
      requires Safe(deps, Value())
      modifies this`users, this`threads, this`leads, this`writers, this`transcript
      ensures Safe(deps, Value())
      ensures Taking(old(Value()), old(transcript), old(Stored(waId)), old(Taken(phone, profileName, inbound)),
                     Row(IndexFor(old(Value()), phone), Some(waId)), result)
      ensures old(Stored(waId) || GateOf(phone).blocked) ==>
        threads == old(threads) && leads == old(leads) && transcript == old(transcript) && result == NOTHING
      ensures old(!Stored(waId) && !GateOf(phone).blocked) ==>
        var row := Row(IndexFor(old(Value()), phone), Some(waId));
        if old(GateOf(phone).paused) then
          leads == old(leads) && transcript == old(transcript) + [row] && result == NOTHING
        else
          var (w, r) := Funnel.Handle(deps, WorldFor(old(Value()), phone, profileName), inbound);
          leads == w.leads && transcript == old(transcript) + [row] + ReplyRows(row.thread, r.replies) && result == r
    {
      ghost var before, e := Value(), Taken(phone, profileName, inbound);
      StepKeepsSafe(deps, before, e);
      result := TakeMessage(waId, phone, profileName, inbound);
    }
  }

  /** What an event answers: nothing, unless it is a message the machine handles. */
  function ResultOf(d: Deps, s: Store, e: Event): TurnResult {
    if e.Message? then Funnel.Handle(d, WorldFor(s, e.phone, e.profileName), e.inbound).1 else NOTHING
  }

  /** What the machine decides for a message recorded in conversation k. */
  function OutcomeOf(d: Deps, s: Store, k: nat, phone: Text, inbound: Inbound): Funnel.Outcome
    requires k < |s.threads| && phone in s.users
  {
    Funnel.Handle(d, World(s.threads[k].conv, s.users[phone], s.leads), inbound)
  }

  /** The store once that has been written back. */
  function Answered(d: Deps, s: Store, k: nat, phone: Text, inbound: Inbound): Store
    requires k < |s.threads| && phone in s.users
  {
    var (w, r) := OutcomeOf(d, s, k, phone, inbound);
    Store(s.users[phone := w.user], s.threads[k := Replied(s.threads[k], inbound, w.conv, r)], w.leads,
          WrittenBy(s.writers, r.lead, k))
  }

  /** Answering a message just recorded completes one step of the funnel. */
  lemma AnsweringIsAStep(d: Deps, s: Store, phone: Text, profileName: Option<Text>, inbound: Inbound)
    ensures var s0, k := Opened(s, phone, profileName), IndexFor(s, phone);
      && k < |s0.threads| && s0.threads[k] == ThreadFor(s, phone)
      && Answered(d, s0, k, phone, inbound) == Step(d, s, Message(phone, profileName, inbound))
      && OutcomeOf(d, s0, k, phone, inbound) == Funnel.Handle(d, WorldFor(s, phone, profileName), inbound)
  {
    var s0, k := Opened(s, phone, profileName), IndexFor(s, phone);
    var o := OutcomeOf(d, s0, k, phone, inbound);
    assert World(s0.threads[k].conv, s0.users[phone], s0.leads) == WorldFor(s, phone, profileName);
    assert s0.users[phone := o.0.user] == s.users[phone := o.0.user];
    PlacedTwice(s.threads, k, s0.threads[k], Replied(s0.threads[k], inbound, o.0.conv, o.1));
  }

  lemma PlacedTwice<T>(xs: seq<T>, k: nat, x: T, y: T)
    requires k <= |xs|
    ensures Placed(xs, k, x)[k := y] == Placed(xs, k, y)
  {
  }
}
