/**
 The event bus as it runs (onto_platform/chat/sse.py): one queue per subscriber, filled by replay
 on subscribe and by every publish. Putting on an unbounded queue never waits, so each method is one
 atomic step; only taking from an empty queue waits. Every method is proved to do to the logs and
 cursors of BusModel what its namesake there does.
 */
module EventBuses {
  import opened Wrappers
  import opened Sequences
  import opened BusModel

  /** The queue of a subscriber: the given events, then the sentinel if the turn is closed. */
  function Pending(events: seq<Event>, closed: bool): seq<Option<Event>> {
    seq(|events|, i requires 0 <= i < |events| => Some(events[i])) + if closed then [None] else []
  }

  lemma PendingPush(events: seq<Event>, e: Event)
    ensures Pending(events, false) + [Some(e)] == Pending(events + [e], false)
    ensures Pending(events, false) + [None] == Pending(events, true)
  {}

  class Subscription {
    const state: TurnState
    var queue: seq<Option<Event>>
    ghost var yielded: seq<Event>

    constructor (state: TurnState, queue: seq<Option<Event>>)
      ensures this.state == state && this.queue == queue && yielded == []
    {
      this.state, this.queue := state, queue;
      yielded := [];
    }

    /** Yielded events followed by queued ones are the turn's buffer; one sentinel ends a closed turn. */
    ghost predicate InStep()
      reads this, state
    {
      && |yielded| <= |state.buffer|
      && yielded == state.buffer[..|yielded|]
      && queue == Pending(state.buffer[|yielded|..], state.closed)
    }

    /** Queues the whole buffer, and the sentinel if the turn is already over. */
    method Replay()
      requires queue == [] && yielded == []
      modifies this`queue
      ensures InStep()
    {
      for i := 0 to |state.buffer|
        invariant queue == Pending(state.buffer[..i], false)
      {
        PendingPush(state.buffer[..i], state.buffer[i]);
        queue := queue + [Some(state.buffer[i])];
        assert state.buffer[..i + 1] == state.buffer[..i] + [state.buffer[i]];
      }
      assert state.buffer[..|state.buffer|] == state.buffer == state.buffer[0..];
      if state.closed {
        PendingPush(state.buffer, Event("", ""));
        queue := queue + [None];
      }
    }

    /** Takes the event at the head of the queue and yields it. */
    method Yield() returns (e: Event)
      requires InStep() && queue != [] && queue[0].Some?
      modifies this
      ensures InStep() && yielded == old(yielded) + [e]
      ensures e == old(queue[0].value)
    {
      e := queue[0].value;
      queue, yielded := queue[1..], yielded + [e];
      assert state.buffer[|yielded|..] == state.buffer[old(|yielded|)..][1..];
    }
  }

  /** Puts one item into each of the given queues. */
  method Broadcast(subs: seq<Subscription>, item: Option<Event>)
    requires Distinct(subs)
    modifies (set s | s in subs)`queue
    ensures forall s | s in subs :: s.queue == old(s.queue) + [item]
  {
    for i := 0 to |subs|
      invariant forall j | 0 <= j < i :: subs[j].queue == old(subs[j].queue) + [item]
      invariant forall j | i <= j < |subs| :: subs[j].queue == old(subs[j].queue)
    {
      subs[i].queue := subs[i].queue + [item];
    }
  }

  class TurnState {
    ghost const id: string
    var subs: seq<Subscription>
    var buffer: seq<Event>
    var closed: bool

    constructor (ghost id: string)
      ensures this.id == id && subs == [] && buffer == [] && !closed
      ensures Valid() && View() == Turn([], false, map[])
    {
      this.id := id;
      subs, buffer, closed := [], [], false;
    }

    ghost predicate Valid()
      reads this, subs
    {
      && Distinct(subs)
      && (forall s | s in subs :: s.state == this && s.InStep())
    }

    ghost function View(): Turn<Subscription>
      reads this, subs
    {
      Turn(buffer, closed, map s | s in subs :: |s.yielded|)
    }

    method Register(s: Subscription)
      requires Valid() && s !in subs && s.state == this && s.InStep() && s.yielded == []
      modifies this`subs
      ensures Valid() && subs == old(subs) + [s]
      ensures View() == old(View()).(cursors := old(View()).cursors[s := 0])
    {
      DistinctSnoc(subs, s);
      subs := subs + [s];
    }

    method Publish(e: Event)
      requires Valid() && !closed
      modifies this`buffer, subs`queue
      ensures Valid()
      ensures View() == old(View()).(buffer := old(buffer) + [e])
    {
      buffer := buffer + [e];
      Broadcast(subs, Some(e));
      forall s | s in subs ensures s.InStep() {
        PendingPush(old(buffer)[|s.yielded|..], e);
        assert buffer[|s.yielded|..] == old(buffer)[|s.yielded|..] + [e];
      }
    }

    method Close()
      requires Valid() && !closed
      modifies this`closed, subs`queue
      ensures Valid()
      ensures View() == old(View()).(closed := true)
    {
      closed := true;
      Broadcast(subs, None);
      forall s | s in subs ensures s.InStep() {
        PendingPush(buffer[|s.yielded|..], Event("", ""));
      }
    }

    /** Takes `s` off the list, as the generator's exit does. */
    method Remove(s: Subscription)
      requires Valid() && s in subs
      modifies this`subs
      ensures Valid() && forall x :: x in subs <==> x in old(subs) && x != s
      ensures View() == old(View()).(cursors := old(View()).cursors - {s})
    {
      WithoutRemoves(subs, s);
      subs := Without(subs, s);
    }

    /** A wake-up that yields an event. */
    method Deliver(s: Subscription) returns (e: Event)
      requires Valid() && s in subs && s.queue != [] && s.queue[0].Some?
      modifies s
      ensures Valid()
      ensures e == old(s.queue[0].value) && s.yielded == old(s.yielded) + [e]
      ensures View() == old(View()).(cursors := old(View()).cursors[s := old(|s.yielded|) + 1])
    {
      assert s.InStep();
      e := s.Yield();
      forall x | x in subs ensures x.state == this && x.InStep() {
        assert x != s ==> old(x.InStep());
      }
    }

    /** A wake-up that meets the sentinel: the subscriber has had the whole buffer, and leaves. */
    method Finish(s: Subscription)
      requires Valid() && s in subs && s.queue != [] && s.queue[0].None?
      modifies this`subs, s`queue
      ensures Valid()
      ensures closed && s.yielded == buffer && forall x :: x in subs <==> x in old(subs) && x != s
      ensures View() == old(View()).(cursors := old(View()).cursors - {s})
    {
      assert s.InStep();
      Remove(s);
      s.queue := s.queue[1..];
    }
  }

  /** A queue with the turn's buffer replayed into it, not yet registered. */
  method NewSubscription(t: TurnState) returns (s: Subscription)
    ensures fresh(s) && s.state == t && s.InStep() && s.yielded == []
  {
    s := new Subscription(t, []);
    s.Replay();
  }

  /** The model with the turn's state created, as `_state` does. */
  ghost function WithTurn(b: Bus<Subscription>, id: string): Bus<Subscription> {
    b.(turns := b.turns[id := TurnOf(b, id)])
  }

  ghost function Appended(b: Bus<Subscription>, id: string, e: Event): Bus<Subscription>
    requires id in b.turns
  {
    b.(turns := b.turns[id := b.turns[id].(buffer := b.turns[id].buffer + [e])])
  }

  ghost function Joined(b: Bus<Subscription>, id: string, s: Subscription): Bus<Subscription>
    requires id in b.turns
  {
    b.(turns := b.turns[id := b.turns[id].(cursors := b.turns[id].cursors[s := 0])])
  }

  ghost function Ended(b: Bus<Subscription>, id: string): Bus<Subscription>
    requires id in b.turns
  {
    b.(turns := b.turns[id := b.turns[id].(closed := true)])
  }

  lemma CloseSplits(b: Bus<Subscription>, id: string)
    ensures BusModel.Close(b, id) ==
            if id !in b.turns || b.turns[id].closed then b
            else Ended(b, id).(cleanups := Ended(b, id).cleanups + [id])
  {}

  ghost function Dropped(b: Bus<Subscription>, id: string): Bus<Subscription> {
    b.(turns := b.turns - {id})
  }

  lemma CleanupSplits(b: Bus<Subscription>, id: string)
    requires id in b.turns
    ensures BusModel.Cleanup(b, id) ==
            if b.turns[id].cursors == map[] then Dropped(BusModel.CancelCleanup(b, id), id)
            else BusModel.CancelCleanup(b, id)
  {}

  lemma NobodySubscribed(t: TurnState)
    ensures t.subs == [] <==> t.View().cursors == map[]
  {
    if t.subs != [] {
      assert t.subs[0] in t.View().cursors;
    }
  }

  ghost function Advanced(b: Bus<Subscription>, id: string, s: Subscription, n: nat): Bus<Subscription>
    requires id in b.turns
  {
    b.(turns := b.turns[id := b.turns[id].(cursors := b.turns[id].cursors[s := n])])
  }

  lemma ReceiveSplits(b: Bus<Subscription>, id: string, s: Subscription)
    requires id in b.turns && s in b.turns[id].cursors && Next(b, id, s).Item?
    ensures BusModel.Receive(b, id, s) == Advanced(b, id, s, b.turns[id].cursors[s] + 1)
  {}

  lemma SubscribeSplits(b: Bus<Subscription>, id: string, s: Subscription)
    ensures BusModel.Subscribe(b, id, s) == Joined(WithTurn(b, id), id, s)
  {}

  lemma PublishSplits(b: Bus<Subscription>, id: string, e: Event)
    ensures BusModel.Publish(b, id, e) ==
            if WithTurn(b, id).turns[id].closed then WithTurn(b, id) else Appended(WithTurn(b, id), id, e)
  {}

  lemma AdvancesTo(t: TurnState, s: Subscription, b: Bus<Subscription>)
    requires t.Valid() && t.id in b.turns && b.turns[t.id] == t.View()
    requires s in t.subs && s.queue != [] && s.queue[0].Some?
    ensures Next(b, t.id, s) == Item(s.queue[0].value)
    ensures BusModel.Receive(b, t.id, s) == Advanced(b, t.id, s, |s.yielded| + 1)
  {
    assert s.InStep();
    ReceiveSplits(b, t.id, s);
  }

  class EventBus {
    var turns: map<string, TurnState>
    var tasks: seq<string>                          // cleanup tasks that have not fired
    ghost var scheduledFor: map<string, TurnState>  // the state each task was created for
    ghost var created: set<Subscription>            // every subscriber so far
    ghost var states: set<TurnState>                // every turn state so far, dropped ones too

    ghost predicate TurnOk(id: string)
      requires id in turns
      reads this, turns.Values, created
    {
      && turns[id].id == id
      && (forall s | s in turns[id].subs :: s in created)
      && turns[id].Valid()
    }

    /** The task is the only one for its turn, whose state is still the closed one it was created for. */
    ghost predicate TasksOk()
      reads this, turns.Values
    {
      && Distinct(tasks)
      && (forall id | id in tasks ::
            id in turns && turns[id].closed && id in scheduledFor && scheduledFor[id] == turns[id])
    }

    /** A state with subscribers is the one stored under its turn id, never a dropped one. */
    ghost predicate StatesOk()
      reads this, states
    {
      && (forall id | id in turns :: turns[id] in states)
      && (forall s | s in created :: s.state in states)
      && (forall t | t in states && t.subs != [] :: t.id in turns && turns[t.id] == t)
    }

    ghost predicate Valid()
      reads this, turns.Values, created, states
    {
      && (forall id | id in turns :: TurnOk(id))
      && TasksOk()
      && StatesOk()
    }

    /** The bus stands for the logs and cursors of `b`. */
    ghost predicate Shows(b: Bus<Subscription>)
      requires Valid()
      reads this, turns.Values, created, states
    {
      && b.cleanups == tasks
      && b.turns.Keys == turns.Keys
      && forall id | id in turns :: b.turns[id] == TurnView(id)
    }

    ghost function TurnView(id: string): Turn<Subscription>
      requires id in turns && TurnOk(id)
      reads this, turns.Values, created
    {
      turns[id].View()
    }

    constructor ()
      ensures Valid() && Shows(Start()) && created == {} && turns == map[]
    {
      turns, tasks, scheduledFor, created, states := map[], [], map[], {}, {};
    }

    /** A turn that a step does not touch stays in order and keeps its view. */
    twostate lemma Untouched(x: string)
      requires old(x in turns && TurnOk(x))
      requires x in turns && turns[x] == old(turns[x]) && unchanged(turns[x])
      requires forall s | s in turns[x].subs :: unchanged(s) && s in created
      ensures TurnOk(x) && TurnView(x) == old(TurnView(x))
    {}

    /** Turns that are kept by a step that changes no turn and no subscriber look as before. */
    twostate lemma KeptStay()
      requires old(Valid()) && old(created) <= created
      requires forall x | x in turns && x in old(turns) :: turns[x] == old(turns[x]) && unchanged(turns[x])
      requires forall s | s in old(created) :: unchanged(s)
      ensures forall x | x in turns && x in old(turns) :: TurnOk(x) && TurnView(x) == old(TurnView(x))
    {
      forall x | x in turns && x in old(turns) ensures TurnOk(x) && TurnView(x) == old(TurnView(x)) {
        assert old(TurnOk(x));
        Untouched(x);
      }
    }

    /** Turn `id` is there, with a new state if it was not there before; nothing else is added. */
    twostate predicate AddsOnly(id: string)
      reads this
    {
      && id in turns
      && if id in old(turns) then turns == old(turns) else turns == old(turns)[id := turns[id]] && fresh(turns[id])
    }

    /** If all turns but an empty new one are shown, the bus shows the model with that turn. */
    lemma ShowsAdded(id: string, b: Bus<Subscription>)
      requires Valid() && id in turns && TurnView(id) == Turn([], false, map[])
      requires b.cleanups == tasks && b.turns.Keys == turns.Keys - {id}
      requires forall x | x in turns && x != id :: b.turns[x] == TurnView(x)
      ensures Shows(WithTurn(b, id))
    {}

    method Insert(id: string, t: TurnState)
      requires Valid() && id !in turns && t.id == id
      requires t.subs == [] && t.Valid() && t.View() == Turn([], false, map[])
      modifies this`turns, this`states
      ensures Valid() && turns == old(turns)[id := t]
      ensures TurnView(id) == Turn([], false, map[])
      ensures forall x | x in old(turns) :: TurnView(x) == old(TurnView(x))
    {
      turns, states := turns[id := t], states + {t};
      KeptStay();
      assert StatesOk() by {
        forall x | x in states && x.subs != [] ensures x.id in turns && turns[x.id] == x {
          assert x.id in old(turns);
        }
      }
      assert TurnOk(id);
    }

    method InsertShown(id: string, t: TurnState, ghost b: Bus<Subscription>)
      requires Valid() && Shows(b) && id !in turns && t.id == id
      requires t.subs == [] && t.Valid() && t.View() == Turn([], false, map[])
      modifies this`turns, this`states
      ensures Valid() && turns == old(turns)[id := t]
      ensures Shows(WithTurn(b, id))
    {
      assert forall x | x in turns :: b.turns[x] == TurnView(x);
      Insert(id, t);
      assert forall x | x in turns && x != id :: b.turns[x] == TurnView(x);
      ShowsAdded(id, b);
    }

    /** The state of a turn, created on first use. */
    method StateOf(id: string, ghost b: Bus<Subscription>) returns (t: TurnState)
      requires Valid() && Shows(b)
      modifies this`turns, this`states
      ensures Valid() && id in turns && turns[id] == t && AddsOnly(id)
      ensures id !in old(turns) ==> t.subs == []
      ensures Shows(WithTurn(b, id))
    {
      if id in turns {
        t := turns[id];
      } else {
        t := new TurnState(id);
        InsertShown(id, t, b);
      }
    }

    method PublishTo(t: TurnState, e: Event, ghost b: Bus<Subscription>)
      requires Valid() && Shows(b) && t.id in turns && turns[t.id] == t && !t.closed
      modifies t`buffer, t.subs`queue
      ensures Valid()
      ensures Shows(Appended(b, t.id, e))
    {
      assert b.turns[t.id] == TurnView(t.id);
      t.Publish(e);
      forall x | x in turns && x != t.id ensures TurnOk(x) && TurnView(x) == old(TurnView(x)) {
        assert old(TurnOk(x));
        assert forall s | s in turns[x].subs :: s !in t.subs;
        Untouched(x);
      }
    }

    method Publish(id: string, e: Event, ghost b: Bus<Subscription>)
      requires Valid() && Shows(b)
      modifies this`turns, this`states, turns.Values, created`queue
      ensures Valid() && Shows(BusModel.Publish(b, id, e))
      ensures AddsOnly(id) && created == old(created)
    {
      ghost var c := WithTurn(b, id);
      PublishSplits(b, id, e);
      var t := StateOf(id, b);
      assert AddsOnly(id) && t.id == id by { assert TurnOk(id); }
      assert t.closed == c.turns[id].closed by { assert TurnView(id) == c.turns[id]; }
      if !t.closed {
        PublishTo(t, e, c);
      }
    }

    /** `NewSubscription` disturbs nobody: every turn looks as it did before. */
    method NewSubscriber(t: TurnState, ghost b: Bus<Subscription>) returns (s: Subscription)
      requires Valid() && Shows(b) && t.id in turns && turns[t.id] == t
      modifies this`created
      ensures Valid() && Shows(b) && fresh(s) && created == old(created) + {s}
      ensures s !in t.subs && s.state == t && s.InStep() && s.yielded == []
    {
      s := NewSubscription(t);
      assert s !in t.subs by { assert TurnOk(t.id); }
      created := created + {s};
      KeptStay();
    }

    method RegisterWith(t: TurnState, s: Subscription, ghost b: Bus<Subscription>)
      requires Valid() && Shows(b) && t.id in turns && turns[t.id] == t
      requires s in created && s !in t.subs && s.state == t && s.InStep() && s.yielded == []
      modifies t`subs
      ensures Valid() && t.subs == old(t.subs) + [s]
      ensures Shows(Joined(b, t.id, s))
    {
      assert b.turns[t.id] == TurnView(t.id);
      t.Register(s);
      forall x | x in turns && x != t.id ensures TurnOk(x) && TurnView(x) == old(TurnView(x)) {
        assert old(TurnOk(x));
        Untouched(x);
      }
    }

    /** Replays the buffer into a new queue, adds the sentinel if the turn is over, and registers it. */
    method Subscribe(id: string, ghost b: Bus<Subscription>) returns (s: Subscription)
      requires Valid() && Shows(b)
      modifies this`turns, this`states, this`created, turns.Values
      ensures Valid() && fresh(s) && s.state.id == id && created == old(created) + {s}
      ensures s in s.state.subs && s.yielded == []
      ensures Shows(BusModel.Subscribe(b, id, s))
      ensures AddsOnly(id)
    {
      var t := StateOf(id, b);
      s := NewSubscriber(t, WithTurn(b, id));
      SubscribeSplits(b, id, s);
      RegisterWith(t, s, WithTurn(b, id));
    }

    method CloseTurn(t: TurnState, ghost b: Bus<Subscription>)
      requires Valid() && Shows(b) && t.id in turns && turns[t.id] == t && !t.closed
      modifies t`closed, t.subs`queue
      ensures Valid() && t.closed
      ensures Shows(Ended(b, t.id))
    {
      assert b.turns[t.id] == TurnView(t.id);
      t.Close();
      forall x | x in turns && x != t.id ensures TurnOk(x) && TurnView(x) == old(TurnView(x)) {
        assert old(TurnOk(x));
        assert forall s | s in turns[x].subs :: s !in t.subs;
        Untouched(x);
      }
    }

    /** Creates the cleanup task of a turn that has just been closed. */
    method Schedule(id: string, ghost b: Bus<Subscription>)
      requires Valid() && Shows(b) && id in turns && turns[id].closed && id !in tasks
      modifies this`tasks, this`scheduledFor
      ensures Valid() && Shows(b.(cleanups := b.cleanups + [id]))
      ensures id in scheduledFor && scheduledFor[id] == turns[id]
    {
      DistinctSnoc(tasks, id);
      tasks := tasks + [id];
      scheduledFor := scheduledFor[id := turns[id]];
      KeptStay();
    }

    /** Ends a turn once: a sentinel for every subscriber, and one delayed cleanup. */
    method Close(id: string, ghost b: Bus<Subscription>)
      requires Valid() && Shows(b)
      modifies this`tasks, this`scheduledFor, turns.Values, created`queue
      ensures Valid() && Shows(BusModel.Close(b, id))
      ensures turns == old(turns) && created == old(created)
    {
      CloseSplits(b, id);
      if id !in turns || turns[id].closed {
        assert id in turns ==> TurnView(id) == b.turns[id];
        return;
      }
      assert TurnView(id) == b.turns[id] && TurnOk(id);
      CloseTurn(turns[id], b);
      Schedule(id, Ended(b, id));
    }

    /** If all turns but one are shown, the bus shows what the model becomes at that turn. */
    lemma ShowsMove(id: string, b: Bus<Subscription>, c: Bus<Subscription>)
      requires Valid() && id in turns
      requires b.cleanups == tasks && b.turns.Keys == turns.Keys
      requires forall x | x in turns && x != id :: b.turns[x] == TurnView(x)
      requires c == b.(turns := b.turns[id := TurnView(id)])
      ensures Shows(c)
    {}

    method DeliverTo(t: TurnState, s: Subscription, ghost b: Bus<Subscription>) returns (e: Event)
      requires Valid() && Shows(b) && t.id in turns && turns[t.id] == t
      requires s in t.subs && s.queue != [] && s.queue[0].Some?
      modifies s
      ensures Valid() && e == old(s.queue[0].value) && s.yielded == old(s.yielded) + [e]
      ensures Shows(Advanced(b, t.id, s, old(|s.yielded|) + 1))
    {
      assert b.turns[t.id] == TurnView(t.id) && TurnOk(t.id);
      ghost var c := Advanced(b, t.id, s, |s.yielded| + 1);
      e := t.Deliver(s);
      forall x | x in turns && x != t.id ensures TurnOk(x) && TurnView(x) == old(TurnView(x)) {
        assert old(TurnOk(x));
        assert s !in turns[x].subs;
        Untouched(x);
      }
      assert TurnOk(t.id);
      ShowsMove(t.id, b, c);
    }

    method FinishAt(t: TurnState, s: Subscription, ghost b: Bus<Subscription>)
      requires Valid() && Shows(b) && t.id in turns && turns[t.id] == t
      requires s in t.subs && s.queue != [] && s.queue[0].None?
      modifies t`subs, s`queue
      ensures Valid() && Next(b, t.id, s) == EndOfTurn && s.yielded == b.turns[t.id].buffer
      ensures Shows(BusModel.Receive(b, t.id, s))
    {
      assert b.turns[t.id] == TurnView(t.id) && TurnOk(t.id);
      t.Finish(s);
      forall x | x in turns && x != t.id ensures TurnOk(x) && TurnView(x) == old(TurnView(x)) {
        assert old(TurnOk(x));
        assert s !in turns[x].subs;
        Untouched(x);
      }
    }

    /** One wake-up of a registered subscriber whose queue is not empty. */
    method Receive(s: Subscription, ghost b: Bus<Subscription>) returns (item: Option<Event>)
      requires Valid() && Shows(b) && s in created && s in s.state.subs && s.queue != []
      modifies s, s.state`subs
      ensures Valid()
      ensures s.state.id in b.turns && s in b.turns[s.state.id].cursors
      ensures Next(b, s.state.id, s) == if item.Some? then Item(item.value) else EndOfTurn
      ensures item.None? ==> s.yielded == b.turns[s.state.id].buffer
      ensures s.yielded == old(s.yielded) + if item.Some? then [item.value] else []
      ensures Shows(BusModel.Receive(b, s.state.id, s))
    {
      assert TurnOk(s.state.id) && b.turns[s.state.id] == TurnView(s.state.id);
      if s.queue[0].Some? {
        AdvancesTo(s.state, s, b);
        var e := DeliverTo(s.state, s, b);
        item := Some(e);
      } else {
        FinishAt(s.state, s, b);
        item := None;
      }
    }

    /** A subscriber waits exactly when the model has nothing for it. */
    lemma WaitsIff(s: Subscription, b: Bus<Subscription>)
      requires Valid() && Shows(b) && s in created && s in s.state.subs
      ensures s.state.id in b.turns && s in b.turns[s.state.id].cursors
      ensures s.queue == [] <==> Next(b, s.state.id, s) == Waiting
    {
      assert TurnOk(s.state.id) && b.turns[s.state.id] == TurnView(s.state.id) && s.InStep();
    }

    /** The generator is closed before the end of the turn. */
    method Leave(s: Subscription, ghost b: Bus<Subscription>)
      requires Valid() && Shows(b) && s in created && s in s.state.subs
      modifies s.state`subs
      ensures Valid() && Shows(BusModel.Leave(b, s.state.id, s))
    {
      ghost var id := s.state.id;
      assert b.turns[id] == TurnView(id) && TurnOk(id);
      s.state.Remove(s);
      forall x | x in turns && x != id ensures TurnOk(x) && TurnView(x) == old(TurnView(x)) {
        assert old(TurnOk(x));
        Untouched(x);
      }
    }

    /** The task is cancelled instead: the turn is kept. */
    method CleanupCancelled(id: string, ghost b: Bus<Subscription>)
      requires Valid() && Shows(b) && id in tasks
      modifies this`tasks
      ensures Valid() && Shows(BusModel.CancelCleanup(b, id)) && id !in tasks
    {
      WithoutRemoves(tasks, id);
      tasks := Without(tasks, id);
      KeptStay();
    }

    /** Forgets the state of a turn without subscribers. */
    method Drop(id: string, ghost b: Bus<Subscription>)
      requires Valid() && Shows(b) && id in turns && turns[id].subs == [] && id !in tasks
      modifies this`turns
      ensures Valid() && Shows(Dropped(b, id)) && turns == old(turns) - {id}
    {
      turns := turns - {id};
      KeptStay();
    }

    /** The delayed cleanup fires: it drops the very state it was created for, and only if nobody is subscribed. */
    method CleanupFires(id: string, ghost b: Bus<Subscription>)
      requires Valid() && Shows(b) && id in tasks
      modifies this`tasks, this`turns
      ensures Valid() && Shows(BusModel.Cleanup(b, id)) && id !in tasks
      ensures old(id in turns && id in scheduledFor && turns[id] == scheduledFor[id] && turns[id].closed)
      ensures if old(turns[id].subs) == [] then turns == old(turns) - {id} else turns == old(turns)
    {
      assert b.turns[id] == TurnView(id);
      CleanupSplits(b, id);
      var t := turns[id];
      NobodySubscribed(t);
      CleanupCancelled(id, b);
      if t.subs == [] {
        Drop(id, BusModel.CancelCleanup(b, id));
      }
    }
  }
}
