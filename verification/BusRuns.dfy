/**
 Whole lives of the event bus (onto_platform/chat/sse.py): publishers, subscribers and cleanup tasks
 take turns in any order, and every such run of the queues is a run of the logs and cursors.
 */
module BusRuns {
  import opened Wrappers
  import opened BusModel
  import opened EventBuses

  type Step = BusStep<Subscription>

  /** What happens next. Subscribers are numbered in the order in which they joined. */
  datatype Choice =
    | Join(id: string)
    | Send(id: string, event: Event)
    | End(id: string)
    | Wake(n: nat)
    | Quit(n: nat)
    | Fire(id: string)
    | Abort(id: string)

  ghost predicate Listens(b: Bus<Subscription>, s: Subscription) {
    s.state.id in b.turns && s in b.turns[s.state.id].cursors
  }

  ghost predicate Ready(b: Bus<Subscription>, s: Subscription) {
    Listens(b, s) && Next(b, s.state.id, s) != Waiting
  }

  /** Only a registered subscriber wakes up or leaves, only with something queued, and only a scheduled cleanup ends. */
  ghost predicate Possible(choice: Choice, joined: seq<Subscription>, b: Bus<Subscription>) {
    match choice
    case Wake(n) => n < |joined| && Ready(b, joined[n])
    case Quit(n) => n < |joined| && Listens(b, joined[n])
    case Fire(id) => id in b.cleanups
    case Abort(id) => id in b.cleanups
    case _ => true
  }

  ghost predicate CarriesOut(step: Step, choice: Choice, joined: seq<Subscription>) {
    match choice
    case Join(id) => step.DoSubscribe? && step.id == id && step.s in joined
    case Send(id, event) => step == DoPublish(id, event)
    case End(id) => step == DoClose(id)
    case Wake(n) => n < |joined| && step == DoReceive(joined[n].state.id, joined[n])
    case Quit(n) => n < |joined| && step == DoLeave(joined[n].state.id, joined[n])
    case Fire(id) => step == DoCleanup(id)
    case Abort(id) => step == DoCancelCleanup(id)
  }

  /** A choice is carried out by a step if it is possible, and else passed over. */
  ghost predicate Played(choice: Choice, joined: seq<Subscription>, b: Bus<Subscription>, step: Option<Step>) {
    match step
    case None => !Possible(choice, joined, b)
    case Some(x) => Possible(choice, joined, b) && CarriesOut(x, choice, joined) && Enabled(b, x)
  }

  ghost function After(b: Bus<Subscription>, step: Option<Step>): Bus<Subscription>
    requires step.Some? ==> Enabled(b, step.value)
  {
    if step.Some? then Do(b, step.value) else b
  }

  /** What the step hands to subscriber `s`. */
  ghost function Given(b: Bus<Subscription>, step: Option<Step>, s: Subscription): seq<Event>
    requires step.Some? ==> Enabled(b, step.value)
  {
    if step.Some? then Delivered(b, step.value, s.state.id, s) else []
  }

  lemma GivenOnWake(b: Bus<Subscription>, s: Subscription)
    requires Listens(b, s)
    ensures Given(b, Some(DoReceive(s.state.id, s)), s) ==
            var next := Next(b, s.state.id, s); if next.Item? then [next.event] else []
    ensures forall x | x != s :: Given(b, Some(DoReceive(s.state.id, s)), x) == []
  {}

  /** Only a wake-up hands anything to anybody. */
  lemma NothingGiven(b: Bus<Subscription>, step: Option<Step>)
    requires step.Some? ==> Enabled(b, step.value) && !step.value.DoReceive?
    ensures forall x :: Given(b, step, x) == []
  {}

  /** Registered with its turn state, and so with the bus. */
  lemma ListensIff(bus: EventBus, b: Bus<Subscription>, s: Subscription)
    requires bus.Valid() && bus.Shows(b) && s in bus.created
    ensures s in s.state.subs <==> Listens(b, s)
    ensures s in s.state.subs ==> s.state in bus.turns.Values && (s.queue == [] <==> !Ready(b, s))
  {
    if s in s.state.subs {
      bus.WaitsIff(s, b);
    }
    if Listens(b, s) {
      var id := s.state.id;
      assert bus.TurnOk(id) && b.turns[id] == bus.TurnView(id);
    }
  }

  /** All subscribers of the model are among `created`. */
  ghost predicate OnlyOf(b: Bus<Subscription>, created: set<Subscription>) {
    forall id, s | id in b.turns && s in b.turns[id].cursors :: s in created
  }

  lemma OnlyCreatedListen(bus: EventBus, b: Bus<Subscription>)
    requires bus.Valid() && bus.Shows(b)
    ensures OnlyOf(b, bus.created)
  {
    forall id, s | id in b.turns && s in b.turns[id].cursors ensures s in bus.created {
      assert bus.TurnOk(id) && b.turns[id] == bus.TurnView(id);
    }
  }

  /** Every subscriber has yielded what the step hands to it. */
  twostate predicate Yielded(created: set<Subscription>, b: Bus<Subscription>, new step: Option<Step>)
    requires step.Some? ==> Enabled(b, step.value)
    reads created
  {
    forall x | x in created :: x.yielded == old(x.yielded) + Given(b, step, x)
  }

  /** A registered subscriber takes what is at the head of its queue. */
  method Take(bus: EventBus, s: Subscription, ghost b: Bus<Subscription>)
    requires bus.Valid() && bus.Shows(b) && s in bus.created && s in s.state.subs && s.queue != []
    requires Listens(b, s) && s.state in bus.turns.Values
    modifies bus.created, bus.turns.Values
    ensures bus.Valid() && bus.Shows(BusModel.Receive(b, s.state.id, s))
    ensures Yielded(bus.created, b, Some(DoReceive(s.state.id, s)))
  {
    GivenOnWake(b, s);
    var item := bus.Receive(s, b);
    assert forall x | x in bus.created && x != s :: x.yielded == old(x.yielded);
  }

  method WakeUp(bus: EventBus, s: Subscription, ghost b: Bus<Subscription>) returns (ghost step: Option<Step>)
    requires bus.Valid() && bus.Shows(b) && s in bus.created
    modifies bus.created, bus.turns.Values
    ensures bus.Valid()
    ensures step == if Ready(b, s) then Some(DoReceive(s.state.id, s)) else None
    ensures bus.Shows(After(b, step)) && Yielded(bus.created, b, step)
  {
    ListensIff(bus, b, s);
    step := if s in s.state.subs && s.queue != [] then Some(DoReceive(s.state.id, s)) else None;
    if s in s.state.subs && s.queue != [] {
      Take(bus, s, b);
    } else {
      NothingGiven(b, step);
    }
  }

  method Leaves(bus: EventBus, s: Subscription, ghost b: Bus<Subscription>) returns (ghost step: Option<Step>)
    requires bus.Valid() && bus.Shows(b) && s in bus.created
    modifies bus.turns.Values
    ensures bus.Valid()
    ensures step == if Listens(b, s) then Some(DoLeave(s.state.id, s)) else None
    ensures bus.Shows(After(b, step)) && Yielded(bus.created, b, step)
  {
    ListensIff(bus, b, s);
    step := if s in s.state.subs then Some(DoLeave(s.state.id, s)) else None;
    NothingGiven(b, step);
    if s in s.state.subs {
      bus.Leave(s, b);
    }
  }

  predicate Subset(small: map<string, TurnState>, big: map<string, TurnState>) {
    forall id | id in small :: id in big && small[id] == big[id]
  }

  method Fires(bus: EventBus, id: string, ghost b: Bus<Subscription>) returns (ghost step: Option<Step>)
    requires bus.Valid() && bus.Shows(b)
    modifies bus`tasks, bus`turns
    ensures bus.Valid() && Subset(bus.turns, old(bus.turns))
    ensures step == if id in b.cleanups then Some(DoCleanup(id)) else None
    ensures bus.Shows(After(b, step))
  {
    step := None;
    if id in bus.tasks {
      step := Some(DoCleanup(id));
      bus.CleanupFires(id, b);
    }
  }

  method Aborts(bus: EventBus, id: string, ghost b: Bus<Subscription>) returns (ghost step: Option<Step>)
    requires bus.Valid() && bus.Shows(b)
    modifies bus`tasks
    ensures bus.Valid()
    ensures step == if id in b.cleanups then Some(DoCancelCleanup(id)) else None
    ensures bus.Shows(After(b, step))
  {
    step := None;
    if id in bus.tasks {
      step := Some(DoCancelCleanup(id));
      bus.CleanupCancelled(id, b);
    }
  }

  /** What a bus refers to is what it referred to before, or new. */
  twostate predicate Grew(bus: EventBus)
    reads bus
  {
    && (forall id | id in bus.turns ::
          (id in old(bus.turns) && bus.turns[id] == old(bus.turns)[id]) || fresh(bus.turns[id]))
    && old(bus.created) <= bus.created && fresh(bus.created - old(bus.created))
  }

  method Joins(bus: EventBus, id: string, ghost b: Bus<Subscription>) returns (s: Subscription, ghost step: Option<Step>)
    requires bus.Valid() && bus.Shows(b)
    modifies bus, bus.turns.Values
    ensures bus.Valid() && step == Some(DoSubscribe(id, s)) && Enabled(b, step.value)
    ensures fresh(s) && s.state.id == id && s.yielded == [] && bus.created == old(bus.created) + {s}
    ensures bus.Shows(After(b, step)) && Grew(bus)
  {
    OnlyCreatedListen(bus, b);
    s := bus.Subscribe(id, b);
    step := Some(DoSubscribe(id, s));
  }

  /** What every choice does: the model follows, and subscribers yield what it hands to them. */
  twostate predicate Follows(bus: EventBus, created: set<Subscription>, b: Bus<Subscription>, new step: Option<Step>)
    requires step.Some? ==> Enabled(b, step.value)
    reads bus, bus.turns.Values, bus.created, bus.states, created
  {
    && bus.Valid() && bus.Shows(After(b, step))
    && Yielded(created, b, step)
    && Grew(bus)
    && forall s | s in bus.created && s !in old(bus.created) :: s.yielded == []
  }

  lemma JoinPlayed(id: string, joined: seq<Subscription>, s: Subscription, b: Bus<Subscription>)
    requires Enabled(b, DoSubscribe(id, s))
    ensures Played(Join(id), joined + [s], b, Some(DoSubscribe(id, s)))
  {}

  method PlayJoin(bus: EventBus, id: string, joined: seq<Subscription>, ghost b: Bus<Subscription>)
    returns (joined': seq<Subscription>, ghost step: Option<Step>)
    requires bus.Valid() && bus.Shows(b) && forall s | s in joined :: s in bus.created
    modifies bus, bus.turns.Values
    ensures Played(Join(id), joined', b, step) && Follows(bus, old(bus.created), b, step)
    ensures joined <= joined' && forall s | s in joined' :: s in bus.created
    ensures forall k | |joined| <= k < |joined'| :: fresh(joined'[k])
  {
    var s;
    s, step := Joins(bus, id, b);
    joined' := joined + [s];
    JoinPlayed(id, joined, s, b);
    NothingGiven(b, step);
    assert Grew(bus);
  }

  lemma WritePlayed(choice: Choice, joined: seq<Subscription>, b: Bus<Subscription>)
    requires choice.Send? || choice.End?
    ensures Played(choice, joined, b,
                   Some(if choice.Send? then DoPublish(choice.id, choice.event) else DoClose(choice.id)))
  {}

  method PlaySend(bus: EventBus, id: string, event: Event, joined: seq<Subscription>, ghost b: Bus<Subscription>)
    returns (ghost step: Option<Step>)
    requires bus.Valid() && bus.Shows(b)
    modifies bus, bus.turns.Values, bus.created`queue
    ensures bus.created == old(bus.created)
    ensures Played(Send(id, event), joined, b, step) && Follows(bus, bus.created, b, step)
  {
    step := Some(DoPublish(id, event));
    WritePlayed(Send(id, event), joined, b);
    NothingGiven(b, step);
    bus.Publish(id, event, b);
    assert Grew(bus);
  }

  method PlayEnd(bus: EventBus, id: string, joined: seq<Subscription>, ghost b: Bus<Subscription>)
    returns (ghost step: Option<Step>)
    requires bus.Valid() && bus.Shows(b)
    modifies bus`tasks, bus`scheduledFor, bus.turns.Values, bus.created`queue
    ensures Played(End(id), joined, b, step) && Follows(bus, bus.created, b, step)
  {
    step := Some(DoClose(id));
    WritePlayed(End(id), joined, b);
    NothingGiven(b, step);
    bus.Close(id, b);
  }

  lemma WakePlayed(n: nat, joined: seq<Subscription>, b: Bus<Subscription>)
    ensures Played(Wake(n), joined, b,
                   if n < |joined| && Ready(b, joined[n]) then Some(DoReceive(joined[n].state.id, joined[n])) else None)
  {}

  lemma QuitPlayed(n: nat, joined: seq<Subscription>, b: Bus<Subscription>)
    ensures Played(Quit(n), joined, b,
                   if n < |joined| && Listens(b, joined[n]) then Some(DoLeave(joined[n].state.id, joined[n])) else None)
  {}

  method PlayWake(bus: EventBus, n: nat, joined: seq<Subscription>, ghost b: Bus<Subscription>)
    returns (ghost step: Option<Step>)
    requires bus.Valid() && bus.Shows(b) && forall s | s in joined :: s in bus.created
    modifies bus.turns.Values, bus.created
    ensures Played(Wake(n), joined, b, step) && Follows(bus, bus.created, b, step)
  {
    WakePlayed(n, joined, b);
    if n < |joined| {
      step := WakeUp(bus, joined[n], b);
    } else {
      step := None;
      NothingGiven(b, step);
    }
    assert Grew(bus);
  }

  method PlayQuit(bus: EventBus, n: nat, joined: seq<Subscription>, ghost b: Bus<Subscription>)
    returns (ghost step: Option<Step>)
    requires bus.Valid() && bus.Shows(b) && forall s | s in joined :: s in bus.created
    modifies bus.turns.Values
    ensures Played(Quit(n), joined, b, step) && Follows(bus, bus.created, b, step)
  {
    QuitPlayed(n, joined, b);
    if n < |joined| {
      step := Leaves(bus, joined[n], b);
    } else {
      step := None;
      NothingGiven(b, step);
    }
    assert Grew(bus);
  }

  method PlayFire(bus: EventBus, id: string, joined: seq<Subscription>, ghost b: Bus<Subscription>)
    returns (ghost step: Option<Step>)
    requires bus.Valid() && bus.Shows(b)
    modifies bus`tasks, bus`turns
    ensures Played(Fire(id), joined, b, step) && Follows(bus, bus.created, b, step)
  {
    step := Fires(bus, id, b);
    NothingGiven(b, step);
  }

  method PlayAbort(bus: EventBus, id: string, joined: seq<Subscription>, ghost b: Bus<Subscription>)
    returns (ghost step: Option<Step>)
    requires bus.Valid() && bus.Shows(b)
    modifies bus`tasks
    ensures Played(Abort(id), joined, b, step) && Follows(bus, bus.created, b, step)
  {
    step := Aborts(bus, id, b);
    NothingGiven(b, step);
  }

  /** Carries out a choice if it is possible. */
  method Play(bus: EventBus, choice: Choice, joined: seq<Subscription>, ghost b: Bus<Subscription>)
    returns (joined': seq<Subscription>, ghost step: Option<Step>)
    requires bus.Valid() && bus.Shows(b) && forall s | s in joined :: s in bus.created
    modifies bus, bus.turns.Values, bus.created
    ensures Played(choice, joined', b, step) && Follows(bus, old(bus.created), b, step)
    ensures joined <= joined' && forall s | s in joined' :: s in bus.created
    ensures forall k | |joined| <= k < |joined'| :: fresh(joined'[k])
  {
    joined' := joined;
    match choice {
      case Join(id) => joined', step := PlayJoin(bus, id, joined, b);
      case Send(id, event) => step := PlaySend(bus, id, event, joined, b);
      case End(id) => step := PlayEnd(bus, id, joined, b);
      case Wake(n) => step := PlayWake(bus, n, joined, b);
      case Quit(n) => step := PlayQuit(bus, n, joined, b);
      case Fire(id) => step := PlayFire(bus, id, joined, b);
      case Abort(id) => step := PlayAbort(bus, id, joined, b);
    }
  }

  // ----- Whole runs -----

  ghost function Steps(taken: seq<Option<Step>>): seq<Step> {
    if taken == [] then []
    else
      var last := taken[|taken| - 1];
      Steps(taken[..|taken| - 1]) + if last.Some? then [last.value] else []
  }

  /** The model after the steps taken. */
  ghost function State(taken: seq<Option<Step>>): Option<Bus<Subscription>> {
    Run(Start(), Steps(taken))
  }

  /** All events the model hands to `s` in the steps taken. */
  ghost function SeenBy(taken: seq<Option<Step>>, s: Subscription): seq<Event>
    requires State(taken).Some?
  {
    Seen(Start(), Steps(taken), s.state.id, s)
  }

  lemma OneMore(taken: seq<Option<Step>>, step: Option<Step>)
    requires State(taken).Some? && (step.Some? ==> Enabled(State(taken).value, step.value))
    ensures State(taken + [step]) == Some(After(State(taken).value, step))
    ensures forall s :: SeenBy(taken + [step], s) == SeenBy(taken, s) + Given(State(taken).value, step, s)
  {
    assert (taken + [step])[..|taken|] == taken;
    var steps := Steps(taken);
    if step.Some? {
      assert (steps + [step.value])[..|steps|] == steps;
    } else {
      assert steps + [] == steps;
    }
  }

  /** Choice i was carried out in the state it found, or was not possible there. */
  ghost predicate PlayedAt(choices: seq<Choice>, taken: seq<Option<Step>>, joined: seq<Subscription>, i: nat)
    requires i < |choices| && i < |taken|
  {
    State(taken[..i]).Some? && Played(choices[i], joined, State(taken[..i]).value, taken[i])
  }

  lemma PlayedStays(choice: Choice, joined: seq<Subscription>, joined': seq<Subscription>, b: Bus<Subscription>,
                    step: Option<Step>)
    requires Played(choice, joined, b, step) && joined <= joined'
    requires forall k | |joined| <= k < |joined'| :: !Listens(b, joined'[k])
    ensures Played(choice, joined', b, step)
  {}

  /** The choices so far were all played, in a model that knew no subscribers but `created`. */
  ghost predicate AllPlayed(choices: seq<Choice>, taken: seq<Option<Step>>, joined: seq<Subscription>,
                            created: set<Subscription>) {
    && |taken| == |choices| && State(taken).Some?
    && forall j | 0 <= j < |choices| ::
         PlayedAt(choices, taken, joined, j) && OnlyOf(State(taken[..j]).value, created)
  }

  /** Everybody has yielded what the model handed to them. */
  ghost predicate AllYielded(created: set<Subscription>, taken: seq<Option<Step>>)
    requires State(taken).Some?
    reads created
  {
    forall s | s in created :: s.yielded == SeenBy(taken, s)
  }

  /** A subscriber the model has not met has been handed nothing. */
  lemma {:induction false} NothingSeen(choices: seq<Choice>, joined: seq<Subscription>, taken: seq<Option<Step>>,
                                       created: set<Subscription>, s: Subscription)
    requires AllPlayed(choices, taken, joined, created) && s !in created
    ensures SeenBy(taken, s) == []
  {
    if taken != [] {
      var n := |taken| - 1;
      assert PlayedAt(choices, taken, joined, n);
      forall j | 0 <= j < n
        ensures PlayedAt(choices[..n], taken[..n], joined, j) && OnlyOf(State(taken[..n][..j]).value, created)
      {
        assert taken[..n][..j] == taken[..j] && PlayedAt(choices, taken, joined, j);
      }
      NothingSeen(choices[..n], joined, taken[..n], created, s);
      assert taken[..n] + [taken[n]] == taken;
      OneMore(taken[..n], taken[n]);
    }
  }

  /** One more choice leaves the earlier ones played as they were. */
  lemma OneMorePlayed(choices: seq<Choice>, choice: Choice, joined: seq<Subscription>, joined': seq<Subscription>,
                      taken: seq<Option<Step>>, step: Option<Step>, created: set<Subscription>, created': set<Subscription>)
    requires AllPlayed(choices, taken, joined, created) && joined <= joined' && created <= created'
    requires OnlyOf(State(taken).value, created) && Played(choice, joined', State(taken).value, step)
    requires forall k | |joined| <= k < |joined'| :: joined'[k] !in created
    ensures AllPlayed(choices + [choice], taken + [step], joined', created')
  {
    OneMore(taken, step);
    forall j | 0 <= j < |choices + [choice]|
      ensures PlayedAt(choices + [choice], taken + [step], joined', j)
      ensures OnlyOf(State((taken + [step])[..j]).value, created')
    {
      if j < |choices| {
        assert (taken + [step])[..j] == taken[..j] && PlayedAt(choices, taken, joined, j);
        PlayedStays(choices[j], joined, joined', State(taken[..j]).value, taken[j]);
      } else {
        assert (taken + [step])[..j] == taken;
      }
    }
  }

  /** What the model has handed to `s` after one more step; newcomers start with nothing. */
  lemma OneMoreSeen(choices: seq<Choice>, joined: seq<Subscription>, taken: seq<Option<Step>>, step: Option<Step>,
                    created: set<Subscription>, s: Subscription)
    requires AllPlayed(choices, taken, joined, created) && OnlyOf(State(taken).value, created)
    requires step.Some? ==> Enabled(State(taken).value, step.value)
    ensures State(taken + [step]).Some?
    ensures SeenBy(taken + [step], s) ==
            if s in created then SeenBy(taken, s) + Given(State(taken).value, step, s) else []
  {
    OneMore(taken, step);
    if s !in created {
      NothingSeen(choices, joined, taken, created, s);
    }
  }

  /** Plays the next choice of a run. */
  method PlayNext(bus: EventBus, choice: Choice, joined: seq<Subscription>,
                  ghost choices: seq<Choice>, ghost taken: seq<Option<Step>>)
    returns (joined': seq<Subscription>, ghost step: Option<Step>)
    requires bus.Valid() && AllPlayed(choices, taken, joined, bus.created) && AllYielded(bus.created, taken)
    requires bus.Shows(State(taken).value) && forall s | s in joined :: s in bus.created
    modifies bus, bus.turns.Values, bus.created
    ensures bus.Valid() && Grew(bus) && AllPlayed(choices + [choice], taken + [step], joined', bus.created)
    ensures AllYielded(bus.created, taken + [step])
    ensures bus.Shows(State(taken + [step]).value) && forall s | s in joined' :: s in bus.created
  {
    ghost var b, created := State(taken).value, bus.created;
    OnlyCreatedListen(bus, b);
    joined', step := Play(bus, choice, joined, b);
    OneMorePlayed(choices, choice, joined, joined', taken, step, created, bus.created);
    OneMore(taken, step);
    forall s | s in bus.created ensures s.yielded == SeenBy(taken + [step], s) {
      OneMoreSeen(choices, joined, taken, step, created, s);
    }
  }

  /** The bus and everything it refers to are new. */
  twostate predicate Own(new bus: EventBus)
    reads bus
  {
    fresh(bus) && (forall id | id in bus.turns :: fresh(bus.turns[id])) && fresh(bus.created)
  }

  /**
   Any choices, in any order: each is carried out if it is possible when its turn comes. The bus then
   shows what the model has become, and everybody has yielded exactly what the model handed out.
   */
  method RunBus(choices: seq<Choice>) returns (bus: EventBus, joined: seq<Subscription>, ghost taken: seq<Option<Step>>)
    ensures bus.Valid() && AllPlayed(choices, taken, joined, bus.created)
    ensures bus.Shows(State(taken).value) && AllYielded(bus.created, taken)
  {
    bus := new EventBus();
    joined, taken := [], [];
    for i := 0 to |choices|
      invariant Own(bus) && bus.Valid() && forall s | s in joined :: s in bus.created
      invariant AllPlayed(choices[..i], taken, joined, bus.created) && AllYielded(bus.created, taken)
      invariant bus.Shows(State(taken).value)
    {
      ghost var step;
      assert choices[..i + 1] == choices[..i] + [choices[i]];
      joined, step := PlayNext(bus, choices[i], joined, choices[..i], taken);
      assert Own(bus);
      taken := taken + [step];
    }
    assert choices[..|choices|] == choices;
  }
}
