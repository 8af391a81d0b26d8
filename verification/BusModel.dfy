/**
 What the event bus is for, without queues: each turn is a log of events, and each subscriber a
 cursor into the log of its turn. A closed turn is dropped by a delayed cleanup.
 */
module BusModel {
  import opened Wrappers
  import opened Sequences

  datatype Event = Event(kind: string, payload: string)

  datatype Turn<!S(==)> = Turn(buffer: seq<Event>, closed: bool, cursors: map<S, nat>)

  /** `cleanups` holds the turn ids of the cleanup tasks that have not fired yet. */
  datatype Bus<!S(==)> = Bus(turns: map<string, Turn<S>>, cleanups: seq<string>)

  datatype Received = Item(event: Event) | EndOfTurn | Waiting

  function TurnOf<S>(b: Bus<S>, id: string): Turn<S> {
    if id in b.turns then b.turns[id] else Turn([], false, map[])
  }

  function Subscribe<S>(b: Bus<S>, id: string, s: S): Bus<S> {
    var t := TurnOf(b, id);
    b.(turns := b.turns[id := t.(cursors := t.cursors[s := 0])])
  }

  function Publish<S>(b: Bus<S>, id: string, e: Event): Bus<S> {
    var t := TurnOf(b, id);
    b.(turns := b.turns[id := if t.closed then t else t.(buffer := t.buffer + [e])])
  }

  function Close<S>(b: Bus<S>, id: string): Bus<S> {
    if id !in b.turns || b.turns[id].closed then b
    else Bus(b.turns[id := b.turns[id].(closed := true)], b.cleanups + [id])
  }

  /** What a subscriber of turn `id` gets next. */
  function Next<S>(b: Bus<S>, id: string, s: S): Received
    requires id in b.turns && s in b.turns[id].cursors
  {
    var t := b.turns[id];
    if t.cursors[s] < |t.buffer| then Item(t.buffer[t.cursors[s]])
    else if t.closed then EndOfTurn
    else Waiting
  }

  function Leave<S>(b: Bus<S>, id: string, s: S): Bus<S>
    requires id in b.turns
  {
    var t := b.turns[id];
    b.(turns := b.turns[id := t.(cursors := t.cursors - {s})])
  }

  function Receive<S>(b: Bus<S>, id: string, s: S): Bus<S>
    requires id in b.turns && s in b.turns[id].cursors
  {
    var t := b.turns[id];
    match Next(b, id, s)
    case Item(_) => b.(turns := b.turns[id := t.(cursors := t.cursors[s := t.cursors[s] + 1])])
    case EndOfTurn => Leave(b, id, s)
    case Waiting => b
  }

  /** A cleanup drops its turn unless somebody is still subscribed. */
  function Cleanup<S>(b: Bus<S>, id: string): Bus<S> {
    Bus(if id in b.turns && b.turns[id].cursors == map[] then b.turns - {id} else b.turns,
        Without(b.cleanups, id))
  }

  function CancelCleanup<S>(b: Bus<S>, id: string): Bus<S> {
    b.(cleanups := Without(b.cleanups, id))
  }

  // ----- Steps and runs -----

  datatype BusStep<!S(==)> =
    | DoSubscribe(id: string, s: S)
    | DoPublish(id: string, e: Event)
    | DoClose(id: string)
    | DoReceive(id: string, s: S)
    | DoLeave(id: string, s: S)
    | DoCleanup(id: string)
    | DoCancelCleanup(id: string)

  /** Every subscription is a new subscriber; only registered ones receive or leave; only scheduled cleanups fire. */
  predicate Enabled<S>(b: Bus<S>, step: BusStep<S>) {
    match step
    case DoSubscribe(_, s) => forall id | id in b.turns :: s !in b.turns[id].cursors
    case DoReceive(id, s) => id in b.turns && s in b.turns[id].cursors
    case DoLeave(id, s) => id in b.turns && s in b.turns[id].cursors
    case DoCleanup(id) => id in b.cleanups
    case DoCancelCleanup(id) => id in b.cleanups
    case _ => true
  }

  function Do<S>(b: Bus<S>, step: BusStep<S>): Bus<S>
    requires Enabled(b, step)
  {
    match step
    case DoSubscribe(id, s) => Subscribe(b, id, s)
    case DoPublish(id, e) => Publish(b, id, e)
    case DoClose(id) => Close(b, id)
    case DoReceive(id, s) => Receive(b, id, s)
    case DoLeave(id, s) => Leave(b, id, s)
    case DoCleanup(id) => Cleanup(b, id)
    case DoCancelCleanup(id) => CancelCleanup(b, id)
  }

  /** The bus after a sequence of steps; `None` if one of them was not enabled. */
  function Run<S>(b: Bus<S>, steps: seq<BusStep<S>>): Option<Bus<S>> {
    if steps == [] then Some(b)
    else
      match Run(b, steps[..|steps| - 1])
      case None => None
      case Some(c) => if Enabled(c, steps[|steps| - 1]) then Some(Do(c, steps[|steps| - 1])) else None
  }

  function Start<S>(): Bus<S> { Bus(map[], []) }

  /** At most one cleanup per turn is outstanding, always for a turn that is there and closed. */
  predicate Consistent<S>(b: Bus<S>) {
    && Distinct(b.cleanups)
    && (forall id | id in b.cleanups :: id in b.turns && b.turns[id].closed)
    && (forall id, s | id in b.turns && s in b.turns[id].cursors :: b.turns[id].cursors[s] <= |b.turns[id].buffer|)
  }

  lemma StepConsistent<S>(b: Bus<S>, step: BusStep<S>)
    requires Consistent(b) && Enabled(b, step)
    ensures Consistent(Do(b, step))
  {
    if step.DoCleanup? || step.DoCancelCleanup? {
      WithoutRemoves(b.cleanups, step.id);
    }
  }

  lemma {:induction false} RunConsistent<S>(b: Bus<S>, steps: seq<BusStep<S>>)
    requires Consistent(b) && Run(b, steps).Some?
    ensures Consistent(Run(b, steps).value)
  {
    if steps != [] {
      RunConsistent(b, steps[..|steps| - 1]);
      StepConsistent(Run(b, steps[..|steps| - 1]).value, steps[|steps| - 1]);
    }
  }

  // ----- What one subscriber sees over a whole run -----

  /** The event that a step hands to subscriber `s` of turn `id`, if any. */
  function Delivered<S>(b: Bus<S>, step: BusStep<S>, id: string, s: S): seq<Event>
    requires Enabled(b, step)
  {
    if step == DoReceive(id, s) && Next(b, id, s).Item? then [Next(b, id, s).event] else []
  }

  /** All events handed to `s` in a run, in order. */
  function Seen<S>(b: Bus<S>, steps: seq<BusStep<S>>, id: string, s: S): seq<Event>
    requires Run(b, steps).Some?
  {
    if steps == [] then []
    else
      var n := |steps| - 1;
      Seen(b, steps[..n], id, s) + Delivered(Run(b, steps[..n]).value, steps[n], id, s)
  }

  /** `s` is registered with turn `id` from the start of the run to its end. */
  predicate Stays<S>(b: Bus<S>, steps: seq<BusStep<S>>, id: string, s: S) {
    forall i | 0 <= i <= |steps| ::
      Run(b, steps[..i]).Some? && id in Run(b, steps[..i]).value.turns && s in Run(b, steps[..i]).value.turns[id].cursors
  }

  lemma StepSeen<S>(b: Bus<S>, step: BusStep<S>, id: string, s: S, seen: seq<Event>)
    requires Enabled(b, step) && id in b.turns && s in b.turns[id].cursors
    requires id in Do(b, step).turns && s in Do(b, step).turns[id].cursors
    requires b.turns[id].cursors[s] <= |b.turns[id].buffer|
    requires seen == b.turns[id].buffer[..b.turns[id].cursors[s]]
    ensures var t := Do(b, step).turns[id];
            && t.cursors[s] <= |t.buffer|
            && seen + Delivered(b, step, id, s) == t.buffer[..t.cursors[s]]
  {}

  /**
   For a subscriber that joined with its cursor at 0, whenever that was: the events it has seen are
   the log up to its cursor, without loss or duplicates.
   */
  lemma {:induction false} SeenIsPrefix<S>(b: Bus<S>, steps: seq<BusStep<S>>, id: string, s: S)
    requires Stays(b, steps, id, s) && id in b.turns && s in b.turns[id].cursors && b.turns[id].cursors[s] == 0
    ensures Run(b, steps).Some? && id in Run(b, steps).value.turns && s in Run(b, steps).value.turns[id].cursors
    ensures var t := Run(b, steps).value.turns[id];
            t.cursors[s] <= |t.buffer| && Seen(b, steps, id, s) == t.buffer[..t.cursors[s]]
  {
    assert steps[..|steps|] == steps;
    if steps != [] {
      var n := |steps| - 1;
      forall i | 0 <= i <= n ensures steps[..n][..i] == steps[..i] {}
      SeenIsPrefix(b, steps[..n], id, s);
      StepSeen(Run(b, steps[..n]).value, steps[n], id, s, Seen(b, steps[..n], id, s));
    }
  }

  /** The end of a turn is received exactly after the whole log, and only once it is closed. */
  lemma EndMeansDrained<S>(b: Bus<S>, id: string, s: S)
    requires id in b.turns && s in b.turns[id].cursors && b.turns[id].cursors[s] <= |b.turns[id].buffer|
    ensures Next(b, id, s) == EndOfTurn <==> b.turns[id].closed && b.turns[id].cursors[s] == |b.turns[id].buffer|
  {}

  /** A subscriber that reaches the end of a closed turn has seen the whole log. */
  lemma DrainedSawEverything<S>(b: Bus<S>, steps: seq<BusStep<S>>, id: string, s: S)
    requires Stays(b, steps, id, s) && id in b.turns && s in b.turns[id].cursors && b.turns[id].cursors[s] == 0
    requires Run(b, steps).Some? && id in Run(b, steps).value.turns && s in Run(b, steps).value.turns[id].cursors
    requires Next(Run(b, steps).value, id, s) == EndOfTurn
    ensures Seen(b, steps, id, s) == Run(b, steps).value.turns[id].buffer
  {
    SeenIsPrefix(b, steps, id, s);
    EndMeansDrained(Run(b, steps).value, id, s);
  }

  // ----- What close means for the rest of a run -----

  /** Turn `id` is there at the start of the run, at its end and all the time between. */
  predicate Retained<S>(b: Bus<S>, steps: seq<BusStep<S>>, id: string) {
    forall i | 0 <= i <= |steps| :: Run(b, steps[..i]).Some? && id in Run(b, steps[..i]).value.turns
  }

  /** As long as a closed turn is retained, no step of anybody reopens it or changes its log. */
  lemma {:induction false} ClosedLogIsFinal<S>(b: Bus<S>, steps: seq<BusStep<S>>, id: string)
    requires Retained(b, steps, id) && id in b.turns && b.turns[id].closed
    ensures Run(b, steps).Some? && id in Run(b, steps).value.turns
    ensures var t := Run(b, steps).value.turns[id]; t.closed && t.buffer == b.turns[id].buffer
  {
    assert steps[..|steps|] == steps;
    if steps != [] {
      var n := |steps| - 1;
      forall i | 0 <= i <= n ensures steps[..n][..i] == steps[..i] {}
      ClosedLogIsFinal(b, steps[..n], id);
    }
  }

  // ----- When a closed turn is dropped -----

  /** A scheduled cleanup drops its turn exactly when nobody is subscribed at that moment. */
  lemma CleanupDropsIff<S>(b: Bus<S>, id: string)
    requires Consistent(b) && id in b.cleanups
    ensures id !in Cleanup(b, id).turns <==> b.turns[id].cursors == map[]
    ensures id !in Cleanup(b, id).cleanups
  {
    WithoutRemoves(b.cleanups, id);
  }

  /** Closed, retained, and no cleanup left that could drop it. */
  predicate Stranded<S>(b: Bus<S>, id: string) {
    id in b.turns && b.turns[id].closed && id !in b.cleanups
  }

  /**
   Exactly which steps strand a turn that was not stranded: the end of its cleanup task, if the task
   is cancelled or finds a subscriber.
   */
  lemma StrandedByIff<S>(b: Bus<S>, step: BusStep<S>, id: string)
    requires Consistent(b) && Enabled(b, step) && !Stranded(b, id)
    ensures Stranded(Do(b, step), id) <==>
            step == DoCancelCleanup(id) || (step == DoCleanup(id) && b.turns[id].cursors != map[])
  {
    if step.DoCleanup? || step.DoCancelCleanup? {
      WithoutRemoves(b.cleanups, step.id);
    }
  }

  lemma RunThree<S>(b: Bus<S>, first: BusStep<S>, second: BusStep<S>, third: BusStep<S>)
    requires Enabled(b, first) && Enabled(Do(b, first), second) && Enabled(Do(Do(b, first), second), third)
    ensures Run(b, [first, second, third]) == Some(Do(Do(Do(b, first), second), third))
  {
    assert [first, second, third][..2] == [first, second] && [first, second][..1] == [first];
    assert Run(b, [first]) == Some(Do(b, first)) && Run(b, [first, second]) == Some(Do(Do(b, first), second));
  }

  /** Such runs exist, with a subscriber that stays and without any. */
  lemma TurnsGetStranded<S>(id: string, s: S)
    ensures var r := Run(Start<S>(), [DoSubscribe(id, s), DoClose(id), DoCleanup(id)]);
            r.Some? && Stranded(r.value, id) && s in r.value.turns[id].cursors
    ensures var r := Run(Start<S>(), [DoPublish(id, Event("", "")), DoClose(id), DoCancelCleanup(id)]);
            r.Some? && Stranded(r.value, id) && r.value.turns[id].cursors == map[]
  {
    var joined, published := Subscribe(Start<S>(), id, s), Publish(Start<S>(), id, Event("", ""));
    assert joined.turns[id] == Turn([], false, map[s := 0]);
    assert published.turns[id].cursors == map[];
    assert Close(joined, id).cleanups == Close(published, id).cleanups == [id];
    assert s in Close(joined, id).turns[id].cursors;
    RunThree(Start<S>(), DoSubscribe(id, s), DoClose(id), DoCleanup(id));
    RunThree(Start<S>(), DoPublish(id, Event("", "")), DoClose(id), DoCancelCleanup(id));
  }

  /** A closed turn without a cleanup task is kept, buffer and all, for ever. */
  lemma {:induction false} StrandedForEver<S>(b: Bus<S>, steps: seq<BusStep<S>>, id: string)
    requires Consistent(b) && Stranded(b, id) && Run(b, steps).Some?
    ensures Stranded(Run(b, steps).value, id)
    ensures Run(b, steps).value.turns[id].buffer == b.turns[id].buffer
  {
    if steps != [] {
      var n := |steps| - 1;
      StrandedForEver(b, steps[..n], id);
      RunConsistent(b, steps[..n]);
      var c := Run(b, steps[..n]).value;
      if steps[n].DoCleanup? || steps[n].DoCancelCleanup? {
        WithoutRemoves(c.cleanups, steps[n].id);
      }
    }
  }
}
