/** What holds of every run of the writers, whatever their interleaving. */
module RunLaws {
  import opened Wrappers
  import opened Ontology
  import opened WellFormedness
  import opened Crud
  import opened Store
  import opened Programs
  import opened History

  // ----- One commit -----

  /** A passing version check means that the payload loaded earlier is still the current one. */
  lemma CheckedLoadIsCurrent(s: State, c: nat, i: nat)
    requires Logged(s) && c in s.clients && i < |s.clients[c].loads|
    requires var l := s.clients[c].loads[i]; l.version == s.rows.Get(l.env).version
    ensures var l := s.clients[c].loads[i]; l.registry == s.rows.Get(l.env).payload
  {
    assert ClientOk(s.log, s.clients[c]);
    assert WasLoaded(s.log, s.clients[c].loads[i]);
  }

  /** The client at `c` commits program `p` in this step. */
  ghost predicate Commits(s: State, step: Step) {
    step.Commit? && Enabled(s, step)
  }

  function ProgramOf(s: State, step: Step): Program
    requires step.Commit? && step.c in s.clients
  {
    s.clients[step.c].program
  }

  lemma PromoteCommit(s: State, step: Step)
    requires Logged(s) && Commits(s, step) && ProgramOf(s, step).PromoteProgram?
    ensures var loads := s.clients[step.c].loads;
            && Valid(loads[0].registry, ProgramOf(s, step).conns)
            && loads[0].registry in s.log.staging
            && Do(s, step).rows ==
               Written(Written(s.rows, PreviousProduction, s.rows.production.payload), Production, loads[0].registry)
  {
    var k := s.clients[step.c];
    assert ClientOk(s.log, k) && WasLoaded(s.log, k.loads[0]);
    CommitTwo(s.rows, SaveRequest(PreviousProduction, k.loads[1].registry, k.loads[2].version),
              SaveRequest(Production, k.loads[0].registry, k.loads[1].version));
    CheckedLoadIsCurrent(s, step.c, 1);
  }

  lemma UndoCommit(s: State, step: Step)
    requires Logged(s) && Commits(s, step) && ProgramOf(s, step).UndoProgram?
    ensures s.rows.previous.payload.version != EMPTY_VERSION
    ensures Do(s, step).rows ==
            Written(Written(s.rows, Production, s.rows.previous.payload), PreviousProduction, EmptyRegistry())
  {
    var k := s.clients[step.c];
    var give := SaveRequest(Production, k.loads[0].registry, k.loads[1].version);
    var empty := SaveRequest(PreviousProduction, EmptyRegistry(), k.loads[0].version);
    assert PlanOf(s, step.c) == Some([give, empty]);
    CommitTwo(s.rows, give, empty);
    assert ClientOk(s.log, k);
    CheckedLoadIsCurrent(s, step.c, 0);
  }

  /** A step is a promote or an undo that commits. */
  ghost predicate RotatesProduction(s: State, step: Step) {
    Commits(s, step) && (ProgramOf(s, step).PromoteProgram? || ProgramOf(s, step).UndoProgram?)
  }

  /** A commit of any other program writes nothing or staging alone. */
  lemma StagingCommit(s: State, step: Step)
    requires Logged(s) && Commits(s, step) && !RotatesProduction(s, step)
    ensures var saves := PlanOf(s, step.c).value;
            && |saves| <= 1
            && (saves == [] <==> ProgramOf(s, step).CreateSession?)
            && (saves == [] ==> Do(s, step).rows == s.rows)
            && (saves != [] ==> saves[0].env == Staging && saves[0].expected == s.rows.staging.version &&
                                Do(s, step).rows == Written(s.rows, Staging, saves[0].payload))
  {
    var saves := PlanOf(s, step.c).value;
    if saves != [] {
      assert saves == [saves[0]];
      CommitOne(s.rows, saves[0]);
    }
  }

  /** Everything but promote and undo leaves production and previous_production alone. */
  lemma OnlyRotationsWriteProduction(s: State, step: Step)
    requires Logged(s) && Enabled(s, step) && !RotatesProduction(s, step)
    ensures Do(s, step).rows.production == s.rows.production && Do(s, step).rows.previous == s.rows.previous
  {
    if step.Commit? {
      StagingCommit(s, step);
    }
  }

  lemma RotationRaisesByOne(s: State, step: Step, env: Env)
    requires Logged(s) && RotatesProduction(s, step)
    ensures if env.Staging? then Do(s, step).rows.Get(env) == s.rows.Get(env)
            else Do(s, step).rows.Get(env).version == s.rows.Get(env).version + 1
  {
    if ProgramOf(s, step).PromoteProgram? {
      PromoteCommit(s, step);
    } else {
      UndoCommit(s, step);
    }
  }

  /** No step moves a version by more than one, and a payload only changes with its version. */
  lemma StepRaisesByOne(s: State, step: Step, env: Env)
    requires Logged(s) && Enabled(s, step)
    ensures Do(s, step).rows.Get(env) == s.rows.Get(env) ||
            (step.Commit? && Do(s, step).rows.Get(env).version == s.rows.Get(env).version + 1)
  {
    if step.Commit? {
      if !RotatesProduction(s, step) {
        StagingCommit(s, step);
      } else {
        RotationRaisesByOne(s, step, env);
      }
    }
  }

  // ----- Whole runs -----

  /**
   In every reachable state all three environments, every stored pre-session snapshot and every
   snapshot a client holds obey all validator rules but connection existence.
   */
  lemma ReachableIsWellFormed(states: seq<State>, steps: seq<Step>, i: nat)
    requires IsRun(states, steps) && i < |states|
    ensures forall env: Env :: WellFormed(states[i].rows.Get(env).payload)
    ensures forall id | id in states[i].sessions :: WellFormed(states[i].sessions[id].pre)
    ensures forall c, l | c in states[i].clients && l in states[i].clients[c].loads :: WellFormed(l.registry)
  {
    RunInv(states, steps, i);
    var s := states[i];
    forall env: Env ensures WellFormed(s.rows.Get(env).payload) {
      assert WellFormed(s.log.Get(env)[s.rows.Get(env).version]);
    }
    forall id | id in s.sessions ensures WellFormed(s.sessions[id].pre) {
      assert SessionOk(s.log, s.sessions[id]);
      assert WellFormed(s.log.Get(Staging)[s.sessions[id].preVersion]);
    }
    forall c, l | c in s.clients && l in s.clients[c].loads ensures WellFormed(l.registry) {
      assert ClientOk(s.log, s.clients[c]);
      assert WasLoaded(s.log, l) && WellFormed(s.log.Get(l.env)[l.version]);
    }
  }

  /** Over a whole run, environment and version determine the payload. */
  lemma VersionDeterminesPayload(states: seq<State>, steps: seq<Step>, i: nat, j: nat, env: Env)
    requires IsRun(states, steps) && i <= j < |states|
    ensures states[i].rows.Get(env).version <= states[j].rows.Get(env).version
    ensures states[i].rows.Get(env).version == states[j].rows.Get(env).version ==>
            states[i].rows.Get(env) == states[j].rows.Get(env)
  {
    RunLogged(states, steps, i);
    RunLogged(states, steps, j);
    RunLogGrows(states, steps, i, j);
    assert states[i].log.Get(env) <= states[j].log.Get(env);
  }

  /** A job only commits onto the very staging row it started from. */
  lemma JobSnapshotIsCurrent(s: State, step: Step)
    requires Logged(s) && Commits(s, step) && ProgramOf(s, step).JobProgram?
    ensures s.clients[step.c].loads[0] == TakeSnapshot(s.rows, Staging)
  {
    StagingCommit(s, step);
    assert ClientOk(s.log, s.clients[step.c]);
    CheckedLoadIsCurrent(s, step.c, 0);
  }

  lemma JobCommit(s: State, step: Step)
    requires Logged(s) && Commits(s, step) && ProgramOf(s, step).JobProgram?
    ensures var before, p := s.rows.staging, ProgramOf(s, step);
            && Do(s, step).rows.staging ==
               Row(ImportCandidate(before.payload, WorkingResult(p, before.payload), p.mode), before.version + 1)
            && Valid(Do(s, step).rows.staging.payload, p.conns)
  {
    JobSnapshotIsCurrent(s, step);
    StagingCommit(s, step);
  }

  ghost predicate IsJobCommit(states: seq<State>, steps: seq<Step>, i: nat) {
    StepAt(states, steps, i) && steps[i].Commit? && ProgramOf(states[i], steps[i]).JobProgram?
  }

  /**
   No lost update among jobs: staging just before the commit is the exact snapshot the job started
   from, and the new payload is the import of the job's working registry into it.
   */
  lemma JobsLoseNoUpdate(states: seq<State>, steps: seq<Step>, i: nat)
    requires IsRun(states, steps) && IsJobCommit(states, steps, i)
    ensures var before, p := states[i].rows.staging, ProgramOf(states[i], steps[i]);
            && states[i].clients[steps[i].c].loads[0] == Snapshot(Staging, before.payload, before.version)
            && states[i + 1].rows.staging ==
               Row(ImportCandidate(before.payload, WorkingResult(p, before.payload), p.mode), before.version + 1)
            && Valid(states[i + 1].rows.staging.payload, p.conns)
  {
    RunLogged(states, steps, i);
    JobSnapshotIsCurrent(states[i], steps[i]);
    JobCommit(states[i], steps[i]);
  }

  /** Of the jobs that started from one staging version, at most one commits. */
  lemma OneJobPerVersion(states: seq<State>, steps: seq<Step>, i: nat, j: nat)
    requires IsRun(states, steps) && i < j && IsJobCommit(states, steps, i) && IsJobCommit(states, steps, j)
    ensures states[i].clients[steps[i].c].loads[0].version < states[j].clients[steps[j].c].loads[0].version
  {
    JobsLoseNoUpdate(states, steps, i);
    JobsLoseNoUpdate(states, steps, j);
    VersionDeterminesPayload(states, steps, i + 1, j, Staging);
  }

  ghost predicate IsEditCommit(states: seq<State>, steps: seq<Step>, i: nat) {
    StepAt(states, steps, i) && steps[i].Commit? && ProgramOf(states[i], steps[i]).EditProgram?
  }

  /**
   Exactly when an editor call that commits has edited the payload it replaces: when the version it
   names had been reached by its first load, or, naming none, when its two loads saw one version.
   */
  lemma EditSawWhatItReplacesIff(states: seq<State>, steps: seq<Step>, i: nat)
    requires IsRun(states, steps) && IsEditCommit(states, steps, i)
    ensures var p, loads := ProgramOf(states[i], steps[i]), states[i].clients[steps[i].c].loads;
            loads[0].version == states[i].rows.staging.version <==>
            if p.expected.Some? then p.expected.value <= loads[0].version else loads[1].version == loads[0].version
    ensures var p, loads := ProgramOf(states[i], steps[i]), states[i].clients[steps[i].c].loads;
            && ApplyEdit(loads[0].registry, p.edit, p.conns) == Ok(states[i + 1].rows.staging.payload)
            && (loads[0].version == states[i].rows.staging.version ==> loads[0].registry == states[i].rows.staging.payload)
  {
    RunLogged(states, steps, i);
    var s, k := states[i], states[i].clients[steps[i].c];
    StagingCommit(s, steps[i]);
    assert ClientOk(s.log, k) && WasLoaded(s.log, k.loads[0]);
    assert |s.log.Get(Staging)| == s.rows.Get(Staging).version + 1;
    if k.loads[0].version == s.rows.staging.version {
      CheckedLoadIsCurrent(s, steps[i].c, 0);
    }
  }

  ghost predicate IsCancel(states: seq<State>, steps: seq<Step>, i: nat) {
    StepAt(states, steps, i) && steps[i].Commit? && ProgramOf(states[i], steps[i]).CancelSession?
  }

  /** Every version up to the current one was current at some point of the run. */
  lemma {:induction false} VersionWasReached(states: seq<State>, steps: seq<Step>, i: nat, v: nat)
    requires IsRun(states, steps) && i < |states| && v <= states[i].rows.staging.version
    ensures exists m: nat :: m <= i && states[m].rows.staging.version == v
  {
    if v < states[i].rows.staging.version {
      RunLogged(states, steps, i - 1);
      assert StepAt(states, steps, i - 1);
      StepRaisesByOne(states[i - 1], steps[i - 1], Staging);
      assert v <= states[i - 1].rows.Get(Staging).version;
      VersionWasReached(states, steps, i - 1, v);
    }
  }

  /**
   A committed cancel puts back what staging held at the version the session was created on, and
   there was such a moment before.
   */
  lemma CancelLaw(states: seq<State>, steps: seq<Step>, i: nat)
    requires IsRun(states, steps) && IsCancel(states, steps, i)
    ensures var p, before := ProgramOf(states[i], steps[i]), states[i].rows.staging;
            && p.preVersion <= before.version && p.preVersion < |states[i].log.staging|
            && states[i + 1].rows.staging == Row(states[i].log.staging[p.preVersion], before.version + 1)
    ensures forall m | 0 <= m <= i && states[m].rows.staging.version == ProgramOf(states[i], steps[i]).preVersion ::
              states[i + 1].rows.staging.payload == states[m].rows.staging.payload
    ensures exists m: nat :: m <= i && states[m].rows.staging.version == ProgramOf(states[i], steps[i]).preVersion
  {
    RunLogged(states, steps, i);
    var s, k := states[i], states[i].clients[steps[i].c];
    StagingCommit(s, steps[i]);
    assert ClientOk(s.log, k);
    assert |s.log.Get(Staging)| == s.rows.Get(Staging).version + 1;
    VersionWasReached(states, steps, i, k.program.preVersion);
    forall m | 0 <= m <= i && states[m].rows.staging.version == k.program.preVersion
      ensures states[m].rows.staging.payload == s.log.staging[k.program.preVersion]
    {
      RunLogged(states, steps, m);
      RunLogGrows(states, steps, m, i);
      assert states[m].log.Get(Staging) <= s.log.Get(Staging);
      assert states[m].log.Get(Staging)[states[m].rows.Get(Staging).version] == states[m].rows.Get(Staging).payload;
    }
  }

  /** Step m commits a staging version later than `v`. */
  ghost predicate WritesStagingAfter(states: seq<State>, m: nat, v: nat) {
    && m + 1 < |states| && v < states[m + 1].rows.staging.version
    && states[m].rows.staging.version < states[m + 1].rows.staging.version
  }

  lemma {:induction false} SomeoneWrote(states: seq<State>, steps: seq<Step>, i: nat, v: nat)
    requires IsRun(states, steps) && i < |states| && v < states[i].rows.staging.version
    ensures exists m: nat :: m < i && WritesStagingAfter(states, m, v)
  {
    if states[i - 1].rows.staging.version > v {
      SomeoneWrote(states, steps, i - 1, v);
      var m: nat :| m < i - 1 && WritesStagingAfter(states, m, v);
      assert m < i;
    } else {
      assert WritesStagingAfter(states, i - 1, v);
    }
  }

  /**
   Exactly when a committed cancel discards commits: when staging has moved on from the version the
   session was created on, a column that the cancel reads and never compares.
   */
  lemma CancelDiscardsIff(states: seq<State>, steps: seq<Step>, i: nat)
    requires IsRun(states, steps) && IsCancel(states, steps, i)
    ensures var v := ProgramOf(states[i], steps[i]).preVersion;
            (exists m: nat :: m < i && WritesStagingAfter(states, m, v)) <==> states[i].rows.staging.version != v
    ensures states[i].rows.staging.version == ProgramOf(states[i], steps[i]).preVersion ==>
            states[i + 1].rows.staging.payload == states[i].rows.staging.payload
  {
    CancelLaw(states, steps, i);
    var v := ProgramOf(states[i], steps[i]).preVersion;
    if states[i].rows.staging.version != v {
      SomeoneWrote(states, steps, i, v);
    }
    if m: nat :| m < i && WritesStagingAfter(states, m, v) {
      VersionDeterminesPayload(states, steps, m + 1, i, Staging);
    }
  }

  lemma {:induction false} SubsetSizes(a: set<nat>, b: set<nat>)
    requires a <= b
    ensures |a| <= |b| && (|a| == |b| <==> a == b)
  {
    if a != {} {
      var x :| x in a;
      SubsetSizes(a - {x}, b - {x});
      assert a == (a - {x}) + {x} && b == (b - {x}) + {x};
    }
  }

  /** The steps before i that committed a staging version later than `v`. */
  ghost function WritesAfter(states: seq<State>, i: nat, v: nat): set<nat> {
    set m: nat | m < i && WritesStagingAfter(states, m, v)
  }

  lemma StagingRises(states: seq<State>, steps: seq<Step>, n: nat)
    requires IsRun(states, steps) && n < |steps|
    ensures states[n].rows.staging.version <= states[n + 1].rows.staging.version <= states[n].rows.staging.version + 1
  {
    RunLogged(states, steps, n);
    assert StepAt(states, steps, n);
    StepRaisesByOne(states[n], steps[n], Staging);
    assert states[n + 1].rows.Get(Staging) == states[n + 1].rows.staging;
  }

  /** There is one such step for each version. */
  lemma {:induction false} OneWritePerVersion(states: seq<State>, steps: seq<Step>, i: nat, v: nat)
    requires IsRun(states, steps) && i < |states|
    ensures |WritesAfter(states, i, v)| ==
            if v < states[i].rows.staging.version then states[i].rows.staging.version - v else 0
  {
    if i == 0 {
      assert WritesAfter(states, i, v) == {};
    } else {
      var n := i - 1;
      OneWritePerVersion(states, steps, n, v);
      StagingRises(states, steps, n);
      if WritesStagingAfter(states, n, v) {
        assert WritesAfter(states, i, v) == WritesAfter(states, n, v) + {n};
      } else {
        assert WritesAfter(states, i, v) == WritesAfter(states, n, v);
      }
    }
  }

  /** Step m is the import of a job that a turn of the chat session started. */
  ghost predicate IsOwnImport(states: seq<State>, steps: seq<Step>, m: nat, session: nat) {
    IsJobCommit(states, steps, m) && ProgramOf(states[m], steps[m]).chat == Some(session)
  }

  /** The session's own imports before i that made a version later than `v`. */
  ghost function OwnImports(states: seq<State>, steps: seq<Step>, i: nat, v: nat, session: nat): set<nat> {
    set m: nat | m < i && WritesStagingAfter(states, m, v) && IsOwnImport(states, steps, m, session)
  }

  /** Somebody else wrote staging after version `v`. */
  ghost predicate ForeignWrite(states: seq<State>, steps: seq<Step>, i: nat, v: nat, session: nat) {
    exists m: nat :: m < i && WritesStagingAfter(states, m, v) && !IsOwnImport(states, steps, m, session)
  }

  lemma ForeignWriteIff(states: seq<State>, steps: seq<Step>, i: nat, v: nat, session: nat)
    ensures |OwnImports(states, steps, i, v, session)| <= |WritesAfter(states, i, v)|
    ensures ForeignWrite(states, steps, i, v, session) <==>
            |OwnImports(states, steps, i, v, session)| < |WritesAfter(states, i, v)|
  {
    var own, all := OwnImports(states, steps, i, v, session), WritesAfter(states, i, v);
    SubsetSizes(own, all);
    if ForeignWrite(states, steps, i, v, session) {
      var m: nat :| m < i && WritesStagingAfter(states, m, v) && !IsOwnImport(states, steps, m, session);
      assert m in all && m !in own;
    }
    if own != all {
      var m :| m in all && m !in own;
      assert m < i && WritesStagingAfter(states, m, v) && !IsOwnImport(states, steps, m, session);
    }
  }

  /**
   Exactly when a committed cancel discards the commit of another writer: when staging has moved on
   from the session's version by more than the imports of the session's own turns.
   */
  lemma CancelDiscardsForeignIff(states: seq<State>, steps: seq<Step>, i: nat)
    requires IsRun(states, steps) && IsCancel(states, steps, i)
    ensures var p := ProgramOf(states[i], steps[i]);
            var own := OwnImports(states, steps, i, p.preVersion, p.session);
            && p.preVersion + |own| <= states[i].rows.staging.version
            && (ForeignWrite(states, steps, i, p.preVersion, p.session) <==>
                p.preVersion + |own| < states[i].rows.staging.version)
  {
    var p := ProgramOf(states[i], steps[i]);
    CancelLaw(states, steps, i);
    OneWritePerVersion(states, steps, i, p.preVersion);
    ForeignWriteIff(states, steps, i, p.preVersion, p.session);
  }

  ghost predicate IsPromote(states: seq<State>, steps: seq<Step>, i: nat) {
    StepAt(states, steps, i) && steps[i].Commit? && ProgramOf(states[i], steps[i]).PromoteProgram?
  }

  ghost predicate IsUndo(states: seq<State>, steps: seq<Step>, i: nat) {
    StepAt(states, steps, i) && steps[i].Commit? && ProgramOf(states[i], steps[i]).UndoProgram?
  }

  /**
   A committed promote stores exactly the payload production held, and puts into production an
   earlier committed staging payload that passed validation; staging stays.
   */
  lemma PromoteLaw(states: seq<State>, steps: seq<Step>, i: nat)
    requires IsRun(states, steps) && IsPromote(states, steps, i)
    ensures states[i + 1].rows.previous.payload == states[i].rows.production.payload
    ensures states[i + 1].rows.production.payload in states[i].log.staging
    ensures Valid(states[i + 1].rows.production.payload, ProgramOf(states[i], steps[i]).conns)
    ensures states[i + 1].rows.staging == states[i].rows.staging
  {
    RunLogged(states, steps, i);
    PromoteCommit(states[i], steps[i]);
  }

  /** A committed undo moves the slot's payload into production and empties the slot. */
  lemma UndoLaw(states: seq<State>, steps: seq<Step>, i: nat)
    requires IsRun(states, steps) && IsUndo(states, steps, i)
    ensures states[i].rows.previous.payload.version != EMPTY_VERSION
    ensures states[i + 1].rows.production.payload == states[i].rows.previous.payload
    ensures states[i + 1].rows.previous.payload == EmptyRegistry()
    ensures states[i + 1].rows.staging == states[i].rows.staging
  {
    RunLogged(states, steps, i);
    UndoCommit(states[i], steps[i]);
  }

  lemma QuietStep(states: seq<State>, steps: seq<Step>, m: nat)
    requires IsRun(states, steps) && m < |steps| && !IsPromote(states, steps, m) && !IsUndo(states, steps, m)
    ensures states[m + 1].rows.production == states[m].rows.production
    ensures states[m + 1].rows.previous == states[m].rows.previous
  {
    assert StepAt(states, steps, m);
    RunLogged(states, steps, m);
    OnlyRotationsWriteProduction(states[m], steps[m]);
  }

  /** As long as nothing is promoted after an undo, the slot keeps the empty tag. */
  lemma {:induction false} SlotStaysEmpty(states: seq<State>, steps: seq<Step>, i: nat, k: nat)
    requires IsRun(states, steps) && IsUndo(states, steps, i) && i < k < |states|
    requires forall m | i < m < k :: !IsPromote(states, steps, m)
    ensures states[k].rows.previous.payload.version == EMPTY_VERSION
  {
    if k == i + 1 {
      UndoLaw(states, steps, i);
    } else {
      SlotStaysEmpty(states, steps, i, k - 1);
      if IsUndo(states, steps, k - 1) {
        UndoLaw(states, steps, k - 1);
      } else {
        QuietStep(states, steps, k - 1);
      }
    }
  }

  /** Undo is one-shot: between two successful undos something was promoted. */
  lemma PromoteBetweenUndos(states: seq<State>, steps: seq<Step>, i: nat, j: nat)
    requires IsRun(states, steps) && i < j && IsUndo(states, steps, i) && IsUndo(states, steps, j)
    ensures exists m :: i < m < j && IsPromote(states, steps, m)
  {
    if forall m | i < m < j :: !IsPromote(states, steps, m) {
      SlotStaysEmpty(states, steps, i, j);
      UndoLaw(states, steps, j);
    }
  }

  lemma {:induction false} ProductionStays(states: seq<State>, steps: seq<Step>, i: nat, j: nat)
    requires IsRun(states, steps) && i <= j < |states|
    requires forall m | i <= m < j :: !IsPromote(states, steps, m) && !IsUndo(states, steps, m)
    ensures states[j].rows.production == states[i].rows.production && states[j].rows.previous == states[i].rows.previous
  {
    if i < j {
      ProductionStays(states, steps, i, j - 1);
      QuietStep(states, steps, j - 1);
    }
  }

  /** An undo that follows a promote, with edits, jobs and reverts in between, gives production back its payload. */
  lemma UndoGivesBackProduction(states: seq<State>, steps: seq<Step>, i: nat, j: nat)
    requires IsRun(states, steps) && i < j && IsPromote(states, steps, i) && IsUndo(states, steps, j)
    requires forall m | i < m < j :: !IsPromote(states, steps, m) && !IsUndo(states, steps, m)
    ensures states[j + 1].rows.production.payload == states[i].rows.production.payload
    ensures states[i].rows.production.payload.version != EMPTY_VERSION
  {
    PromoteLaw(states, steps, i);
    ProductionStays(states, steps, i + 1, j);
    UndoLaw(states, steps, j);
  }
}
