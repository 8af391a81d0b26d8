/**
 Where the snapshots of a run come from: every load was a read of the row as it was at that step, and
 every session was opened on such a read.
 */
module Origins {
  import opened Wrappers
  import opened Ontology
  import opened WellFormedness
  import opened Crud
  import opened Store
  import opened Programs
  import opened History
  import opened RunLaws

  /** Step m is the load of client c that read snapshot `l`: the row as it was then. */
  ghost predicate Reads(states: seq<State>, steps: seq<Step>, m: nat, c: nat, l: Snapshot) {
    && StepAt(states, steps, m) && steps[m] == Step.Load(c)
    && states[m].rows.Get(l.env) == Row(l.registry, l.version)
  }

  /** Every snapshot a client holds was read by a load of its own. */
  lemma {:induction false} LoadWasRead(states: seq<State>, steps: seq<Step>, i: nat, c: nat, k: nat)
    requires IsRun(states, steps) && i < |states|
    requires c in states[i].clients && k < |states[i].clients[c].loads|
    ensures exists m: nat :: m < i && Reads(states, steps, m, c, states[i].clients[c].loads[k])
  {
    var n := i - 1;
    assert StepAt(states, steps, n);
    var l := states[i].clients[c].loads[k];
    if c in states[n].clients && k < |states[n].clients[c].loads| && states[n].clients[c].loads[k] == l {
      LoadWasRead(states, steps, n, c, k);
      var m: nat :| m < n && Reads(states, steps, m, c, l);
      assert m < i;
    } else {
      assert steps[n] == Step.Load(c);
      assert Reads(states, steps, n, c, l);
    }
  }

  /** Step t starts client c on program p. */
  ghost predicate Starts(states: seq<State>, steps: seq<Step>, t: nat, c: nat, p: Program) {
    StepAt(states, steps, t) && steps[t] == Start(c, p)
  }

  lemma {:induction false} ClientWasStarted(states: seq<State>, steps: seq<Step>, i: nat, c: nat)
    requires IsRun(states, steps) && i < |states| && c in states[i].clients
    ensures exists t: nat :: t < i && Starts(states, steps, t, c, states[i].clients[c].program)
  {
    var n := i - 1;
    assert StepAt(states, steps, n);
    if steps[n] == Start(c, states[i].clients[c].program) {
      assert Starts(states, steps, n, c, states[i].clients[c].program);
    } else {
      assert c in states[n].clients && states[n].clients[c].program == states[i].clients[c].program;
      ClientWasStarted(states, steps, n, c);
      var t: nat :| t < n && Starts(states, steps, t, c, states[i].clients[c].program);
      assert t < i;
    }
  }

  // ----- Sessions -----

  /** Step j opens session `id`. */
  ghost predicate Opens(states: seq<State>, steps: seq<Step>, j: nat, id: nat) {
    StepAt(states, steps, j) && steps[j].Commit? && ProgramOf(states[j], steps[j]).CreateSession? && steps[j].newSession == id
  }

  /** Sessions only come and go by their own steps: creation, cancel and save. */
  lemma SessionsStay(states: seq<State>, steps: seq<Step>, n: nat, id: nat)
    requires IsRun(states, steps) && n < |steps|
    ensures !Opens(states, steps, n, id) && id in states[n + 1].sessions ==>
      id in states[n].sessions && states[n + 1].sessions[id] == states[n].sessions[id]
    ensures id in states[n].sessions && id !in states[n + 1].sessions ==>
      steps[n] == SaveSession(id) || (IsCancel(states, steps, n) && ProgramOf(states[n], steps[n]).session == id)
    ensures IsCancel(states, steps, n) ==> ProgramOf(states[n], steps[n]).session !in states[n + 1].sessions
    ensures steps[n] == SaveSession(id) ==> id !in states[n + 1].sessions
  {
    assert StepAt(states, steps, n);
  }

  /** A session is opened on what staging held when the opening client loaded it. */
  lemma OpenedOnItsLoad(states: seq<State>, steps: seq<Step>, j: nat, id: nat)
    requires IsRun(states, steps) && Opens(states, steps, j, id)
    ensures id in states[j + 1].sessions
    ensures var x := states[j + 1].sessions[id];
            exists m: nat :: m < j && Reads(states, steps, m, steps[j].c, Snapshot(Staging, x.pre, x.preVersion))
  {
    RunLogged(states, steps, j);
    assert ClientOk(states[j].log, states[j].clients[steps[j].c]);
    LoadWasRead(states, steps, j, steps[j].c, 0);
  }

  /** Every session in a reachable state is as its last opening left it. */
  lemma {:induction false} SessionWasOpened(states: seq<State>, steps: seq<Step>, i: nat, id: nat)
    requires IsRun(states, steps) && i < |states| && id in states[i].sessions
    ensures exists j: nat :: j < i && Opens(states, steps, j, id) && id in states[j + 1].sessions &&
              states[j + 1].sessions[id] == states[i].sessions[id] &&
              forall n: nat | j < n < i :: !Opens(states, steps, n, id)
  {
    var n := i - 1;
    if !Opens(states, steps, n, id) {
      SessionsStay(states, steps, n, id);
      SessionWasOpened(states, steps, n, id);
      var j: nat :| j < n && Opens(states, steps, j, id) && id in states[j + 1].sessions &&
        states[j + 1].sessions[id] == states[n].sessions[id] && forall x: nat | j < x < n :: !Opens(states, steps, x, id);
      forall x: nat | j < x < i ensures !Opens(states, steps, x, id) {
        assert x == n || x < n;
      }
    }
  }

  /** How the cancel at step i came about: a session opened at j on a read at m, the cancel started at t. */
  ghost predicate CancelsOpening(states: seq<State>, steps: seq<Step>, i: nat, m: nat, j: nat, t: nat)
    requires IsCancel(states, steps, i)
  {
    var p := ProgramOf(states[i], steps[i]);
    && m < j < t < i
    && Starts(states, steps, t, steps[i].c, p)
    && Opens(states, steps, j, p.session) && (forall n: nat | j < n < t :: !Opens(states, steps, n, p.session))
    && Reads(states, steps, m, steps[j].c, Snapshot(Staging, p.pre, p.preVersion))
  }

  /**
   A committed cancel puts back what staging held when the client that opened the session read it,
   the last opening before the cancel started.
   */
  lemma CancelRestoresOpening(states: seq<State>, steps: seq<Step>, i: nat)
    requires IsRun(states, steps) && IsCancel(states, steps, i)
    ensures exists m: nat, j: nat, t: nat :: CancelsOpening(states, steps, i, m, j, t) &&
              states[m].rows.staging.version == ProgramOf(states[i], steps[i]).preVersion &&
              states[i + 1].rows.staging.payload == states[m].rows.staging.payload
  {
    var p, c := ProgramOf(states[i], steps[i]), steps[i].c;
    ClientWasStarted(states, steps, i, c);
    var t: nat :| t < i && Starts(states, steps, t, c, p);
    SessionWasOpened(states, steps, t, p.session);
    var j: nat :| j < t && Opens(states, steps, j, p.session) && p.session in states[j + 1].sessions &&
      states[j + 1].sessions[p.session] == states[t].sessions[p.session] &&
      forall n: nat | j < n < t :: !Opens(states, steps, n, p.session);
    OpenedOnItsLoad(states, steps, j, p.session);
    var m: nat :| m < j && Reads(states, steps, m, steps[j].c, Snapshot(Staging, p.pre, p.preVersion));
    assert CancelsOpening(states, steps, i, m, j, t);
    CancelLaw(states, steps, i);
    assert states[m].rows.Get(Staging) == states[m].rows.staging;
  }

  // ----- Promote and revert -----

  /** A committed promote installs what staging held when it read it, and validated it. */
  lemma PromoteInstallsItsRead(states: seq<State>, steps: seq<Step>, i: nat)
    requires IsRun(states, steps) && IsPromote(states, steps, i)
    ensures exists m: nat :: m < i && StepAt(states, steps, m) && steps[m] == Step.Load(steps[i].c) &&
              states[i + 1].rows.production.payload == states[m].rows.staging.payload
  {
    var s, c := states[i], steps[i].c;
    RunLogged(states, steps, i);
    assert ClientOk(s.log, s.clients[c]);
    PromoteCommit(s, steps[i]);
    LoadWasRead(states, steps, i, c, 0);
    var m: nat :| m < i && Reads(states, steps, m, c, s.clients[c].loads[0]);
    assert states[m].rows.Get(Staging) == states[m].rows.staging;
  }

  ghost predicate IsRevert(states: seq<State>, steps: seq<Step>, i: nat) {
    StepAt(states, steps, i) && steps[i].Commit? && ProgramOf(states[i], steps[i]).RevertProgram?
  }

  /** A committed revert puts into staging what production held when it read it, and leaves the rest. */
  lemma RevertLaw(states: seq<State>, steps: seq<Step>, i: nat)
    requires IsRun(states, steps) && IsRevert(states, steps, i)
    ensures exists m: nat :: m < i && StepAt(states, steps, m) && steps[m] == Step.Load(steps[i].c) &&
              states[i + 1].rows.staging.payload == states[m].rows.production.payload
    ensures states[i + 1].rows.production == states[i].rows.production
    ensures states[i + 1].rows.previous == states[i].rows.previous
  {
    var s, c := states[i], steps[i].c;
    RunLogged(states, steps, i);
    assert ClientOk(s.log, s.clients[c]);
    StagingCommit(s, steps[i]);
    LoadWasRead(states, steps, i, c, 0);
    var m: nat :| m < i && Reads(states, steps, m, c, s.clients[c].loads[0]);
    assert states[m].rows.Get(Production) == states[m].rows.production;
  }
}
