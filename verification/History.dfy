/**
 All interleavings of the writers: any number of clients, each at its own point of its own program,
 and the laws of whole runs from the empty environments.
 */
module History {
  import opened Wrappers
  import opened Ontology
  import opened WellFormedness
  import opened Store
  import opened Programs

  datatype Client = Client(program: Program, loads: seq<Snapshot>)

  /** A chat session keeps the staging payload and version it was created on. */
  datatype Session = Session(pre: Registry, preVersion: nat)

  /** `log` records, for each environment, the payload every version has held. */
  datatype State = State(
    rows: Rows, log: PerEnv<seq<Registry>>, sessions: map<nat, Session>, clients: map<nat, Client>)

  datatype Step =
    | Start(c: nat, program: Program)
    | Load(c: nat)
    | Commit(c: nat, newSession: nat)
    | Drop(c: nat)
    | SaveSession(session: nat)

  function Init(): State {
    State(PerEnv(Row(EmptyRegistry(), 0), Row(EmptyRegistry(), 0), Row(EmptyRegistry(), 0)),
          PerEnv([EmptyRegistry()], [EmptyRegistry()], [EmptyRegistry()]), map[], map[])
  }

  predicate HasLoaded(s: State, c: nat) {
    c in s.clients && |s.clients[c].loads| == |Loads(s.clients[c].program)|
  }

  ghost function PlanOf(s: State, c: nat): Option<seq<SaveRequest>>
    requires HasLoaded(s, c)
  {
    Plan(s.clients[c].program, s.clients[c].loads)
  }

  ghost predicate Enabled(s: State, step: Step) {
    match step
    case Start(c, p) =>
      && c !in s.clients
      && (p.CancelSession? ==> p.session in s.sessions && s.sessions[p.session] == Session(p.pre, p.preVersion))
    case Load(c) => c in s.clients && |s.clients[c].loads| < |Loads(s.clients[c].program)|
    case Commit(c, id) =>
      && HasLoaded(s, c) && PlanOf(s, c).Some? && CommitAll(s.rows, PlanOf(s, c).value).Some?
      && (s.clients[c].program.CreateSession? ==> id !in s.sessions)
    case Drop(c) => c in s.clients
    case SaveSession(id) => id in s.sessions
  }

  function LogAll(log: PerEnv<seq<Registry>>, saves: seq<SaveRequest>): PerEnv<seq<Registry>>
    decreases |saves|
  {
    if saves == [] then log
    else LogAll(log.Set(saves[0].env, log.Get(saves[0].env) + [saves[0].payload]), saves[1..])
  }

  ghost function Do(s: State, step: Step): State
    requires Enabled(s, step)
  {
    match step
    case Start(c, p) => s.(clients := s.clients[c := Client(p, [])])
    case Load(c) =>
      var k := s.clients[c];
      s.(clients := s.clients[c := k.(loads := k.loads + [TakeSnapshot(s.rows, Loads(k.program)[|k.loads|])])])
    case Commit(c, id) =>
      var k, saves := s.clients[c], PlanOf(s, c).value;
      State(CommitAll(s.rows, saves).value, LogAll(s.log, saves),
            match k.program
            case CreateSession => s.sessions[id := Session(k.loads[0].registry, k.loads[0].version)]
            case CancelSession(session, _, _) => s.sessions - {session}
            case _ => s.sessions,
            s.clients - {c})
    case Drop(c) => s.(clients := s.clients - {c})
    case SaveSession(id) => s.(sessions := s.sessions - {id})
  }

  /** Step i of the run is enabled and leads to the next state. */
  ghost predicate StepAt(states: seq<State>, steps: seq<Step>, i: nat) {
    && i < |steps| && i + 1 < |states|
    && Enabled(states[i], steps[i]) && states[i + 1] == Do(states[i], steps[i])
  }

  ghost predicate IsRun(states: seq<State>, steps: seq<Step>) {
    && |states| == |steps| + 1 && states[0] == Init()
    && forall i | 0 <= i < |steps| :: StepAt(states, steps, i)
  }

  /** A call that carries out a program is a commit of the runs, with the same effect on the rows. */
  lemma CallsAreCommits(s: State, c: nat, id: nat, ok: bool, after: Rows)
    requires HasLoaded(s, c) && (s.clients[c].program.CreateSession? ==> id !in s.sessions)
    requires Carries(s.clients[c].program, s.clients[c].loads, s.rows, ok, after)
    ensures ok <==> Enabled(s, Commit(c, id))
    ensures ok ==> Do(s, Commit(c, id)).rows == after
  {}

  /** Anybody may start any program at any time, and each started one may load on, whatever others are doing. */
  lemma NothingBlocks(s: State, c: nat, p: Program)
    ensures c !in s.clients && (p.CancelSession? ==> p.session in s.sessions) ==>
      (Enabled(s, Start(c, p)) <==>
       (p.CancelSession? ==> p.pre == s.sessions[p.session].pre && p.preVersion == s.sessions[p.session].preVersion))
    ensures c in s.clients && |s.clients[c].loads| < |Loads(s.clients[c].program)| ==> Enabled(s, Step.Load(c))
    ensures c in s.clients ==> Enabled(s, Drop(c)) && c !in Do(s, Drop(c)).clients
    ensures forall id | id in s.sessions :: Enabled(s, SaveSession(id))
  {}

  // ----- The invariant -----

  ghost predicate LogMatches(rows: Rows, log: PerEnv<seq<Registry>>) {
    forall env: Env ::
      |log.Get(env)| == rows.Get(env).version + 1 && log.Get(env)[rows.Get(env).version] == rows.Get(env).payload
  }

  ghost predicate LogWellFormed(log: PerEnv<seq<Registry>>) {
    forall env: Env, i | 0 <= i < |log.Get(env)| :: WellFormed(log.Get(env)[i])
  }

  ghost predicate Grows(a: PerEnv<seq<Registry>>, b: PerEnv<seq<Registry>>) {
    forall env: Env :: a.Get(env) <= b.Get(env)
  }

  /** The snapshot is what its version held. */
  ghost predicate WasLoaded(log: PerEnv<seq<Registry>>, l: Snapshot) {
    l.version < |log.Get(l.env)| && l.registry == log.Get(l.env)[l.version]
  }

  ghost predicate SessionOk(log: PerEnv<seq<Registry>>, x: Session) {
    x.preVersion < |log.staging| && x.pre == log.staging[x.preVersion]
  }

  ghost predicate ClientOk(log: PerEnv<seq<Registry>>, k: Client) {
    && |k.loads| <= |Loads(k.program)|
    && (forall i | 0 <= i < |k.loads| :: k.loads[i].env == Loads(k.program)[i] && WasLoaded(log, k.loads[i]))
    && (k.program.CancelSession? ==> SessionOk(log, Session(k.program.pre, k.program.preVersion)))
  }

  /** Rows and loaded snapshots are what the log says. */
  ghost predicate Logged(s: State) {
    LogMatches(s.rows, s.log) && forall c | c in s.clients :: ClientOk(s.log, s.clients[c])
  }

  ghost predicate Inv(s: State) {
    && Logged(s)
    && LogWellFormed(s.log)
    && forall id | id in s.sessions :: SessionOk(s.log, s.sessions[id])
  }

  lemma InitInv()
    ensures Inv(Init())
  {
    EmptyIsValid({});
  }

  lemma {:induction false} CommitLogs(rows: Rows, log: PerEnv<seq<Registry>>, saves: seq<SaveRequest>)
    requires LogMatches(rows, log) && LogWellFormed(log)
    requires CommitAll(rows, saves).Some?
    requires forall i | 0 <= i < |saves| :: WellFormed(saves[i].payload)
    ensures LogMatches(CommitAll(rows, saves).value, LogAll(log, saves))
    ensures LogWellFormed(LogAll(log, saves))
    ensures Grows(log, LogAll(log, saves))
    decreases |saves|
  {
    if saves != [] {
      var a := saves[0];
      var log' := log.Set(a.env, log.Get(a.env) + [a.payload]);
      assert Grows(log, log');
      CommitLogs(Written(rows, a.env, a.payload), log', saves[1..]);
    }
  }

  lemma ClientStaysOk(a: PerEnv<seq<Registry>>, b: PerEnv<seq<Registry>>, k: Client)
    requires Grows(a, b) && ClientOk(a, k)
    ensures ClientOk(b, k)
  {
    assert a.Get(Staging) <= b.Get(Staging);
    forall i | 0 <= i < |k.loads| ensures WasLoaded(b, k.loads[i]) {
      assert a.Get(k.loads[i].env) <= b.Get(k.loads[i].env);
    }
  }

  lemma SessionStaysOk(a: PerEnv<seq<Registry>>, b: PerEnv<seq<Registry>>, x: Session)
    requires Grows(a, b) && SessionOk(a, x)
    ensures SessionOk(b, x)
  {
    assert a.Get(Staging) <= b.Get(Staging);
  }

  lemma ClientPlanIsWellFormed(log: PerEnv<seq<Registry>>, k: Client)
    requires LogWellFormed(log) && ClientOk(log, k) && |k.loads| == |Loads(k.program)|
    requires Plan(k.program, k.loads).Some?
    ensures forall i | 0 <= i < |Plan(k.program, k.loads).value| :: WellFormed(Plan(k.program, k.loads).value[i].payload)
  {
    forall i | 0 <= i < |k.loads| ensures WellFormed(k.loads[i].registry) {
      var l := k.loads[i];
      assert WasLoaded(log, l) && WellFormed(log.Get(l.env)[l.version]);
    }
    if k.program.CancelSession? {
      assert WellFormed(log.Get(Staging)[k.program.preVersion]);
    }
    PlanIsWellFormed(k.program, k.loads);
  }

  /** What a commit makes of the sessions keeps them snapshots of staging. */
  lemma SessionsStayOk(s: State, c: nat, id: nat)
    requires Inv(s) && Enabled(s, Commit(c, id))
    requires Grows(s.log, Do(s, Commit(c, id)).log)
    ensures var s' := Do(s, Commit(c, id)); forall x | x in s'.sessions :: SessionOk(s'.log, s'.sessions[x])
  {
    var s', k := Do(s, Commit(c, id)), s.clients[c];
    assert ClientOk(s.log, k);
    forall x | x in s'.sessions ensures SessionOk(s'.log, s'.sessions[x]) {
      if k.program.CreateSession? && x == id {
        assert WasLoaded(s.log, k.loads[0]);
      }
      SessionStaysOk(s.log, s'.log, s'.sessions[x]);
    }
  }

  lemma CommitInv(s: State, c: nat, id: nat)
    requires Inv(s) && Enabled(s, Commit(c, id))
    ensures Inv(Do(s, Commit(c, id))) && Grows(s.log, Do(s, Commit(c, id)).log)
  {
    var s' := Do(s, Commit(c, id));
    ClientPlanIsWellFormed(s.log, s.clients[c]);
    CommitLogs(s.rows, s.log, PlanOf(s, c).value);
    forall d | d in s'.clients ensures ClientOk(s'.log, s'.clients[d]) {
      ClientStaysOk(s.log, s'.log, s.clients[d]);
    }
    SessionsStayOk(s, c, id);
  }

  lemma LoadKeepsClientOk(log: PerEnv<seq<Registry>>, k: Client, l: Snapshot)
    requires ClientOk(log, k) && |k.loads| < |Loads(k.program)|
    requires l.env == Loads(k.program)[|k.loads|] && WasLoaded(log, l)
    ensures ClientOk(log, k.(loads := k.loads + [l]))
  {
    var k' := k.(loads := k.loads + [l]);
    forall i | 0 <= i < |k'.loads|
      ensures k'.loads[i].env == Loads(k'.program)[i] && WasLoaded(log, k'.loads[i])
    {
      assert i < |k.loads| ==> k'.loads[i] == k.loads[i];
    }
  }

  lemma LoadInv(s: State, c: nat)
    requires Inv(s) && Enabled(s, Step.Load(c))
    ensures Inv(Do(s, Step.Load(c)))
  {
    var k := s.clients[c];
    var l := TakeSnapshot(s.rows, Loads(k.program)[|k.loads|]);
    assert ClientOk(s.log, k) && WasLoaded(s.log, l);
    LoadKeepsClientOk(s.log, k, l);
  }

  lemma StartInv(s: State, c: nat, p: Program)
    requires Inv(s) && Enabled(s, Start(c, p))
    ensures Inv(Do(s, Start(c, p)))
  {
    if p.CancelSession? {
      assert SessionOk(s.log, s.sessions[p.session]);
    }
    assert ClientOk(s.log, Client(p, []));
  }

  lemma StepInv(s: State, step: Step)
    requires Inv(s) && Enabled(s, step)
    ensures Inv(Do(s, step)) && Grows(s.log, Do(s, step).log)
  {
    match step
    case Start(c, p) => StartInv(s, c, p);
    case Load(c) => LoadInv(s, c);
    case Commit(c, id) => CommitInv(s, c, id);
    case Drop(c) =>
    case SaveSession(id) =>
  }

  lemma {:induction false} RunInv(states: seq<State>, steps: seq<Step>, i: nat)
    requires IsRun(states, steps) && i < |states|
    ensures Inv(states[i])
  {
    if i == 0 {
      InitInv();
    } else {
      RunInv(states, steps, i - 1);
      assert StepAt(states, steps, i - 1);
      StepInv(states[i - 1], steps[i - 1]);
    }
  }

  lemma RunLogged(states: seq<State>, steps: seq<Step>, i: nat)
    requires IsRun(states, steps) && i < |states|
    ensures Logged(states[i])
  {
    RunInv(states, steps, i);
  }

  lemma RunStepGrows(states: seq<State>, steps: seq<Step>, j: nat)
    requires IsRun(states, steps) && j < |steps|
    ensures Grows(states[j].log, states[j + 1].log)
  {
    RunInv(states, steps, j);
    assert StepAt(states, steps, j);
    StepInv(states[j], steps[j]);
  }

  lemma GrowsOnward(a: PerEnv<seq<Registry>>, b: PerEnv<seq<Registry>>, c: PerEnv<seq<Registry>>)
    requires Grows(a, b) && Grows(b, c)
    ensures Grows(a, c)
  {
    forall env: Env ensures a.Get(env) <= c.Get(env) {
      assert a.Get(env) <= b.Get(env) <= c.Get(env);
    }
  }

  lemma {:induction false} RunLogGrows(states: seq<State>, steps: seq<Step>, i: nat, j: nat)
    requires IsRun(states, steps) && i <= j < |states|
    ensures Grows(states[i].log, states[j].log)
  {
    if i < j {
      RunLogGrows(states, steps, i, j - 1);
      RunStepGrows(states, steps, j - 1);
      GrowsOnward(states[i].log, states[j - 1].log, states[j].log);
    }
  }
}
