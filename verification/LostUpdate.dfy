/**
 Two runs that lose an edit: an editor call without `expected_version` overwrites an edit it never
 saw, and the cancel of a chat session an edit made since the session was created.
 */
module LostUpdate {
  import opened Wrappers
  import opened Ontology
  import opened WellFormedness
  import opened Crud
  import opened Store
  import opened Programs
  import opened History

  function Tagged(tag: string): Registry {
    EmptyRegistry().(version := tag)
  }

  lemma TaggedIsValid(tag: string, conns: set<string>)
    ensures Valid(Tagged(tag), conns)
  {
    EmptyIsValid(conns);
    assert Tagged(tag).interfaces == EmptyRegistry().interfaces;
  }

  /** Merges a registry without definitions or tag: keeps whatever staging holds. */
  const KEEP := EditProgram(Import(Tagged(""), Merge), {}, None)

  /** Replaces staging by a registry tagged A. */
  const TAG_A := EditProgram(Import(Tagged("A"), Replace), {}, None)

  lemma KeepPlan(loads: seq<Snapshot>, tag: string)
    requires |loads| == 2 && loads[0].registry == Tagged(tag)
    ensures Plan(KEEP, loads) == Some([SaveRequest(Staging, Tagged(tag), loads[1].version)])
  {
    TaggedIsValid(tag, {});
    assert Overlay(Tagged(tag), Tagged("")) == Tagged(tag);
  }

  lemma TagPlan(loads: seq<Snapshot>)
    requires |loads| == 2
    ensures Plan(TAG_A, loads) == Some([SaveRequest(Staging, Tagged("A"), loads[1].version)])
  {
    TaggedIsValid("A", {});
  }

  function Fresh(): Rows {
    Init().rows
  }

  function WithStaging(tag: string, version: nat): Rows {
    Fresh().(staging := Row(Tagged(tag), version))
  }

  function Shot(tag: string, version: nat): Snapshot {
    Snapshot(Staging, Tagged(tag), version)
  }

  /** Clients 1 and 2 run KEEP and TAG_A; 2 starts and commits between the two loads of 1. */
  function Steps(): seq<History.Step> {
    [Start(1, KEEP), Step.Load(1), Start(2, TAG_A), Step.Load(2), Step.Load(2), Commit(2, 0), Step.Load(1), Commit(1, 0)]
  }

  function States(): seq<State> {
    var e := EMPTY_VERSION;
    var log1 := Init().log.(staging := [Tagged(e), Tagged("A")]);
    [Init(),
     Init().(clients := map[1 := Client(KEEP, [])]),
     Init().(clients := map[1 := Client(KEEP, [Shot(e, 0)])]),
     Init().(clients := map[1 := Client(KEEP, [Shot(e, 0)]), 2 := Client(TAG_A, [])]),
     Init().(clients := map[1 := Client(KEEP, [Shot(e, 0)]), 2 := Client(TAG_A, [Shot(e, 0)])]),
     Init().(clients := map[1 := Client(KEEP, [Shot(e, 0)]), 2 := Client(TAG_A, [Shot(e, 0), Shot(e, 0)])]),
     State(WithStaging("A", 1), log1, map[], map[1 := Client(KEEP, [Shot(e, 0)])]),
     State(WithStaging("A", 1), log1, map[], map[1 := Client(KEEP, [Shot(e, 0), Shot("A", 1)])]),
     State(WithStaging(e, 2), log1.(staging := [Tagged(e), Tagged("A"), Tagged(e)]), map[], map[])]
  }

  lemma FirstSteps(i: nat)
    requires i < 5
    ensures StepAt(States(), Steps(), i)
  {
    var s, s' := States()[i], States()[i + 1];
    var shot := Shot(EMPTY_VERSION, 0);
    assert [] + [shot] == [shot] && [shot] + [shot] == [shot, shot];
    assert Enabled(s, Steps()[i]);
    assert Do(s, Steps()[i]).clients == s'.clients;
  }

  /** A commit of one save of staging leads to the state with that payload logged. */
  lemma CommitStaging(s: State, s': State, c: nat, save: SaveRequest)
    requires HasLoaded(s, c) && PlanOf(s, c) == Some([save]) && !s.clients[c].program.CreateSession?
    requires save.env == Staging && save.expected == s.rows.staging.version
    requires s'.rows == Written(s.rows, Staging, save.payload)
    requires s'.log == s.log.(staging := s.log.staging + [save.payload]) && s'.clients == s.clients - {c}
    requires var p := s.clients[c].program; s'.sessions == if p.CancelSession? then s.sessions - {p.session} else s.sessions
    ensures Enabled(s, Commit(c, 0)) && s' == Do(s, Commit(c, 0))
  {
    CommitOne(s.rows, save);
    assert [save][1..] == [];
    assert LogAll(s.log, [save]) == s'.log;
  }

  lemma CommitTag()
    ensures StepAt(States(), Steps(), 5)
  {
    var s, s' := States()[5], States()[6];
    TagPlan(s.clients[2].loads);
    assert s.log.staging + [Tagged("A")] == s'.log.staging && s.clients - {2} == s'.clients;
    CommitStaging(s, s', 2, SaveRequest(Staging, Tagged("A"), 0));
  }

  lemma SecondLoad()
    ensures StepAt(States(), Steps(), 6)
  {
    assert [Shot(EMPTY_VERSION, 0)] + [Shot("A", 1)] == [Shot(EMPTY_VERSION, 0), Shot("A", 1)];
    assert Do(States()[6], Steps()[6]).clients == States()[7].clients;
  }

  lemma CommitKeep()
    ensures StepAt(States(), Steps(), 7)
  {
    var s, s' := States()[7], States()[8];
    KeepPlan(s.clients[1].loads, EMPTY_VERSION);
    assert s.log.staging + [Tagged(EMPTY_VERSION)] == s'.log.staging && s.clients - {1} == s'.clients;
    CommitStaging(s, s', 1, SaveRequest(Staging, Tagged(EMPTY_VERSION), 1));
  }

  /** The edit would have kept tag A, but its second load lets it save over A what the first one saw. */
  lemma UnversionedEditLosesUpdate()
    ensures IsRun(States(), Steps()) && Steps()[7] == Commit(1, 0)
    ensures States()[7].rows.staging.payload == Tagged("A")
    ensures ApplyEdit(Tagged("A"), KEEP.edit, KEEP.conns) == Ok(Tagged("A"))
    ensures States()[8].rows.staging.payload == Tagged(EMPTY_VERSION) != Tagged("A")
  {
    forall i | 0 <= i < |Steps()| ensures StepAt(States(), Steps(), i) {
      if i < 5 {
        FirstSteps(i);
      } else if i == 5 {
        CommitTag();
      } else if i == 6 {
        SecondLoad();
      } else {
        CommitKeep();
      }
    }
    TaggedIsValid("A", {});
    assert Overlay(Tagged("A"), Tagged("")) == Tagged("A");
    assert |"A"| != |EMPTY_VERSION|;
  }

  // ----- Chat cancel -----

  const CANCEL := CancelSession(7, EmptyRegistry(), 0)

  /** Client 1 opens session 7, client 2 replaces staging, client 3 cancels the session. */
  function CancelSteps(): seq<History.Step> {
    [Start(1, CreateSession), Step.Load(1), Commit(1, 7),
     Start(2, TAG_A), Step.Load(2), Step.Load(2), Commit(2, 0),
     Start(3, CANCEL), Step.Load(3), Commit(3, 0)]
  }

  function CancelStates(): seq<State> {
    var e := EMPTY_VERSION;
    var sessions: map<nat, Session> := map[7 := Session(EmptyRegistry(), 0)];
    var open_ := Init().(sessions := sessions);
    var edited := State(WithStaging("A", 1), Init().log.(staging := [Tagged(e), Tagged("A")]), sessions, map[]);
    [Init(),
     Init().(clients := map[1 := Client(CreateSession, [])]),
     Init().(clients := map[1 := Client(CreateSession, [Shot(e, 0)])]),
     open_,
     open_.(clients := map[2 := Client(TAG_A, [])]),
     open_.(clients := map[2 := Client(TAG_A, [Shot(e, 0)])]),
     open_.(clients := map[2 := Client(TAG_A, [Shot(e, 0), Shot(e, 0)])]),
     edited,
     edited.(clients := map[3 := Client(CANCEL, [])]),
     edited.(clients := map[3 := Client(CANCEL, [Shot("A", 1)])]),
     State(WithStaging(e, 2), Init().log.(staging := [Tagged(e), Tagged("A"), Tagged(e)]), map[], map[])]
  }

  lemma StartsAndLoads(i: nat)
    requires i in {0, 1, 3, 4, 5, 7, 8}
    ensures StepAt(CancelStates(), CancelSteps(), i)
  {
    var s, s' := CancelStates()[i], CancelStates()[i + 1];
    var shot := Shot(EMPTY_VERSION, 0);
    assert [] + [shot] == [shot] && [shot] + [shot] == [shot, shot] && [] + [Shot("A", 1)] == [Shot("A", 1)];
    assert Enabled(s, CancelSteps()[i]);
    assert Do(s, CancelSteps()[i]).clients == s'.clients;
  }

  lemma CommitCreate()
    ensures StepAt(CancelStates(), CancelSteps(), 2)
  {
    var s, s' := CancelStates()[2], CancelStates()[3];
    assert Plan(CreateSession, s.clients[1].loads) == Some([]);
    assert Do(s, CancelSteps()[2]).sessions == s'.sessions;
    assert s.clients - {1} == s'.clients;
  }

  lemma CommitEdit()
    ensures StepAt(CancelStates(), CancelSteps(), 6)
  {
    var s, s' := CancelStates()[6], CancelStates()[7];
    TagPlan(s.clients[2].loads);
    assert s.log.staging + [Tagged("A")] == s'.log.staging && s.clients - {2} == s'.clients;
    CommitStaging(s, s', 2, SaveRequest(Staging, Tagged("A"), 0));
  }

  lemma CommitCancel()
    ensures StepAt(CancelStates(), CancelSteps(), 9)
  {
    var s, s' := CancelStates()[9], CancelStates()[10];
    assert s.log.staging + [EmptyRegistry()] == s'.log.staging && s.clients - {3} == s'.clients;
    CommitStaging(s, s', 3, SaveRequest(Staging, EmptyRegistry(), 1));
  }

  /** The edit of client 2 is gone, although the cancel itself passed its version check. */
  lemma CancelLosesUpdate()
    ensures IsRun(CancelStates(), CancelSteps())
    ensures CancelSteps()[9] == Commit(3, 0) && CancelStates()[9].clients[3].program == CANCEL
    ensures CancelStates()[9].rows.staging == Row(Tagged("A"), 1) && CANCEL.preVersion == 0
    ensures CancelStates()[10].rows.staging.payload == EmptyRegistry() != Tagged("A")
  {
    forall i | 0 <= i < |CancelSteps()| ensures StepAt(CancelStates(), CancelSteps(), i) {
      if i == 2 {
        CommitCreate();
      } else if i == 6 {
        CommitEdit();
      } else if i == 9 {
        CommitCancel();
      } else {
        StartsAndLoads(i);
      }
    }
    assert |"A"| != |EMPTY_VERSION|;
  }
}
