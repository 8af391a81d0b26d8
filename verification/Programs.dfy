/**
 The writers of the three environments, each as the environments it loads, in order, and the saves
 it asks for. A client runs one program; its loads are steps of their own, its saves one commit.
 */
module Programs {
  import opened Wrappers
  import opened Ontology
  import opened WellFormedness
  import opened Crud
  import opened Tools
  import opened Store

  datatype Program =
    | EditProgram(edit: Edit, conns: set<string>, expected: Option<nat>)
    | JobProgram(mode: ImportMode, conns: set<string>, calls: seq<ToolCall>, chat: Option<nat>)
    | CreateSession
    | CancelSession(session: nat, pre: Registry, preVersion: nat)
    | PromoteProgram(conns: set<string>)
    | RevertProgram
    | UndoProgram

  /** The environments a program loads. An editor tool loads staging again just before it saves. */
  function Loads(p: Program): seq<Env> {
    match p
    case EditProgram(_, _, _) => [Staging, Staging]
    case JobProgram(_, _, _, _) => [Staging]
    case CreateSession => [Staging]
    case CancelSession(_, _, _) => [Staging]
    case PromoteProgram(_) => [Staging, Production, PreviousProduction]
    case RevertProgram => [Production, Staging]
    case UndoProgram => [PreviousProduction, Production]
  }

  /** The registry a job's agent leaves behind. */
  ghost function WorkingResult(p: Program, base: Registry): Registry
    requires p.JobProgram?
  {
    RunCalls(if p.mode.Replace? then EmptyRegistry() else base, p.calls, p.conns)
  }

  /** The saves a program asks for after its loads; `None` if it raises before saving. */
  ghost function Plan(p: Program, loads: seq<Snapshot>): Option<seq<SaveRequest>>
    requires |loads| == |Loads(p)|
  {
    match p
    case EditProgram(edit, conns, expected) =>
      (match ApplyEdit(loads[0].registry, edit, conns)
       case Err(_) => None
       case Ok(new_) =>
         Some([SaveRequest(Staging, new_, if expected.Some? then expected.value else loads[1].version)]))
    case JobProgram(mode, conns, _, _) =>
      (match ApplyEdit(loads[0].registry, Import(WorkingResult(p, loads[0].registry), mode), conns)
       case Err(_) => None
       case Ok(new_) => Some([SaveRequest(Staging, new_, loads[0].version)]))
    case CreateSession => Some([])
    case CancelSession(_, pre, _) => Some([SaveRequest(Staging, pre, loads[0].version)])
    case PromoteProgram(conns) =>
      if !Valid(loads[0].registry, conns) then None
      else Some([SaveRequest(PreviousProduction, loads[1].registry, loads[2].version),
                 SaveRequest(Production, loads[0].registry, loads[1].version)])
    case RevertProgram => Some([SaveRequest(Staging, loads[0].registry, loads[1].version)])
    case UndoProgram =>
      if loads[0].registry.version == EMPTY_VERSION then None
      else Some([SaveRequest(Production, loads[0].registry, loads[1].version),
                 SaveRequest(PreviousProduction, EmptyRegistry(), loads[0].version)])
  }

  /**
   What a writer with these loads does to the rows it finds at its commit: nothing, unless its program asks for saves
   and every expected version is current; then exactly those saves.
   */
  ghost predicate Carries(p: Program, loads: seq<Snapshot>, before: Rows, ok: bool, after: Rows)
    requires |loads| == |Loads(p)|
  {
    var plan := Plan(p, loads);
    && (forall i | 0 <= i < |loads| :: loads[i].env == Loads(p)[i])
    && (ok <==> plan.Some? && CommitAll(before, plan.value).Some?)
    && (ok ==> after == CommitAll(before, plan.value).value)
  }

  /** From well-formed loads, a program only ever saves well-formed registries. */
  lemma PlanIsWellFormed(p: Program, loads: seq<Snapshot>)
    requires |loads| == |Loads(p)| && Plan(p, loads).Some?
    requires forall i | 0 <= i < |loads| :: WellFormed(loads[i].registry)
    requires p.CancelSession? ==> WellFormed(p.pre)
    ensures forall i | 0 <= i < |Plan(p, loads).value| :: WellFormed(Plan(p, loads).value[i].payload)
  {
    match p
    case EditProgram(edit, conns, expected) => EditKeepsValid(loads[0].registry, edit, conns);
    case JobProgram(mode, conns, _, _) =>
      EditKeepsValid(loads[0].registry, Import(WorkingResult(p, loads[0].registry), mode), conns);
    case UndoProgram => EmptyIsValid({});
    case _ =>
  }

  /** All loads and the commit of a program with nobody else around. */
  ghost function RunAlone(rows: Rows, p: Program): Option<Rows> {
    var loads := seq(|Loads(p)|, i requires 0 <= i < |Loads(p)| => TakeSnapshot(rows, Loads(p)[i]));
    match Plan(p, loads)
    case None => None
    case Some(saves) => CommitAll(rows, saves)
  }

  lemma AlonePromote(rows: Rows, conns: set<string>)
    ensures RunAlone(rows, PromoteProgram(conns)) ==
            if !Valid(rows.staging.payload, conns) then None
            else Some(Written(Written(rows, PreviousProduction, rows.production.payload), Production, rows.staging.payload))
  {
    CommitTwo(rows, SaveRequest(PreviousProduction, rows.production.payload, rows.previous.version),
              SaveRequest(Production, rows.staging.payload, rows.production.version));
  }

  lemma AloneUndo(rows: Rows)
    ensures RunAlone(rows, UndoProgram) ==
            if rows.previous.payload.version == EMPTY_VERSION then None
            else Some(Written(Written(rows, Production, rows.previous.payload), PreviousProduction, EmptyRegistry()))
  {
    CommitTwo(rows, SaveRequest(Production, rows.previous.payload, rows.production.version),
              SaveRequest(PreviousProduction, EmptyRegistry(), rows.previous.version));
  }

  /** Promote, then undo: production comes back exactly when its tag was not the empty one. */
  lemma UndoRestoresIff(rows: Rows, conns: set<string>)
    requires RunAlone(rows, PromoteProgram(conns)).Some?
    ensures var promoted := RunAlone(rows, PromoteProgram(conns)).value;
            var undone := RunAlone(promoted, UndoProgram);
            && promoted.production.payload == rows.staging.payload
            && (undone.Some? <==> rows.production.payload.version != EMPTY_VERSION)
            && (undone.Some? ==> undone.value.production.payload == rows.production.payload)
  {
    AlonePromote(rows, conns);
    AloneUndo(RunAlone(rows, PromoteProgram(conns)).value);
  }
}
