/**
 The version tag that guards undo. Undo takes the tag for the sign of an empty slot, but only an
 import ever changes a tag, so content edited in place keeps the empty one.
 */
module Tags {
  import opened Ontology
  import opened Crud
  import opened Tools
  import opened Store
  import opened Programs
  import opened History
  import opened RunLaws

  /** The edit brings in no tag of its own. */
  predicate KeepsEmptyTag(e: Edit) {
    e.Import? ==> e.incoming.version == EMPTY_VERSION || (e.mode.Merge? && e.incoming.version == "")
  }

  predicate CallKeepsEmptyTag(call: ToolCall) {
    var r := Parse(call.name, call.args);
    r.EditRequest? ==> KeepsEmptyTag(r.edit)
  }

  predicate ProgramKeepsEmptyTag(p: Program) {
    match p
    case EditProgram(edit, _, _) => KeepsEmptyTag(edit)
    case JobProgram(_, _, calls, _) => forall i | 0 <= i < |calls| :: CallKeepsEmptyTag(calls[i])
    case _ => true
  }

  lemma EditKeepsTag(reg: Registry, e: Edit, conns: set<string>)
    requires reg.version == EMPTY_VERSION && KeepsEmptyTag(e) && ApplyEdit(reg, e, conns).Ok?
    ensures ApplyEdit(reg, e, conns).value.version == EMPTY_VERSION
  {
    match e
    case Put(d) => PutChangesOneKey(reg, d);
    case Delete(kind, rid) => RemoveChangesOneKey(reg, kind, rid);
    case SetMapping(rid, am) => SetMappingChangesOneMapping(reg, rid, am);
    case Import(incoming, mode) =>
  }

  lemma StepKeepsTag(reg: Registry, call: ToolCall, conns: set<string>)
    requires reg.version == EMPTY_VERSION && CallKeepsEmptyTag(call)
    ensures Tools.Step(reg, call, conns).0.version == EMPTY_VERSION
  {
    var r := Parse(call.name, call.args);
    if r.EditRequest? && ApplyEdit(reg, r.edit, conns).Ok? {
      EditKeepsTag(reg, r.edit, conns);
    }
  }

  lemma {:induction false} CallsKeepTag(reg: Registry, calls: seq<ToolCall>, conns: set<string>)
    requires reg.version == EMPTY_VERSION && forall i | 0 <= i < |calls| :: CallKeepsEmptyTag(calls[i])
    ensures RunCalls(reg, calls, conns).version == EMPTY_VERSION
  {
    if calls != [] {
      var n := |calls| - 1;
      CallsKeepTag(reg, calls[..n], conns);
      assert CallKeepsEmptyTag(calls[n]);
      StepKeepsTag(RunCalls(reg, calls[..n], conns), calls[n], conns);
    }
  }

  lemma PlanKeepsTag(p: Program, loads: seq<Snapshot>)
    requires |loads| == |Loads(p)| && Plan(p, loads).Some? && ProgramKeepsEmptyTag(p)
    requires forall i | 0 <= i < |loads| :: loads[i].registry.version == EMPTY_VERSION
    requires p.CancelSession? ==> p.pre.version == EMPTY_VERSION
    ensures forall i | 0 <= i < |Plan(p, loads).value| :: Plan(p, loads).value[i].payload.version == EMPTY_VERSION
  {
    match p
    case EditProgram(edit, conns, expected) => EditKeepsTag(loads[0].registry, edit, conns);
    case JobProgram(mode, conns, calls, _) =>
      var start := if mode.Replace? then EmptyRegistry() else loads[0].registry;
      assert loads[0].registry.version == EMPTY_VERSION;
      CallsKeepTag(start, calls, conns);
      EditKeepsTag(loads[0].registry, Import(WorkingResult(p, loads[0].registry), mode), conns);
    case _ =>
  }

  ghost predicate TagsEmpty(log: PerEnv<seq<Registry>>) {
    forall env: Env, i | 0 <= i < |log.Get(env)| :: log.Get(env)[i].version == EMPTY_VERSION
  }

  ghost predicate TagInv(s: State) {
    TagsEmpty(s.log) && forall c | c in s.clients :: ProgramKeepsEmptyTag(s.clients[c].program)
  }

  lemma {:induction false} LogKeepsTags(log: PerEnv<seq<Registry>>, saves: seq<SaveRequest>)
    requires TagsEmpty(log) && forall i | 0 <= i < |saves| :: saves[i].payload.version == EMPTY_VERSION
    ensures TagsEmpty(LogAll(log, saves))
    decreases |saves|
  {
    if saves != [] {
      LogKeepsTags(log.Set(saves[0].env, log.Get(saves[0].env) + [saves[0].payload]), saves[1..]);
    }
  }

  lemma CommitKeepsTags(s: State, c: nat, id: nat)
    requires Inv(s) && TagInv(s) && Enabled(s, Commit(c, id))
    ensures TagInv(Do(s, Commit(c, id)))
  {
    var k := s.clients[c];
    assert ClientOk(s.log, k);
    forall i | 0 <= i < |k.loads| ensures k.loads[i].registry.version == EMPTY_VERSION {
      assert WasLoaded(s.log, k.loads[i]);
    }
    if k.program.CancelSession? {
      assert s.log.Get(Staging)[k.program.preVersion].version == EMPTY_VERSION;
    }
    PlanKeepsTag(k.program, k.loads);
    LogKeepsTags(s.log, PlanOf(s, c).value);
  }

  lemma StepKeepsTags(s: State, step: History.Step)
    requires Inv(s) && TagInv(s) && Enabled(s, step)
    requires step.Start? ==> ProgramKeepsEmptyTag(step.program)
    ensures TagInv(Do(s, step))
  {
    if step.Commit? {
      CommitKeepsTags(s, step.c, step.newSession);
    }
  }

  lemma {:induction false} RunKeepsTags(states: seq<State>, steps: seq<History.Step>, i: nat)
    requires IsRun(states, steps) && i < |states|
    requires forall m | 0 <= m < |steps| && steps[m].Start? :: ProgramKeepsEmptyTag(steps[m].program)
    ensures TagInv(states[i])
  {
    if i > 0 {
      RunKeepsTags(states, steps, i - 1);
      RunInv(states, steps, i - 1);
      assert StepAt(states, steps, i - 1);
      StepKeepsTags(states[i - 1], steps[i - 1]);
    }
  }

  lemma SlotTagIsEmpty(s: State)
    requires Inv(s) && TagInv(s)
    ensures s.rows.previous.payload.version == EMPTY_VERSION
  {
    var row := s.rows.Get(PreviousProduction);
    assert s.log.Get(PreviousProduction)[row.version].version == EMPTY_VERSION;
  }

  /**
   In a run where no import names a tag of its own, undo never succeeds, whatever was edited and
   promoted: the slot passes for empty.
   */
  lemma UndoNeverAvailable(states: seq<State>, steps: seq<History.Step>, i: nat)
    requires IsRun(states, steps)
    requires forall m | 0 <= m < |steps| && steps[m].Start? :: ProgramKeepsEmptyTag(steps[m].program)
    ensures !IsUndo(states, steps, i)
  {
    if IsUndo(states, steps, i) {
      RunInv(states, steps, i);
      RunKeepsTags(states, steps, i);
      SlotTagIsEmpty(states[i]);
      UndoLaw(states, steps, i);
    }
  }
}
