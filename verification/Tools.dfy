/**
 The working registry and the tools an agent edits it with
 (onto_platform/ingestion/working_registry.py, working_ops.py, tools.py).
 */
module Tools {
  import opened Wrappers
  import opened Ontology
  import opened WellFormedness
  import opened Findings
  import Validator
  import opened Crud
  import opened Effects
  import opened Merging

  /**
   The arguments of a call. Each field is `None` where the argument is absent or does not decode.
   If there is an object under `registry`, decodable or not, `entries` holds those of its five
   entries that are present, each with its length, or `None` if it has none.
   */
  datatype Args =
    | NotAnObject
    | Args(definition: Option<Definition>, rid: Option<string>, mapping: Option<AssetMapping>,
           registry: Option<Registry>, mode: Option<ImportMode>, entries: Option<map<Kind, Option<nat>>>)

  /** The thirteen tool names (`working_put_object_type`, ...); any other string is `OtherName`. */
  datatype ToolName =
    | WorkingPut(kind: Kind)
    | WorkingDelete(kind: Kind)
    | WorkingSetAssetMapping
    | WorkingImport
    | WorkingValidate
    | OtherName(name: string)

  datatype ToolCall = ToolCall(id: string, name: ToolName, args: Args, reason: string)

  datatype Request = EditRequest(edit: Edit) | ValidateRequest | Malformed | UnknownTool

  datatype Outcome = Succeeded | UnknownToolFailure | Failed

  /** What a call asks for: dispatch by name, then decoding of the arguments that tool needs. */
  function Parse(name: ToolName, args: Args): Request {
    match name
    case WorkingPut(kind) =>
      if args.Args? && args.definition.Some? && KindOf(args.definition.value) == kind
      then EditRequest(Put(args.definition.value)) else Malformed
    case WorkingDelete(kind) =>
      if args.Args? && args.rid.Some? then EditRequest(Delete(kind, args.rid.value)) else Malformed
    case WorkingSetAssetMapping =>
      if args.Args? && args.rid.Some? && args.mapping.Some?
      then EditRequest(SetMapping(args.rid.value, args.mapping.value)) else Malformed
    case WorkingImport =>
      if args.Args? && args.registry.Some? && args.mode.Some?
      then EditRequest(Import(args.registry.value, args.mode.value)) else Malformed
    case WorkingValidate => ValidateRequest
    case OtherName(_) => UnknownTool
  }

  /** The working registry and the outcome after one request. */
  ghost function Dispatch(reg: Registry, r: Request, conns: set<string>): (Registry, Outcome) {
    match r
    case UnknownTool => (reg, UnknownToolFailure)
    case Malformed => (reg, Failed)
    case ValidateRequest => (reg, Succeeded)
    case EditRequest(e) =>
      match ApplyEdit(reg, e, conns)
      case Ok(new_) => (new_, Succeeded)
      case Err(_) => (reg, Failed)
  }

  predicate IsOfKind(d: Definition, kind: Kind) {
    match kind
    case SharedPropertyKind => d.SharedPropertyDef?
    case InterfaceKind => d.InterfaceDef?
    case ObjectKind => d.ObjectDef?
    case LinkKind => d.LinkDef?
    case ActionKind => d.ActionDef?
  }

  /** The call did what edit `e` asks for, or failed and changed nothing because the edit is refused. */
  ghost predicate Did(before: Registry, e: Edit, conns: set<string>, after: Registry, outcome: Outcome) {
    && (forall candidate | Asks(before, candidate, e) ::
          if Verdict(before, candidate, e, conns).Ok? then outcome == Succeeded && after == candidate
          else outcome == Failed && after == before)
    && ((forall candidate :: !Asks(before, candidate, e)) ==> outcome == Failed && after == before)
  }

  /** What each tool is for, by its name and the arguments that decode. */
  ghost predicate Obeys(before: Registry, name: ToolName, args: Args, conns: set<string>, after: Registry, outcome: Outcome) {
    match name
    case WorkingPut(kind) =>
      if args.Args? && args.definition.Some? && IsOfKind(args.definition.value, kind)
      then Did(before, Put(args.definition.value), conns, after, outcome)
      else outcome == Failed && after == before
    case WorkingDelete(kind) =>
      if args.Args? && args.rid.Some?
      then Did(before, Delete(kind, args.rid.value), conns, after, outcome)
      else outcome == Failed && after == before
    case WorkingSetAssetMapping =>
      if args.Args? && args.rid.Some? && args.mapping.Some?
      then Did(before, SetMapping(args.rid.value, args.mapping.value), conns, after, outcome)
      else outcome == Failed && after == before
    case WorkingImport =>
      if args.Args? && args.registry.Some? && args.mode.Some?
      then Did(before, Import(args.registry.value, args.mode.value), conns, after, outcome)
      else outcome == Failed && after == before
    case WorkingValidate => outcome == Succeeded && after == before
    case OtherName(_) => outcome == UnknownToolFailure && after == before
  }

  lemma EditDid(before: Registry, e: Edit, conns: set<string>)
    ensures var (after, outcome) := Dispatch(before, EditRequest(e), conns); Did(before, e, conns, after, outcome)
  {
    EditDoes(before, e, conns);
  }

  /** Dispatch by name and decoding give every tool its edit. */
  lemma DispatchObeys(before: Registry, name: ToolName, args: Args, conns: set<string>)
    ensures var (after, outcome) := Dispatch(before, Parse(name, args), conns);
            Obeys(before, name, args, conns, after, outcome)
  {
    var r := Parse(name, args);
    if r.EditRequest? {
      EditDid(before, r.edit, conns);
    }
  }

  class WorkingRegistry {
    var registry: Registry

    constructor (registry: Registry)
      ensures this.registry == registry
    {
      this.registry := registry;
    }

    method Replace(new_: Registry)
      modifies this
      ensures registry == new_
    {
      registry := new_;
    }

    function Snapshot(): Registry
      reads this
    {
      registry
    }
  }

  /** Runs one call on the working registry; a failing call leaves it as it was. */
  method DispatchAgentCall(wr: WorkingRegistry, name: ToolName, args: Args, conns: set<string>)
    returns (outcome: Outcome, report: set<Finding>)
    modifies wr
    ensures (wr.registry, outcome) == Dispatch(old(wr.registry), Parse(name, args), conns)
    ensures Obeys(old(wr.registry), name, args, conns, wr.registry, outcome)
    ensures outcome != Succeeded ==> wr.registry == old(wr.registry)
    ensures Parse(name, args).ValidateRequest? ==> (HasErrors(report) <==> !Valid(wr.registry, conns))
  {
    report := {};
    DispatchObeys(wr.registry, name, args, conns);
    match Parse(name, args) {
      case UnknownTool => outcome := UnknownToolFailure;
      case Malformed => outcome := Failed;
      case ValidateRequest =>
        report := Validator.Validate(wr.Snapshot(), conns);
        outcome := Succeeded;
      case EditRequest(e) =>
        var r := RunEdit(wr.registry, e, conns);
        if r.Ok? {
          wr.Replace(r.value);
          outcome := Succeeded;
        } else {
          outcome := Failed;
        }
    }
  }

  // ----- Sequences of calls -----

  ghost function Step(reg: Registry, call: ToolCall, conns: set<string>): (Registry, Outcome) {
    Dispatch(reg, Parse(call.name, call.args), conns)
  }

  /** The working registry after a sequence of calls. */
  ghost function RunCalls(reg: Registry, calls: seq<ToolCall>, conns: set<string>): Registry {
    if calls == [] then reg
    else Step(RunCalls(reg, calls[..|calls| - 1], conns), calls[|calls| - 1], conns).0
  }

  /** The outcome of the i-th call of a sequence. */
  ghost function OutcomeAt(reg: Registry, calls: seq<ToolCall>, i: nat, conns: set<string>): Outcome
    requires i < |calls|
  {
    Step(RunCalls(reg, calls[..i], conns), calls[i], conns).1
  }

  lemma RunOneMore(reg: Registry, calls: seq<ToolCall>, call: ToolCall, conns: set<string>)
    ensures RunCalls(reg, calls + [call], conns) == Step(RunCalls(reg, calls, conns), call, conns).0
    ensures OutcomeAt(reg, calls + [call], |calls|, conns) == Step(RunCalls(reg, calls, conns), call, conns).1
    ensures forall i | 0 <= i < |calls| :: OutcomeAt(reg, calls + [call], i, conns) == OutcomeAt(reg, calls, i, conns)
  {
    assert (calls + [call])[..|calls|] == calls;
    assert forall i | 0 <= i < |calls| :: (calls + [call])[..i] == calls[..i];
  }

  lemma StepKeepsValid(reg: Registry, call: ToolCall, conns: set<string>)
    ensures WellFormed(reg) ==> WellFormed(Step(reg, call, conns).0)
    ensures Valid(reg, conns) ==> Valid(Step(reg, call, conns).0, conns)
  {
    var r := Parse(call.name, call.args);
    if r.EditRequest? && ApplyEdit(reg, r.edit, conns).Ok? {
      EditKeepsValid(reg, r.edit, conns);
    }
  }

  /** No sequence of calls, known or unknown, well formed or failing, makes a valid working registry invalid. */
  lemma {:induction false} CallsKeepValid(reg: Registry, calls: seq<ToolCall>, conns: set<string>)
    ensures WellFormed(reg) ==> WellFormed(RunCalls(reg, calls, conns))
    ensures Valid(reg, conns) ==> Valid(RunCalls(reg, calls, conns), conns)
  {
    if calls != [] {
      CallsKeepValid(reg, calls[..|calls| - 1], conns);
      StepKeepsValid(RunCalls(reg, calls[..|calls| - 1], conns), calls[|calls| - 1], conns);
    }
  }

  /** A replace-mode job starts from nothing, so its final import cannot fail validation. */
  lemma ReplaceJobAlwaysImports(base: Registry, calls: seq<ToolCall>, conns: set<string>)
    ensures var w := RunCalls(EmptyRegistry(), calls, conns);
            ApplyEdit(base, Import(w, Replace), conns) == Ok(w)
  {
    EmptyIsValid(conns);
    CallsKeepValid(EmptyRegistry(), calls, conns);
  }

  // ----- Merge-mode jobs -----

  /** The request can only add keys or overwrite definitions. */
  predicate OnlyAdds(r: Request) {
    r.EditRequest? ==> !r.edit.Delete? && !(r.edit.Import? && r.edit.mode.Replace?)
  }

  /** Every call that succeeded was a put, a mapping change, a merge import or a validation. */
  ghost predicate SuccessfulCallsOnlyAdd(reg: Registry, calls: seq<ToolCall>, conns: set<string>) {
    forall i | 0 <= i < |calls| && OutcomeAt(reg, calls, i, conns) == Succeeded ::
      OnlyAdds(Parse(calls[i].name, calls[i].args))
  }

  /** `w` has all keys of `reg`, and a version tag if `reg` has one. */
  ghost predicate Grown(reg: Registry, w: Registry) {
    KeysWithin(reg, w) && (w.version == "" ==> reg.version == "")
  }

  lemma CandidateGrows(reg: Registry, e: Edit, conns: set<string>)
    requires OnlyAdds(EditRequest(e)) && ApplyEdit(reg, e, conns).Ok?
    ensures Grown(reg, ApplyEdit(reg, e, conns).value)
  {
    match e
    case Put(d) => PutKeepsKeys(reg, d);
    case SetMapping(rid, am) => MappingKeepsKeys(reg, rid, am);
    case Import(incoming, mode) => OverlayKeepsKeys(reg, incoming);
  }

  lemma {:induction false} WorkingKeysGrow(reg: Registry, calls: seq<ToolCall>, conns: set<string>)
    requires SuccessfulCallsOnlyAdd(reg, calls, conns)
    ensures Grown(reg, RunCalls(reg, calls, conns))
  {
    if calls != [] {
      var n := |calls| - 1;
      var before := calls[..n];
      forall i | 0 <= i < n && OutcomeAt(reg, before, i, conns) == Succeeded
        ensures OnlyAdds(Parse(before[i].name, before[i].args))
      {
        assert before[..i] == calls[..i];
        assert OutcomeAt(reg, calls, i, conns) == Succeeded;
      }
      WorkingKeysGrow(reg, before, conns);
      var r := Parse(calls[n].name, calls[n].args);
      if OutcomeAt(reg, calls, n, conns) == Succeeded && r.EditRequest? {
        CandidateGrows(RunCalls(reg, before, conns), r.edit, conns);
      }
    }
  }

  /** From valid staging, a merge-mode job without deletes imports exactly its working registry. */
  lemma MergeJobImportsWorkingRegistry(base: Registry, calls: seq<ToolCall>, conns: set<string>)
    requires Valid(base, conns) && SuccessfulCallsOnlyAdd(base, calls, conns)
    ensures var w := RunCalls(base, calls, conns);
            KeysWithin(base, w) && ApplyEdit(base, Import(w, Merge), conns) == Ok(w)
  {
    var w := RunCalls(base, calls, conns);
    WorkingKeysGrow(base, calls, conns);
    OverlayAbsorbsIff(base, w);
    CallsKeepValid(base, calls, conns);
  }

  /**
   Exactly when the final import of a merge-mode job passes validation. Connections only matter if
   staging names one that has been deleted since.
   */
  lemma MergeJobImportsIff(base: Registry, calls: seq<ToolCall>, conns: set<string>)
    requires WellFormed(base)
    ensures var w := RunCalls(base, calls, conns);
            ApplyEdit(base, Import(w, Merge), conns).Ok? <==> MergeAgrees(base, w) && ConnectionsAgree(base, w, conns)
    ensures Valid(base, conns) ==> ConnectionsAgree(base, RunCalls(base, calls, conns), conns)
  {
    CallsKeepValid(base, calls, conns);
    MergeImportsIff(base, RunCalls(base, calls, conns), conns);
  }

  /** Exactly when a merge-mode job from valid staging imports the registry its agent left behind. */
  lemma MergeJobIsFaithfulIff(base: Registry, calls: seq<ToolCall>, conns: set<string>)
    requires Valid(base, conns)
    ensures var w := RunCalls(base, calls, conns);
            ApplyEdit(base, Import(w, Merge), conns) == Ok(w) <==> Grown(base, w)
  {
    var w := RunCalls(base, calls, conns);
    OverlayAbsorbsIff(base, w);
    CallsKeepValid(base, calls, conns);
  }

  /** Whatever the agent deleted, a merge-mode import brings back under the base's definition. */
  lemma MergeBringsBackDeleted(base: Registry, w: Registry, conns: set<string>, kind: Kind, key: string)
    requires ApplyEdit(base, Import(w, Merge), conns).Ok?
    requires key in Keys(base, kind) && key !in Keys(w, kind)
    ensures Lookup(ApplyEdit(base, Import(w, Merge), conns).value, kind, key) == Lookup(base, kind, key)
  {
    OverlayLooksUp(base, w, kind, key);
  }
}
