/** Concrete registries on which the code does not do what one might expect of it. */
module Examples {
  import opened Wrappers
  import opened Ontology
  import opened Formats
  import opened WellFormedness
  import opened CycleSearch
  import RefsScan
  import opened Crud
  import opened Tools
  import opened Agent
  import opened Store
  import opened Programs

  const UUID := "00000000-0000-0000-0000-000000000000"
  const OTHER_UUID := "00000000-0000-0000-0000-000000000001"

  function Rid(prefix: string, uuid: string): string {
    "ri." + prefix + "." + uuid
  }

  lemma RidIsWellFormed(prefix: string, uuid: string)
    requires IsUuid(uuid)
    ensures IsRid(Rid(prefix, uuid), prefix)
  {
    var r, n := Rid(prefix, uuid), |prefix|;
    assert r[|r| - 1] == uuid[35] && IsHex(uuid[35]);
    assert r[..3] == "ri." && r[3..n + 3] == prefix && r[n + 3] == '.' && r[n + 4..] == uuid;
  }

  lemma UuidsAreWellFormed()
    ensures IsUuid(UUID) && IsUuid(OTHER_UUID) && UUID != OTHER_UUID
  {
    assert UUID[35] != OTHER_UUID[35];
  }

  // ----- Undo refuses although the slot has content -----

  const ACTION := ActionType(Rid("action", UUID), "", [], "")

  const EDITED := PutCandidate(EmptyRegistry(), ActionDef(ACTION))

  lemma EditedIsValid(conns: set<string>)
    ensures Valid(EDITED, conns)
  {
    UuidsAreWellFormed();
    RidIsWellFormed("action", UUID);
    EmptyIsValid(conns);
    assert EDITED.interfaces == EmptyRegistry().interfaces;
    forall kind, key | key in Keys(EDITED, kind)
      ensures NamesOk(Head(EDITED, kind, key).0, Head(EDITED, kind, key).1, RidPrefix(kind))
    {
      assert kind == ActionKind;
    }
  }

  /** From fresh environments: put an action type, promote twice. The slot holds it, and undo refuses. */
  lemma UndoRefusesAFullSlot(conns: set<string>)
    ensures var fresh_ := PerEnv(Row(EmptyRegistry(), 0), Row(EmptyRegistry(), 0), Row(EmptyRegistry(), 0));
            var edited := RunAlone(fresh_, EditProgram(Put(ActionDef(ACTION)), conns, None));
            && edited.Some?
            && var once := RunAlone(edited.value, PromoteProgram(conns));
            && once.Some?
            && var twice := RunAlone(once.value, PromoteProgram(conns));
            && twice.Some?
            && twice.value.previous.payload.actions != map[]
            && RunAlone(twice.value, UndoProgram) == None
  {
    EditedIsValid(conns);
    var rows := PerEnv(Row(EmptyRegistry(), 0), Row(EmptyRegistry(), 0), Row(EmptyRegistry(), 0));
    CommitOne(rows, SaveRequest(Staging, EDITED, 0));
    var edited := RunAlone(rows, EditProgram(Put(ActionDef(ACTION)), conns, None));
    AlonePromote(edited.value, conns);
    var once := RunAlone(edited.value, PromoteProgram(conns));
    AlonePromote(once.value, conns);
    AloneUndo(RunAlone(once.value, PromoteProgram(conns)).value);
    assert ACTION.rid in EDITED.actions;
  }

  // ----- Registries of interfaces alone -----

  function OnlyInterfaces(g: map<string, Interface>): Registry {
    EmptyRegistry().(interfaces := g)
  }

  function PlainInterface(rid: string, category: Category, parents: seq<string>): Interface {
    Interface(rid, "", category, parents, [], [], None, "")
  }

  ghost predicate PlainMap(g: map<string, Interface>) {
    && (forall r | r in g :: IsRid(g[r].rid, "iface") && g[r].apiName == "" && g[r].requiredShared == [])
    && (forall r, p | r in g && p in g[r].parents :: p == "" || p in g)
  }

  lemma OnlyInterfacesStructure(g: map<string, Interface>)
    requires PlainMap(g)
    ensures StructureOk(OnlyInterfaces(g))
  {
    var reg := OnlyInterfaces(g);
    forall kind, key | key in Keys(reg, kind)
      ensures NamesOk(Head(reg, kind, key).0, Head(reg, kind, key).1, RidPrefix(kind))
    {
      assert kind == InterfaceKind;
    }
  }

  lemma OnlyInterfacesReferences(g: map<string, Interface>)
    requires PlainMap(g)
    ensures NoDangling(OnlyInterfaces(g))
  {
    forall e | HasEdge(OnlyInterfaces(g), e) ensures !Dangling(OnlyInterfaces(g), e) {
      assert e.ExtendsInterface?;
    }
  }

  lemma OnlyInterfacesValid(g: map<string, Interface>, conns: set<string>)
    requires PlainMap(g) && CategoriesOk(g) && Acyclic(g)
    ensures Valid(OnlyInterfaces(g), conns)
  {
    OnlyInterfacesStructure(g);
    OnlyInterfacesReferences(g);
  }

  /** An empty name in the list of parents passes validation without naming any interface. */
  lemma EmptyParentIsAccepted(conns: set<string>)
    ensures var rid := Rid("iface", UUID);
            var reg := OnlyInterfaces(map[rid := PlainInterface(rid, ObjectInterface, [""])]);
            && Valid(reg, conns)
            && HasEdge(reg, ExtendsInterface(rid, ""))
            && "" !in reg.interfaces
  {
    UuidsAreWellFormed();
    RidIsWellFormed("iface", UUID);
    var rid := Rid("iface", UUID);
    var g := map[rid := PlainInterface(rid, ObjectInterface, [""])];
    assert rid != "";
    assert FinishingOrder(g, [rid]);
    FinishingOrderIsAcyclic(g, [rid]);
    OnlyInterfacesValid(g, conns);
  }

  // ----- A merge-mode job whose working registry is valid can fail validation -----

  const PARENT := Rid("iface", UUID)
  const CHILD := Rid("iface", OTHER_UUID)

  predicate TwoRids(a: string, b: string) {
    IsRid(a, "iface") && IsRid(b, "iface") && a != b
  }

  lemma ParentAndChild()
    ensures TwoRids(PARENT, CHILD)
  {
    UuidsAreWellFormed();
    RidIsWellFormed("iface", UUID);
    RidIsWellFormed("iface", OTHER_UUID);
    assert PARENT[|PARENT| - 1] == UUID[35] && CHILD[|CHILD| - 1] == OTHER_UUID[35];
  }

  function Alone(a: string, category: Category): Registry {
    OnlyInterfaces(map[a := PlainInterface(a, category, [])])
  }

  /** Interface `b` extends interface `a`. */
  function Family(a: string, b: string): Registry {
    OnlyInterfaces(map[a := PlainInterface(a, ObjectInterface, []), b := PlainInterface(b, ObjectInterface, [a])])
  }

  /** The agent deletes the child and then turns the parent into a link interface. */
  function MergeCalls(a: string, b: string): seq<ToolCall> {
    [ToolCall("1", WorkingDelete(InterfaceKind), Args(None, Some(b), None, None, None, None), ""),
     ToolCall("2", WorkingPut(InterfaceKind),
              Args(Some(InterfaceDef(PlainInterface(a, LinkInterface, []))), None, None, None, None, None), "")]
  }

  lemma FamilyIsAcyclic(a: string, b: string)
    requires a != b
    ensures Acyclic(Family(a, b).interfaces)
  {
    var g, order := Family(a, b).interfaces, [a, b];
    assert order[..1] == [a];
    assert forall r :: r in order <==> r in g;
    FinishingOrderIsAcyclic(g, order);
  }

  lemma FamilyIsPlain(a: string, b: string)
    requires TwoRids(a, b)
    ensures PlainMap(Family(a, b).interfaces)
  {}

  lemma FamilyHasOneCategory(a: string, b: string)
    ensures CategoriesOk(Family(a, b).interfaces)
  {}

  lemma FamilyIsValid(a: string, b: string, conns: set<string>)
    requires TwoRids(a, b)
    ensures Valid(Family(a, b), conns)
  {
    FamilyIsAcyclic(a, b);
    FamilyIsPlain(a, b);
    FamilyHasOneCategory(a, b);
    OnlyInterfacesValid(Family(a, b).interfaces, conns);
  }

  lemma AloneIsValid(a: string, category: Category, conns: set<string>)
    requires IsRid(a, "iface") && !category.InvalidCategory?
    ensures Valid(Alone(a, category), conns)
  {
    var g := Alone(a, category).interfaces;
    assert FinishingOrder(g, [a]);
    FinishingOrderIsAcyclic(g, [a]);
    OnlyInterfacesValid(g, conns);
  }

  lemma DeleteChild(a: string, b: string, conns: set<string>)
    requires TwoRids(a, b)
    ensures ApplyEdit(Family(a, b), Delete(InterfaceKind, b), conns) == Ok(Alone(a, ObjectInterface))
  {
    var reg := Family(a, b);
    forall r ensures !RefsScan.IsReferrer(reg, b, r) {
      if RefsScan.IsReferrer(reg, b, r) {
        RefsScan.HomeExists(reg, b, r);
      }
    }
    assert reg.interfaces - {b} == Alone(a, ObjectInterface).interfaces;
  }

  lemma PutParent(a: string, conns: set<string>)
    requires IsRid(a, "iface")
    ensures ApplyEdit(Alone(a, ObjectInterface), Put(InterfaceDef(PlainInterface(a, LinkInterface, []))), conns) ==
            Ok(Alone(a, LinkInterface))
  {
    AloneIsValid(a, LinkInterface, conns);
    assert PutCandidate(Alone(a, ObjectInterface), InterfaceDef(PlainInterface(a, LinkInterface, []))) ==
           Alone(a, LinkInterface);
  }

  lemma MergeIsRefused(a: string, b: string, conns: set<string>)
    requires a != b
    ensures ApplyEdit(Family(a, b), Import(Alone(a, LinkInterface), Merge), conns) == Err(ValidationFailed)
  {
    var merged := Overlay(Family(a, b), Alone(a, LinkInterface));
    assert Extends(merged.interfaces, b, a);
    assert merged.interfaces[b].category != merged.interfaces[a].category;
  }

  lemma FamilyMergeIsRefused(a: string, b: string, conns: set<string>)
    requires TwoRids(a, b)
    ensures var base, calls, w := Family(a, b), MergeCalls(a, b), Alone(a, LinkInterface);
            && Valid(base, conns)
            && OutcomeAt(base, calls, 0, conns) == OutcomeAt(base, calls, 1, conns) == Succeeded
            && RunCalls(base, calls, conns) == w && Valid(w, conns)
            && ApplyEdit(base, Import(w, Merge), conns) == Err(ValidationFailed)
  {
    FamilyIsValid(a, b, conns);
    AloneIsValid(a, LinkInterface, conns);
    DeleteChild(a, b, conns);
    PutParent(a, conns);
    MergeIsRefused(a, b, conns);
    var base, calls := Family(a, b), MergeCalls(a, b);
    assert calls[..0] == [] && calls[..1] == [calls[0]] && calls[..1][..0] == [];
    assert RunCalls(base, calls[..1], conns) == Alone(a, ObjectInterface);
  }

  /** Both calls succeed and leave a valid registry, yet its merge into staging is refused. */
  lemma MergeJobCanFailValidation(conns: set<string>)
    ensures var base, calls, w := Family(PARENT, CHILD), MergeCalls(PARENT, CHILD), Alone(PARENT, LinkInterface);
            && Valid(base, conns)
            && OutcomeAt(base, calls, 0, conns) == OutcomeAt(base, calls, 1, conns) == Succeeded
            && RunCalls(base, calls, conns) == w && Valid(w, conns)
            && ApplyEdit(base, Import(w, Merge), conns) == Err(ValidationFailed)
  {
    ParentAndChild();
    FamilyMergeIsRefused(PARENT, CHILD, conns);
  }

  // ----- A call that runs and is never recorded -----

  /** Puts an action type; beside the definition, the arguments hold a registry whose interfaces are null. */
  const SILENT_PUT := ToolCall(
    "1", WorkingPut(ActionKind),
    Args(Some(ActionDef(ACTION)), None, None, None, None, Some(map[InterfaceKind := None])), "")

  /** The model asks for one call, and would be done after that. */
  function OneCall(call: ToolCall): nat -> Completion {
    (k: nat) => if k == 0 then Reply("", [call]) else Reply("done", [])
  }

  lemma FirstReplyRaises(result: AgentResult, llm: nat -> Completion, completions: nat, maxSteps: int)
    requires ResultIs(result, llm, completions, maxSteps) && !result.Cancelled?
    requires maxSteps > 0 && Unrecordable(llm, 0)
    ensures result.SummaryRaised? && completions == 1
  {
    assert !Busy(llm, 0) && BusyUntil(llm, 0);
  }

  lemma OneCallRaises(call: ToolCall, run: AgentRun, base: Registry, reg: Registry, conns: set<string>, maxSteps: int)
    requires !Summarizable(call.args) && maxSteps > 0
    requires Ended(run, base, reg, conns, OneCall(call), maxSteps) && !run.result.Cancelled?
    ensures run.result.SummaryRaised? && run.completions == 1 && run.dispatched == [call] && run.decisions == []
    ensures reg == Tools.Step(base, call, conns).0
  {
    var llm := OneCall(call);
    assert Unrecordable(llm, 0) by { assert llm(0).calls[0] == call; }
    FirstReplyRaises(run.result, llm, run.completions, maxSteps);
    assert CallsOf(llm, 1) == [call] by { assert [] + [call] == [call]; }
    assert run.dispatched == [call];
    assert Recorded(run) == [];
    RunOneMore(base, [], call, conns);
    assert [] + [call] == [call];
  }

  lemma UnknownCallDoesNothing(call: ToolCall, base: Registry, conns: set<string>)
    requires call.name.OtherName?
    ensures Tools.Step(base, call, conns) == (base, UnknownToolFailure)
  {}

  /** A call of an unknown tool, its arguments a list or a number, ends the run without a decision. */
  lemma UnknownCallEndsRun(call: ToolCall, run: AgentRun, base: Registry, reg: Registry, conns: set<string>, maxSteps: int)
    requires call.name.OtherName? && call.args.NotAnObject? && maxSteps > 0
    requires Ended(run, base, reg, conns, OneCall(call), maxSteps) && !run.result.Cancelled?
    ensures run.result.SummaryRaised? && run.decisions == [] && reg == base
  {
    UnknownCallDoesNothing(call, base, conns);
    OneCallRaises(call, run, base, reg, conns, maxSteps);
  }

  lemma SilentPutSucceeds(conns: set<string>)
    ensures Tools.Step(EmptyRegistry(), SILENT_PUT, conns) == (EDITED, Succeeded)
    ensures EDITED.actions != map[] && !Summarizable(SILENT_PUT.args)
  {
    EditedIsValid(conns);
    assert ACTION.rid in EDITED.actions;
    assert InterfaceKind in SILENT_PUT.args.entries.value;
  }

  /** The run ends without a decision after its call has changed the working registry. */
  lemma PutGoesUnrecorded(run: AgentRun, reg: Registry, conns: set<string>, maxSteps: int)
    requires maxSteps > 0 && !run.result.Cancelled?
    requires Ended(run, EmptyRegistry(), reg, conns, OneCall(SILENT_PUT), maxSteps)
    ensures run.result.SummaryRaised? && run.decisions == [] && reg.actions != map[]
  {
    SilentPutSucceeds(conns);
    OneCallRaises(SILENT_PUT, run, EmptyRegistry(), reg, conns, maxSteps);
  }
}
