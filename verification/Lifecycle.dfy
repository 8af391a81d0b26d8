/**
 Promote, revert and undo (onto_platform/registry/lifecycle.py). Each load is a read of its own;
 `others` lists what other transactions commit between the reads and before the saves, which hold
 their row locks until the commit. A stale save rolls the whole transaction back.
 */
module Lifecycle {
  import opened Wrappers
  import opened Ontology
  import opened WellFormedness
  import opened Crud
  import opened Store
  import opened Programs

  datatype LifecycleError = Invalid | UndoUnavailable | StaleSave(stale: Stale)

  /**
   Commits iff staging is valid as read and nobody writes the other two rows between this
   transaction's read of them and its commit. Then previous_production gets exactly the payload
   production held, and production the staging payload read at the start.
   */
  method PromoteStagingToProduction(store: RegistryStore, conns: set<string>, c1: Commits, c2: Commits, c3: Commits)
    returns (r: Result<(), LifecycleError>)
    modifies store
    ensures r.Ok? <==>
      && Valid(old(store.rows).staging.payload, conns)
      && !Touches(c2 + c3, Production) && !Touches(c3, PreviousProduction)
    ensures r.Ok? ==>
      var before := AfterOthers(old(store.rows), c1 + c2 + c3);
      && store.rows.staging == before.staging
      && store.rows.previous == Row(before.production.payload, before.previous.version + 1)
      && store.rows.production == Row(old(store.rows).staging.payload, before.production.version + 1)
    ensures r.Err? && r.error.Invalid? <==> !Valid(old(store.rows).staging.payload, conns)
    ensures Carries(PromoteProgram(conns),
                    [TakeSnapshot(old(store.rows), Staging), TakeSnapshot(AfterOthers(old(store.rows), c1), Production),
                     TakeSnapshot(AfterOthers(old(store.rows), c1 + c2), PreviousProduction)],
                    AfterOthers(old(store.rows), c1 + c2 + c3), r.Ok?, store.rows)
    ensures r.Err? ==>
      if r.error.Invalid? then store.rows == old(store.rows)
      else r.error.StaleSave? && store.rows == AfterOthers(old(store.rows), c1 + c2 + c3)
    ensures r.Err? && r.error.StaleSave? ==>
      var read := if Touches(c3, PreviousProduction) then AfterOthers(old(store.rows), c1 + c2).previous.version
                  else AfterOthers(old(store.rows), c1).production.version;
      r.error.stale == if Touches(c3, PreviousProduction)
                       then Stale(PreviousProduction, read, store.rows.previous.version)
                       else Stale(Production, read, store.rows.production.version)
  {
    var staging := store.Load(Staging);
    var checked := ValidateOrRaise(staging.registry, conns);
    if checked.Err? {
      return Err(Invalid);
    }
    store.Others(c1);
    ghost var atProduction := store.rows;
    var production := store.Load(Production);
    store.Others(c2);
    ghost var atPrevious := store.rows;
    var previous := store.Load(PreviousProduction);
    store.Others(c3);
    AfterBoth(old(store.rows), c1, c2);
    AfterBoth(old(store.rows), c1 + c2, c3);
    AfterBoth(atProduction, c2, c3);
    VersionTellsWrites(atProduction, c2 + c3, Production);
    VersionTellsWrites(atPrevious, c3, PreviousProduction);
    var start := store.rows;
    CommitTwo(start, SaveRequest(PreviousProduction, production.registry, previous.version),
              SaveRequest(Production, staging.registry, production.version));
    var first := store.Save(PreviousProduction, production.registry, Some(previous.version));
    if first.Err? {
      return Err(StaleSave(first.error));
    }
    var second := store.Save(Production, staging.registry, Some(production.version));
    if second.Err? {
      store.rows := start;
      return Err(StaleSave(second.error));
    }
    r := Ok(());
  }

  /** Commits iff nobody writes staging in between; staging then holds production's payload as read. */
  method RevertStagingToProduction(store: RegistryStore, c1: Commits, c2: Commits) returns (r: Result<(), LifecycleError>)
    modifies store
    ensures r.Ok? <==> !Touches(c2, Staging)
    ensures r.Err? ==>
      r.error == StaleSave(Stale(Staging, AfterOthers(old(store.rows), c1).staging.version, store.rows.staging.version))
    ensures var before := AfterOthers(old(store.rows), c1 + c2);
            store.rows == if r.Ok? then Written(before, Staging, old(store.rows).production.payload) else before
    ensures Carries(RevertProgram,
                    [TakeSnapshot(old(store.rows), Production), TakeSnapshot(AfterOthers(old(store.rows), c1), Staging)],
                    AfterOthers(old(store.rows), c1 + c2), r.Ok?, store.rows)
  {
    var production := store.Load(Production);
    store.Others(c1);
    ghost var atStaging := store.rows;
    var staging := store.Load(Staging);
    store.Others(c2);
    AfterBoth(old(store.rows), c1, c2);
    VersionTellsWrites(atStaging, c2, Staging);
    CommitOne(store.rows, SaveRequest(Staging, production.registry, staging.version));
    var saved := store.Save(Staging, production.registry, Some(staging.version));
    r := if saved.Ok? then Ok(()) else Err(StaleSave(saved.error));
  }

  /**
   Commits iff the slot's tag as read is not the empty one and nobody writes the two rows after they
   are read. Then production gets the payload the slot held, and the slot becomes empty.
   */
  method UndoPromote(store: RegistryStore, c1: Commits, c2: Commits) returns (r: Result<(), LifecycleError>)
    modifies store
    ensures r.Ok? <==>
      && old(store.rows).previous.payload.version != EMPTY_VERSION
      && !Touches(c2, Production) && !Touches(c1 + c2, PreviousProduction)
    ensures r.Ok? ==>
      var before := AfterOthers(old(store.rows), c1 + c2);
      && store.rows.staging == before.staging
      && store.rows.production == Row(before.previous.payload, before.production.version + 1)
      && store.rows.previous == Row(EmptyRegistry(), before.previous.version + 1)
    ensures Carries(UndoProgram,
                    [TakeSnapshot(old(store.rows), PreviousProduction), TakeSnapshot(AfterOthers(old(store.rows), c1), Production)],
                    AfterOthers(old(store.rows), c1 + c2), r.Ok?, store.rows)
    ensures r.Err? && r.error.UndoUnavailable? <==> old(store.rows).previous.payload.version == "__empty__"
    ensures r.Err? && r.error.StaleSave? ==>
      r.error.stale == if Touches(c2, Production)
                       then Stale(Production, AfterOthers(old(store.rows), c1).production.version, store.rows.production.version)
                       else Stale(PreviousProduction, old(store.rows).previous.version, store.rows.previous.version)
    ensures r.Err? ==>
      if r.error.UndoUnavailable? then store.rows == old(store.rows)
      else r.error.StaleSave? && store.rows == AfterOthers(old(store.rows), c1 + c2)
  {
    var previous := store.Load(PreviousProduction);
    if previous.registry.version == EMPTY_VERSION {
      return Err(UndoUnavailable);
    }
    store.Others(c1);
    ghost var atProduction := store.rows;
    var production := store.Load(Production);
    store.Others(c2);
    AfterBoth(old(store.rows), c1, c2);
    VersionTellsWrites(atProduction, c2, Production);
    VersionTellsWrites(old(store.rows), c1 + c2, PreviousProduction);
    var start := store.rows;
    CommitTwo(start, SaveRequest(Production, previous.registry, production.version),
              SaveRequest(PreviousProduction, EmptyRegistry(), previous.version));
    var first := store.Save(Production, previous.registry, Some(production.version));
    if first.Err? {
      return Err(StaleSave(first.error));
    }
    var second := store.Save(PreviousProduction, EmptyRegistry(), Some(previous.version));
    if second.Err? {
      store.rows := start;
      return Err(StaleSave(second.error));
    }
    r := Ok(());
  }
}
