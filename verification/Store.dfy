/** The three environment rows and their compare-and-swap (onto_platform/registry/store.py). */
module Store {
  import opened Wrappers
  import opened Ontology

  datatype Env = Staging | Production | PreviousProduction

  /** One value per environment. */
  datatype PerEnv<T> = PerEnv(staging: T, production: T, previous: T) {
    function Get(env: Env): T {
      match env
      case Staging => staging
      case Production => production
      case PreviousProduction => previous
    }

    function Set(env: Env, x: T): (p: PerEnv<T>)
      ensures forall e: Env :: p.Get(e) == if e == env then x else Get(e)
    {
      match env
      case Staging => this.(staging := x)
      case Production => this.(production := x)
      case PreviousProduction => this.(previous := x)
    }
  }

  datatype Row = Row(payload: Registry, version: nat)

  type Rows = PerEnv<Row>

  datatype Snapshot = Snapshot(env: Env, registry: Registry, version: nat)

  datatype SaveRequest = SaveRequest(env: Env, payload: Registry, expected: nat)

  datatype Stale = Stale(env: Env, expected: nat, current: nat)

  function TakeSnapshot(rows: Rows, env: Env): Snapshot {
    Snapshot(env, rows.Get(env).payload, rows.Get(env).version)
  }

  /** The row after a save that goes through: new payload, next version. */
  function Written(rows: Rows, env: Env, payload: Registry): Rows {
    rows.Set(env, Row(payload, rows.Get(env).version + 1))
  }

  /** All saves of one transaction, in order, or none of them. */
  function CommitAll(rows: Rows, saves: seq<SaveRequest>): Option<Rows>
    decreases |saves|
  {
    if saves == [] then Some(rows)
    else if saves[0].expected != rows.Get(saves[0].env).version then None
    else CommitAll(Written(rows, saves[0].env, saves[0].payload), saves[1..])
  }

  lemma CommitOne(rows: Rows, a: SaveRequest)
    ensures CommitAll(rows, [a]) ==
            if a.expected == rows.Get(a.env).version then Some(Written(rows, a.env, a.payload)) else None
  {
    assert [a][1..] == [];
  }

  /** Two saves to different environments go through iff both expectations hold beforehand. */
  lemma CommitTwo(rows: Rows, a: SaveRequest, b: SaveRequest)
    requires a.env != b.env
    ensures CommitAll(rows, [a, b]) ==
            if a.expected == rows.Get(a.env).version && b.expected == rows.Get(b.env).version
            then Some(Written(Written(rows, a.env, a.payload), b.env, b.payload)) else None
  {
    assert [a, b][1..] == [b];
    CommitOne(Written(rows, a.env, a.payload), b);
  }

  /** Commits by other transactions, in order: what each wrote where. */
  type Commits = seq<(Env, Registry)>

  function AfterOthers(rows: Rows, others: Commits): Rows {
    if others == [] then rows
    else Written(AfterOthers(rows, others[..|others| - 1]), others[|others| - 1].0, others[|others| - 1].1)
  }

  predicate Touches(others: Commits, env: Env) {
    exists i :: 0 <= i < |others| && others[i].0 == env
  }

  /** A version stays the same exactly while nobody writes, and then so does the payload. */
  lemma {:induction false} VersionTellsWrites(rows: Rows, others: Commits, env: Env)
    ensures rows.Get(env).version <= AfterOthers(rows, others).Get(env).version
    ensures AfterOthers(rows, others).Get(env).version == rows.Get(env).version <==> !Touches(others, env)
    ensures !Touches(others, env) ==> AfterOthers(rows, others).Get(env) == rows.Get(env)
  {
    if others != [] {
      var n := |others| - 1;
      VersionTellsWrites(rows, others[..n], env);
      if Touches(others[..n], env) {
        var i :| 0 <= i < n && others[..n][i].0 == env;
        assert others[i].0 == env;
      }
      if Touches(others, env) && others[n].0 != env {
        var i :| 0 <= i < |others| && others[i].0 == env;
        assert others[..n][i].0 == env;
      }
    }
  }

  lemma {:induction false} AfterBoth(rows: Rows, a: Commits, b: Commits)
    ensures AfterOthers(AfterOthers(rows, a), b) == AfterOthers(rows, a + b)
    decreases |b|
  {
    if b == [] {
      assert a + b == a;
    } else {
      AfterBoth(rows, a, b[..|b| - 1]);
      assert (a + b)[..|a + b| - 1] == a + b[..|b| - 1];
    }
  }

  class RegistryStore {
    var rows: Rows

    constructor (rows: Rows)
      ensures this.rows == rows
    {
      this.rows := rows;
    }

    method Load(env: Env) returns (snap: Snapshot)
      ensures snap == TakeSnapshot(rows, env)
    {
      snap := Snapshot(env, rows.Get(env).payload, rows.Get(env).version);
    }

    /** Writes and raises the version by one, or changes nothing and reports the current version. */
    method Save(env: Env, payload: Registry, expected: Option<nat>) returns (r: Result<nat, Stale>)
      modifies this
      ensures r.Ok? <==> expected.None? || expected.value == old(rows.Get(env).version)
      ensures r.Ok? ==> r.value == old(rows.Get(env).version) + 1 && rows == Written(old(rows), env, payload)
      ensures r.Err? ==>
        rows == old(rows) && r.error == Stale(env, expected.value, old(rows.Get(env).version))
    {
      var current := rows.Get(env).version;
      if expected.Some? && current != expected.value {
        return Err(Stale(env, expected.value, current));
      }
      var newVersion := current + 1;
      rows := rows.Set(env, Row(payload, newVersion));
      r := Ok(newVersion);
    }

    /** Other transactions commit while this one waits. */
    method Others(commits: Commits)
      modifies this
      ensures rows == AfterOthers(old(rows), commits)
    {
      for i := 0 to |commits|
        invariant rows == AfterOthers(old(rows), commits[..i])
      {
        rows := Written(rows, commits[i].0, commits[i].1);
        assert commits[..i + 1][..i] == commits[..i];
      }
      assert commits[..|commits|] == commits;
    }
  }
}
