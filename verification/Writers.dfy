/**
 The other writers of staging: the editor tools (onto_platform/mcp_tools_editor.py) and the chat
 sessions (onto_platform/chat/orchestrator.py). As in Lifecycle, `c1`, `c2` are what other
 transactions commit between the steps of the call.
 */
module Writers {
  import opened Wrappers
  import opened Ontology
  import opened Crud
  import opened Store
  import opened Programs

  datatype EditorError = Refused(error: EditError) | StaleEdit(stale: Stale)

  /**
   One editor tool call: edit the staging loaded first, then load staging again and save. With
   `expected` the save checks the caller's version, without it the version just loaded, so that
   commits between the two loads (`c1`) go unnoticed.
   */
  method EditTool(store: RegistryStore, e: Edit, conns: set<string>, expected: Option<nat>, c1: Commits, c2: Commits)
    returns (r: Result<nat, EditorError>)
    modifies store
    ensures Carries(EditProgram(e, conns, expected),
                    [TakeSnapshot(old(store.rows), Staging), TakeSnapshot(AfterOthers(old(store.rows), c1), Staging)],
                    AfterOthers(old(store.rows), c1 + c2), r.Ok?, store.rows)
    ensures ApplyEdit(old(store.rows).staging.payload, e, conns).Ok? ==>
      (r.Ok? <==> if expected.Some? then AfterOthers(old(store.rows), c1 + c2).staging.version == expected.value
                  else !Touches(c2, Staging))
    ensures r.Ok? ==>
      && r.value == store.rows.staging.version
      && store.rows == Written(AfterOthers(old(store.rows), c1 + c2), Staging,
                               ApplyEdit(old(store.rows).staging.payload, e, conns).value)
    ensures r.Err? && r.error.Refused? ==>
      store.rows == old(store.rows) && ApplyEdit(old(store.rows).staging.payload, e, conns) == Err(r.error.error)
    ensures r.Err? && r.error.StaleEdit? ==>
      && store.rows == AfterOthers(old(store.rows), c1 + c2)
      && r.error.stale == Stale(Staging, if expected.Some? then expected.value
                                         else AfterOthers(old(store.rows), c1).staging.version, store.rows.staging.version)
  {
    var snap := store.Load(Staging);
    var edited := RunEdit(snap.registry, e, conns);
    if edited.Err? {
      return Err(Refused(edited.error));
    }
    store.Others(c1);
    ghost var atSecond := store.rows;
    var again := store.Load(Staging);
    store.Others(c2);
    AfterBoth(old(store.rows), c1, c2);
    VersionTellsWrites(atSecond, c2, Staging);
    var version := if expected.Some? then expected.value else again.version;
    CommitOne(store.rows, SaveRequest(Staging, edited.value, version));
    var saved := store.Save(Staging, edited.value, Some(version));
    r := if saved.Ok? then Ok(saved.value) else Err(StaleEdit(saved.error));
  }

  datatype SessionStatus = Active | Cancelling

  datatype SessionRow = SessionRow(token: nat, status: SessionStatus, pre: Registry, preVersion: nat)

  datatype SessionError = TooManySessions | TurnInFlight | SessionNotFound | StaleStaging

  /** The active sessions of a token. */
  function ActiveSessions(rows: map<nat, SessionRow>, token: nat): set<nat> {
    set id | id in rows && rows[id].token == token && rows[id].status.Active?
  }

  class ChatSessions {
    const maxPerToken: Option<nat>
    var rows: map<nat, SessionRow>
    var running: map<nat, nat>  // session id -> turn id

    constructor (maxPerToken: Option<nat>)
      ensures this.maxPerToken == maxPerToken && rows == map[] && running == map[]
    {
      this.maxPerToken, rows, running := maxPerToken, map[], map[];
    }

    method CountActive(token: nat) returns (n: nat)
      ensures n == |ActiveSessions(rows, token)|
    {
      n := |ActiveSessions(rows, token)|;
    }

    predicate HasRoom(count: nat) {
      maxPerToken.Some? ==> count < maxPerToken.value
    }

    method Insert(id: nat, token: nat, snap: Snapshot)
      requires id !in rows
      modifies this`rows
      ensures rows == old(rows)[id := SessionRow(token, Active, snap.registry, snap.version)]
      ensures |ActiveSessions(rows, token)| == |ActiveSessions(old(rows), token)| + 1
    {
      ghost var before := ActiveSessions(rows, token);
      rows := rows[id := SessionRow(token, Active, snap.registry, snap.version)];
      assert id !in before && ActiveSessions(rows, token) == before + {id};
    }

    /**
     Opens a session on the staging payload and version as loaded, unless the token has too many.
     Nothing is locked: other transactions commit `c1` between the count and the load and `c2`
     between the load and the insert, and leave the sessions as `meanwhile`. So the limit holds
     afterwards iff there was still room for one then.
     */
    method CreateSession(store: RegistryStore, token: nat, freshId: nat, c1: Commits, c2: Commits,
                         meanwhile: map<nat, SessionRow>)
      returns (r: Result<nat, SessionError>)
      requires freshId !in meanwhile
      modifies this`rows, store
      ensures r.Ok? <==> HasRoom(|ActiveSessions(old(rows), token)|)
      ensures r.Ok? ==>
        var staging := AfterOthers(old(store.rows), c1).staging;
        && r.value == freshId && store.rows == AfterOthers(old(store.rows), c1 + c2)
        && rows == meanwhile[freshId := SessionRow(token, Active, staging.payload, staging.version)]
        && Carries(Program.CreateSession, [TakeSnapshot(AfterOthers(old(store.rows), c1), Staging)],
                   AfterOthers(old(store.rows), c1 + c2), true, store.rows)
      ensures r.Ok? && maxPerToken.Some? ==>
        (|ActiveSessions(rows, token)| <= maxPerToken.value <==> HasRoom(|ActiveSessions(meanwhile, token)|))
      ensures r.Err? ==> r.error.TooManySessions? && rows == old(rows) && store.rows == old(store.rows)
    {
      var count := CountActive(token);
      if !HasRoom(count) {
        return Err(TooManySessions);
      }
      store.Others(c1);
      var snap := store.Load(Staging);
      store.Others(c2);
      AfterBoth(old(store.rows), c1, c2);
      rows := meanwhile;
      Insert(freshId, token, snap);
      r := Ok(freshId);
    }

    /**
     Puts the pre-session payload back into staging. The check is against the version loaded here,
     never against the one the session was created on, so the call goes through whatever was
     committed in the meantime.
     */
    method CancelSession(store: RegistryStore, id: nat, requester: Option<nat>, c1: Commits)
      returns (r: Result<(), SessionError>)
      modifies this`rows, store
      ensures r.Ok? <==>
        && id !in running && id in old(rows)
        && (requester.Some? ==> requester.value == old(rows)[id].token)
        && !Touches(c1, Staging)
      ensures r.Ok? ==>
        && rows == old(rows) - {id}
        && store.rows == Written(AfterOthers(old(store.rows), c1), Staging, old(rows)[id].pre)
        && Carries(Program.CancelSession(id, old(rows)[id].pre, old(rows)[id].preVersion), [TakeSnapshot(old(store.rows), Staging)],
                   AfterOthers(old(store.rows), c1), true, store.rows)
      ensures r.Err? ==>
        match r.error
        case StaleStaging =>
          && id in old(rows) && rows == old(rows)[id := old(rows)[id].(status := Cancelling)]
          && id !in ActiveSessions(rows, old(rows)[id].token)
          && store.rows == AfterOthers(old(store.rows), c1)
        case TurnInFlight => id in running && rows == old(rows) && store.rows == old(store.rows)
        case SessionNotFound =>
          && (id in old(rows) ==> requester.Some? && requester.value != old(rows)[id].token)
          && rows == old(rows) && store.rows == old(store.rows)
        case TooManySessions => false
    {
      if id in running {
        return Err(TurnInFlight);
      }
      if id !in rows || (requester.Some? && requester.value != rows[id].token) {
        return Err(SessionNotFound);
      }
      var pre := rows[id].pre;
      var current := store.Load(Staging);
      ghost var atLoad := store.rows;
      store.Others(c1);
      VersionTellsWrites(atLoad, c1, Staging);
      CommitOne(store.rows, SaveRequest(Staging, pre, current.version));
      var saved := store.Save(Staging, pre, Some(current.version));
      if saved.Err? {
        rows := rows[id := rows[id].(status := Cancelling)];
        return Err(StaleStaging);
      }
      rows := rows - {id};
      r := Ok(());
    }
  }

  /** With a limit of one, two calls that interleave both count no session and both open one. */
  method TwoCallsExceedTheLimit(store: RegistryStore, token: nat) returns (sessions: ChatSessions)
    ensures fresh(sessions) && sessions.maxPerToken == Some(1)
    ensures |ActiveSessions(sessions.rows, token)| == 2
  {
    sessions := new ChatSessions(Some(1));
    assert ActiveSessions(sessions.rows, token) == {};
    var first := sessions.CountActive(token);
    var second := sessions.CountActive(token);
    var snap := store.Load(Staging);
    if sessions.HasRoom(first) {
      sessions.Insert(1, token, snap);
    }
    if sessions.HasRoom(second) {
      sessions.Insert(2, token, snap);
    }
  }
}
