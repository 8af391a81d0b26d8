/** One ingestion job, from its queued row to its terminal status (onto_platform/ingestion/workers.py). */
module Workers {
  import opened Wrappers
  import opened Ontology
  import opened WellFormedness
  import opened Crud
  import opened Merging
  import opened Tools
  import opened Agent
  import opened Store
  import opened Programs

  datatype JobStatus = Queued | Extracting | AgentRunning | Validating | Imported | JobFailed | JobCancelled

  datatype ErrorCode =
    ExtractionFailed | WallClockTimeout | StepCap | LlmProviderError | StaleVersion | ImportInvalid

  /** What extracting one upload yields or raises. */
  datatype Extraction = Document | BadFile | ExtractionCancelled | ExtractionError

  function Rank(status: JobStatus): nat {
    match status
    case Queued => 0
    case Extracting => 1
    case AgentRunning => 2
    case Validating => 3
    case _ => 4
  }

  predicate IsTerminal(status: JobStatus) { Rank(status) == 4 }

  /** Statuses that only ever move forward. */
  ghost predicate Forward(trace: seq<JobStatus>) {
    forall i, j | 0 <= i < j < |trace| :: Rank(trace[i]) < Rank(trace[j])
  }

  /** The job has moved strictly forward to a terminal status. */
  ghost predicate MovedForward(trace: seq<JobStatus>, status: JobStatus) {
    trace != [] && trace[|trace| - 1] == status && IsTerminal(status) && Forward(trace)
  }

  lemma AgentTraces(trace: seq<JobStatus>, status: JobStatus)
    requires IsTerminal(status)
    requires var started := [Queued, Extracting] + [AgentRunning];
             trace == started + [status] || trace == started + [Validating, status]
    ensures MovedForward(trace, status)
  {}

  datatype JobColumns = JobColumns(
    status: JobStatus, progress: nat, errorCode: Option<ErrorCode>, versionAfter: Option<nat>, decisions: Option<seq<Decision>>)

  class JobRow {
    var status: JobStatus
    var progress: nat
    var errorCode: Option<ErrorCode>
    var decisions: Option<seq<Decision>>
    var stagingVersionAfter: Option<nat>
    var started: bool
    var finished: bool
    ghost var trace: seq<JobStatus>

    constructor ()
      ensures status == Queued && progress == 0 && errorCode == None && decisions == None
      ensures stagingVersionAfter == None && !started && !finished && trace == [Queued]
    {
      status, progress, errorCode, decisions := Queued, 0, None, None;
      stagingVersionAfter, started, finished := None, false, false;
      trace := [Queued];
    }

    /** The columns that say how the job ended. */
    function Columns(): JobColumns
      reads this
    {
      JobColumns(status, progress, errorCode, stagingVersionAfter, decisions)
    }

    /** Overwrites the status; every other column keeps its value unless a new one is given. */
    method SetStatus(s: JobStatus, newProgress: Option<nat>, error: Option<ErrorCode>,
                     report: Option<seq<Decision>>, version: Option<nat>, markStarted: bool, markFinished: bool)
      modifies this
      ensures status == s && trace == old(trace) + [s]
      ensures progress == if newProgress.Some? then newProgress.value else old(progress)
      ensures errorCode == if error.Some? then error else old(errorCode)
      ensures decisions == if report.Some? then report else old(decisions)
      ensures stagingVersionAfter == if version.Some? then version else old(stagingVersionAfter)
      ensures started == (old(started) || markStarted)
      ensures finished == (old(finished) || markFinished)
    {
      status, trace := s, trace + [s];
      progress := if newProgress.Some? then newProgress.value else progress;
      errorCode := if error.Some? then error else errorCode;
      decisions := if report.Some? then report else decisions;
      stagingVersionAfter := if version.Some? then version else stagingVersionAfter;
      started, finished := started || markStarted, finished || markFinished;
    }

    /** A terminal status with its error code. */
    method Finish(s: JobStatus, error: Option<ErrorCode>)
      modifies this
      ensures status == s && trace == old(trace) + [s] && finished
      ensures errorCode == if error.Some? then error else old(errorCode)
      ensures progress == old(progress) && decisions == old(decisions)
      ensures stagingVersionAfter == old(stagingVersionAfter) && started == old(started)
    {
      SetStatus(s, None, error, None, None, false, true);
    }
  }

  /** The first upload that does not yield a document decides how extraction ends. */
  function ExtractionEnd(uploads: seq<Extraction>): (r: Option<(JobStatus, Option<ErrorCode>)>)
    ensures r.Some? ==> IsTerminal(r.value.0) && r.value.0 != Imported && r.value.1 != Some(ImportInvalid)
  {
    if uploads == [] then None
    else match uploads[0]
      case Document => ExtractionEnd(uploads[1..])
      case BadFile => Some((JobFailed, Some(ExtractionFailed)))
      case ExtractionCancelled => Some((JobCancelled, None))
      case ExtractionError => Some((JobFailed, Some(ExtractionFailed)))
  }

  lemma {:induction false} DocumentsThenEnd(uploads: seq<Extraction>, i: nat)
    requires i <= |uploads| && forall j | 0 <= j < i :: uploads[j].Document?
    ensures ExtractionEnd(uploads) == ExtractionEnd(uploads[i..])
  {
    if i > 0 {
      DocumentsThenEnd(uploads, i - 1);
      assert uploads[i - 1..][1..] == uploads[i..];
    }
  }

  /** Upload i is the first that does not yield a document. */
  ghost predicate FirstFailure(uploads: seq<Extraction>, i: nat, e: Extraction) {
    i < |uploads| && uploads[i] == e && !e.Document? && forall j | 0 <= j < i :: uploads[j].Document?
  }

  /** What a job that ended in extraction says about its uploads. */
  ghost predicate ExtractionMeans(uploads: seq<Extraction>, status: JobStatus, errorCode: Option<ErrorCode>) {
    && (status == JobCancelled <==> exists i: nat :: FirstFailure(uploads, i, ExtractionCancelled))
    && (status == JobFailed <==> errorCode == Some(ExtractionFailed))
    && (status == JobFailed <==>
        exists i: nat :: FirstFailure(uploads, i, BadFile) || FirstFailure(uploads, i, ExtractionError))
    && (status == JobFailed || (status == JobCancelled && errorCode == None))
  }

  lemma ExtractionEnds(uploads: seq<Extraction>)
    ensures ExtractionEnd(uploads).None? <==> forall i | 0 <= i < |uploads| :: uploads[i].Document?
    ensures ExtractionEnd(uploads).Some? ==>
      ExtractionMeans(uploads, ExtractionEnd(uploads).value.0, ExtractionEnd(uploads).value.1)
  {
    var i := 0;
    while i < |uploads| && uploads[i].Document?
      invariant i <= |uploads| && forall j | 0 <= j < i :: uploads[j].Document?
    {
      i := i + 1;
    }
    DocumentsThenEnd(uploads, i);
    if i < |uploads| {
      assert FirstFailure(uploads, i, uploads[i]);
      assert forall k: nat, e | FirstFailure(uploads, k, e) :: k == i;
    }
  }

  /** How an agent that did not finish ends its job. */
  function AgentEnd(result: AgentResult): (r: Option<(JobStatus, Option<ErrorCode>)>)
    ensures r.None? <==> result.Finished?
    ensures r.Some? ==> IsTerminal(r.value.0) && r.value.0 != Imported
  {
    match result
    case Finished(_, _) => None
    case StepCapExceeded => Some((JobFailed, Some(StepCap)))
    case SummaryRaised => Some((JobFailed, Some(LlmProviderError)))
    case Cancelled => Some((JobCancelled, None))
    case ClientRaised(error) =>
      match error
      case TimedOut => Some((JobFailed, Some(WallClockTimeout)))
      case CancelledInside => Some((JobCancelled, None))
      case ProviderError => Some((JobFailed, Some(LlmProviderError)))
  }

  /** What status and error code of a job whose agent ran say about the agent's run. */
  ghost predicate AgentMeans(result: AgentResult, status: JobStatus, errorCode: Option<ErrorCode>) {
    && (status == JobCancelled <==> result == Cancelled || result == ClientRaised(CancelledInside))
    && (errorCode == Some(StepCap) <==> result == StepCapExceeded)
    && (errorCode == Some(WallClockTimeout) <==> result == ClientRaised(TimedOut))
    && (errorCode == Some(LlmProviderError) <==> result == ClientRaised(ProviderError) || result == SummaryRaised)
    && (errorCode in {Some(StaleVersion), Some(ImportInvalid)} || status == Imported <==> result.Finished?)
    && (status == JobFailed <==> errorCode.Some?)
  }

  /** Reads the uploads in order; stops the job at the first that fails. */
  method Extract(row: JobRow, uploads: seq<Extraction>) returns (ended: bool)
    modifies row
    ensures ended <==> ExtractionEnd(uploads).Some?
    ensures ended ==>
      && row.status == ExtractionEnd(uploads).value.0 && row.trace == old(row.trace) + [row.status] && row.finished
      && row.errorCode == (if ExtractionEnd(uploads).value.1.Some? then ExtractionEnd(uploads).value.1 else old(row.errorCode))
      && row.stagingVersionAfter == old(row.stagingVersionAfter)
      && row.progress == old(row.progress) && row.started == old(row.started)
    ensures !ended ==> unchanged(row)
  {
    var documents := 0;
    for i := 0 to |uploads|
      invariant documents == i && forall j | 0 <= j < i :: uploads[j].Document?
      invariant unchanged(row)
    {
      DocumentsThenEnd(uploads, i);
      match uploads[i] {
        case Document => documents := documents + 1;
        case BadFile => row.Finish(JobFailed, Some(ExtractionFailed)); return true;
        case ExtractionCancelled => row.Finish(JobCancelled, None); return true;
        case ExtractionError => row.Finish(JobFailed, Some(ExtractionFailed)); return true;
      }
    }
    DocumentsThenEnd(uploads, |uploads|);
    ended := false;
  }

  /** The import of the finished agent's registry: validation first, then the version check. */
  method ImportPhase(store: RegistryStore, row: JobRow, snap: Snapshot, w: Registry, mode: ImportMode,
                     conns: set<string>, decisions: seq<Decision>)
    requires snap.env == Staging && row.errorCode == None
    modifies store, row
    ensures row.finished && row.trace == old(row.trace) + [Validating, row.status]
    ensures var candidate, before := ImportCandidate(snap.registry, w, mode), old(store.rows);
            if !Valid(candidate, conns) then
              row.status == JobFailed && row.errorCode == Some(ImportInvalid) && store.rows == before
            else if before.staging.version != snap.version then
              row.status == JobFailed && row.errorCode == Some(StaleVersion) && store.rows == before
            else
              && row.status == Imported && row.errorCode == None && row.decisions == Some(decisions)
              && row.progress == 100
              && row.stagingVersionAfter == Some(snap.version + 1)
              && store.rows == Written(before, Staging, candidate)
    ensures row.status != Imported ==> row.stagingVersionAfter == old(row.stagingVersionAfter) && row.progress == 80
    ensures row.started == old(row.started)
  {
    row.SetStatus(Validating, Some(80), None, None, None, false, false);
    var imported := RunEdit(snap.registry, Import(w, mode), conns);
    if imported.Err? {
      row.Finish(JobFailed, Some(ImportInvalid));
      return;
    }
    var saved := store.Save(Staging, imported.value, Some(snap.version));
    if saved.Err? {
      row.Finish(JobFailed, Some(StaleVersion));
      return;
    }
    row.SetStatus(Imported, Some(100), None, Some(decisions), Some(saved.value), false, true);
  }

  /** How a job ends whose agent ran against `start` and left `w` behind. */
  ghost function JobEnd(result: AgentResult, start: Row, w: Registry, mode: ImportMode, conns: set<string>,
                        during: Commits): (JobStatus, Option<ErrorCode>) {
    if AgentEnd(result).Some? then AgentEnd(result).value
    else if !Valid(ImportCandidate(start.payload, w, mode), conns) then (JobFailed, Some(ImportInvalid))
    else if Touches(during, Staging) then (JobFailed, Some(StaleVersion))
    else (Imported, None)
  }

  /** The rows after such a job, given that other writers made of them `others`. */
  function RowsAfter(status: JobStatus, others: Rows, start: Row, w: Registry, mode: ImportMode): Rows {
    if status == Imported then Written(others, Staging, ImportCandidate(start.payload, w, mode)) else others
  }

  /** The registry the agent starts from. */
  function AgentBase(mode: ImportMode, staging: Registry): Registry {
    if mode.Replace? then EmptyRegistry() else staging
  }

  /**
   Exactly when a job whose agent finished ends in the validation error: never in replace mode; in
   merge mode iff what the merge brings back does not agree with what the agent left.
   */
  ghost predicate ImportRefused(mode: ImportMode, staging: Registry, w: Registry, conns: set<string>) {
    mode.Merge? && !(MergeAgrees(staging, w) && ConnectionsAgree(staging, w, conns))
  }

  lemma RefusedIff(mode: ImportMode, staging: Registry, w: Registry, conns: set<string>, calls: seq<ToolCall>)
    requires (mode.Replace? || WellFormed(staging)) && w == RunCalls(AgentBase(mode, staging), calls, conns)
    ensures Valid(ImportCandidate(staging, w, mode), conns) <==> !ImportRefused(mode, staging, w, conns)
  {
    if mode.Replace? {
      ReplaceJobAlwaysImports(staging, calls, conns);
    } else {
      MergeJobImportsIff(staging, calls, conns);
    }
  }

  /** The columns and rows after a job that read staging from `before` and whose agent left `w`. */
  ghost predicate JobOutcome(run: AgentRun, before: Rows, w: Registry, mode: ImportMode, conns: set<string>,
                             during: Commits, job: JobColumns, after: Rows) {
    var start := before.staging;
    && (job.status, job.errorCode) == JobEnd(run.result, start, w, mode, conns, during)
    && after == RowsAfter(job.status, AfterOthers(before, during), start, w, mode)
    && job.versionAfter == (if job.status == Imported then Some(start.version + 1) else None)
    && (job.status == Imported ==> job.decisions == Some(run.decisions))
    && AgentMeans(run.result, job.status, job.errorCode)
    && job.progress == (if job.status == Imported then 100 else if run.result.Finished? then 80 else 40)
  }

  /** Which jobs end in the validation error, whatever staging holds in replace mode and if it is well-formed in merge mode. */
  ghost predicate InvalidIffRefused(run: AgentRun, staging: Registry, w: Registry, mode: ImportMode,
                                    conns: set<string>, errorCode: Option<ErrorCode>) {
    mode.Replace? || WellFormed(staging) ==>
      (errorCode == Some(ImportInvalid) <==> run.result.Finished? && ImportRefused(mode, staging, w, conns))
  }

  lemma InvalidIff(run: AgentRun, before: Rows, w: Registry, mode: ImportMode, conns: set<string>,
                   during: Commits, llm: nat -> Completion, maxSteps: int, job: JobColumns, after: Rows)
    requires Ended(run, AgentBase(mode, before.staging.payload), w, conns, llm, maxSteps)
    requires JobOutcome(run, before, w, mode, conns, during, job, after)
    ensures InvalidIffRefused(run, before.staging.payload, w, mode, conns, job.errorCode)
  {
    if mode.Replace? || WellFormed(before.staging.payload) {
      RefusedIff(mode, before.staging.payload, w, conns, run.dispatched);
    }
  }

  /** The agent at work on a registry of its own. */
  method RunJobAgent(mode: ImportMode, staging: Registry, llm: nat -> Completion, cancelled: nat -> bool,
                     conns: set<string>, maxSteps: int)
    returns (result: AgentResult, decisions: seq<Decision>, w: Registry, ghost run: AgentRun)
    ensures Ended(run, AgentBase(mode, staging), w, conns, llm, maxSteps)
    ensures run.result == result && run.decisions == decisions
    ensures CancelHonoured(run, cancelled)
  {
    var wr := new WorkingRegistry(AgentBase(mode, staging));
    result, decisions, run := RunAgent(wr, llm, cancelled, conns, maxSteps);
    w := wr.Snapshot();
  }

  /** Ends the job with what the agent made of it, or imports the registry it left. */
  method EndOrImport(store: RegistryStore, row: JobRow, snap: Snapshot, result: AgentResult, w: Registry,
                     mode: ImportMode, conns: set<string>, decisions: seq<Decision>,
                     ghost run: AgentRun, ghost before: Rows, ghost during: Commits)
    requires snap == TakeSnapshot(before, Staging) && store.rows == AfterOthers(before, during)
    requires run.result == result && run.decisions == decisions
    requires row.errorCode == None && row.stagingVersionAfter == None && row.progress == 40
    modifies store, row
    ensures row.finished && IsTerminal(row.status) && row.started == old(row.started)
    ensures row.trace == old(row.trace) + [row.status] || row.trace == old(row.trace) + [Validating, row.status]
    ensures JobOutcome(run, before, w, mode, conns, during, row.Columns(), store.rows)
  {
    VersionTellsWrites(before, during, Staging);
    var end := AgentEnd(result);
    if end.Some? {
      row.Finish(end.value.0, end.value.1);
    } else {
      ImportPhase(store, row, snap, w, mode, conns, decisions);
    }
  }

  /** Everything after extraction. Other writers commit `during` between the staging read and the import. */
  method AgentAndImport(store: RegistryStore, row: JobRow, mode: ImportMode,
                        llm: nat -> Completion, cancelled: nat -> bool, conns: set<string>, maxSteps: int,
                        during: Commits)
    returns (ghost run: AgentRun, ghost w: Registry)
    requires row.trace == [Queued, Extracting] && row.errorCode == None && row.stagingVersionAfter == None
    modifies store, row
    ensures row.finished && MovedForward(row.trace, row.status) && row.started == old(row.started)
    ensures Ended(run, AgentBase(mode, old(store.rows).staging.payload), w, conns, llm, maxSteps)
    ensures CancelHonoured(run, cancelled)
    ensures JobOutcome(run, old(store.rows), w, mode, conns, during, row.Columns(), store.rows)
    ensures InvalidIffRefused(run, old(store.rows).staging.payload, w, mode, conns, row.errorCode)
  {
    row.SetStatus(AgentRunning, Some(40), None, None, None, false, false);
    var snap := store.Load(Staging);
    ghost var before := store.rows;
    var result, decisions, working;
    result, decisions, working, run := RunJobAgent(mode, snap.registry, llm, cancelled, conns, maxSteps);
    w := working;
    store.Others(during);
    EndOrImport(store, row, snap, result, working, mode, conns, decisions, run, before, during);
    AgentTraces(row.trace, row.status);
    InvalidIff(run, before, w, mode, conns, during, llm, maxSteps, row.Columns(), store.rows);
  }

  /** A job whose agent finished does to the rows what the interleaved program of History does. */
  lemma JobCarriesProgram(start: Rows, mode: ImportMode, conns: set<string>, dispatched: seq<ToolCall>,
                          chat: Option<nat>, w: Registry, during: Commits, result: AgentResult)
    requires result.Finished?
    requires w == RunCalls(AgentBase(mode, start.staging.payload), dispatched, conns)
    ensures var status := JobEnd(result, start.staging, w, mode, conns, during).0;
            Carries(JobProgram(mode, conns, dispatched, chat), [TakeSnapshot(start, Staging)], AfterOthers(start, during),
                    status == Imported, RowsAfter(status, AfterOthers(start, during), start.staging, w, mode))
  {
    VersionTellsWrites(start, during, Staging);
    CommitOne(AfterOthers(start, during),
              SaveRequest(Staging, ImportCandidate(start.staging.payload, w, mode), start.staging.version));
  }

  /**
   A queued job moves strictly forward to a terminal status. Other writers commit `early` before
   the job reads staging and `during` between that read and its own commit. The job changes
   staging iff it ends imported: every upload extracted, the agent finished, the import valid, and
   nobody else wrote staging in between.
   */
  method RunOneJob(store: RegistryStore, row: JobRow, mode: ImportMode, uploads: seq<Extraction>,
                   llm: nat -> Completion, cancelled: nat -> bool, conns: set<string>, maxSteps: int,
                   early: Commits, during: Commits)
    returns (ghost run: Option<AgentRun>, ghost w: Registry)
    requires row.status == Queued && row.trace == [Queued]
    requires row.errorCode == None && row.stagingVersionAfter == None
    modifies store, row
    ensures row.started && row.finished && MovedForward(row.trace, row.status)
    ensures run.None? ==> row.progress == 10
    ensures run.Some? <==> forall i | 0 <= i < |uploads| :: uploads[i].Document?
    ensures run.None? ==>
      && ExtractionEnd(uploads) == Some((row.status, row.errorCode))
      && ExtractionMeans(uploads, row.status, row.errorCode)
      && store.rows == AfterOthers(old(store.rows), early) && row.stagingVersionAfter == None
    ensures run.Some? ==>
      var before := AfterOthers(old(store.rows), early);
      var staging := before.staging.payload;
      && Ended(run.value, AgentBase(mode, staging), w, conns, llm, maxSteps)
      && CancelHonoured(run.value, cancelled)
      && JobOutcome(run.value, before, w, mode, conns, during, row.Columns(), store.rows)
      && InvalidIffRefused(run.value, staging, w, mode, conns, row.errorCode)
  {
    row.SetStatus(Extracting, Some(10), None, None, None, true, false);
    store.Others(early);
    var ended := Extract(row, uploads);
    ExtractionEnds(uploads);
    if ended {
      run, w := None, EmptyRegistry();
    } else {
      ghost var agent;
      agent, w := AgentAndImport(store, row, mode, llm, cancelled, conns, maxSteps, during);
      run := Some(agent);
    }
  }
}
