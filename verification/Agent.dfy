/** The bounded agent loop driven by an arbitrary language model (onto_platform/ingestion/agent.py). */
module Agent {
  import opened Wrappers
  import opened Ontology
  import opened Tools

  datatype LlmError = CancelledInside | TimedOut | ProviderError

  /** What one completion yields; `Raises` covers everything the awaited call can throw. */
  datatype Completion = Reply(content: string, calls: seq<ToolCall>) | Raises(error: LlmError)

  datatype Message =
    | SystemMessage
    | UserMessage
    | AssistantMessage(content: string, calls: seq<ToolCall>)
    | ToolMessage(callId: string, outcome: Outcome)

  /** What the report keeps of the arguments: how many entries a `registry` argument has of each kind. */
  datatype Summary = Summary(entityCounts: Option<map<Kind, nat>>)

  datatype Decision = Decision(tool: ToolName, summary: Summary, outcome: Outcome, reason: string)

  datatype AgentResult =
    | Finished(finalMessage: string, steps: nat)
    | StepCapExceeded
    | Cancelled
    | ClientRaised(error: LlmError)
    | SummaryRaised

  // ----- The summary of a call's arguments -----

  /** The arguments are an object, and everything counted in it has a length. */
  predicate Summarizable(args: Args) {
    args.Args? && (args.entries.Some? ==> forall kind | kind in args.entries.value :: args.entries.value[kind].Some?)
  }

  predicate AllSummarizable(calls: seq<ToolCall>) {
    forall i | 0 <= i < |calls| :: Summarizable(calls[i].args)
  }

  function SummaryOf(args: Args): Summary
    requires Summarizable(args)
  {
    Summary(match args.entries
            case None => None
            case Some(m) => Some(map kind | kind in KINDS :: if kind in m then m[kind].value else 0))
  }

  lemma EveryKind(kind: Kind)
    ensures exists i :: 0 <= i < |KINDS| && KINDS[i] == kind
  {
    assert kind == KINDS[0] || kind == KINDS[1] || kind == KINDS[2] || kind == KINDS[3] || kind == KINDS[4];
  }

  /** Counts the five entries of a `registry` argument; `None` stands for the exception. */
  method SummarizeArgs(args: Args) returns (r: Option<Summary>)
    ensures r.Some? <==> Summarizable(args)
    ensures r.Some? ==> r.value == SummaryOf(args)
  {
    if args.NotAnObject? {
      return None;
    }
    if args.entries.None? {
      return Some(Summary(None));
    }
    var entries, counts := args.entries.value, map[];
    for i := 0 to |KINDS|
      invariant counts.Keys == set j | 0 <= j < i :: KINDS[j]
      invariant forall kind | kind in counts && kind in entries :: entries[kind] == Some(counts[kind])
      invariant forall kind | kind in counts && kind !in entries :: counts[kind] == 0
    {
      var kind := KINDS[i];
      if kind in entries && entries[kind].None? {
        return None;
      }
      counts := counts[kind := if kind in entries then entries[kind].value else 0];
    }
    forall kind: Kind ensures kind in KINDS && kind in counts {
      EveryKind(kind);
    }
    assert counts == SummaryOf(args).entityCounts.value;
    r := Some(Summary(Some(counts)));
  }

  // ----- The record of a run -----

  /** Completion k asks for tool calls, all of which can be recorded. */
  ghost predicate Busy(llm: nat -> Completion, k: nat) {
    llm(k).Reply? && llm(k).calls != [] && AllSummarizable(llm(k).calls)
  }

  ghost predicate BusyUntil(llm: nat -> Completion, n: nat) {
    forall k: nat | k < n :: Busy(llm, k)
  }

  /** All calls of the first `n` completions, in order. */
  ghost function CallsOf(llm: nat -> Completion, n: nat): seq<ToolCall> {
    if n == 0 then [] else CallsOf(llm, n - 1) + (if llm(n - 1).Reply? then llm(n - 1).calls else [])
  }

  /** The record of a sequence of calls: one decision for each, with the outcome the call had. */
  ghost function DecisionsOf(reg: Registry, calls: seq<ToolCall>, conns: set<string>): seq<Decision>
    requires AllSummarizable(calls)
  {
    if calls == [] then [] else
      var n := |calls| - 1;
      DecisionsOf(reg, calls[..n], conns) +
      [Decision(calls[n].name, SummaryOf(calls[n].args), OutcomeAt(reg, calls, n, conns), calls[n].reason)]
  }

  /** The answers to a sequence of calls: one tool message for each, with the outcome the call had. */
  ghost function AnswersOf(reg: Registry, calls: seq<ToolCall>, conns: set<string>): seq<Message> {
    if calls == [] then [] else
      var n := |calls| - 1;
      AnswersOf(reg, calls[..n], conns) + [ToolMessage(calls[n].id, OutcomeAt(reg, calls, n, conns))]
  }

  /** Decisions and answers match the calls one to one, in order. */
  lemma {:induction false} DecisionAt(reg: Registry, calls: seq<ToolCall>, i: nat, conns: set<string>)
    requires AllSummarizable(calls) && i < |calls|
    ensures |DecisionsOf(reg, calls, conns)| == |AnswersOf(reg, calls, conns)| == |calls|
    ensures DecisionsOf(reg, calls, conns)[i] ==
            Decision(calls[i].name, SummaryOf(calls[i].args), OutcomeAt(reg, calls, i, conns), calls[i].reason)
    ensures AnswersOf(reg, calls, conns)[i] == ToolMessage(calls[i].id, OutcomeAt(reg, calls, i, conns))
  {
    var n := |calls| - 1;
    if n > 0 {
      DecisionAt(reg, calls[..n], if i < n then i else 0, conns);
      assert i < n ==> calls[..n][..i] == calls[..i];
    }
  }

  /**
   The messages after `n` completions: the two prompts, then each reply followed by the answers to
   its calls. The last reply has those that are left of `answers`.
   */
  ghost function Conversation(llm: nat -> Completion, n: nat, answers: seq<Message>): seq<Message> {
    if n == 0 then
      [SystemMessage, UserMessage]
    else
      var earlier := if |CallsOf(llm, n - 1)| <= |answers| then |CallsOf(llm, n - 1)| else |answers|;
      Conversation(llm, n - 1, answers[..earlier]) +
      (if llm(n - 1).Reply? then [AssistantMessage(llm(n - 1).content, llm(n - 1).calls)] else []) +
      answers[earlier..]
  }

  /** A run, however it ends: `dispatched` lists the calls that ran, in order. */
  datatype AgentRun = AgentRun(
    result: AgentResult, completions: nat, dispatched: seq<ToolCall>, decisions: seq<Decision>, messages: seq<Message>)

  /** How the number of completions and the model's answers determine the result. */
  ghost predicate ResultIs(result: AgentResult, llm: nat -> Completion, completions: nat, maxSteps: int) {
    && (completions == 0 || completions <= maxSteps)
    && match result
       case Finished(text, steps) =>
         && steps == completions > 0 && BusyUntil(llm, completions - 1)
         && llm(completions - 1) == Reply(text, [])
       case StepCapExceeded =>
         BusyUntil(llm, completions) && completions == (if maxSteps < 0 then 0 else maxSteps)
       case ClientRaised(error) =>
         completions > 0 && BusyUntil(llm, completions - 1) && llm(completions - 1) == Raises(error)
       case SummaryRaised =>
         && completions > 0 && BusyUntil(llm, completions - 1)
         && llm(completions - 1).Reply? && !AllSummarizable(llm(completions - 1).calls)
       case Cancelled =>
         completions > 0 ==> BusyUntil(llm, completions - 1) && llm(completions - 1).Reply?
  }

  /** The calls that were recorded: all that ran, but for one whose arguments could not be summarized. */
  ghost function Recorded(run: AgentRun): seq<ToolCall> {
    if run.result.SummaryRaised? && run.dispatched != [] then run.dispatched[..|run.dispatched| - 1] else run.dispatched
  }

  /** The calls that ran are the first of those asked for; only a call that cannot be summarized ends the loop. */
  ghost predicate CallsRan(run: AgentRun, llm: nat -> Completion) {
    && run.dispatched <= CallsOf(llm, run.completions)
    && (run.completions > 0 ==> CallsOf(llm, run.completions - 1) <= Recorded(run))
    && AllSummarizable(Recorded(run))
    && match run.result
       case Cancelled => true
       case SummaryRaised => run.dispatched != [] && !Summarizable(run.dispatched[|run.dispatched| - 1].args)
       case _ => run.dispatched == CallsOf(llm, run.completions)
  }

  /** What a run amounts to that started from `base` and left `reg` behind. */
  ghost predicate Ended(run: AgentRun, base: Registry, reg: Registry, conns: set<string>,
                        llm: nat -> Completion, maxSteps: int) {
    && ResultIs(run.result, llm, run.completions, maxSteps)
    && CallsRan(run, llm)
    && reg == RunCalls(base, run.dispatched, conns)
    && run.decisions == DecisionsOf(base, Recorded(run), conns)
    && run.messages == Conversation(llm, run.completions, AnswersOf(base, Recorded(run), conns))
  }

  /** The first `n` looks at the token found it uncancelled, and the next one, if the loop stopped there, cancelled. */
  ghost predicate Polled(cancelled: nat -> bool, n: nat, stopped: bool) {
    (forall q: nat | q < n :: !cancelled(q)) && (stopped ==> cancelled(n))
  }

  /**
   The token is looked at before each completion and before each call; the run is cancelled exactly
   when it is found cancelled.
   */
  ghost predicate CancelHonoured(run: AgentRun, cancelled: nat -> bool) {
    Polled(cancelled, run.completions + |run.dispatched|, run.result.Cancelled?)
  }

  lemma Looked(cancelled: nat -> bool, n: nat)
    requires Polled(cancelled, n, false)
    ensures Polled(cancelled, n, cancelled(n)) && (!cancelled(n) ==> Polled(cancelled, n + 1, false))
  {}

  lemma Honoured(run: AgentRun, cancelled: nat -> bool, n: nat)
    requires Polled(cancelled, n, run.result.Cancelled?) && n == run.completions + |run.dispatched|
    ensures CancelHonoured(run, cancelled)
  {}

  // ----- The loop -----

  /** The working registry, the decisions and the answers after `calls` ran and were recorded. */
  ghost predicate Record(reg: Registry, base: Registry, conns: set<string>, calls: seq<ToolCall>,
                         decisions: seq<Decision>, answers: seq<Message>) {
    && AllSummarizable(calls)
    && reg == RunCalls(base, calls, conns)
    && decisions == DecisionsOf(base, calls, conns)
    && answers == AnswersOf(base, calls, conns)
  }

  /**
   Dispatches one call and records it: a decision and the tool's answer. The summary of the arguments
   is made after the call, also where the call failed, and what it raises leaves the loop.
   */
  method DispatchOne(wr: WorkingRegistry, call: ToolCall, conns: set<string>, ghost base: Registry,
                     ghost done: seq<ToolCall>, decisions: seq<Decision>, ghost answers: seq<Message>)
    returns (recorded: bool, decisions': seq<Decision>, answer: Message)
    requires Record(wr.registry, base, conns, done, decisions, answers)
    modifies wr
    ensures recorded <==> Summarizable(call.args)
    ensures recorded ==> Record(wr.registry, base, conns, done + [call], decisions', answers + [answer])
    ensures !recorded ==> decisions' == decisions && wr.registry == RunCalls(base, done + [call], conns)
  {
    RunOneMore(base, done, call, conns);
    var outcome, report := DispatchAgentCall(wr, call.name, call.args, conns);
    var summary := SummarizeArgs(call.args);
    recorded, decisions', answer := summary.Some?, decisions, ToolMessage(call.id, outcome);
    if recorded {
      decisions' := decisions + [Decision(call.name, summary.value, outcome, call.reason)];
      assert (done + [call])[..|done|] == done;
    }
  }

  datatype TurnEnd = AllAnswered | CancelledBefore | RaisedAt

  /** How a turn ends after answering `n` of its calls, and the calls that ran. */
  ghost predicate TurnEnds(end: TurnEnd, calls: seq<ToolCall>, n: nat, ran: seq<ToolCall>) {
    && n <= |calls| && AllSummarizable(calls[..n])
    && match end
       case AllAnswered => n == |calls| && ran == calls
       case CancelledBefore => n < |calls| && ran == calls[..n]
       case RaisedAt => n < |calls| && !Summarizable(calls[n].args) && ran == calls[..n + 1]
  }

  lemma AllOfBoth(a: seq<ToolCall>, b: seq<ToolCall>)
    requires AllSummarizable(a + b)
    ensures AllSummarizable(b)
  {
    assert forall i | 0 <= i < |b| :: b[i] == (a + b)[|a| + i];
  }

  lemma NextCall(done: seq<ToolCall>, calls: seq<ToolCall>, n: nat)
    requires n < |calls|
    ensures done + calls[..n + 1] == done + calls[..n] + [calls[n]]
  {}

  /** All tool calls of one reply, in order, unless the token is cancelled in between or a summary raises. */
  method RunTurn(wr: WorkingRegistry, calls: seq<ToolCall>, cancelled: nat -> bool, polls: nat, conns: set<string>,
                 ghost base: Registry, ghost done: seq<ToolCall>, decisions: seq<Decision>, ghost earlier: seq<Message>)
    returns (end: TurnEnd, n: nat, polls': nat, decisions': seq<Decision>, answers: seq<Message>, ghost ran: seq<ToolCall>)
    requires Record(wr.registry, base, conns, done, decisions, earlier) && Polled(cancelled, polls, false)
    modifies wr
    ensures TurnEnds(end, calls, n, ran)
    ensures wr.registry == RunCalls(base, done + ran, conns)
    ensures Record(RunCalls(base, done + calls[..n], conns), base, conns, done + calls[..n], decisions', earlier + answers)
    ensures Polled(cancelled, polls + |ran|, end.CancelledBefore?) && (end.AllAnswered? ==> polls' == polls + |ran|)
  {
    polls', decisions', answers := polls, decisions, [];
    n := 0;
    ghost var recorded, all := done, earlier;
    while n < |calls|
      invariant polls' == polls + n && Polled(cancelled, polls', false)
      invariant n <= |calls| && recorded == done + calls[..n] && all == earlier + answers
      invariant Record(wr.registry, base, conns, recorded, decisions', all)
    {
      Looked(cancelled, polls');
      polls' := polls' + 1;
      if cancelled(polls' - 1) {
        end, ran := CancelledBefore, calls[..n];
        AllOfBoth(done, calls[..n]);
        return;
      }
      NextCall(done, calls, n);
      var ok, answer;
      ok, decisions', answer := DispatchOne(wr, calls[n], conns, base, recorded, decisions', all);
      if !ok {
        end, ran := RaisedAt, calls[..n + 1];
        AllOfBoth(done, calls[..n]);
        return;
      }
      recorded, all := recorded + [calls[n]], all + [answer];
      answers := answers + [answer];
      n := n + 1;
    }
    AllOfBoth(done, calls[..n]);
    assert calls[..n] == calls;
    end, ran := AllAnswered, calls;
  }

  /** What holds after the first `n` completions, all of them answered call by call. */
  ghost predicate Progress(reg: Registry, base: Registry, conns: set<string>, llm: nat -> Completion, n: nat,
                           decisions: seq<Decision>, messages: seq<Message>, answers: seq<Message>) {
    && BusyUntil(llm, n)
    && Record(reg, base, conns, CallsOf(llm, n), decisions, answers)
    && messages == Conversation(llm, n, answers)
  }

  /** Everything so far, before step k: all answered, and the token found uncancelled each time. */
  ghost predicate OnTrack(reg: Registry, base: Registry, conns: set<string>, llm: nat -> Completion, k: nat,
                          cancelled: nat -> bool, polls: nat, decisions: seq<Decision>, messages: seq<Message>,
                          answers: seq<Message>) {
    && Progress(reg, base, conns, llm, k, decisions, messages, answers)
    && polls == k + |CallsOf(llm, k)| && Polled(cancelled, polls, false)
  }

  /** The run that a turn ends which was not answered completely. */
  ghost function StoppedRun(end: TurnEnd, llm: nat -> Completion, k: nat, ran: seq<ToolCall>,
                            decisions: seq<Decision>, messages: seq<Message>): AgentRun {
    AgentRun(if end.RaisedAt? then SummaryRaised else Cancelled, k + 1, CallsOf(llm, k) + ran, decisions, messages)
  }

  /** The conversation after a turn: what it was, the reply, and the answers so far. */
  lemma ConversationGrows(llm: nat -> Completion, k: nat, earlier: seq<Message>, answers: seq<Message>)
    requires llm(k).Reply? && |earlier| == |CallsOf(llm, k)|
    ensures Conversation(llm, k + 1, earlier + answers) ==
            Conversation(llm, k, earlier) + [AssistantMessage(llm(k).content, llm(k).calls)] + answers
  {
    assert (earlier + answers)[..|earlier|] == earlier && (earlier + answers)[|earlier|..] == answers;
  }

  lemma NextCalls(llm: nat -> Completion, k: nat)
    requires llm(k).Reply?
    ensures CallsOf(llm, k + 1) == CallsOf(llm, k) + llm(k).calls
  {}

  lemma {:induction false} OneAnswerEach(reg: Registry, calls: seq<ToolCall>, conns: set<string>)
    ensures |AnswersOf(reg, calls, conns)| == |calls|
  {
    if calls != [] {
      OneAnswerEach(reg, calls[..|calls| - 1], conns);
    }
  }

  lemma StoppedCalls(end: TurnEnd, n: nat, ran: seq<ToolCall>, llm: nat -> Completion, k: nat, run: AgentRun)
    requires llm(k).Reply? && !end.AllAnswered? && TurnEnds(end, llm(k).calls, n, ran)
    requires AllSummarizable(CallsOf(llm, k) + llm(k).calls[..n])
    requires run == StoppedRun(end, llm, k, ran, run.decisions, run.messages)
    ensures Recorded(run) == CallsOf(llm, k) + llm(k).calls[..n]
    ensures CallsRan(run, llm)
  {
    var calls := llm(k).calls;
    assert CallsOf(llm, k + 1) == CallsOf(llm, k) + calls;
    assert ran <= calls;
    assert Recorded(run) == CallsOf(llm, k) + calls[..n];
    if end.RaisedAt? {
      assert run.dispatched[|run.dispatched| - 1] == calls[n];
    }
  }

  /** A turn cut short ends the run; the calls of the earlier turns all have their answers. */
  lemma TurnStops(end: TurnEnd, n: nat, ran: seq<ToolCall>, base: Registry, conns: set<string>, llm: nat -> Completion,
                  k: nat, maxSteps: int, decisions: seq<Decision>, earlier: seq<Message>, answers: seq<Message>)
    requires BusyUntil(llm, k) && llm(k).Reply? && k < maxSteps && !end.AllAnswered?
    requires TurnEnds(end, llm(k).calls, n, ran) && |earlier| == |CallsOf(llm, k)|
    requires var recorded := CallsOf(llm, k) + llm(k).calls[..n];
             Record(RunCalls(base, recorded, conns), base, conns, recorded, decisions, earlier + answers)
    ensures Ended(StoppedRun(end, llm, k, ran, decisions, Conversation(llm, k + 1, earlier + answers)),
                  base, RunCalls(base, CallsOf(llm, k) + ran, conns), conns, llm, maxSteps)
  {
    var run := StoppedRun(end, llm, k, ran, decisions, Conversation(llm, k + 1, earlier + answers));
    StoppedCalls(end, n, ran, llm, k, run);
    assert run.result.Cancelled? || run.result.SummaryRaised?;
    assert ResultIs(run.result, llm, k + 1, maxSteps);
  }

  lemma StopHonoured(end: TurnEnd, llm: nat -> Completion, k: nat, ran: seq<ToolCall>, decisions: seq<Decision>,
                     messages: seq<Message>, cancelled: nat -> bool)
    requires Polled(cancelled, k + 1 + |CallsOf(llm, k)| + |ran|, end.CancelledBefore?) && !end.AllAnswered?
    ensures CancelHonoured(StoppedRun(end, llm, k, ran, decisions, messages), cancelled)
  {}

  /** A step all of whose calls were answered. */
  lemma StepCompletes(base: Registry, reg: Registry, conns: set<string>, llm: nat -> Completion, k: nat,
                      cancelled: nat -> bool, polls: nat, decisions: seq<Decision>, earlier: seq<Message>,
                      answers: seq<Message>)
    requires BusyUntil(llm, k) && llm(k).Reply? && llm(k).calls != [] && AllSummarizable(llm(k).calls)
    requires Record(reg, base, conns, CallsOf(llm, k) + llm(k).calls, decisions, earlier + answers)
    requires polls == k + 1 + |CallsOf(llm, k)| + |llm(k).calls| && Polled(cancelled, polls, false)
    ensures OnTrack(reg, base, conns, llm, k + 1, cancelled, polls, decisions,
                    Conversation(llm, k + 1, earlier + answers), earlier + answers)
  {
    NextCalls(llm, k);
  }

  /** One step with tool calls: the assistant message, then the calls and their answers. */
  method RunStep(wr: WorkingRegistry, llm: nat -> Completion, k: nat, cancelled: nat -> bool, polls: nat,
                 conns: set<string>, decisions: seq<Decision>, messages: seq<Message>, ghost maxSteps: int,
                 ghost base: Registry, ghost earlier: seq<Message>)
    returns (end: TurnEnd, polls': nat, decisions': seq<Decision>, messages': seq<Message>,
             ghost earlier': seq<Message>, ghost ran: seq<ToolCall>)
    requires OnTrack(wr.registry, base, conns, llm, k, cancelled, polls, decisions, messages, earlier)
    requires llm(k).Reply? && llm(k).calls != [] && k < maxSteps && !cancelled(polls)
    modifies wr
    ensures end.AllAnswered? ==>
      OnTrack(wr.registry, base, conns, llm, k + 1, cancelled, polls', decisions', messages', earlier')
    ensures !end.AllAnswered? ==>
      && Ended(StoppedRun(end, llm, k, ran, decisions', messages'), base, wr.registry, conns, llm, maxSteps)
      && Polled(cancelled, polls + 1 + |ran|, end.CancelledBefore?)
  {
    var calls := llm(k).calls;
    var n, answers;
    assert |earlier| == |CallsOf(llm, k)| by {
      OneAnswerEach(base, CallsOf(llm, k), conns);
    }
    Looked(cancelled, polls);
    end, n, polls', decisions', answers, ran :=
      RunTurn(wr, calls, cancelled, polls + 1, conns, base, CallsOf(llm, k), decisions, earlier);
    earlier' := earlier + answers;
    messages' := messages + [AssistantMessage(llm(k).content, calls)] + answers;
    assert messages' == Conversation(llm, k + 1, earlier') by {
      OneAnswerEach(base, CallsOf(llm, k), conns);
      ConversationGrows(llm, k, earlier, answers);
    }
    if end.AllAnswered? {
      assert calls[..n] == calls && ran == calls;
      StepCompletes(base, wr.registry, conns, llm, k, cancelled, polls', decisions', earlier, answers);
    } else {
      TurnStops(end, n, ran, base, conns, llm, k, maxSteps, decisions', earlier, answers);
    }
  }

  /** A completion without tool calls adds no call. */
  lemma NoMoreCalls(llm: nat -> Completion, n: nat)
    requires llm(n).Raises? || llm(n).calls == []
    ensures CallsOf(llm, n + 1) == CallsOf(llm, n)
  {
    assert CallsOf(llm, n) + [] == CallsOf(llm, n);
  }

  /** A completion that raises adds no message. */
  lemma NoMoreMessages(llm: nat -> Completion, n: nat, answers: seq<Message>)
    requires llm(n).Raises? && |answers| == |CallsOf(llm, n)|
    ensures Conversation(llm, n + 1, answers) == Conversation(llm, n, answers)
  {
    var before := Conversation(llm, n, answers);
    assert answers[..|answers|] == answers;
    assert before + [] + [] == before;
  }

  lemma AllCallsRan(run: AgentRun, llm: nat -> Completion)
    requires !run.result.SummaryRaised? && run.dispatched == CallsOf(llm, run.completions) && AllSummarizable(run.dispatched)
    ensures CallsRan(run, llm) && Recorded(run) == run.dispatched
  {}

  lemma EndsWithAllAnswered(run: AgentRun, base: Registry, reg: Registry, conns: set<string>, llm: nat -> Completion,
                            maxSteps: int, answers: seq<Message>)
    requires ResultIs(run.result, llm, run.completions, maxSteps) && !run.result.SummaryRaised?
    requires run.dispatched == CallsOf(llm, run.completions)
    requires Record(reg, base, conns, run.dispatched, run.decisions, answers)
    requires run.messages == Conversation(llm, run.completions, answers)
    ensures Ended(run, base, reg, conns, llm, maxSteps)
  {
    AllCallsRan(run, llm);
  }

  lemma EndBeforeStep(result: AgentResult, base: Registry, reg: Registry, conns: set<string>, llm: nat -> Completion,
                      n: nat, maxSteps: int, decisions: seq<Decision>, messages: seq<Message>, answers: seq<Message>)
    requires Progress(reg, base, conns, llm, n, decisions, messages, answers) && (n == 0 || n <= maxSteps)
    requires result == Cancelled || (result == StepCapExceeded && n >= maxSteps)
    ensures Ended(AgentRun(result, n, CallsOf(llm, n), decisions, messages), base, reg, conns, llm, maxSteps)
  {
    assert ResultIs(result, llm, n, maxSteps) by {
      assert n > 0 ==> Busy(llm, n - 1);
    }
    EndsWithAllAnswered(AgentRun(result, n, CallsOf(llm, n), decisions, messages), base, reg, conns, llm, maxSteps, answers);
  }

  lemma EndRaised(base: Registry, reg: Registry, conns: set<string>, llm: nat -> Completion,
                  n: nat, maxSteps: int, decisions: seq<Decision>, messages: seq<Message>, answers: seq<Message>)
    requires Progress(reg, base, conns, llm, n, decisions, messages, answers) && n < maxSteps && llm(n).Raises?
    ensures Ended(AgentRun(ClientRaised(llm(n).error), n + 1, CallsOf(llm, n), decisions, messages),
                  base, reg, conns, llm, maxSteps)
  {
    OneAnswerEach(base, CallsOf(llm, n), conns);
    NoMoreCalls(llm, n);
    NoMoreMessages(llm, n, answers);
    EndsWithAllAnswered(AgentRun(ClientRaised(llm(n).error), n + 1, CallsOf(llm, n), decisions, messages),
                        base, reg, conns, llm, maxSteps, answers);
  }

  lemma EndQuietly(base: Registry, reg: Registry, conns: set<string>, llm: nat -> Completion,
                   n: nat, maxSteps: int, decisions: seq<Decision>, messages: seq<Message>, answers: seq<Message>)
    requires Progress(reg, base, conns, llm, n, decisions, messages, answers)
    requires n < maxSteps && llm(n).Reply? && llm(n).calls == []
    ensures Ended(AgentRun(Finished(llm(n).content, n + 1), n + 1, CallsOf(llm, n), decisions,
                           messages + [AssistantMessage(llm(n).content, [])]),
                  base, reg, conns, llm, maxSteps)
  {
    var messages' := messages + [AssistantMessage(llm(n).content, [])];
    OneAnswerEach(base, CallsOf(llm, n), conns);
    NoMoreCalls(llm, n);
    ConversationGrows(llm, n, answers, []);
    assert answers + [] == answers && messages' + [] == messages';
    EndsWithAllAnswered(AgentRun(Finished(llm(n).content, n + 1), n + 1, CallsOf(llm, n), decisions, messages'),
                        base, reg, conns, llm, maxSteps, answers);
  }

  /** The part of a step before any tool call: a look at the token, a completion, and the end if it asks for none. */
  method Complete(reg: Registry, llm: nat -> Completion, step: nat, cancelled: nat -> bool, polls: nat,
                  decisions: seq<Decision>, messages: seq<Message>, ghost base: Registry, conns: set<string>,
                  ghost maxSteps: int, ghost answers: seq<Message>)
    returns (result: Option<AgentResult>, ghost run: AgentRun)
    requires OnTrack(reg, base, conns, llm, step, cancelled, polls, decisions, messages, answers) && step < maxSteps
    ensures result.None? ==> llm(step).Reply? && llm(step).calls != [] && !cancelled(polls)
    ensures result.Some? ==>
      && Ended(run, base, reg, conns, llm, maxSteps) && CancelHonoured(run, cancelled)
      && run.result == result.value && run.decisions == decisions
  {
    run := AgentRun(Cancelled, step, CallsOf(llm, step), decisions, messages);
    Looked(cancelled, polls);
    if cancelled(polls) {
      EndBeforeStep(Cancelled, base, reg, conns, llm, step, maxSteps, decisions, messages, answers);
      Honoured(run, cancelled, polls);
      return Some(Cancelled), run;
    }
    var resp := llm(step);
    if resp.Raises? {
      EndRaised(base, reg, conns, llm, step, maxSteps, decisions, messages, answers);
      run := AgentRun(ClientRaised(resp.error), step + 1, CallsOf(llm, step), decisions, messages);
      Honoured(run, cancelled, polls + 1);
      return Some(ClientRaised(resp.error)), run;
    }
    if resp.calls == [] {
      EndQuietly(base, reg, conns, llm, step, maxSteps, decisions, messages, answers);
      run := AgentRun(Finished(resp.content, step + 1), step + 1, CallsOf(llm, step), decisions,
                      messages + [AssistantMessage(resp.content, [])]);
      Honoured(run, cancelled, polls + 1);
      return Some(Finished(resp.content, step + 1)), run;
    }
    result := None;
  }

  lemma Begin(base: Registry, conns: set<string>, llm: nat -> Completion, cancelled: nat -> bool)
    ensures OnTrack(base, base, conns, llm, 0, cancelled, 0, [], [SystemMessage, UserMessage], [])
  {}

  /** The cap is reached. */
  lemma EndAtCap(base: Registry, reg: Registry, conns: set<string>, llm: nat -> Completion, n: nat, maxSteps: int,
                 cancelled: nat -> bool, polls: nat, decisions: seq<Decision>, messages: seq<Message>, answers: seq<Message>)
    requires OnTrack(reg, base, conns, llm, n, cancelled, polls, decisions, messages, answers)
    requires (n == 0 || n <= maxSteps) && n >= maxSteps
    ensures var run := AgentRun(StepCapExceeded, n, CallsOf(llm, n), decisions, messages);
            Ended(run, base, reg, conns, llm, maxSteps) && CancelHonoured(run, cancelled)
  {
    EndBeforeStep(StepCapExceeded, base, reg, conns, llm, n, maxSteps, decisions, messages, answers);
    Honoured(AgentRun(StepCapExceeded, n, CallsOf(llm, n), decisions, messages), cancelled, polls);
  }

  method RunAgent(wr: WorkingRegistry, llm: nat -> Completion, cancelled: nat -> bool, conns: set<string>, maxSteps: int)
    returns (result: AgentResult, decisions: seq<Decision>, ghost run: AgentRun)
    modifies wr
    ensures Ended(run, old(wr.registry), wr.registry, conns, llm, maxSteps)
    ensures run.result == result && run.decisions == decisions
    ensures CancelHonoured(run, cancelled)
  {
    var messages := [SystemMessage, UserMessage];
    decisions := [];
    var step, polls: nat := 0, 0;
    ghost var base, answers := wr.registry, [];
    Begin(base, conns, llm, cancelled);
    while step < maxSteps
      invariant step == 0 || step <= maxSteps
      invariant OnTrack(wr.registry, base, conns, llm, step, cancelled, polls, decisions, messages, answers)
      decreases maxSteps - step
    {
      var ended;
      ended, run :=
        Complete(wr.registry, llm, step, cancelled, polls, decisions, messages, base, conns, maxSteps, answers);
      if ended.Some? {
        return ended.value, decisions, run;
      }
      var end;
      ghost var looks, ran := polls, [];
      end, polls, decisions, messages, answers, ran :=
        RunStep(wr, llm, step, cancelled, polls, conns, decisions, messages, maxSteps, base, answers);
      if !end.AllAnswered? {
        run := StoppedRun(end, llm, step, ran, decisions, messages);
        assert looks + 1 + |ran| == step + 1 + |CallsOf(llm, step)| + |ran|;
        StopHonoured(end, llm, step, ran, decisions, messages, cancelled);
        return if end.RaisedAt? then SummaryRaised else Cancelled, decisions, run;
      }
      step := step + 1;
    }
    EndAtCap(base, wr.registry, conns, llm, step, maxSteps, cancelled, polls, decisions, messages, answers);
    run := AgentRun(StepCapExceeded, step, CallsOf(llm, step), decisions, messages);
    result := StepCapExceeded;
  }

  // ----- How a run ends -----

  /** Completion k has no tool calls. */
  ghost predicate Quiet(llm: nat -> Completion, k: nat) {
    llm(k).Reply? && llm(k).calls == []
  }

  /** Completion k asks for a call whose arguments cannot be summarized. */
  ghost predicate Unrecordable(llm: nat -> Completion, k: nat) {
    llm(k).Reply? && !AllSummarizable(llm(k).calls)
  }

  /** Without cancellation and client errors, the model's answers alone decide how the run ends. */
  lemma AnswersDecideTheEnd(result: AgentResult, llm: nat -> Completion, completions: nat, maxSteps: int)
    requires ResultIs(result, llm, completions, maxSteps) && !result.Cancelled? && !result.ClientRaised?
    ensures result.Finished? <==> exists k: nat :: k < maxSteps && BusyUntil(llm, k) && Quiet(llm, k)
    ensures result.SummaryRaised? <==> exists k: nat :: k < maxSteps && BusyUntil(llm, k) && Unrecordable(llm, k)
    ensures result.StepCapExceeded? <==> BusyUntil(llm, if maxSteps < 0 then 0 else maxSteps)
  {
    var last: nat := if completions > 0 then completions - 1 else 0;
    forall k: nat | k < maxSteps && BusyUntil(llm, k) && !Busy(llm, k)
      ensures k == last && !result.StepCapExceeded?
    {
      assert (k < last ==> BusyUntil(llm, last)) && (last < k ==> Busy(llm, last));
    }
    assert result.Finished? ==> last < maxSteps && BusyUntil(llm, last) && Quiet(llm, last);
    assert result.SummaryRaised? ==> last < maxSteps && BusyUntil(llm, last) && Unrecordable(llm, last);
    assert forall k: nat :: Quiet(llm, k) || Unrecordable(llm, k) ==> !Busy(llm, k);
  }

  /**
   Such a run finishes or reaches the cap iff the arguments of every call that ran could be summarized.
   However a run ends, that is when each call has its decision; otherwise the last one has none.
   */
  lemma EndsWellIffSummarizable(run: AgentRun, base: Registry, reg: Registry, conns: set<string>,
                                llm: nat -> Completion, maxSteps: int)
    requires Ended(run, base, reg, conns, llm, maxSteps)
    ensures !run.result.Cancelled? && !run.result.ClientRaised? ==>
      (run.result.Finished? || run.result.StepCapExceeded? <==> AllSummarizable(run.dispatched))
    ensures |run.decisions| == if AllSummarizable(run.dispatched) then |run.dispatched| else |run.dispatched| - 1
  {
    if Recorded(run) != [] {
      DecisionAt(base, Recorded(run), 0, conns);
    }
  }
}
