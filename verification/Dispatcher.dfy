/** The dispatcher (dispatch/dispatcher.py and dispatch/store.py): runs a plan step by step,
    pauses a run into a single-use envelope when a step needs help, and resumes it from the
    envelope. Executors and the invocation resolver are arbitrary functions; resume tokens,
    random ids in the code, are drawn from a counter. */
module Dispatcher {
  import opened Common
  import Text

  datatype Output = NoOutput | TextOutput(text: string) | DictOutput(entries: map<string, string>)

  datatype Boundary = InProcess | OutOfProcess

  datatype Invocation = Invocation(tool: string, arguments: map<string, string>)

  datatype Step = Step(capability: string, resource: string, kind: string, boundary: Boundary, invocation: Option<Invocation>)

  datatype Evidence = Evidence(kind: string, status: string)

  datatype Status = Completed | Failed | AssistanceRequired | ApprovalRequired

  datatype StepResult = StepResult(
    stepId: string, resource: string, capability: string, executorKind: string, status: Status, output: Output,
    evidence: seq<Evidence>, error: Option<string>, escalationReason: Option<string>)

  datatype Request = Request(mission: string, step: Step, previous: Output, runId: string, stepId: string)

  /** An executor may remember what it was asked before: its answer depends on the request and on the
      outputs of the run's earlier steps, which determine every earlier request of the run. So may
      the resolver. */
  datatype Executor = Executor(
    kind: string, boundaryAware: bool, canHandle: Step -> bool, needsInvocation: Step -> bool, execute: (Request, seq<Output>) -> StepResult)

  datatype Config = Config(
    executors: seq<Executor>, resolve: (Step, string, Output, seq<Output>) -> Result<Invocation, string>, maxEscalations: int)

  datatype RouteStatus = Normal | Degraded | NoEligibleResource | NoExecutableResource

  datatype Route = Route(mission: string, status: RouteStatus, plan: seq<Step>)

  datatype Envelope = Envelope(
    token: nat, runId: string, route: Route, stepIndex: nat, results: seq<StepResult>, currentOutput: Output, escalationCount: int)

  datatype DispatchStatus = RunSucceeded | RunFailed | RunPaused

  datatype DispatchResult = DispatchResult(
    mission: string, status: DispatchStatus, results: seq<StepResult>, finalOutput: Output, token: Option<nat>, runId: Option<string>)

  /** An answer to a paused run. Its status is ASSISTANCE_COMPLETED when accepted and
      ASSISTANCE_REJECTED otherwise; the response model has no third value. */
  datatype Response = Response(accepted: bool, evidence: seq<Evidence>, answer: string)

  datatype Event =
    | RunStarted
    | StepStarted(index: nat, stepId: string, kind: string)
    | StepCompleted(index: nat, stepId: string, kind: string)
    | StepFailed(index: nat, stepId: string, kind: string, error: Option<string>)
    | StepEscalated(index: nat, stepId: string, kind: string, status: Status, reason: Option<string>)
    | RunEscalated(token: nat, stepIndex: nat, escalationCount: int)
    | RunCompleted(finalStatus: DispatchStatus, stepCount: nat)

  // ---------------------------------------------------------------- step ids

  function SafeChar(c: char): char {
    if 'A' <= c <= 'Z' || 'a' <= c <= 'z' || '0' <= c <= '9' || c == '_' || c == '-' then c else '-'
  }

  function StepId(index: nat, step: Step): string {
    var base := if step.capability == "" then "step" else step.capability;
    seq(|base|, i requires 0 <= i < |base| => SafeChar(base[i])) + ['-'] + Text.Decimal(index)
  }

  /** The id is the capability name, other characters than letters, digits, '_' and '-' replaced by a
      dash, followed by a dash and the plan position. */
  lemma StepIdReads(index: nat, step: Step)
    ensures var id, name := StepId(index, step), if step.capability != "" then step.capability else "step";
            && |id| > |name| && id[|name|] == '-' && id[|name| + 1..] == Text.Decimal(index)
            && forall i :: 0 <= i < |name| ==>
                 id[i] == if 'a' <= name[i] <= 'z' || 'A' <= name[i] <= 'Z' || '0' <= name[i] <= '9' || name[i] in "_-" then name[i] else '-'
  {
    var name := if step.capability != "" then step.capability else "step";
    assert StepId(index, step)[..|name|] == seq(|name|, i requires 0 <= i < |name| => SafeChar(name[i]));
  }

  /** The id is unique within a run whatever the capability names are, even when a name itself
      ends in a dash and digits. */
  lemma StepIdsDistinct(i: nat, a: Step, j: nat, b: Step)
    ensures StepId(i, a) == StepId(j, b) ==> i == j
  {
    if StepId(i, a) == StepId(j, b) {
      var basea := if a.capability == "" then "step" else a.capability;
      var baseb := if b.capability == "" then "step" else b.capability;
      var safea := seq(|basea|, k requires 0 <= k < |basea| => SafeChar(basea[k]));
      var safeb := seq(|baseb|, k requires 0 <= k < |baseb| => SafeChar(baseb[k]));
      Text.TailUnique(safea, safeb, '-', Text.Decimal(i), Text.Decimal(j));
      Text.DecimalInjective(i, j);
    }
  }

  // ---------------------------------------------------------------- one step

  /** The first executor, in registration order, that may run the step: an out-of-process step
      is only offered to executors that declare the boundary. */
  function SelectExecutor(executors: seq<Executor>, step: Step): Option<Executor> {
    if executors == [] then None
    else if step.boundary.OutOfProcess? && !executors[0].boundaryAware then SelectExecutor(executors[1..], step)
    else if executors[0].canHandle(step) then Some(executors[0])
    else SelectExecutor(executors[1..], step)
  }

  predicate Able(e: Executor, step: Step) { e.canHandle(step) && (step.boundary.OutOfProcess? ==> e.boundaryAware) }

  /** The one selected is the first registered that is able, and none is only when nobody is. */
  lemma {:induction false} SelectedIsFirstAble(executors: seq<Executor>, step: Step)
    ensures SelectExecutor(executors, step).None? <==> forall k :: 0 <= k < |executors| ==> !Able(executors[k], step)
    ensures SelectExecutor(executors, step).Some? ==>
              exists k :: 0 <= k < |executors| && SelectExecutor(executors, step).value == executors[k] && Able(executors[k], step)
                          && forall j :: 0 <= j < k ==> !Able(executors[j], step)
  {
    if executors != [] && !Able(executors[0], step) {
      SelectedIsFirstAble(executors[1..], step);
      assert forall k :: 0 <= k < |executors[1..]| ==> executors[1..][k] == executors[k + 1];
      if k :| 0 <= k < |executors[1..]| && SelectExecutor(executors, step).Some?
              && SelectExecutor(executors, step).value == executors[1..][k] && Able(executors[1..][k], step)
              && forall j :: 0 <= j < k ==> !Able(executors[1..][j], step) {
        assert forall j :: 0 <= j < k + 1 ==> !Able(executors[j], step) by {
          assert forall j :: 1 <= j < k + 1 ==> executors[j] == executors[1..][j - 1];
        }
      }
      forall k | 0 <= k < |executors| && SelectExecutor(executors, step).None? ensures !Able(executors[k], step) {
        if k > 0 { assert executors[k] == executors[1..][k - 1]; }
      }
    } else if executors != [] {
      assert SelectExecutor(executors, step) == Some(executors[0]);
    }
  }

  lemma {:induction false} SelectedExecutorRespectsBoundary(executors: seq<Executor>, step: Step)
    ensures SelectExecutor(executors, step).Some? <==>
            exists k :: 0 <= k < |executors| && executors[k].canHandle(step)
                        && (step.boundary.OutOfProcess? ==> executors[k].boundaryAware)
    ensures var e := SelectExecutor(executors, step);
            e.Some? ==> e.value.canHandle(step) && (step.boundary.OutOfProcess? ==> e.value.boundaryAware)
  {
    if executors != [] {
      SelectedExecutorRespectsBoundary(executors[1..], step);
      if k :| 0 <= k < |executors| && executors[k].canHandle(step)
              && (step.boundary.OutOfProcess? ==> executors[k].boundaryAware) && k > 0 {
        assert executors[1..][k - 1] == executors[k];
      }
      if k :| 0 <= k < |executors[1..]| && executors[1..][k].canHandle(step)
              && (step.boundary.OutOfProcess? ==> executors[1..][k].boundaryAware) {
        assert executors[k + 1] == executors[1..][k];
      }
    }
  }

  /** What happens when the plan reaches a step: its result and the executor kind its closing
      event carries. */
  datatype Attempt = Attempt(result: StepResult, startKind: string, endKind: string)

  /** The executor kind in a step's opening event. */
  function OpeningKind(executor: Option<Executor>, step: Step): string {
    if executor.Some? then executor.value.kind else step.kind
  }

  function Try(cfg: Config, mission: string, runId: string, index: nat, step: Step, previous: Output, earlier: seq<Output>): Attempt {
    var id := StepId(index, step);
    var executor := SelectExecutor(cfg.executors, step);
    if executor.None? then
      Attempt(StepResult(id, step.resource, step.capability, step.kind, Failed, NoOutput, [],
                         Some("No executor found for kind '" + step.kind + "' and resource '" + step.resource + "'"), None),
              step.kind, step.kind)
    else
      var ex := executor.value;
      var invocation := if ex.needsInvocation(step) then cfg.resolve(step, mission, previous, earlier) else Err("");
      if ex.needsInvocation(step) && invocation.Err? then
        Attempt(StepResult(id, step.resource, step.capability, step.kind, AssistanceRequired, NoOutput, [],
                           Some(invocation.error), Some("planning_error")),
                ex.kind, step.kind)
      else
        var prepared := if invocation.Ok? then step.(invocation := Some(invocation.value)) else step;
        Attempt(ex.execute(Request(mission, prepared, previous, runId, id), earlier), ex.kind, ex.kind)
  }

  /** Who decided the result: nobody can run the step; the resolver refused it; or the selected
      executor answered the request, with the resolved invocation in its step when it wants one. */
  ghost predicate AnsweredBy(cfg: Config, executor: Option<Executor>, r: Request, earlier: seq<Output>, t: Attempt) {
    if executor.None? then
      && t.result.status.Failed? && t.result.stepId == r.stepId && t.result.executorKind == r.step.kind && t.endKind == r.step.kind
      && t.result.resource == r.step.resource && t.result.capability == r.step.capability && t.result.output == NoOutput
      && t.result.error == Some("No executor found for kind '" + r.step.kind + "' and resource '" + r.step.resource + "'")
    else if !executor.value.needsInvocation(r.step) then
      t.result == executor.value.execute(r, earlier) && t.endKind == executor.value.kind
    else
      match cfg.resolve(r.step, r.mission, r.previous, earlier)
      case Ok(invocation) =>
        t.result == executor.value.execute(r.(step := r.step.(invocation := Some(invocation))), earlier) && t.endKind == executor.value.kind
      case Err(reason) =>
        && t.result.status.AssistanceRequired? && t.result.escalationReason == Some("planning_error") && t.result.error == Some(reason)
        && t.result.stepId == r.stepId && t.result.output == NoOutput && t.endKind == r.step.kind
  }

  predicate NeedsHelp(r: StepResult) { r.status.AssistanceRequired? || r.status.ApprovalRequired? }

  function CapExceeded(cfg: Config, r: StepResult): StepResult {
    r.(status := Failed, error := Some("Max escalations (" + ShowInt(cfg.maxEscalations) + ") exceeded."))
  }

  function ShowInt(n: int): string { if n < 0 then "-" + Text.Decimal(-n) else Text.Decimal(n) }

  // ---------------------------------------------------------------- the step loop

  datatype LoopResult = LoopResult(
    status: DispatchStatus, results: seq<StepResult>, output: Output, events: seq<Event>, envelope: Option<Envelope>)

  function After(events: seq<Event>, r: LoopResult): LoopResult { r.(events := events + r.events) }

  /** What the steps so far ended with. */
  function Outputs(results: seq<StepResult>): (r: seq<Output>)
    ensures |r| == |results| && forall i :: 0 <= i < |r| ==> r[i] == results[i].output
  {
    seq(|results|, i requires 0 <= i < |results| => results[i].output)
  }

  /** `_execute_loop` from one plan index on. */
  function Loop(cfg: Config, route: Route, runId: string, i: nat, results: seq<StepResult>, current: Output,
                escalations: int, token: nat): LoopResult
    decreases |route.plan| - i
  {
    if i >= |route.plan| then LoopResult(RunSucceeded, results, current, [], None)
    else
      var step := route.plan[i];
      var id := StepId(i, step);
      var t := Try(cfg, route.mission, runId, i, step, current, Outputs(results));
      var started := StepStarted(i, id, t.startKind);
      if t.result.status.Completed? then
        After([started, StepCompleted(i, id, t.endKind)],
              Loop(cfg, route, runId, i + 1, results + [t.result], t.result.output, escalations, token))
      else Stop(cfg, route, runId, i, results, current, escalations, token, t)
  }

  /** How the loop ends at a step that did not complete: a failure, an exhausted escalation
      allowance, or a pause with a saved envelope. */
  function Stop(cfg: Config, route: Route, runId: string, i: nat, results: seq<StepResult>, current: Output,
                escalations: int, token: nat, t: Attempt): LoopResult
    requires i < |route.plan|
  {
    var id := StepId(i, route.plan[i]);
    var started := StepStarted(i, id, t.startKind);
    if !NeedsHelp(t.result) then
      LoopResult(RunFailed, results + [t.result], current, [started, FailureEvent(i, id, t)], None)
    else if escalations >= cfg.maxEscalations then
      var capped := CapExceeded(cfg, t.result);
      LoopResult(RunFailed, results + [capped], current, [started, StepFailed(i, id, t.endKind, capped.error)], None)
    else
      var all := results + [t.result];
      LoopResult(RunPaused, all, current,
                 [started, StepEscalated(i, id, t.endKind, t.result.status, t.result.escalationReason),
                  RunEscalated(token, i, escalations + 1)],
                 Some(Envelope(token, runId, route, i, all, current, escalations + 1)))
  }

  function FailureEvent(i: nat, id: string, t: Attempt): Event {
    StepFailed(i, id, t.endKind, if t.result.error.Some? && t.result.error.value != "" then t.result.error
                                 else Some("step " + id + " failed"))
  }

  /** How a step that does not complete ends the loop. A failure and an exhausted allowance leave their
      reason in the closing event, the second in the result too; any other plea is one pause, whose
      envelope holds all there is to go on with. */
  lemma StopReads(cfg: Config, route: Route, runId: string, i: nat, results: seq<StepResult>, current: Output,
                  escalations: int, token: nat, t: Attempt)
    requires i < |route.plan| && !t.result.status.Completed?
    ensures var r, id, res := Stop(cfg, route, runId, i, results, current, escalations, token, t), StepId(i, route.plan[i]), t.result;
            var limit := "Max escalations (" + (if cfg.maxEscalations < 0 then "-" + Text.Decimal(-cfg.maxEscalations)
                                                else Text.Decimal(cfg.maxEscalations)) + ") exceeded.";
            var reason := if res.error.None? || res.error.value == "" then "step " + id + " failed" else res.error.value;
            && r.output == current
            && (res.status == Failed ==>
                  && r.status == RunFailed && r.envelope == None && r.results == results + [res]
                  && r.events == [StepStarted(i, id, t.startKind), StepFailed(i, id, t.endKind, Some(reason))])
            && (res.status != Failed && cfg.maxEscalations <= escalations ==>
                  && r.status == RunFailed && r.envelope == None && r.results == results + [res.(status := Failed, error := Some(limit))]
                  && r.events == [StepStarted(i, id, t.startKind), StepFailed(i, id, t.endKind, Some(limit))])
            && (res.status != Failed && escalations < cfg.maxEscalations ==>
                  && r.status == RunPaused && r.results == results + [res]
                  && r.envelope == Some(Envelope(token, runId, route, i, results + [res], current, escalations + 1))
                  && r.events == [StepStarted(i, id, t.startKind), StepEscalated(i, id, t.endKind, res.status, res.escalationReason),
                                  RunEscalated(token, i, escalations + 1)])
  {
    hide StepId;
  }

  /** The response's own "validated" claims are downgraded before they are recorded. */
  function Downgrade(evidence: seq<Evidence>): (r: seq<Evidence>)
    ensures |r| == |evidence|
    ensures forall i :: 0 <= i < |r| ==> r[i].status != "VALIDATED" && r[i].kind == evidence[i].kind
    ensures forall i :: 0 <= i < |r| && evidence[i].status != "VALIDATED" ==> r[i] == evidence[i]
  {
    seq(|evidence|, i requires 0 <= i < |evidence| =>
      if evidence[i].status == "VALIDATED" then evidence[i].(status := "FOUND_NOT_TESTED") else evidence[i])
  }

  function Answer(response: Response): Output {
    TextOutput(if response.answer == "" then "Assistance provided." else response.answer)
  }

  /** The escalated step becomes COMPLETED with the answer. */
  function Patch(results: seq<StepResult>, response: Response): seq<StepResult>
    requires results != []
  {
    var last := results[|results| - 1];
    results[..|results| - 1] +
      [last.(status := Completed, output := Answer(response), evidence := last.evidence + Downgrade(response.evidence))]
  }

  lemma PatchedOutput(results: seq<StepResult>, response: Response)
    requires results != []
    ensures var n, p := |results|, Patch(results, response);
            && |p| == n && p[..n - 1] == results[..n - 1]
            && p[n - 1].status.Completed?
            && p[n - 1].output == TextOutput(if response.answer != "" then response.answer else "Assistance provided.")
            && p[n - 1].stepId == results[n - 1].stepId && p[n - 1].executorKind == results[n - 1].executorKind
            && |p[n - 1].evidence| == |results[n - 1].evidence| + |response.evidence|
            && p[n - 1].evidence[..|results[n - 1].evidence|] == results[n - 1].evidence
            && (forall ev :: ev in p[n - 1].evidence[|results[n - 1].evidence|..] ==> ev.status != "VALIDATED")
            && (forall i :: 0 <= i < |response.evidence| ==>
                  var given := response.evidence[i];
                  p[n - 1].evidence[|results[n - 1].evidence|..][i]
                  == if given.status == "VALIDATED" then Evidence(given.kind, "FOUND_NOT_TESTED") else given)
  {
    assert Patch(results, response)[|results| - 1].evidence[|results[|results| - 1].evidence|..] == Downgrade(response.evidence);
  }

  // ---------------------------------------------------------------- whole calls

  /** The pending-envelope store, one event stream per run, and the token source. */
  datatype State = State(pending: map<nat, Envelope>, streams: map<string, seq<Event>>, nextToken: nat)

  const EMPTY := State(map[], map[], 0)

  function Stream(s: State, runId: string): seq<Event> {
    if runId in s.streams then s.streams[runId] else []
  }

  function Emit(s: State, runId: string, events: seq<Event>): State {
    s.(streams := s.streams[runId := Stream(s, runId) + events])
  }

  /** Files the envelope of a paused loop. */
  function File(s: State, r: LoopResult): State {
    if r.envelope.None? then s
    else s.(pending := s.pending[r.envelope.value.token := r.envelope.value], nextToken := s.nextToken + 1)
  }

  function Closing(r: LoopResult): seq<Event> {
    if r.status.RunPaused? then [] else [RunCompleted(r.status, |r.results|)]
  }

  function Report(mission: string, runId: string, r: LoopResult): DispatchResult {
    DispatchResult(mission, r.status, r.results, r.output,
                   if r.envelope.Some? then Some(r.envelope.value.token) else None, Some(runId))
  }

  predicate Routable(route: Route) { !route.status.NoEligibleResource? && !route.status.NoExecutableResource? }

  function DispatchSpec(cfg: Config, s: State, route: Route, runId: string): (State, DispatchResult) {
    if !Routable(route) then
      (Emit(s, runId, [RunStarted, RunCompleted(RunFailed, 0)]),
       DispatchResult(route.mission, RunFailed, [], NoOutput, None, Some(runId)))
    else
      var r := Loop(cfg, route, runId, 0, [], NoOutput, 0, s.nextToken);
      (File(Emit(s, runId, [RunStarted] + r.events + Closing(r)), r), Report(route.mission, runId, r))
  }

  predicate WellFormed(e: Envelope) { e.stepIndex < |e.route.plan| && e.results != [] }

  predicate StoreWellFormed(s: State) { forall t :: t in s.pending ==> WellFormed(s.pending[t]) }

  function ResumeSpec(cfg: Config, s: State, token: nat, response: Response): (State, DispatchResult)
    requires StoreWellFormed(s)
  {
    if token !in s.pending then
      (s, DispatchResult("unknown", RunFailed, [], TextOutput("Invalid, consumed, or unknown resume token."), None, None))
    else
      var e := s.pending[token];
      var taken := s.(pending := s.pending - {token});
      if !response.accepted then
        (taken, DispatchResult(e.route.mission, RunFailed, [],
                               TextOutput("Assistance rejected or failed: ASSISTANCE_REJECTED"), None, Some(e.runId)))
      else
        ContinueSpec(cfg, taken, e, response)
  }

  /** The stretch an accepted response starts. */
  function ContinueSpec(cfg: Config, taken: State, e: Envelope, response: Response): (State, DispatchResult)
    requires WellFormed(e)
  {
    var patched := Patch(e.results, response);
    var closed := StepCompleted(e.stepIndex, StepId(e.stepIndex, e.route.plan[e.stepIndex]), patched[|patched| - 1].executorKind);
    var r := Loop(cfg, e.route, e.runId, e.stepIndex + 1, patched, Answer(response), e.escalationCount, taken.nextToken);
    (File(Emit(taken, e.runId, [closed] + r.events + Closing(r)), r), Report(e.route.mission, e.runId, r))
  }

  /** What is refused is answered FAILED without results: an unknown token and a route that cannot run
      leave all envelopes alone, a rejected response leaves every stream alone. */
  lemma RefusalsFail(cfg: Config, s: State, token: nat, response: Response, route: Route, runId: string)
    requires StoreWellFormed(s)
    ensures token !in s.pending ==>
              var (t, r) := ResumeSpec(cfg, s, token, response);
              t == s && r.status.RunFailed? && r.results == [] && r.token == None && r.runId == None
    ensures token in s.pending && !response.accepted ==>
              var (t, r) := ResumeSpec(cfg, s, token, response);
              && t.streams == s.streams && t.pending == s.pending - {token}
              && r.status.RunFailed? && r.results == [] && r.token == None && r.runId == Some(s.pending[token].runId)
              && r.finalOutput == TextOutput("Assistance rejected or failed: ASSISTANCE_REJECTED")
    ensures route.status.NoEligibleResource? || route.status.NoExecutableResource? ==>
              var (t, r) := DispatchSpec(cfg, s, route, runId);
              && t.pending == s.pending && r.status.RunFailed? && r.results == [] && r.token == None && r.runId == Some(runId)
              && t.streams == s.streams[runId := (if runId in s.streams then s.streams[runId] else []) + [RunStarted, RunCompleted(RunFailed, 0)]]
  {
  }

  lemma EmitNothing(s: State, runId: string)
    requires runId in s.streams
    ensures Emit(s, runId, []) == s
  {
    assert s.streams[runId] + [] == s.streams[runId];
    assert s.streams[runId := s.streams[runId] + []] == s.streams;
  }

  lemma EmitTwice(s: State, runId: string, a: seq<Event>, b: seq<Event>)
    ensures Emit(Emit(s, runId, a), runId, b) == Emit(s, runId, a + b)
  {
    assert Stream(s, runId) + a + b == Stream(s, runId) + (a + b);
    assert s.streams[runId := Stream(s, runId) + a][runId := Stream(s, runId) + a + b]
        == s.streams[runId := Stream(s, runId) + (a + b)];
  }

  lemma EmitPair(s: State, runId: string, a: seq<Event>, e: Event, f: Event)
    ensures Emit(Emit(Emit(s, runId, a), runId, [e]), runId, [f]) == Emit(s, runId, a + [e, f])
  {
    EmitTwice(s, runId, a, [e]);
    EmitTwice(s, runId, a + [e], [f]);
    assert a + [e] + [f] == a + [e, f];
  }

  lemma AfterTwice(a: seq<Event>, b: seq<Event>, r: LoopResult)
    ensures After(a, After(b, r)) == After(a + b, r)
  {
    assert a + (b + r.events) == a + b + r.events;
  }

  /** The events of one call, written opening, body and closing, around one filing. */
  lemma EmitAround(s: State, runId: string, opening: seq<Event>, r: LoopResult)
    ensures Emit(File(Emit(Emit(s, runId, opening), runId, r.events), r), runId, Closing(r))
         == File(Emit(s, runId, opening + r.events + Closing(r)), r)
    ensures r.status.RunPaused? ==>
              File(Emit(Emit(s, runId, opening), runId, r.events), r) == File(Emit(s, runId, opening + r.events + Closing(r)), r)
  {
    EmitTwice(s, runId, opening, r.events);
    EmitTwice(s, runId, opening + r.events, Closing(r));
    assert opening + r.events + [] == opening + r.events;
  }

  lemma EmitKeepsTokens(s: State, runId: string, events: seq<Event>)
    ensures Emit(s, runId, events).nextToken == s.nextToken
  {
  }

  /** The loop from one plan index, one step unfolded. */
  lemma LoopHere(cfg: Config, route: Route, runId: string, i: nat, results: seq<StepResult>, current: Output, escalations: int, token: nat)
    ensures var here := Loop(cfg, route, runId, i, results, current, escalations, token);
            if i >= |route.plan| then here == LoopResult(RunSucceeded, results, current, [], None)
            else
              var t := Try(cfg, route.mission, runId, i, route.plan[i], current, Outputs(results));
              here == if !t.result.status.Completed? then Stop(cfg, route, runId, i, results, current, escalations, token, t)
                      else After([StepStarted(i, StepId(i, route.plan[i]), t.startKind), StepCompleted(i, StepId(i, route.plan[i]), t.endKind)],
                                 Loop(cfg, route, runId, i + 1, results + [t.result], t.result.output, escalations, token))
  {
  }

  lemma StopOpens(cfg: Config, route: Route, runId: string, i: nat, results: seq<StepResult>, current: Output, escalations: int,
                  token: nat, t: Attempt)
    requires i < |route.plan|
    ensures var r := Stop(cfg, route, runId, i, results, current, escalations, token, t);
            r.events != [] && r.events[0] == StepStarted(i, StepId(i, route.plan[i]), t.startKind) && r.output == current
  {
  }

  // ---------------------------------------------------------------- the dispatcher object

  class ResourceDispatcher {
    const cfg: Config
    var pending: map<nat, Envelope>
    var streams: map<string, seq<Event>>
    var nextToken: nat

    ghost function View(): State
      reads this
    {
      State(pending, streams, nextToken)
    }

    constructor (cfg: Config)
      ensures this.cfg == cfg && View() == EMPTY
    {
      this.cfg := cfg;
      pending, streams, nextToken := map[], map[], 0;
    }

    method EmitEvent(runId: string, event: Event)
      modifies this
      ensures View() == Emit(old(View()), runId, [event])
    {
      streams := streams[runId := (if runId in streams then streams[runId] else []) + [event]];
    }

    /** The single-use store: taking an envelope removes it. */
    method Consume(token: nat) returns (e: Option<Envelope>)
      modifies this
      ensures e == (if token in old(pending) then Some(old(pending)[token]) else None)
      ensures View() == old(View()).(pending := old(pending) - {token})
    {
      if token !in pending {
        assert pending - {token} == pending;
        return None;
      }
      e := Some(pending[token]);
      pending := pending - {token};
    }

    /** With the executor selected and the opening event out: resolves the invocation when the
        executor wants one, and executes. */
    method ExecuteStep(route: Route, runId: string, i: nat, executor: Option<Executor>, current: Output, earlier: seq<Output>)
      returns (t: Attempt)
      requires i < |route.plan| && executor == SelectExecutor(cfg.executors, route.plan[i])
      ensures t == Try(cfg, route.mission, runId, i, route.plan[i], current, earlier)
      ensures t.startKind == OpeningKind(executor, route.plan[i])
      ensures AnsweredBy(cfg, executor, Request(route.mission, route.plan[i], current, runId, StepId(i, route.plan[i])), earlier, t)
    {
      var step := route.plan[i];
      var stepId := StepId(i, step);
      if executor.None? {
        return Attempt(StepResult(stepId, step.resource, step.capability, step.kind, Failed, NoOutput, [],
                                  Some("No executor found for kind '" + step.kind + "' and resource '" + step.resource + "'"), None),
                       step.kind, step.kind);
      }
      var ex := executor.value;
      var prepared := step;
      if ex.needsInvocation(step) {
        var invocation := cfg.resolve(step, route.mission, current, earlier);
        if invocation.Err? {
          return Attempt(StepResult(stepId, step.resource, step.capability, step.kind, AssistanceRequired, NoOutput, [],
                                    Some(invocation.error), Some("planning_error")),
                         ex.kind, step.kind);
        }
        prepared := step.(invocation := Some(invocation.value));
      }
      var res := ex.execute(Request(route.mission, prepared, current, runId, stepId), earlier);
      t := Attempt(res, ex.kind, ex.kind);
    }

    /** Saves the envelope and announces the escalation. */
    method Pause(e: Envelope, escalated: Event)
      requires e.token == nextToken
      modifies this
      ensures View() == Emit(old(View()), e.runId, [escalated, RunEscalated(e.token, e.stepIndex, e.escalationCount)])
                          .(pending := old(pending)[e.token := e], nextToken := old(nextToken) + 1)
    {
      EmitTwice(View(), e.runId, [escalated], [RunEscalated(e.token, e.stepIndex, e.escalationCount)]);
      assert [escalated] + [RunEscalated(e.token, e.stepIndex, e.escalationCount)]
          == [escalated, RunEscalated(e.token, e.stepIndex, e.escalationCount)];
      pending := pending[e.token := e];
      nextToken := nextToken + 1;
      EmitEvent(e.runId, escalated);
      EmitEvent(e.runId, RunEscalated(e.token, e.stepIndex, e.escalationCount));
    }

    /** What the loop does at a step that did not complete: a failure, the cap, or a pause. */
    method StopAt(route: Route, runId: string, i: nat, before: seq<StepResult>, current: Output, escalations: int, t: Attempt)
      returns (status: DispatchStatus, results: seq<StepResult>, token: Option<nat>)
      requires i < |route.plan| && !t.result.status.Completed?
      modifies this
      ensures var r := Stop(cfg, route, runId, i, before, current, escalations, old(nextToken), t);
              && View() == File(Emit(old(View()), runId, r.events[1..]), r)
              && status == r.status && results == r.results
              && token == if r.envelope.Some? then Some(r.envelope.value.token) else None
    {
      hide StepId, FailureEvent, CapExceeded;
      var stepId, res := StepId(i, route.plan[i]), t.result;
      token := None;
      if !NeedsHelp(res) {
        results := before + [res];
        status := RunFailed;
        EmitEvent(runId, FailureEvent(i, stepId, t));
      } else if escalations >= cfg.maxEscalations {
        res := CapExceeded(cfg, res);
        results := before + [res];
        status := RunFailed;
        EmitEvent(runId, StepFailed(i, stepId, t.endKind, res.error));
      } else {
        results := before + [res];
        status := RunPaused;
        token := Some(nextToken);
        Pause(Envelope(nextToken, runId, route, i, results, current, escalations + 1),
              StepEscalated(i, stepId, t.endKind, res.status, res.escalationReason));
      }
    }

    method ExecuteLoop(route: Route, runId: string, start: nat, initial: seq<StepResult>, given: Output, escalations: int)
      returns (result: DispatchResult)
      requires runId in streams
      modifies this
      ensures var r := Loop(cfg, route, runId, start, initial, given, escalations, old(nextToken));
              && View() == File(Emit(old(View()), runId, r.events), r)
              && result == Report(route.mission, runId, r)
    {
      hide Try, SelectExecutor, StepId, AnsweredBy, OpeningKind, Outputs, Loop, Stop, Emit, Stream;
      var status, token := RunSucceeded, None;
      var results, current := initial, given;
      var i := start;
      ghost var whole := Loop(cfg, route, runId, start, initial, given, escalations, nextToken);
      ghost var before, emitted := View(), [];
      EmitNothing(View(), runId);
      while i < |route.plan|
        invariant start <= i
        invariant View() == Emit(before, runId, emitted)
        invariant status == RunSucceeded && token == None
        invariant whole == After(emitted, Loop(cfg, route, runId, i, results, current, escalations, before.nextToken))
      {
        LoopHere(cfg, route, runId, i, results, current, escalations, before.nextToken);
        var stepId, executor := StepId(i, route.plan[i]), SelectExecutor(cfg.executors, route.plan[i]);
        var started := StepStarted(i, stepId, OpeningKind(executor, route.plan[i]));
        EmitEvent(runId, started);
        EmitTwice(before, runId, emitted, [started]);
        EmitKeepsTokens(before, runId, emitted + [started]);
        var t := ExecuteStep(route, runId, i, executor, current, Outputs(results));
        if !t.result.status.Completed? {
          ghost var r := Stop(cfg, route, runId, i, results, current, escalations, before.nextToken, t);
          StopOpens(cfg, route, runId, i, results, current, escalations, before.nextToken, t);
          status, results, token := StopAt(route, runId, i, results, current, escalations, t);
          EmitTwice(before, runId, emitted + [started], r.events[1..]);
          assert emitted + [started] + r.events[1..] == emitted + r.events;
          break;
        }
        var completed := StepCompleted(i, stepId, t.endKind);
        EmitEvent(runId, completed);
        EmitPair(before, runId, emitted, started, completed);
        results := results + [t.result];
        current := t.result.output;
        AfterTwice(emitted, [started, completed],
                   Loop(cfg, route, runId, i + 1, results, current, escalations, before.nextToken));
        emitted := emitted + [started, completed];
        i := i + 1;
      }
      if i >= |route.plan| {
        LoopHere(cfg, route, runId, i, results, current, escalations, before.nextToken);
        assert emitted + [] == emitted;
      }
      result := DispatchResult(route.mission, status, results, current, token, Some(runId));
    }

    /** One call's stretch of a run: its opening event, the loop, and RunCompleted unless paused. */
    method RunStretch(opening: Event, route: Route, runId: string, start: nat, results: seq<StepResult>, current: Output,
                      escalations: int) returns (result: DispatchResult)
      modifies this
      ensures var r := Loop(cfg, route, runId, start, results, current, escalations, old(nextToken));
              && View() == File(Emit(old(View()), runId, [opening] + r.events + Closing(r)), r)
              && result == Report(route.mission, runId, r)
    {
      hide Loop;
      EmitEvent(runId, opening);
      ghost var r := Loop(cfg, route, runId, start, results, current, escalations, nextToken);
      EmitAround(old(View()), runId, [opening], r);
      result := ExecuteLoop(route, runId, start, results, current, escalations);
      if !result.status.RunPaused? {
        EmitEvent(runId, RunCompleted(result.status, |result.results|));
      }
    }

    method Dispatch(route: Route, runId: string) returns (result: DispatchResult)
      modifies this
      ensures (View(), result) == DispatchSpec(cfg, old(View()), route, runId)
    {
      if !Routable(route) {
        EmitEvent(runId, RunStarted);
        EmitEvent(runId, RunCompleted(RunFailed, 0));
        EmitTwice(old(View()), runId, [RunStarted], [RunCompleted(RunFailed, 0)]);
        assert [RunStarted] + [RunCompleted(RunFailed, 0)] == [RunStarted, RunCompleted(RunFailed, 0)];
        return DispatchResult(route.mission, RunFailed, [], NoOutput, None, Some(runId));
      }
      result := RunStretch(RunStarted, route, runId, 0, [], NoOutput, 0);
    }

    method Resume(token: nat, response: Response) returns (result: DispatchResult)
      requires StoreWellFormed(View())
      modifies this
      ensures (View(), result) == ResumeSpec(cfg, old(View()), token, response)
    {
      var taken := Consume(token);
      if taken.None? {
        assert old(pending) - {token} == old(pending);
        return DispatchResult("unknown", RunFailed, [], TextOutput("Invalid, consumed, or unknown resume token."), None, None);
      }
      var e := taken.value;
      if !response.accepted {
        return DispatchResult(e.route.mission, RunFailed, [],
                              TextOutput("Assistance rejected or failed: ASSISTANCE_REJECTED"), None, Some(e.runId));
      }
      hide ContinueSpec;
      result := Continue(e, response);
    }

    method Continue(e: Envelope, response: Response) returns (result: DispatchResult)
      requires WellFormed(e)
      modifies this
      ensures (View(), result) == ContinueSpec(cfg, old(View()), e, response)
    {
      hide Loop, Patch, StepId, Closing, Report, Emit, File, Downgrade, Stream;
      PatchedOutput(e.results, response);
      var results := Patch(e.results, response);
      var closed := StepCompleted(e.stepIndex, StepId(e.stepIndex, e.route.plan[e.stepIndex]), results[|results| - 1].executorKind);
      result := RunStretch(closed, e.route, e.runId, e.stepIndex + 1, results, results[|results| - 1].output, e.escalationCount);
    }
  }
}
