/** What holds over whole dispatch-and-resume histories of the dispatcher: the grammar of the
    lifecycle stream, the shape of every saved envelope, single-use tokens, and the equivalence
    of a paused run with one uninterrupted pass over the plan. */
module DispatchRuns {
  import opened Common
  import opened Dispatcher

  // ---------------------------------------------------------------- the lifecycle grammar

  /** Where a run's event stream stands; `escalations` counts the RunEscalated events so far. */
  datatype Phase =
    | Fresh
    | Ready(next: nat, escalations: nat)
    | InStep(index: nat, escalations: nat, stepId: string)
    | Escalating(index: nat, escalations: nat, stepId: string)
    | Waiting(index: nat, escalations: nat, stepId: string, token: nat)
    | FailedAt(steps: nat, escalations: nat)
    | Ended(escalations: nat)
    | Broken

  function Advance(p: Phase, e: Event): Phase {
    match (p, e)
    case (Fresh, RunStarted) => Ready(0, 0)
    case (Ready(n, k), StepStarted(i, id, _)) => if i == n then InStep(i, k, id) else Broken
    case (InStep(i, k, id), StepCompleted(j, id', _)) => if i == j && id == id' then Ready(i + 1, k) else Broken
    case (InStep(i, k, id), StepFailed(j, id', _, _)) => if i == j && id == id' then FailedAt(i + 1, k) else Broken
    case (InStep(i, k, id), StepEscalated(j, id', _, _, _)) => if i == j && id == id' then Escalating(i, k, id) else Broken
    case (Escalating(i, k, id), RunEscalated(t, j, c)) => if i == j && c == k + 1 then Waiting(i, k + 1, id, t) else Broken
    case (Waiting(i, k, id, _), StepCompleted(j, id', _)) => if i == j && id == id' then Ready(i + 1, k) else Broken
    case (Ready(n, k), RunCompleted(status, count)) =>
      // A run that was never routable fails before its first step.
      if count == n && (status.RunSucceeded? || (status.RunFailed? && n == 0)) then Ended(k) else Broken
    case (FailedAt(n, k), RunCompleted(status, count)) => if status.RunFailed? && count == n then Ended(k) else Broken
    case _ => Broken
  }

  function Scan(p: Phase, events: seq<Event>): Phase
    decreases |events|
  {
    if events == [] then p else Scan(Advance(p, events[0]), events[1..])
  }

  lemma {:induction false} ScanConcat(p: Phase, a: seq<Event>, b: seq<Event>)
    ensures Scan(p, a + b) == Scan(Scan(p, a), b)
    decreases |a|
  {
    if a == [] {
      assert a + b == b;
    } else {
      ScanConcat(Advance(p, a[0]), a[1..], b);
      assert (a + b)[1..] == a[1..] + b;
    }
  }

  lemma ScanLast(p: Phase, events: seq<Event>)
    requires events != []
    ensures Scan(p, events) == Advance(Scan(p, events[..|events| - 1]), events[|events| - 1])
  {
    ScanConcat(p, events[..|events| - 1], [events[|events| - 1]]);
    assert events == events[..|events| - 1] + [events[|events| - 1]];
  }

  function CountEscalations(events: seq<Event>): nat {
    if events == [] then 0
    else CountEscalations(events[..|events| - 1]) + (if events[|events| - 1].RunEscalated? then 1 else 0)
  }

  function CountStarts(events: seq<Event>): nat {
    if events == [] then 0
    else CountStarts(events[..|events| - 1]) + (if events[|events| - 1].StepStarted? then 1 else 0)
  }

  /** Steps reached so far, while the phase still tells. */
  predicate ReachedIs(p: Phase, n: nat) {
    match p
    case Fresh => n == 0
    case Ready(next, _) => n == next
    case FailedAt(steps, _) => n == steps
    case Ended(_) => true
    case Broken => true
    case _ => n == p.index + 1
  }

  /** What may follow the event at `k`: a started step is closed or escalated at once, under its own
      index and id; an escalated step pauses the run at once; a paused run can only go on by closing
      that step; a closed step is followed by the next one or the end, a failed one by the end. */
  predicate SucceedsAt(events: seq<Event>, k: nat)
    requires k + 1 < |events|
  {
    var next := events[k + 1];
    match events[k]
    case RunStarted => next.StepStarted? || next.RunCompleted?
    case StepStarted(i, id, _) =>
      (next.StepCompleted? || next.StepFailed? || next.StepEscalated?) && next.index == i && next.stepId == id
    case StepCompleted(_, _, _) => next.StepStarted? || next.RunCompleted?
    case StepFailed(_, _, _, _) => next.RunCompleted?
    case StepEscalated(i, _, _, _, _) => next.RunEscalated? && next.stepIndex == i
    case RunEscalated(_, i, _) =>
      && next.StepCompleted? && next.index == i
      && k > 0 && events[k - 1].StepEscalated? && next.stepId == events[k - 1].stepId
    case RunCompleted(_, _) => false
  }

  /** The numbers an event carries: steps and escalations are counted from the start of the stream,
      and a run fails exactly when its last step did or it never had one to run. */
  predicate NumberedAt(events: seq<Event>, k: nat)
    requires k < |events|
  {
    match events[k]
    case StepStarted(i, _, _) => i == CountStarts(events[..k])
    case RunEscalated(_, _, c) => c == CountEscalations(events[..k]) + 1
    case RunCompleted(status, count) =>
      && count == CountStarts(events[..k])
      && k > 0
      && (if events[k - 1].StepFailed? then status.RunFailed? else status.RunSucceeded? || (status.RunFailed? && count == 0))
    case _ => true
  }

  /** A lifecycle stream, said without the automaton. */
  ghost predicate Lifecycle(events: seq<Event>) {
    && (events != [] ==> events[0].RunStarted?)
    && (forall k: nat {:trigger SucceedsAt(events, k)} :: k + 1 < |events| ==> SucceedsAt(events, k))
    && (forall k: nat {:trigger NumberedAt(events, k)} :: k < |events| ==> NumberedAt(events, k))
  }

  /** Where a lifecycle stream stands, read off its last two events. */
  function StandsAt(events: seq<Event>): Phase {
    if events == [] then Fresh
    else
      var k := CountEscalations(events);
      match events[|events| - 1]
      case RunStarted => Ready(0, k)
      case StepStarted(i, id, _) => InStep(i, k, id)
      case StepCompleted(i, _, _) => Ready(i + 1, k)
      case StepFailed(i, _, _, _) => FailedAt(i + 1, k)
      case StepEscalated(i, id, _, _, _) => Escalating(i, k, id)
      case RunEscalated(token, i, _) =>
        if |events| > 1 && events[|events| - 2].StepEscalated? then Waiting(i, k, events[|events| - 2].stepId, token) else Broken
      case RunCompleted(_, _) => Ended(k)
  }

  lemma CountsStep(front: seq<Event>, e: Event)
    ensures CountStarts(front + [e]) == CountStarts(front) + (if e.StepStarted? then 1 else 0)
    ensures CountEscalations(front + [e]) == CountEscalations(front) + (if e.RunEscalated? then 1 else 0)
  {
    assert (front + [e])[..|front|] == front;
  }

  /** A stream grows to a lifecycle stream exactly by an event that follows and is numbered rightly. */
  lemma LifecycleStep(front: seq<Event>, e: Event)
    ensures var events := front + [e];
            Lifecycle(events) <==> Lifecycle(front) && Fits(front, e)
  {
    var events := front + [e];
    assert events[..|front|] == front;
    forall k: nat | k + 1 < |front| ensures SucceedsAt(events, k) == SucceedsAt(front, k) { }
    forall k: nat | k < |front| ensures NumberedAt(events, k) == NumberedAt(front, k) {
      assert events[..k] == front[..k];
    }
  }

  /** The event may come next. */
  predicate Fits(front: seq<Event>, e: Event) {
    NumberedAt(front + [e], |front|) && if front == [] then e.RunStarted? else SucceedsAt(front + [e], |front| - 1)
  }

  /** One more event: the automaton takes it exactly when it fits, and then stands where the stream does. */
  lemma AdvanceMeansStep(front: seq<Event>, e: Event)
    requires ReachedIs(StandsAt(front), CountStarts(front)) && !StandsAt(front).Broken?
    ensures Fits(front, e) <==> !Advance(StandsAt(front), e).Broken?
    ensures Fits(front, e) ==> Advance(StandsAt(front), e) == StandsAt(front + [e])
    ensures Fits(front, e) ==> ReachedIs(StandsAt(front + [e]), CountStarts(front + [e]))
  {
    assert (front + [e])[..|front|] == front;
    CountsStep(front, e);
    if front == [] {
      NothingCounted();
    } else {
      hide CountStarts, CountEscalations;
      var last := front[|front| - 1];
      assert (front + [e])[|front| - 1] == last;
      assert |front| > 1 ==> (front + [e])[|front| - 2] == front[|front| - 2];
    }
  }

  lemma NothingCounted()
    ensures CountStarts([]) == 0 && CountEscalations([]) == 0
  {
  }

  /** The automaton accepts exactly the lifecycle streams, and its phase is where the stream stands. */
  lemma {:induction false} GrammarMeansLifecycle(events: seq<Event>)
    ensures !Scan(Fresh, events).Broken? <==> Lifecycle(events)
    ensures Lifecycle(events) ==> Scan(Fresh, events) == StandsAt(events) && ReachedIs(StandsAt(events), CountStarts(events))
    decreases |events|
  {
    if events == [] {
    } else {
      var front, e := events[..|events| - 1], events[|events| - 1];
      assert events == front + [e];
      ScanLast(Fresh, events);
      GrammarMeansLifecycle(front);
      LifecycleStep(front, e);
      hide Scan, Lifecycle, Fits;
      if Lifecycle(front) {
        AdvanceMeansStep(front, e);
      }
    }
  }

  // ---------------------------------------------------------------- what the lifecycle implies

  /** `RunStarted` opens the stream and occurs once; nothing follows a `RunCompleted`. */
  lemma StartsAndEndsOnce(events: seq<Event>)
    requires Lifecycle(events) && events != []
    ensures events[0].RunStarted? && forall k :: 0 < k < |events| ==> !events[k].RunStarted?
    ensures forall k :: 0 <= k < |events| && events[k].RunCompleted? ==> k == |events| - 1
  {
    forall k | 0 < k < |events| ensures !events[k].RunStarted? {
      assert SucceedsAt(events, k - 1);
    }
    forall k: nat | k + 1 < |events| ensures !events[k].RunCompleted? {
      assert SucceedsAt(events, k);
    }
  }

  /** A step is closed right after it started, or right after the pause it caused. */
  lemma ClosesOpened(events: seq<Event>, k: nat)
    requires Lifecycle(events) && k < |events| && (events[k].StepCompleted? || events[k].StepFailed?)
    ensures exists j :: (j == k - 1 || j == k - 3) && 0 <= j && events[j].StepStarted?
                        && events[j].index == events[k].index && events[j].stepId == events[k].stepId
  {
    assert k > 0;
    assert SucceedsAt(events, k - 1);
    if events[k - 1].StepStarted? {
      assert 0 <= k - 1;
    } else {
      assert SucceedsAt(events, k - 2);
      StartsAndEndsOnce(events);
      assert k - 2 > 0;
      assert SucceedsAt(events, k - 3);
      assert events[k - 3].StepStarted?;
    }
  }

  function Closes(e: Event, i: nat): nat { if (e.StepCompleted? || e.StepFailed?) && e.index == i then 1 else 0 }

  function CountCloses(events: seq<Event>, i: nat): nat {
    if events == [] then 0 else CountCloses(events[..|events| - 1], i) + Closes(events[|events| - 1], i)
  }

  /** Steps that are over. */
  function Settled(p: Phase, started: nat): nat {
    match p
    case Ready(n, _) => n
    case FailedAt(n, _) => n
    case InStep(i, _, _) => i
    case Escalating(i, _, _) => i
    case Waiting(i, _, _, _) => i
    case Ended(_) => started
    case _ => 0
  }

  lemma {:induction false} EachStepClosesOnce(events: seq<Event>, i: nat)
    requires Lifecycle(events)
    ensures CountCloses(events, i) == if i < Settled(StandsAt(events), CountStarts(events)) then 1 else 0
    decreases |events|
  {
    if events != [] {
      var front, e := events[..|events| - 1], events[|events| - 1];
      assert events == front + [e];
      LifecycleStep(front, e);
      EachStepClosesOnce(front, i);
      GrammarMeansLifecycle(front);
      GrammarMeansLifecycle(events);
      ScanLast(Fresh, events);
      CountsStep(front, e);
      hide Scan, Lifecycle, CountStarts, CountEscalations, NumberedAt, SucceedsAt;
      assert Advance(StandsAt(front), e) == StandsAt(events);
      hide StandsAt;
    }
  }

  /** At rest, every started step has been closed exactly once, but for the one a pause is about. */
  lemma StepsAtRest(events: seq<Event>, i: nat)
    requires Lifecycle(events) && events != []
    requires events[|events| - 1].RunCompleted? || events[|events| - 1].RunEscalated?
    ensures var last := events[|events| - 1];
            && (last.RunEscalated? ==> last.stepIndex + 1 == CountStarts(events))
            && CountCloses(events, i) == if i < CountStarts(events) && !(last.RunEscalated? && i == last.stepIndex) then 1 else 0
  {
    EachStepClosesOnce(events, i);
    GrammarMeansLifecycle(events);
    hide Scan, Lifecycle, CountStarts, CountCloses;
  }

  // ---------------------------------------------------------------- the invariant of whole histories

  function Cap(cfg: Config): nat { if cfg.maxEscalations < 0 then 0 else cfg.maxEscalations }

  predicate AllButLastCompleted(results: seq<StepResult>) {
    forall k :: 0 <= k < |results| - 1 ==> results[k].status.Completed?
  }

  /** A saved envelope: one result per step up to the escalated one, all but the last COMPLETED. */
  predicate EnvelopeOk(cfg: Config, e: Envelope) {
    && e.stepIndex < |e.route.plan|
    && |e.results| == e.stepIndex + 1
    && AllButLastCompleted(e.results)
    && NeedsHelp(e.results[e.stepIndex])
    && 1 <= e.escalationCount <= Cap(cfg)
  }

  function WaitingFor(e: Envelope): Phase
    requires e.stepIndex < |e.route.plan| && e.escalationCount >= 0
  {
    Waiting(e.stepIndex, e.escalationCount, StepId(e.stepIndex, e.route.plan[e.stepIndex]), e.token)
  }

  predicate PendingOk(cfg: Config, s: State, t: nat)
    requires t in s.pending
  {
    var e := s.pending[t];
    && EnvelopeOk(cfg, e)
    && e.token == t && t < s.nextToken
    && e.runId in s.streams
    && Scan(Fresh, s.streams[e.runId]) == WaitingFor(e)
  }

  predicate StreamOk(cfg: Config, events: seq<Event>) {
    var p := Scan(Fresh, events);
    (p.Ended? || p.Waiting?) && p.escalations <= Cap(cfg)
  }

  ghost predicate Inv(cfg: Config, s: State) {
    && (forall t :: t in s.pending ==> PendingOk(cfg, s, t))
    && (forall r :: r in s.streams ==> StreamOk(cfg, s.streams[r]))
  }

  lemma InvMeansWellFormed(cfg: Config, s: State)
    requires Inv(cfg, s)
    ensures StoreWellFormed(s)
  {
    forall t | t in s.pending ensures WellFormed(s.pending[t]) {
      assert PendingOk(cfg, s, t);
    }
  }

  /** The loop's results and events agree on where the run stands. */
  predicate LoopOk(cfg: Config, route: Route, runId: string, start: Phase, escalations: nat, token: nat, r: LoopResult) {
    var q := Scan(start, r.events);
    && AllButLastCompleted(r.results)
    && |r.results| <= |route.plan|
    && (r.status.RunPaused? <==> r.envelope.Some?)
    && (r.status.RunSucceeded? ==> |r.results| == |route.plan| && q == Ready(|r.results|, escalations)
                                   && forall k :: 0 <= k < |r.results| ==> r.results[k].status.Completed?)
    && (r.status.RunFailed? ==> r.results != [] && r.results[|r.results| - 1].status.Failed?
                                && q == FailedAt(|r.results|, escalations))
    && (r.envelope.Some? ==>
          var e := r.envelope.value;
          && EnvelopeOk(cfg, e) && e.route == route && e.runId == runId && e.token == token
          && e.results == r.results && e.currentOutput == r.output && e.escalationCount == escalations + 1
          && q == WaitingFor(e))
  }

  /** The step at which the loop stops, for one of its three reasons. */
  lemma LoopStopsOk(cfg: Config, route: Route, runId: string, i: nat, results: seq<StepResult>,
                    current: Output, escalations: nat, token: nat)
    requires i == |results| < |route.plan| && escalations <= Cap(cfg)
    requires forall k :: 0 <= k < |results| ==> results[k].status.Completed?
    requires !Try(cfg, route.mission, runId, i, route.plan[i], current, Outputs(results)).result.status.Completed?
    ensures LoopOk(cfg, route, runId, Ready(i, escalations), escalations, token,
                   Loop(cfg, route, runId, i, results, current, escalations, token))
  {
    hide Try, StepId, Scan;
    var t := Try(cfg, route.mission, runId, i, route.plan[i], current, Outputs(results));
    var id := StepId(i, route.plan[i]);
    var started := StepStarted(i, id, t.startKind);
    var p := Ready(i, escalations);
    if !NeedsHelp(t.result) {
      ScanTwo(p, started, FailureEvent(i, id, t));
    } else if escalations >= cfg.maxEscalations {
      ScanTwo(p, started, StepFailed(i, id, t.endKind, CapExceeded(cfg, t.result).error));
    } else {
      ScanThree(p, started, StepEscalated(i, id, t.endKind, t.result.status, t.result.escalationReason),
                RunEscalated(token, i, escalations + 1));
    }
  }

  lemma StepCompletes(i: nat, escalations: nat, id: string, startKind: string, endKind: string)
    ensures Scan(Ready(i, escalations), [StepStarted(i, id, startKind), StepCompleted(i, id, endKind)]) == Ready(i + 1, escalations)
  {
    ScanTwo(Ready(i, escalations), StepStarted(i, id, startKind), StepCompleted(i, id, endKind));
  }

  lemma {:induction false} LoopKeepsGrammar(cfg: Config, route: Route, runId: string, i: nat, results: seq<StepResult>,
                                            current: Output, escalations: nat, token: nat)
    requires i == |results| <= |route.plan| && escalations <= Cap(cfg)
    requires forall k :: 0 <= k < |results| ==> results[k].status.Completed?
    ensures LoopOk(cfg, route, runId, Ready(i, escalations), escalations, token,
                   Loop(cfg, route, runId, i, results, current, escalations, token))
    decreases |route.plan| - i
  {
    hide Scan, Try, StepId;
    ScanNothing(Ready(i, escalations));
    if i < |route.plan| {
      var t := Try(cfg, route.mission, runId, i, route.plan[i], current, Outputs(results));
      if t.result.status.Completed? {
        var id := StepId(i, route.plan[i]);
        var rest := Loop(cfg, route, runId, i + 1, results + [t.result], t.result.output, escalations, token);
        assert Loop(cfg, route, runId, i, results, current, escalations, token)
            == After([StepStarted(i, id, t.startKind), StepCompleted(i, id, t.endKind)], rest);
        hide Loop;
        LoopKeepsGrammar(cfg, route, runId, i + 1, results + [t.result], t.result.output, escalations, token);
        CompletedStepOk(cfg, route, runId, i, escalations, token, id, t.startKind, t.endKind, rest);
      } else {
        LoopStopsOk(cfg, route, runId, i, results, current, escalations, token);
      }
    }
  }

  lemma CompletedStepOk(cfg: Config, route: Route, runId: string, i: nat, escalations: nat, token: nat,
                        id: string, startKind: string, endKind: string, rest: LoopResult)
    requires LoopOk(cfg, route, runId, Ready(i + 1, escalations), escalations, token, rest)
    ensures LoopOk(cfg, route, runId, Ready(i, escalations), escalations, token,
                   After([StepStarted(i, id, startKind), StepCompleted(i, id, endKind)], rest))
  {
    hide Scan;
    ScanConcat(Ready(i, escalations), [StepStarted(i, id, startKind), StepCompleted(i, id, endKind)], rest.events);
    StepCompletes(i, escalations, id, startKind, endKind);
  }

  lemma ScanNothing(p: Phase)
    ensures Scan(p, []) == p
  {
  }

  lemma ScanOne(p: Phase, e: Event)
    ensures Scan(p, [e]) == Advance(p, e)
  {
    assert [e][1..] == [];
  }

  lemma ScanTwo(p: Phase, e: Event, f: Event)
    ensures Scan(p, [e, f]) == Advance(Advance(p, e), f)
  {
    assert [e, f][1..] == [f] && [f][1..] == [];
    assert Scan(Advance(p, e), [f]) == Advance(Advance(p, e), f);
  }

  lemma ScanThree(p: Phase, e: Event, f: Event, g: Event)
    ensures Scan(p, [e, f, g]) == Advance(Advance(Advance(p, e), f), g)
  {
    assert [e, f, g][1..] == [f, g];
    ScanTwo(Advance(p, e), f, g);
  }

  lemma WaitingComesFromEscalation(p: Phase, e: Event)
    requires Advance(p, e).Waiting?
    ensures e == RunEscalated(Advance(p, e).token, Advance(p, e).index, Advance(p, e).escalations)
  {
  }

  /** One call's events, from a phase in which a step may start, reach a resting phase. */
  lemma CallReachesRest(cfg: Config, route: Route, runId: string, opening: Event, p: Phase, i: nat,
                        results: seq<StepResult>, current: Output, escalations: nat, token: nat)
    requires i == |results| <= |route.plan| && escalations <= Cap(cfg)
    requires forall k :: 0 <= k < |results| ==> results[k].status.Completed?
    requires Advance(p, opening) == Ready(i, escalations)
    ensures var r := Loop(cfg, route, runId, i, results, current, escalations, token);
            var q := Scan(p, [opening] + r.events + Closing(r));
            && (q.Ended? || q.Waiting?) && q.escalations <= Cap(cfg)
            && (r.envelope.Some? ==> EnvelopeOk(cfg, r.envelope.value) && r.envelope.value.token == token
                                     && r.envelope.value.runId == runId && q == WaitingFor(r.envelope.value))
  {
    hide Loop, Scan;
    var r := Loop(cfg, route, runId, i, results, current, escalations, token);
    LoopKeepsGrammar(cfg, route, runId, i, results, current, escalations, token);
    ScanConcat(p, [opening] + r.events, Closing(r));
    ScanConcat(p, [opening], r.events);
    ScanOne(p, opening);
    var before := Scan(Ready(i, escalations), r.events);
    if r.status.RunPaused? {
      ScanNothing(before);
    } else {
      ScanOne(before, RunCompleted(r.status, |r.results|));
    }
  }

  /** Replacing one run's stream and filing at most one fresh envelope keeps the invariant. */
  lemma FilingKeepsInv(cfg: Config, s: State, runId: string, events: seq<Event>, r: LoopResult)
    requires forall t :: t in s.pending ==> PendingOk(cfg, s, t) && s.pending[t].runId != runId
    requires forall x :: x in s.streams && x != runId ==> StreamOk(cfg, s.streams[x])
    requires StreamOk(cfg, Stream(s, runId) + events)
    requires r.envelope.Some? ==> EnvelopeOk(cfg, r.envelope.value) && r.envelope.value.token == s.nextToken
                                  && r.envelope.value.runId == runId
                                  && Scan(Fresh, Stream(s, runId) + events) == WaitingFor(r.envelope.value)
    ensures Inv(cfg, File(Emit(s, runId, events), r))
  {
    var t := File(Emit(s, runId, events), r);
    forall k | k in t.pending ensures PendingOk(cfg, t, k) {
      if k in s.pending && k != s.nextToken { assert PendingOk(cfg, s, k); }
    }
  }

  datatype Call = DispatchCall(route: Route, runId: string) | ResumeCall(token: nat, response: Response)

  /** Run ids are fresh when a dispatch starts. */
  predicate Legal(s: State, c: Call) { c.DispatchCall? ==> c.runId !in s.streams }

  function Perform(cfg: Config, s: State, c: Call): State
    requires StoreWellFormed(s)
  {
    match c
    case DispatchCall(route, runId) => DispatchSpec(cfg, s, route, runId).0
    case ResumeCall(token, response) => ResumeSpec(cfg, s, token, response).0
  }

  lemma DispatchKeepsInv(cfg: Config, s: State, route: Route, runId: string)
    requires Inv(cfg, s) && runId !in s.streams
    ensures Inv(cfg, DispatchSpec(cfg, s, route, runId).0)
  {
    forall t | t in s.pending ensures PendingOk(cfg, s, t) && s.pending[t].runId != runId {
      assert PendingOk(cfg, s, t);
    }
    if Routable(route) {
      var r := Loop(cfg, route, runId, 0, [], NoOutput, 0, s.nextToken);
      CallReachesRest(cfg, route, runId, RunStarted, Fresh, 0, [], NoOutput, 0, s.nextToken);
      assert Stream(s, runId) + ([RunStarted] + r.events + Closing(r)) == [RunStarted] + r.events + Closing(r);
      FilingKeepsInv(cfg, s, runId, [RunStarted] + r.events + Closing(r), r);
    } else {
      var events := [RunStarted, RunCompleted(RunFailed, 0)];
      ScanTwo(Fresh, RunStarted, RunCompleted(RunFailed, 0));
      assert Stream(s, runId) + events == events;
      FilingKeepsInv(cfg, s, runId, events, LoopResult(RunFailed, [], NoOutput, [], None));
    }
  }

  /** Taking an envelope keeps the invariant, and no other envelope belongs to its run: a stream
      waits for one token at a time. */
  lemma TakingKeepsInv(cfg: Config, s: State, token: nat)
    requires Inv(cfg, s) && token in s.pending
    ensures var taken := s.(pending := s.pending - {token});
            && Inv(cfg, taken) && PendingOk(cfg, s, token)
            && forall t :: t in taken.pending ==> taken.pending[t].runId != s.pending[token].runId
  {
    hide Scan;
    assert PendingOk(cfg, s, token);
    var taken := s.(pending := s.pending - {token});
    forall t | t in taken.pending ensures PendingOk(cfg, taken, t) && taken.pending[t].runId != s.pending[token].runId {
      assert PendingOk(cfg, s, t);
    }
  }

  function ClosingEvent(e: Envelope, response: Response): Event
    requires WellFormed(e)
  {
    var patched := Patch(e.results, response);
    StepCompleted(e.stepIndex, StepId(e.stepIndex, e.route.plan[e.stepIndex]), patched[|patched| - 1].executorKind)
  }

  /** The stretch an accepted response starts: it closes the step that escalated and runs on. */
  lemma AcceptedStretch(cfg: Config, stream: seq<Event>, e: Envelope, response: Response, token: nat)
    requires WellFormed(e) && EnvelopeOk(cfg, e) && Scan(Fresh, stream) == WaitingFor(e)
    ensures var r := Loop(cfg, e.route, e.runId, e.stepIndex + 1, Patch(e.results, response), Answer(response), e.escalationCount, token);
            var events := [ClosingEvent(e, response)] + r.events + Closing(r);
            && StreamOk(cfg, stream + events)
            && (r.envelope.Some? ==> EnvelopeOk(cfg, r.envelope.value) && r.envelope.value.token == token
                                     && r.envelope.value.runId == e.runId
                                     && Scan(Fresh, stream + events) == WaitingFor(r.envelope.value))
  {
    hide Loop, Scan, StepId;
    var patched := Patch(e.results, response);
    var closed := ClosingEvent(e, response);
    var r := Loop(cfg, e.route, e.runId, e.stepIndex + 1, patched, Answer(response), e.escalationCount, token);
    assert Advance(WaitingFor(e), closed) == Ready(e.stepIndex + 1, e.escalationCount);
    CallReachesRest(cfg, e.route, e.runId, closed, WaitingFor(e), e.stepIndex + 1, patched, Answer(response), e.escalationCount, token);
    ScanConcat(Fresh, stream, [closed] + r.events + Closing(r));
  }

  lemma {:induction false} ResumeKeepsInv(cfg: Config, s: State, token: nat, response: Response)
    requires Inv(cfg, s) && StoreWellFormed(s)
    ensures Inv(cfg, ResumeSpec(cfg, s, token, response).0)
  {
    if token in s.pending {
      TakingKeepsInv(cfg, s, token);
      var e := s.pending[token];
      var taken := s.(pending := s.pending - {token});
      if response.accepted {
        AcceptedStretch(cfg, s.streams[e.runId], e, response, s.nextToken);
        var r := Loop(cfg, e.route, e.runId, e.stepIndex + 1, Patch(e.results, response), Answer(response), e.escalationCount, s.nextToken);
        hide Loop, Scan, StreamOk, EnvelopeOk, Patch;
        FilingKeepsInv(cfg, taken, e.runId, [ClosingEvent(e, response)] + r.events + Closing(r), r);
      }
    }
  }

  predicate AllLegal(cfg: Config, s: State, calls: seq<Call>)
    decreases |calls|
  {
    calls == [] ||
    (StoreWellFormed(s) && Legal(s, calls[0]) && AllLegal(cfg, Perform(cfg, s, calls[0]), calls[1..]))
  }

  function PerformAll(cfg: Config, s: State, calls: seq<Call>): State
    requires AllLegal(cfg, s, calls)
    decreases |calls|
  {
    if calls == [] then s else PerformAll(cfg, Perform(cfg, s, calls[0]), calls[1..])
  }

  lemma {:induction false} HistoryKeepsInv(cfg: Config, s: State, calls: seq<Call>)
    requires Inv(cfg, s) && AllLegal(cfg, s, calls)
    ensures Inv(cfg, PerformAll(cfg, s, calls))
    decreases |calls|
  {
    if calls != [] {
      match calls[0] {
        case DispatchCall(route, runId) => DispatchKeepsInv(cfg, s, route, runId);
        case ResumeCall(token, response) => ResumeKeepsInv(cfg, s, token, response);
      }
      HistoryKeepsInv(cfg, Perform(cfg, s, calls[0]), calls[1..]);
    }
  }

  /** Over any history of dispatches and resumes, of any number of runs and whatever the executors
      and responses do: every run's stream is a lifecycle stream at rest, in its one `RunCompleted`
      or in a pause, with every other started step closed exactly once, and it escalates at most
      `max_escalations` times. */
  lemma {:induction false} StreamsFollowLifecycle(cfg: Config, calls: seq<Call>, runId: string)
    requires AllLegal(cfg, EMPTY, calls)
    requires runId in PerformAll(cfg, EMPTY, calls).streams
    ensures var events := PerformAll(cfg, EMPTY, calls).streams[runId];
            && Lifecycle(events) && events != []
            && (events[|events| - 1].RunCompleted? || events[|events| - 1].RunEscalated?)
            && (forall i: nat :: CountCloses(events, i) ==
                  if i < CountStarts(events) && !(events[|events| - 1].RunEscalated? && i == events[|events| - 1].stepIndex) then 1 else 0)
            && CountEscalations(events) <= Cap(cfg)
  {
    HistoryKeepsInv(cfg, EMPTY, calls);
    var events := PerformAll(cfg, EMPTY, calls).streams[runId];
    assert StreamOk(cfg, events);
    hide *;
    StreamAtRest(cfg, events);
    forall i: nat
      ensures CountCloses(events, i) ==
                if i < CountStarts(events) && !(events[|events| - 1].RunEscalated? && i == events[|events| - 1].stepIndex) then 1 else 0
    {
      StepsAtRest(events, i);
    }
  }

  lemma StreamAtRest(cfg: Config, events: seq<Event>)
    requires StreamOk(cfg, events)
    ensures Lifecycle(events) && events != [] && CountEscalations(events) <= Cap(cfg)
    ensures events[|events| - 1].RunCompleted? || events[|events| - 1].RunEscalated?
  {
    GrammarMeansLifecycle(events);
    hide Scan, Lifecycle, CountEscalations, CountStarts;
  }

  /** Every envelope that is ever waiting has `step_index + 1` results, all but the last one
      COMPLETED, and is the continuation its run's stream is waiting for. */
  lemma EnvelopesAreConsistent(cfg: Config, calls: seq<Call>, token: nat)
    requires AllLegal(cfg, EMPTY, calls)
    requires token in PerformAll(cfg, EMPTY, calls).pending
    ensures var s := PerformAll(cfg, EMPTY, calls);
            var e := s.pending[token];
            && |e.results| == e.stepIndex + 1 && e.stepIndex < |e.route.plan|
            && AllButLastCompleted(e.results) && NeedsHelp(e.results[e.stepIndex])
            && e.runId in s.streams && s.streams[e.runId] != []
            && s.streams[e.runId][|s.streams[e.runId]| - 1] == RunEscalated(token, e.stepIndex, e.escalationCount)
  {
    HistoryKeepsInv(cfg, EMPTY, calls);
    var s := PerformAll(cfg, EMPTY, calls);
    assert PendingOk(cfg, s, token);
    hide PerformAll, Inv, Scan, StoreWellFormed;
    var events := s.streams[s.pending[token].runId];
    ScanLast(Fresh, events);
    WaitingComesFromEscalation(Scan(Fresh, events[..|events| - 1]), events[|events| - 1]);
  }

  // ---------------------------------------------------------------- single-use tokens

  lemma CallNeverRevives(cfg: Config, s: State, c: Call, token: nat)
    requires StoreWellFormed(s) && token < s.nextToken && token !in s.pending
    requires forall t :: t in s.pending ==> t < s.nextToken
    ensures var t := Perform(cfg, s, c);
            && token !in t.pending && s.nextToken <= t.nextToken && forall k :: k in t.pending ==> k < t.nextToken
  {
    hide Loop, Patch, Stream, Answer, StepId, Report, Closing;
    match c {
      case DispatchCall(route, runId) =>
        if Routable(route) {
          LoopToken(cfg, route, runId, 0, [], NoOutput, 0, s.nextToken);
          FilingNeverRevives(s.pending, s, Loop(cfg, route, runId, 0, [], NoOutput, 0, s.nextToken), token);
        }
      case ResumeCall(k, response) =>
        if k in s.pending && response.accepted {
          var e := s.pending[k];
          LoopToken(cfg, e.route, e.runId, e.stepIndex + 1, Patch(e.results, response), Answer(response), e.escalationCount, s.nextToken);
          FilingNeverRevives(s.pending - {k}, s, Loop(cfg, e.route, e.runId, e.stepIndex + 1, Patch(e.results, response),
                                                      Answer(response), e.escalationCount, s.nextToken), token);
        }
    }
  }

  lemma FilingNeverRevives(pending: map<nat, Envelope>, s: State, r: LoopResult, token: nat)
    requires token < s.nextToken && token !in pending && forall t :: t in pending ==> t < s.nextToken
    requires r.envelope.Some? ==> r.envelope.value.token == s.nextToken
    ensures forall streams :: var t := File(State(pending, streams, s.nextToken), r);
              && token !in t.pending && s.nextToken <= t.nextToken && forall k :: k in t.pending ==> k < t.nextToken
  {
  }

  lemma {:induction false} LoopToken(cfg: Config, route: Route, runId: string, i: nat, results: seq<StepResult>,
                                     current: Output, escalations: int, token: nat)
    ensures var r := Loop(cfg, route, runId, i, results, current, escalations, token);
            r.envelope.Some? ==> r.envelope.value.token == token && r.envelope.value.runId == runId
    decreases |route.plan| - i
  {
    if i < |route.plan| {
      var t := Try(cfg, route.mission, runId, i, route.plan[i], current, Outputs(results));
      if t.result.status.Completed? {
        LoopToken(cfg, route, runId, i + 1, results + [t.result], t.result.output, escalations, token);
      }
    }
  }

  lemma {:induction false} ConsumedStaysConsumed(cfg: Config, s: State, calls: seq<Call>, token: nat)
    requires AllLegal(cfg, s, calls) && token < s.nextToken && token !in s.pending
    requires forall t :: t in s.pending ==> t < s.nextToken
    ensures token !in PerformAll(cfg, s, calls).pending
    decreases |calls|
  {
    if calls != [] {
      CallNeverRevives(cfg, s, calls[0], token);
      ConsumedStaysConsumed(cfg, Perform(cfg, s, calls[0]), calls[1..], token);
    }
  }

  /** A resume takes the token out of the store, whether the response is accepted or not. */
  lemma {:induction false} ResumeSpendsToken(cfg: Config, s: State, token: nat, response: Response)
    requires Inv(cfg, s) && StoreWellFormed(s) && token in s.pending
    ensures var t := ResumeSpec(cfg, s, token, response).0;
            Inv(cfg, t) && token !in t.pending && token < t.nextToken && forall k :: k in t.pending ==> k < t.nextToken
  {
    ResumeKeepsInv(cfg, s, token, response);
    assert PendingOk(cfg, s, token);
    var t := ResumeSpec(cfg, s, token, response).0;
    forall k | k in t.pending ensures k < t.nextToken { assert PendingOk(cfg, t, k); }
    if response.accepted {
      var e := s.pending[token];
      LoopToken(cfg, e.route, e.runId, e.stepIndex + 1, Patch(e.results, response), Answer(response), e.escalationCount, s.nextToken);
    }
    hide Loop, Patch;
  }

  /** No token is consumed twice: once a resume has taken it, accepted or not, every later resume
      with it is refused and changes nothing. */
  lemma {:induction false} TokenIsSingleUse(cfg: Config, s: State, token: nat, first: Response, calls: seq<Call>, second: Response)
    requires Inv(cfg, s) && token in s.pending
    requires calls != [] && calls[0] == ResumeCall(token, first) && AllLegal(cfg, s, calls)
    ensures var t := PerformAll(cfg, s, calls);
            && Inv(cfg, t) && StoreWellFormed(t)
            && ResumeSpec(cfg, t, token, second).0 == t
            && ResumeSpec(cfg, t, token, second).1.status.RunFailed?
  {
    hide Loop, Patch, Inv, StoreWellFormed;
    ResumeSpendsToken(cfg, s, token, first);
    var t := Perform(cfg, s, calls[0]);
    var later := calls[1..];
    HistoryKeepsInv(cfg, t, later);
    ConsumedStaysConsumed(cfg, t, later, token);
    InvMeansWellFormed(cfg, PerformAll(cfg, t, later));
    RefusedResume(cfg, PerformAll(cfg, t, later), token, second);
  }

  lemma RefusedResume(cfg: Config, t: State, token: nat, response: Response)
    requires StoreWellFormed(t) && token !in t.pending
    ensures ResumeSpec(cfg, t, token, response).0 == t && ResumeSpec(cfg, t, token, response).1.status.RunFailed?
  {
    hide Loop;
  }

  // ---------------------------------------------------------------- what a resume does to its stream

  predicate NoEnvelope(s: State, runId: string) { forall t :: t in s.pending ==> s.pending[t].runId != runId }

  /** Resuming a pending token extends its run's stream if and only if the response is accepted, and
      touches no other stream. */
  lemma ResumeExtendsExactly(cfg: Config, s: State, token: nat, response: Response)
    requires Inv(cfg, s) && StoreWellFormed(s) && token in s.pending
    ensures var runId, t := s.pending[token].runId, ResumeSpec(cfg, s, token, response).0;
            && runId in s.streams && runId in t.streams
            && (s.streams[runId] < t.streams[runId] <==> response.accepted)
            && (!response.accepted ==> t.streams == s.streams)
            && (forall r :: r in s.streams && r != runId ==> r in t.streams && t.streams[r] == s.streams[r])
  {
    hide Loop, Patch, Scan;
    assert PendingOk(cfg, s, token);
  }

  /** A run without an envelope is over: no legal call changes its stream or gives it one. */
  lemma CallKeepsStream(cfg: Config, s: State, c: Call, runId: string)
    requires StoreWellFormed(s) && Legal(s, c) && runId in s.streams && NoEnvelope(s, runId)
    ensures var t := Perform(cfg, s, c);
            runId in t.streams && t.streams[runId] == s.streams[runId] && NoEnvelope(t, runId)
  {
    hide Loop, Patch;
    match c {
      case DispatchCall(route, other) =>
        if Routable(route) {
          LoopToken(cfg, route, other, 0, [], NoOutput, 0, s.nextToken);
        }
      case ResumeCall(k, response) =>
        if k in s.pending && response.accepted {
          var e := s.pending[k];
          LoopToken(cfg, e.route, e.runId, e.stepIndex + 1, Patch(e.results, response), Answer(response), e.escalationCount, s.nextToken);
        }
    }
  }

  lemma {:induction false} FinishedRunsStay(cfg: Config, s: State, calls: seq<Call>, runId: string)
    requires AllLegal(cfg, s, calls) && runId in s.streams && NoEnvelope(s, runId)
    ensures var t := PerformAll(cfg, s, calls);
            runId in t.streams && t.streams[runId] == s.streams[runId] && NoEnvelope(t, runId)
    decreases |calls|
  {
    hide Perform, NoEnvelope, StoreWellFormed, Legal;
    if calls != [] {
      CallKeepsStream(cfg, s, calls[0], runId);
      FinishedRunsStay(cfg, Perform(cfg, s, calls[0]), calls[1..], runId);
    }
  }

  /** A rejected resume ends its run where it paused: whatever legal calls follow, the stream still
      ends in its `RunEscalated`, never gets a `RunCompleted`, and no envelope of the run remains. */
  lemma RejectedRunIsOver(cfg: Config, s: State, token: nat, response: Response, calls: seq<Call>)
    requires Inv(cfg, s) && token in s.pending && !response.accepted
    requires calls != [] && calls[0] == ResumeCall(token, response) && AllLegal(cfg, s, calls)
    ensures var t, e := PerformAll(cfg, s, calls), s.pending[token];
            && e.runId in s.streams && e.runId in t.streams && t.streams[e.runId] == s.streams[e.runId] != []
            && t.streams[e.runId][|t.streams[e.runId]| - 1] == RunEscalated(token, e.stepIndex, e.escalationCount)
            && (forall k :: 0 <= k < |t.streams[e.runId]| ==> !t.streams[e.runId][k].RunCompleted?)
            && NoEnvelope(t, e.runId)
  {
    hide Inv, Scan, Loop, AllLegal, PendingOk, PerformAll, StoreWellFormed, ContinueSpec;
    var e := s.pending[token];
    TakingKeepsInv(cfg, s, token);
    StreamAtPause(cfg, s, token);
    RestIsLegal(cfg, s, calls);
    var t := Perform(cfg, s, calls[0]);
    assert t == s.(pending := s.pending - {token});
    hide Perform;
    FinishedRunsStay(cfg, t, calls[1..], e.runId);
  }

  lemma RestIsLegal(cfg: Config, s: State, calls: seq<Call>)
    requires AllLegal(cfg, s, calls) && calls != []
    ensures StoreWellFormed(s) && AllLegal(cfg, Perform(cfg, s, calls[0]), calls[1..])
    ensures PerformAll(cfg, s, calls) == PerformAll(cfg, Perform(cfg, s, calls[0]), calls[1..])
  {
  }

  lemma StreamAtPause(cfg: Config, s: State, token: nat)
    requires Inv(cfg, s) && token in s.pending
    ensures var e := s.pending[token];
            && e.runId in s.streams && s.streams[e.runId] != []
            && s.streams[e.runId][|s.streams[e.runId]| - 1] == RunEscalated(token, e.stepIndex, e.escalationCount)
            && (forall k :: 0 <= k < |s.streams[e.runId]| ==> !s.streams[e.runId][k].RunCompleted?)
  {
    assert PendingOk(cfg, s, token);
    var events := s.streams[s.pending[token].runId];
    ScanLast(Fresh, events);
    WaitingComesFromEscalation(Scan(Fresh, events[..|events| - 1]), events[|events| - 1]);
    GrammarMeansLifecycle(events);
    hide Scan, Lifecycle;
    StartsAndEndsOnce(events);
  }

  // ---------------------------------------------------------------- pausing changes nothing

  /** What one uninterrupted pass over the plan shows: status and output of each step. */
  datatype Verdict = Verdict(status: Status, output: Output)

  datatype Pass = Pass(verdicts: seq<Verdict>, output: Output, status: DispatchStatus)

  function Show(results: seq<StepResult>): (v: seq<Verdict>)
    ensures |v| == |results|
    ensures forall i :: 0 <= i < |v| ==> v[i] == Verdict(results[i].status, results[i].output)
  {
    seq(|results|, i requires 0 <= i < |results| => Verdict(results[i].status, results[i].output))
  }

  /** What one step comes to, by the registry from position `k` on: the first executor that is able
      answers, with its invocation resolved if it wants one. */
  function Reference(cfg: Config, r: Request, earlier: seq<Output>, k: nat): Verdict
    decreases |cfg.executors| - k
  {
    if k >= |cfg.executors| then Verdict(Failed, NoOutput)
    else
      var ex := cfg.executors[k];
      if !ex.canHandle(r.step) || (r.step.boundary.OutOfProcess? && !ex.boundaryAware) then Reference(cfg, r, earlier, k + 1)
      else if !ex.needsInvocation(r.step) then
        Verdict(ex.execute(r, earlier).status, ex.execute(r, earlier).output)
      else
        match cfg.resolve(r.step, r.mission, r.previous, earlier)
        case Err(_) => Verdict(AssistanceRequired, NoOutput)
        case Ok(invocation) =>
          var res := ex.execute(r.(step := r.step.(invocation := Some(invocation))), earlier);
          Verdict(res.status, res.output)
  }

  lemma {:induction false} ReferenceIsSelected(cfg: Config, r: Request, earlier: seq<Output>, k: nat)
    requires k <= |cfg.executors|
    ensures var e := SelectExecutor(cfg.executors[k..], r.step);
            Reference(cfg, r, earlier, k) ==
              if e.None? then Verdict(Failed, NoOutput)
              else if !e.value.needsInvocation(r.step) then Verdict(e.value.execute(r, earlier).status, e.value.execute(r, earlier).output)
              else
                match cfg.resolve(r.step, r.mission, r.previous, earlier)
                case Err(_) => Verdict(AssistanceRequired, NoOutput)
                case Ok(invocation) =>
                  var res := e.value.execute(r.(step := r.step.(invocation := Some(invocation))), earlier);
                  Verdict(res.status, res.output)
    decreases |cfg.executors| - k
  {
    if k < |cfg.executors| {
      assert cfg.executors[k..][0] == cfg.executors[k] && cfg.executors[k..][1..] == cfg.executors[k + 1..];
      ReferenceIsSelected(cfg, r, earlier, k + 1);
    }
  }

  lemma TryIsReference(cfg: Config, mission: string, runId: string, i: nat, step: Step, previous: Output, earlier: seq<Output>)
    ensures var res := Try(cfg, mission, runId, i, step, previous, earlier).result;
            Verdict(res.status, res.output) == Reference(cfg, Request(mission, step, previous, runId, StepId(i, step)), earlier, 0)
  {
    ReferenceIsSelected(cfg, Request(mission, step, previous, runId, StepId(i, step)), earlier, 0);
    assert cfg.executors[0..] == cfg.executors;
  }

  /** The reference: a plain fold over the plan with no tokens, envelopes or events, in which an
      escalating step simply returns COMPLETED with the next answer. `allowance` is how many
      escalations are still allowed; without an answer left the pass stops and waits. */
  function Uninterrupted(cfg: Config, route: Route, runId: string, i: nat, current: Output, earlier: seq<Output>,
                         answers: seq<Response>, allowance: int): Pass
    decreases |route.plan| - i
  {
    if i >= |route.plan| then Pass([], current, RunSucceeded)
    else
      var res := Reference(cfg, Request(route.mission, route.plan[i], current, runId, StepId(i, route.plan[i])), earlier, 0);
      if res.status.Completed? then
        var rest := Uninterrupted(cfg, route, runId, i + 1, res.output, earlier + [res.output], answers, allowance);
        rest.(verdicts := [Verdict(Completed, res.output)] + rest.verdicts)
      else if res.status.Failed? || allowance <= 0 then Pass([Verdict(Failed, res.output)], current, RunFailed)
      else if answers == [] then Pass([Verdict(res.status, res.output)], current, RunPaused)
      else
        var answer := TextOutput(if answers[0].answer != "" then answers[0].answer else "Assistance provided.");
        var rest := Uninterrupted(cfg, route, runId, i + 1, answer, earlier + [answer], answers[1..], allowance - 1);
        rest.(verdicts := [Verdict(Completed, answer)] + rest.verdicts)
  }

  /** A caller that resumes a paused run with each answer in turn. */
  function Drive(cfg: Config, s: State, result: DispatchResult, answers: seq<Response>): DispatchResult
    requires Inv(cfg, s)
    decreases |answers|
  {
    if answers == [] || result.token.None? then result
    else
      InvMeansWellFormed(cfg, s);
      ResumeKeepsInv(cfg, s, result.token.value, answers[0]);
      var (t, next) := ResumeSpec(cfg, s, result.token.value, answers[0]);
      Drive(cfg, t, next, answers[1..])
  }

  function DispatchAndDrive(cfg: Config, s: State, route: Route, runId: string, answers: seq<Response>): DispatchResult
    requires Inv(cfg, s) && runId !in s.streams
  {
    DispatchKeepsInv(cfg, s, route, runId);
    var (t, first) := DispatchSpec(cfg, s, route, runId);
    Drive(cfg, t, first, answers)
  }

  /** A loop result agrees with the fold from where it started; when it pauses and an answer is
      at hand, it is the fold from after the pause that must complete it. */
  predicate Matches(cfg: Config, route: Route, runId: string, shown: seq<Verdict>, r: LoopResult, p: Pass, answers: seq<Response>) {
    if r.envelope.None? || answers == [] then
      Show(r.results) == shown + p.verdicts && r.output == p.output && r.status == p.status
    else
      var e := r.envelope.value;
      && e.results != []
      && var q := Uninterrupted(cfg, route, runId, e.stepIndex + 1, Answer(answers[0]), Outputs(Patch(e.results, answers[0])),
                                answers[1..], cfg.maxEscalations - e.escalationCount);
         && shown + p.verdicts == Show(Patch(e.results, answers[0])) + q.verdicts
         && p.output == q.output && p.status == q.status
  }

  lemma ShowAppend(results: seq<StepResult>, r: StepResult)
    ensures Show(results + [r]) == Show(results) + [Verdict(r.status, r.output)]
    ensures Outputs(results + [r]) == Outputs(results) + [r.output]
  {
  }

  lemma ShowPatched(results: seq<StepResult>, r: StepResult, answer: Response)
    ensures Show(Patch(results + [r], answer)) == Show(results) + [Verdict(Completed, Answer(answer))]
    ensures Outputs(Patch(results + [r], answer)) == Outputs(results) + [Answer(answer)]
  {
    assert (results + [r])[..|results|] == results;
  }

  /** The fold at a step that does not complete by itself. */
  lemma FoldAtStop(cfg: Config, route: Route, runId: string, i: nat, current: Output, earlier: seq<Output>,
                   answers: seq<Response>, allowance: int, res: StepResult)
    requires i < |route.plan| && !res.status.Completed?
    requires Verdict(res.status, res.output)
             == Reference(cfg, Request(route.mission, route.plan[i], current, runId, StepId(i, route.plan[i])), earlier, 0)
    ensures Uninterrupted(cfg, route, runId, i, current, earlier, answers, allowance) ==
            if !NeedsHelp(res) || allowance <= 0 then Pass([Verdict(Failed, res.output)], current, RunFailed)
            else if answers == [] then Pass([Verdict(res.status, res.output)], current, RunPaused)
            else
              var rest := Uninterrupted(cfg, route, runId, i + 1, Answer(answers[0]), earlier + [Answer(answers[0])], answers[1..], allowance - 1);
              rest.(verdicts := [Verdict(Completed, Answer(answers[0]))] + rest.verdicts)
  {
    hide Reference, StepId;
  }

  /** A paused stop, once its step is patched, leaves the fold the rest of the plan. */
  lemma PauseMatches(cfg: Config, route: Route, runId: string, i: nat, results: seq<StepResult>,
                     escalations: int, answers: seq<Response>, res: StepResult, r: LoopResult, p: Pass)
    requires answers != [] && r.envelope.Some? && r.envelope.value.stepIndex == i && r.envelope.value.results == results + [res]
    requires r.envelope.value.escalationCount == escalations + 1
    requires var rest := Uninterrupted(cfg, route, runId, i + 1, Answer(answers[0]), Outputs(results) + [Answer(answers[0])], answers[1..],
                                       cfg.maxEscalations - escalations - 1);
             p == rest.(verdicts := [Verdict(Completed, Answer(answers[0]))] + rest.verdicts)
    ensures Matches(cfg, route, runId, Show(results), r, p, answers)
  {
    hide Uninterrupted, Answer, Patch, Outputs, Show;
    ShowPatched(results, res, answers[0]);
    var rest := Uninterrupted(cfg, route, runId, i + 1, Answer(answers[0]), Outputs(results) + [Answer(answers[0])], answers[1..],
                              cfg.maxEscalations - escalations - 1);
    assert Show(results) + [Verdict(Completed, Answer(answers[0]))] + rest.verdicts == Show(results) + p.verdicts;
  }

  lemma StopMatches(cfg: Config, route: Route, runId: string, i: nat, results: seq<StepResult>,
                    current: Output, escalations: nat, token: nat, answers: seq<Response>, t: Attempt)
    requires i == |results| < |route.plan|
    requires t == Try(cfg, route.mission, runId, i, route.plan[i], current, Outputs(results)) && !t.result.status.Completed?
    ensures Matches(cfg, route, runId, Show(results),
                    Stop(cfg, route, runId, i, results, current, escalations, token, t),
                    Uninterrupted(cfg, route, runId, i, current, Outputs(results), answers, cfg.maxEscalations - escalations), answers)
  {
    TryIsReference(cfg, route.mission, runId, i, route.plan[i], current, Outputs(results));
    FoldAtStop(cfg, route, runId, i, current, Outputs(results), answers, cfg.maxEscalations - escalations, t.result);
    hide Try, Loop, StepId, FailureEvent, Reference, Uninterrupted, Answer, Show, Outputs;
    ShowAppend(results, t.result);
    ShowAppend(results, CapExceeded(cfg, t.result));
    if NeedsHelp(t.result) && escalations < cfg.maxEscalations && answers != [] {
      PauseMatches(cfg, route, runId, i, results, escalations, answers, t.result,
                   Stop(cfg, route, runId, i, results, current, escalations, token, t),
                   Uninterrupted(cfg, route, runId, i, current, Outputs(results), answers, cfg.maxEscalations - escalations));
    }
  }

  lemma AdvanceMatches(cfg: Config, route: Route, runId: string, shown: seq<Verdict>, v: Verdict, opening: seq<Event>,
                       r: LoopResult, p: Pass, answers: seq<Response>)
    requires Matches(cfg, route, runId, shown + [v], r, p, answers)
    ensures Matches(cfg, route, runId, shown, After(opening, r), p.(verdicts := [v] + p.verdicts), answers)
  {
    assert shown + [v] + p.verdicts == shown + ([v] + p.verdicts);
  }

  /** From any step boundary the loop is the plain fold, up to the first step that needs help. */
  lemma {:induction false} LoopIsPass(cfg: Config, route: Route, runId: string, i: nat, results: seq<StepResult>,
                                      current: Output, escalations: nat, token: nat, answers: seq<Response>)
    requires i == |results| <= |route.plan|
    ensures Matches(cfg, route, runId, Show(results),
                    Loop(cfg, route, runId, i, results, current, escalations, token),
                    Uninterrupted(cfg, route, runId, i, current, Outputs(results), answers, cfg.maxEscalations - escalations), answers)
    decreases |route.plan| - i
  {
    hide Try, Matches, Reference;
    if i >= |route.plan| {
      EndMatches(cfg, route, runId, i, results, current, escalations, token, answers);
    } else {
      var t := Try(cfg, route.mission, runId, i, route.plan[i], current, Outputs(results));
      TryIsReference(cfg, route.mission, runId, i, route.plan[i], current, Outputs(results));
      if t.result.status.Completed? {
        var id := StepId(i, route.plan[i]);
        var v := Verdict(Completed, t.result.output);
        LoopIsPass(cfg, route, runId, i + 1, results + [t.result], t.result.output, escalations, token, answers);
        ShowAppend(results, t.result);
        AdvanceMatches(cfg, route, runId, Show(results), v,
                       [StepStarted(i, id, t.startKind), StepCompleted(i, id, t.endKind)],
                       Loop(cfg, route, runId, i + 1, results + [t.result], t.result.output, escalations, token),
                       Uninterrupted(cfg, route, runId, i + 1, t.result.output, Outputs(results + [t.result]), answers, cfg.maxEscalations - escalations), answers);
      } else {
        StopMatches(cfg, route, runId, i, results, current, escalations, token, answers, t);
      }
    }
  }

  lemma EndMatches(cfg: Config, route: Route, runId: string, i: nat, results: seq<StepResult>,
                   current: Output, escalations: nat, token: nat, answers: seq<Response>)
    requires i >= |route.plan|
    ensures Matches(cfg, route, runId, Show(results),
                    Loop(cfg, route, runId, i, results, current, escalations, token),
                    Uninterrupted(cfg, route, runId, i, current, Outputs(results), answers, cfg.maxEscalations - escalations), answers)
  {
    assert Show(results) + [] == Show(results);
  }

  /** Driving on from a filed pause gives what the fold gives from there. */
  lemma {:induction false} DriveIsPass(cfg: Config, s: State, route: Route, runId: string, i: nat, results: seq<StepResult>,
                                       current: Output, escalations: nat, token: nat, answers: seq<Response>)
    requires Inv(cfg, s)
    requires i == |results| <= |route.plan| && escalations <= Cap(cfg)
    requires forall k :: 0 <= k < |results| ==> results[k].status.Completed?
    requires forall a :: a in answers ==> a.accepted
    requires var r := Loop(cfg, route, runId, i, results, current, escalations, token);
             r.envelope.Some? ==> token in s.pending && s.pending[token] == r.envelope.value
    ensures var r := Loop(cfg, route, runId, i, results, current, escalations, token);
            var d := Drive(cfg, s, Report(route.mission, runId, r), answers);
            var p := Uninterrupted(cfg, route, runId, i, current, Outputs(results), answers, cfg.maxEscalations - escalations);
            Show(d.results) == Show(results) + p.verdicts && d.finalOutput == p.output && d.status == p.status
    decreases |answers|
  {
    var r := Loop(cfg, route, runId, i, results, current, escalations, token);
    hide Try, Loop, Uninterrupted, Scan;
    hide Inv, Show;
    LoopIsPass(cfg, route, runId, i, results, current, escalations, token, answers);
    LoopKeepsGrammar(cfg, route, runId, i, results, current, escalations, token);
    if r.envelope.Some? && answers != [] {
      var e := r.envelope.value;
      InvMeansWellFormed(cfg, s);
      ResumeKeepsInv(cfg, s, token, answers[0]);
      var (t, next) := ResumeSpec(cfg, s, token, answers[0]);
      var patched := Patch(e.results, answers[0]);
      forall a | a in answers[1..] ensures a.accepted { assert a in answers; }
      assert answers[0] in answers;
      LoopToken(cfg, route, runId, e.stepIndex + 1, patched, Answer(answers[0]), e.escalationCount, s.nextToken);
      DriveIsPass(cfg, t, route, runId, e.stepIndex + 1, patched, Answer(answers[0]), e.escalationCount, s.nextToken, answers[1..]);
    }
  }

  /** A dispatch paused any number of times and resumed with accepted answers has the statuses,
      outputs and final output of one uninterrupted pass in which each escalated step returned
      COMPLETED with its answer, including where the cap cuts it off or answers run out. */
  lemma PausingChangesNothing(cfg: Config, s: State, route: Route, runId: string, answers: seq<Response>)
    requires Inv(cfg, s) && runId !in s.streams && (route.status.Normal? || route.status.Degraded?)
    requires forall a :: a in answers ==> a.accepted
    ensures var last := DispatchAndDrive(cfg, s, route, runId, answers);
            var p := Uninterrupted(cfg, route, runId, 0, NoOutput, [], answers, cfg.maxEscalations);
            && Show(last.results) == p.verdicts
            && last.finalOutput == p.output
            && last.status == p.status
  {
    hide Inv, Loop, Uninterrupted, Drive, Scan;
    var (t, first) := DispatchSpec(cfg, s, route, runId);
    DispatchKeepsInv(cfg, s, route, runId);
    LoopToken(cfg, route, runId, 0, [], NoOutput, 0, s.nextToken);
    DriveIsPass(cfg, t, route, runId, 0, [], NoOutput, 0, s.nextToken, answers);
    var p := Uninterrupted(cfg, route, runId, 0, NoOutput, [], answers, cfg.maxEscalations);
    assert Show([]) + p.verdicts == p.verdicts && Outputs([]) == [];
  }
}
