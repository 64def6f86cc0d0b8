/** Background jobs of one remote node (dispatch/executors/remote_ssh.py).

    Every submitted job has its own worker thread; callers poll, wait and cancel from other
    threads. The threads are modelled as a transition system whose actions are the atomic
    operations of the code, interleaved in any order and for any number of jobs and cancel
    calls. What the remote process does is an arbitrary result. */
module RemoteJobs {

  import opened Common

  /** What `_finish` publishes: the structured "never spawned" result, or whatever the
      process round trip returned. */
  datatype JobResult = CancelledBeforeStart | Executed(outcome: nat)

  // ---------------------------------------------------------------- one handle

  /** The fields of a RemoteJobHandle that threads share. */
  datatype Handle = Handle(cancelled: bool, started: bool, captured: bool, result: Option<JobResult>, done: bool)

  const FRESH_HANDLE := Handle(false, false, false, None, false)

  /** What `poll` answers. */
  function Poll(h: Handle): Option<JobResult> { if h.done then h.result else None }

  // The atomic writes to a handle: what both the methods of a handle object and the actions of the
  // transition system do to it.

  function Started(h: Handle): Handle { h.(started := true) }

  function Captured(h: Handle): Handle { h.(captured := true) }

  function Stored(h: Handle, r: JobResult): Handle { h.(result := Some(r)) }

  function Raised(h: Handle): Handle { h.(done := true) }

  function Cancelled(h: Handle): Handle { h.(cancelled := true) }

  /** A handle object. */
  class RemoteJobHandle {
    var cancelled: bool
    var started: bool
    var captured: bool
    var result: Option<JobResult>
    var done: bool

    ghost function View(): Handle
      reads this
    {
      Handle(cancelled, started, captured, result, done)
    }

    constructor ()
      ensures View() == FRESH_HANDLE
    {
      cancelled, started, captured, result, done := false, false, false, None, false;
    }

    method MarkStarted()
      modifies this
      ensures View() == Started(old(View()))
    {
      started := true;
    }

    method CaptureProc()
      modifies this
      ensures View() == Captured(old(View()))
    {
      captured := true;
    }

    /** The result is written before the done flag is raised, so no reader can see the flag
        without the result. */
    method Finish(r: JobResult)
      modifies this
      ensures View() == Raised(Stored(old(View()), r))
      ensures Poll(View()) == Some(r)
    {
      result := Some(r);
      done := true;
    }

    /** An answer is the published result of a finished job, never one that is stored but not yet
        published. That a finished job has one is part of `ResultIsFinal`. */
    method PollResult() returns (r: Option<JobResult>)
      ensures r == Poll(View())
      ensures r.Some? ==> done && r == result
      ensures (done ==> result.Some?) ==> (r.Some? <==> done)
    {
      if done {
        return result;
      }
      r := None;
    }

    /** `cancel` run without interference: a kill is sent exactly when a process was captured
        and the job is not done yet. `killable` is whether the operating system accepts it. */
    method Cancel(killable: bool) returns (sent: bool)
      modifies this
      ensures View() == Cancelled(old(View()))
      ensures sent <==> old(captured) && !old(done) && killable
    {
      cancelled := true;
      var proc := captured;
      if !proc || done {
        return false;
      }
      sent := killable;
    }
  }

  // ---------------------------------------------------------------- the transition system

  /** Where a worker thread stands in `_run`. */
  datatype WorkerPc =
    | Queued                          // waiting at the concurrency gate
    | Holding                         // gate acquired, `cancelled` not read yet
    | Admitted                        // read `cancelled` as false
    | Starting                        // marked started, process not spawned
    | Spawned                         // process spawned, not captured
    | Running                         // process captured
    | Finishing(r: JobResult)         // result computed, not published
    | Publishing                      // result stored, done flag not raised
    | Releasing                       // done, gate still held
    | Exited

  datatype Job = Job(pc: WorkerPc, h: Handle)

  /** Where a caller stands in `cancel`. */
  datatype CancelPc = Entered | Flagged | ReadProc(captured: bool) | Returned(answer: bool)

  datatype CancelCall = CancelCall(job: nat, pc: CancelPc)

  datatype System = System(max: nat, permits: int, jobs: seq<Job>, cancels: seq<CancelCall>)

  datatype Action =
    | Submit
    | Acquire(j: nat) | CheckCancelled(j: nat) | MarkStarted(j: nat)
    | Spawn(j: nat, spawnFailure: Option<nat>) | Capture(j: nat) | Communicate(j: nat, outcome: nat)
    | StoreResult(j: nat) | RaiseDone(j: nat) | Release(j: nat)
    | EnterCancel(j: nat) | SetFlag(c: nat) | ReadCaptured(c: nat) | Kill(c: nat, accepted: bool)

  predicate IsWorkerAction(a: Action) {
    !a.Submit? && !a.EnterCancel? && !a.SetFlag? && !a.ReadCaptured? && !a.Kill?
  }

  predicate Enabled(s: System, a: Action) {
    if a.Submit? then true
    else if a.EnterCancel? then a.j < |s.jobs|
    else if a.SetFlag? then a.c < |s.cancels| && s.cancels[a.c].pc.Entered? && s.cancels[a.c].job < |s.jobs|
    else if a.ReadCaptured? then a.c < |s.cancels| && s.cancels[a.c].pc.Flagged? && s.cancels[a.c].job < |s.jobs|
    else if a.Kill? then a.c < |s.cancels| && s.cancels[a.c].pc.ReadProc? && s.cancels[a.c].job < |s.jobs|
    else
      a.j < |s.jobs| &&
      var pc := s.jobs[a.j].pc;
      match a
      case Acquire(_) => pc.Queued? && s.permits > 0
      case CheckCancelled(_) => pc.Holding?
      case MarkStarted(_) => pc.Admitted?
      case Spawn(_, _) => pc.Starting?
      case Capture(_) => pc.Spawned?
      case Communicate(_, _) => pc.Running?
      case StoreResult(_) => pc.Finishing?
      case RaiseDone(_) => pc.Publishing?
      case Release(_) => pc.Releasing?
  }

  /** The worker's effect on its own job. */
  function WorkerStep(j: Job, a: Action): Job {
    match a
    case Acquire(_) => j.(pc := Holding)
    case CheckCancelled(_) => j.(pc := if j.h.cancelled then Finishing(CancelledBeforeStart) else Admitted)
    case MarkStarted(_) => Job(Starting, Started(j.h))
    case Spawn(_, failure) =>
      // A failed spawn is a structured result and nothing is captured.
      j.(pc := if failure.Some? then Finishing(Executed(failure.value)) else Spawned)
    case Capture(_) => Job(Running, Captured(j.h))
    case Communicate(_, outcome) => j.(pc := Finishing(Executed(outcome)))
    case StoreResult(_) => if j.pc.Finishing? then Job(Publishing, Stored(j.h, j.pc.r)) else j
    case RaiseDone(_) => Job(Releasing, Raised(j.h))
    case Release(_) => j.(pc := Exited)
    case _ => j
  }

  function Step(s: System, a: Action): System
    requires Enabled(s, a)
  {
    match a
    case Submit => s.(jobs := s.jobs + [Job(Queued, FRESH_HANDLE)])
    case EnterCancel(j) => s.(cancels := s.cancels + [CancelCall(j, Entered)])
    case SetFlag(c) =>
      var j := s.cancels[c].job;
      s.(jobs := s.jobs[j := s.jobs[j].(h := Cancelled(s.jobs[j].h))],
         cancels := s.cancels[c := CancelCall(j, Flagged)])
    case ReadCaptured(c) =>
      var j := s.cancels[c].job;
      s.(cancels := s.cancels[c := CancelCall(j, ReadProc(s.jobs[j].h.captured))])
    case Kill(c, accepted) =>
      var j := s.cancels[c].job;
      var sent := s.cancels[c].pc.captured && !s.jobs[j].h.done && accepted;
      s.(cancels := s.cancels[c := CancelCall(j, Returned(sent))])
    case _ =>
      var moved := s.(jobs := s.jobs[a.j := WorkerStep(s.jobs[a.j], a)]);
      if a.Acquire? then moved.(permits := s.permits - 1)
      else if a.Release? then moved.(permits := s.permits + 1)
      else moved
  }

  /** A run: every action enabled where it happens. */
  predicate Possible(s: System, run: seq<Action>)
    decreases |run|
  {
    run == [] || (Enabled(s, run[0]) && Possible(Step(s, run[0]), run[1..]))
  }

  function After(s: System, run: seq<Action>): System
    requires Possible(s, run)
    decreases |run|
  {
    if run == [] then s else After(Step(s, run[0]), run[1..])
  }

  /** The system moves a handle only by the writes of its methods, each by the one thread that makes
      it: no action of another job touches it, and reading leaves it alone. */
  lemma StepsAreHandleWrites(s: System, a: Action, i: nat)
    requires Enabled(s, a) && i < |s.jobs|
    ensures var h := s.jobs[i].h;
            Step(s, a).jobs[i].h ==
              if a == MarkStarted(i) then Started(h)
              else if a == Capture(i) then Captured(h)
              else if a == StoreResult(i) then Stored(h, s.jobs[i].pc.r)
              else if a == RaiseDone(i) then Raised(h)
              else if a.SetFlag? && s.cancels[a.c].job == i then Cancelled(h)
              else h
  {
  }

  /** The two writes of `Finish`, when nothing comes between them, are the method. */
  lemma FinishIsTwoSteps(s: System, j: nat)
    requires j < |s.jobs| && s.jobs[j].pc.Finishing?
    ensures var run := [StoreResult(j), RaiseDone(j)];
            && Possible(s, run)
            && After(s, run) == s.(jobs := s.jobs[j := Job(Releasing, Raised(Stored(s.jobs[j].h, s.jobs[j].pc.r)))])
  {
    var run := [StoreResult(j), RaiseDone(j)];
    TwoSteps(s, run[0], run[1]);
  }

  /** A cancel call that nothing interrupts is the method: the flag is raised, nothing else changes,
      and the answer is true exactly for a captured, unfinished, killable process. */
  lemma CancelIsFourSteps(s: System, j: nat, accepted: bool)
    requires j < |s.jobs|
    ensures var c, h := |s.cancels|, s.jobs[j].h;
            var run := [EnterCancel(j), SetFlag(c)] + [ReadCaptured(c), Kill(c, accepted)];
            && Possible(s, run)
            && After(s, run) == s.(jobs := s.jobs[j := s.jobs[j].(h := Cancelled(h))],
                                   cancels := s.cancels + [CancelCall(j, Returned(h.captured && !h.done && accepted))])
  {
    var c, h := |s.cancels|, s.jobs[j].h;
    var first, second := [EnterCancel(j), SetFlag(c)], [ReadCaptured(c), Kill(c, accepted)];
    var flagged := s.(jobs := s.jobs[j := s.jobs[j].(h := Cancelled(h))], cancels := s.cancels + [CancelCall(j, Flagged)]);
    CancelRaisesFlag(s, j);
    CancelAnswers(flagged, c, accepted);
    RunThenRun(s, first, second);
    hide Possible, After, Step, Enabled;
    assert flagged.cancels[c := CancelCall(j, Returned(h.captured && !h.done && accepted))]
        == s.cancels + [CancelCall(j, Returned(h.captured && !h.done && accepted))];
  }

  lemma CancelRaisesFlag(s: System, j: nat)
    requires j < |s.jobs|
    ensures var run := [EnterCancel(j), SetFlag(|s.cancels|)];
            && Possible(s, run)
            && After(s, run) == s.(jobs := s.jobs[j := s.jobs[j].(h := Cancelled(s.jobs[j].h))],
                                   cancels := s.cancels + [CancelCall(j, Flagged)])
  {
    var c := |s.cancels|;
    var entered := s.(cancels := s.cancels + [CancelCall(j, Entered)]);
    assert Enabled(s, EnterCancel(j)) && Step(s, EnterCancel(j)) == entered;
    FlagStep(entered, c);
    TwoSteps(s, EnterCancel(j), SetFlag(c));
    hide Possible, After, Enabled, Step;
    assert entered.cancels[c := CancelCall(j, Flagged)] == s.cancels + [CancelCall(j, Flagged)];
  }

  lemma FlagStep(s: System, c: nat)
    requires c < |s.cancels| && s.cancels[c].pc.Entered? && s.cancels[c].job < |s.jobs|
    ensures Enabled(s, SetFlag(c))
    ensures var j := s.cancels[c].job;
            Step(s, SetFlag(c)) == s.(jobs := s.jobs[j := s.jobs[j].(h := Cancelled(s.jobs[j].h))], cancels := s.cancels[c := CancelCall(j, Flagged)])
  {
  }

  lemma CancelAnswers(s: System, c: nat, accepted: bool)
    requires c < |s.cancels| && s.cancels[c].pc.Flagged? && s.cancels[c].job < |s.jobs|
    ensures var run, j := [ReadCaptured(c), Kill(c, accepted)], s.cancels[c].job;
            && Possible(s, run)
            && After(s, run) == s.(cancels := s.cancels[c := CancelCall(j, Returned(s.jobs[j].h.captured && !s.jobs[j].h.done && accepted))])
  {
    TwoSteps(s, ReadCaptured(c), Kill(c, accepted));
  }

  lemma TwoSteps(s: System, a: Action, b: Action)
    requires Enabled(s, a) && Enabled(Step(s, a), b)
    ensures Possible(s, [a, b]) && After(s, [a, b]) == Step(Step(s, a), b)
  {
    hide Enabled, Step;
    var s1, s2 := Step(s, a), Step(Step(s, a), b);
    assert [a, b][1..] == [b] && [b][1..] == [];
    assert Possible(s2, []) && After(s2, []) == s2;
    assert Possible(s1, [b]) && After(s1, [b]) == s2;
  }

  lemma {:induction false} RunThenRun(s: System, first: seq<Action>, second: seq<Action>)
    requires Possible(s, first) && Possible(After(s, first), second)
    ensures Possible(s, first + second) && After(s, first + second) == After(After(s, first), second)
    decreases |first|
  {
    hide Enabled, Step;
    if first == [] {
      assert first + second == second;
    } else {
      RunThenRun(Step(s, first[0]), first[1..], second);
      assert (first + second)[1..] == first[1..] + second;
    }
  }

  /** `RemoteSSHExecutor.__init__` refuses a limit below one. */
  function Start(maxConcurrent: int): Option<System> {
    if maxConcurrent < 1 then None else Some(System(maxConcurrent, maxConcurrent, [], []))
  }

  // ---------------------------------------------------------------- counting

  predicate HoldsGate(j: Job) { !j.pc.Queued? && !j.pc.Exited? }

  predicate IsActive(j: Job) { j.h.started && !j.h.done }

  function Count(jobs: seq<Job>, p: Job -> bool): nat {
    if jobs == [] then 0 else (if p(jobs[0]) then 1 else 0) + Count(jobs[1..], p)
  }

  lemma {:induction false} CountUpdate(jobs: seq<Job>, i: nat, j: Job, p: Job -> bool)
    requires i < |jobs|
    ensures Count(jobs[i := j], p) == Count(jobs, p) - (if p(jobs[i]) then 1 else 0) + (if p(j) then 1 else 0)
  {
    if i == 0 {
      assert jobs[0 := j] == [j] + jobs[1..];
    } else {
      CountUpdate(jobs[1..], i - 1, j, p);
      assert jobs[i := j][1..] == jobs[1..][i - 1 := j];
    }
  }

  lemma {:induction false} CountAppend(jobs: seq<Job>, j: Job, p: Job -> bool)
    ensures Count(jobs + [j], p) == Count(jobs, p) + (if p(j) then 1 else 0)
  {
    if jobs == [] {
    } else {
      CountAppend(jobs[1..], j, p);
      assert (jobs + [j])[1..] == jobs[1..] + [j];
    }
  }

  lemma {:induction false} CountMonotone(jobs: seq<Job>, p: Job -> bool, q: Job -> bool)
    requires forall i :: 0 <= i < |jobs| && p(jobs[i]) ==> q(jobs[i])
    ensures Count(jobs, p) <= Count(jobs, q)
  {
    if jobs != [] {
      forall i | 0 <= i < |jobs[1..]| && p(jobs[1..][i]) ensures q(jobs[1..][i]) {
        assert jobs[1..][i] == jobs[i + 1];
      }
      CountMonotone(jobs[1..], p, q);
    }
  }

  lemma {:induction false} CountPositive(jobs: seq<Job>, p: Job -> bool)
    ensures Count(jobs, p) > 0 <==> exists i :: 0 <= i < |jobs| && p(jobs[i])
  {
    if jobs != [] && !p(jobs[0]) {
      CountPositive(jobs[1..], p);
      if i :| 0 <= i < |jobs| && p(jobs[i]) {
        assert jobs[1..][i - 1] == jobs[i];
      }
    }
  }

  // ---------------------------------------------------------------- the invariant

  /** How a job's shared fields agree with where its worker stands. */
  predicate JobConsistent(j: Job) {
    var h := j.h;
    && (h.started ==> !j.pc.Queued? && !j.pc.Holding? && !j.pc.Admitted?)
    && (h.captured ==> h.started && !j.pc.Starting? && !j.pc.Spawned?)
    && (h.done <==> j.pc.Releasing? || j.pc.Exited?)
    && (h.result.Some? <==> j.pc.Publishing? || j.pc.Releasing? || j.pc.Exited?)
    && (j.pc.Starting? || j.pc.Spawned? || j.pc.Running? ==> h.started)
    && (j.pc.Running? ==> h.captured)
    && (j.pc == Finishing(CancelledBeforeStart) || h.result == Some(CancelledBeforeStart) ==> h.cancelled && !h.started)
    && (j.pc.Finishing? && j.pc.r.Executed? ==> h.started)
    && (h.result.Some? && h.result.value.Executed? ==> h.started)
  }

  predicate CancelConsistent(s: System, c: CancelCall) {
    && c.job < |s.jobs|
    && (!c.pc.Entered? ==> s.jobs[c.job].h.cancelled)
    && (c.pc == ReadProc(true) || c.pc == Returned(true) ==> s.jobs[c.job].h.captured)
  }

  ghost predicate Inv(s: System) {
    && s.max >= 1
    && s.permits >= 0
    && s.permits + Count(s.jobs, HoldsGate) == s.max
    && (forall i :: 0 <= i < |s.jobs| ==> JobConsistent(s.jobs[i]))
    && (forall c :: 0 <= c < |s.cancels| ==> CancelConsistent(s, s.cancels[c]))
  }

  /** Fields only grow and the published result is never replaced. */
  predicate Evolves(a: Job, b: Job) {
    && (a.h.cancelled ==> b.h.cancelled)
    && (a.h.started ==> b.h.started)
    && (a.h.captured ==> b.h.captured)
    && (a.h.done ==> b.h.done)
    && (a.h.result.Some? ==> b.h.result == a.h.result)
    // Cancelled before the worker's check: it never becomes admitted.
    && (a.h.cancelled && NotAdmitted(a) ==> NotAdmitted(b))
  }

  /** The worker has not passed its `cancelled` check, or passed it towards the skip. */
  predicate NotAdmitted(j: Job) {
    && !j.h.started && !j.h.captured
    && !j.pc.Admitted? && !j.pc.Starting? && !j.pc.Spawned? && !j.pc.Running?
    && (j.pc.Finishing? ==> j.pc.r == CancelledBeforeStart)
    && (j.h.result.Some? ==> j.h.result.value == CancelledBeforeStart)
  }

  lemma WorkerStepEvolves(s: System, a: Action)
    requires Enabled(s, a) && IsWorkerAction(a) && JobConsistent(s.jobs[a.j])
    ensures JobConsistent(WorkerStep(s.jobs[a.j], a))
    ensures Evolves(s.jobs[a.j], WorkerStep(s.jobs[a.j], a))
  {
  }

  lemma StepKeepsGate(s: System, a: Action)
    requires Inv(s) && Enabled(s, a)
    ensures Step(s, a).max == s.max && Step(s, a).permits >= 0
    ensures Step(s, a).permits + Count(Step(s, a).jobs, HoldsGate) == s.max
  {
    if a.Submit? {
      CountAppend(s.jobs, Job(Queued, FRESH_HANDLE), HoldsGate);
    } else if a.SetFlag? {
      var j := s.cancels[a.c].job;
      CountUpdate(s.jobs, j, Step(s, a).jobs[j], HoldsGate);
    } else if IsWorkerAction(a) {
      CountUpdate(s.jobs, a.j, WorkerStep(s.jobs[a.j], a), HoldsGate);
    }
  }

  ghost predicate AllEvolve(s: seq<Job>, t: seq<Job>) {
    && |s| <= |t|
    && (forall i :: 0 <= i < |t| ==> JobConsistent(t[i]))
    && (forall i :: 0 <= i < |s| ==> Evolves(s[i], t[i]))
  }

  lemma StepEvolvesJobs(s: System, a: Action)
    requires Inv(s) && Enabled(s, a)
    ensures AllEvolve(s.jobs, Step(s, a).jobs)
  {
    if IsWorkerAction(a) {
      WorkerStepEvolves(s, a);
    }
  }

  lemma StepKeepsCancels(s: System, a: Action)
    requires Inv(s) && Enabled(s, a)
    requires AllEvolve(s.jobs, Step(s, a).jobs)
    ensures var t := Step(s, a); forall c :: 0 <= c < |t.cancels| ==> CancelConsistent(t, t.cancels[c])
  {
    var t := Step(s, a);
    forall c | 0 <= c < |t.cancels| ensures CancelConsistent(t, t.cancels[c]) {
      if c < |s.cancels| {
        assert CancelConsistent(s, s.cancels[c]);
        assert t.cancels[c].job == s.cancels[c].job;
        assert Evolves(s.jobs[s.cancels[c].job], t.jobs[s.cancels[c].job]);
      }
    }
  }

  /** Every action of every thread keeps the invariant and lets each job evolve. */
  lemma StepKeepsInvariant(s: System, a: Action)
    requires Inv(s) && Enabled(s, a)
    ensures Inv(Step(s, a)) && Step(s, a).max == s.max
    ensures AllEvolve(s.jobs, Step(s, a).jobs)
  {
    StepKeepsGate(s, a);
    StepEvolvesJobs(s, a);
    StepKeepsCancels(s, a);
  }

  // ---------------------------------------------------------------- safety over whole runs

  /** Free permits plus gate holders always equal the limit, in every interleaving. */
  lemma {:induction false} RunKeepsInvariant(s: System, run: seq<Action>)
    requires Inv(s) && Possible(s, run)
    ensures Inv(After(s, run)) && After(s, run).max == s.max
    ensures AllEvolve(s.jobs, After(s, run).jobs)
    decreases |run|
  {
    if run != [] {
      StepKeepsInvariant(s, run[0]);
      RunKeepsInvariant(Step(s, run[0]), run[1..]);
    }
  }

  /** At most `max_concurrent` jobs are started and not done, whatever the interleaving. */
  lemma ConcurrencyBound(maxConcurrent: int, run: seq<Action>)
    requires maxConcurrent >= 1 && Possible(Start(maxConcurrent).value, run)
    ensures var s := After(Start(maxConcurrent).value, run);
            && s.permits + Count(s.jobs, HoldsGate) == maxConcurrent
            && 0 <= s.permits
            && Count(s.jobs, IsActive) <= maxConcurrent
  {
    var s0 := Start(maxConcurrent).value;
    assert Inv(s0);
    RunKeepsInvariant(s0, run);
    var s := After(s0, run);
    CountMonotone(s.jobs, IsActive, HoldsGate);
  }

  /** The result is set once and before the done flag: what any reader is given never changes. */
  lemma ResultIsFinal(maxConcurrent: int, before: seq<Action>, after: seq<Action>, j: nat)
    requires maxConcurrent >= 1 && Possible(Start(maxConcurrent).value, before)
    requires Possible(After(Start(maxConcurrent).value, before), after)
    requires j < |After(Start(maxConcurrent).value, before).jobs|
    ensures var s := After(Start(maxConcurrent).value, before);
            var t := After(s, after);
            && j < |t.jobs|
            && (Poll(s.jobs[j].h).Some? <==> s.jobs[j].h.done)
            && (s.jobs[j].h.result.Some? ==> t.jobs[j].h.result == s.jobs[j].h.result)
            && (Poll(s.jobs[j].h).Some? ==> Poll(t.jobs[j].h) == Poll(s.jobs[j].h))
  {
    var s0 := Start(maxConcurrent).value;
    assert Inv(s0);
    RunKeepsInvariant(s0, before);
    var s := After(s0, before);
    RunKeepsInvariant(s, after);
    assert JobConsistent(s.jobs[j]);
    assert JobConsistent(After(s, after).jobs[j]);
    assert Evolves(s.jobs[j], After(s, after).jobs[j]);
  }

  /** A job whose flag is up before its worker reads it never starts, never spawns, is never
      captured, can only report "cancelled before start", and every cancel call on it answers
      false for ever. */
  lemma CancelledWhileQueuedNeverStarts(s: System, run: seq<Action>, j: nat)
    requires Inv(s) && Possible(s, run) && j < |s.jobs|
    requires s.jobs[j].h.cancelled && (s.jobs[j].pc.Queued? || s.jobs[j].pc.Holding?)
    ensures var t := After(s, run);
            && j < |t.jobs|
            && !t.jobs[j].h.started && !t.jobs[j].h.captured && !t.jobs[j].pc.Spawned?
            && (Poll(t.jobs[j].h).Some? ==> Poll(t.jobs[j].h).value == CancelledBeforeStart)
            && (forall c :: 0 <= c < |t.cancels| && t.cancels[c].job == j ==> t.cancels[c].pc != Returned(true))
  {
    RunKeepsInvariant(s, run);
    var t := After(s, run);
    assert JobConsistent(s.jobs[j]) && JobConsistent(t.jobs[j]);
    assert Evolves(s.jobs[j], t.jobs[j]);
    forall c | 0 <= c < |t.cancels| && t.cancels[c].job == j ensures t.cancels[c].pc != Returned(true) {
      assert CancelConsistent(t, t.cancels[c]);
    }
  }

  /** `cancel()` answers true only for a job whose process was captured. */
  lemma CancelTrueMeansCaptured(maxConcurrent: int, run: seq<Action>, c: nat)
    requires maxConcurrent >= 1 && Possible(Start(maxConcurrent).value, run)
    requires c < |After(Start(maxConcurrent).value, run).cancels|
    requires After(Start(maxConcurrent).value, run).cancels[c].pc == Returned(true)
    ensures var s := After(Start(maxConcurrent).value, run);
            var j := s.cancels[c].job;
            j < |s.jobs| && s.jobs[j].h.captured && s.jobs[j].h.started && s.jobs[j].h.cancelled
            && s.jobs[j].h.result != Some(CancelledBeforeStart)
  {
    var s0 := Start(maxConcurrent).value;
    assert Inv(s0);
    RunKeepsInvariant(s0, run);
    var s := After(s0, run);
    assert CancelConsistent(s, s.cancels[c]);
    assert JobConsistent(s.jobs[s.cancels[c].job]);
  }

  /** A finished job reports "never spawned" exactly when it was never marked started, and then
      someone had cancelled it. */
  lemma SkippedExactlyWhenNotStarted(maxConcurrent: int, run: seq<Action>, j: nat)
    requires maxConcurrent >= 1 && Possible(Start(maxConcurrent).value, run)
    requires j < |After(Start(maxConcurrent).value, run).jobs|
    requires Poll(After(Start(maxConcurrent).value, run).jobs[j].h).Some?
    ensures var h := After(Start(maxConcurrent).value, run).jobs[j].h;
            && (Poll(h).value == CancelledBeforeStart <==> !h.started)
            && (!h.started ==> h.cancelled && !h.captured)
  {
    var s0 := Start(maxConcurrent).value;
    assert Inv(s0);
    RunKeepsInvariant(s0, run);
    assert JobConsistent(After(s0, run).jobs[j]);
  }

  // ---------------------------------------------------------------- progress

  /** Worker actions a job still has ahead of it, at most. */
  function Remaining(j: Job): nat {
    match j.pc
    case Queued => 9
    case Holding => 8
    case Admitted => 7
    case Starting => 6
    case Spawned => 5
    case Running => 4
    case Finishing(_) => 3
    case Publishing => 2
    case Releasing => 1
    case Exited => 0
  }

  const JOB_STEPS: nat := 9

  function Work(jobs: seq<Job>): nat {
    if jobs == [] then 0 else Remaining(jobs[0]) + Work(jobs[1..])
  }

  lemma {:induction false} WorkUpdate(jobs: seq<Job>, i: nat, j: Job)
    requires i < |jobs|
    ensures Work(jobs[i := j]) == Work(jobs) - Remaining(jobs[i]) + Remaining(j)
  {
    if i == 0 {
      assert jobs[0 := j] == [j] + jobs[1..];
    } else {
      WorkUpdate(jobs[1..], i - 1, j);
      assert jobs[i := j][1..] == jobs[1..][i - 1 := j];
    }
  }

  lemma {:induction false} WorkAppend(jobs: seq<Job>, j: Job)
    ensures Work(jobs + [j]) == Work(jobs) + Remaining(j)
  {
    if jobs == [] {
    } else {
      WorkAppend(jobs[1..], j);
      assert (jobs + [j])[1..] == jobs[1..] + [j];
    }
  }

  /** A worker action uses up work; only a submission adds any. */
  lemma StepMeasure(s: System, a: Action)
    requires Enabled(s, a)
    ensures IsWorkerAction(a) ==> Work(Step(s, a).jobs) < Work(s.jobs)
    ensures !IsWorkerAction(a) ==> Work(Step(s, a).jobs) == Work(s.jobs) + (if a.Submit? then JOB_STEPS else 0)
  {
    if a.Submit? {
      WorkAppend(s.jobs, Job(Queued, FRESH_HANDLE));
    } else if a.SetFlag? {
      var j := s.cancels[a.c].job;
      WorkUpdate(s.jobs, j, Step(s, a).jobs[j]);
    } else if IsWorkerAction(a) {
      WorkerLowers(s, a);
      WorkUpdate(s.jobs, a.j, WorkerStep(s.jobs[a.j], a));
      hide WorkerStep, Remaining, Enabled, Work;
    }
  }

  lemma WorkerLowers(s: System, a: Action)
    requires Enabled(s, a) && IsWorkerAction(a)
    ensures Remaining(WorkerStep(s.jobs[a.j], a)) < Remaining(s.jobs[a.j])
  {
  }

  /** The action a gate holder's worker takes next. */
  function NextAction(j: nat, job: Job): Action {
    match job.pc
    case Queued => Acquire(j)
    case Holding => CheckCancelled(j)
    case Admitted => MarkStarted(j)
    case Starting => Spawn(j, None)
    case Spawned => Capture(j)
    case Running => Communicate(j, 0)
    case Finishing(_) => StoreResult(j)
    case Publishing => RaiseDone(j)
    case _ => Release(j)
  }

  /** No deadlock: while some worker has not exited, some worker action is enabled. */
  lemma Progress(s: System) returns (a: Action)
    requires Inv(s)
    requires exists j :: 0 <= j < |s.jobs| && !s.jobs[j].pc.Exited?
    ensures IsWorkerAction(a) && Enabled(s, a)
  {
    CountPositive(s.jobs, HoldsGate);
    if i :| 0 <= i < |s.jobs| && HoldsGate(s.jobs[i]) {
      a := NextAction(i, s.jobs[i]);
    } else {
      var j :| 0 <= j < |s.jobs| && !s.jobs[j].pc.Exited?;
      assert !HoldsGate(s.jobs[j]);
      a := Acquire(j);
    }
  }

  function CountActions(run: seq<Action>, p: Action -> bool): nat {
    if run == [] then 0 else (if p(run[0]) then 1 else 0) + CountActions(run[1..], p)
  }

  predicate IsSubmit(a: Action) { a.Submit? }

  /** Worker actions of any run are bounded by the submissions in it. */
  lemma {:induction false} WorkerActionsBounded(s: System, run: seq<Action>)
    requires Possible(s, run)
    ensures CountActions(run, IsWorkerAction) + Work(After(s, run).jobs)
            <= Work(s.jobs) + JOB_STEPS * CountActions(run, IsSubmit)
    decreases |run|
  {
    if run != [] {
      StepMeasure(s, run[0]);
      WorkerActionsBounded(Step(s, run[0]), run[1..]);
    }
  }

  ghost predicate Quiescent(s: System) {
    forall a :: IsWorkerAction(a) ==> !Enabled(s, a)
  }

  /** Every submitted job finishes: a run can only stop making worker actions when every job is
      done, holds a result, and all permits are back; and it must stop after finitely many. */
  lemma EveryJobFinishes(maxConcurrent: int, run: seq<Action>)
    requires maxConcurrent >= 1 && Possible(Start(maxConcurrent).value, run)
    ensures CountActions(run, IsWorkerAction) <= JOB_STEPS * CountActions(run, IsSubmit)
    ensures var s := After(Start(maxConcurrent).value, run);
            Quiescent(s) <==> forall j :: 0 <= j < |s.jobs| ==> s.jobs[j].pc.Exited?
    ensures var s := After(Start(maxConcurrent).value, run);
            Quiescent(s) ==>
              (s.permits == maxConcurrent && forall j :: 0 <= j < |s.jobs| ==> Poll(s.jobs[j].h).Some?)
  {
    var s0 := Start(maxConcurrent).value;
    assert Inv(s0);
    RunKeepsInvariant(s0, run);
    WorkerActionsBounded(s0, run);
    var s := After(s0, run);
    if Quiescent(s) {
      if exists j :: 0 <= j < |s.jobs| && !s.jobs[j].pc.Exited? {
        var a := Progress(s);
        assert false;
      }
      CountPositive(s.jobs, HoldsGate);
      forall j | 0 <= j < |s.jobs| ensures Poll(s.jobs[j].h).Some? {
        assert JobConsistent(s.jobs[j]);
      }
    }
  }
}
