/** What a run of remote jobs shows of its actions: every flag of a handle, and above all whose
    result a poll answers with (dispatch/executors/remote_ssh.py). */
module RemoteRuns {
  import opened Common
  import opened RemoteJobs

  // ---------------------------------------------------------------- a run tells what its jobs did

  /** What the process of job `j` returned, in the order of the run: the outcome of a finished round
      trip, or of a spawn that failed. */
  function ProcessOutcomes(run: seq<Action>, j: nat): seq<nat> {
    if run == [] then []
    else
      var before, a := ProcessOutcomes(run[..|run| - 1], j), run[|run| - 1];
      if a.Communicate? && a.j == j then before + [a.outcome]
      else if a.Spawn? && a.j == j && a.spawnFailure.Some? then before + [a.spawnFailure.value]
      else before
  }

  /** Some cancel call on job `j` has raised its flag. */
  predicate FlagRaised(s: System, j: nat) { exists c :: 0 <= c < |s.cancels| && s.cancels[c].job == j && !s.cancels[c].pc.Entered? }

  /** Where job `j` stands, in terms of the actions of the run so far. */
  ghost predicate Recorded(s: System, run: seq<Action>, j: nat)
    requires j < |s.jobs|
  {
    RecordedWorker(s.jobs[j], run, j) && (s.jobs[j].h.cancelled <==> FlagRaised(s, j))
  }

  ghost predicate RecordedWorker(job: Job, run: seq<Action>, j: nat) { RecordedFlags(job, run, j) && RecordedResult(job, run, j) }

  ghost predicate RecordedFlags(job: Job, run: seq<Action>, j: nat) { RecordedHandle(job, run, j) && RecordedPlace(job, run, j) }

  ghost predicate RecordedHandle(job: Job, run: seq<Action>, j: nat) {
    && (job.h.started <==> MarkStarted(j) in run)
    && (job.h.captured <==> Capture(j) in run)
    && (job.h.done <==> RaiseDone(j) in run)
    && (job.h.result.Some? <==> StoreResult(j) in run)
  }

  ghost predicate RecordedPlace(job: Job, run: seq<Action>, j: nat) {
    && (job.pc.Queued? <==> Acquire(j) !in run)
    && (job.pc.Exited? <==> Release(j) in run)
    && (job.pc.Queued? || job.pc.Holding? <==> CheckCancelled(j) !in run)
    && (job.pc.Spawned? || job.h.captured <==> Spawn(j, None) in run)
    && (forall o :: Communicate(j, o) in run ==> job.h.captured)
  }

  ghost predicate RecordedResult(job: Job, run: seq<Action>, j: nat) {
    var os := ProcessOutcomes(run, j);
    && (job.pc.Queued? || job.pc.Holding? || job.pc.Admitted? || job.pc.Starting? || job.pc.Spawned? || job.pc.Running? ==> os == [])
    && (job.pc.Finishing? ==> if job.pc.r.Executed? then os == [job.pc.r.outcome] else os == [])
    && (job.h.result.Some? ==> if job.h.result.value.Executed? then os == [job.h.result.value.outcome] else os == [])
  }

  /** No action of a run names a job that was not submitted. */
  ghost predicate Untouched(run: seq<Action>, j: nat) {
    && ProcessOutcomes(run, j) == []
    && forall a :: a in run && IsWorkerAction(a) ==> a.j != j
  }

  ghost predicate AllRecorded(s: System, run: seq<Action>) {
    && (forall j: nat :: j < |s.jobs| ==> Recorded(s, run, j))
    && (forall j: nat :: j >= |s.jobs| ==> Untouched(run, j))
    && (forall c :: 0 <= c < |s.cancels| ==> s.cancels[c].job < |s.jobs|)
  }

  lemma OutcomesNext(run: seq<Action>, a: Action, j: nat)
    ensures a.Communicate? && a.j == j ==> ProcessOutcomes(run + [a], j) == ProcessOutcomes(run, j) + [a.outcome]
    ensures a.Spawn? && a.j == j && a.spawnFailure.Some? ==> ProcessOutcomes(run + [a], j) == ProcessOutcomes(run, j) + [a.spawnFailure.value]
    ensures !(a.Communicate? && a.j == j) && !(a.Spawn? && a.j == j && a.spawnFailure.Some?) ==>
              ProcessOutcomes(run + [a], j) == ProcessOutcomes(run, j)
  {
    assert (run + [a])[..|run|] == run;
  }

  lemma InRunNext(run: seq<Action>, a: Action)
    ensures forall x :: x in run + [a] <==> x in run || x == a
  {
  }

  /** The one action of job `j`'s own worker. */
  lemma OwnStepIsRecorded(s: System, run: seq<Action>, a: Action)
    requires Inv(s) && AllRecorded(s, run) && Enabled(s, a) && IsWorkerAction(a)
    ensures RecordedWorker(Step(s, a).jobs[a.j], run + [a], a.j)
  {
    UseInv(s, run, a.j);
    hide Inv, AllRecorded, RecordedFlags, RecordedResult, ProcessOutcomes, Step;
    OwnFlagsRecorded(s, run, a);
    OwnResultRecorded(s, run, a);
  }

  lemma OwnFlagsRecorded(s: System, run: seq<Action>, a: Action)
    requires Enabled(s, a) && IsWorkerAction(a) && a.j < |s.jobs|
    requires JobConsistent(s.jobs[a.j]) && RecordedFlags(s.jobs[a.j], run, a.j)
    ensures RecordedFlags(Step(s, a).jobs[a.j], run + [a], a.j)
  {
    hide RecordedHandle, RecordedPlace, Step;
    OwnHandleRecorded(s, run, a);
    OwnPlaceRecorded(s, run, a);
  }

  lemma OwnHandleRecorded(s: System, run: seq<Action>, a: Action)
    requires Enabled(s, a) && IsWorkerAction(a) && a.j < |s.jobs|
    requires JobConsistent(s.jobs[a.j]) && RecordedHandle(s.jobs[a.j], run, a.j)
    ensures RecordedHandle(Step(s, a).jobs[a.j], run + [a], a.j)
  {
    InRunNext(run, a);
  }

  lemma OwnPlaceRecorded(s: System, run: seq<Action>, a: Action)
    requires Enabled(s, a) && IsWorkerAction(a) && a.j < |s.jobs|
    requires JobConsistent(s.jobs[a.j]) && RecordedPlace(s.jobs[a.j], run, a.j)
    ensures RecordedPlace(Step(s, a).jobs[a.j], run + [a], a.j)
  {
    InRunNext(run, a);
  }

  lemma OwnResultRecorded(s: System, run: seq<Action>, a: Action)
    requires Enabled(s, a) && IsWorkerAction(a) && a.j < |s.jobs|
    requires JobConsistent(s.jobs[a.j]) && RecordedResult(s.jobs[a.j], run, a.j)
    ensures RecordedResult(Step(s, a).jobs[a.j], run + [a], a.j)
  {
    OutcomesNext(run, a, a.j);
    hide ProcessOutcomes;
  }

  lemma UseInv(s: System, run: seq<Action>, j: nat)
    requires Inv(s) && AllRecorded(s, run)
    ensures j < |s.jobs| ==> JobConsistent(s.jobs[j]) && Recorded(s, run, j) && RecordedWorker(s.jobs[j], run, j)
    ensures j >= |s.jobs| ==> Untouched(run, j)
  {
    if j < |s.jobs| { assert Recorded(s, run, j); } else { assert Untouched(run, j); }
  }

  lemma OtherStepIsRecorded(s: System, run: seq<Action>, a: Action, j: nat)
    requires Inv(s) && AllRecorded(s, run) && Enabled(s, a) && j < |s.jobs|
    requires IsWorkerAction(a) ==> a.j != j
    ensures RecordedWorker(Step(s, a).jobs[j], run + [a], j)
  {
    OtherJobKept(s, a, j);
    UseInv(s, run, j);
    hide Inv, AllRecorded, ProcessOutcomes, Step, Enabled, RecordedFlags, RecordedResult, IsWorkerAction;
    OtherFlagsRecorded(s.jobs[j], run, a, j);
    OtherResultRecorded(s.jobs[j], run, a, j);
  }

  lemma OtherFlagsRecorded(job: Job, run: seq<Action>, a: Action, j: nat)
    requires RecordedFlags(job, run, j) && (IsWorkerAction(a) ==> a.j != j)
    ensures RecordedFlags(job, run + [a], j) && RecordedFlags(job.(h := Cancelled(job.h)), run + [a], j)
  {
    InRunNext(run, a);
  }

  lemma OtherResultRecorded(job: Job, run: seq<Action>, a: Action, j: nat)
    requires RecordedResult(job, run, j) && (IsWorkerAction(a) ==> a.j != j)
    ensures RecordedResult(job, run + [a], j) && RecordedResult(job.(h := Cancelled(job.h)), run + [a], j)
  {
    OutcomesNext(run, a, j);
    hide ProcessOutcomes;
  }

  lemma OtherJobKept(s: System, a: Action, j: nat)
    requires Enabled(s, a) && j < |s.jobs| && (IsWorkerAction(a) ==> a.j != j)
    ensures j < |Step(s, a).jobs|
    ensures Step(s, a).jobs[j] in {s.jobs[j], s.jobs[j].(h := Cancelled(s.jobs[j].h))}
  {
  }

  lemma NewJobIsRecorded(s: System, run: seq<Action>)
    requires AllRecorded(s, run)
    ensures RecordedWorker(Step(s, Submit).jobs[|s.jobs|], run + [Submit], |s.jobs|)
  {
    assert Untouched(run, |s.jobs|);
    assert Step(s, Submit).jobs[|s.jobs|] == Job(Queued, FRESH_HANDLE);
    hide AllRecorded, Step, Untouched;
    StaysUntouched(run, Submit, |s.jobs|);
    UntouchedIsFresh(run + [Submit], |s.jobs|);
  }

  lemma StaysUntouched(run: seq<Action>, a: Action, j: nat)
    requires Untouched(run, j) && (IsWorkerAction(a) ==> a.j != j)
    ensures Untouched(run + [a], j)
  {
    OutcomesNext(run, a, j);
    InRunNext(run, a);
    hide ProcessOutcomes;
  }

  lemma UntouchedIsFresh(run: seq<Action>, j: nat)
    requires Untouched(run, j)
    ensures RecordedWorker(Job(Queued, FRESH_HANDLE), run, j)
  {
    hide ProcessOutcomes;
  }

  lemma StepIsRecorded(s: System, run: seq<Action>, a: Action, j: nat)
    requires Inv(s) && AllRecorded(s, run) && Enabled(s, a) && j < |Step(s, a).jobs|
    ensures RecordedWorker(Step(s, a).jobs[j], run + [a], j)
  {
    if j == |s.jobs| {
      NewJobIsRecorded(s, run);
    } else if IsWorkerAction(a) && a.j == j {
      OwnStepIsRecorded(s, run, a);
    } else {
      OtherStepIsRecorded(s, run, a, j);
    }
  }

  lemma StepKeepsUntouched(s: System, run: seq<Action>, a: Action, j: nat)
    requires AllRecorded(s, run) && Enabled(s, a) && j >= |Step(s, a).jobs|
    ensures Untouched(run + [a], j)
  {
    assert Untouched(run, j);
    StaysUntouched(run, a, j);
  }

  lemma StepRaisesFlag(s: System, a: Action, j: nat)
    requires Enabled(s, a) && j < |Step(s, a).jobs|
    requires forall c :: 0 <= c < |s.cancels| ==> s.cancels[c].job < |s.jobs|
    requires forall k: nat :: k < |s.jobs| ==> (s.jobs[k].h.cancelled <==> FlagRaised(s, k))
    ensures Step(s, a).jobs[j].h.cancelled <==> FlagRaised(Step(s, a), j)
    ensures var t := Step(s, a); forall c :: 0 <= c < |t.cancels| ==> t.cancels[c].job < |t.jobs|
  {
    StepCalls(s, a);
    StepFlag(s, a, j);
    hide Step, Enabled;
    var t := Step(s, a);
    if c :| 0 <= c < |t.cancels| && t.cancels[c].job == j && !t.cancels[c].pc.Entered? {
      if a != SetFlag(c) { assert FlagRaised(s, j); }
    }
    if t.jobs[j].h.cancelled && !(a.SetFlag? && s.cancels[a.c].job == j) {
      var c :| 0 <= c < |s.cancels| && s.cancels[c].job == j && !s.cancels[c].pc.Entered?;
      assert t.cancels[c].job == j;
    }
    if a.SetFlag? && s.cancels[a.c].job == j { assert t.cancels[a.c].job == j; }
  }

  lemma StepCalls(s: System, a: Action)
    requires Enabled(s, a)
    ensures var t := Step(s, a);
            && |s.jobs| <= |t.jobs| && |s.cancels| <= |t.cancels|
            && (forall c :: 0 <= c < |s.cancels| ==> t.cancels[c].job == s.cancels[c].job)
            && (forall c :: 0 <= c < |s.cancels| ==> (t.cancels[c].pc.Entered? <==> s.cancels[c].pc.Entered? && a != SetFlag(c)))
            && (forall c :: |s.cancels| <= c < |t.cancels| ==> t.cancels[c].pc.Entered? && t.cancels[c].job < |t.jobs|)
            && (a.SetFlag? ==> a.c < |s.cancels|)
  {
  }

  lemma StepFlag(s: System, a: Action, j: nat)
    requires Enabled(s, a) && j < |Step(s, a).jobs|
    ensures Step(s, a).jobs[j].h.cancelled <==>
            (j < |s.jobs| && s.jobs[j].h.cancelled) || (a.SetFlag? && s.cancels[a.c].job == j)
  {
  }

  lemma StepKeepsRecorded(s: System, run: seq<Action>, a: Action)
    requires Inv(s) && AllRecorded(s, run) && Enabled(s, a)
    ensures AllRecorded(Step(s, a), run + [a])
  {
    var t := Step(s, a);
    forall k: nat | k < |s.jobs| ensures s.jobs[k].h.cancelled <==> FlagRaised(s, k) { assert Recorded(s, run, k); }
    forall j: nat | j < |t.jobs| ensures Recorded(t, run + [a], j) {
      StepIsRecorded(s, run, a, j);
      StepRaisesFlag(s, a, j);
    }
    forall j: nat | j >= |t.jobs| ensures Untouched(run + [a], j) { StepKeepsUntouched(s, run, a, j); }
    if |t.jobs| > 0 {
      StepRaisesFlag(s, a, 0);
    }
    hide Step;
  }

  lemma {:induction false} PrefixPossible(s: System, front: seq<Action>, a: Action)
    requires Possible(s, front + [a])
    ensures Possible(s, front) && Enabled(After(s, front), a)
    ensures After(s, front + [a]) == Step(After(s, front), a)
    decreases |front|
  {
    hide Enabled, Step;
    var run := front + [a];
    if front == [] {
      assert run == [a] && run[1..] == [];
      assert After(Step(s, a), []) == Step(s, a);
    } else {
      assert run[1..] == front[1..] + [a];
      PrefixPossible(Step(s, front[0]), front[1..], a);
    }
  }

  lemma {:induction false} RunIsRecorded(maxConcurrent: int, run: seq<Action>)
    requires maxConcurrent >= 1 && Possible(Start(maxConcurrent).value, run)
    ensures AllRecorded(After(Start(maxConcurrent).value, run), run) && Inv(After(Start(maxConcurrent).value, run))
    decreases |run|
  {
    var s0 := Start(maxConcurrent).value;
    assert Inv(s0);
    RunKeepsInvariant(s0, run);
    if run != [] {
      var front, a := run[..|run| - 1], run[|run| - 1];
      assert run == front + [a];
      PrefixPossible(s0, front, a);
      RunIsRecorded(maxConcurrent, front);
      hide Inv, AllRecorded, Possible;
      StepKeepsRecorded(After(s0, front), front, a);
    }
  }

  /** Whose result a poll answers with, over every interleaving. The process of a job returns at most
      once. A poll answers with an outcome exactly when the job is done and its own process returned
      it, and with "cancelled before start" exactly when the job is done and nothing was ever started. */
  lemma PublishedIsReturned(maxConcurrent: int, run: seq<Action>, j: nat)
    requires maxConcurrent >= 1 && Possible(Start(maxConcurrent).value, run)
    requires j < |After(Start(maxConcurrent).value, run).jobs|
    ensures var h, os := After(Start(maxConcurrent).value, run).jobs[j].h, ProcessOutcomes(run, j);
            && |os| <= 1
            && (forall o: nat :: Poll(h) == Some(Executed(o)) <==> RaiseDone(j) in run && os == [o])
            && (Poll(h) == Some(CancelledBeforeStart) <==> RaiseDone(j) in run && MarkStarted(j) !in run)
            && (RaiseDone(j) in run && MarkStarted(j) in run ==> exists o: nat :: os == [o] && Poll(h) == Some(Executed(o)))
  {
    RunIsRecorded(maxConcurrent, run);
    var s := After(Start(maxConcurrent).value, run);
    UseInv(s, run, j);
    hide Inv, AllRecorded, Possible, After, ProcessOutcomes;
    var os := ProcessOutcomes(run, j);
    if s.jobs[j].h.result.Some? && s.jobs[j].h.result.value.Executed? {
      assert os == [s.jobs[j].h.result.value.outcome];
    }
  }

  /** Every flag a caller can read is the record of one action. */
  lemma HandleShowsRun(maxConcurrent: int, run: seq<Action>, j: nat)
    requires maxConcurrent >= 1 && Possible(Start(maxConcurrent).value, run)
    requires j < |After(Start(maxConcurrent).value, run).jobs|
    ensures var s := After(Start(maxConcurrent).value, run);
            var h := s.jobs[j].h;
            && (h.started <==> MarkStarted(j) in run) && (h.captured <==> Capture(j) in run)
            && (h.done <==> RaiseDone(j) in run) && (h.result.Some? <==> StoreResult(j) in run)
            && (h.cancelled <==> exists c :: 0 <= c < |s.cancels| && s.cancels[c].job == j && !s.cancels[c].pc.Entered?)
  {
    RunIsRecorded(maxConcurrent, run);
    UseInv(After(Start(maxConcurrent).value, run), run, j);
  }

  /** The protocol of a job is gone through in its order: nothing starts that has not been let in and
      found free of cancellation, nothing is captured that was not spawned, no outcome is read from what
      was not captured, and done comes after the result and before the release. */
  lemma StagesInOrder(maxConcurrent: int, run: seq<Action>, j: nat)
    requires maxConcurrent >= 1 && Possible(Start(maxConcurrent).value, run)
    ensures CheckCancelled(j) in run ==> Acquire(j) in run
    ensures MarkStarted(j) in run ==> CheckCancelled(j) in run
    ensures Spawn(j, None) in run ==> MarkStarted(j) in run
    ensures Capture(j) in run ==> Spawn(j, None) in run
    ensures forall o :: Communicate(j, o) in run ==> Capture(j) in run
    ensures StoreResult(j) in run ==> CheckCancelled(j) in run
    ensures RaiseDone(j) in run ==> StoreResult(j) in run
    ensures Release(j) in run ==> RaiseDone(j) in run
  {
    RunIsRecorded(maxConcurrent, run);
    var s := After(Start(maxConcurrent).value, run);
    UseInv(s, run, j);
    hide Inv, AllRecorded, Possible, After, RecordedResult;
  }

  lemma {:induction false} DistinctCounted(jobs: seq<Job>, js: set<nat>)
    requires forall j :: j in js ==> j < |jobs| && IsActive(jobs[j])
    ensures |js| <= Count(jobs, IsActive)
    decreases |jobs|
  {
    hide IsActive;
    if jobs == [] {
      assert js == {};
    } else {
      var rest := Shifted(jobs, js);
      DistinctCounted(jobs[1..], rest);
    }
  }

  /** The jobs but the first, by their places among the others. */
  lemma Shifted(jobs: seq<Job>, js: set<nat>) returns (rest: set<nat>)
    requires jobs != [] && forall j :: j in js ==> j < |jobs| && IsActive(jobs[j])
    ensures forall j :: j in rest ==> j < |jobs[1..]| && IsActive(jobs[1..][j])
    ensures |js| <= |rest| + (if IsActive(jobs[0]) then 1 else 0)
  {
    hide IsActive;
    rest := set j: nat | j in js && j > 0 :: j - 1;
    forall k | k in rest ensures k < |jobs[1..]| && IsActive(jobs[1..][k]) {
      assert k + 1 in js && jobs[1..][k] == jobs[k + 1];
    }
    ShiftDown(js - {0}, rest);
    if 0 in js {
      assert js == (js - {0}) + {0};
    } else {
      assert js == js - {0};
    }
  }

  lemma {:induction false} ShiftDown(js: set<nat>, rest: set<nat>)
    requires 0 !in js && forall k: nat :: k in rest <==> k + 1 in js
    ensures |js| == |rest|
    decreases |rest|
  {
    if js != {} {
      var j :| j in js;
      var k: nat := j - 1;
      assert k in rest <==> k + 1 in js;
    }
    if rest == {} {
    } else {
      var k :| k in rest;
      ShiftDown(js - {k + 1}, rest - {k});
    }
  }

  /** However many jobs are submitted, no more than `max_concurrent` different ones are started and
      not done at the same time. */
  lemma AtMostRunning(maxConcurrent: int, run: seq<Action>, js: set<nat>)
    requires maxConcurrent >= 1 && Possible(Start(maxConcurrent).value, run)
    requires var jobs := After(Start(maxConcurrent).value, run).jobs;
             forall j :: j in js ==> j < |jobs| && jobs[j].h.started && !jobs[j].h.done
    ensures |js| <= maxConcurrent
  {
    ConcurrencyBound(maxConcurrent, run);
    DistinctCounted(After(Start(maxConcurrent).value, run).jobs, js);
  }

  /** The outcomes of a run are those of its own actions. */
  lemma {:induction false} OutcomesAreActions(run: seq<Action>, j: nat, o: nat)
    ensures o in ProcessOutcomes(run, j) <==> Communicate(j, o) in run || Spawn(j, Some(o)) in run
  {
    if run != [] {
      var front, a := run[..|run| - 1], run[|run| - 1];
      assert run == front + [a];
      OutcomesAreActions(front, j, o);
      OutcomesNext(front, a, j);
      InRunNext(front, a);
      hide ProcessOutcomes;
    }
  }

  /** The jobs there are were submitted, one each; so what the workers do is bounded by their number. */
  lemma {:induction false} SubmissionsAreJobs(s: System, run: seq<Action>)
    requires Possible(s, run)
    ensures |After(s, run).jobs| == |s.jobs| + CountActions(run, IsSubmit)
    decreases |run|
  {
    if run != [] {
      assert |Step(s, run[0]).jobs| == |s.jobs| + (if run[0].Submit? then 1 else 0);
      SubmissionsAreJobs(Step(s, run[0]), run[1..]);
    }
  }

  /** The nine actions a worker takes, from the gate to its release. */
  predicate ByWorker(a: Action) {
    || a.Acquire? || a.CheckCancelled? || a.MarkStarted? || a.Spawn? || a.Capture? || a.Communicate?
    || a.StoreResult? || a.RaiseDone? || a.Release?
  }

  lemma {:induction false} SameCount(run: seq<Action>, p: Action -> bool, q: Action -> bool)
    requires forall a :: p(a) == q(a)
    ensures CountActions(run, p) == CountActions(run, q)
  {
    if run != [] {
      SameCount(run[1..], p, q);
    }
  }

  /** A run holds at most nine actions of workers per job. */
  lemma WorkersAreBounded(maxConcurrent: int, run: seq<Action>)
    requires maxConcurrent >= 1 && Possible(Start(maxConcurrent).value, run)
    ensures CountActions(run, ByWorker) <= 9 * |After(Start(maxConcurrent).value, run).jobs|
  {
    EveryJobFinishes(maxConcurrent, run);
    SubmissionsAreJobs(Start(maxConcurrent).value, run);
    SameCount(run, ByWorker, IsWorkerAction);
  }
}
