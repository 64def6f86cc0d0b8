/** For-else blocks (deterministic_code_trace.py:101-110). The tracer drops them; a run that never
    gets into one is traced faithfully, and only such a run is traced step by step. */
module TracerElse {
  import opened Common
  import opened CodeTracer
  import opened TracerSemantics

  /** The machine is about to run a for-else block that is not empty. */
  predicate EntersElse(m: Machine) {
    m.Running? && m.todo != [] && m.todo[0].Rest? && m.todo[0].values == [] && m.todo[0].orelse != []
  }

  function StripFrame(f: Frame): Frame {
    match f
    case Do(s) => Do(DropElse(s))
    case Rest(x, values, body, _) => Rest(x, values, DropElses(body), [])
  }

  function StripFrames(todo: seq<Frame>): (r: seq<Frame>)
    ensures |r| == |todo| && forall i :: 0 <= i < |r| ==> r[i] == StripFrame(todo[i])
  {
    seq(|todo|, i requires 0 <= i < |todo| => StripFrame(todo[i]))
  }

  /** The machine with every for-else block removed from what is to be done. */
  function Strip(m: Machine): Machine {
    if m.Running? then Running(StripFrames(m.todo), m.st) else m
  }

  lemma StripConcat(a: seq<Frame>, b: seq<Frame>)
    ensures StripFrames(a + b) == StripFrames(a) + StripFrames(b)
  {
  }

  lemma {:induction false} DropElsesAt(body: seq<Stmt>, i: nat)
    requires i < |body|
    ensures DropElses(body)[i] == DropElse(body[i])
  {
    if i > 0 {
      DropElsesAt(body[1..], i - 1);
    }
  }

  lemma StripBody(body: seq<Stmt>)
    ensures StripFrames(Frames(body)) == Frames(DropElses(body))
  {
    forall i | 0 <= i < |body| ensures StripFrames(Frames(body))[i] == Frames(DropElses(body))[i] {
      DropElsesAt(body, i);
    }
  }

  /** One step keeps the stripped machine in step exactly when it does not enter an else-block. */
  lemma StepInStep(m: Machine, py: Operators)
    requires !Final(m)
    ensures !Final(Strip(m))
    ensures Strip(Step(m, py)) == Step(Strip(m), py) <==> !EntersElse(m)
  {
    var rest := m.todo[1..];
    assert StripFrames(m.todo)[1..] == StripFrames(rest);
    match m.todo[0] {
      case Rest(x, values, body, orelse) => RestInStep(x, values, body, orelse, rest, m.st);
      case Do(If(test, body, orelse)) =>
        var b := EvalBool(test, m.st.env, py);
        if b.Ok? {
          var chosen := if b.value then body else orelse;
          StripConcat(Frames(chosen), rest);
          StripBody(chosen);
        }
      case Do(For(target, iter, body, orelse)) =>
        var it := Eval(iter, m.st.env, py);
        if target.Some? && it.Ok? && it.value.Range? {
          var f := Rest(target.value, RangeValues(it.value.start, it.value.stop, it.value.step), body, orelse);
          StripConcat([f], rest);
          assert StripFrames([f]) == [StripFrame(f)];
        }
      case Do(_) =>
    }
  }

  lemma RestInStep(x: string, values: seq<Value>, body: seq<Stmt>, orelse: seq<Stmt>, rest: seq<Frame>, st: State)
    ensures StripFrames(Frames(orelse) + rest) == Frames([]) + StripFrames(rest) <==> orelse == []
    ensures values != [] ==>
              var more := [Rest(x, values[1..], body, orelse)];
              StripFrames(Frames(body) + more + rest)
              == Frames(DropElses(body)) + [Rest(x, values[1..], DropElses(body), [])] + StripFrames(rest)
  {
    StripConcat(Frames(orelse), rest);
    if values != [] {
      var more := [Rest(x, values[1..], body, orelse)];
      StripConcat(Frames(body) + more, rest);
      StripConcat(Frames(body), more);
      StripBody(body);
      assert StripFrames(more) == [StripFrame(more[0])];
    }
  }

  lemma OneMoreStep(m: Machine, k: nat, py: Operators)
    ensures var mk := Steps(m, k, py); Steps(m, k + 1, py) == if Final(mk) then mk else Step(mk, py)
  {
    StepsAdd(m, k, 1, py);
    var mk := Steps(m, k, py);
    if !Final(mk) {
      assert Steps(mk, 1, py) == Steps(Step(mk, py), 0, py);
    }
  }

  lemma FinalStrip(m: Machine)
    ensures Final(Strip(m)) <==> Final(m)
  {
  }

  ghost predicate NeverEntersElse(m: Machine, n: nat, py: Operators) {
    forall k: nat :: k < n ==> !EntersElse(Steps(m, k, py))
  }

  ghost predicate InStep(m: Machine, n: nat, py: Operators) {
    forall k: nat :: k <= n ==> Strip(Steps(m, k, py)) == Steps(Strip(m), k, py)
  }

  lemma {:induction false} NeverEntersIsInStep(m: Machine, n: nat, py: Operators, k: nat)
    requires NeverEntersElse(m, n, py) && k <= n
    ensures Strip(Steps(m, k, py)) == Steps(Strip(m), k, py)
  {
    if k > 0 {
      NeverEntersIsInStep(m, n, py, k - 1);
      OneMoreStep(m, k - 1, py);
      OneMoreStep(Strip(m), k - 1, py);
      var before := Steps(m, k - 1, py);
      FinalStrip(before);
      if !Final(before) { StepInStep(before, py); }
    }
  }

  /** The machine on the program and the machine on its form without for-else blocks, which is what
      the tracer computes, go step by step together exactly as long as no else-block is entered. */
  lemma InStepExactly(m: Machine, n: nat, py: Operators)
    ensures InStep(m, n, py) <==> NeverEntersElse(m, n, py)
  {
    hide Step, Strip, Steps;
    if NeverEntersElse(m, n, py) {
      forall k: nat | k <= n ensures Strip(Steps(m, k, py)) == Steps(Strip(m), k, py) { NeverEntersIsInStep(m, n, py, k); }
    }
    if InStep(m, n, py) {
      forall k: nat | k < n ensures !EntersElse(Steps(m, k, py)) {
        OneMoreStep(m, k, py);
        OneMoreStep(Strip(m), k, py);
        var mk := Steps(m, k, py);
        FinalStrip(mk);
        assert Strip(mk) == Steps(Strip(m), k, py) && Strip(Steps(m, k + 1, py)) == Steps(Strip(m), k + 1, py);
        if !Final(mk) { StepInStep(mk, py); }
      }
    }
  }

  /** A run of the reference semantics that never enters a for-else block ends in what the tracer
      computes, whether or not the program has such blocks. */
  lemma UnenteredElseIsHarmless(program: seq<Stmt>, py: Operators, n: nat)
    requires var m := Running(Frames(program), State(map[], [])); Final(Steps(m, n, py)) && NeverEntersElse(m, n, py)
    ensures Steps(Running(Frames(program), State(map[], [])), n, py) == Arrival(ExecBody(program, State(map[], []), py), [])
  {
    hide Step, Steps, ExecBody;
    var st := State(map[], []);
    var m := Running(Frames(program), st);
    NeverEntersIsInStep(m, n, py, n);
    StripBody(program);
    FinalStrip(Steps(m, n, py));
    var k := SimBody(program, st, [], py);
    assert Frames(DropElses(program)) + [] == Frames(DropElses(program));
    ArrivalUnique(Strip(m), k, n, py);
  }
}
