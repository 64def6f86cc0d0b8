/** Expressions and printing as a stack machine runs them (deterministic_code_trace.py:79-145): an
    account of Python's evaluation apart from the tracer's own recursion. */
module TracerCode {
  import opened Common
  import opened CodeTracer

  // ---------------------------------------------------------------- a stack machine

  datatype Instr =
    | Push(v: Value) | Load(id: string) | Build(n: nat) | Apply(op: BinOp) | Measure | Span(n: nat)
    | Test(cmp: CmpOp) | Decide
    | Refuse                                  // a construct outside the supported subset

  /** An integer or a truth value, as Python's `range` takes it. */
  function AsInteger(v: Value): Option<int> {
    if v.Int? then Some(v.n) else if v == Bool(true) then Some(1) else if v == Bool(false) then Some(0) else None
  }

  /** `range` of a stop, of a start and a stop, or of a start, a stop and a step that is not zero. */
  function Spanned(args: seq<Value>): Result<Value, Fault> {
    match |args|
    case 1 =>
      (match AsInteger(args[0])
       case Some(stop) => Ok(Range(0, stop, 1))
       case None => Err(Raised))
    case 2 =>
      (match (AsInteger(args[0]), AsInteger(args[1]))
       case (Some(start), Some(stop)) => Ok(Range(start, stop, 1))
       case _ => Err(Raised))
    case 3 =>
      (match (AsInteger(args[0]), AsInteger(args[1]), AsInteger(args[2]))
       case (Some(start), Some(stop), Some(step)) => if step != 0 then Ok(Range(start, stop, step)) else Err(Raised)
       case _ => Err(Raised))
    case _ => Err(Raised)
  }

  /** Zero, the empty text, the empty list and a range without values are false; so is False. */
  predicate IsTrue(v: Value) {
    && v != Int(0) && v != Bool(false) && v != Str("") && v != List([])
    && (v.Range? ==> (v.step > 0 && v.start < v.stop) || (v.step < 0 && v.stop < v.start))
    && (v.Other? ==> v.truthy)
  }

  /** One instruction; the top of the stack is its last element. */
  function Do(i: Instr, stack: seq<Value>, env: Env, py: Operators): Result<seq<Value>, Fault> {
    var n := |stack|;
    match i
    case Push(v) => Ok(stack + [v])
    case Load(id) => if id in env then Ok(stack + [env[id]]) else Err(Unsupported)
    case Build(k) => if k <= n then Ok(stack[..n - k] + [List(stack[n - k..])]) else Err(Raised)
    case Apply(op) => if n < 2 then Err(Raised) else Pushed(stack[..n - 2], py.binary(op, stack[n - 2], stack[n - 1]))
    case Measure => if n < 1 then Err(Raised) else Pushed(stack[..n - 1], py.length(stack[n - 1]))
    case Span(k) => if k <= n then Pushed(stack[..n - k], Spanned(stack[n - k..])) else Err(Raised)
    case Test(cmp) =>
      if n < 2 then Err(Raised)
      else
        (match py.compare(cmp, stack[n - 2], stack[n - 1])
         case Ok(b) => Ok(stack[..n - 2] + [Bool(b)])
         case Err(f) => Err(f))
    case Decide => if n < 1 then Err(Raised) else Ok(stack[..n - 1] + [Bool(IsTrue(stack[n - 1]))])
    case Refuse => Err(Unsupported)
  }

  function Pushed(stack: seq<Value>, r: Result<Value, Fault>): Result<seq<Value>, Fault> {
    match r
    case Ok(v) => Ok(stack + [v])
    case Err(f) => Err(f)
  }

  function Run(code: seq<Instr>, stack: seq<Value>, env: Env, py: Operators): Result<seq<Value>, Fault>
    decreases |code|
  {
    if code == [] then Ok(stack)
    else
      match Do(code[0], stack, env, py)
      case Ok(next) => Run(code[1..], next, env, py)
      case Err(f) => Err(f)
  }

  lemma {:induction false} RunThenRun(a: seq<Instr>, b: seq<Instr>, stack: seq<Value>, env: Env, py: Operators)
    ensures Run(a + b, stack, env, py) == match Run(a, stack, env, py) case Ok(next) => Run(b, next, env, py) case Err(f) => Err(f)
    decreases |a|
  {
    hide Do;
    if a == [] {
      assert a + b == b;
    } else {
      assert (a + b)[1..] == a[1..] + b;
      if Do(a[0], stack, env, py).Ok? {
        RunThenRun(a[1..], b, Do(a[0], stack, env, py).value, env, py);
      }
    }
  }

  lemma RunOne(i: Instr, stack: seq<Value>, env: Env, py: Operators)
    ensures Run([i], stack, env, py) == Do(i, stack, env, py)
  {
    assert [i][1..] == [];
  }

  // ---------------------------------------------------------------- code for expressions

  /** Operands before their operator, from left to right. */
  function Code(e: Expr): seq<Instr>
    decreases e, 1
  {
    match e
    case Constant(v) => [Push(v)]
    case Name(id) => [Load(id)]
    case ListExpr(elts) => CodeAll(elts) + [Build(|elts|)]
    case Bin(op, left, right) => if op.UnsupportedBinOp? then [Refuse] else Code(left) + Code(right) + [Apply(op)]
    case CallExpr(func, args) =>
      if func == Some("range") then CodeAll(args) + [Span(|args|)]
      else if func == Some("len") && |args| == 1 then Code(args[0]) + [Measure]
      else [Refuse]
    case _ => [Refuse]
  }

  function CodeAll(es: seq<Expr>): seq<Instr>
    decreases es, 0
  {
    if es == [] then [] else Code(es[0]) + CodeAll(es[1..])
  }

  /** A condition: one comparison of the supported kind, or the truth of a value. */
  function TestCode(e: Expr): seq<Instr> {
    match e
    case Compare(first, ops, comparators) =>
      if |ops| == 1 && |comparators| == 1 && !ops[0].UnsupportedCmp? then Code(first) + Code(comparators[0]) + [Test(ops[0])] else [Refuse]
    case _ => Code(e) + [Decide]
  }

  lemma SpannedIsMakeRange(args: seq<Value>)
    ensures Spanned(args) == MakeRange(args)
  {
    if 1 <= |args| <= 3 {
      assert AsInteger(args[0]) == Index(args[0]);
    }
  }

  lemma TruthReads(v: Value)
    ensures IsTrue(v) == Truth(v)
  {
  }

  lemma ThenOne(a: seq<Instr>, last: Instr, after: Result<seq<Value>, Fault>, stack: seq<Value>, env: Env, py: Operators)
    requires Run(a, stack, env, py) == after
    ensures Run(a + [last], stack, env, py) == match after case Ok(next) => Do(last, next, env, py) case Err(f) => Err(f)
  {
    hide Do, Run;
    RunThenRun(a, [last], stack, env, py);
    if after.Ok? { RunOne(last, after.value, env, py); }
  }

  lemma ThenTwo(a: seq<Instr>, b: seq<Instr>, x: Result<Value, Fault>, y: Result<Value, Fault>, stack: seq<Value>, env: Env, py: Operators)
    requires Run(a, stack, env, py) == Pushed(stack, x)
    requires x.Ok? ==> Run(b, stack + [x.value], env, py) == Pushed(stack + [x.value], y)
    ensures Run(a + b, stack, env, py) == if x.Err? then Err(x.error) else if y.Err? then Err(y.error) else Ok(stack + [x.value] + [y.value])
  {
    hide Do, Run;
    RunThenRun(a, b, stack, env, py);
  }

  lemma TopTwo(stack: seq<Value>, a: Value, b: Value)
    ensures var s := stack + [a] + [b]; s[..|s| - 2] == stack && s[|s| - 2] == a && s[|s| - 1] == b
  {
  }

  lemma TopAll(stack: seq<Value>, vs: seq<Value>)
    ensures var s := stack + vs; s[..|s| - |vs|] == stack && s[|s| - |vs|..] == vs
  {
  }

  /** The tracer evaluates an expression to what its code leaves on the stack. */
  lemma {:induction false} EvalRunsCode(e: Expr, stack: seq<Value>, env: Env, py: Operators)
    ensures Run(Code(e), stack, env, py) == Pushed(stack, Eval(e, env, py))
    decreases e, 1
  {
    hide Run;
    match e {
      case Constant(v) => RunOne(Push(v), stack, env, py);
      case Name(id) => RunOne(Load(id), stack, env, py);
      case ListExpr(elts) =>
        EvalAllRunsCode(elts, stack, env, py);
        var vs := EvalAll(elts, env, py);
        ThenOne(CodeAll(elts), Build(|elts|), if vs.Ok? then Ok(stack + vs.value) else Err(vs.error), stack, env, py);
        if vs.Ok? { TopAll(stack, vs.value); }
      case Bin(op, left, right) =>
        if op.UnsupportedBinOp? {
          RunOne(Refuse, stack, env, py);
        } else {
          var a, b := Eval(left, env, py), Eval(right, env, py);
          EvalRunsCode(left, stack, env, py);
          if a.Ok? { EvalRunsCode(right, stack + [a.value], env, py); }
          ThenTwo(Code(left), Code(right), a, b, stack, env, py);
          ThenOne(Code(left) + Code(right), Apply(op), Run(Code(left) + Code(right), stack, env, py), stack, env, py);
          if a.Ok? && b.Ok? { TopTwo(stack, a.value, b.value); }
        }
      case CallExpr(func, args) => CallRunsCode(func, args, stack, env, py);
      case _ => RunOne(Refuse, stack, env, py);
    }
  }

  lemma {:induction false} CallRunsCode(func: Option<string>, args: seq<Expr>, stack: seq<Value>, env: Env, py: Operators)
    ensures Run(Code(CallExpr(func, args)), stack, env, py) == Pushed(stack, Eval(CallExpr(func, args), env, py))
    decreases args, 2
  {
    hide Run;
    if func == Some("range") {
      EvalAllRunsCode(args, stack, env, py);
      var vs := EvalAll(args, env, py);
      ThenOne(CodeAll(args), Span(|args|), if vs.Ok? then Ok(stack + vs.value) else Err(vs.error), stack, env, py);
      if vs.Ok? {
        TopAll(stack, vs.value);
        SpannedIsMakeRange(vs.value);
      }
    } else if func == Some("len") && |args| == 1 {
      EvalRunsCode(args[0], stack, env, py);
      var v := Eval(args[0], env, py);
      ThenOne(Code(args[0]), Measure, Pushed(stack, v), stack, env, py);
      if v.Ok? { TopAll(stack, [v.value]); }
    } else {
      RunOne(Refuse, stack, env, py);
    }
  }

  lemma {:induction false} EvalAllRunsCode(es: seq<Expr>, stack: seq<Value>, env: Env, py: Operators)
    ensures Run(CodeAll(es), stack, env, py)
         == match EvalAll(es, env, py) case Ok(vs) => Ok(stack + vs) case Err(f) => Err(f)
    ensures EvalAll(es, env, py).Ok? ==> |EvalAll(es, env, py).value| == |es|
    decreases es, 0
  {
    if es == [] {
      assert stack + [] == stack;
    } else {
      EvalRunsCode(es[0], stack, env, py);
      var v := Eval(es[0], env, py);
      RunThenRun(Code(es[0]), CodeAll(es[1..]), stack, env, py);
      if v.Ok? {
        EvalAllRunsCode(es[1..], stack + [v.value], env, py);
        var vs := EvalAll(es[1..], env, py);
        assert vs.Ok? ==> stack + [v.value] + vs.value == stack + ([v.value] + vs.value);
      }
      hide Run, Code;
    }
  }

  /** So it does a condition. */
  lemma {:induction false} EvalBoolRunsCode(e: Expr, stack: seq<Value>, env: Env, py: Operators)
    ensures Run(TestCode(e), stack, env, py)
         == match EvalBool(e, env, py) case Ok(b) => Ok(stack + [Bool(b)]) case Err(f) => Err(f)
  {
    hide Run, Code;
    if e.Compare? {
      if |e.ops| == 1 && |e.comparators| == 1 && !e.ops[0].UnsupportedCmp? {
        var left, right := e.first, e.comparators[0];
        var a, b := Eval(left, env, py), Eval(right, env, py);
        EvalRunsCode(left, stack, env, py);
        if a.Ok? { EvalRunsCode(right, stack + [a.value], env, py); }
        ThenTwo(Code(left), Code(right), a, b, stack, env, py);
        ThenOne(Code(left) + Code(right), Test(e.ops[0]), Run(Code(left) + Code(right), stack, env, py), stack, env, py);
        if a.Ok? && b.Ok? { TopTwo(stack, a.value, b.value); }
      } else {
        RunOne(Refuse, stack, env, py);
      }
    } else {
      EvalRunsCode(e, stack, env, py);
      var v := Eval(e, env, py);
      ThenOne(Code(e), Decide, Pushed(stack, v), stack, env, py);
      if v.Ok? {
        TopAll(stack, [v.value]);
        TruthReads(v.value);
      }
    }
  }

  // ---------------------------------------------------------------- printing

  /** Texts with one blank between neighbours. */
  function Joined(texts: seq<string>): string {
    if texts == [] then "" else Joined(texts[..|texts| - 1]) + (if |texts| > 1 then " " else "") + texts[|texts| - 1]
  }

  lemma {:induction false} JoinedFront(t: string, texts: seq<string>)
    requires texts != []
    ensures Joined([t] + texts) == t + " " + Joined(texts)
  {
    var n := |texts| - 1;
    assert ([t] + texts)[..|[t] + texts| - 1] == [t] + texts[..n];
    if n == 0 {
      assert [t] + texts[..n] == [t] && [t][..0] == [] && texts[..0] == [];
      assert Joined([t]) == "" + "" + t == t;
      assert Joined(texts) == "" + "" + texts[0] == texts[0];
    } else {
      JoinedFront(t, texts[..n]);
      assert t + " " + Joined(texts[..n]) + " " + texts[n] == t + " " + (Joined(texts[..n]) + " " + texts[n]);
    }
  }

  /** The texts of the values, if each has one. */
  ghost predicate Texts(vs: seq<Value>, texts: seq<string>, py: Operators) {
    |texts| == |vs| && forall i :: 0 <= i < |vs| ==> py.text(vs[i]) == Ok(texts[i])
  }

  lemma TextsNext(vs: seq<Value>, texts: seq<string>, py: Operators)
    requires vs != [] && Texts(vs[1..], texts, py) && py.text(vs[0]).Ok?
    ensures Texts(vs, [py.text(vs[0]).value] + texts, py)
  {
    var all := [py.text(vs[0]).value] + texts;
    forall i | 0 <= i < |vs| ensures py.text(vs[i]) == Ok(all[i]) {
      if i > 0 { assert vs[i] == vs[1..][i - 1]; }
    }
  }

  lemma JoinedOne(t: string)
    ensures Joined([t]) == t
  {
    assert [t][..0] == [];
    assert Joined([t]) == "" + "" + t == t;
  }

  lemma OneJoined(vs: seq<Value>, py: Operators)
    requires |vs| == 1
    ensures JoinTexts(vs, py) == py.text(vs[0])
  {
    assert vs[1..] == [];
  }

  lemma MoreJoined(vs: seq<Value>, py: Operators)
    requires |vs| > 1
    ensures JoinTexts(vs, py).Ok? <==> py.text(vs[0]).Ok? && JoinTexts(vs[1..], py).Ok?
    ensures JoinTexts(vs, py).Ok? ==> JoinTexts(vs, py).value == py.text(vs[0]).value + " " + JoinTexts(vs[1..], py).value
  {
  }

  /** A printed line is the texts of its values, evaluated from left to right, with blanks between;
      a value that has no text stops it. */
  lemma {:induction false} JoinTextsReads(vs: seq<Value>, py: Operators)
    ensures JoinTexts(vs, py).Ok? <==> forall i :: 0 <= i < |vs| ==> py.text(vs[i]).Ok?
    ensures JoinTexts(vs, py).Ok? ==> exists texts: seq<string> :: Texts(vs, texts, py) && JoinTexts(vs, py).value == Joined(texts)
  {
    if vs == [] {
      assert Texts(vs, [], py) && Joined([]) == "";
    } else {
      JoinTextsReads(vs[1..], py);
      assert forall i :: 1 <= i < |vs| ==> vs[i] == vs[1..][i - 1];
      if |vs| == 1 {
        OneJoined(vs, py);
        if JoinTexts(vs, py).Ok? {
          JoinedOne(py.text(vs[0]).value);
          assert Texts(vs, [py.text(vs[0]).value], py);
        }
      } else {
        MoreJoined(vs, py);
        hide JoinTexts, Joined, Texts;
        if JoinTexts(vs, py).Ok? {
          var texts: seq<string> :| Texts(vs[1..], texts, py) && JoinTexts(vs[1..], py).value == Joined(texts);
          TextsAre(vs[1..], texts, py);
          JoinedFront(py.text(vs[0]).value, texts);
          TextsNext(vs, texts, py);
        }
      }
    }
  }

  lemma TextsAre(vs: seq<Value>, texts: seq<string>, py: Operators)
    requires Texts(vs, texts, py)
    ensures |texts| == |vs|
  {
  }
}
