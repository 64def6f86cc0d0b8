/** When the tracer's `compute` raises (deterministic_code_trace.py:148-164). Its documentation says
    never; an exception of a Python operator passes through. */
module TracerFaults {
  import opened Common
  import opened CodeTracer
  import Text

  // ---------------------------------------------------------------- knowing operators in part

  /** `known` is part of what `py` does: wherever it gives an answer, `py` gives the same. Where it
      raises, nothing is said about `py`. */
  ghost predicate Knows(known: Operators, py: Operators) {
    && (forall op, a, b :: known.binary(op, a, b) != Err(Raised) ==> py.binary(op, a, b) == known.binary(op, a, b))
    && (forall op, a, b :: known.compare(op, a, b) != Err(Raised) ==> py.compare(op, a, b) == known.compare(op, a, b))
    && (forall v :: known.length(v) != Err(Raised) ==> py.length(v) == known.length(v))
    && (forall v :: known.text(v) != Err(Raised) ==> py.text(v) == known.text(v))
  }

  lemma {:induction false} EvalKnown(e: Expr, env: Env, known: Operators, py: Operators)
    requires Knows(known, py) && Eval(e, env, known) != Err(Raised)
    ensures Eval(e, env, py) == Eval(e, env, known)
    decreases e, 1
  {
    match e {
      case ListExpr(elts) => EvalAllKnown(elts, env, known, py);
      case Bin(op, l, r) =>
        if !op.UnsupportedBinOp? {
          EvalKnown(l, env, known, py);
          if Eval(l, env, known).Ok? {
            EvalKnown(r, env, known, py);
          }
        }
      case CallExpr(func, args) =>
        if func == Some("len") && |args| == 1 {
          EvalKnown(args[0], env, known, py);
        } else if func == Some("range") {
          EvalAllKnown(args, env, known, py);
        }
      case _ =>
    }
  }

  lemma {:induction false} EvalAllKnown(es: seq<Expr>, env: Env, known: Operators, py: Operators)
    requires Knows(known, py) && EvalAll(es, env, known) != Err(Raised)
    ensures EvalAll(es, env, py) == EvalAll(es, env, known)
    decreases es, 0
  {
    if es != [] {
      EvalKnown(es[0], env, known, py);
      if Eval(es[0], env, known).Ok? {
        EvalAllKnown(es[1..], env, known, py);
      }
    }
  }

  lemma EvalBoolKnown(e: Expr, env: Env, known: Operators, py: Operators)
    requires Knows(known, py) && EvalBool(e, env, known) != Err(Raised)
    ensures EvalBool(e, env, py) == EvalBool(e, env, known)
  {
    if e.Compare? {
      if |e.ops| == 1 && |e.comparators| == 1 && !e.ops[0].UnsupportedCmp? {
        EvalKnown(e.first, env, known, py);
        if Eval(e.first, env, known).Ok? {
          EvalKnown(e.comparators[0], env, known, py);
        }
      }
    } else {
      EvalKnown(e, env, known, py);
    }
  }

  lemma {:induction false} JoinKnown(vs: seq<Value>, known: Operators, py: Operators)
    requires Knows(known, py) && JoinTexts(vs, known) != Err(Raised)
    ensures JoinTexts(vs, py) == JoinTexts(vs, known)
  {
    if |vs| > 1 && known.text(vs[0]).Ok? {
      JoinKnown(vs[1..], known, py);
    }
  }

  lemma LineKnown(args: seq<Expr>, env: Env, known: Operators, py: Operators)
    requires Knows(known, py) && Line(args, env, known) != Err(Raised)
    ensures Line(args, env, py) == Line(args, env, known)
  {
    EvalAllKnown(args, env, known, py);
    if EvalAll(args, env, known).Ok? {
      JoinKnown(EvalAll(args, env, known).value, known, py);
    }
  }

  lemma {:induction false} StmtKnown(s: Stmt, st: State, known: Operators, py: Operators)
    requires Knows(known, py) && ExecStmt(s, st, known) != Err(Raised)
    ensures ExecStmt(s, st, py) == ExecStmt(s, st, known)
    decreases s, 2, 0
  {
    hide Knows;
    match s {
      case Assign(target, value) =>
        if target.Some? { EvalKnown(value, st.env, known, py); }
      case ExprStmt(e) =>
        if e.CallExpr? && e.func == Some("print") { LineKnown(e.args, st.env, known, py); }
      case If(test, body, orelse) =>
        EvalBoolKnown(test, st.env, known, py);
        var b := EvalBool(test, st.env, known);
        if b.Ok? { BodyKnown(if b.value then body else orelse, st, known, py); }
      case For(target, iter, body, orelse) =>
        if target.Some? {
          EvalKnown(iter, st.env, known, py);
          var it := Eval(iter, st.env, known);
          if it.Ok? && it.value.Range? {
            LoopKnown(target.value, RangeValues(it.value.start, it.value.stop, it.value.step), body, st, known, py);
          }
        }
      case UnsupportedStmt =>
    }
  }

  lemma {:induction false} BodyKnown(body: seq<Stmt>, st: State, known: Operators, py: Operators)
    requires Knows(known, py) && ExecBody(body, st, known) != Err(Raised)
    ensures ExecBody(body, st, py) == ExecBody(body, st, known)
    decreases body, 0, 0
  {
    hide Knows;
    if body != [] {
      StmtKnown(body[0], st, known, py);
      var r := ExecStmt(body[0], st, known);
      if r.Ok? { BodyKnown(body[1..], r.value, known, py); }
    }
  }

  lemma {:induction false} LoopKnown(x: string, values: seq<Value>, body: seq<Stmt>, st: State, known: Operators, py: Operators)
    requires Knows(known, py) && ExecLoop(x, values, body, st, known) != Err(Raised)
    ensures ExecLoop(x, values, body, st, py) == ExecLoop(x, values, body, st, known)
    decreases body, 1, |values|
  {
    hide Knows;
    if values != [] {
      var entered := st.(env := st.env[x := values[0]]);
      BodyKnown(body, entered, known, py);
      var r := ExecBody(body, entered, known);
      if r.Ok? { LoopKnown(x, values[1..], body, r.value, known, py); }
    }
  }

  // ---------------------------------------------------------------- when compute never raises

  /** Exactly when `compute` keeps its promise, for any part of Python's behaviour one knows: no
      operators that behave as known make it raise if and only if a dry run that stops at the first
      unknown application is not stopped. Then it also computes what the dry run does. What is
      known is an instance of itself, so "only if" is immediate; the other half is that knowing more
      never changes a run that got through. */
  lemma NeverRaisesExactly(program: seq<Stmt>, known: Operators)
    ensures (forall py :: Knows(known, py) ==> !Compute(program, py).PythonError?) <==> !Compute(program, known).PythonError?
    ensures !Compute(program, known).PythonError? ==>
              forall py :: Knows(known, py) ==> Compute(program, py) == Compute(program, known)
  {
    KnowsItself(known);
    if !Compute(program, known).PythonError? {
      forall py | Knows(known, py) ensures Compute(program, py) == Compute(program, known) {
        BodyKnown(program, State(map[], []), known, py);
      }
    }
    hide Knows, Compute;
  }

  lemma KnowsItself(known: Operators)
    ensures Knows(known, known)
  {
  }

  /** Nothing known: every application is refused. */
  function NothingKnown(): Operators {
    Operators((op, a, b) => Err(Raised), (op, a, b) => Err(Raised), v => Err(Raised), v => Err(Raised))
  }

  /** Whatever the operators do: a program is safe exactly when it gets through, or out of the
      supported subset, before it applies one. */
  lemma SafeForAllOperatorsExactly(program: seq<Stmt>)
    ensures (forall py :: !Compute(program, py).PythonError?) <==> !Compute(program, NothingKnown()).PythonError?
  {
    NeverRaisesExactly(program, NothingKnown());
    assert forall py :: Knows(NothingKnown(), py);
    hide Compute;
  }

  // The longest decimal rendering Python makes without being told to.
  const DIGIT_LIMIT := 4300

  function CheckedBinary(op: BinOp, a: Value, b: Value): Result<Value, Fault> {
    if a.Int? && b.Int? then
      match op
      case Add => Ok(Int(a.n + b.n))
      case Sub => Ok(Int(a.n - b.n))
      case Mult => Ok(Int(a.n * b.n))
      case _ => Err(Raised)
    else if op.Add? && a.Str? && b.Str? then Ok(Str(a.s + b.s))
    else if op.Add? && a.List? && b.List? then Ok(List(a.items + b.items))
    else Err(Raised)
  }

  function CheckedCompare(op: CmpOp, a: Value, b: Value): Result<bool, Fault> {
    if a.Int? && b.Int? then
      match op
      case Gt => Ok(a.n > b.n)
      case Lt => Ok(a.n < b.n)
      case GtE => Ok(a.n >= b.n)
      case LtE => Ok(a.n <= b.n)
      case Eq => Ok(a.n == b.n)
      case NotEq => Ok(a.n != b.n)
      case UnsupportedCmp => Err(Raised)
    else if op.Eq? && a.Str? && b.Str? then Ok(a.s == b.s)
    else if op.NotEq? && a.Str? && b.Str? then Ok(a.s != b.s)
    else Err(Raised)
  }

  function CheckedLength(v: Value): Result<Value, Fault> {
    match v
    case Str(s) => Ok(Int(|s|))
    case List(items) => Ok(Int(|items|))
    case _ => Err(Raised)
  }

  function CheckedText(v: Value): Result<string, Fault> {
    match v
    case Str(s) => Ok(s)
    case Int(n) =>
      var digits := Text.Decimal(if n < 0 then -n else n);
      if |digits| > DIGIT_LIMIT then Err(Raised) else Ok(if n < 0 then "-" + digits else digits)
    case _ => Err(Raised)
  }

  /** Integer addition, subtraction, multiplication and comparison, joining of texts and lists, equality
      of texts, lengths, and printing of texts and of integers within Python's digit limit. Division
      and everything else is left unknown. */
  function Checked(): Operators { Operators(CheckedBinary, CheckedCompare, CheckedLength, CheckedText) }

  /** A program that runs through in checked arithmetic computes just that under any operators that
      agree with it, and does not raise. */
  lemma CheckedProgramsAreSafe(program: seq<Stmt>, py: Operators)
    requires Knows(Checked(), py) && !Compute(program, Checked()).PythonError?
    ensures Compute(program, py) == Compute(program, Checked())
  {
    NeverRaisesExactly(program, Checked());
  }

  // ---------------------------------------------------------------- reading it off the text

  /** No operator to apply: no supported arithmetic, no len, and ranges of integer constants only. */
  predicate Harmless(e: Expr)
    decreases e, 1
  {
    match e
    case ListExpr(elts) => AllHarmless(elts)
    case Bin(op, _, _) => op.UnsupportedBinOp?
    case CallExpr(func, args) =>
      if func == Some("len") && |args| == 1 then false
      else if func == Some("range") then
        && 1 <= |args| <= 3
        && (forall i :: 0 <= i < |args| ==> args[i].Constant? && args[i].value.Int?)
        && (|args| == 3 ==> args[2].value.n != 0)
      else true
    case _ => true
  }

  predicate AllHarmless(es: seq<Expr>)
    decreases es, 0
  {
    es == [] || (Harmless(es[0]) && AllHarmless(es[1..]))
  }

  predicate HarmlessTest(e: Expr) {
    if e.Compare? then |e.ops| != 1 || |e.comparators| != 1 || e.ops[0].UnsupportedCmp? else Harmless(e)
  }

  /** The whole program, branches that are never taken included. */
  predicate HarmlessBody(body: seq<Stmt>)
    decreases body, 0
  {
    body == [] || (HarmlessStmt(body[0]) && HarmlessBody(body[1..]))
  }

  predicate HarmlessStmt(s: Stmt)
    decreases s, 1
  {
    match s
    case Assign(_, value) => Harmless(value)
    case ExprStmt(e) => e.CallExpr? && e.func == Some("print") ==> AllHarmless(e.args)
    case If(test, body, orelse) => HarmlessTest(test) && HarmlessBody(body) && HarmlessBody(orelse)
    case For(_, iter, body, _) => Harmless(iter) && HarmlessBody(body)
    case UnsupportedStmt => true
  }

  lemma {:induction false} HarmlessEval(e: Expr, env: Env, py: Operators)
    requires Harmless(e)
    ensures Eval(e, env, py) != Err(Raised)
    decreases e, 1
  {
    match e {
      case ListExpr(elts) => HarmlessEvalAll(elts, env, py);
      case CallExpr(func, args) =>
        if func == Some("range") { ConstantsEval(args, env, py); }
      case _ =>
    }
  }

  lemma {:induction false} HarmlessEvalAll(es: seq<Expr>, env: Env, py: Operators)
    requires AllHarmless(es)
    ensures EvalAll(es, env, py) != Err(Raised)
    decreases es, 0
  {
    if es != [] {
      HarmlessEval(es[0], env, py);
      HarmlessEvalAll(es[1..], env, py);
    }
  }

  lemma {:induction false} ConstantsEval(args: seq<Expr>, env: Env, py: Operators)
    requires forall i :: 0 <= i < |args| ==> args[i].Constant?
    ensures EvalAll(args, env, py).Ok? && |EvalAll(args, env, py).value| == |args|
    ensures forall i :: 0 <= i < |args| ==> EvalAll(args, env, py).value[i] == args[i].value
  {
    if args != [] {
      ConstantsEval(args[1..], env, py);
    }
  }

  /** Printing is the one application a harmless program makes. */
  ghost predicate PrintsEverything(py: Operators) { forall v :: py.text(v) != Err(Raised) }

  lemma {:induction false} JoinPrints(vs: seq<Value>, py: Operators)
    requires PrintsEverything(py)
    ensures JoinTexts(vs, py) != Err(Raised)
  {
    if |vs| > 1 { JoinPrints(vs[1..], py); }
  }

  lemma {:induction false} HarmlessStmtRuns(s: Stmt, st: State, py: Operators)
    requires PrintsEverything(py) && HarmlessStmt(s)
    ensures ExecStmt(s, st, py) != Err(Raised)
    decreases s, 2, 0
  {
    match s {
      case Assign(_, value) => HarmlessEval(value, st.env, py);
      case ExprStmt(e) =>
        if e.CallExpr? && e.func == Some("print") {
          HarmlessEvalAll(e.args, st.env, py);
          if EvalAll(e.args, st.env, py).Ok? { JoinPrints(EvalAll(e.args, st.env, py).value, py); }
        }
      case If(test, body, orelse) =>
        if !test.Compare? { HarmlessEval(test, st.env, py); }
        HarmlessBodyRuns(body, st, py);
        HarmlessBodyRuns(orelse, st, py);
      case For(target, iter, body, _) =>
        HarmlessEval(iter, st.env, py);
        var it := Eval(iter, st.env, py);
        if target.Some? && it.Ok? && it.value.Range? {
          HarmlessLoopRuns(target.value, RangeValues(it.value.start, it.value.stop, it.value.step), body, st, py);
        }
      case UnsupportedStmt =>
    }
  }

  lemma {:induction false} HarmlessBodyRuns(body: seq<Stmt>, st: State, py: Operators)
    requires PrintsEverything(py) && HarmlessBody(body)
    ensures ExecBody(body, st, py) != Err(Raised)
    decreases body, 0, 0
  {
    if body != [] {
      HarmlessStmtRuns(body[0], st, py);
      var r := ExecStmt(body[0], st, py);
      if r.Ok? { HarmlessBodyRuns(body[1..], r.value, py); }
    }
  }

  lemma {:induction false} HarmlessLoopRuns(x: string, values: seq<Value>, body: seq<Stmt>, st: State, py: Operators)
    requires PrintsEverything(py) && HarmlessBody(body)
    ensures ExecLoop(x, values, body, st, py) != Err(Raised)
    decreases body, 1, |values|
  {
    if values != [] {
      var entered := st.(env := st.env[x := values[0]]);
      HarmlessBodyRuns(body, entered, py);
      var r := ExecBody(body, entered, py);
      if r.Ok? { HarmlessLoopRuns(x, values[1..], body, r.value, py); }
    }
  }

  /** A program whose text applies no operator never raises, whatever the operators do, as long as
      every value prints. */
  lemma HarmlessProgramsAreSafe(program: seq<Stmt>, py: Operators)
    requires HarmlessBody(program) && PrintsEverything(py)
    ensures !Compute(program, py).PythonError?
  {
    HarmlessBodyRuns(program, State(map[], []), py);
  }

  /** Inside the supported subset with every name bound: nothing but an operator or a bad range can
      stop the evaluation. */
  predicate Closed(e: Expr, env: Env)
    decreases e, 1
  {
    match e
    case Constant(_) => true
    case Name(id) => id in env
    case ListExpr(elts) => AllClosed(elts, env)
    case Bin(op, l, r) => !op.UnsupportedBinOp? && Closed(l, env) && Closed(r, env)
    case CallExpr(func, args) => ((func == Some("len") && |args| == 1) || func == Some("range")) && AllClosed(args, env)
    case _ => false
  }

  predicate AllClosed(es: seq<Expr>, env: Env)
    decreases es, 0
  {
    es == [] || (Closed(es[0], env) && AllClosed(es[1..], env))
  }

  /** A range whose arguments are constants or names that stand for integers, its step not zero. */
  predicate PlainRange(e: Expr, env: Env) {
    && e.CallExpr? && e.func == Some("range") && 1 <= |e.args| <= 3
    && (forall i :: 0 <= i < |e.args| ==> IntegerAt(e.args[i], env).Some?)
    && (|e.args| == 3 ==> IntegerAt(e.args[2], env) != Some(0))
  }

  function IntegerAt(e: Expr, env: Env): Option<int> {
    match e
    case Constant(v) => Index(v)
    case Name(id) => if id in env then Index(env[id]) else None
    case _ => None
  }

  /** An expression that applies no operator: a literal, a plain range, or a list of such. */
  predicate OperatorFree(e: Expr, env: Env)
    decreases e, 1
  {
    match e
    case Constant(_) => true
    case Name(_) => true
    case ListExpr(elts) => AllOperatorFree(elts, env)
    case _ => PlainRange(e, env)
  }

  predicate AllOperatorFree(es: seq<Expr>, env: Env)
    decreases es, 0
  {
    es == [] || (OperatorFree(es[0], env) && AllOperatorFree(es[1..], env))
  }

  lemma {:induction false} DryEval(e: Expr, env: Env)
    requires Closed(e, env)
    ensures Eval(e, env, NothingKnown()).Ok? <==> OperatorFree(e, env)
    ensures Eval(e, env, NothingKnown()).Err? ==> Eval(e, env, NothingKnown()) == Err(Raised)
    ensures Eval(e, env, NothingKnown()).Ok? ==> Index(Eval(e, env, NothingKnown()).value) == IntegerAt(e, env)
    decreases e, 1
  {
    match e {
      case ListExpr(elts) => DryEvalAll(elts, env);
      case Bin(_, l, r) =>
        DryEval(l, env);
        DryEval(r, env);
      case CallExpr(func, args) =>
        if func == Some("range") {
          DryEvalAll(args, env);
          DryRange(args, env);
        } else {
          DryEval(args[0], env);
        }
      case _ =>
    }
  }

  /** The values of a range's arguments are integers exactly when the arguments plainly stand for some. */
  lemma DryRange(args: seq<Expr>, env: Env)
    requires AllClosed(args, env)
    requires var vs := EvalAll(args, env, NothingKnown());
             vs.Ok? ==> |vs.value| == |args| && forall i :: 0 <= i < |args| ==> Index(vs.value[i]) == IntegerAt(args[i], env)
    requires (forall i :: 0 <= i < |args| ==> IntegerAt(args[i], env).Some?) ==> EvalAll(args, env, NothingKnown()).Ok?
    ensures var e := CallExpr(Some("range"), args);
            Eval(e, env, NothingKnown()).Ok? <==> PlainRange(e, env)
    ensures Eval(CallExpr(Some("range"), args), env, NothingKnown()).Ok? ==>
              Index(Eval(CallExpr(Some("range"), args), env, NothingKnown()).value) == None
  {
    assert Some("range") != Some("len") by { assert |"range"| != |"len"|; }
    var vs := EvalAll(args, env, NothingKnown());
    if vs.Ok? {
      assert forall i :: 0 <= i < |args| ==> Index(vs.value[i]) == IntegerAt(args[i], env);
    }
  }

  lemma {:induction false} DryEvalAll(es: seq<Expr>, env: Env)
    requires AllClosed(es, env)
    ensures EvalAll(es, env, NothingKnown()).Ok? <==> AllOperatorFree(es, env)
    ensures EvalAll(es, env, NothingKnown()).Err? ==> EvalAll(es, env, NothingKnown()) == Err(Raised)
    ensures var vs := EvalAll(es, env, NothingKnown());
            vs.Ok? ==> |vs.value| == |es| && forall i :: 0 <= i < |es| ==> Index(vs.value[i]) == IntegerAt(es[i], env)
    ensures (forall i :: 0 <= i < |es| ==> IntegerAt(es[i], env).Some?) ==> EvalAll(es, env, NothingKnown()).Ok?
    decreases es, 0
  {
    if es != [] {
      DryEval(es[0], env);
      DryEvalAll(es[1..], env);
      if forall i :: 0 <= i < |es| ==> IntegerAt(es[i], env).Some? {
        assert IntegerAt(es[0], env).Some?;
        assert forall i :: 0 <= i < |es[1..]| ==> es[1..][i] == es[i + 1];
      }
    }
  }

  /** A closed expression of the supported subset is safe for all operators exactly when it applies none. */
  lemma ExpressionSafeExactly(e: Expr, env: Env)
    requires Closed(e, env)
    ensures (forall py :: Eval(e, env, py) != Err(Raised)) <==> OperatorFree(e, env)
  {
    DryEval(e, env);
    if OperatorFree(e, env) {
      forall py ensures Eval(e, env, py) != Err(Raised) { EvalKnown(e, env, NothingKnown(), py); }
    } else {
      assert Eval(e, env, NothingKnown()) == Err(Raised);
    }
  }

  /** A concrete program that raises: the documentation's promise fails. */
  lemma ComputeCanRaise(py: Operators)
    requires py.binary(Div, Int(1), Int(0)) == Err(Raised)
    ensures Compute([Assign(Some("x"), Bin(Div, Constant(Int(1)), Constant(Int(0))))], py).PythonError?
  {
    var s := Assign(Some("x"), Bin(Div, Constant(Int(1)), Constant(Int(0))));
    assert ExecStmt(s, State(map[], []), py) == Err(Raised);
  }
}
