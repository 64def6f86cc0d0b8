/** The restricted Python tracer (MEIZEX_ROUTER_WORKER/src/meizex_mrw/deterministic_code_trace.py)
    against a small-step reference machine. Python's own operators on values (arithmetic,
    comparison, len, str) are arbitrary functions that may raise. */
module CodeTracer {
  import opened Common

  datatype Value =
    | Int(n: int)
    | Bool(b: bool)
    | Str(s: string)
    | List(items: seq<Value>)
    | Range(start: int, stop: int, step: int)
    | Other(repr: string, truthy: bool)

  datatype BinOp = Add | Sub | Mult | Div | UnsupportedBinOp

  datatype CmpOp = Gt | Lt | GtE | LtE | Eq | NotEq | UnsupportedCmp

  datatype Expr =
    | Constant(value: Value)
    | Name(id: string)
    | ListExpr(elts: seq<Expr>)
    | Bin(op: BinOp, left: Expr, right: Expr)
    | CallExpr(func: Option<string>, args: seq<Expr>)          // None: the callee is not a plain name
    | Compare(first: Expr, ops: seq<CmpOp>, comparators: seq<Expr>)
    | UnsupportedExpr

  /** `target` is None when it is not one plain name. */
  datatype Stmt =
    | Assign(target: Option<string>, value: Expr)
    | ExprStmt(expr: Expr)
    | If(test: Expr, body: seq<Stmt>, orelse: seq<Stmt>)
    | For(target: Option<string>, iter: Expr, body: seq<Stmt>, orelse: seq<Stmt>)
    | UnsupportedStmt

  /** Unsupported constructs raise the tracer's own error; Raised is any other Python exception. */
  datatype Fault = Unsupported | Raised

  datatype Operators = Operators(
    binary: (BinOp, Value, Value) -> Result<Value, Fault>, compare: (CmpOp, Value, Value) -> Result<bool, Fault>,
    length: Value -> Result<Value, Fault>, text: Value -> Result<string, Fault>)

  type Env = map<string, Value>

  datatype State = State(env: Env, output: seq<string>)

  // ---------------------------------------------------------------- expressions

  /** What Python takes as an integer; its truth values are integers too. */
  function Index(v: Value): Option<int> {
    match v
    case Int(n) => Some(n)
    case Bool(b) => Some(if b then 1 else 0)
    case _ => None
  }

  /** `range(*args)`: one to three integers and a non-zero step. */
  function MakeRange(args: seq<Value>): Result<Value, Fault> {
    if |args| == 0 || |args| > 3 || exists i :: 0 <= i < |args| && Index(args[i]).None? then Err(Raised)
    else if |args| == 1 then Ok(Range(0, Index(args[0]).value, 1))
    else if |args| == 2 then Ok(Range(Index(args[0]).value, Index(args[1]).value, 1))
    else if Index(args[2]).value == 0 then Err(Raised)
    else Ok(Range(Index(args[0]).value, Index(args[1]).value, Index(args[2]).value))
  }

  /** `bool(v)`. */
  predicate Truth(v: Value) {
    match v
    case Int(n) => n != 0
    case Bool(b) => b
    case Str(s) => s != ""
    case List(items) => items != []
    case Range(start, stop, step) => RangeValues(start, stop, step) != []
    case Other(_, truthy) => truthy
  }

  function Eval(e: Expr, env: Env, py: Operators): Result<Value, Fault>
    decreases e, 1
  {
    match e
    case Constant(v) => Ok(v)
    case Name(id) => if id in env then Ok(env[id]) else Err(Unsupported)
    case ListExpr(elts) =>
      var vs := EvalAll(elts, env, py);
      if vs.Err? then Err(vs.error) else Ok(List(vs.value))
    case Bin(op, l, r) =>
      if op.UnsupportedBinOp? then Err(Unsupported)
      else
        var a := Eval(l, env, py);
        if a.Err? then a
        else
          var b := Eval(r, env, py);
          if b.Err? then b else py.binary(op, a.value, b.value)
    case CallExpr(func, args) =>
      if func == Some("len") && |args| == 1 then
        var v := Eval(args[0], env, py);
        if v.Err? then v else py.length(v.value)
      else if func == Some("range") then
        var vs := EvalAll(args, env, py);
        if vs.Err? then Err(vs.error) else MakeRange(vs.value)
      else Err(Unsupported)
    case _ => Err(Unsupported)
  }

  function EvalAll(es: seq<Expr>, env: Env, py: Operators): Result<seq<Value>, Fault>
    decreases es, 0
  {
    if es == [] then Ok([])
    else
      var v := Eval(es[0], env, py);
      if v.Err? then Err(v.error)
      else
        var vs := EvalAll(es[1..], env, py);
        if vs.Err? then vs else Ok([v.value] + vs.value)
  }

  /** `_eval_bool`: one comparison, or the truth of a value. */
  function EvalBool(e: Expr, env: Env, py: Operators): Result<bool, Fault> {
    if e.Compare? then
      if |e.ops| != 1 || |e.comparators| != 1 || e.ops[0].UnsupportedCmp? then Err(Unsupported)
      else
        var a := Eval(e.first, env, py);
        if a.Err? then Err(a.error)
        else
          var b := Eval(e.comparators[0], env, py);
          if b.Err? then Err(b.error) else py.compare(e.ops[0], a.value, b.value)
    else
      var v := Eval(e, env, py);
      if v.Err? then Err(v.error) else Ok(Truth(v.value))
  }

  /** The values a range yields. */
  function RangeValues(start: int, stop: int, step: int): seq<Value>
    decreases if step > 0 then stop - start else start - stop
  {
    if step > 0 && start < stop then [Int(start)] + RangeValues(start + step, stop, step)
    else if step < 0 && start > stop then [Int(start)] + RangeValues(start + step, stop, step)
    else []
  }

  /** `n` is how many values the range has: the last one is short of `stop`, one more would not be. */
  predicate RangeLength(start: int, stop: int, step: int, n: nat) {
    if step > 0 then start + n * step >= stop && (n > 0 ==> start + (n - 1) * step < stop)
    else if step < 0 then start + n * step <= stop && (n > 0 ==> start + (n - 1) * step > stop)
    else n == 0
  }

  lemma OneStepOn(start: int, step: int, i: int)
    ensures start + step + (i - 1) * step == start + i * step
  {
  }

  /** A range yields `start`, `start + step`, ... up to but excluding `stop`. */
  lemma {:induction false} RangeValuesExact(start: int, stop: int, step: int)
    ensures var r := RangeValues(start, stop, step);
            RangeLength(start, stop, step, |r|) && forall i :: 0 <= i < |r| ==> r[i] == Int(start + i * step)
    decreases if step > 0 then stop - start else start - stop
  {
    var r := RangeValues(start, stop, step);
    if (step > 0 && start < stop) || (step < 0 && start > stop) {
      RangeValuesExact(start + step, stop, step);
      var n := |r|;
      OneStepOn(start, step, n);
      OneStepOn(start, step, n - 1);
      forall i | 0 <= i < n ensures r[i] == Int(start + i * step) {
        if i > 0 { OneStepOn(start, step, i); }
      }
    }
  }

  lemma RangeLengthUnique(start: int, stop: int, step: int, m: nat, n: nat)
    requires RangeLength(start, stop, step, m) && RangeLength(start, stop, step, n)
    ensures m == n
  {
    if step > 0 {
      if m < n { ScalesUp(step, m, n - 1); } else if n < m { ScalesUp(step, n, m - 1); }
    } else if step < 0 {
      if m < n { ScalesUp(-step, m, n - 1); } else if n < m { ScalesUp(-step, n, m - 1); }
    }
  }

  lemma ScalesUp(step: int, a: int, b: int)
    requires step > 0 && a <= b
    ensures a * step <= b * step && a * -step >= b * -step
  {
  }

  /** `" ".join(str(v) for v in vs)`. */
  function JoinTexts(vs: seq<Value>, py: Operators): Result<string, Fault> {
    if vs == [] then Ok("")
    else
      var t := py.text(vs[0]);
      if t.Err? || |vs| == 1 then t
      else
        var rest := JoinTexts(vs[1..], py);
        if rest.Err? then rest else Ok(t.value + " " + rest.value)
  }

  /** The line a print statement adds. */
  function Line(args: seq<Expr>, env: Env, py: Operators): Result<string, Fault> {
    var vs := EvalAll(args, env, py);
    if vs.Err? then Err(vs.error) else JoinTexts(vs.value, py)
  }

  // ---------------------------------------------------------------- the tracer

  /** `_exec_stmt`. The else-block of a for statement is not looked at. */
  function ExecStmt(s: Stmt, st: State, py: Operators): Result<State, Fault>
    decreases s, 2, 0
  {
    match s
    case Assign(target, value) =>
      if target.None? then Err(Unsupported)
      else
        var v := Eval(value, st.env, py);
        if v.Err? then Err(v.error) else Ok(st.(env := st.env[target.value := v.value]))
    case ExprStmt(e) =>
      if e.CallExpr? && e.func == Some("print") then
        var line := Line(e.args, st.env, py);
        if line.Err? then Err(line.error) else Ok(st.(output := st.output + [line.value]))
      else Err(Unsupported)
    case If(test, body, orelse) =>
      var b := EvalBool(test, st.env, py);
      if b.Err? then Err(b.error) else if b.value then ExecBody(body, st, py) else ExecBody(orelse, st, py)
    case For(target, iter, body, orelse) =>
      if target.None? then Err(Unsupported)
      else
        var it := Eval(iter, st.env, py);
        if it.Err? then Err(it.error)
        else if !it.value.Range? then Err(Unsupported)
        else ExecLoop(target.value, RangeValues(it.value.start, it.value.stop, it.value.step), body, st, py)
    case UnsupportedStmt => Err(Unsupported)
  }

  function ExecBody(body: seq<Stmt>, st: State, py: Operators): Result<State, Fault>
    decreases body, 0, 0
  {
    if body == [] then Ok(st)
    else
      var r := ExecStmt(body[0], st, py);
      if r.Err? then r else ExecBody(body[1..], r.value, py)
  }

  function ExecLoop(x: string, values: seq<Value>, body: seq<Stmt>, st: State, py: Operators): Result<State, Fault>
    decreases body, 1, |values|
  {
    if values == [] then Ok(st)
    else
      var r := ExecBody(body, st.(env := st.env[x := values[0]]), py);
      if r.Err? then r else ExecLoop(x, values[1..], body, r.value, py)
  }

  /** The tracer object: an environment and an output that its recursive methods update. */
  class Tracer {
    const py: Operators
    var env: Env
    var output: seq<string>

    ghost function View(): State
      reads this
    {
      State(env, output)
    }

    constructor (py: Operators)
      ensures this.py == py && View() == State(map[], [])
    {
      this.py := py;
      env, output := map[], [];
    }

    method RunBody(body: seq<Stmt>) returns (fault: Option<Fault>)
      modifies this
      ensures match fault case None => ExecBody(body, old(View()), py) == Ok(View()) case Some(f) => ExecBody(body, old(View()), py) == Err(f)
      decreases body, 0, 0
    {
      var i := 0;
      assert body[0..] == body;
      while i < |body|
        invariant 0 <= i <= |body|
        invariant ExecBody(body, old(View()), py) == ExecBody(body[i..], View(), py)
      {
        var f := RunStmt(body[i]);
        assert body[i..][1..] == body[i + 1..];
        if f.Some? {
          return f;
        }
        i := i + 1;
      }
      fault := None;
    }

    method RunStmt(s: Stmt) returns (fault: Option<Fault>)
      modifies this
      ensures match fault case None => ExecStmt(s, old(View()), py) == Ok(View()) case Some(f) => ExecStmt(s, old(View()), py) == Err(f)
      decreases s, 2, 0
    {
      match s {
        case Assign(target, value) =>
          if target.None? { return Some(Unsupported); }
          var v := Eval(value, env, py);
          if v.Err? { return Some(v.error); }
          env := env[target.value := v.value];
          return None;
        case ExprStmt(e) =>
          if !(e.CallExpr? && e.func == Some("print")) { return Some(Unsupported); }
          var line := Line(e.args, env, py);
          if line.Err? { return Some(line.error); }
          output := output + [line.value];
          return None;
        case If(test, body, orelse) =>
          var b := EvalBool(test, env, py);
          if b.Err? { return Some(b.error); }
          if b.value {
            fault := RunBody(body);
          } else {
            fault := RunBody(orelse);
          }
        case For(target, iter, body, orelse) =>
          if target.None? { return Some(Unsupported); }
          var it := Eval(iter, env, py);
          if it.Err? { return Some(it.error); }
          if !it.value.Range? { return Some(Unsupported); }
          fault := RunLoop(target.value, RangeValues(it.value.start, it.value.stop, it.value.step), body);
        case UnsupportedStmt => return Some(Unsupported);
      }
    }

    method RunLoop(x: string, values: seq<Value>, body: seq<Stmt>) returns (fault: Option<Fault>)
      modifies this
      ensures match fault case None => ExecLoop(x, values, body, old(View()), py) == Ok(View())
                          case Some(f) => ExecLoop(x, values, body, old(View()), py) == Err(f)
      decreases body, 1, 0
    {
      var i := 0;
      assert values[0..] == values;
      while i < |values|
        invariant 0 <= i <= |values|
        invariant ExecLoop(x, values, body, old(View()), py) == ExecLoop(x, values[i..], body, View(), py)
      {
        assert values[i..][1..] == values[i + 1..];
        env := env[x := values[i]];
        var f := RunBody(body);
        if f.Some? {
          return f;
        }
        i := i + 1;
      }
      fault := None;
    }
  }

  /** `compute` on a parsed block: None is "fall through to the normal path". */
  datatype Computed = Printed(lines: seq<string>) | FallThrough | PythonError

  function Compute(program: seq<Stmt>, py: Operators): Computed {
    match ExecBody(program, State(map[], []), py)
    case Ok(st) => Printed(st.output)
    case Err(Unsupported) => FallThrough
    case Err(Raised) => PythonError
  }
}

/** The reference semantics and the theorems about the tracer. */
module TracerSemantics {
  import opened Common
  import opened CodeTracer

  // ---------------------------------------------------------------- the reference machine

  /** What is still to be done: a statement, or the rest of a loop whose values were fixed when it
      was entered. Finishing a loop runs its else-block, as Python does. */
  datatype Frame = Do(s: Stmt) | Rest(x: string, values: seq<Value>, body: seq<Stmt>, orelse: seq<Stmt>)

  datatype Machine = Running(todo: seq<Frame>, st: State) | Faulted(f: Fault)

  function Frames(body: seq<Stmt>): (r: seq<Frame>)
    ensures |r| == |body| && forall i :: 0 <= i < |r| ==> r[i] == Do(body[i])
  {
    seq(|body|, i requires 0 <= i < |body| => Do(body[i]))
  }

  predicate Final(m: Machine) { m.Faulted? || m.todo == [] }

  /** One step: the head of what is to be done. */
  function Step(m: Machine, py: Operators): Machine
    requires !Final(m)
  {
    var rest, st := m.todo[1..], m.st;
    match m.todo[0]
    case Rest(x, values, body, orelse) =>
      if values == [] then Running(Frames(orelse) + rest, st)
      else Running(Frames(body) + [Rest(x, values[1..], body, orelse)] + rest, st.(env := st.env[x := values[0]]))
    case Do(Assign(target, value)) =>
      if target.None? then Faulted(Unsupported)
      else
        var v := Eval(value, st.env, py);
        if v.Err? then Faulted(v.error) else Running(rest, st.(env := st.env[target.value := v.value]))
    case Do(ExprStmt(e)) =>
      if e.CallExpr? && e.func == Some("print") then
        var line := Line(e.args, st.env, py);
        if line.Err? then Faulted(line.error) else Running(rest, st.(output := st.output + [line.value]))
      else Faulted(Unsupported)
    case Do(If(test, body, orelse)) =>
      var b := EvalBool(test, st.env, py);
      if b.Err? then Faulted(b.error) else Running(Frames(if b.value then body else orelse) + rest, st)
    case Do(For(target, iter, body, orelse)) =>
      if target.None? then Faulted(Unsupported)
      else
        var it := Eval(iter, st.env, py);
        if it.Err? then Faulted(it.error)
        else if !it.value.Range? then Faulted(Unsupported)
        else Running([Rest(target.value, RangeValues(it.value.start, it.value.stop, it.value.step), body, orelse)] + rest, st)
    case Do(UnsupportedStmt) => Faulted(Unsupported)
  }

  function Steps(m: Machine, n: nat, py: Operators): Machine
    decreases n
  {
    if n == 0 || Final(m) then m else Steps(Step(m, py), n - 1, py)
  }

  lemma {:induction false} StepsAdd(m: Machine, a: nat, b: nat, py: Operators)
    ensures Steps(m, a + b, py) == Steps(Steps(m, a, py), b, py)
    decreases a
  {
    if a > 0 && !Final(m) {
      StepsAdd(Step(m, py), a - 1, b, py);
    } else if Final(m) {
      assert Steps(m, a, py) == m && Steps(m, b, py) == m && Steps(m, a + b, py) == m;
    }
  }

  /** What the machine arrives at when the tracer's result is `r` and `todo` is left to do. */
  function Arrival(r: Result<State, Fault>, todo: seq<Frame>): Machine {
    if r.Ok? then Running(todo, r.value) else Faulted(r.error)
  }

  // ---------------------------------------------------------------- programs without for-else

  /** The program with the else-block of every for statement removed. */
  function DropElse(s: Stmt): Stmt
    decreases s, 1
  {
    match s
    case If(test, body, orelse) => If(test, DropElses(body), DropElses(orelse))
    case For(target, iter, body, orelse) => For(target, iter, DropElses(body), [])
    case _ => s
  }

  function DropElses(body: seq<Stmt>): (r: seq<Stmt>)
    ensures |r| == |body|
    decreases body, 0
  {
    if body == [] then [] else [DropElse(body[0])] + DropElses(body[1..])
  }

  lemma {:induction false} DropElsesHeadTail(body: seq<Stmt>)
    requires body != []
    ensures Frames(DropElses(body)) == [Do(DropElse(body[0]))] + Frames(DropElses(body[1..]))
  {
  }

  // ---------------------------------------------------------------- the tracer refines the machine

  lemma SimStmt(s: Stmt, st: State, todo: seq<Frame>, py: Operators) returns (n: nat)
    ensures Steps(Running([Do(DropElse(s))] + todo, st), n, py) == Arrival(ExecStmt(s, st, py), todo)
    decreases s, 2, 0
  {
    var m := Running([Do(DropElse(s))] + todo, st);
    assert m.todo[1..] == todo;
    match s {
      case If(test, body, orelse) =>
        var b := EvalBool(test, st.env, py);
        if b.Ok? {
          var chosen := if b.value then body else orelse;
          assert Step(m, py) == Running(Frames(DropElses(chosen)) + todo, st);
          var k := SimBody(chosen, st, todo, py);
          n := k + 1;
        } else {
          n := 1;
        }
      case For(target, iter, body, orelse) =>
        var it := Eval(iter, st.env, py);
        if target.Some? && it.Ok? && it.value.Range? {
          var values := RangeValues(it.value.start, it.value.stop, it.value.step);
          assert Step(m, py) == Running([Rest(target.value, values, DropElses(body), [])] + todo, st);
          var k := SimLoop(target.value, values, body, st, todo, py);
          n := k + 1;
        } else {
          n := 1;
        }
      case _ =>
        n := 1;
    }
  }

  lemma SimBody(body: seq<Stmt>, st: State, todo: seq<Frame>, py: Operators) returns (n: nat)
    ensures Steps(Running(Frames(DropElses(body)) + todo, st), n, py) == Arrival(ExecBody(body, st, py), todo)
    decreases body, 0, 0
  {
    if body == [] {
      assert Frames(DropElses(body)) + todo == todo;
      n := 0;
    } else {
      DropElsesHeadTail(body);
      var more := Frames(DropElses(body[1..])) + todo;
      assert Frames(DropElses(body)) + todo == [Do(DropElse(body[0]))] + more;
      BodyIs(body, st, py);
      hide Step, ExecStmt, ExecBody, DropElses, DropElse, Frames;
      var a := SimStmt(body[0], st, more, py);
      var r := ExecStmt(body[0], st, py);
      if r.Ok? {
        var b := SimBody(body[1..], r.value, todo, py);
        StepsAdd(Running([Do(DropElse(body[0]))] + more, st), a, b, py);
        n := a + b;
      } else {
        n := a;
      }
    }
  }

  lemma BodyIs(body: seq<Stmt>, st: State, py: Operators)
    requires body != []
    ensures var r := ExecStmt(body[0], st, py);
            ExecBody(body, st, py) == if r.Ok? then ExecBody(body[1..], r.value, py) else r
  {
    hide ExecStmt;
  }

  lemma SimLoop(x: string, values: seq<Value>, body: seq<Stmt>, st: State, todo: seq<Frame>, py: Operators) returns (n: nat)
    ensures Steps(Running([Rest(x, values, DropElses(body), [])] + todo, st), n, py) == Arrival(ExecLoop(x, values, body, st, py), todo)
    decreases body, 1, |values|
  {
    var m := Running([Rest(x, values, DropElses(body), [])] + todo, st);
    assert m.todo[1..] == todo;
    if values == [] {
      assert Frames([]) + todo == todo;
      assert Step(m, py) == Running(todo, st);
      n := 1;
    } else {
      var entered := st.(env := st.env[x := values[0]]);
      var more := [Rest(x, values[1..], DropElses(body), [])] + todo;
      assert Frames(DropElses(body)) + [Rest(x, values[1..], DropElses(body), [])] + todo == Frames(DropElses(body)) + more;
      var a := SimBody(body, entered, more, py);
      var r := ExecBody(body, entered, py);
      if r.Ok? {
        var b := SimLoop(x, values[1..], body, r.value, todo, py);
        StepsAdd(Step(m, py), a, b, py);
        n := 1 + a + b;
      } else {
        n := 1 + a;
      }
    }
  }

  /** Every program: the reference machine terminates on the program without its for-else blocks,
      and the tracer's environment, printed lines or fault are exactly what it arrives at. */
  lemma TracerComputesReference(program: seq<Stmt>, py: Operators)
    ensures exists n: nat ::
              var m := Steps(Running(Frames(DropElses(program)), State(map[], [])), n, py);
              Final(m) && m == Arrival(ExecBody(program, State(map[], []), py), [])
  {
    var n := SimBody(program, State(map[], []), [], py);
    assert Frames(DropElses(program)) + [] == Frames(DropElses(program));
    var m := Steps(Running(Frames(DropElses(program)), State(map[], [])), n, py);
    assert Final(m);
  }

  /** Arriving is unambiguous, however many further steps are taken. */
  lemma ArrivalUnique(m: Machine, a: nat, b: nat, py: Operators)
    requires Final(Steps(m, a, py)) && Final(Steps(m, b, py))
    ensures Steps(m, a, py) == Steps(m, b, py)
  {
    if a <= b {
      StepsAdd(m, a, b - a, py);
      FinalStays(Steps(m, a, py), b - a, py);
    } else {
      StepsAdd(m, b, a - b, py);
      FinalStays(Steps(m, b, py), a - b, py);
    }
  }

  lemma FinalStays(m: Machine, n: nat, py: Operators)
    requires Final(m)
    ensures Steps(m, n, py) == m
  {
  }

  /** A caller can check that no for statement carries an else-block. */
  predicate ElseFree(body: seq<Stmt>)
    decreases body, 0
  {
    body == [] || (StmtElseFree(body[0]) && ElseFree(body[1..]))
  }

  predicate StmtElseFree(s: Stmt)
    decreases s, 1
  {
    match s
    case If(_, body, orelse) => ElseFree(body) && ElseFree(orelse)
    case For(_, _, body, orelse) => orelse == [] && ElseFree(body)
    case _ => true
  }

  lemma {:induction false} ElseFreeStmtUnchanged(s: Stmt)
    ensures StmtElseFree(s) <==> DropElse(s) == s
    decreases s, 1
  {
    match s {
      case If(_, body, orelse) =>
        ElseFreeUnchanged(body);
        ElseFreeUnchanged(orelse);
      case For(_, _, body, orelse) =>
        ElseFreeUnchanged(body);
      case _ =>
    }
  }

  lemma {:induction false} ElseFreeUnchanged(body: seq<Stmt>)
    ensures ElseFree(body) <==> DropElses(body) == body
    decreases body, 0
  {
    if body != [] {
      ElseFreeStmtUnchanged(body[0]);
      ElseFreeUnchanged(body[1..]);
      assert body == [body[0]] + body[1..];
      var r := DropElses(body);
      assert r[0] == DropElse(body[0]) && r[1..] == DropElses(body[1..]);
    }
  }

  /** On programs without for-else blocks the tracer is the reference semantics. */
  lemma TracerIsReference(program: seq<Stmt>, py: Operators, n: nat)
    requires ElseFree(program)
    requires Final(Steps(Running(Frames(program), State(map[], [])), n, py))
    ensures Steps(Running(Frames(program), State(map[], [])), n, py) == Arrival(ExecBody(program, State(map[], []), py), [])
  {
    ElseFreeUnchanged(program);
    var k := SimBody(program, State(map[], []), [], py);
    assert Frames(program) + [] == Frames(program);
    ArrivalUnique(Running(Frames(program), State(map[], [])), k, n, py);
  }

  /** With a for-else block it need not be: for this loop, whose body never runs, Python prints and the
      tracer does not. */
  lemma ForElseIsDropped(py: Operators)
    ensures var shown := [ExprStmt(CallExpr(Some("print"), []))];
            var program := [For(Some("i"), CallExpr(Some("range"), [Constant(Int(0))]), shown, shown)];
            && ExecBody(program, State(map[], []), py) == Ok(State(map[], []))
            && Steps(Running(Frames(program), State(map[], [])), 3, py) == Running([], State(map[], [""]))
  {
    var shown := ExprStmt(CallExpr(Some("print"), []));
    var iter := CallExpr(Some("range"), [Constant(Int(0))]);
    var loop := For(Some("i"), iter, [shown], [shown]);
    var st := State(map[], []);
    assert EvalAll([Constant(Int(0))], map[], py) == Ok([Int(0)]) by {
      var es := [Constant(Int(0))];
      assert es[1..] == [];
      assert Eval(es[0], map[], py) == Ok(Int(0));
      assert EvalAll(es[1..], map[], py) == Ok([]);
      assert EvalAll(es, map[], py) == Ok([Int(0)] + []);
      assert [Int(0)] + [] == [Int(0)];
    }
    assert Eval(iter, map[], py) == Ok(Range(0, 0, 1));
    assert RangeValues(0, 0, 1) == [];
    assert ExecStmt(loop, st, py) == Ok(st);
    assert [loop][1..] == [];
    assert ExecBody([loop], st, py) == Ok(st);
    var m0 := Running(Frames([loop]), st);
    assert m0.todo == [Do(loop)] && m0.todo[1..] == [];
    var m1 := Step(m0, py);
    assert m1 == Running([Rest("i", [], [shown], [shown])], st);
    assert m1.todo[1..] == [];
    var m2 := Step(m1, py);
    assert m2 == Running([Do(shown)], st) by { assert Frames([shown]) == [Do(shown)]; }
    assert m2.todo[1..] == [];
    var m3 := Step(m2, py);
    assert m3 == Running([], State(map[], [""]));
    assert Steps(m2, 1, py) == Steps(m3, 0, py);
    assert Steps(m1, 2, py) == Steps(m2, 1, py);
  }

  // ---------------------------------------------------------------- loops and output

  function Unroll(x: string, values: seq<Value>, body: seq<Stmt>): seq<Stmt> {
    if values == [] then [] else [Assign(Some(x), Constant(values[0]))] + body + Unroll(x, values[1..], body)
  }

  lemma {:induction false} ExecConcat(a: seq<Stmt>, b: seq<Stmt>, st: State, py: Operators)
    ensures ExecBody(a + b, st, py) == (var r := ExecBody(a, st, py); if r.Err? then r else ExecBody(b, r.value, py))
    decreases |a|
  {
    if a == [] {
      assert a + b == b;
    } else {
      assert (a + b)[1..] == a[1..] + b;
      var r := ExecStmt(a[0], st, py);
      if r.Ok? {
        ExecConcat(a[1..], b, r.value, py);
      }
    }
  }

  /** A loop over a range is its unrolling with the iteration values fixed at entry, whatever the
      body assigns, the loop variable and the names of the range expression included. */
  lemma {:induction false} LoopIsUnrolling(x: string, values: seq<Value>, body: seq<Stmt>, st: State, py: Operators)
    ensures ExecLoop(x, values, body, st, py) == ExecBody(Unroll(x, values, body), st, py)
    decreases |values|
  {
    if values != [] {
      var bind := Assign(Some(x), Constant(values[0]));
      var rest := Unroll(x, values[1..], body);
      var entered := st.(env := st.env[x := values[0]]);
      assert Unroll(x, values, body) == [bind] + (body + rest);
      assert ([bind] + (body + rest))[1..] == body + rest;
      assert ExecStmt(bind, st, py) == Ok(entered);
      ExecConcat(body, rest, entered, py);
      var r := ExecBody(body, entered, py);
      if r.Ok? {
        LoopIsUnrolling(x, values[1..], body, r.value, py);
      }
    }
  }

  /** The whole for statement, from its range to its unrolling: one pass per value of the range. */
  lemma ForIsUnrolling(x: string, iter: Expr, body: seq<Stmt>, st: State, py: Operators, r: Value)
    requires Eval(iter, st.env, py) == Ok(r) && r.Range?
    ensures ExecStmt(For(Some(x), iter, body, []), st, py)
         == ExecBody(Unroll(x, RangeValues(r.start, r.stop, r.step), body), st, py)
    ensures exists n: nat :: RangeLength(r.start, r.stop, r.step, n)
                             && ExecStmt(For(Some(x), iter, body, []), st, py) == ExecBody(Passes(x, r.start, r.step, n, body), st, py)
  {
    var values := RangeValues(r.start, r.stop, r.step);
    LoopIsUnrolling(x, values, body, st, py);
    RangeValuesExact(r.start, r.stop, r.step);
    UnrollIsPasses(x, values, r.start, r.step, body);
  }

  /** `n` passes of the body with the variable at `start`, `start + step`, ... */
  function Passes(x: string, start: int, step: int, n: nat, body: seq<Stmt>): seq<Stmt>
    decreases n
  {
    if n == 0 then [] else [Assign(Some(x), Constant(Int(start)))] + body + Passes(x, start + step, step, n - 1, body)
  }

  lemma {:induction false} UnrollIsPasses(x: string, values: seq<Value>, start: int, step: int, body: seq<Stmt>)
    requires forall i :: 0 <= i < |values| ==> values[i] == Int(start + i * step)
    ensures Unroll(x, values, body) == Passes(x, start, step, |values|, body)
  {
    if values != [] {
      forall i | 0 <= i < |values[1..]| ensures values[1..][i] == Int(start + step + i * step) {
        OneStepOn(start, step, i + 1);
      }
      UnrollIsPasses(x, values[1..], start + step, step, body);
    }
  }

  /** Output is only ever appended and no name disappears. */
  predicate Grows(a: State, b: State) { a.output <= b.output && a.env.Keys <= b.env.Keys }

  lemma {:induction false} StmtGrows(s: Stmt, st: State, py: Operators)
    requires ExecStmt(s, st, py).Ok?
    ensures Grows(st, ExecStmt(s, st, py).value)
    decreases s, 2, 0
  {
    match s {
      case If(test, body, orelse) =>
        var b := EvalBool(test, st.env, py);
        BodyGrows(if b.value then body else orelse, st, py);
      case For(target, iter, body, orelse) =>
        var r := Eval(iter, st.env, py).value;
        LoopGrows(target.value, RangeValues(r.start, r.stop, r.step), body, st, py);
      case _ =>
    }
  }

  lemma {:induction false} BodyGrows(body: seq<Stmt>, st: State, py: Operators)
    requires ExecBody(body, st, py).Ok?
    ensures Grows(st, ExecBody(body, st, py).value)
    decreases body, 0, 0
  {
    if body != [] {
      StmtGrows(body[0], st, py);
      BodyGrows(body[1..], ExecStmt(body[0], st, py).value, py);
    }
  }

  lemma {:induction false} LoopGrows(x: string, values: seq<Value>, body: seq<Stmt>, st: State, py: Operators)
    requires ExecLoop(x, values, body, st, py).Ok?
    ensures Grows(st, ExecLoop(x, values, body, st, py).value)
    decreases body, 1, |values|
  {
    if values != [] {
      var entered := st.(env := st.env[x := values[0]]);
      BodyGrows(body, entered, py);
      LoopGrows(x, values[1..], body, ExecBody(body, entered, py).value, py);
    }
  }
}
