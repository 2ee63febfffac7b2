/** The tree-walking evaluator (tatara-eval/src/interpreter.rs), written as a
    store-passing function: the heap holds the thunk cells, `root` is the mutable
    top-level environment. Only `Eval`, `Quasi` and `Force` spend fuel; a run that
    has enough of it never answers `OutOfFuel`. */
module LispEval {
  import opened Common
  import opened LispSyntax

  datatype Cell =
    | Unevaluated(body: Sexp, env: Env)
    | Evaluating
    | Forced(v: Value)

  /** `starts` lists the addresses whose body has been started, oldest first. */
  datatype State = State(heap: seq<Cell>, root: Env, starts: seq<nat>)

  datatype Run<+T> = Run(out: Outcome<T>, st: State)

  // ---- what every call keeps ----

  /** How one cell may change during a call. */
  predicate CellStep(a: Cell, b: Cell) {
    match a
    case Unevaluated(_, _) => true
    case Evaluating => b.Evaluating?
    case Forced(_) => b == a
  }

  /** An unevaluated cell keeps its body and environment until it is started. */
  predicate CellKeeps(a: Cell, b: Cell) {
    CellStep(a, b) && (a.Unevaluated? && b.Unevaluated? ==> a == b)
  }

  ghost predicate HeapGrows(h: seq<Cell>, h': seq<Cell>) {
    |h| <= |h'| && forall a :: 0 <= a < |h| ==> CellKeeps(h[a], h'[a])
  }

  /** No body is started twice, the started cells are exactly those that are no
      longer unevaluated, and no forced cell holds another thunk. */
  ghost predicate Inv(st: State) {
    && (forall i, j :: 0 <= i < j < |st.starts| ==> st.starts[i] != st.starts[j])
    && (forall a :: a in st.starts ==> a < |st.heap|)
    && (forall a :: 0 <= a < |st.heap| ==> (a in st.starts <==> !st.heap[a].Unevaluated?))
    && (forall a :: 0 <= a < |st.heap| && st.heap[a].Forced? ==> !st.heap[a].v.Thunk?)
  }

  ghost predicate Evolves(st: State, st': State) {
    HeapGrows(st.heap, st'.heap) && (Inv(st) ==> Inv(st')) && st.starts <= st'.starts
  }

  // ---- the three state changes ----

  function Start(st: State, a: nat): (r: State)
    requires a < |st.heap| && st.heap[a].Unevaluated?
    ensures Evolves(st, r)
  {
    State(st.heap[a := Evaluating], st.root, st.starts + [a])
  }

  function Finish(st: State, a: nat, v: Value): State
    requires a < |st.heap|
  {
    st.(heap := st.heap[a := Forced(v)])
  }

  function Define(st: State, name: string, v: Value): State {
    st.(root := st.root.Extend(name, v))
  }

  /** `letrec`: one cell per binding is cells with the outer environment, the
      names are bound to the cells, then every cell is re-parented to the
      environment that has all the names. */
  function BindCells(env: Env, bs: seq<Binding>, base: nat): Env
    decreases bs
  {
    if bs == [] then env
    else BindCells(env.Extend(bs[0].name, Thunk(base)), bs[1..], base + 1)
  }

  function Fresh(bs: seq<Binding>, env: Env): (r: seq<Cell>)
    ensures |r| == |bs| && forall i :: 0 <= i < |r| ==> r[i] == Unevaluated(bs[i].expr, env)
  {
    seq(|bs|, i requires 0 <= i < |bs| => Unevaluated(bs[i].expr, env))
  }

  function Reparent(heap: seq<Cell>, base: nat, env: Env): (r: seq<Cell>)
    requires base <= |heap|
    ensures |r| == |heap| && r[..base] == heap[..base]
    ensures forall i :: base <= i < |r| && heap[i].Unevaluated? ==> r[i] == Unevaluated(heap[i].body, env)
  {
    seq(|heap|, i requires 0 <= i < |heap| =>
      if i >= base && heap[i].Unevaluated? then Unevaluated(heap[i].body, env) else heap[i])
  }

  function AllocLetrec(st: State, bs: seq<Binding>, env: Env): (r: (Env, State))
    ensures Evolves(st, r.1)
    ensures r.0 == BindCells(env, bs, |st.heap|)
    ensures r.1 == st.(heap := st.heap + Fresh(bs, r.0))
  {
    var base := |st.heap|;
    var cells := st.heap + Fresh(bs, env);
    var env' := BindCells(env, bs, base);
    var heap' := Reparent(cells, base, env');
    assert heap' == st.heap + Fresh(bs, env');
    (env', st.(heap := heap'))
  }

  // ---- the evaluator ----

  datatype Interpreter = Interpreter(builtins: (string, seq<Value>) -> Outcome<Value>) {

    function Eval(n: nat, s: Sexp, env: Env, st: State): (r: Run<Value>)
      ensures Evolves(st, r.st)
      decreases n, 0, 0
    {
      if n == 0 then Run(OutOfFuel, st)
      else
        match s
        case NilForm => Run(Ok(Nil), st)
        case Leaf(a) => Run(EvalAtom(a, env), st)
        case Quote(x) => Run(Ok(SexpToValue(x)), st)
        case Quasiquote(x) => Quasi(n - 1, x, env, st)
        case Unquote(_) => Run(Err(Malformed("unquote")), st)
        case UnquoteSplice(_) => Run(Err(Malformed("unquote")), st)
        case Form(items) =>
          if items == [] then Run(Ok(Nil), st)
          else if IsSymbol(items[0]) && !Classify(items[0].atom.name).NotSpecial? then
            EvalSpecial(n - 1, Classify(items[0].atom.name), items, env, st)
          else EvalCall(n - 1, items, env, st)
    }

    function EvalSpecial(n: nat, form: Special, items: seq<Sexp>, env: Env, st: State): (r: Run<Value>)
      requires !form.NotSpecial? && items != []
      ensures Evolves(st, r.st)
      decreases n, 5, 0
    {
      match form
      case SQuote =>
        if |items| != 2 then Run(Err(Malformed("quote")), st)
        else Run(Ok(SexpToValue(items[1])), st)
      case SIf => EvalIf(n, items, env, st)
      case SLet => EvalLet(n, items, env, st)
      case SLetrec => EvalLetrec(n, items, env, st)
      case SLambda => Run(MakeLambda(items, env), st)
      case SDefine => EvalDefine(n, items, env, st)
      case SBegin => EvalBody(n, items[1..], env, st)
      case SAnd => EvalLogic(n, true, Bool(true), items[1..], env, st)
      case SOr => EvalLogic(n, false, Bool(false), items[1..], env, st)
    }

    static function MakeLambda(items: seq<Sexp>, env: Env): Outcome<Value> {
      if |items| < 3 then Err(Malformed("lambda"))
      else
        match ParseParams(items[1])
        case Ok(p) => Ok(Lambda(p.names, p.rest, items[2..], env))
        case Err(e) => Err(e)
        case OutOfFuel => OutOfFuel
    }

    function EvalCall(n: nat, items: seq<Sexp>, env: Env, st: State): (r: Run<Value>)
      requires items != []
      ensures Evolves(st, r.st)
      decreases n, 5, 0
    {
      var h := Eval(n, items[0], env, st);
      if !h.out.Ok? then h
      else
        var a := EvalAll(n, items[1..], env, h.st);
        if !a.out.Ok? then Run(Lift(a.out), a.st)
        else Apply(n, h.out.value, a.out.value, a.st)
    }

    function EvalAll(n: nat, items: seq<Sexp>, env: Env, st: State): (r: Run<seq<Value>>)
      ensures Evolves(st, r.st)
      ensures r.out.Ok? ==> |r.out.value| == |items|
      decreases n, 1, |items|
    {
      if items == [] then Run(Ok([]), st)
      else
        var h := Eval(n, items[0], env, st);
        if !h.out.Ok? then Run(Lift(h.out), h.st)
        else
          var t := EvalAll(n, items[1..], env, h.st);
          if !t.out.Ok? then t else Run(Ok([h.out.value] + t.out.value), t.st)
    }

    /** The value of the last form, nil when there is none. */
    function EvalBody(n: nat, forms: seq<Sexp>, env: Env, st: State): (r: Run<Value>)
      ensures Evolves(st, r.st)
      decreases n, 2, 0
    {
      var a := EvalAll(n, forms, env, st);
      if !a.out.Ok? then Run(Lift(a.out), a.st)
      else Run(Ok(if a.out.value == [] then Nil else a.out.value[|a.out.value| - 1]), a.st)
    }

    /** `and` stops at the first falsy value, `or` at the first truthy one. */
    function EvalLogic(n: nat, conj: bool, last: Value, items: seq<Sexp>, env: Env, st: State): (r: Run<Value>)
      ensures Evolves(st, r.st)
      decreases n, 1, |items|
    {
      if items == [] then Run(Ok(if conj then last else Bool(false)), st)
      else
        var h := Eval(n, items[0], env, st);
        if !h.out.Ok? || h.out.value.Truthy() != conj then h
        else EvalLogic(n, conj, h.out.value, items[1..], env, h.st)
    }

    function EvalIf(n: nat, items: seq<Sexp>, env: Env, st: State): (r: Run<Value>)
      ensures Evolves(st, r.st)
      decreases n, 4, 0
    {
      if |items| < 3 || |items| > 4 then Run(Err(Malformed("if")), st)
      else
        var c := Eval(n, items[1], env, st);
        if !c.out.Ok? then c
        else if c.out.value.Truthy() then Eval(n, items[2], env, c.st)
        else if |items| == 4 then Eval(n, items[3], env, c.st)
        else Run(Ok(Nil), c.st)
    }

    function EvalDefine(n: nat, items: seq<Sexp>, env: Env, st: State): (r: Run<Value>)
      ensures Evolves(st, r.st)
      decreases n, 4, 0
    {
      if |items| != 3 || !IsSymbol(items[1]) then Run(Err(Malformed("define")), st)
      else
        var v := Eval(n, items[2], env, st);
        if !v.out.Ok? then v
        else Run(v.out, Define(v.st, items[1].atom.name, v.out.value))
    }

    function EvalLet(n: nat, items: seq<Sexp>, env: Env, st: State): (r: Run<Value>)
      ensures Evolves(st, r.st)
      decreases n, 4, 0
    {
      if |items| < 3 || !items[1].Form? then Run(Err(Malformed("let")), st)
      else
        var e := LetBindings(n, items[1].items, env, env, st);
        if !e.out.Ok? then Run(Lift(e.out), e.st)
        else EvalBody(n, items[2..], e.out.value, e.st)
    }

    /** Each value is evaluated in the outer `env` and bound in `env'`. */
    function LetBindings(n: nat, bs: seq<Sexp>, env: Env, env': Env, st: State): (r: Run<Env>)
      ensures Evolves(st, r.st)
      decreases n, 1, |bs|
    {
      if bs == [] then Run(Ok(env'), st)
      else if !bs[0].Form? || |bs[0].items| != 2 || !IsSymbol(bs[0].items[0]) then
        Run(Err(Malformed("let")), st)
      else
        var v := Eval(n, bs[0].items[1], env, st);
        if !v.out.Ok? then Run(Lift(v.out), v.st)
        else LetBindings(n, bs[1..], env, env'.Extend(bs[0].items[0].atom.name, v.out.value), v.st)
    }

    function EvalLetrec(n: nat, items: seq<Sexp>, env: Env, st: State): (r: Run<Value>)
      ensures Evolves(st, r.st)
      decreases n, 4, 0
    {
      if |items| < 3 || !items[1].Form? then Run(Err(Malformed("letrec")), st)
      else
        var bs := ParseLetrec(items[1].items);
        if !bs.Ok? then Run(Lift(bs), st)
        else
          var (env', st') := AllocLetrec(st, bs.value, env);
          EvalBody(n, items[2..], env', st')
    }

    function Quasi(n: nat, s: Sexp, env: Env, st: State): (r: Run<Value>)
      ensures Evolves(st, r.st)
      decreases n, 0, 0
    {
      if n == 0 then Run(OutOfFuel, st)
      else
        match s
        case Unquote(x) => Eval(n - 1, x, env, st)
        case Form(xs) =>
          var q := QuasiItems(n - 1, xs, env, st);
          if !q.out.Ok? then Run(Lift(q.out), q.st) else Run(Ok(List(q.out.value)), q.st)
        case Leaf(_) => Run(Ok(SexpToValue(s)), st)
        case NilForm => Run(Ok(SexpToValue(s)), st)
        case Quote(x) => Run(Ok(Quoted(x)), st)
        case Quasiquote(x) => Run(Ok(Quoted(x)), st)
        case UnquoteSplice(_) => Run(Err(Malformed("quasiquote")), st)
    }

    function QuasiItems(n: nat, xs: seq<Sexp>, env: Env, st: State): (r: Run<seq<Value>>)
      ensures Evolves(st, r.st)
      decreases n, 1, |xs|
    {
      if xs == [] then Run(Ok([]), st)
      else
        var h := if xs[0].UnquoteSplice? then Eval(n, xs[0].inner, env, st) else Quasi(n, xs[0], env, st);
        if !h.out.Ok? then Run(Lift(h.out), h.st)
        else if xs[0].UnquoteSplice? && !h.out.value.List? then Run(Err(TypeMismatch), h.st)
        else
          var vs := if xs[0].UnquoteSplice? then h.out.value.elems else [h.out.value];
          var t := QuasiItems(n, xs[1..], env, h.st);
          if !t.out.Ok? then t else Run(Ok(vs + t.out.value), t.st)
    }

    /** Arguments are forced left to right, then the function. */
    function Apply(n: nat, f: Value, args: seq<Value>, st: State): (r: Run<Value>)
      ensures Evolves(st, r.st)
      decreases n, 4, 0
    {
      var a := ForceAll(n, args, st);
      if !a.out.Ok? then Run(Lift(a.out), a.st)
      else
        var g := Force(n, f, a.st);
        if !g.out.Ok? then g else Enter(n, g.out.value, a.out.value, g.st)
    }

    /** Calls a forced function on forced arguments. */
    function Enter(n: nat, f: Value, args: seq<Value>, st: State): (r: Run<Value>)
      ensures Evolves(st, r.st)
      decreases n, 3, 0
    {
      match f
      case Builtin(name, arity) =>
        if !arity.Check(|args|) then Run(Err(WrongArity), st) else Run(builtins(name, args), st)
      case Lambda(_, _, body, _) =>
        var e := BindParams(f, args);
        if !e.Ok? then Run(Lift(e), st) else EvalBody(n, body, e.value, st)
      case _ => Run(Err(TypeMismatch), st)
    }

    function ForceAll(n: nat, vs: seq<Value>, st: State): (r: Run<seq<Value>>)
      ensures Evolves(st, r.st)
      ensures r.out.Ok? ==> |r.out.value| == |vs|
      decreases n, 1, |vs|
    {
      if vs == [] then Run(Ok([]), st)
      else
        var h := Force(n, vs[0], st);
        if !h.out.Ok? then Run(Lift(h.out), h.st)
        else
          var t := ForceAll(n, vs[1..], h.st);
          if !t.out.Ok? then t else Run(Ok([h.out.value] + t.out.value), t.st)
    }

    /** A cell is marked Evaluating before its body runs and Forced after; when
        the body fails it stays Evaluating. */
    function Force(n: nat, v: Value, st: State): (r: Run<Value>)
      ensures Evolves(st, r.st)
      ensures Inv(st) && r.out.Ok? ==> !r.out.value.Thunk?
      decreases n, 0, 0
    {
      if !v.Thunk? then Run(Ok(v), st)
      else if v.addr >= |st.heap| then Run(Err(Panic), st)
      else
        match st.heap[v.addr]
        case Forced(w) => Run(Ok(w), st)
        case Evaluating => Run(Err(Cycle), st)
        case Unevaluated(body, env) =>
          if n == 0 then Run(OutOfFuel, st)
          else
            var w := RunThunk(n - 1, body, env, Start(st, v.addr));
            if !w.out.Ok? then w else Run(w.out, Finish(w.st, v.addr, w.out.value))
    }

    function RunThunk(n: nat, body: Sexp, env: Env, st: State): (r: Run<Value>)
      ensures Evolves(st, r.st)
      ensures Inv(st) && r.out.Ok? ==> !r.out.value.Thunk?
      decreases n, 1, 0
    {
      var b := Eval(n, body, env, st);
      if !b.out.Ok? then b else Force(n, b.out.value, b.st)
    }
  }
}
