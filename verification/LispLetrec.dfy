/** `letrec`: every binding sees every sibling, and the mutually recursive
    even?/odd? program computes parity. */
module LispLetrec {
  import opened Common
  import opened LispSyntax
  import opened LispEval
  import opened LispLet

  // ---- siblings ----

  /** The last binding of a name wins; names bound by none keep their meaning. */
  lemma {:induction false} BindCellsLookup(env: Env, bs: seq<Binding>, base: nat, x: string)
    ensures
      var r := BindCells(env, bs, base).Lookup(x);
      || (r == env.Lookup(x) && forall i :: 0 <= i < |bs| ==> bs[i].name != x)
      || exists i :: 0 <= i < |bs| && bs[i].name == x && r == Some(Thunk(base + i))
                     && forall j :: i < j < |bs| ==> bs[j].name != x
    decreases bs
  {
    if bs != [] {
      var rest := bs[1..];
      BindCellsLookup(env.Extend(bs[0].name, Thunk(base)), rest, base + 1, x);
      var r := BindCells(env, bs, base).Lookup(x);
      if i :| 0 <= i < |rest| && rest[i].name == x && r == Some(Thunk(base + 1 + i))
              && forall j :: i < j < |rest| ==> rest[j].name != x {
        assert bs[i + 1].name == x && r == Some(Thunk(base + (i + 1)));
        forall j | i + 1 < j < |bs| ensures bs[j].name != x { assert bs[j] == rest[j - 1]; }
      } else {
        forall j | 0 < j < |bs| ensures bs[j].name != x { assert bs[j] == rest[j - 1]; }
        if bs[0].name == x {
          assert r == Some(Thunk(base + 0));
        }
      }
    }
  }

  predicate DistinctNames(bs: seq<Binding>) {
    forall k, l :: 0 <= k < l < |bs| ==> bs[k].name != bs[l].name
  }

  /** With distinct names, each new cell holds its own expression and an environment
      in which every name of the group is the cell of that name. */
  lemma LetrecSeesSiblings(st: State, bs: seq<Binding>, env: Env, i: nat, j: nat)
    requires i < |bs| && j < |bs| && DistinctNames(bs)
    ensures
      var (env', st') := AllocLetrec(st, bs, env);
      && |st'.heap| == |st.heap| + |bs|
      && st'.heap[|st.heap| + i] == Unevaluated(bs[i].expr, env')
      && st'.heap[|st.heap| + i].env.Lookup(bs[j].name) == Some(Thunk(|st.heap| + j))
  {
    hide Evolves, AllocLetrec, Reparent, Fresh, BindCells, DistinctNames;
    SiblingLookup(env, bs, |st.heap|, j);
    var (env', st') := AllocLetrec(st, bs, env);
    assert st'.heap[|st.heap| + i] == Fresh(bs, env')[i];
  }

  lemma SiblingLookup(env: Env, bs: seq<Binding>, base: nat, j: nat)
    requires j < |bs| && DistinctNames(bs)
    ensures BindCells(env, bs, base).Lookup(bs[j].name) == Some(Thunk(base + j))
  {
    BindCellsLookup(env, bs, base, bs[j].name);
  }

  // ---- even?/odd? ----

  function Call(f: string, args: seq<Sexp>): Sexp { Form([SymbolForm(f)] + args) }

  /** (if (= n 0) stop (other (- n 1))) */
  function ParityBody(stop: bool, other: string): Sexp {
    Form([SymbolForm("if"), Call("=", [SymbolForm("n"), Leaf(Num(0))]), Leaf(Boolean(stop)),
          Call(other, [Call("-", [SymbolForm("n"), Leaf(Num(1))])])])
  }

  function ParityLambda(stop: bool, other: string): Sexp {
    Form([SymbolForm("lambda"), Form([SymbolForm("n")]), ParityBody(stop, other)])
  }

  function Name(even: bool): string { if even then "even?" else "odd?" }

  /** The expression bound to even? (or odd?) and its body. */
  function Source(even: bool): Sexp { ParityLambda(even, Name(!even)) }
  function Body(even: bool): Sexp { ParityBody(even, Name(!even)) }

  function Bindings(): seq<Binding> {
    [Binding("even?", Source(true)), Binding("odd?", Source(false))]
  }

  /** (letrec ((even? ...) (odd? ...)) (even? k)) */
  function Program(k: int): Sexp {
    Form([SymbolForm("letrec"), Form(BindingForms(Bindings())), Call("even?", [Leaf(Num(k))])])
  }

  /** `=` and `-` are the builtins, as in the root environment of a new interpreter. */
  ghost predicate HasBuiltins(env: Env) {
    && env.Lookup("=") == Some(Builtin("=", Exact(2)))
    && env.Lookup("-") == Some(Builtin("-", AtLeast(1)))
  }

  ghost predicate StandardBuiltins(I: Interpreter) {
    && (forall a, b :: I.builtins("=", [Int(a), Int(b)]) == Ok(Bool(a == b)))
    && (forall args :: I.builtins("-", args) == Subtract(args))
  }

  function Closure(even: bool, env: Env): Value { Lambda(["n"], None, [Body(even)], env) }

  function Cell(even: bool, base: nat): nat { if even then base else base + 1 }

  /** Each of the two cells is still unevaluated or already holds its closure. */
  ghost predicate Ready(st: State, base: nat, env: Env) {
    && |st.heap| >= base + 2
    && HasBuiltins(env)
    && forall even: bool ::
         && env.Lookup(Name(even)) == Some(Thunk(Cell(even, base)))
         && (|| st.heap[Cell(even, base)] == Unevaluated(Source(even), env)
             || st.heap[Cell(even, base)] == Forced(Closure(even, env)))
  }

  lemma SourceEvaluates(I: Interpreter, n: nat, even: bool, env: Env, st: State)
    requires n >= 1
    ensures I.Eval(n, Source(even), env, st) == Run(Ok(Closure(even, env)), st)
  {
    hide Evolves;
    var bs := [Binding("n", NilForm)];
    assert NameForms(bs) == [SymbolForm("n")] && Names(bs) == ["n"];
    assert LambdaItems(bs, [Body(even)]) == Source(even).items;
    LambdaEvaluates(I, n, bs, [Body(even)], env, st);
  }

  lemma ForceReady(I: Interpreter, n: nat, even: bool, base: nat, env: Env, st: State) returns (st': State)
    requires n >= 2 && Ready(st, base, env)
    ensures I.Force(n, Thunk(Cell(even, base)), st) == Run(Ok(Closure(even, env)), st')
    ensures Ready(st', base, env) && st'.root == st.root
  {
    hide Evolves;
    var a := Cell(even, base);
    st' := I.Force(n, Thunk(a), st).st;
    if st.heap[a].Unevaluated? {
      SourceEvaluates(I, n - 1, even, env, Start(st, a));
      assert I.RunThunk(n - 1, Source(even), env, Start(st, a)) == Run(Ok(Closure(even, env)), Start(st, a));
      assert st' == Finish(Start(st, a), a, Closure(even, env));
      forall e: bool
        ensures || st'.heap[Cell(e, base)] == Unevaluated(Source(e), env)
                || st'.heap[Cell(e, base)] == Forced(Closure(e, env))
      {
        if e != even {
          assert st'.heap[Cell(e, base)] == st.heap[Cell(e, base)];
        }
      }
    }
  }

  /** A builtin applied to two atoms. */
  lemma CallTwo(I: Interpreter, n: nat, f: string, arity: Arity, x: Sexp, y: Sexp, v: Value, w: Value, env: Env,
                st: State)
    requires n >= 2 && Classify(f).NotSpecial? && arity.Check(2)
    requires env.Lookup(f) == Some(Builtin(f, arity))
    requires x.Leaf? && EvalAtom(x.atom, env) == Ok(v) && !v.Thunk?
    requires y.Leaf? && EvalAtom(y.atom, env) == Ok(w) && !w.Thunk?
    ensures I.Eval(n, Call(f, [x, y]), env, st) == Run(I.builtins(f, [v, w]), st)
  {
    hide Evolves;
    var items := [SymbolForm(f)] + [x, y];
    assert items[1..] == [x, y];
    assert [x, y][1..] == [y];
    EvalOne(I, n - 1, y, env, st);
    assert [v] + [w] == [v, w];
    assert I.EvalAll(n - 1, [x, y], env, st) == Run(Ok([v, w]), st);
    ForceAllPlain(I, n - 1, [v, w], st);
    var b := Builtin(f, arity);
    assert I.Apply(n - 1, b, [v, w], st) == I.Enter(n - 1, b, [v, w], st);
    assert I.EvalCall(n - 1, items, env, st) == I.Apply(n - 1, b, [v, w], st);
  }

  lemma Distinct()
    ensures "=" != "n" && "-" != "n" && "even?" != "n" && "odd?" != "n" && "even?" != "odd?"
    ensures "=" != "even?" && "=" != "odd?" && "-" != "even?" && "-" != "odd?"
    ensures Classify("=").NotSpecial? && Classify("-").NotSpecial?
    ensures Classify("even?").NotSpecial? && Classify("odd?").NotSpecial?
  {
    assert |"odd?"| == 4 && |"even?"| == 5 && |"n"| == 1;
    assert "odd?"[0] == 'o' && "even?"[0] == 'e' && "n"[0] == 'n' && "="[0] == '=' && "-"[0] == '-';
    assert "begin"[0] == 'b' && "quote"[0] == 'q';
  }

  /** Calling the closure on k, with both cells ready, answers the parity of k. */
  lemma {:induction false} ParityLoop(I: Interpreter, n: nat, even: bool, k: nat, base: nat, env: Env, st: State)
    returns (st': State)
    requires StandardBuiltins(I) && Ready(st, base, env) && InI64(k) && n >= 2 * k + 4
    ensures I.EvalBody(n, [Body(even)], env.Extend("n", Int(k)), st) == Run(Ok(Bool(even == (k % 2 == 0))), st')
    ensures Ready(st', base, env) && st'.root == st.root
    decreases k, 0
  {
    hide Evolves, StandardBuiltins, HasBuiltins, Ready;
    var env' := env.Extend("n", Int(k));
    ReadyNames(st, base, env, !even);
    BodyOne(I, n, Body(even), env', st);
    StillBuiltins(env, Int(k));
    ParityTest(I, n, even, k, env', st);
    if k == 0 {
      st' := st;
    } else {
      var next := Call("-", [SymbolForm("n"), Leaf(Num(1))]);
      OneLess(I, n - 2, k, env', st);
      Distinct();
      st' := ParityStep(I, n - 2, !even, k - 1, base, env, env', next, st);
    }
  }

  lemma ReadyNames(st: State, base: nat, env: Env, even: bool)
    requires Ready(st, base, env)
    ensures HasBuiltins(env) && env.Lookup(Name(even)) == Some(Thunk(Cell(even, base)))
  {}

  lemma StillBuiltins(env: Env, v: Value)
    requires HasBuiltins(env)
    ensures HasBuiltins(env.Extend("n", v))
  {
    Distinct();
  }

  /** The argument of the other function. */
  lemma OneLess(I: Interpreter, n: nat, k: nat, env: Env, st: State)
    requires StandardBuiltins(I) && HasBuiltins(env) && env.Lookup("n") == Some(Int(k)) && 1 <= k && InI64(k) && n >= 2
    ensures I.EvalAll(n, [Call("-", [SymbolForm("n"), Leaf(Num(1))])], env, st) == Run(Ok([Int(k - 1)]), st)
  {
    hide Evolves;
    Distinct();
    CallTwo(I, n, "-", AtLeast(1), SymbolForm("n"), Leaf(Num(1)), Int(k), Int(1), env, st);
    SubtractOne(k);
    EvalOne(I, n, Call("-", [SymbolForm("n"), Leaf(Num(1))]), env, st);
  }

  /** The test of the body selects the constant at 0 and the other function elsewhere. */
  lemma ParityTest(I: Interpreter, n: nat, even: bool, k: nat, env: Env, st: State)
    requires StandardBuiltins(I) && HasBuiltins(env) && env.Lookup("n") == Some(Int(k)) && n >= 4
    ensures I.Eval(n, Body(even), env, st) ==
              if k == 0 then Run(Ok(Bool(even)), st)
              else I.EvalCall(n - 2, Body(even).items[3].items, env, st)
  {
    hide Evolves, HasBuiltins;
    var items := Body(even).items;
    var test := Call("=", [SymbolForm("n"), Leaf(Num(0))]);
    TestRuns(I, n - 1, k, env, st);
    IfSelects(I, n, test, items[2], items[3], env, st);
    if k != 0 {
      Distinct();
      NamedCall(I, n - 1, Name(!even), items[3].items[1..], env, st);
      assert items[3].items == [SymbolForm(Name(!even))] + items[3].items[1..];
    }
  }

  lemma TestRuns(I: Interpreter, n: nat, k: nat, env: Env, st: State)
    requires StandardBuiltins(I) && HasBuiltins(env) && env.Lookup("n") == Some(Int(k)) && n >= 2
    ensures I.Eval(n, Call("=", [SymbolForm("n"), Leaf(Num(0))]), env, st) == Run(Ok(Bool(k == 0)), st)
  {
    hide Evolves;
    Distinct();
    CallTwo(I, n, "=", Exact(2), SymbolForm("n"), Leaf(Num(0)), Int(k), Int(0), env, st);
  }

  lemma SubtractOne(k: nat)
    requires 1 <= k && InI64(k)
    ensures Subtract([Int(k), Int(1)]) == Ok(Int(k - 1))
  {
    assert [Int(k), Int(1)][1..] == [Int(1)];
    assert [Int(1)][1..] == [];
    assert SubtractFrom(k, [Int(1)]) == SubtractFrom(Wrap(k - 1), []);
  }

  /** (even? arg) or (odd? arg), when arg evaluates to k in this state. */
  lemma {:induction false} ParityStep(I: Interpreter, n: nat, even: bool, k: nat, base: nat, env: Env, env': Env,
                                      arg: Sexp, st: State)
    returns (st': State)
    requires StandardBuiltins(I) && Ready(st, base, env) && InI64(k) && n >= 2 * k + 4
    requires env'.Lookup(Name(even)) == Some(Thunk(Cell(even, base)))
    requires I.EvalAll(n, [arg], env', st) == Run(Ok([Int(k)]), st)
    ensures I.EvalCall(n, Call(Name(even), [arg]).items, env', st) == Run(Ok(Bool(even == (k % 2 == 0))), st')
    ensures Ready(st', base, env) && st'.root == st.root
    decreases k, 1
  {
    hide Evolves;
    var f := Thunk(Cell(even, base));
    ForceAllPlain(I, n, [Int(k)], st);
    var forced := ForceReady(I, n, even, base, env, st);
    st' := ParityLoop(I, n, even, k, base, env, forced);
    assert [SymbolForm(Name(even))] + [arg] == [SymbolForm(Name(even)), arg];
    assert [SymbolForm(Name(even)), arg][1..] == [arg];
    assert ExtendAll(env, ["n"], [Int(k)]) == env.Extend("n", Int(k)) by {
      assert ["n"][1..] == [] && [Int(k)][1..] == [];
    }
    assert I.Apply(n, f, [Int(k)], st) == I.Enter(n, Closure(even, env), [Int(k)], forced);
  }

  /** Reading back the printed bindings gives the bindings. */
  lemma {:induction false} BindingsRoundTrip(bs: seq<Binding>)
    ensures ParseLetrec(BindingForms(bs)) == Ok(bs)
    decreases bs
  {
    if bs != [] {
      BindingsRoundTrip(bs[1..]);
      assert BindingForms(bs)[1..] == BindingForms(bs[1..]);
      assert [bs[0]] + bs[1..] == bs;
    }
  }

  lemma ProgramReady(env: Env, st: State)
    requires HasBuiltins(env)
    ensures
      var (env', st') := AllocLetrec(st, Bindings(), env);
      Ready(st', |st.heap|, env')
  {
    hide Evolves;
    Distinct();
    var bs := Bindings();
    var (env', st') := AllocLetrec(st, bs, env);
    BindCellsLookup(env, bs, |st.heap|, "=");
    BindCellsLookup(env, bs, |st.heap|, "-");
    forall even: bool
      ensures && env'.Lookup(Name(even)) == Some(Thunk(Cell(even, |st.heap|)))
              && st'.heap[Cell(even, |st.heap|)] == Unevaluated(Source(even), env')
    {
      var i := if even then 0 else 1;
      LetrecSeesSiblings(st, bs, env, i, i);
    }
  }

  /** For every natural number k of i64 the program answers whether k is even, from
      any heap and root, with any fuel from 2k + 6 on. */
  lemma EvenOddComputesParity(I: Interpreter, n: nat, k: nat, env: Env, st: State)
    requires StandardBuiltins(I) && HasBuiltins(env) && InI64(k) && n >= 2 * k + 6
    ensures I.Eval(n, Program(k), env, st).out == Ok(Bool(k % 2 == 0))
    ensures I.Eval(n, Program(k), env, st).st.root == st.root
  {
    hide Evolves, StandardBuiltins, HasBuiltins, Ready, AllocLetrec;
    var bs := Bindings();
    ProgramReady(env, st);
    var (env', st') := AllocLetrec(st, bs, env);
    var call := Call("even?", [Leaf(Num(k))]);
    EvalOne(I, n - 2, Leaf(Num(k)), env', st');
    ReadyNames(st', |st.heap|, env', true);
    var final := ParityStep(I, n - 2, true, k, |st.heap|, env', env', Leaf(Num(k)), st');
    Distinct();
    NamedCall(I, n - 1, "even?", [Leaf(Num(k))], env', st');
    BodyOne(I, n - 1, call, env', st');
    ProgramRuns(I, n, k, env, st);
  }

  /** The program allocates the two cells and evaluates the call. */
  lemma ProgramRuns(I: Interpreter, n: nat, k: nat, env: Env, st: State)
    requires n >= 2
    ensures
      var (env', st') := AllocLetrec(st, Bindings(), env);
      I.Eval(n, Program(k), env, st) == I.EvalBody(n - 1, [Call("even?", [Leaf(Num(k))])], env', st')
  {
    hide Evolves, AllocLetrec;
    BindingsRoundTrip(Bindings());
    var items := Program(k).items;
    assert items[2..] == [Call("even?", [Leaf(Num(k))])];
    assert Classify("letrec") == SLetrec;
    assert I.Eval(n, Program(k), env, st) == I.EvalLetrec(n - 1, items, env, st);
  }
}
