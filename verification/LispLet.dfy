/** `let` and the immediately applied `lambda`. */
module LispLet {
  import opened Common
  import opened LispSyntax
  import opened LispEval

  function SymbolForm(name: string): Sexp { Leaf(Sym(name)) }

  function LetItems(bs: seq<Binding>, body: seq<Sexp>): seq<Sexp> {
    [SymbolForm("let"), Form(BindingForms(bs))] + body
  }

  function BindingForms(bs: seq<Binding>): (r: seq<Sexp>)
    ensures |r| == |bs|
  {
    if bs == [] then []
    else [Form([SymbolForm(bs[0].name), bs[0].expr])] + BindingForms(bs[1..])
  }

  /** (let ((name expr) ...) body ...) */
  function LetForm(bs: seq<Binding>, body: seq<Sexp>): Sexp {
    Form(LetItems(bs, body))
  }

  function Names(bs: seq<Binding>): (r: seq<string>)
    ensures |r| == |bs|
  {
    seq(|bs|, i requires 0 <= i < |bs| => bs[i].name)
  }

  function Exprs(bs: seq<Binding>): (r: seq<Sexp>)
    ensures |r| == |bs|
  {
    seq(|bs|, i requires 0 <= i < |bs| => bs[i].expr)
  }

  function NameForms(bs: seq<Binding>): (r: seq<Sexp>)
    ensures |r| == |bs|
  {
    seq(|bs|, i requires 0 <= i < |bs| => SymbolForm(bs[i].name))
  }

  function LambdaItems(bs: seq<Binding>, body: seq<Sexp>): seq<Sexp> {
    [SymbolForm("lambda"), Form(NameForms(bs))] + body
  }

  /** ((lambda (name ...) body ...) expr ...) */
  function CallForm(bs: seq<Binding>, body: seq<Sexp>): Sexp {
    Form([Form(LambdaItems(bs, body))] + Exprs(bs))
  }

  predicate PlainNames(bs: seq<Binding>) {
    forall i :: 0 <= i < |bs| ==> !IsRestMarker(bs[i].name)
  }

  predicate NoThunks(vs: seq<Value>) {
    forall i :: 0 <= i < |vs| ==> !vs[i].Thunk?
  }

  // ---- the pieces ----

  lemma {:induction false} BindingsAsAll(I: Interpreter, n: nat, bs: seq<Binding>, env: Env, env': Env, st: State)
    ensures
      var a := I.EvalAll(n, Exprs(bs), env, st);
      I.LetBindings(n, BindingForms(bs), env, env', st) ==
        if a.out.Ok? then Run(Ok(ExtendAll(env', Names(bs), a.out.value)), a.st) else Run(Lift(a.out), a.st)
    decreases bs
  {
    hide Evolves;
    if bs != [] {
      var v := I.Eval(n, bs[0].expr, env, st);
      assert BindingForms(bs)[1..] == BindingForms(bs[1..]);
      assert Exprs(bs)[1..] == Exprs(bs[1..]) && Names(bs)[1..] == Names(bs[1..]);
      if v.out.Ok? {
        BindingsAsAll(I, n, bs[1..], env, env'.Extend(bs[0].name, v.out.value), v.st);
        var t := I.EvalAll(n, Exprs(bs[1..]), env, v.st);
        if t.out.Ok? {
          assert ([v.out.value] + t.out.value)[1..] == t.out.value;
        }
      }
    }
  }

  lemma {:induction false} ParsePlain(bs: seq<Binding>, i: nat)
    requires PlainNames(bs) && i <= |bs|
    ensures ParseParamsFrom(NameForms(bs), i, Names(bs)[..i], false) == Ok(Params(Names(bs), None))
    decreases |bs| - i
  {
    if i < |bs| {
      assert Names(bs)[..i] + [bs[i].name] == Names(bs)[..i + 1];
      ParsePlain(bs, i + 1);
    } else {
      assert Names(bs)[..i] == Names(bs);
    }
  }

  lemma {:induction false} ForceAllPlain(I: Interpreter, n: nat, vs: seq<Value>, st: State)
    requires NoThunks(vs)
    ensures I.ForceAll(n, vs, st) == Run(Ok(vs), st)
    decreases vs
  {
    hide Evolves;
    if vs != [] {
      ForceAllPlain(I, n, vs[1..], st);
      assert [vs[0]] + vs[1..] == vs;
    }
  }

  lemma LambdaEvaluates(I: Interpreter, n: nat, bs: seq<Binding>, body: seq<Sexp>, env: Env, st: State)
    requires PlainNames(bs) && body != [] && n >= 1
    ensures I.Eval(n, Form(LambdaItems(bs, body)), env, st) == Run(Ok(Lambda(Names(bs), None, body, env)), st)
  {
    hide Evolves;
    ParsePlain(bs, 0);
    assert Names(bs)[..0] == [];
    assert LambdaItems(bs, body)[2..] == body;
  }

  /** The body is evaluated in the environment with the values, in both forms. */
  lemma CallAsBody(I: Interpreter, n: nat, bs: seq<Binding>, body: seq<Sexp>, env: Env, st: State)
    requires PlainNames(bs) && body != [] && n >= 1
    requires I.EvalAll(n, Exprs(bs), env, st).out.Ok? ==> NoThunks(I.EvalAll(n, Exprs(bs), env, st).out.value)
    ensures
      var a := I.EvalAll(n, Exprs(bs), env, st);
      I.EvalCall(n, CallForm(bs, body).items, env, st) ==
        if a.out.Ok? then I.EvalBody(n, body, ExtendAll(env, Names(bs), a.out.value), a.st) else Run(Lift(a.out), a.st)
  {
    hide Evolves;
    LambdaEvaluates(I, n, bs, body, env, st);
    assert CallForm(bs, body).items[1..] == Exprs(bs);
    var a := I.EvalAll(n, Exprs(bs), env, st);
    if a.out.Ok? {
      ForceAllPlain(I, n, a.out.value, a.st);
      var f := Lambda(Names(bs), None, body, env);
      assert I.Apply(n, f, a.out.value, a.st) == I.Enter(n, f, a.out.value, a.st);
    }
  }

  /** A well-formed `let` is its immediately applied `lambda`: same outcome, heap,
      definitions and starts at every fuel, for every list of bindings and every
      body, when no name is a rest marker and no bound value is a thunk. */
  lemma LetIsAppliedLambda(I: Interpreter, n: nat, bs: seq<Binding>, body: seq<Sexp>, env: Env, st: State)
    requires PlainNames(bs) && body != []
    requires n >= 1 && I.EvalAll(n - 1, Exprs(bs), env, st).out.Ok? ==>
               NoThunks(I.EvalAll(n - 1, Exprs(bs), env, st).out.value)
    ensures I.Eval(n, LetForm(bs, body), env, st) == I.Eval(n, CallForm(bs, body), env, st)
  {
    hide Evolves;
    if n == 0 {
    } else {
      BindingsAsAll(I, n - 1, bs, env, env, st);
      assert LetItems(bs, body)[2..] == body;
      assert I.Eval(n, LetForm(bs, body), env, st) == I.EvalLet(n - 1, LetItems(bs, body), env, st);
      assert I.Eval(n, CallForm(bs, body), env, st) == I.EvalCall(n - 1, CallForm(bs, body).items, env, st);
      if n > 1 {
        CallAsBody(I, n - 1, bs, body, env, st);
      } else {
        assert I.EvalCall(0, CallForm(bs, body).items, env, st).out.OutOfFuel?;
      }
    }
  }

  // ---- the condition is exact ----

  lemma {:induction false} ForceAllFixes(I: Interpreter, n: nat, vs: seq<Value>, st: State)
    requires Inv(st) && I.ForceAll(n, vs, st).out.Ok?
    ensures I.ForceAll(n, vs, st).out.value == vs <==> NoThunks(vs)
    decreases vs
  {
    if vs != [] {
      var h := I.Force(n, vs[0], st);
      ForceAllFixes(I, n, vs[1..], h.st);
      var t := I.ForceAll(n, vs[1..], h.st).out.value;
      assert ([h.out.value] + t)[1..] == t;
      assert NoThunks(vs) <==> !vs[0].Thunk? && NoThunks(vs[1..]) by {
        forall i | 0 <= i < |vs| ensures i > 0 ==> vs[i] == vs[1..][i - 1] {}
      }
      assert vs == [vs[0]] + vs[1..];
    }
  }

  lemma {:induction false} ExtendAllInjective(env: Env, env': Env, names: seq<string>, vs: seq<Value>, ws: seq<Value>)
    requires |names| == |vs| == |ws|
    ensures ExtendAll(env, names, vs) == ExtendAll(env', names, ws) <==> env == env' && vs == ws
    decreases names
  {
    if names == [] {
    } else {
      var e, e' := env.Extend(names[0], vs[0]), env'.Extend(names[0], ws[0]);
      ExtendAllInjective(e, e', names[1..], vs[1..], ws[1..]);
      assert e == e' ==> e.bindings[names[0]] == e'.bindings[names[0]];
      assert vs == [vs[0]] + vs[1..] && ws == [ws[0]] + ws[1..];
    }
  }

  /** The environment `let` gives the body and the one the applied `lambda` gives it
      are equal exactly when no bound value is a thunk. */
  lemma SameEnvironmentIff(I: Interpreter, n: nat, names: seq<string>, vs: seq<Value>, env: Env, st: State)
    requires Inv(st) && |names| == |vs| && I.ForceAll(n, vs, st).out.Ok?
    ensures ExtendAll(env, names, vs) == ExtendAll(env, names, I.ForceAll(n, vs, st).out.value) <==> NoThunks(vs)
  {
    ForceAllFixes(I, n, vs, st);
    ExtendAllInjective(env, env, names, vs, I.ForceAll(n, vs, st).out.value);
  }

  lemma EvalOne(I: Interpreter, n: nat, s: Sexp, env: Env, st: State)
    ensures
      var h := I.Eval(n, s, env, st);
      I.EvalAll(n, [s], env, st) == if h.out.Ok? then Run(Ok([h.out.value]), h.st) else Run(Lift(h.out), h.st)
  {
    hide Evolves;
    assert [s][1..] == [];
    var h := I.Eval(n, s, env, st);
    assert h.out.Ok? ==> [h.out.value] + [] == [h.out.value];
  }

  /** A body of one form is that form. */
  lemma BodyOne(I: Interpreter, n: nat, s: Sexp, env: Env, st: State)
    ensures I.EvalBody(n, [s], env, st) == I.Eval(n, s, env, st)
  {
    hide Evolves;
    EvalOne(I, n, s, env, st);
  }

  lemma NamedCall(I: Interpreter, n: nat, f: string, args: seq<Sexp>, env: Env, st: State)
    requires n >= 1 && Classify(f).NotSpecial?
    ensures I.Eval(n, Form([SymbolForm(f)] + args), env, st) == I.EvalCall(n - 1, [SymbolForm(f)] + args, env, st)
  {
    hide Evolves;
    assert ([SymbolForm(f)] + args)[0] == SymbolForm(f);
  }

  lemma UnboundHead(I: Interpreter, n: nat, f: string, args: seq<Sexp>, env: Env, st: State)
    requires n >= 2 && Classify(f).NotSpecial? && env.Lookup(f).None?
    ensures I.Eval(n, Form([SymbolForm(f)] + args), env, st) == Run(Err(Unbound(f)), st)
  {
    hide Evolves;
    NamedCall(I, n, f, args, env, st);
    assert ([SymbolForm(f)] + args)[0] == SymbolForm(f);
    assert I.Eval(n - 1, SymbolForm(f), env, st) == Run(Err(Unbound(f)), st);
  }

  lemma BodyIsX(I: Interpreter, n: nat, env: Env, v: Value, st: State)
    requires n >= 1
    ensures I.EvalBody(n, [SymbolForm("x")], ExtendAll(env, ["x"], [v]), st) == Run(Ok(v), st)
  {
    hide Evolves;
    var env' := ExtendAll(env, ["x"], [v]);
    assert env' == env.Extend("x", v) by { assert ["x"][1..] == [] && [v][1..] == []; }
    EvalOne(I, n, SymbolForm("x"), env', st);
  }

  /** (let ((x a)) x) answers the thunk that a is bound to ... */
  lemma LetKeepsThunk(I: Interpreter, n: nat, env: Env, t: nat, st: State)
    requires n >= 2 && env.Lookup("a") == Some(Thunk(t))
    ensures I.Eval(n, LetForm([Binding("x", SymbolForm("a"))], [SymbolForm("x")]), env, st) == Run(Ok(Thunk(t)), st)
  {
    hide Evolves;
    var bs, body := [Binding("x", SymbolForm("a"))], [SymbolForm("x")];
    BindingsAsAll(I, n - 1, bs, env, env, st);
    assert Exprs(bs) == [SymbolForm("a")] && Names(bs) == ["x"];
    EvalOne(I, n - 1, SymbolForm("a"), env, st);
    BodyIsX(I, n - 1, env, Thunk(t), st);
    assert LetItems(bs, body)[2..] == body;
    assert I.Eval(n, LetForm(bs, body), env, st) == I.EvalLet(n - 1, LetItems(bs, body), env, st);
  }

  /** ... while ((lambda (x) x) a) answers the value it was forced to, so the
      condition of LetIsAppliedLambda cannot be dropped. */
  lemma CallForcesThunk(I: Interpreter, n: nat, env: Env, t: nat, st: State)
    requires n >= 2 && env.Lookup("a") == Some(Thunk(t)) && t < |st.heap| && st.heap[t].Forced?
    ensures I.Eval(n, CallForm([Binding("x", SymbolForm("a"))], [SymbolForm("x")]), env, st) ==
              Run(Ok(st.heap[t].v), st)
  {
    hide Evolves;
    var bs, body := [Binding("x", SymbolForm("a"))], [SymbolForm("x")];
    var v := st.heap[t].v;
    LambdaEvaluates(I, n - 1, bs, body, env, st);
    assert Exprs(bs) == [SymbolForm("a")] && Names(bs) == ["x"];
    EvalOne(I, n - 1, SymbolForm("a"), env, st);
    assert I.ForceAll(n - 1, [Thunk(t)], st) == Run(Ok([v]), st) by {
      assert [Thunk(t)][1..] == [];
      assert [v] + [] == [v];
    }
    BodyIsX(I, n - 1, env, v, st);
    var f := Lambda(["x"], None, body, env);
    assert I.Apply(n - 1, f, [Thunk(t)], st) == I.Enter(n - 1, f, [v], st);
    assert CallForm(bs, body).items[1..] == Exprs(bs);
    assert I.Eval(n, CallForm(bs, body), env, st) == I.EvalCall(n - 1, CallForm(bs, body).items, env, st);
  }

  lemma IfSelects(I: Interpreter, n: nat, test: Sexp, a: Sexp, b: Sexp, env: Env, st: State)
    requires n >= 1
    ensures
      var c := I.Eval(n - 1, test, env, st);
      I.Eval(n, Form([SymbolForm("if"), test, a, b]), env, st) ==
        if !c.out.Ok? then c else I.Eval(n - 1, if c.out.value.Truthy() then a else b, env, c.st)
  {
    hide Evolves;
    var items := [SymbolForm("if"), test, a, b];
    assert Classify("if") == SIf;
    assert I.Eval(n, Form(items), env, st) == I.EvalIf(n - 1, items, env, st);
  }

  /** A condition that evaluates to a thunk selects the first branch, and the thunk is not
      forced: not even one that holds false already. */
  lemma ThunkIsTrue(I: Interpreter, n: nat, name: string, x: Sexp, y: Sexp, env: Env, t: nat, st: State)
    requires n >= 2 && env.Lookup(name) == Some(Thunk(t))
    ensures I.Eval(n, Form([SymbolForm("if"), SymbolForm(name), x, y]), env, st) == I.Eval(n - 1, x, env, st)
  {
    hide Evolves;
    IfSelects(I, n, SymbolForm(name), x, y, env, st);
  }
}
