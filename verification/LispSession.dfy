/** Top-level evaluation: the interpreter object, whose root is extended by `define`
    and read once per top-level form. */
module LispSession {
  import opened Common
  import opened LispSyntax
  import opened LispEval
  import opened LispLockstep
  import opened LispLet

  /** Each form is evaluated in the root that the forms before it left behind. */
  function EvalForms(I: Interpreter, n: nat, forms: seq<Sexp>, last: Value, st: State): (r: Run<Value>)
    ensures Evolves(st, r.st)
    decreases forms
  {
    if forms == [] then Run(Ok(last), st)
    else
      var h := I.Eval(n, forms[0], st.root, st);
      if !h.out.Ok? then h else EvalForms(I, n, forms[1..], h.out.value, h.st)
  }

  class Session {
    const interp: Interpreter
    var st: State

    constructor (interp: Interpreter, root: Env)
      ensures this.interp == interp && st == State([], root, []) && Inv(st)
    {
      this.interp := interp;
      st := State([], root, []);
    }

    /** `eval_forms`; over a whole session no body is started twice and no forced
        cell changes, whatever fails on the way. */
    method RunForms(n: nat, forms: seq<Sexp>) returns (out: Outcome<Value>)
      requires Inv(st)
      modifies this
      ensures Run(out, st) == EvalForms(interp, n, forms, Nil, old(st))
      ensures Inv(st) && HeapGrows(old(st.heap), st.heap)
    {
      hide Evolves, Inv;
      out := Ok(Nil);
      assert forms[0..] == forms;
      for i := 0 to |forms|
        invariant out.Ok?
        invariant EvalForms(interp, n, forms, Nil, old(st)) == EvalForms(interp, n, forms[i..], out.value, st)
      {
        var h := interp.Eval(n, forms[i], st.root, st);
        assert forms[i..][0] == forms[i] && forms[i..][1..] == forms[i + 1..];
        out, st := h.out, h.st;
        if !out.Ok? {
          SessionKeeps(interp, n, forms, old(st));
          return;
        }
      }
      SessionKeeps(interp, n, forms, old(st));
    }
  }

  lemma SessionKeeps(I: Interpreter, n: nat, forms: seq<Sexp>, st: State)
    requires Inv(st)
    ensures Inv(EvalForms(I, n, forms, Nil, st).st)
    ensures HeapGrows(st.heap, EvalForms(I, n, forms, Nil, st).st.heap)
  {
    hide Inv;
  }

  // ---- a function that names itself ----

  /** `(define f (lambda ...))` at the top level, for any parameter list and body. */
  function DefineForm(f: string, lam: seq<Sexp>): Sexp {
    Form([SymbolForm("define"), SymbolForm(f), Form(lam)])
  }

  predicate IsLambda(lam: seq<Sexp>) {
    lam != [] && IsSymbol(lam[0]) && Classify(lam[0].atom.name) == SLambda
  }

  /** It binds `f`, on top of the root, to a closure over the root from before. */
  lemma DefineCapturesOldRoot(I: Interpreter, n: nat, f: string, lam: seq<Sexp>, st: State)
    requires n >= 2 && IsLambda(lam) && Interpreter.MakeLambda(lam, st.root).Ok?
    ensures
      var v := Interpreter.MakeLambda(lam, st.root).value;
      && v.Lambda? && v.env == st.root
      && I.Eval(n, DefineForm(f, lam), st.root, st) == Run(Ok(v), Define(st, f, v))
      && Define(st, f, v).root.Lookup(f) == Some(v)
  {
    hide Evolves;
    var form := DefineForm(f, lam);
    var v := Interpreter.MakeLambda(lam, st.root).value;
    assert Classify("define") == SDefine;
    assert I.Eval(n, form, st.root, st) == I.EvalDefine(n - 1, form.items, st.root, st);
    assert I.Eval(n - 1, Form(lam), st.root, st) == Run(Ok(v), st);
  }

  lemma {:induction false} ExtendAllElsewhere(env: Env, names: seq<string>, vs: seq<Value>, x: string)
    requires |names| == |vs| && x !in names
    ensures ExtendAll(env, names, vs).Lookup(x) == env.Lookup(x)
    decreases names
  {
    if names != [] {
      ExtendAllElsewhere(env.Extend(names[0], vs[0]), names[1..], vs[1..], x);
    }
  }

  /** So inside the body, for any arguments and in any state, `f` means what it meant before
      the definition, unless it is a parameter: it is unbound there if and only if it was
      unbound in the old root. */
  lemma BodySeesOldRoot(I: Interpreter, n: nat, f: string, lam: seq<Sexp>, root: Env, args: seq<Value>, st: State)
    requires n >= 1 && IsLambda(lam) && Interpreter.MakeLambda(lam, root).Ok?
    requires
      var v := Interpreter.MakeLambda(lam, root).value;
      f !in v.params && v.rest != Some(f) && BindParams(v, args).Ok?
    ensures
      var env := BindParams(Interpreter.MakeLambda(lam, root).value, args).value;
      && env.Lookup(f) == root.Lookup(f)
      && (I.Eval(n, SymbolForm(f), env, st) == Run(Err(Unbound(f)), st) <==> root.Lookup(f).None?)
      && (root.Lookup(f).Some? ==> I.Eval(n, SymbolForm(f), env, st) == Run(Ok(root.Lookup(f).value), st))
  {
    hide Evolves;
    var v := Interpreter.MakeLambda(lam, root).value;
    ExtendAllElsewhere(root, v.params, args[..|v.params|], f);
    assert |args| == |v.params| ==> args[..|v.params|] == args;
  }

  /** (lambda (x) (f x)) */
  function SelfCaller(f: string): Sexp {
    Form(LambdaItems([Binding("x", NilForm)], [Form([SymbolForm(f), SymbolForm("x")])]))
  }

  /** (define f (lambda (x) (f x))) then (f 1) */
  function SelfReference(f: string): seq<Sexp> {
    [Form([SymbolForm("define"), SymbolForm(f), SelfCaller(f)]), Form([SymbolForm(f), Leaf(Num(1))])]
  }

  function SelfClosure(f: string, env: Env): Value {
    Lambda(["x"], None, [Form([SymbolForm(f), SymbolForm("x")])], env)
  }

  lemma DefineStep(I: Interpreter, n: nat, f: string, st: State)
    requires n >= 3
    ensures I.Eval(n, SelfReference(f)[0], st.root, st) ==
              Run(Ok(SelfClosure(f, st.root)), Define(st, f, SelfClosure(f, st.root)))
  {
    hide Evolves;
    var bs := [Binding("x", NilForm)];
    assert Names(bs) == ["x"];
    LambdaEvaluates(I, n - 1, bs, [Form([SymbolForm(f), SymbolForm("x")])], st.root, st);
    var form := SelfReference(f)[0];
    assert Classify("define") == SDefine;
    assert I.Eval(n, form, st.root, st) == I.EvalDefine(n - 1, form.items, st.root, st);
  }

  lemma CallStep(I: Interpreter, n: nat, f: string, env: Env, st: State)
    requires n >= 3 && Classify(f).NotSpecial? && f != "x" && env.Lookup(f).None?
    requires st.root.Lookup(f) == Some(SelfClosure(f, env))
    ensures I.Eval(n, SelfReference(f)[1], st.root, st).out == Err(Unbound(f))
  {
    hide Evolves;
    var clo, items := SelfClosure(f, env), SelfReference(f)[1].items;
    assert items == [SymbolForm(f)] + [Leaf(Num(1))] && items[1..] == [Leaf(Num(1))];
    NamedCall(I, n, f, [Leaf(Num(1))], st.root, st);
    EvalOne(I, n - 1, Leaf(Num(1)), st.root, st);
    ForceAllPlain(I, n - 1, [Int(1)], st);
    InnerCallUnbound(I, n - 1, f, env, st);
    assert I.Eval(n - 1, SymbolForm(f), st.root, st) == Run(Ok(clo), st);
    assert I.Apply(n - 1, clo, [Int(1)], st) == I.Enter(n - 1, clo, [Int(1)], st);
  }

  lemma InnerCallUnbound(I: Interpreter, n: nat, f: string, env: Env, st: State)
    requires n >= 2 && Classify(f).NotSpecial? && f != "x" && env.Lookup(f).None?
    ensures
      var body := [Form([SymbolForm(f), SymbolForm("x")])];
      I.EvalBody(n, body, ExtendAll(env, ["x"], [Int(1)]), st).out == Err(Unbound(f))
  {
    hide Evolves;
    var call := Form([SymbolForm(f), SymbolForm("x")]);
    var env' := ExtendAll(env, ["x"], [Int(1)]);
    assert env' == env.Extend("x", Int(1)) by { assert ["x"][1..] == [] && [Int(1)][1..] == []; }
    UnboundHead(I, n, f, [SymbolForm("x")], env', st);
    assert [SymbolForm(f)] + [SymbolForm("x")] == [SymbolForm(f), SymbolForm("x")];
    EvalOne(I, n, call, env', st);
  }

  /** In particular the program that defines `f` by a call of `f` and then calls it fails. */
  lemma RecursiveDefineIsUnbound(I: Interpreter, n: nat, f: string, last: Value, st: State)
    requires n >= 3 && Classify(f).NotSpecial? && f != "x" && st.root.Lookup(f).None?
    ensures EvalForms(I, n, SelfReference(f), last, st).out == Err(Unbound(f))
  {
    hide Evolves;
    var clo := SelfClosure(f, st.root);
    var st' := Define(st, f, clo);
    DefineStep(I, n, f, st);
    CallStep(I, n, f, st.root, st');
    assert SelfReference(f)[1..] == [SelfReference(f)[1]];
    assert EvalForms(I, n, SelfReference(f), last, st) == EvalForms(I, n, SelfReference(f)[1..], clo, st');
  }
}
