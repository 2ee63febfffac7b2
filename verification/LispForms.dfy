/** Each form of the language in terms of the evaluation of its parts
    (tatara-eval/src/interpreter.rs): what is evaluated, in which order, in which
    environment and state, and what is answered. */
module LispForms {
  import opened Common
  import opened LispSyntax
  import opened LispEval
  import opened LispLet
  import opened LispLetrec

  // ---- several forms, one after the other ----

  /** The forms evaluate to these values; `sts` are the states before, between and after. */
  ghost predicate Evals(I: Interpreter, n: nat, forms: seq<Sexp>, env: Env, vs: seq<Value>, sts: seq<State>) {
    && |vs| == |forms| && |sts| == |forms| + 1
    && forall i :: 0 <= i < |forms| ==> I.Eval(n, forms[i], env, sts[i]) == Run(Ok(vs[i]), sts[i + 1])
  }

  /** The first of them do so, and the next one fails. */
  ghost predicate FailsAfter(I: Interpreter, n: nat, forms: seq<Sexp>, env: Env, vs: seq<Value>, sts: seq<State>,
                             failed: Run<Value>)
  {
    && |vs| < |forms| && Evals(I, n, forms[..|vs|], env, vs, sts)
    && I.Eval(n, forms[|vs|], env, sts[|vs|]) == failed && !failed.out.Ok?
  }

  lemma {:induction false} EvalsAll(I: Interpreter, n: nat, forms: seq<Sexp>, env: Env, vs: seq<Value>, sts: seq<State>)
    requires Evals(I, n, forms, env, vs, sts)
    ensures I.EvalAll(n, forms, env, sts[0]) == Run(Ok(vs), sts[|forms|])
    decreases forms
  {
    hide Evolves;
    if forms != [] {
      EvalsAll(I, n, forms[1..], env, vs[1..], sts[1..]);
      assert [vs[0]] + vs[1..] == vs;
    }
  }

  lemma {:induction false} FailsAll(I: Interpreter, n: nat, forms: seq<Sexp>, env: Env, vs: seq<Value>, sts: seq<State>,
                                    failed: Run<Value>)
    requires FailsAfter(I, n, forms, env, vs, sts, failed)
    ensures I.EvalAll(n, forms, env, sts[0]) == Run(Lift(failed.out), failed.st)
    decreases forms
  {
    hide Evolves;
    if vs != [] {
      assert forms[1..][..|vs| - 1] == forms[..|vs|][1..];
      FailsAll(I, n, forms[1..], env, vs[1..], sts[1..], failed);
    }
  }

  // ---- begin ----

  /** (begin form ...) */
  function Begin(forms: seq<Sexp>): Sexp {
    Form([SymbolForm("begin")] + forms)
  }

  lemma BeginIsBody(I: Interpreter, n: nat, head: string, forms: seq<Sexp>, env: Env, st: State)
    requires n >= 1 && (head == "begin" || head == "do")
    ensures I.Eval(n, Form([SymbolForm(head)] + forms), env, st) == I.EvalBody(n - 1, forms, env, st)
  {
    hide Evolves;
    var items := [SymbolForm(head)] + forms;
    assert items[1..] == forms && items[0] == SymbolForm(head) && Classify(head) == SBegin;
  }

  /** (do form ...) is (begin form ...) */
  lemma DoIsBegin(I: Interpreter, n: nat, forms: seq<Sexp>, env: Env, st: State)
    ensures I.Eval(n, Form([SymbolForm("do")] + forms), env, st) == I.Eval(n, Begin(forms), env, st)
  {
    hide Evolves;
    if n > 0 {
      BeginIsBody(I, n, "do", forms, env, st);
      BeginIsBody(I, n, "begin", forms, env, st);
    }
  }

  lemma BeginNothing(I: Interpreter, n: nat, env: Env, st: State)
    requires n >= 1
    ensures I.Eval(n, Begin([]), env, st) == Run(Ok(Nil), st)
  {
    hide Evolves;
    BeginIsBody(I, n, "begin", [], env, st);
  }

  lemma BeginOne(I: Interpreter, n: nat, x: Sexp, env: Env, st: State)
    requires n >= 1
    ensures I.Eval(n, Begin([x]), env, st) == I.Eval(n - 1, x, env, st)
  {
    hide Evolves;
    BeginIsBody(I, n, "begin", [x], env, st);
    BodyOne(I, n - 1, x, env, st);
  }

  /** Of several forms the first is evaluated, and if it succeeds the rest, in the state that it
      left: the answer is the last one's. */
  lemma BeginMore(I: Interpreter, n: nat, a: Sexp, rest: seq<Sexp>, env: Env, st: State)
    requires n >= 1 && rest != []
    ensures
      var h := I.Eval(n - 1, a, env, st);
      I.Eval(n, Begin([a] + rest), env, st) == if !h.out.Ok? then h else I.Eval(n, Begin(rest), env, h.st)
  {
    hide Evolves;
    BeginIsBody(I, n, "begin", [a] + rest, env, st);
    assert ([a] + rest)[1..] == rest;
    var h := I.Eval(n - 1, a, env, st);
    if h.out.Ok? {
      BeginIsBody(I, n, "begin", rest, env, h.st);
      var t := I.EvalAll(n - 1, rest, env, h.st);
      if t.out.Ok? {
        var vs := [h.out.value] + t.out.value;
        assert vs[|vs| - 1] == t.out.value[|t.out.value| - 1];
      }
    }
  }

  // ---- calls ----

  /** In this environment the names mean the values, a later one of the same name winning; every
      other name means what it meant. */
  ghost predicate Binds(env: Env, names: seq<string>, vs: seq<Value>, env': Env)
    requires |names| == |vs|
  {
    && (forall i :: 0 <= i < |names| && (forall j :: i < j < |names| ==> names[j] != names[i]) ==>
          env'.Lookup(names[i]) == Some(vs[i]))
    && (forall x :: x !in names ==> env'.Lookup(x) == env.Lookup(x))
  }

  lemma {:induction false} ExtendAllBinds(env: Env, names: seq<string>, vs: seq<Value>)
    requires |names| == |vs|
    ensures Binds(env, names, vs, ExtendAll(env, names, vs))
    decreases names
  {
    if names != [] {
      var next := env.Extend(names[0], vs[0]);
      ExtendAllBinds(next, names[1..], vs[1..]);
      var env' := ExtendAll(env, names, vs);
      forall i | 0 <= i < |names| && (forall j :: i < j < |names| ==> names[j] != names[i])
        ensures env'.Lookup(names[i]) == Some(vs[i])
      {
        if i == 0 {
          assert names[0] !in names[1..];
        } else {
          assert names[1..][i - 1] == names[i];
          assert forall j :: i - 1 < j < |names[1..]| ==> names[1..][j] == names[j + 1];
        }
      }
      forall x | x !in names ensures env'.Lookup(x) == env.Lookup(x) {
        assert x !in names[1..] && x != names[0];
      }
    }
  }

  /** The forms of a call are evaluated head first, then the arguments left to right, then the
      first value is applied to the others. */
  lemma CallRuns(I: Interpreter, n: nat, head: Sexp, args: seq<Sexp>, env: Env, f: Value, vs: seq<Value>,
                 sts: seq<State>)
    requires n >= 1 && !(IsSymbol(head) && !Classify(head.atom.name).NotSpecial?)
    requires Evals(I, n - 1, [head] + args, env, [f] + vs, sts)
    ensures I.Eval(n, Form([head] + args), env, sts[0]) == I.Apply(n - 1, f, vs, sts[|args| + 1])
  {
    hide Evolves;
    var items := [head] + args;
    assert items[1..] == args && items[0] == head && ([f] + vs)[0] == f;
    forall i | 0 <= i < |args| ensures I.Eval(n - 1, args[i], env, sts[1..][i]) == Run(Ok(vs[i]), sts[1..][i + 1]) {
      assert I.Eval(n - 1, items[i + 1], env, sts[i + 1]) == Run(Ok(([f] + vs)[i + 1]), sts[i + 2]);
    }
    EvalsAll(I, n - 1, args, env, vs, sts[1..]);
    assert I.Eval(n - 1, items[0], env, sts[0]) == Run(Ok(f), sts[1]);
  }

  /** The first that fails is the answer. */
  lemma CallFails(I: Interpreter, n: nat, head: Sexp, args: seq<Sexp>, env: Env, vs: seq<Value>, sts: seq<State>,
                  failed: Run<Value>)
    requires n >= 1 && !(IsSymbol(head) && !Classify(head.atom.name).NotSpecial?)
    requires FailsAfter(I, n - 1, [head] + args, env, vs, sts, failed)
    ensures I.Eval(n, Form([head] + args), env, sts[0]) == failed
  {
    hide Evolves;
    var items := [head] + args;
    assert items[1..] == args && items[0] == head;
    if vs != [] {
      assert items[..|vs|][0] == head;
      assert I.Eval(n - 1, head, env, sts[0]) == Run(Ok(vs[0]), sts[1]);
      forall i | 0 <= i < |vs| - 1
        ensures I.Eval(n - 1, args[..|vs| - 1][i], env, sts[1..][i]) == Run(Ok(vs[1..][i]), sts[1..][i + 1])
      {
        assert items[..|vs|][i + 1] == args[i];
      }
      FailsAll(I, n - 1, args, env, vs[1..], sts[1..], failed);
    }
  }

  // ---- applying ----

  /** The values are forced to these, one after the other. */
  ghost predicate Forces(I: Interpreter, n: nat, vs: seq<Value>, ws: seq<Value>, sts: seq<State>) {
    && |ws| == |vs| && |sts| == |vs| + 1
    && forall i :: 0 <= i < |vs| ==> I.Force(n, vs[i], sts[i]) == Run(Ok(ws[i]), sts[i + 1])
  }

  lemma {:induction false} ForcesAll(I: Interpreter, n: nat, vs: seq<Value>, ws: seq<Value>, sts: seq<State>)
    requires Forces(I, n, vs, ws, sts)
    ensures I.ForceAll(n, vs, sts[0]) == Run(Ok(ws), sts[|vs|])
    decreases vs
  {
    hide Evolves;
    if vs != [] {
      ForcesAll(I, n, vs[1..], ws[1..], sts[1..]);
      assert [ws[0]] + ws[1..] == ws;
    }
  }

  /** Arguments first, left to right, then the function; a builtin is called with what they were
      forced to, if their number is right. */
  lemma BuiltinApplied(I: Interpreter, n: nat, f: Value, args: seq<Value>, name: string, arity: Arity, ws: seq<Value>,
                       sts: seq<State>)
    requires Forces(I, n, args + [f], ws + [Builtin(name, arity)], sts)
    ensures I.Apply(n, f, args, sts[0]) ==
              Run(if (arity.Exact? && |args| != arity.n) || (arity.AtLeast? && |args| < arity.n) then Err(WrongArity)
                  else I.builtins(name, ws), sts[|args| + 1])
  {
    hide Evolves;
    ForcedParts(I, n, f, args, Builtin(name, arity), ws, sts);
  }

  lemma ForcedParts(I: Interpreter, n: nat, f: Value, args: seq<Value>, g: Value, ws: seq<Value>, sts: seq<State>)
    requires Forces(I, n, args + [f], ws + [g], sts)
    ensures |ws| == |args| && |sts| == |args| + 2
    ensures I.ForceAll(n, args, sts[0]) == Run(Ok(ws), sts[|args|])
    ensures I.Force(n, f, sts[|args|]) == Run(Ok(g), sts[|args| + 1])
  {
    hide Evolves;
    var k := |args|;
    forall i | 0 <= i < k ensures I.Force(n, args[i], sts[..k + 1][i]) == Run(Ok(ws[i]), sts[..k + 1][i + 1]) {
      assert I.Force(n, (args + [f])[i], sts[i]) == Run(Ok((ws + [g])[i]), sts[i + 1]);
    }
    ForcesAll(I, n, args, ws, sts[..k + 1]);
    assert I.Force(n, (args + [f])[k], sts[k]) == Run(Ok((ws + [g])[k]), sts[k + 1]);
  }

  /** What the body of a closure sees: its parameters mean the arguments, a rest parameter the
      list of those left over, all else what the closure's environment says. */
  ghost predicate Enters(f: Value, args: seq<Value>, env: Env)
    requires f.Lambda?
  {
    if f.rest.None? then |args| == |f.params| && Binds(f.env, f.params, args, env)
    else
      && |args| >= |f.params|
      && env.Lookup(f.rest.value) == Some(List(args[|f.params|..]))
      && exists env' :: Binds(f.env, f.params, args[..|f.params|], env')
                        && forall x :: x != f.rest.value ==> env.Lookup(x) == env'.Lookup(x)
  }

  /** A closure's body is a `begin` in that environment, entered with the number of arguments it
      takes. */
  lemma ClosureApplied(I: Interpreter, n: nat, f: Value, args: seq<Value>, g: Value, ws: seq<Value>, sts: seq<State>)
    returns (env: Env)
    requires Forces(I, n, args + [f], ws + [g], sts) && g.Lambda?
    ensures if (if g.rest.None? then |args| != |g.params| else |args| < |g.params|)
            then I.Apply(n, f, args, sts[0]) == Run(Err(WrongArity), sts[|args| + 1])
            else Enters(g, ws, env) && I.Apply(n, f, args, sts[0]) == I.Eval(n + 1, Begin(g.body), env, sts[|args| + 1])
  {
    hide Evolves;
    ForcedParts(I, n, f, args, g, ws, sts);
    var e := BindParams(g, ws);
    env := if e.Ok? then e.value else g.env;
    if e.Ok? {
      BeginIsBody(I, n + 1, "begin", g.body, env, sts[|args| + 1]);
      if g.rest.None? {
        ExtendAllBinds(g.env, g.params, ws);
      } else {
        ExtendAllBinds(g.env, g.params, ws[..|g.params|]);
        assert Enters(g, ws, env);
      }
    }
  }

  /** Calling a closure on plain values: a body of one form is that form in the environment
      entered; of several the first, and then, unless it fails, the closure with the others as
      its body is called in the state it left. */
  lemma ClosureSteps(I: Interpreter, n: nat, f: Value, args: seq<Value>, st: State) returns (env: Env)
    requires f.Lambda? && f.body != [] && NoThunks(args)
    requires if f.rest.None? then |args| == |f.params| else |args| >= |f.params|
    ensures Enters(f, args, env)
    ensures |f.body| == 1 ==> I.Apply(n, f, args, st) == I.Eval(n, f.body[0], env, st)
    ensures |f.body| > 1 ==>
              var h := I.Eval(n, f.body[0], env, st);
              I.Apply(n, f, args, st) == if !h.out.Ok? then h else I.Apply(n, f.(body := f.body[1..]), args, h.st)
  {
    hide Evolves, Enters, BindParams, Begin, Interpreter.Eval, Interpreter.Apply;
    BindEnters(f, args);
    env := BindParams(f, args).value;
    var a, rest := f.body[0], f.body[1..];
    assert f.body == [a] + rest && f == f.(body := f.body);
    BodyApplied(I, n, f, f.body, args, env, st);
    if rest == [] {
      assert f.body == [a];
      BeginOne(I, n + 1, a, env, st);
    } else {
      BeginMore(I, n + 1, a, rest, env, st);
      BodyApplied(I, n, f, rest, args, env, I.Eval(n, a, env, st).st);
    }
  }

  lemma BindEnters(f: Value, args: seq<Value>)
    requires f.Lambda? && if f.rest.None? then |args| == |f.params| else |args| >= |f.params|
    ensures BindParams(f, args).Ok? && Enters(f, args, BindParams(f, args).value)
  {
    if f.rest.None? {
      ExtendAllBinds(f.env, f.params, args);
    } else {
      ExtendAllBinds(f.env, f.params, args[..|f.params|]);
    }
  }

  /** Whatever its body, the closure is entered in the same environment. */
  lemma BodyApplied(I: Interpreter, n: nat, f: Value, body: seq<Sexp>, args: seq<Value>, env: Env, st: State)
    requires f.Lambda? && NoThunks(args) && BindParams(f, args) == Ok(env)
    ensures I.Apply(n, f.(body := body), args, st) == I.Eval(n + 1, Begin(body), env, st)
  {
    hide Evolves;
    var g := f.(body := body);
    assert BindParams(g, args) == BindParams(f, args);
    ForceAllPlain(I, n, args, st);
    BeginIsBody(I, n + 1, "begin", body, env, st);
    assert I.Apply(n, g, args, st) == I.Enter(n, g, args, st);
  }

  // ---- let and letrec ----

  /** The bound expressions are evaluated one after the other in the outer environment; the body is
      a `begin` in the one that has all the names. */
  lemma LetRuns(I: Interpreter, n: nat, bs: seq<Binding>, body: seq<Sexp>, env: Env, vs: seq<Value>, sts: seq<State>)
    returns (env': Env)
    requires n >= 1 && body != [] && Evals(I, n - 1, Exprs(bs), env, vs, sts)
    ensures Binds(env, Names(bs), vs, env')
    ensures I.Eval(n, LetForm(bs, body), env, sts[0]) == I.Eval(n, Begin(body), env', sts[|bs|])
  {
    hide Evolves;
    env' := ExtendAll(env, Names(bs), vs);
    ExtendAllBinds(env, Names(bs), vs);
    EvalsAll(I, n - 1, Exprs(bs), env, vs, sts);
    LetAsBody(I, n, bs, body, env, sts[0]);
    BeginIsBody(I, n, "begin", body, env', sts[|bs|]);
    hide Begin, LetForm, Binds, ExtendAll;
  }

  lemma LetAsBody(I: Interpreter, n: nat, bs: seq<Binding>, body: seq<Sexp>, env: Env, st: State)
    requires n >= 1 && body != []
    ensures
      var a := I.EvalAll(n - 1, Exprs(bs), env, st);
      I.Eval(n, LetForm(bs, body), env, st) ==
        if a.out.Ok? then I.EvalBody(n - 1, body, ExtendAll(env, Names(bs), a.out.value), a.st)
        else Run(Lift(a.out), a.st)
  {
    hide Evolves;
    BindingsAsAll(I, n - 1, bs, env, env, st);
    assert LetItems(bs, body)[2..] == body;
    assert Classify("let") == SLet;
    assert I.Eval(n, LetForm(bs, body), env, st) == I.EvalLet(n - 1, LetItems(bs, body), env, st);
  }

  lemma LetFails(I: Interpreter, n: nat, bs: seq<Binding>, body: seq<Sexp>, env: Env, vs: seq<Value>, sts: seq<State>,
                 failed: Run<Value>)
    requires n >= 1 && body != [] && FailsAfter(I, n - 1, Exprs(bs), env, vs, sts, failed)
    ensures I.Eval(n, LetForm(bs, body), env, sts[0]) == failed
  {
    hide Evolves;
    FailsAll(I, n - 1, Exprs(bs), env, vs, sts, failed);
    LetAsBody(I, n, bs, body, env, sts[0]);
  }

  /** (letrec ((name expr) ...) body ...) */
  function LetrecForm(bs: seq<Binding>, body: seq<Sexp>): Sexp {
    Form([SymbolForm("letrec"), Form(BindingForms(bs))] + body)
  }

  /** Nothing is evaluated before the body, which is a `begin` in an environment where every name is
      a new cell that holds its expression and that environment. */
  lemma LetrecRuns(I: Interpreter, n: nat, bs: seq<Binding>, body: seq<Sexp>, env: Env, st: State) returns (env': Env)
    requires n >= 1 && body != []
    ensures Binds(env, Names(bs), seq(|bs|, i requires 0 <= i < |bs| => Thunk(|st.heap| + i)), env')
    ensures
      var cells := seq(|bs|, i requires 0 <= i < |bs| => Unevaluated(bs[i].expr, env'));
      I.Eval(n, LetrecForm(bs, body), env, st) ==
        I.Eval(n, Begin(body), env', State(st.heap + cells, st.root, st.starts))
  {
    hide Evolves;
    BindingsRoundTrip(bs);
    var r := AllocLetrec(st, bs, env);
    env' := r.0;
    CellsBind(env, bs, |st.heap|);
    BeginIsBody(I, n, "begin", body, env', r.1);
    var items := LetrecForm(bs, body).items;
    assert items[2..] == body && Classify("letrec") == SLetrec;
    assert I.Eval(n, LetrecForm(bs, body), env, st) == I.EvalLetrec(n - 1, items, env, st);
    var cells := seq(|bs|, i requires 0 <= i < |bs| => Unevaluated(bs[i].expr, env'));
    assert Fresh(bs, env') == cells;
  }

  lemma {:induction false} CellsAreValues(env: Env, bs: seq<Binding>, base: nat)
    ensures
      var vs := seq(|bs|, i requires 0 <= i < |bs| => Thunk(base + i));
      BindCells(env, bs, base) == ExtendAll(env, Names(bs), vs)
    decreases bs
  {
    if bs != [] {
      var vs := seq(|bs|, i requires 0 <= i < |bs| => Thunk(base + i));
      CellsAreValues(env.Extend(bs[0].name, Thunk(base)), bs[1..], base + 1);
      assert Names(bs)[1..] == Names(bs[1..]);
      assert vs[1..] == seq(|bs[1..]|, i requires 0 <= i < |bs[1..]| => Thunk(base + 1 + i));
    }
  }

  lemma CellsBind(env: Env, bs: seq<Binding>, base: nat)
    ensures Binds(env, Names(bs), seq(|bs|, i requires 0 <= i < |bs| => Thunk(base + i)), BindCells(env, bs, base))
  {
    var vs := seq(|bs|, i requires 0 <= i < |bs| => Thunk(base + i));
    CellsAreValues(env, bs, base);
    ExtendAllBinds(env, Names(bs), vs);
  }

  // ---- and, or ----

  function And(forms: seq<Sexp>): Sexp { Form([SymbolForm("and")] + forms) }
  function Or(forms: seq<Sexp>): Sexp { Form([SymbolForm("or")] + forms) }

  /** Only nil and false are. */
  ghost predicate Falsy(v: Value) { v == Nil || v == Bool(false) }

  lemma LogicForms(I: Interpreter, n: nat, forms: seq<Sexp>, env: Env, st: State)
    requires n >= 1
    ensures I.Eval(n, And(forms), env, st) == I.EvalLogic(n - 1, true, Bool(true), forms, env, st)
    ensures I.Eval(n, Or(forms), env, st) == I.EvalLogic(n - 1, false, Bool(false), forms, env, st)
  {
    hide Evolves;
    assert ([SymbolForm("and")] + forms)[1..] == forms && ([SymbolForm("or")] + forms)[1..] == forms;
    assert ([SymbolForm("and")] + forms)[0] == SymbolForm("and") && ([SymbolForm("or")] + forms)[0] == SymbolForm("or");
    assert Classify("and") == SAnd && Classify("or") == SOr;
  }

  lemma LogicOfNothing(I: Interpreter, n: nat, env: Env, st: State)
    requires n >= 1
    ensures I.Eval(n, And([]), env, st) == Run(Ok(Bool(true)), st)
    ensures I.Eval(n, Or([]), env, st) == Run(Ok(Bool(false)), st)
  {
    hide Evolves;
    LogicForms(I, n, [], env, st);
  }

  /** `and` answers its first falsy value without going on, or the last value. */
  lemma AndRuns(I: Interpreter, n: nat, a: Sexp, rest: seq<Sexp>, env: Env, st: State)
    requires n >= 1
    ensures
      var h := I.Eval(n - 1, a, env, st);
      I.Eval(n, And([a] + rest), env, st) ==
        if !h.out.Ok? || Falsy(h.out.value) || rest == [] then h else I.Eval(n, And(rest), env, h.st)
  {
    hide Evolves;
    LogicForms(I, n, [a] + rest, env, st);
    assert ([a] + rest)[1..] == rest;
    var h := I.Eval(n - 1, a, env, st);
    if h.out.Ok? && rest != [] {
      LogicForms(I, n, rest, env, h.st);
      LastMatters(I, n - 1, h.out.value, rest, env, h.st);
    }
  }

  lemma LastMatters(I: Interpreter, n: nat, last: Value, rest: seq<Sexp>, env: Env, st: State)
    requires rest != []
    ensures I.EvalLogic(n, true, last, rest, env, st) == I.EvalLogic(n, true, Bool(true), rest, env, st)
  {
    hide Evolves;
  }

  /** `or` answers its first value that is not falsy, or false. */
  lemma OrRuns(I: Interpreter, n: nat, a: Sexp, rest: seq<Sexp>, env: Env, st: State)
    requires n >= 1
    ensures
      var h := I.Eval(n - 1, a, env, st);
      I.Eval(n, Or([a] + rest), env, st) ==
        if !h.out.Ok? || !Falsy(h.out.value) then h else I.Eval(n, Or(rest), env, h.st)
  {
    hide Evolves;
    LogicForms(I, n, [a] + rest, env, st);
    assert ([a] + rest)[1..] == rest;
    var h := I.Eval(n - 1, a, env, st);
    if h.out.Ok? {
      LogicForms(I, n, rest, env, h.st);
      OrIgnoresLast(I, n - 1, h.out.value, rest, env, h.st);
    }
  }

  lemma OrIgnoresLast(I: Interpreter, n: nat, last: Value, rest: seq<Sexp>, env: Env, st: State)
    ensures I.EvalLogic(n, false, last, rest, env, st) == I.EvalLogic(n, false, Bool(false), rest, env, st)
  {
    hide Evolves;
  }

  // ---- if, define, lambda, quote ----

  /** One test, then one of the two branches; without a second branch, nil. */
  lemma IfRuns(I: Interpreter, n: nat, test: Sexp, arms: seq<Sexp>, env: Env, st: State)
    requires n >= 1 && 1 <= |arms| <= 2
    ensures
      var c := I.Eval(n - 1, test, env, st);
      I.Eval(n, Form([SymbolForm("if"), test] + arms), env, st) ==
        if !c.out.Ok? then c
        else if !Falsy(c.out.value) then I.Eval(n - 1, arms[0], env, c.st)
        else if |arms| == 2 then I.Eval(n - 1, arms[1], env, c.st)
        else Run(Ok(Nil), c.st)
  {
    hide Evolves;
    var items := [SymbolForm("if"), test] + arms;
    assert Classify("if") == SIf;
    assert I.Eval(n, Form(items), env, st) == I.EvalIf(n - 1, items, env, st);
  }

  /** The value is answered and put on top of the root under the name; nothing else changes. */
  lemma DefineRuns(I: Interpreter, n: nat, name: string, x: Sexp, env: Env, st: State)
    requires n >= 1
    ensures
      var v := I.Eval(n - 1, x, env, st);
      var r := I.Eval(n, Form([SymbolForm("define"), SymbolForm(name), x]), env, st);
      if !v.out.Ok? then r == v
      else
        && r.out == v.out && r.st.heap == v.st.heap && r.st.starts == v.st.starts
        && r.st.root.Lookup(name) == Some(v.out.value)
        && forall y :: y != name ==> r.st.root.Lookup(y) == v.st.root.Lookup(y)
  {
    hide Evolves;
    var items := [SymbolForm("define"), SymbolForm(name), x];
    assert Classify("define") == SDefine;
    assert I.Eval(n, Form(items), env, st) == I.EvalDefine(n - 1, items, env, st);
  }

  function NameList(names: seq<string>): (r: seq<Sexp>)
    ensures |r| == |names|
  {
    seq(|names|, i requires 0 <= i < |names| => SymbolForm(names[i]))
  }

  lemma {:induction false} ParseWithRest(names: seq<string>, marker: string, rest: string, i: nat)
    requires IsRestMarker(marker) && !IsRestMarker(rest) && i <= |names|
    requires forall j :: 0 <= j < |names| ==> !IsRestMarker(names[j])
    ensures ParseParamsFrom(NameList(names + [marker, rest]), i, names[..i], false) == Ok(Params(names, Some(rest)))
    decreases |names| - i
  {
    var items := NameList(names + [marker, rest]);
    if i < |names| {
      assert items[i] == SymbolForm(names[i]) && names[..i] + [names[i]] == names[..i + 1];
      ParseWithRest(names, marker, rest, i + 1);
    } else {
      assert items[i] == SymbolForm(marker) && items[i + 1] == SymbolForm(rest) && names[..i] == names;
    }
  }

  /** A lambda closes over the environment it is evaluated in; the name behind a rest marker takes
      the arguments that are left over. */
  lemma LambdaRuns(I: Interpreter, n: nat, head: string, names: seq<string>, rest: Option<string>, body: seq<Sexp>,
                   env: Env, st: State)
    requires n >= 1 && body != [] && (head == "lambda" || head == "fn")
    requires (forall j :: 0 <= j < |names| ==> names[j] != "&rest" && names[j] != "&")
             && (rest.Some? ==> rest.value != "&rest" && rest.value != "&")
    ensures
      var params := names + if rest.Some? then ["&rest", rest.value] else [];
      I.Eval(n, Form([SymbolForm(head), Form(NameList(params))] + body), env, st) ==
        Run(Ok(Lambda(names, rest, body, env)), st)
  {
    hide Evolves;
    var params := names + if rest.Some? then ["&rest", rest.value] else [];
    var items := [SymbolForm(head), Form(NameList(params))] + body;
    assert items[2..] == body && Classify(head) == SLambda;
    if rest.Some? {
      ParseWithRest(names, "&rest", rest.value, 0);
    } else {
      var bs := seq(|names|, i requires 0 <= i < |names| => Binding(names[i], NilForm));
      assert Names(bs) == names && NameForms(bs) == NameList(params);
      ParsePlain(bs, 0);
    }
    assert names[..0] == [];
    assert I.Eval(n, Form(items), env, st) == Run(Interpreter.MakeLambda(items, env), st);
  }

  /** Quoting answers data: an atom as itself, a symbol as its name, a list item by item. */
  ghost predicate Denotes(s: Sexp, v: Value)
    decreases s
  {
    match s
    case NilForm => v == Nil
    case Leaf(Sym(x)) => v == Symbol(x)
    case Leaf(Kw(x)) => v == Keyword(x)
    case Leaf(Text(x)) => v == Str(x)
    case Leaf(Num(k)) => v == Int(k)
    case Leaf(Flo(x)) => v == Float(x)
    case Leaf(Boolean(b)) => v == Bool(b)
    case Form(xs) => v.List? && |v.elems| == |xs| && forall i :: 0 <= i < |xs| ==> Denotes(xs[i], v.elems[i])
    case _ => v == Quoted(s)
  }

  lemma {:induction false} DataDenotes(s: Sexp)
    ensures Denotes(s, SexpToValue(s))
    decreases s
  {
    if s.Form? {
      forall i | 0 <= i < |s.items| ensures Denotes(s.items[i], SexpToValue(s).elems[i]) {
        DataDenotes(s.items[i]);
      }
    }
  }

  lemma QuoteRuns(I: Interpreter, n: nat, x: Sexp, env: Env, st: State)
    requires n >= 1
    ensures
      var r := I.Eval(n, Quote(x), env, st);
      && r.st == st && r.out.Ok? && Denotes(x, r.out.value)
      && I.Eval(n, Form([SymbolForm("quote"), x]), env, st) == r
  {
    hide Evolves;
    DataDenotes(x);
    assert Classify("quote") == SQuote;
  }

  /** An atom is itself, but a symbol is what it means in the environment. */
  lemma AtomRuns(I: Interpreter, n: nat, a: Atom, env: Env, st: State)
    requires n >= 1
    ensures
      var r := I.Eval(n, Leaf(a), env, st);
      && r.st == st
      && if a.Sym? then
           r.out == if env.Lookup(a.name).Some? then Ok(env.Lookup(a.name).value) else Err(Unbound(a.name))
         else r.out.Ok? && Denotes(Leaf(a), r.out.value)
  {
    hide Evolves;
    DataDenotes(Leaf(a));
  }

  /** No other name in head position is special. */
  lemma OnlyTheseAreSpecial(name: string)
    ensures Classify(name).NotSpecial? <==>
              name !in {"quote", "if", "let", "letrec", "lambda", "fn", "define", "begin", "do", "and", "or"}
  {}

  // ---- quasiquote ----

  lemma TemplateList(I: Interpreter, n: nat, xs: seq<Sexp>, env: Env, st: State)
    requires n >= 2
    ensures
      var q := I.QuasiItems(n - 2, xs, env, st);
      I.Eval(n, Quasiquote(Form(xs)), env, st) ==
        if q.out.Ok? then Run(Ok(List(q.out.value)), q.st) else Run(Lift(q.out), q.st)
  {
    hide Evolves;
    assert I.Eval(n, Quasiquote(Form(xs)), env, st) == I.Quasi(n - 1, Form(xs), env, st);
  }

  /** The items of a template are taken left to right: a splice contributes the elements of its
      list, any other item itself. */
  lemma QuasiListRuns(I: Interpreter, n: nat, x: Sexp, rest: seq<Sexp>, env: Env, st: State)
    requires n >= 3
    ensures
      var h := if x.UnquoteSplice? then I.Eval(n - 2, x.inner, env, st) else I.Eval(n - 1, Quasiquote(x), env, st);
      var r := I.Eval(n, Quasiquote(Form([x] + rest)), env, st);
      if !h.out.Ok? then r == h
      else if x.UnquoteSplice? && !h.out.value.List? then r == Run(Err(TypeMismatch), h.st)
      else
        var t := I.Eval(n, Quasiquote(Form(rest)), env, h.st);
        if !t.out.Ok? then r == t
        else
          && t.out.value.List?
          && r == Run(Ok(List((if x.UnquoteSplice? then h.out.value.elems else [h.out.value]) + t.out.value.elems)),
                      t.st)
  {
    hide Evolves;
    assert ([x] + rest)[1..] == rest && ([x] + rest)[0] == x;
    TemplateList(I, n, [x] + rest, env, st);
    assert I.Eval(n - 1, Quasiquote(x), env, st) == I.Quasi(n - 2, x, env, st);
    var h := if x.UnquoteSplice? then I.Eval(n - 2, x.inner, env, st) else I.Quasi(n - 2, x, env, st);
    if h.out.Ok? {
      TemplateList(I, n, rest, env, h.st);
    }
  }

  lemma QuasiEmptyRuns(I: Interpreter, n: nat, env: Env, st: State)
    requires n >= 2
    ensures I.Eval(n, Quasiquote(Form([])), env, st) == Run(Ok(List([])), st)
  {
    hide Evolves;
    TemplateList(I, n, [], env, st);
  }

  /** Inside a template an unquoted form is evaluated, and what is not a list is data; a splice
      outside a list is an error. */
  lemma QuasiItemRuns(I: Interpreter, n: nat, x: Sexp, env: Env, st: State)
    requires n >= 2
    ensures I.Eval(n, Quasiquote(Unquote(x)), env, st) == I.Eval(n - 2, x, env, st)
    ensures x.Leaf? || x.NilForm? ==>
              var r := I.Eval(n, Quasiquote(x), env, st);
              r.st == st && r.out.Ok? && Denotes(x, r.out.value)
    ensures I.Eval(n, Quasiquote(UnquoteSplice(x)), env, st) == Run(Err(Malformed("quasiquote")), st)
    ensures I.Eval(n, Quasiquote(Quote(x)), env, st) == Run(Ok(Quoted(x)), st)
  {
    hide Evolves;
    DataDenotes(x);
  }

  // ---- forcing ----

  /** A cell that is not yet evaluated is marked and its body evaluated; a thunk that comes out is
      forced in turn; the value is kept, and a failure leaves the mark. */
  lemma ForceRuns(I: Interpreter, n: nat, a: nat, st: State)
    requires n >= 1 && a < |st.heap| && st.heap[a].Unevaluated?
    ensures
      var marked := State(st.heap[a := Evaluating], st.root, st.starts + [a]);
      var b := I.Eval(n - 1, st.heap[a].body, st.heap[a].env, marked);
      var w := if b.out.Ok? then I.Force(n - 1, b.out.value, b.st) else b;
      && |w.st.heap| >= |st.heap|
      && I.Force(n, Thunk(a), st) ==
           if w.out.Ok? then Run(w.out, State(w.st.heap[a := Forced(w.out.value)], w.st.root, w.st.starts)) else w
  {
    hide Inv;
    var st0 := State(st.heap[a := Evaluating], st.root, st.starts + [a]);
    assert Start(st, a) == st0;
    var r := I.RunThunk(n - 1, st.heap[a].body, st.heap[a].env, st0);
    assert Evolves(st0, r.st);
  }

  /** A value that is no thunk is itself, and so is a cell's once it is forced; a cell that is
      being evaluated is a cycle. */
  lemma ForceAnswers(I: Interpreter, n: nat, v: Value, st: State)
    ensures !v.Thunk? ==> I.Force(n, v, st) == Run(Ok(v), st)
    ensures v.Thunk? && v.addr < |st.heap| && st.heap[v.addr].Forced? ==>
              I.Force(n, v, st) == Run(Ok(st.heap[v.addr].v), st)
    ensures v.Thunk? && v.addr < |st.heap| && st.heap[v.addr].Evaluating? ==> I.Force(n, v, st) == Run(Err(Cycle), st)
  {}
}
