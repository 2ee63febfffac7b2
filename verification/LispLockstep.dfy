/** Two runs of the evaluator from the same heap, with any two roots and with
    different fuel, proceed in lockstep. Evaluation therefore never reads the root,
    and an answer never changes when more fuel is given. */
module LispLockstep {
  import opened Common
  import opened LispSyntax
  import opened LispEval

  /** `p'` is `p`, and `q'` is `q`, with the same frames put on top. */
  ghost predicate SameGrowth(p: Env, q: Env, p': Env, q': Env) {
    || (p' == p && q' == q)
    || (&& p'.parent.Some? && q'.parent.Some? && p'.bindings == q'.bindings
        && SameGrowth(p, q, p'.parent.value, q'.parent.value))
  }

  lemma {:induction false} GrowthTransitive(p: Env, q: Env, p': Env, q': Env, p'': Env, q'': Env)
    requires SameGrowth(p, q, p', q') && SameGrowth(p', q', p'', q'')
    ensures SameGrowth(p, q, p'', q'')
    decreases p''
  {
    if !(p'' == p' && q'' == q') {
      GrowthTransitive(p, q, p', q', p''.parent.value, q''.parent.value);
    }
  }

  lemma {:induction false} GrowthFromEqual(p: Env, p': Env, q': Env)
    requires SameGrowth(p, p, p', q')
    ensures p' == q'
    decreases p'
  {
    if !(p' == p && q' == p) {
      GrowthFromEqual(p, p'.parent.value, q'.parent.value);
    }
  }

  /** Same heap and starts; the roots may differ. */
  ghost predicate Alike(p: State, q: State) {
    p.heap == q.heap && p.starts == q.starts
  }

  ghost predicate Lock<T>(p: State, q: State, a: Run<T>, b: Run<T>) {
    a.out == b.out && Alike(a.st, b.st) && SameGrowth(p.root, q.root, a.st.root, b.st.root)
  }

  /** `x` then `y`: growth composes along a sequence of calls. */
  lemma Chain(p: State, q: State, p': State, q': State, p'': State, q'': State)
    requires SameGrowth(p.root, q.root, p'.root, q'.root)
    requires SameGrowth(p'.root, q'.root, p''.root, q''.root)
    ensures SameGrowth(p.root, q.root, p''.root, q''.root)
  {
    GrowthTransitive(p.root, q.root, p'.root, q'.root, p''.root, q''.root);
  }

  lemma {:induction false} EvalLock(I: Interpreter, n: nat, m: nat, s: Sexp, env: Env, p: State, q: State)
    requires n <= m && Alike(p, q)
    requires !I.Eval(n, s, env, p).out.OutOfFuel?
    ensures Lock(p, q, I.Eval(n, s, env, p), I.Eval(m, s, env, q))
    decreases n, 0, 0
  {
    hide Evolves;
    match s
    case Quasiquote(x) => QuasiLock(I, n - 1, m - 1, x, env, p, q);
    case Form(items) =>
      if items == [] {
      } else if IsSymbol(items[0]) && !Classify(items[0].atom.name).NotSpecial? {
        SpecialLock(I, n - 1, m - 1, Classify(items[0].atom.name), items, env, p, q);
      } else {
        CallLock(I, n - 1, m - 1, items, env, p, q);
      }
    case _ =>
  }

  lemma {:induction false} SpecialLock(I: Interpreter, n: nat, m: nat, form: Special, items: seq<Sexp>, env: Env,
                                       p: State, q: State)
    requires n <= m && Alike(p, q) && !form.NotSpecial? && items != []
    requires !I.EvalSpecial(n, form, items, env, p).out.OutOfFuel?
    ensures Lock(p, q, I.EvalSpecial(n, form, items, env, p), I.EvalSpecial(m, form, items, env, q))
    decreases n, 5, 0
  {
    hide Evolves;
    match form
    case SIf => IfLock(I, n, m, items, env, p, q);
    case SLet => LetLock(I, n, m, items, env, p, q);
    case SLetrec => LetrecLock(I, n, m, items, env, p, q);
    case SDefine => DefineLock(I, n, m, items, env, p, q);
    case SBegin => BodyLock(I, n, m, items[1..], env, p, q);
    case SAnd => LogicLock(I, n, m, true, Bool(true), items[1..], env, p, q);
    case SOr => LogicLock(I, n, m, false, Bool(false), items[1..], env, p, q);
    case _ =>
  }

  lemma {:induction false} CallLock(I: Interpreter, n: nat, m: nat, items: seq<Sexp>, env: Env, p: State, q: State)
    requires n <= m && Alike(p, q) && items != []
    requires !I.EvalCall(n, items, env, p).out.OutOfFuel?
    ensures Lock(p, q, I.EvalCall(n, items, env, p), I.EvalCall(m, items, env, q))
    decreases n, 5, 0
  {
    hide Evolves;
    var h, h' := I.Eval(n, items[0], env, p), I.Eval(m, items[0], env, q);
    EvalLock(I, n, m, items[0], env, p, q);
    if h.out.Ok? {
      var a, a' := I.EvalAll(n, items[1..], env, h.st), I.EvalAll(m, items[1..], env, h'.st);
      AllLock(I, n, m, items[1..], env, h.st, h'.st);
      Chain(p, q, h.st, h'.st, a.st, a'.st);
      if a.out.Ok? {
        var r, r' := I.Apply(n, h.out.value, a.out.value, a.st), I.Apply(m, h.out.value, a.out.value, a'.st);
        ApplyLock(I, n, m, h.out.value, a.out.value, a.st, a'.st);
        Chain(p, q, a.st, a'.st, r.st, r'.st);
      }
    }
  }

  lemma {:induction false} AllLock(I: Interpreter, n: nat, m: nat, items: seq<Sexp>, env: Env, p: State, q: State)
    requires n <= m && Alike(p, q)
    requires !I.EvalAll(n, items, env, p).out.OutOfFuel?
    ensures Lock(p, q, I.EvalAll(n, items, env, p), I.EvalAll(m, items, env, q))
    decreases n, 1, |items|
  {
    hide Evolves;
    if items != [] {
      var h, h' := I.Eval(n, items[0], env, p), I.Eval(m, items[0], env, q);
      EvalLock(I, n, m, items[0], env, p, q);
      if h.out.Ok? {
        AllLock(I, n, m, items[1..], env, h.st, h'.st);
        Chain(p, q, h.st, h'.st, I.EvalAll(n, items[1..], env, h.st).st, I.EvalAll(m, items[1..], env, h'.st).st);
      }
    }
  }

  lemma {:induction false} BodyLock(I: Interpreter, n: nat, m: nat, forms: seq<Sexp>, env: Env, p: State, q: State)
    requires n <= m && Alike(p, q)
    requires !I.EvalBody(n, forms, env, p).out.OutOfFuel?
    ensures Lock(p, q, I.EvalBody(n, forms, env, p), I.EvalBody(m, forms, env, q))
    decreases n, 2, 0
  {
    hide Evolves;
    AllLock(I, n, m, forms, env, p, q);
  }

  lemma {:induction false} LogicLock(I: Interpreter, n: nat, m: nat, conj: bool, last: Value, items: seq<Sexp>,
                                     env: Env, p: State, q: State)
    requires n <= m && Alike(p, q)
    requires !I.EvalLogic(n, conj, last, items, env, p).out.OutOfFuel?
    ensures Lock(p, q, I.EvalLogic(n, conj, last, items, env, p), I.EvalLogic(m, conj, last, items, env, q))
    decreases n, 1, |items|
  {
    hide Evolves;
    if items != [] {
      var h, h' := I.Eval(n, items[0], env, p), I.Eval(m, items[0], env, q);
      EvalLock(I, n, m, items[0], env, p, q);
      if h.out.Ok? && h.out.value.Truthy() == conj {
        LogicLock(I, n, m, conj, h.out.value, items[1..], env, h.st, h'.st);
        Chain(p, q, h.st, h'.st,
              I.EvalLogic(n, conj, h.out.value, items[1..], env, h.st).st,
              I.EvalLogic(m, conj, h.out.value, items[1..], env, h'.st).st);
      }
    }
  }

  lemma {:induction false} IfLock(I: Interpreter, n: nat, m: nat, items: seq<Sexp>, env: Env, p: State, q: State)
    requires n <= m && Alike(p, q)
    requires !I.EvalIf(n, items, env, p).out.OutOfFuel?
    ensures Lock(p, q, I.EvalIf(n, items, env, p), I.EvalIf(m, items, env, q))
    decreases n, 4, 0
  {
    hide Evolves;
    if 3 <= |items| <= 4 {
      var c, c' := I.Eval(n, items[1], env, p), I.Eval(m, items[1], env, q);
      EvalLock(I, n, m, items[1], env, p, q);
      if c.out.Ok? && (c.out.value.Truthy() || |items| == 4) {
        var arm := if c.out.value.Truthy() then items[2] else items[3];
        EvalLock(I, n, m, arm, env, c.st, c'.st);
        Chain(p, q, c.st, c'.st, I.Eval(n, arm, env, c.st).st, I.Eval(m, arm, env, c'.st).st);
      }
    }
  }

  lemma {:induction false} DefineLock(I: Interpreter, n: nat, m: nat, items: seq<Sexp>, env: Env, p: State, q: State)
    requires n <= m && Alike(p, q)
    requires !I.EvalDefine(n, items, env, p).out.OutOfFuel?
    ensures Lock(p, q, I.EvalDefine(n, items, env, p), I.EvalDefine(m, items, env, q))
    decreases n, 4, 0
  {
    hide Evolves;
    if |items| == 3 && IsSymbol(items[1]) {
      EvalLock(I, n, m, items[2], env, p, q);
    }
  }

  lemma {:induction false} LetLock(I: Interpreter, n: nat, m: nat, items: seq<Sexp>, env: Env, p: State, q: State)
    requires n <= m && Alike(p, q)
    requires !I.EvalLet(n, items, env, p).out.OutOfFuel?
    ensures Lock(p, q, I.EvalLet(n, items, env, p), I.EvalLet(m, items, env, q))
    decreases n, 4, 0
  {
    hide Evolves;
    if |items| >= 3 && items[1].Form? {
      var e, e' := I.LetBindings(n, items[1].items, env, env, p), I.LetBindings(m, items[1].items, env, env, q);
      BindingsLock(I, n, m, items[1].items, env, env, p, q);
      if e.out.Ok? {
        BodyLock(I, n, m, items[2..], e.out.value, e.st, e'.st);
        Chain(p, q, e.st, e'.st,
              I.EvalBody(n, items[2..], e.out.value, e.st).st, I.EvalBody(m, items[2..], e.out.value, e'.st).st);
      }
    }
  }

  lemma {:induction false} BindingsLock(I: Interpreter, n: nat, m: nat, bs: seq<Sexp>, env: Env, env': Env, p: State,
                                        q: State)
    requires n <= m && Alike(p, q)
    requires !I.LetBindings(n, bs, env, env', p).out.OutOfFuel?
    ensures Lock(p, q, I.LetBindings(n, bs, env, env', p), I.LetBindings(m, bs, env, env', q))
    decreases n, 1, |bs|
  {
    hide Evolves;
    if bs != [] && bs[0].Form? && |bs[0].items| == 2 && IsSymbol(bs[0].items[0]) {
      var v, v' := I.Eval(n, bs[0].items[1], env, p), I.Eval(m, bs[0].items[1], env, q);
      EvalLock(I, n, m, bs[0].items[1], env, p, q);
      if v.out.Ok? {
        var env'' := env'.Extend(bs[0].items[0].atom.name, v.out.value);
        BindingsLock(I, n, m, bs[1..], env, env'', v.st, v'.st);
        Chain(p, q, v.st, v'.st,
              I.LetBindings(n, bs[1..], env, env'', v.st).st, I.LetBindings(m, bs[1..], env, env'', v'.st).st);
      }
    }
  }

  lemma {:induction false} LetrecLock(I: Interpreter, n: nat, m: nat, items: seq<Sexp>, env: Env, p: State, q: State)
    requires n <= m && Alike(p, q)
    requires !I.EvalLetrec(n, items, env, p).out.OutOfFuel?
    ensures Lock(p, q, I.EvalLetrec(n, items, env, p), I.EvalLetrec(m, items, env, q))
    decreases n, 4, 0
  {
    hide Evolves;
    if |items| >= 3 && items[1].Form? && ParseLetrec(items[1].items).Ok? {
      var bs := ParseLetrec(items[1].items).value;
      var (env', p') := AllocLetrec(p, bs, env);
      BodyLock(I, n, m, items[2..], env', p', AllocLetrec(q, bs, env).1);
    }
  }

  lemma {:induction false} QuasiLock(I: Interpreter, n: nat, m: nat, s: Sexp, env: Env, p: State, q: State)
    requires n <= m && Alike(p, q)
    requires !I.Quasi(n, s, env, p).out.OutOfFuel?
    ensures Lock(p, q, I.Quasi(n, s, env, p), I.Quasi(m, s, env, q))
    decreases n, 0, 0
  {
    hide Evolves;
    match s
    case Unquote(x) => EvalLock(I, n - 1, m - 1, x, env, p, q);
    case Form(xs) => QuasiItemsLock(I, n - 1, m - 1, xs, env, p, q);
    case _ =>
  }

  lemma {:induction false} QuasiItemsLock(I: Interpreter, n: nat, m: nat, xs: seq<Sexp>, env: Env, p: State, q: State)
    requires n <= m && Alike(p, q)
    requires !I.QuasiItems(n, xs, env, p).out.OutOfFuel?
    ensures Lock(p, q, I.QuasiItems(n, xs, env, p), I.QuasiItems(m, xs, env, q))
    decreases n, 1, |xs|
  {
    hide Evolves;
    if xs != [] {
      var splice := xs[0].UnquoteSplice?;
      var h := if splice then I.Eval(n, xs[0].inner, env, p) else I.Quasi(n, xs[0], env, p);
      var h' := if splice then I.Eval(m, xs[0].inner, env, q) else I.Quasi(m, xs[0], env, q);
      if splice {
        EvalLock(I, n, m, xs[0].inner, env, p, q);
      } else {
        QuasiLock(I, n, m, xs[0], env, p, q);
      }
      if h.out.Ok? && (splice ==> h.out.value.List?) {
        QuasiItemsLock(I, n, m, xs[1..], env, h.st, h'.st);
        Chain(p, q, h.st, h'.st, I.QuasiItems(n, xs[1..], env, h.st).st, I.QuasiItems(m, xs[1..], env, h'.st).st);
      }
    }
  }

  lemma {:induction false} ApplyLock(I: Interpreter, n: nat, m: nat, f: Value, args: seq<Value>, p: State, q: State)
    requires n <= m && Alike(p, q)
    requires !I.Apply(n, f, args, p).out.OutOfFuel?
    ensures Lock(p, q, I.Apply(n, f, args, p), I.Apply(m, f, args, q))
    decreases n, 4, 0
  {
    hide Evolves;
    var a, a' := I.ForceAll(n, args, p), I.ForceAll(m, args, q);
    ForceAllLock(I, n, m, args, p, q);
    if a.out.Ok? {
      var g, g' := I.Force(n, f, a.st), I.Force(m, f, a'.st);
      ForceLock(I, n, m, f, a.st, a'.st);
      Chain(p, q, a.st, a'.st, g.st, g'.st);
      if g.out.Ok? {
        EnterLock(I, n, m, g.out.value, a.out.value, g.st, g'.st);
        Chain(p, q, g.st, g'.st,
              I.Enter(n, g.out.value, a.out.value, g.st).st, I.Enter(m, g.out.value, a.out.value, g'.st).st);
      }
    }
  }

  lemma {:induction false} EnterLock(I: Interpreter, n: nat, m: nat, f: Value, args: seq<Value>, p: State, q: State)
    requires n <= m && Alike(p, q)
    requires !I.Enter(n, f, args, p).out.OutOfFuel?
    ensures Lock(p, q, I.Enter(n, f, args, p), I.Enter(m, f, args, q))
    decreases n, 3, 0
  {
    hide Evolves;
    if f.Lambda? && BindParams(f, args).Ok? {
      BodyLock(I, n, m, f.body, BindParams(f, args).value, p, q);
    }
  }

  lemma {:induction false} ForceAllLock(I: Interpreter, n: nat, m: nat, vs: seq<Value>, p: State, q: State)
    requires n <= m && Alike(p, q)
    requires !I.ForceAll(n, vs, p).out.OutOfFuel?
    ensures Lock(p, q, I.ForceAll(n, vs, p), I.ForceAll(m, vs, q))
    decreases n, 1, |vs|
  {
    hide Evolves;
    if vs != [] {
      var h, h' := I.Force(n, vs[0], p), I.Force(m, vs[0], q);
      ForceLock(I, n, m, vs[0], p, q);
      if h.out.Ok? {
        ForceAllLock(I, n, m, vs[1..], h.st, h'.st);
        Chain(p, q, h.st, h'.st, I.ForceAll(n, vs[1..], h.st).st, I.ForceAll(m, vs[1..], h'.st).st);
      }
    }
  }

  lemma {:induction false} ForceLock(I: Interpreter, n: nat, m: nat, v: Value, p: State, q: State)
    requires n <= m && Alike(p, q)
    requires !I.Force(n, v, p).out.OutOfFuel?
    ensures Lock(p, q, I.Force(n, v, p), I.Force(m, v, q))
    decreases n, 0, 1
  {
    hide Evolves;
    if v.Thunk? && v.addr < |p.heap| && p.heap[v.addr].Unevaluated? {
      RunThunkLock(I, n - 1, m - 1, p.heap[v.addr].body, p.heap[v.addr].env, Start(p, v.addr), Start(q, v.addr));
    }
  }

  lemma {:induction false} RunThunkLock(I: Interpreter, n: nat, m: nat, body: Sexp, env: Env, p: State, q: State)
    requires n <= m && Alike(p, q)
    requires !I.RunThunk(n, body, env, p).out.OutOfFuel?
    ensures Lock(p, q, I.RunThunk(n, body, env, p), I.RunThunk(m, body, env, q))
    decreases n, 1, 0
  {
    hide Evolves;
    var b, b' := I.Eval(n, body, env, p), I.Eval(m, body, env, q);
    EvalLock(I, n, m, body, env, p, q);
    if b.out.Ok? {
      ForceLock(I, n, m, b.out.value, b.st, b'.st);
      Chain(p, q, b.st, b'.st, I.Force(n, b.out.value, b.st).st, I.Force(m, b.out.value, b'.st).st);
    }
  }

  // ---- the two theorems ----

  /** Once some fuel gives an answer, every larger fuel gives the same answer. */
  lemma FuelMonotone(I: Interpreter, n: nat, m: nat, s: Sexp, env: Env, st: State)
    requires n <= m && !I.Eval(n, s, env, st).out.OutOfFuel?
    ensures I.Eval(m, s, env, st) == I.Eval(n, s, env, st)
  {
    hide Evolves;
    EvalLock(I, n, m, s, env, st, st);
    GrowthFromEqual(st.root, I.Eval(n, s, env, st).st.root, I.Eval(m, s, env, st).st.root);
  }

  /** From any two roots a form gives the same outcome and heap, starts the same
      bodies, and puts the same definitions on top of both roots. */
  lemma RootIrrelevant(I: Interpreter, n: nat, s: Sexp, env: Env, p: State, q: State)
    requires Alike(p, q)
    ensures I.Eval(n, s, env, p).out == I.Eval(n, s, env, q).out
    ensures !I.Eval(n, s, env, p).out.OutOfFuel? ==> Lock(p, q, I.Eval(n, s, env, p), I.Eval(n, s, env, q))
  {
    hide Evolves;
    if !I.Eval(n, s, env, p).out.OutOfFuel? {
      EvalLock(I, n, n, s, env, p, q);
    } else if !I.Eval(n, s, env, q).out.OutOfFuel? {
      EvalLock(I, n, n, s, env, q, p);
    }
  }

  /** A definition made after a closure was created cannot change what calling it does. */
  lemma DefineCannotChangeClosure(I: Interpreter, n: nat, f: Value, args: seq<Value>, st: State, name: string, v: Value)
    requires !I.Apply(n, f, args, st).out.OutOfFuel?
    ensures I.Apply(n, f, args, Define(st, name, v)).out == I.Apply(n, f, args, st).out
    ensures I.Apply(n, f, args, Define(st, name, v)).st.heap == I.Apply(n, f, args, st).st.heap
  {
    hide Evolves;
    ApplyLock(I, n, n, f, args, st, Define(st, name, v));
  }

  // ---- once forced, always forced; once failed, always a cycle ----

  /** Any form in any environment, with any fuel. */
  datatype Evaluation = Evaluation(fuel: nat, form: Sexp, env: Env)

  /** The state that further evaluations reach, whatever each of them answers. */
  function Later(I: Interpreter, st: State, evals: seq<Evaluation>): State {
    if evals == [] then st
    else
      var k := |evals| - 1;
      I.Eval(evals[k].fuel, evals[k].form, evals[k].env, Later(I, st, evals[..k])).st
  }

  lemma {:induction false} LaterGrows(I: Interpreter, st: State, evals: seq<Evaluation>)
    ensures HeapGrows(st.heap, Later(I, st, evals).heap)
    decreases evals
  {
    if evals != [] {
      var k := |evals| - 1;
      LaterGrows(I, st, evals[..k]);
      var mid := Later(I, st, evals[..k]);
      var h := Later(I, st, evals).heap;
      forall a | 0 <= a < |st.heap| ensures CellKeeps(st.heap[a], h[a]) {
        assert CellKeeps(mid.heap[a], h[a]);
      }
    }
  }

  /** A thunk that was forced answers the cached value in every later state, at any
      fuel, and forcing it again changes nothing. */
  lemma ForcedIsCached(I: Interpreter, n: nat, a: nat, st: State, evals: seq<Evaluation>, m: nat)
    requires a < |st.heap| && I.Force(n, Thunk(a), st).out.Ok?
    ensures
      var later := Later(I, I.Force(n, Thunk(a), st).st, evals);
      I.Force(m, Thunk(a), later) == Run(I.Force(n, Thunk(a), st).out, later)
  {
    hide Later, Inv;
    var forced := I.Force(n, Thunk(a), st).st;
    LaterGrows(I, forced, evals);
    assert CellKeeps(forced.heap[a], Later(I, forced, evals).heap[a]);
  }

  /** A thunk whose body failed is never run again: every later attempt to force it
      reports a cycle, even though there is none. */
  lemma FailedForcePoisons(I: Interpreter, n: nat, a: nat, st: State, evals: seq<Evaluation>, m: nat)
    requires a < |st.heap| && st.heap[a].Unevaluated? && I.Force(n, Thunk(a), st).out.Err?
    ensures
      var later := Later(I, I.Force(n, Thunk(a), st).st, evals);
      I.Force(m, Thunk(a), later) == Run(Err(Cycle), later)
  {
    hide Later, Inv;
    var failed := I.Force(n, Thunk(a), st).st;
    LaterGrows(I, failed, evals);
    assert CellKeeps(Start(st, a).heap[a], failed.heap[a]);
    assert CellKeeps(failed.heap[a], Later(I, failed, evals).heap[a]);
  }
}
