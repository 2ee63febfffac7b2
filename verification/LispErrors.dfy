/** What the evaluator refuses (tatara-eval/src/interpreter.rs): forms of the wrong shape,
    parameter lists and bindings it cannot read, and values that cannot be called. */
module LispErrors {
  import opened Common
  import opened LispSyntax
  import opened LispEval
  import opened LispLet
  import opened LispForms

  // ---- shapes ----

  /** A list that starts with the name of a special form, with this many items, has not the
      shape that the form asks for. */
  ghost predicate Misshapen(head: string, rest: seq<Sexp>) {
    || (head == "quote" && |rest| != 1)
    || (head == "if" && |rest| != 2 && |rest| != 3)
    || (head == "let" && (|rest| < 2 || !rest[0].Form?))
    || (head == "letrec" && (|rest| < 2 || !rest[0].Form?))
    || ((head == "lambda" || head == "fn") && (|rest| < 2 || !rest[0].Form?))
    || (head == "define" && (|rest| != 2 || !IsSymbol(rest[0])))
  }

  /** It is refused under the form's name before anything is evaluated. */
  lemma ShapeRefused(I: Interpreter, n: nat, head: string, rest: seq<Sexp>, env: Env, st: State)
    requires n >= 1 && Misshapen(head, rest)
    ensures I.Eval(n, Form([SymbolForm(head)] + rest), env, st) ==
              Run(Err(Malformed(if head == "fn" then "lambda" else head)), st)
  {
    hide Evolves, Classify;
    var items := [SymbolForm(head)] + rest;
    assert items[1..] == rest;
    FormOf(head);
    assert I.Eval(n, Form(items), env, st) == I.EvalSpecial(n - 1, Classify(head), items, env, st);
    SpecialRefused(I, n - 1, Classify(head), items, env, st);
  }

  lemma FormOf(head: string)
    ensures match Classify(head)
            case SQuote => head == "quote"
            case SIf => head == "if"
            case SLet => head == "let"
            case SLetrec => head == "letrec"
            case SLambda => head == "lambda" || head == "fn"
            case SDefine => head == "define"
            case SBegin => head == "begin" || head == "do"
            case SAnd => head == "and"
            case SOr => head == "or"
            case NotSpecial =>
              head !in {"quote", "if", "let", "letrec", "lambda", "fn", "define", "begin", "do", "and", "or"}
  {}

  lemma SpecialRefused(I: Interpreter, n: nat, form: Special, items: seq<Sexp>, env: Env, st: State)
    requires items != []
    requires match form
             case SQuote => |items| != 2
             case SIf => |items| < 3 || |items| > 4
             case SLet => |items| < 3 || !items[1].Form?
             case SLetrec => |items| < 3 || !items[1].Form?
             case SLambda => |items| < 3 || !items[1].Form?
             case SDefine => |items| != 3 || !IsSymbol(items[1])
             case _ => false
    ensures I.EvalSpecial(n, form, items, env, st) ==
              Run(Err(Malformed(match form
                                case SQuote => "quote"
                                case SIf => "if"
                                case SLet => "let"
                                case SLetrec => "letrec"
                                case SLambda => "lambda"
                                case _ => "define")), st)
  {
    hide Evolves;
  }

  /** Nothing in parentheses is nil; an unquote means nothing outside a template. */
  lemma LooseForms(I: Interpreter, n: nat, x: Sexp, env: Env, st: State)
    requires n >= 1
    ensures I.Eval(n, Form([]), env, st) == I.Eval(n, NilForm, env, st) == Run(Ok(Nil), st)
    ensures I.Eval(n, Unquote(x), env, st) == I.Eval(n, UnquoteSplice(x), env, st) ==
              Run(Err(Malformed("unquote")), st)
  {
    hide Evolves;
  }

  // ---- parameters ----

  /** The list is names alone, or names, a rest marker and the name for the rest. */
  ghost predicate Reads(items: seq<Sexp>, p: Params) {
    && (forall j :: 0 <= j < |p.names| ==> p.names[j] != "&rest" && p.names[j] != "&")
    && match p.rest
       case None => items == NameList(p.names)
       case Some(rest) =>
         && rest != "&rest" && rest != "&"
         && (items == NameList(p.names + ["&rest", rest]) || items == NameList(p.names + ["&", rest]))
  }

  lemma {:induction false} ParamsFromRead(items: seq<Sexp>, i: nat, names: seq<string>)
    requires i <= |items| && |names| == i
    requires forall j :: 0 <= j < i ==> items[j] == SymbolForm(names[j]) && !IsRestMarker(names[j])
    ensures match ParseParamsFrom(items, i, names, false)
            case Ok(p) => Reads(items, p)
            case Err(e) => e == Malformed("lambda")
            case OutOfFuel => false
    decreases |items| - i
  {
    if i == |items| {
      assert items == NameList(names);
    } else if IsSymbol(items[i]) {
      var name := items[i].atom.name;
      if !IsRestMarker(name) {
        ParamsFromRead(items, i + 1, names + [name]);
      } else if i + 2 == |items| {
        var r := ParseParamsFrom(items, i + 1, names, true);
        if IsSymbol(items[i + 1]) && !IsRestMarker(items[i + 1].atom.name) {
          assert r == Ok(Params(names, Some(items[i + 1].atom.name)));
          assert items == NameList(names + [name, items[i + 1].atom.name]);
        } else {
          assert r == Err(Malformed("lambda"));
        }
      }
    }
  }

  /** A lambda is made exactly when its parameters read, and then as they read; otherwise it
      is refused, and nothing is evaluated in either case. */
  lemma LambdaReads(I: Interpreter, n: nat, head: string, params: seq<Sexp>, body: seq<Sexp>, env: Env, st: State)
    requires n >= 1 && body != [] && (head == "lambda" || head == "fn")
    ensures
      var r := I.Eval(n, Form([SymbolForm(head), Form(params)] + body), env, st);
      && r.st == st
      && if r.out.Ok? then
           exists p :: Reads(params, p) && r.out.value == Lambda(p.names, p.rest, body, env)
         else
           r.out == Err(Malformed("lambda"))
  {
    hide Evolves;
    var items := [SymbolForm(head), Form(params)] + body;
    assert items[2..] == body && Classify(head) == SLambda;
    ParamsFromRead(params, 0, []);
    assert I.Eval(n, Form(items), env, st) == Run(Interpreter.MakeLambda(items, env), st);
  }

  // ---- bindings ----

  /** (name expr) */
  ghost predicate IsPair(b: Sexp) {
    b.Form? && |b.items| == 2 && IsSymbol(b.items[0])
  }

  /** Of the bindings of a `let` those before the first that is no pair are evaluated. */
  lemma LetRefuses(I: Interpreter, n: nat, bs: seq<Binding>, bad: Sexp, more: seq<Sexp>, body: seq<Sexp>, env: Env,
                   vs: seq<Value>, sts: seq<State>)
    requires n >= 1 && body != [] && !IsPair(bad) && Evals(I, n - 1, Exprs(bs), env, vs, sts)
    ensures I.Eval(n, Form([SymbolForm("let"), Form(BindingForms(bs) + ([bad] + more))] + body), env, sts[0]) ==
              Run(Err(Malformed("let")), sts[|bs|])
  {
    hide Evolves;
    var all := BindingForms(bs) + ([bad] + more);
    var items := [SymbolForm("let"), Form(all)] + body;
    BindingsStop(I, n - 1, bs, bad, more, env, env, vs, sts);
    assert Classify("let") == SLet;
    assert I.Eval(n, Form(items), env, sts[0]) == I.EvalLet(n - 1, items, env, sts[0]);
  }

  lemma {:induction false} BindingsStop(I: Interpreter, n: nat, bs: seq<Binding>, bad: Sexp, more: seq<Sexp>, env: Env,
                                        env': Env, vs: seq<Value>, sts: seq<State>)
    requires !IsPair(bad) && Evals(I, n, Exprs(bs), env, vs, sts)
    ensures I.LetBindings(n, BindingForms(bs) + ([bad] + more), env, env', sts[0]) ==
              Run(Err(Malformed("let")), sts[|bs|])
    decreases bs
  {
    hide Evolves;
    var all := BindingForms(bs) + ([bad] + more);
    if bs == [] {
      assert all[0] == bad;
    } else {
      assert all[0] == Form([SymbolForm(bs[0].name), bs[0].expr]);
      assert all[1..] == BindingForms(bs[1..]) + ([bad] + more);
      assert Exprs(bs)[1..] == Exprs(bs[1..]) && Exprs(bs)[0] == bs[0].expr;
      BindingsStop(I, n, bs[1..], bad, more, env, env'.Extend(bs[0].name, vs[0]), vs[1..], sts[1..]);
    }
  }

  /** What a `letrec` takes as a binding: a name and an expression; further items are ignored. */
  ghost predicate ReadsAs(b: Sexp, read: Binding) {
    b.Form? && |b.items| >= 2 && b.items[0] == SymbolForm(read.name) && b.items[1] == read.expr
  }

  lemma {:induction false} LetrecReads(bs: seq<Sexp>, read: seq<Binding>)
    requires |read| == |bs| && forall i :: 0 <= i < |bs| ==> ReadsAs(bs[i], read[i])
    ensures ParseLetrec(bs) == Ok(read)
    decreases bs
  {
    if bs != [] {
      LetrecReads(bs[1..], read[1..]);
      assert [read[0]] + read[1..] == read;
    }
  }

  /** The first binding that is not such decides: no list or no name is refused, a list that is
      too short panics. */
  lemma {:induction false} LetrecStops(bs: seq<Sexp>, read: seq<Binding>)
    requires |read| < |bs| && forall i :: 0 <= i < |read| ==> ReadsAs(bs[i], read[i])
    requires var b := bs[|read|]; !(b.Form? && |b.items| >= 2 && IsSymbol(b.items[0]))
    ensures
      var b := bs[|read|];
      ParseLetrec(bs) ==
        Err(if b.Form? && (b.items == [] || (|b.items| == 1 && IsSymbol(b.items[0]))) then Panic
            else Malformed("letrec"))
    decreases bs
  {
    if read != [] {
      LetrecStops(bs[1..], read[1..]);
    }
  }

  /** Before a `letrec` whose bindings do not read makes any cell, it fails as they do. */
  lemma LetrecRefuses(I: Interpreter, n: nat, bs: seq<Sexp>, read: seq<Binding>, body: seq<Sexp>, env: Env, st: State)
    requires n >= 1 && body != []
    requires |read| < |bs| && forall i :: 0 <= i < |read| ==> ReadsAs(bs[i], read[i])
    requires var b := bs[|read|]; !(b.Form? && |b.items| >= 2 && IsSymbol(b.items[0]))
    ensures
      var b := bs[|read|];
      I.Eval(n, Form([SymbolForm("letrec"), Form(bs)] + body), env, st) ==
        Run(Err(if b.Form? && (b.items == [] || (|b.items| == 1 && IsSymbol(b.items[0]))) then Panic
                else Malformed("letrec")), st)
  {
    hide Evolves;
    LetrecStops(bs, read);
    var items := [SymbolForm("letrec"), Form(bs)] + body;
    assert Classify("letrec") == SLetrec;
    assert I.Eval(n, Form(items), env, st) == I.EvalLetrec(n - 1, items, env, st);
  }

  // ---- calls ----

  /** Only builtins and closures can be called. */
  lemma NotCallable(I: Interpreter, n: nat, f: Value, args: seq<Value>, g: Value, ws: seq<Value>, sts: seq<State>)
    requires Forces(I, n, args + [f], ws + [g], sts) && !g.Builtin? && !g.Lambda?
    ensures I.Apply(n, f, args, sts[0]) == Run(Err(TypeMismatch), sts[|args| + 1])
  {
    hide Evolves;
    ForcedParts(I, n, f, args, g, ws, sts);
  }

  /** The first argument that cannot be forced, or then the function, is the failure. */
  lemma ApplyFails(I: Interpreter, n: nat, f: Value, args: seq<Value>, ws: seq<Value>, sts: seq<State>,
                   failed: Run<Value>)
    requires |ws| <= |args| && Forces(I, n, args[..|ws|], ws, sts) && !failed.out.Ok?
    requires failed == I.Force(n, if |ws| < |args| then args[|ws|] else f, sts[|ws|])
    ensures I.Apply(n, f, args, sts[0]) == failed
  {
    hide Evolves;
    ForceAllStops(I, n, args, ws, sts);
    if |ws| == |args| {
      assert args[..|ws|] == args;
      ForcesAll(I, n, args, ws, sts);
    }
  }

  lemma {:induction false} ForceAllStops(I: Interpreter, n: nat, args: seq<Value>, ws: seq<Value>, sts: seq<State>)
    requires |ws| <= |args| && Forces(I, n, args[..|ws|], ws, sts)
    ensures |ws| < |args| ==>
              var failed := I.Force(n, args[|ws|], sts[|ws|]);
              !failed.out.Ok? ==> I.ForceAll(n, args, sts[0]) == Run(Lift(failed.out), failed.st)
    decreases args
  {
    hide Evolves;
    if ws != [] {
      assert args[1..][..|ws| - 1] == args[..|ws|][1..];
      assert I.Force(n, args[..|ws|][0], sts[0]) == Run(Ok(ws[0]), sts[1]);
      ForceAllStops(I, n, args[1..], ws[1..], sts[1..]);
    }
  }
}
