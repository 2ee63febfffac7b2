/** Syntax trees, runtime values, environments and the builtin table of the Lisp
    evaluator (tatara-eval). */
module LispSyntax {
  import opened Common

  datatype Atom =
    | Sym(name: string)
    | Kw(name: string)
    | Text(text: string)
    | Num(n: int)
    | Flo(f: real)
    | Boolean(b: bool)

  datatype Sexp =
    | NilForm
    | Leaf(atom: Atom)
    | Form(items: seq<Sexp>)
    | Quote(inner: Sexp)
    | Quasiquote(inner: Sexp)
    | Unquote(inner: Sexp)
    | UnquoteSplice(inner: Sexp)

  datatype Arity = Exact(n: nat) | AtLeast(n: nat) | AnyArity {
    predicate Check(got: nat) {
      match this
      case Exact(n) => got == n
      case AtLeast(n) => got >= n
      case AnyArity => true
    }
  }

  /** A thunk is named by its heap address: the shared `Arc<Thunk>` cell. */
  datatype Value =
    | Nil
    | Bool(b: bool)
    | Int(n: int)
    | Float(f: real)
    | Str(s: string)
    | Symbol(s: string)
    | Keyword(s: string)
    | Path(s: string)
    | List(elems: seq<Value>)
    | Attrs(fields: map<string, Value>)
    | Lambda(params: seq<string>, rest: Option<string>, body: seq<Sexp>, env: Env)
    | Builtin(name: string, arity: Arity)
    | Thunk(addr: nat)
    | Derivation(d: string)
    | StorePath(s: string)
    | Quoted(form: Sexp)
  {
    predicate Truthy() {
      !Nil? && this != Bool(false)
    }
  }

  /** One frame of bindings and its parent. */
  datatype Env = Env(bindings: map<string, Value>, parent: Option<Env>) {
    function Lookup(name: string): (r: Option<Value>) {
      if name in bindings then Some(bindings[name])
      else if parent.None? then None
      else parent.value.Lookup(name)
    }

    function Extend(name: string, v: Value): (r: Env)
      ensures r.Lookup(name) == Some(v)
      ensures forall x :: x != name ==> r.Lookup(x) == Lookup(x)
    {
      Env(map[name := v], Some(this))
    }
  }

  /** `Env::lookup` walks the parent chain with a cursor. */
  method LookupLoop(env: Env, name: string) returns (r: Option<Value>)
    ensures r == env.Lookup(name)
  {
    var cursor := Some(env);
    while cursor.Some?
      invariant cursor.Some? ==> cursor.value.Lookup(name) == env.Lookup(name)
      invariant cursor.None? ==> env.Lookup(name).None?
      decreases cursor
    {
      if name in cursor.value.bindings {
        return Some(cursor.value.bindings[name]);
      }
      cursor := cursor.value.parent;
    }
    return None;
  }

  datatype Error =
    | Unbound(name: string)
    | TypeMismatch
    | WrongArity
    | Malformed(form: string)
    | DivByZero
    | Cycle
    | Other
    | Panic

  datatype Outcome<+T> = Ok(value: T) | Err(error: Error) | OutOfFuel

  /** `name` in head position of a list selects a special form. */
  datatype Special = SQuote | SIf | SLet | SLetrec | SLambda | SDefine | SBegin | SAnd | SOr | NotSpecial

  function Classify(name: string): Special {
    if name == "quote" then SQuote
    else if name == "if" then SIf
    else if name == "let" then SLet
    else if name == "letrec" then SLetrec
    else if name == "lambda" || name == "fn" then SLambda
    else if name == "define" then SDefine
    else if name == "begin" || name == "do" then SBegin
    else if name == "and" then SAnd
    else if name == "or" then SOr
    else NotSpecial
  }

  predicate IsSymbol(s: Sexp) { s.Leaf? && s.atom.Sym? }

  function AtomToValue(a: Atom): Value {
    match a
    case Sym(x) => Symbol(x)
    case Kw(x) => Keyword(x)
    case Text(x) => Str(x)
    case Num(n) => Int(n)
    case Flo(f) => Float(f)
    case Boolean(b) => Bool(b)
  }

  function SexpToValue(s: Sexp): Value {
    match s
    case NilForm => Nil
    case Leaf(a) => AtomToValue(a)
    case Form(xs) => List(seq(|xs|, i requires 0 <= i < |xs| => SexpToValue(xs[i])))
    case _ => Quoted(s)
  }

  function EvalAtom(a: Atom, env: Env): Outcome<Value> {
    if a.Sym? then
      var v := env.Lookup(a.name);
      if v.Some? then Ok(v.value) else Err(Unbound(a.name))
    else Ok(AtomToValue(a))
  }

  // ---- parameter lists and binding lists ----

  datatype Params = Params(names: seq<string>, rest: Option<string>)

  predicate IsRestMarker(name: string) { name == "&rest" || name == "&" }

  /** The loop of `parse_params` from position `i`, with `names` collected so far. */
  function ParseParamsFrom(items: seq<Sexp>, i: nat, names: seq<string>, sawRest: bool): Outcome<Params>
    requires i <= |items|
    decreases |items| - i
  {
    if i == |items| then Ok(Params(names, None))
    else if !IsSymbol(items[i]) then Err(Malformed("lambda"))
    else
      var name := items[i].atom.name;
      if IsRestMarker(name) then
        if i + 2 != |items| then Err(Malformed("lambda"))
        else ParseParamsFrom(items, i + 1, names, true)
      else if sawRest then Ok(Params(names, Some(name)))
      else ParseParamsFrom(items, i + 1, names + [name], false)
  }

  function ParseParams(s: Sexp): Outcome<Params> {
    if s.Form? then ParseParamsFrom(s.items, 0, [], false) else Err(Malformed("lambda"))
  }

  datatype Binding = Binding(name: string, expr: Sexp)

  /** `letrec` reads all its bindings before it evaluates anything. It indexes
      each pair without checking its length, so a short pair panics. */
  function ParseLetrec(bs: seq<Sexp>): Outcome<seq<Binding>> {
    if bs == [] then Ok([])
    else
      var b := bs[0];
      if !b.Form? then Err(Malformed("letrec"))
      else if |b.items| == 0 then Err(Panic)
      else if !IsSymbol(b.items[0]) then Err(Malformed("letrec"))
      else if |b.items| == 1 then Err(Panic)
      else
        match ParseLetrec(bs[1..])
        case Ok(rest) => Ok([Binding(b.items[0].atom.name, b.items[1])] + rest)
        case Err(e) => Err(e)
        case OutOfFuel => OutOfFuel
  }

  function ExtendAll(env: Env, names: seq<string>, vs: seq<Value>): Env
    requires |names| == |vs|
    decreases names
  {
    if names == [] then env
    else ExtendAll(env.Extend(names[0], vs[0]), names[1..], vs[1..])
  }

  /** `apply_lambda` up to the evaluation of the body. */
  function BindParams(f: Value, args: seq<Value>): Outcome<Env>
    requires f.Lambda?
  {
    if f.rest.None? then
      if |args| != |f.params| then Err(WrongArity)
      else Ok(ExtendAll(f.env, f.params, args))
    else if |args| < |f.params| then Err(WrongArity)
    else
      Ok(ExtendAll(f.env, f.params, args[..|f.params|])
           .Extend(f.rest.value, List(args[|f.params|..])))
  }

  // ---- builtins ----

  const I64_MIN: int := -0x8000_0000_0000_0000
  const I64_MAX: int := 0x7fff_ffff_ffff_ffff

  predicate InI64(n: int) { I64_MIN <= n <= I64_MAX }

  /** Two's-complement wrap-around of the release profile. */
  function Wrap(n: int): (r: int)
    ensures InI64(r) && (r - n) % 0x1_0000_0000_0000_0000 == 0
    ensures InI64(n) ==> r == n
  {
    (n - I64_MIN) % 0x1_0000_0000_0000_0000 + I64_MIN
  }

  /** `f as i64` truncates toward zero and saturates. */
  function TruncReal(f: real): (r: int)
    ensures InI64(r)
    ensures f >= 0.0 ==> 0.0 <= r as real <= f && (f < r as real + 1.0 || r == I64_MAX)
    ensures f <= 0.0 ==> f <= r as real <= 0.0 && (r as real - 1.0 < f || r == I64_MIN)
  {
    var t := if f >= 0.0 then f.Floor else -((-f).Floor);
    if t < I64_MIN then I64_MIN else if t > I64_MAX then I64_MAX else t
  }

  function CoerceInt(v: Value): Outcome<int> {
    match v
    case Int(n) => Ok(n)
    case Float(f) => Ok(TruncReal(f))
    case _ => Err(TypeMismatch)
  }

  function Lift<T, U>(o: Outcome<T>): Outcome<U>
    requires !o.Ok?
  {
    if o.Err? then Err(o.error) else OutOfFuel
  }

  /** `sub`: negates one argument, otherwise takes the rest away from the first. */
  function Subtract(args: seq<Value>): Outcome<Value> {
    if args == [] then Err(Panic)
    else
      var c := CoerceInt(args[0]);
      if !c.Ok? then Lift(c)
      else if |args| == 1 then Ok(Int(Wrap(-c.value)))
      else SubtractFrom(c.value, args[1..])
  }

  function SubtractFrom(acc: int, args: seq<Value>): Outcome<Value>
    decreases args
  {
    if args == [] then Ok(Int(acc))
    else
      var c := CoerceInt(args[0]);
      if !c.Ok? then Lift(c) else SubtractFrom(Wrap(acc - c.value), args[1..])
  }

  function Sum(xs: seq<int>): int {
    if xs == [] then 0 else xs[0] + Sum(xs[1..])
  }

  predicate Numbers(args: seq<Value>, xs: seq<int>) {
    && |args| == |xs|
    && forall i :: 0 <= i < |xs| ==> InI64(xs[i]) && CoerceInt(args[i]) == Ok(xs[i])
  }

  /** `-` answers the first number less all the others, up to a multiple of 2^64; of one
      number it answers the negation. */
  lemma SubtractMeans(args: seq<Value>, xs: seq<int>)
    requires |xs| > 0 && Numbers(args, xs)
    ensures
      var exact := if |xs| == 1 then -xs[0] else xs[0] - Sum(xs[1..]);
      var r := Subtract(args);
      && r.Ok? && r.value.Int? && InI64(r.value.n)
      && (r.value.n - exact) % 0x1_0000_0000_0000_0000 == 0
  {
    if |xs| > 1 {
      SubtractFromMeans(xs[0], args[1..], xs[1..]);
    }
  }

  lemma {:induction false} SubtractFromMeans(acc: int, args: seq<Value>, xs: seq<int>)
    requires InI64(acc) && Numbers(args, xs)
    ensures
      var r := SubtractFrom(acc, args);
      && r.Ok? && r.value.Int? && InI64(r.value.n)
      && (r.value.n - (acc - Sum(xs))) % 0x1_0000_0000_0000_0000 == 0
    decreases xs
  {
    if xs != [] {
      var less := Wrap(acc - xs[0]);
      SubtractFromMeans(less, args[1..], xs[1..]);
      var r := SubtractFrom(less, args[1..]).value.n;
      SumOfMultiples(r - (less - Sum(xs[1..])), less - (acc - xs[0]));
    }
  }

  lemma SumOfMultiples(a: int, b: int)
    requires a % 0x1_0000_0000_0000_0000 == 0 && b % 0x1_0000_0000_0000_0000 == 0
    ensures (a + b) % 0x1_0000_0000_0000_0000 == 0
  {}

  /** The first argument that is not a number is a type error. */
  lemma {:induction false} SubtractFails(acc: int, args: seq<Value>, k: nat)
    requires k < |args| && !args[k].Int? && !args[k].Float?
    requires forall i :: 0 <= i < k ==> args[i].Int? || args[i].Float?
    ensures SubtractFrom(acc, args) == Err(TypeMismatch)
    ensures Subtract(args) == Err(TypeMismatch)
    decreases k
  {
    if k > 0 {
      forall c: int ensures SubtractFrom(c, args[1..]) == Err(TypeMismatch) {
        SubtractFails(c, args[1..], k - 1);
      }
    }
  }
}
