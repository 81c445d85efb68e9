/** What the operators and functions of the expression language compute, said of
    what their operands mean. */
module Operators {
  import opened Common
  import opened Text
  import opened Values
  import opened Tokenizer
  import opened Evaluator
  import opened ExprTrees

  ghost predicate Means(ctx: Context, t: Tree, v: Value) {
    WellFormed(t) && Denote(ctx, t) == Ok(v)
  }

  // ---- ordering ------------------------------------------------------------------

  /** `v` counts as the number `x` in an ordering. */
  ghost predicate CountsAs(lib: Library, v: Value, x: real) {
    || (exists i :: v == Num(Int(i)) && x == i as real)
    || v == Num(Float(x))
    || (v == Bool(true) && x == 1.0) || (v == Bool(false) && x == 0.0)
    || (exists s :: v == Str(s) && lib.parseFloat(Trim(s)) == Some(x))
  }

  lemma CountsAsNumber(lib: Library, v: Value, x: real)
    ensures AsNumber(lib, v) == Some(x) <==> CountsAs(lib, v, x)
  {
    match v
    case Num(Int(i)) =>
    case Num(Float(f)) =>
    case Str(s) =>
    case _ =>
  }

  /** Orderings compare the numbers their operands count as. */
  lemma OrderingsCompareNumbers(ctx: Context, l: Tree, r: Tree, a: Value, b: Value, x: real, y: real)
    requires Means(ctx, l, a) && Means(ctx, r, b) && CountsAs(ctx.lib, a, x) && CountsAs(ctx.lib, b, y)
    ensures Denote(ctx, Comparison(Lt, l, r)) == Ok(Bool(x < y))
    ensures Denote(ctx, Comparison(Le, l, r)) == Ok(Bool(x <= y))
    ensures Denote(ctx, Comparison(Gt, l, r)) == Ok(Bool(x > y))
    ensures Denote(ctx, Comparison(Ge, l, r)) == Ok(Bool(x >= y))
  {
    CountsAsNumber(ctx.lib, a, x);
    CountsAsNumber(ctx.lib, b, y);
  }

  predicate IsOrdering(op: Token) {
    op == Lt || op == Le || op == Gt || op == Ge
  }

  /** And with an operand that counts as none they are false, all four. */
  lemma OrderingsWithoutNumbers(ctx: Context, op: Token, l: Tree, r: Tree, a: Value, b: Value)
    requires IsOrdering(op) && Means(ctx, l, a) && Means(ctx, r, b)
    requires (forall x :: !CountsAs(ctx.lib, a, x)) || (forall y :: !CountsAs(ctx.lib, b, y))
    ensures Denote(ctx, Comparison(op, l, r)) == Ok(Bool(false))
  {
    if AsNumber(ctx.lib, a).Some? { CountsAsNumber(ctx.lib, a, AsNumber(ctx.lib, a).value); }
    if AsNumber(ctx.lib, b).Some? { CountsAsNumber(ctx.lib, b, AsNumber(ctx.lib, b).value); }
  }

  /** Nothing, lists, objects, and texts that are no numbers count as none. */
  lemma NoNumbers(lib: Library, v: Value)
    requires v == Null || v.Arr? || v.Obj? || (v.Str? && lib.parseFloat(Trim(v.s)) == None)
    ensures forall x :: !CountsAs(lib, v, x)
  {
  }

  /** Numbers written in an expression compare as numbers, in all six ways. */
  lemma NumbersCompare(ctx: Context, x: real, y: real)
    ensures var l, r := Number(x), Number(y);
            && WellFormed(l) && WellFormed(r)
            && Denote(ctx, Comparison(Lt, l, r)) == Ok(Bool(x < y))
            && Denote(ctx, Comparison(Le, l, r)) == Ok(Bool(x <= y))
            && Denote(ctx, Comparison(Gt, l, r)) == Ok(Bool(x > y))
            && Denote(ctx, Comparison(Ge, l, r)) == Ok(Bool(x >= y))
            && Denote(ctx, Comparison(EqEq, l, r)) == Ok(Bool(x == y))
            && Denote(ctx, Comparison(NotEq, l, r)) == Ok(Bool(x != y))
  {
    WrittenNumber(ctx, x);
    WrittenNumber(ctx, y);
    OrderingsCompareNumbers(ctx, Number(x), Number(y), Num(FromReal(x)), Num(FromReal(y)), x, y);
  }

  /** A number is kept as it is written, as an integer if it is one that a double
      holds exactly. */
  lemma WrittenNumber(ctx: Context, x: real)
    ensures Means(ctx, Number(x), Num(FromReal(x))) && CountsAs(ctx.lib, Num(FromReal(x)), x)
    ensures FromReal(x).Int? <==> x == x.Floor as real && -9007199254740992.0 < x < 9007199254740992.0
  {
  }

  // ---- equality -------------------------------------------------------------------------

  /** Both are nothing, the same truth value, the same text, or numbers of one
      size; or neither is nothing, they are of two kinds or not plain, and they
      read the same. */
  ghost predicate Equal(lib: Library, a: Value, b: Value) {
    if a == Null || b == Null then a == b
    else if (a.Bool? && b.Bool?) || (a.Str? && b.Str?) then a == b
    else if a.Num? && b.Num? then exists x :: CountsAs(lib, a, x) && CountsAs(lib, b, x)
    else Display(lib, a) == Display(lib, b)
  }

  lemma EqualExactly(lib: Library, a: Value, b: Value)
    ensures LooseEq(lib, a, b) <==> Equal(lib, a, b)
    ensures Equal(lib, a, a) && (Equal(lib, a, b) <==> Equal(lib, b, a))
  {
    if a.Num? && b.Num? {
      CountsAsNumber(lib, a, AsReal(a.n));
      CountsAsNumber(lib, b, AsReal(b.n));
      forall x | CountsAs(lib, a, x) && CountsAs(lib, b, x) ensures AsReal(a.n) == AsReal(b.n) {
        CountsAsNumber(lib, a, x);
        CountsAsNumber(lib, b, x);
      }
    }
    if a.Num? { CountsAsNumber(lib, a, AsReal(a.n)); }
  }

  /** `==` says whether its operands are equal, either way round, and `!=` the
      opposite. */
  lemma EqualityExactly(ctx: Context, l: Tree, r: Tree, a: Value, b: Value)
    requires Means(ctx, l, a) && Means(ctx, r, b)
    ensures Denote(ctx, Comparison(EqEq, l, r)) == Ok(Bool(Equal(ctx.lib, a, b)))
    ensures Denote(ctx, Comparison(NotEq, l, r)) == Ok(Bool(!Equal(ctx.lib, a, b)))
    ensures Denote(ctx, Comparison(EqEq, r, l)) == Denote(ctx, Comparison(EqEq, l, r))
  {
    EqualExactly(ctx.lib, a, b);
    EqualExactly(ctx.lib, b, a);
  }

  /** How a value reads: a whole number in decimal digits, its sign in front. */
  lemma HowValuesRead(lib: Library, n: nat, s: string)
    ensures Display(lib, Null) == "" && Display(lib, Str(s)) == s
    ensures Display(lib, Bool(true)) == "true" && Display(lib, Bool(false)) == "false"
    ensures var d := Display(lib, Num(Int(n)));
            d != "" && AllDigits(d) && DecimalValue(d) == n && (n > 0 ==> Display(lib, Num(Int(0 - n))) == "-" + d)
  {
    DecimalRoundTrip(n);
  }

  /** A matrix value is the same written as a number or as a text. */
  lemma NumberEqualsItsText(ctx: Context, n: nat)
    requires n < 9007199254740992
    ensures var l, r := Number(n as real), Literal(Decimal(n));
            WellFormed(l) && WellFormed(r) && Denote(ctx, Comparison(EqEq, l, r)) == Ok(Bool(true))
  {
    WrittenNumber(ctx, n as real);
    assert FromReal(n as real) == Int(n);
  }

  // ---- truth --------------------------------------------------------------------------------

  /** What counts as false, and nothing else does. */
  const FALSY: set<Value> :=
    {Null, Bool(false), Num(Int(0)), Num(Float(0.0)), Str(""), Str("false"), Str("0"), Arr([]), Obj(map[])}

  lemma TruthyExactly(v: Value)
    ensures Truthy(v) <==> v !in FALSY
  {
    match v
    case Num(Int(i)) =>
    case Num(Float(f)) =>
    case _ =>
  }

  /** `||` is its left operand unless that counts as false, `&&` its right one
      unless the left does, and `!` turns the one into the other. */
  lemma TruthDecides(ctx: Context, l: Tree, r: Tree, a: Value, b: Value)
    requires Means(ctx, l, a) && Means(ctx, r, b)
    ensures Denote(ctx, Either(l, r)) == Ok(if a in FALSY then b else a)
    ensures Denote(ctx, Both(l, r)) == Ok(if a in FALSY then a else b)
    ensures Denote(ctx, Negation(l)) == Ok(Bool(a in FALSY))
  {
    TruthyExactly(a);
  }

  /** The first error is the outcome; both operands are evaluated. */
  lemma ErrorsComeFirst(ctx: Context, op: Token, l: Tree, r: Tree)
    requires WellFormed(l) && WellFormed(r) && IsComparison(op) && (Denote(ctx, l).Err? || Denote(ctx, r).Err?)
    ensures var e := if Denote(ctx, l).Err? then Denote(ctx, l) else Denote(ctx, r);
            && Denote(ctx, Either(l, r)) == e && Denote(ctx, Both(l, r)) == e
            && Denote(ctx, Comparison(op, l, r)) == e
  {
  }
}
