/** JSON values as the expression language of `src/expr.rs` handles them. */
module Values {
  import opened Common
  import opened Text

  datatype Number = Int(i: int) | Float(f: real)

  datatype Value =
    | Null
    | Bool(b: bool)
    | Num(n: Number)
    | Str(s: string)
    | Arr(items: seq<Value>)
    | Obj(fields: map<string, Value>)

  /** The library calls whose results are taken as given: rendering JSON and
      floats, and reading JSON and floats back. */
  datatype Library = Library(
    jsonText: Value -> string,
    floatText: real -> string,
    parseJson: string -> Option<Value>,
    parseFloat: string -> Option<real>)

  function AsReal(n: Number): real {
    match n
    case Int(i) => i as real
    case Float(f) => f
  }

  /** A number written in an expression: an integer where it is one and a
      double holds it exactly. */
  function FromReal(r: real): Number {
    if r == r.Floor as real && -9007199254740992.0 < r < 9007199254740992.0 then Int(r.Floor) else Float(r)
  }

  function IntText(i: int): string {
    if i < 0 then "-" + Decimal(-i) else Decimal(i)
  }

  function Display(lib: Library, v: Value): string {
    match v
    case Null => ""
    case Bool(b) => if b then "true" else "false"
    case Num(Int(i)) => IntText(i)
    case Num(Float(f)) => lib.floatText(f)
    case Str(s) => s
    case Arr(_) => lib.jsonText(v)
    case Obj(_) => lib.jsonText(v)
  }

  /** The strings `false` and `0` count as false, since that is how a shell
      says no. */
  predicate Truthy(v: Value) {
    match v
    case Null => false
    case Bool(b) => b
    case Num(n) => AsReal(n) != 0.0
    case Str(s) => s != "" && s != "false" && s != "0"
    case Arr(items) => items != []
    case Obj(fields) => fields != map[]
  }

  predicate LooseEq(lib: Library, a: Value, b: Value) {
    match (a, b)
    case (Null, Null) => true
    case (Bool(x), Bool(y)) => x == y
    case (Num(x), Num(y)) => AsReal(x) == AsReal(y)
    case (Str(x), Str(y)) => x == y
    case (Null, _) => false
    case (_, Null) => false
    case (_, _) => Display(lib, a) == Display(lib, b)
  }

  function AsNumber(lib: Library, v: Value): Option<real> {
    match v
    case Num(n) => Some(AsReal(n))
    case Str(s) => lib.parseFloat(Trim(s))
    case Bool(b) => Some(if b then 1.0 else 0.0)
    case _ => None
  }

  /** An array index: decimal digits, an optional plus in front, in 64 bits. */
  function ParseIndex(s: string): Option<nat> {
    var digits := if s != "" && s[0] == '+' then s[1..] else s;
    if digits == "" || !AllDigits(digits) then None
    else if DecimalValue(digits) >= 0x1_0000_0000_0000_0000 then None
    else Some(DecimalValue(digits))
  }

  function Property(v: Value, segment: string): Value {
    match v
    case Obj(fields) => if segment in fields then fields[segment] else Null
    case Arr(items) =>
      var at := ParseIndex(segment);
      if at.Some? && at.value < |items| then items[at.value] else Null
    case _ => Null
  }

  function Walk(v: Value, segments: seq<string>): Value
    decreases |segments|
  {
    if segments == [] then v else Walk(Property(v, segments[0]), segments[1..])
  }

  lemma {:induction false} WalkOn(v: Value, segments: seq<string>, more: seq<string>)
    ensures Walk(v, segments + more) == Walk(Walk(v, segments), more)
    decreases |segments|
  {
    if segments == [] {
      assert segments + more == more;
    } else {
      assert (segments + more)[1..] == segments[1..] + more;
      WalkOn(Property(v, segments[0]), segments[1..], more);
    }
  }
}
