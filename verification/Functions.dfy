/** What the functions of the expression language compute, and what names, paths
    and the scopes of a run show. */
module Functions {
  import opened Common
  import opened Text
  import opened Values
  import opened Tokenizer
  import opened Evaluator
  import opened Operators

  // ---- searching -------------------------------------------------------------------

  /** An argument's text; one that is not there reads as the empty text. */
  ghost predicate Reads(ctx: Context, args: seq<Value>, i: nat, s: string) {
    if i < |args| then Display(ctx.lib, args[i]) == s else s == ""
  }

  lemma ContainsIs(s: string, v: string)
    ensures Contains(s, v) <==> exists a, b :: s == a + v + b
  {
    if Contains(s, v) {
      var i :| 0 <= i <= |s| && Occurs(s, v, i);
      assert s == s[..i] + v + s[i + |v|..];
    }
    if a, b :| s == a + v + b {
      assert Occurs(s, v, |a|);
    }
  }

  predicate AnyEquals(lib: Library, items: seq<Value>, item: Value) {
    exists i :: 0 <= i < |items| && LooseEq(lib, items[i], item)
  }

  lemma AnyEqualsIs(lib: Library, items: seq<Value>, item: Value)
    ensures AnyEquals(lib, items, item) <==> exists x :: x in items && Equal(lib, x, item)
  {
    forall x ensures LooseEq(lib, x, item) <==> Equal(lib, x, item) {
      EqualExactly(lib, x, item);
    }
    if AnyEquals(lib, items, item) {
      var i :| 0 <= i < |items| && LooseEq(lib, items[i], item);
      assert items[i] in items;
    }
  }

  lemma ContainsCalls(ctx: Context, args: seq<Value>, s: string, v: string)
    requires Reads(ctx, args, 0, s) && Reads(ctx, args, 1, v)
    ensures Call(ctx, "contains", args)
            == Ok(Bool(if args != [] && args[0].Arr?
                       then AnyEquals(ctx.lib, args[0].items, if |args| > 1 then args[1] else Null)
                       else Contains(s, v)))
  {
  }

  /** `contains` of a list asks for an item that equals the second argument, of
      anything else for a place where the one text stands in the other. */
  lemma ContainsExactly(ctx: Context, args: seq<Value>, s: string, v: string) returns (yes: bool)
    requires Reads(ctx, args, 0, s) && Reads(ctx, args, 1, v)
    ensures Call(ctx, "contains", args) == Ok(Bool(yes))
    ensures (args == [] || !args[0].Arr?) ==> (yes <==> exists a, b :: s == a + v + b)
    ensures (args != [] && args[0].Arr?) ==>
              (yes <==> exists x :: x in args[0].items && Equal(ctx.lib, x, if |args| > 1 then args[1] else Null))
  {
    ContainsCalls(ctx, args, s, v);
    if args != [] && args[0].Arr? {
      yes := AnyEquals(ctx.lib, args[0].items, if |args| > 1 then args[1] else Null);
      AnyEqualsIs(ctx.lib, args[0].items, if |args| > 1 then args[1] else Null);
    } else {
      yes := Contains(s, v);
      ContainsIs(s, v);
    }
  }

  lemma PrefixIs(s: string, v: string)
    ensures v <= s <==> exists rest :: s == v + rest
  {
    if v <= s { assert s == v + s[|v|..]; }
  }

  predicate HasSuffix(s: string, v: string) {
    |v| <= |s| && s[|s| - |v|..] == v
  }

  lemma SuffixIs(s: string, v: string)
    ensures HasSuffix(s, v) <==> exists front :: s == front + v
  {
    if HasSuffix(s, v) { assert s == s[..|s| - |v|] + v; }
    if front :| s == front + v { assert s[|front|..] == v; }
  }

  lemma StartsAndEndsCalls(ctx: Context, args: seq<Value>, s: string, v: string)
    requires Reads(ctx, args, 0, s) && Reads(ctx, args, 1, v)
    ensures Call(ctx, "startsWith", args) == Ok(Bool(v <= s))
    ensures Call(ctx, "endsWith", args) == Ok(Bool(HasSuffix(s, v)))
  {
  }

  /** `startsWith` and `endsWith` ask whether the first text is the second with
      some text behind it, or in front. */
  lemma StartsAndEndsExactly(ctx: Context, args: seq<Value>, s: string, v: string) returns (starts: bool, ends: bool)
    requires Reads(ctx, args, 0, s) && Reads(ctx, args, 1, v)
    ensures Call(ctx, "startsWith", args) == Ok(Bool(starts)) && (starts <==> exists rest :: s == v + rest)
    ensures Call(ctx, "endsWith", args) == Ok(Bool(ends)) && (ends <==> exists front :: s == front + v)
  {
    starts, ends := v <= s, HasSuffix(s, v);
    StartsAndEndsCalls(ctx, args, s, v);
    PrefixIs(s, v);
    SuffixIs(s, v);
  }

  // ---- joining --------------------------------------------------------------------------

  /** The parts in turn, the separator in front of each but the first. */
  function Separated(parts: seq<string>, sep: string): string {
    if parts == [] then ""
    else if |parts| == 1 then parts[0]
    else Separated(parts[..|parts| - 1], sep) + sep + parts[|parts| - 1]
  }

  lemma {:induction false} JoinSeparates(parts: seq<string>, sep: string)
    ensures Join(parts, sep) == Separated(parts, sep)
  {
    if |parts| > 1 {
      var front, last := parts[..|parts| - 1], parts[|parts| - 1];
      assert parts == front + [last];
      JoinSeparates(front, sep);
      JoinAtTheEnd(front, last, sep);
    }
  }

  /** `join` puts the separator, a comma if none is given, between the texts of the
      items. */
  lemma JoinExactly(ctx: Context, args: seq<Value>, s: string, v: string)
    requires Reads(ctx, args, 0, s) && Reads(ctx, args, 1, v)
    ensures Call(ctx, "join", args)
            == Ok(Str(if args != [] && args[0].Arr?
                      then Separated(Displays(ctx.lib, args[0].items), if |args| > 1 then v else ",")
                      else s))
  {
    if args != [] && args[0].Arr? {
      JoinSeparates(Displays(ctx.lib, args[0].items), if |args| > 1 then v else ",");
    }
  }

  // ---- JSON and the status ------------------------------------------------------------------

  /** What is written as JSON is read back as far as the library does so, and what
      cannot be read is nothing. */
  lemma JsonThereAndBack(ctx: Context, v: Value, s: string)
    ensures Call(ctx, "toJSON", [v]) == Ok(Str(ctx.lib.jsonText(v)))
    ensures ctx.lib.parseJson(ctx.lib.jsonText(v)) == Some(v) ==>
              Call(ctx, "fromJSON", [Call(ctx, "toJSON", [v]).value]) == Ok(v)
    ensures ctx.lib.parseJson(s) == None ==> Call(ctx, "fromJSON", [Str(s)]) == Ok(Null)
  {
  }

  /** Of `success()`, `failure()` and `cancelled()` the one is true that the status
      names, `success()` if there is no status; `always()` is true whatever it is. */
  lemma StatusFunctions(ctx: Context, args: seq<Value>)
    ensures Call(ctx, "success", args) ==
            Ok(Bool("__status" !in ctx.root || !ctx.root["__status"].Str? || ctx.root["__status"] == Str("success")))
    ensures Call(ctx, "failure", args) == Ok(Bool(("__status", Str("failure")) in ctx.root.Items))
    ensures Call(ctx, "cancelled", args) == Ok(Bool(("__status", Str("cancelled")) in ctx.root.Items))
    ensures Call(ctx, "always", args) == Ok(Bool(true))
  {
    assert "success" != "failure" by { assert "success"[0] != "failure"[0]; }
    assert "success" != "cancelled" by { assert "success"[0] != "cancelled"[0]; }
  }

  /** There are no other functions. */
  lemma FunctionsAre(ctx: Context, name: string, args: seq<Value>)
    ensures Call(ctx, name, args).Ok? <==>
            name in {"contains", "startsWith", "endsWith", "format", "join", "toJSON", "fromJSON", "changed",
                     "success", "failure", "cancelled", "always"}
    ensures Call(ctx, name, args).Err? ==> Call(ctx, name, args) == Err(UnknownFunction(name))
  {
  }

  // ---- formatting -------------------------------------------------------------------------------

  /** A format: plain text, and holes by their number. */
  datatype Piece = Plain(text: string) | Hole(i: nat)

  function HoleText(i: nat): string { "{" + Decimal(i) + "}" }

  /** The holes below `k` filled from `ds`. */
  function Filled(ps: seq<Piece>, ds: seq<string>, k: nat): string
    requires k <= |ds|
  {
    if ps == [] then ""
    else
      (match ps[0] case Plain(text) => text case Hole(i) => if i < k then ds[i] else HoleText(i))
      + Filled(ps[1..], ds, k)
  }

  ghost predicate NoBraces(ps: seq<Piece>, ds: seq<string>) {
    && (forall i :: 0 <= i < |ps| && ps[i].Plain? ==> '{' !in ps[i].text)
    && (forall i :: 0 <= i < |ds| ==> '{' !in ds[i])
  }

  /** Nothing is replaced in a text without the first letter of what is sought. */
  lemma PastPlain(h: string, r: string, v: string, w: string)
    requires v != "" && v[0] !in h
    ensures Replace(h + r, v, w) == h + Replace(r, v, w)
  {
    forall j | 0 <= j < |h| ensures !Occurs(h + r, v, j) {
      StartsOtherwise(h, r, v, j);
    }
    ReplaceShifts(h, r, v, w);
  }

  lemma StartsOtherwise(h: string, r: string, v: string, j: nat)
    requires v != "" && j < |h| && h[j] != v[0]
    ensures !Occurs(h + r, v, j)
  {
    if j + |v| <= |h + r| {
      assert (h + r)[j..j + |v|][0] == h[j];
    }
  }

  lemma ReplacedInFront(v: string, r: string, w: string)
    requires v != ""
    ensures Replace(v + r, v, w) == w + Replace(r, v, w)
  {
    assert Occurs(v + r, v, 0);
    FindIs(v + r, v, 0);
    assert "" + v + r == v + r;
    ReplaceAt(v + r, v, "", r, w);
  }

  /** Digits end where a brace closes. */
  lemma {:induction false} DigitsEnd(a: string, b: string, r: string)
    requires AllDigits(a) && AllDigits(b) && b + "}" <= a + "}" + r
    ensures a == b
    decreases |a|
  {
    var s, t := a + "}" + r, b + "}";
    assert t[0] == s[0];
    assert b != "" ==> t[0] == b[0] && IsDigit(t[0]);
    assert a != "" ==> s[0] == a[0] && IsDigit(s[0]);
    if a != "" && b != "" {
      assert s[1..] == a[1..] + "}" + r && t[1..] == b[1..] + "}" && t[1..] <= s[1..];
      DigitsEnd(a[1..], b[1..], r);
      assert a == [a[0]] + a[1..] && b == [b[0]] + b[1..];
    }
  }

  lemma OtherHole(i: nat, k: nat, r: string)
    requires HoleText(k) <= HoleText(i) + r
    ensures i == k
  {
    var u, v := HoleText(i) + r, HoleText(k);
    assert v[1..] == Decimal(k) + "}" && u[1..] == Decimal(i) + "}" + r && v[1..] <= u[1..];
    DigitsEnd(Decimal(i), Decimal(k), r);
    DecimalRoundTrip(i);
    DecimalRoundTrip(k);
  }

  lemma PastOtherHole(i: nat, k: nat, r: string, w: string)
    requires i != k
    ensures Replace(HoleText(i) + r, HoleText(k), w) == HoleText(i) + Replace(r, HoleText(k), w)
  {
    var h, v := HoleText(i), HoleText(k);
    assert h[1..] == Decimal(i) + "}";
    forall j | 0 <= j < |h| ensures !Occurs(h + r, v, j) {
      if j > 0 {
        assert h[j] == h[1..][j - 1] != '{';
        StartsOtherwise(h, r, v, j);
      } else if Occurs(h + r, v, 0) {
        OtherHole(i, k, r);
      }
    }
    ReplaceShifts(h, r, v, w);
  }

  lemma {:induction false} OneMoreFilled(ps: seq<Piece>, ds: seq<string>, k: nat)
    requires NoBraces(ps, ds) && k < |ds|
    ensures Replace(Filled(ps, ds, k), HoleText(k), ds[k]) == Filled(ps, ds, k + 1)
    decreases |ps|
  {
    if ps == [] {
      assert Find("", HoleText(k)).None?;
    } else {
      var rest, v := Filled(ps[1..], ds, k), HoleText(k);
      OneMoreFilled(ps[1..], ds, k);
      match ps[0]
      case Plain(text) => PastPlain(text, rest, v, ds[k]);
      case Hole(i) =>
        if i < k {
          PastPlain(ds[i], rest, v, ds[k]);
        } else if i == k {
          ReplacedInFront(v, rest, ds[k]);
        } else {
          PastOtherHole(i, k, rest, ds[k]);
        }
    }
  }

  lemma {:induction false} FormatFrom(lib: Library, ps: seq<Piece>, args: seq<Value>, k: nat)
    requires k <= |args| && NoBraces(ps, Displays(lib, args))
    ensures Format(lib, Filled(ps, Displays(lib, args), k), args, k) == Filled(ps, Displays(lib, args), |args|)
    decreases |args| - k
  {
    if k < |args| {
      OneMoreFilled(ps, Displays(lib, args), k);
      FormatFrom(lib, ps, args, k + 1);
    }
  }

  /** `format` fills each numbered hole with the argument of that number and leaves
      holes without one as they are, as long as no brace opens in the plain text
      or in an argument. */
  lemma FormatExactly(ctx: Context, ps: seq<Piece>, args: seq<Value>)
    requires NoBraces(ps, Displays(ctx.lib, args))
    ensures Call(ctx, "format", [Str(Filled(ps, Displays(ctx.lib, args), 0))] + args)
            == Ok(Str(Filled(ps, Displays(ctx.lib, args), |args|)))
  {
    var all := [Str(Filled(ps, Displays(ctx.lib, args), 0))] + args;
    assert all[1..] == args;
    FormatFrom(ctx.lib, ps, args, 0);
  }
}
