/** Strings as the program's library treats them. */
module Text {
  import opened Common

  // ---- trimming and splitting ---------------------------------------------

  /** Unicode White_Space, which is what trimming removes. */
  predicate IsBlank(c: char) {
    || '\U{0009}' <= c <= '\U{000D}' || c == ' ' || c == '\U{0085}' || c == '\U{00A0}' || c == '\U{1680}'
    || '\U{2000}' <= c <= '\U{200A}' || c == '\U{2028}' || c == '\U{2029}' || c == '\U{202F}'
    || c == '\U{205F}' || c == '\U{3000}'
  }

  /** By their codes. */
  lemma BlanksExactly(c: char)
    ensures IsBlank(c) <==>
            var n := c as int;
            9 <= n <= 13 || 8192 <= n <= 8202 || n in {32, 133, 160, 5760, 8232, 8233, 8239, 8287, 12288}
  {
  }

  function Trim(s: string): string {
    if s == "" then ""
    else if IsBlank(s[0]) then Trim(s[1..])
    else if IsBlank(s[|s| - 1]) then Trim(s[..|s| - 1])
    else s
  }

  /** Drops `prefix` from the front for as long as it is there. */
  function SkipPrefix(s: string, prefix: string): string
    requires prefix != ""
  {
    if prefix <= s then SkipPrefix(s[|prefix|..], prefix) else s
  }

  function Split(s: string, sep: char): (r: seq<string>)
    ensures r != []
  {
    if s == "" then [""]
    else
      var r := Split(s[1..], sep);
      if s[0] == sep then [""] + r else [[s[0]] + r[0]] + r[1..]
  }

  function Join(parts: seq<string>, sep: string): string {
    if parts == [] then "" else if |parts| == 1 then parts[0] else parts[0] + sep + Join(parts[1..], sep)
  }

  lemma {:induction false} JoinAtTheEnd(front: seq<string>, last: string, sep: string)
    requires front != []
    ensures Join(front + [last], sep) == Join(front, sep) + sep + last
  {
    var all := front + [last];
    if |front| == 1 {
      assert all[1..] == [last];
    } else {
      assert all[1..] == front[1..] + [last];
      JoinAtTheEnd(front[1..], last, sep);
      var more := Join(front[1..], sep);
      assert front[0] + sep + (more + sep + last) == front[0] + sep + more + sep + last;
    }
  }

  lemma {:induction false} SplitPieces(s: string, sep: char)
    ensures forall i :: 0 <= i < |Split(s, sep)| ==> sep !in Split(s, sep)[i]
  {
    if s != "" {
      SplitPieces(s[1..], sep);
      var r, q := Split(s[1..], sep), Split(s, sep);
      forall i | 0 <= i < |q| ensures sep !in q[i] {
        if s[0] == sep {
          if i > 0 { assert q[i] == r[i - 1]; }
        } else if i > 0 {
          assert q[i] == r[i];
        } else {
          assert q[0] == [s[0]] + r[0];
        }
      }
    }
  }

  lemma JoinHead(c: char, r: seq<string>, sep: string)
    requires r != []
    ensures Join([[c] + r[0]] + r[1..], sep) == [c] + Join(r, sep)
  {
    var q := [[c] + r[0]] + r[1..];
    assert q[1..] == r[1..];
    if |r| > 1 {
      assert [c] + r[0] + sep + Join(r[1..], sep) == [c] + (r[0] + sep + Join(r[1..], sep));
    }
  }

  /** Splitting loses nothing and leaves no separator in a piece. */
  lemma {:induction false} SplitJoins(s: string, sep: char)
    ensures Join(Split(s, sep), [sep]) == s
    ensures forall i :: 0 <= i < |Split(s, sep)| ==> sep !in Split(s, sep)[i]
  {
    SplitPieces(s, sep);
    if s != "" {
      SplitJoins(s[1..], sep);
      var r := Split(s[1..], sep);
      if s[0] == sep {
        assert ([""] + r)[1..] == r;
      } else {
        JoinHead(s[0], r, [sep]);
      }
    }
  }

  /** The order of strings by their characters. */
  predicate AtMost(a: string, b: string) {
    a == "" || (b != "" && (a[0] < b[0] || (a[0] == b[0] && AtMost(a[1..], b[1..]))))
  }

  // ---- finding and replacing ------------------------------------------------

  /** `v` stands in `s` at `i`. */
  predicate Occurs(s: string, v: string, i: nat) {
    i + |v| <= |s| && s[i..i + |v|] == v
  }

  predicate Contains(s: string, v: string) {
    exists i :: 0 <= i <= |s| && Occurs(s, v, i)
  }

  /** The least position of `v` in `s`. */
  function Find(s: string, v: string): (r: Option<nat>)
    ensures r.Some? ==> Occurs(s, v, r.value) && forall j :: 0 <= j < r.value ==> !Occurs(s, v, j)
    ensures r.None? ==> forall j: nat :: !Occurs(s, v, j)
  {
    FindFrom(s, v, 0)
  }

  function FindFrom(s: string, v: string, i: nat): (r: Option<nat>)
    ensures r.Some? ==> i <= r.value && Occurs(s, v, r.value) && forall j :: i <= j < r.value ==> !Occurs(s, v, j)
    ensures r.None? ==> forall j :: i <= j ==> !Occurs(s, v, j)
    decreases |s| - i
  {
    if i + |v| > |s| then None
    else if Occurs(s, v, i) then Some(i)
    else FindFrom(s, v, i + 1)
  }

  lemma FindIs(s: string, v: string, i: nat)
    requires Occurs(s, v, i) && forall j :: 0 <= j < i ==> !Occurs(s, v, j)
    ensures Find(s, v) == Some(i)
  {
  }

  lemma OccursLeft(a: string, c: string, v: string, i: nat)
    requires i + |v| <= |a|
    ensures Occurs(a + c, v, i) <==> Occurs(a, v, i)
  {
    assert (a + c)[i..i + |v|] == a[i..i + |v|];
  }

  lemma OccursRight(a: string, c: string, v: string, i: nat)
    requires |a| <= i
    ensures Occurs(a + c, v, i) <==> Occurs(c, v, i - |a|)
  {
    if i + |v| <= |a| + |c| {
      assert (a + c)[i..i + |v|] == c[i - |a|..i - |a| + |v|];
    }
  }

  /** Every occurrence from the left, none overlapping the one before it. */
  function Replace(s: string, v: string, w: string): string
    requires v != ""
  {
    var at := Find(s, v);
    if at.None? then s else s[..at.value] + w + Replace(s[at.value + |v|..], v, w)
  }

  /** Nothing starts in `p`, so the search in `p + b` is the search in `b`. */
  lemma FindShifts(p: string, b: string, v: string)
    requires forall j :: 0 <= j < |p| ==> !Occurs(p + b, v, j)
    ensures Find(p + b, v).Some? <==> Find(b, v).Some?
    ensures Find(b, v).Some? ==> Find(p + b, v).value == |p| + Find(b, v).value
  {
    if Find(b, v).Some? {
      OccursRight(p, b, v, |p| + Find(b, v).value);
    }
    if Find(p + b, v).Some? {
      OccursRight(p, b, v, Find(p + b, v).value);
    }
  }

  lemma ReplaceAt(s: string, v: string, front: string, rest: string, w: string)
    requires v != "" && s == front + v + rest
    requires Find(s, v).Some? && Find(s, v).value == |front|
    ensures Replace(s, v, w) == front + w + Replace(rest, v, w)
  {
    assert s[..|front|] == front && s[|front| + |v|..] == rest;
  }

  lemma ReplaceShifts(p: string, b: string, v: string, w: string)
    requires v != "" && forall j :: 0 <= j < |p| ==> !Occurs(p + b, v, j)
    ensures Replace(p + b, v, w) == p + Replace(b, v, w)
  {
    FindShifts(p, b, v);
    if Find(b, v).Some? {
      var i := Find(b, v).value;
      assert b == b[..i] + v + b[i + |v|..];
      ReplaceShiftsAt(p, b[..i], b[i + |v|..], v, w);
    }
  }

  lemma ReplaceShiftsAt(p: string, front: string, rest: string, v: string, w: string)
    requires v != ""
    requires Find(front + v + rest, v).Some? && Find(front + v + rest, v).value == |front|
    requires Find(p + (front + v + rest), v).Some? && Find(p + (front + v + rest), v).value == |p| + |front|
    ensures Replace(p + (front + v + rest), v, w) == p + Replace(front + v + rest, v, w)
  {
    ReplaceAt(front + v + rest, v, front, rest, w);
    ReplaceShifted(p, front, rest, v, w);
    Regroup(p, front, w, Replace(rest, v, w));
  }

  lemma ReplaceShifted(p: string, front: string, rest: string, v: string, w: string)
    requires v != ""
    requires Find(p + (front + v + rest), v).Some? && Find(p + (front + v + rest), v).value == |p| + |front|
    ensures Replace(p + (front + v + rest), v, w) == (p + front) + w + Replace(rest, v, w)
  {
    Regroup(p, front, v, rest);
    ReplaceAt((p + front) + v + rest, v, p + front, rest, w);
  }

  lemma Regroup(p: string, x: string, y: string, z: string)
    ensures (p + x) + y + z == p + (x + y + z)
  {
  }

  // ---- decimal numbers ---------------------------------------------------------

  predicate IsDigit(c: char) {
    '0' <= c <= '9'
  }

  function DigitValue(c: char): nat
    requires IsDigit(c)
  {
    c as int - '0' as int
  }

  function Digit(d: nat): (c: char)
    requires d < 10
    ensures IsDigit(c) && DigitValue(c) == d
  {
    ('0' as int + d) as char
  }

  predicate AllDigits(s: string) {
    forall i :: 0 <= i < |s| ==> IsDigit(s[i])
  }

  function DecimalValue(s: string): nat
    requires AllDigits(s)
  {
    if s == "" then 0 else 10 * DecimalValue(s[..|s| - 1]) + DigitValue(s[|s| - 1])
  }

  function Decimal(n: nat): (s: string)
    ensures s != "" && AllDigits(s)
  {
    if n < 10 then [Digit(n)] else Decimal(n / 10) + [Digit(n % 10)]
  }

  lemma {:induction false} DecimalRoundTrip(n: nat)
    ensures DecimalValue(Decimal(n)) == n
  {
    if n < 10 {
      assert DecimalValue("") == 0;
      assert [Digit(n)][..0] == "";
    } else {
      DecimalRoundTrip(n / 10);
      assert Decimal(n)[..|Decimal(n)| - 1] == Decimal(n / 10);
    }
  }
}
