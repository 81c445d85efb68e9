/** Redaction of secret values, as `src/secrets.rs` does it: each secret in turn,
    longest first, every occurrence replaced by `***`. */
module Masker {
  import opened Text

  const REDACTED := "***"
  const MIN_MASK_LEN := 4

  /** The loop of `mask`.  Replacing an absent secret changes nothing, so the
      `contains` test in front of it does not show here. */
  function MaskAll(values: seq<string>, text: string): string
    requires "" !in values
    decreases |values|
  {
    if values == [] then text else MaskAll(values[1..], Replace(text, values[0], REDACTED))
  }

  // ---- what replacing can and cannot bring about ---------------------------

  /** The secrets `***` cannot take part in: not at either end, and not whole
      inside.  Every secret free of `*` is one. */
  predicate Safe(v: string) {
    v != "" && v[0] != '*' && v[|v| - 1] != '*' && !Contains(v, REDACTED)
  }

  lemma RedactedStarts(v: string, i: nat)
    requires Occurs(v, REDACTED, i)
    ensures v[i] == '*'
  {
    assert v[i] == v[i..i + 3][0];
  }

  lemma StarFreeIsSafe(v: string)
    requires v != "" && '*' !in v
    ensures Safe(v)
  {
    if Contains(v, REDACTED) {
      var i :| 0 <= i <= |v| && Occurs(v, REDACTED, i);
      RedactedStarts(v, i);
    }
  }

  lemma StraddlingIsUnsafe(a: string, b: string, v: string, i: nat)
    requires v != "" && Occurs(a + REDACTED + b, v, i) && i < |a| + 3 && |a| < i + |v|
    ensures !Safe(v)
  {
    var s := a + REDACTED + b;
    assert forall k :: |a| <= k < |a| + 3 ==> s[k] == '*';
    assert forall k :: 0 <= k < |v| ==> v[k] == s[i..i + |v|][k] == s[i + k];
    if |a| <= i {
      assert v[0] == '*';
    } else if i + |v| <= |a| + 3 {
      assert v[|v| - 1] == '*';
    } else {
      assert v[|a| - i..|a| - i + 3] == REDACTED;
      assert Occurs(v, REDACTED, |a| - i);
    }
  }

  /** An occurrence of a safe secret around a `***` lies wholly to one side. */
  lemma OneSide(a: string, b: string, v: string, i: nat)
    requires Safe(v) && Occurs(a + REDACTED + b, v, i)
    ensures i + |v| <= |a| || |a| + 3 <= i
  {
    if i < |a| + 3 && |a| < i + |v| {
      StraddlingIsUnsafe(a, b, v, i);
    }
  }

  lemma OccursOneSide(a: string, b: string, v: string, j: nat)
    requires Safe(v)
    ensures Occurs(a + REDACTED + b, v, j) <==> Occurs(a, v, j) || (|a| + 3 <= j && Occurs(b, v, j - |a| - 3))
  {
    var s := a + REDACTED + b;
    assert s == a + (REDACTED + b) && s == (a + REDACTED) + b;
    if Occurs(s, v, j) {
      OneSide(a, b, v, j);
    }
    if j + |v| <= |a| {
      OccursLeft(a, REDACTED + b, v, j);
    }
    if |a| + 3 <= j {
      OccursRight(a + REDACTED, b, v, j);
    }
  }

  lemma FindsInFront(a: string, b: string, v: string)
    requires Safe(v) && Find(a, v).Some?
    ensures Find(a + REDACTED + b, v) == Find(a, v)
  {
    var i := Find(a, v).value;
    forall j | 0 <= j <= i ensures Occurs(a + REDACTED + b, v, j) <==> Occurs(a, v, j) {
      OccursOneSide(a, b, v, j);
    }
    FindIs(a + REDACTED + b, v, i);
  }

  lemma NothingInFront(a: string, b: string, v: string, j: nat)
    requires Safe(v) && Find(a, v).None? && j < |a| + 3
    ensures !Occurs(a + REDACTED + b, v, j)
  {
    OccursOneSide(a, b, v, j);
  }

  /** Replacing a safe secret works on each side of a `***` by itself. */
  lemma {:induction false} ReplaceSplits(a: string, b: string, v: string)
    requires Safe(v)
    ensures Replace(a + REDACTED + b, v, REDACTED) == Replace(a, v, REDACTED) + REDACTED + Replace(b, v, REDACTED)
    decreases |a|
  {
    if Find(a, v).Some? {
      var i := Find(a, v).value;
      var front, rest := a[..i], a[i + |v|..];
      assert a == front + v + rest;
      ReplaceInFront(a, b, v, front, rest);
      ReplaceSplits(rest, b, v);
      Regroup(front + REDACTED, Replace(rest, v, REDACTED), REDACTED, Replace(b, v, REDACTED));
    } else {
      ReplaceBehind(a, b, v);
      ReplaceAbsent(a, v);
    }
  }

  lemma ReplaceInFront(a: string, b: string, v: string, front: string, rest: string)
    requires Safe(v) && a == front + v + rest && Find(a, v).Some? && Find(a, v).value == |front|
    ensures Replace(a + REDACTED + b, v, REDACTED) == front + REDACTED + Replace(rest + REDACTED + b, v, REDACTED)
    ensures Replace(a, v, REDACTED) == front + REDACTED + Replace(rest, v, REDACTED)
  {
    FindsInFront(a, b, v);
    Regroup(front + v, rest, REDACTED, b);
    ReplaceAt(a + REDACTED + b, v, front, rest + REDACTED + b, REDACTED);
    ReplaceAt(a, v, front, rest, REDACTED);
  }

  lemma ReplaceBehind(a: string, b: string, v: string)
    requires Safe(v) && Find(a, v).None?
    ensures Replace(a + REDACTED + b, v, REDACTED) == a + REDACTED + Replace(b, v, REDACTED)
  {
    forall j | 0 <= j < |a + REDACTED| ensures !Occurs(a + REDACTED + b, v, j) {
      NothingInFront(a, b, v, j);
    }
    ReplaceShifts(a + REDACTED, b, v, REDACTED);
  }

  lemma ReplaceAbsent(s: string, v: string)
    requires v != "" && !Contains(s, v)
    ensures Replace(s, v, REDACTED) == s
  {
  }

  lemma AppearedBefore(a: string, u: string, rest: string, b: string, v: string)
    requires Safe(v) && Contains(a + REDACTED + b, v) && (Contains(b, v) ==> Contains(rest, v))
    ensures Contains(a + u + rest, v)
  {
    var i :| 0 <= i <= |a + REDACTED + b| && Occurs(a + REDACTED + b, v, i);
    OccursOneSide(a, b, v, i);
    if Occurs(a, v, i) {
      assert a + u + rest == a + (u + rest);
      OccursLeft(a, u + rest, v, i);
    } else {
      assert Contains(b, v);
      var j :| 0 <= j <= |rest| && Occurs(rest, v, j);
      OccursRight(a + u, rest, v, j + |a + u|);
    }
  }

  /** Replacing some other secret never brings a safe one about. */
  lemma {:induction false} NothingAppears(s: string, u: string, v: string)
    requires u != "" && Safe(v) && Contains(Replace(s, u, REDACTED), v)
    ensures Contains(s, v)
    decreases |s|
  {
    if Find(s, u).Some? {
      var k := Find(s, u).value;
      var a, rest := s[..k], s[k + |u|..];
      assert s == a + u + rest;
      ReplaceAt(s, u, a, rest, REDACTED);
      if Contains(Replace(rest, u, REDACTED), v) {
        NothingAppears(rest, u, v);
      }
      AppearedBefore(a, u, rest, Replace(rest, u, REDACTED), v);
    }
  }

  /** Replacing a safe secret removes it. */
  lemma {:induction false} ReplaceRemoves(s: string, v: string)
    requires Safe(v)
    ensures !Contains(Replace(s, v, REDACTED), v)
    decreases |s|
  {
    if Find(s, v).Some? {
      var k := Find(s, v).value;
      var front, rest := s[..k], s[k + |v|..];
      ReplaceRemoves(rest, v);
      assert s == front + v + rest;
      ReplaceAt(s, v, front, rest, REDACTED);
      forall i: nat ensures !Occurs(front + REDACTED + Replace(rest, v, REDACTED), v, i) {
        StillRemoved(front, rest, Replace(rest, v, REDACTED), v, i);
      }
    } else {
      ReplaceAbsent(s, v);
    }
  }

  lemma StillRemoved(front: string, rest: string, b: string, v: string, i: nat)
    requires Safe(v) && !Contains(b, v)
    requires Find(front + v + rest, v).Some? && Find(front + v + rest, v).value == |front|
    ensures !Occurs(front + REDACTED + b, v, i)
  {
    OccursOneSide(front, b, v, i);
    if i + |v| <= |front| {
      assert front + v + rest == front + (v + rest);
      OccursLeft(front, v + rest, v, i);
    }
  }

  // ---- no secret is left ------------------------------------------------------

  lemma {:induction false} AbsentStaysAbsent(values: seq<string>, text: string, v: string)
    requires "" !in values && Safe(v) && !Contains(text, v)
    ensures !Contains(MaskAll(values, text), v)
    decreases |values|
  {
    if values != [] {
      if Contains(Replace(text, values[0], REDACTED), v) {
        NothingAppears(text, values[0], v);
      }
      AbsentStaysAbsent(values[1..], Replace(text, values[0], REDACTED), v);
    }
  }

  /** A safe secret never survives masking, whatever it is masked along with. */
  lemma {:induction false} SecretIsGone(values: seq<string>, text: string, v: string)
    requires "" !in values && v in values && Safe(v)
    ensures !Contains(MaskAll(values, text), v)
    decreases |values|
  {
    var next := Replace(text, values[0], REDACTED);
    if v == values[0] {
      ReplaceRemoves(text, v);
      AbsentStaysAbsent(values[1..], next, v);
    } else {
      SecretIsGone(values[1..], next, v);
    }
  }

  lemma {:induction false} NothingToMask(values: seq<string>, text: string)
    requires "" !in values && forall v :: v in values ==> !Contains(text, v)
    ensures MaskAll(values, text) == text
    decreases |values|
  {
    if values != [] {
      ReplaceAbsent(text, values[0]);
      NothingToMask(values[1..], text);
    }
  }

  /** Masking a masked text changes nothing. */
  lemma MaskingTwice(values: seq<string>, text: string)
    requires "" !in values && forall v :: v in values ==> Safe(v)
    ensures MaskAll(values, MaskAll(values, text)) == MaskAll(values, text)
  {
    forall v | v in values ensures !Contains(MaskAll(values, text), v) {
      SecretIsGone(values, text, v);
    }
    NothingToMask(values, MaskAll(values, text));
  }

  /** Masking `text` for `values`, `v` among them, leaves `v` in it. */
  ghost predicate Leaks(v: string, values: seq<string>, text: string) {
    "" !in values && v in values && Contains(MaskAll(values, text), v)
  }

  /** A safe secret is one that no text and no company of other secrets can
      keep in the log: any other has a text that masking it leaves it in. */
  lemma GoneExactlyWhenSafe(v: string)
    requires v != ""
    ensures Safe(v) <==> forall values, text :: !Leaks(v, values, text)
  {
    if Safe(v) {
      forall values, text ensures !Leaks(v, values, text) {
        if "" !in values && v in values {
          SecretIsGone(values, text, v);
        }
      }
    } else {
      var text := UnsafeSurvives(v);
      var values := [v];
      assert MaskAll(values[1..], Replace(text, v, REDACTED)) == Replace(text, v, REDACTED);
      assert Leaks(v, values, text);
    }
  }

  lemma UnsafeSurvives(v: string) returns (text: string)
    requires v != "" && !Safe(v)
    ensures Contains(Replace(text, v, REDACTED), v)
  {
    if v[0] == '*' {
      text := v + v[1..];
      StarInFront(v);
    } else if v[|v| - 1] == '*' {
      text := v[..|v| - 1] + v;
      StarBehind(v);
    } else {
      var p := Find(v, REDACTED).value;
      text := v[..p] + v + v[p + 3..];
      StarsInside(v, p);
      assert Occurs(v, v, 0);
    }
  }

  lemma StarInFront(v: string)
    requires v != "" && v[0] == '*'
    ensures Contains(Replace(v + v[1..], v, REDACTED), v)
  {
    var b := v[1..];
    assert Occurs(v + b, v, 0);
    assert v + b == "" + v + b;
    ReplaceAt(v + b, v, "", b, REDACTED);
    ReplaceAbsent(b, v);
    assert Occurs("" + REDACTED + b, v, 2);
  }

  lemma SameEnds(v: string, k: nat)
    requires k + 1 < |v| && Occurs(v[..|v| - 1] + v, v, k)
    ensures v[0] == v[|v| - 1]
  {
    var text := v[..|v| - 1] + v;
    assert text[k..k + |v|][0] == text[k] == v[k];
    assert text[k..k + |v|][|v| - 1] == text[k + |v| - 1] == v[k];
  }

  lemma StarBehind(v: string)
    requires v != "" && v[0] != '*' && v[|v| - 1] == '*'
    ensures Contains(Replace(v[..|v| - 1] + v, v, REDACTED), v)
  {
    var a := v[..|v| - 1];
    OccursRight(a, v, v, |a|);
    forall k | 0 <= k < |a| ensures !Occurs(a + v, v, k) {
      if Occurs(a + v, v, k) { SameEnds(v, k); }
    }
    FindIs(a + v, v, |a|);
    assert a + v == a + v + "";
    ReplaceAt(a + v, v, a, "", REDACTED);
    ReplaceAbsent("", v);
    LastStarShows(v);
  }

  lemma LastStarShows(v: string)
    requires v != "" && v[|v| - 1] == '*'
    ensures Contains(v[..|v| - 1] + REDACTED + "", v)
  {
    assert v == v[..|v| - 1] + "*";
    assert Occurs(v[..|v| - 1] + REDACTED + "", v, 0);
  }

  lemma StarsInside(v: string, p: nat)
    requires v != "" && Find(v, REDACTED).Some? && Find(v, REDACTED).value == p
    ensures Replace(v[..p] + v + v[p + 3..], v, REDACTED) == v
  {
    var a, b := v[..p], v[p + 3..];
    assert a + v + b == a + (v + b);
    OccursRight(a, v + b, v, p);
    OccursLeft(v, b, v, 0);
    forall k | 0 <= k < p ensures !Occurs(a + v + b, v, k) {
      if Occurs(a + v + b, v, k) { StarsAgain(v, b, p, k); }
    }
    FindIs(a + v + b, v, p);
    ReplaceAt(a + v + b, v, a, b, REDACTED);
    ReplaceAbsent(b, v);
    assert v[p..p + 3] == REDACTED;
    assert v == a + REDACTED + b;
  }

  lemma StarsAgain(v: string, b: string, p: nat, k: nat)
    requires Occurs(v, REDACTED, p) && k < p && Occurs(v[..p] + v + b, v, k)
    ensures Occurs(v, REDACTED, k)
  {
    var text := v[..p] + v + b;
    SliceOfSlice(text, k, |v|, p);
    OccursAt(v[..p], v, b, k);
  }

  lemma SliceOfSlice(s: string, k: nat, n: nat, p: nat)
    requires k + n <= |s| && p + 3 <= n
    ensures s[k..k + n][p..p + 3] == s[k + p..k + p + 3]
  {
    var t := s[k..k + n];
    assert forall i :: 0 <= i < n ==> t[i] == s[k + i];
  }

  lemma OccursAt(a: string, v: string, b: string, k: nat)
    requires k + 3 <= |v|
    ensures (a + v + b)[k + |a|..k + |a| + 3] == v[k..k + 3]
  {
  }

  // ---- everything else is kept ---------------------------------------------------

  /** A text read as stretches kept and secrets cut out of it. */
  datatype Reading = End(gap: string) | Cut(gap: string, secret: string, rest: Reading)

  function Source(m: Reading): string {
    match m
    case End(gap) => gap
    case Cut(gap, secret, rest) => gap + secret + Source(rest)
  }

  function Shown(m: Reading): string {
    match m
    case End(gap) => gap
    case Cut(gap, _, rest) => gap + REDACTED + Shown(rest)
  }

  predicate CutsOnly(m: Reading, values: seq<string>) {
    m.Cut? ==> m.secret in values && CutsOnly(m.rest, values)
  }

  function CutUp(gap: string, v: string): Reading
    requires v != ""
    decreases |gap|
  {
    var at := Find(gap, v);
    if at.None? then End(gap) else Cut(gap[..at.value], v, CutUp(gap[at.value + |v|..], v))
  }

  function Link(m: Reading, secret: string, tail: Reading): Reading {
    match m
    case End(gap) => Cut(gap, secret, tail)
    case Cut(gap, s, rest) => Cut(gap, s, Link(rest, secret, tail))
  }

  function Refine(m: Reading, v: string): Reading
    requires v != ""
  {
    match m
    case End(gap) => CutUp(gap, v)
    case Cut(gap, secret, rest) => Link(CutUp(gap, v), secret, Refine(rest, v))
  }

  lemma CutUpSteps(gap: string, v: string) returns (front: string, rest: string)
    requires v != "" && Find(gap, v).Some?
    ensures gap == front + v + rest && |rest| < |gap| && CutUp(gap, v) == Cut(front, v, CutUp(rest, v))
    ensures Find(gap, v).value == |front|
  {
    var i := Find(gap, v).value;
    front, rest := gap[..i], gap[i + |v|..];
    assert gap == front + v + rest;
  }

  lemma {:induction false} CutUpReads(gap: string, v: string, values: seq<string>)
    requires v != "" && v in values
    ensures Source(CutUp(gap, v)) == gap && Shown(CutUp(gap, v)) == Replace(gap, v, REDACTED)
    ensures CutsOnly(CutUp(gap, v), values)
    decreases |gap|
  {
    if Find(gap, v).Some? {
      var front, rest := CutUpSteps(gap, v);
      CutUpReads(rest, v, values);
      ReplaceAt(gap, v, front, rest, REDACTED);
    } else {
      ReplaceAbsent(gap, v);
    }
  }

  lemma {:induction false} LinkReads(m: Reading, secret: string, tail: Reading, values: seq<string>)
    requires CutsOnly(m, values) && CutsOnly(tail, values) && secret in values
    ensures Source(Link(m, secret, tail)) == Source(m) + secret + Source(tail)
    ensures Shown(Link(m, secret, tail)) == Shown(m) + REDACTED + Shown(tail)
    ensures CutsOnly(Link(m, secret, tail), values)
  {
    if m.Cut? {
      LinkReads(m.rest, secret, tail, values);
      Regroup4(m.gap, m.secret, Source(m.rest), secret, Source(tail));
      Regroup4(m.gap, REDACTED, Shown(m.rest), REDACTED, Shown(tail));
    }
  }

  lemma Regroup4(a: string, b: string, c: string, d: string, e: string)
    ensures a + b + (c + d + e) == (a + b + c) + d + e
  {
  }

  lemma {:induction false} RefineReads(m: Reading, v: string, values: seq<string>)
    requires Safe(v) && v in values && CutsOnly(m, values)
    ensures Source(Refine(m, v)) == Source(m) && Shown(Refine(m, v)) == Replace(Shown(m), v, REDACTED)
    ensures CutsOnly(Refine(m, v), values)
  {
    CutUpReads(m.gap, v, values);
    if m.Cut? {
      RefineReads(m.rest, v, values);
      LinkReads(CutUp(m.gap, v), m.secret, Refine(m.rest, v), values);
      ReplaceSplits(m.gap, Shown(m.rest), v);
    }
  }

  lemma {:induction false} MaskReads(values: seq<string>, m: Reading, all: seq<string>) returns (r: Reading)
    requires forall v :: v in values ==> Safe(v) && v in all
    requires CutsOnly(m, all)
    ensures "" !in values && Source(r) == Source(m) && Shown(r) == MaskAll(values, Shown(m)) && CutsOnly(r, all)
    decreases |values|
  {
    if values == [] {
      r := m;
    } else {
      RefineReads(m, values[0], all);
      r := MaskReads(values[1..], Refine(m, values[0]), all);
    }
  }

  /** The masked text is the input with disjoint occurrences of secrets each
      shown as `***`, and every other character kept in its place. */
  lemma OnlySecretsAreCut(values: seq<string>, text: string)
    requires "" !in values && forall v :: v in values ==> Safe(v)
    ensures exists m :: Source(m) == text && Shown(m) == MaskAll(values, text) && CutsOnly(m, values)
  {
    var m := MaskReads(values, End(text), values);
  }

  /** For secrets free of `*`, all of it: the masked text holds none of them,
      is the input with disjoint secrets shown as `***`, and masking it again
      changes nothing. */
  lemma StarFreeSecrets(values: seq<string>, text: string)
    requires forall v :: v in values ==> v != "" && '*' !in v
    ensures forall v :: v in values ==> !Contains(MaskAll(values, text), v)
    ensures exists m :: Source(m) == text && Shown(m) == MaskAll(values, text) && CutsOnly(m, values)
    ensures MaskAll(values, MaskAll(values, text)) == MaskAll(values, text)
  {
    forall v | v in values ensures Safe(v) {
      StarFreeIsSafe(v);
    }
    forall v | v in values ensures !Contains(MaskAll(values, text), v) {
      SecretIsGone(values, text, v);
    }
    OnlySecretsAreCut(values, text);
    MaskingTwice(values, text);
  }

  // ---- the order of the secrets ----------------------------------------------------

  function LongEnough(secrets: seq<string>): seq<string> {
    if secrets == [] then []
    else (if |secrets[0]| >= MIN_MASK_LEN then [secrets[0]] else []) + LongEnough(secrets[1..])
  }

  predicate LongestFirst(values: seq<string>) {
    forall i, j :: 0 <= i < j < |values| ==> |values[i]| >= |values[j]|
  }

  function OfLength(values: seq<string>, n: nat): seq<string> {
    if values == [] then [] else (if |values[0]| == n then [values[0]] else []) + OfLength(values[1..], n)
  }

  /** Puts `v` in front of what is no longer than it. */
  function Insert(v: string, values: seq<string>): seq<string> {
    if values == [] || |v| >= |values[0]| then [v] + values else [values[0]] + Insert(v, values[1..])
  }

  /** The stable sort by decreasing length. */
  function Sorted(values: seq<string>): seq<string> {
    if values == [] then [] else Insert(values[0], Sorted(values[1..]))
  }

  function Dedup(values: seq<string>): seq<string> {
    if |values| < 2 then values
    else if values[0] == values[1] then Dedup(values[1..])
    else [values[0]] + Dedup(values[1..])
  }

  lemma {:induction false} LongEnoughMembers(secrets: seq<string>, v: string)
    ensures v in LongEnough(secrets) <==> v in secrets && |v| >= MIN_MASK_LEN
  {
    if secrets != [] { LongEnoughMembers(secrets[1..], v); }
  }

  lemma {:induction false} InsertKeeps(v: string, values: seq<string>)
    ensures multiset(Insert(v, values)) == multiset(values) + multiset{v}
  {
    if values != [] && |v| < |values[0]| {
      InsertKeeps(v, values[1..]);
      assert values == [values[0]] + values[1..];
    }
  }

  lemma {:induction false} InsertSorts(v: string, values: seq<string>)
    requires LongestFirst(values)
    ensures LongestFirst(Insert(v, values))
  {
    if values != [] && |v| < |values[0]| {
      InsertSorts(v, values[1..]);
      InsertBounded(v, values[1..], |values[0]|);
    }
  }

  lemma {:induction false} InsertBounded(v: string, values: seq<string>, n: nat)
    requires |v| <= n && forall k :: 0 <= k < |values| ==> |values[k]| <= n
    ensures forall k :: 0 <= k < |Insert(v, values)| ==> |Insert(v, values)[k]| <= n
  {
    if values != [] && |v| < |values[0]| {
      InsertBounded(v, values[1..], n);
    }
  }

  lemma {:induction false} InsertIsStable(v: string, values: seq<string>, n: nat)
    ensures OfLength(Insert(v, values), n) == OfLength([v] + values, n)
  {
    assert ([v] + values)[1..] == values;
    if values != [] && |v| < |values[0]| {
      var rest := Insert(v, values[1..]);
      InsertIsStable(v, values[1..], n);
      assert ([v] + values[1..])[1..] == values[1..];
      assert ([values[0]] + rest)[1..] == rest;
    }
  }

  /** Longest first, nothing lost, and equal lengths in their old order. */
  lemma {:induction false} SortedIsStable(values: seq<string>, n: nat)
    ensures LongestFirst(Sorted(values)) && multiset(Sorted(values)) == multiset(values)
    ensures OfLength(Sorted(values), n) == OfLength(values, n)
  {
    if values != [] {
      SortedIsStable(values[1..], n);
      InsertSorts(values[0], Sorted(values[1..]));
      InsertKeeps(values[0], Sorted(values[1..]));
      InsertIsStable(values[0], Sorted(values[1..]), n);
      assert values == [values[0]] + values[1..];
      assert ([values[0]] + Sorted(values[1..]))[1..] == Sorted(values[1..]);
    }
  }

  lemma {:induction false} DedupKeeps(values: seq<string>)
    ensures forall v :: v in Dedup(values) <==> v in values
    ensures LongestFirst(values) ==> LongestFirst(Dedup(values))
  {
    if |values| >= 2 {
      var rest := Dedup(values[1..]);
      DedupKeeps(values[1..]);
      assert values == [values[0]] + values[1..];
      if LongestFirst(values) {
        forall k | 0 <= k < |rest| ensures |rest[k]| <= |values[0]| {
          assert rest[k] in values[1..];
        }
      }
    }
  }

  /** No secret is left beside itself. */
  lemma {:induction false} DedupLeavesNoPair(values: seq<string>)
    ensures forall i :: 0 <= i < |Dedup(values)| - 1 ==> Dedup(values)[i] != Dedup(values)[i + 1]
    ensures values != [] ==> Dedup(values) != [] && Dedup(values)[0] == values[0]
  {
    if |values| >= 2 { DedupLeavesNoPair(values[1..]); }
  }

  lemma {:induction false} NothingFits(values: seq<string>)
    requires forall v :: v in values ==> |v| > 3
    ensures MaskAll(values, REDACTED) == REDACTED
  {
    if values != [] {
      ReplaceAbsent(REDACTED, values[0]);
      NothingFits(values[1..]);
    }
  }

  /** With the longest secrets first, a secret standing alone is shown as
      exactly `***`: no shorter one has cut a piece out of it before. */
  lemma {:induction false} WholeSecretIsOneMark(values: seq<string>, v: string)
    requires LongestFirst(values) && v in values && forall w :: w in values ==> |w| > 3
    ensures MaskAll(values, v) == "***"
    decreases |values|
  {
    if values[0] == v {
      assert Occurs(v, v, 0) && v == "" + v + "";
      ReplaceAt(v, v, "", "", REDACTED);
      ReplaceAbsent("", v);
      assert "" + REDACTED + "" == REDACTED;
      NothingFits(values[1..]);
    } else {
      OnlyItself(v, values[0]);
      ReplaceAbsent(v, values[0]);
      WholeSecretIsOneMark(values[1..], v);
    }
  }

  lemma OnlyItself(v: string, w: string)
    requires |w| >= |v|
    ensures Contains(v, w) ==> w == v
  {
  }

  class Masker {
    const values: seq<string>

    /** `new`: the secrets worth masking, longest first, repeats dropped. */
    constructor (secrets: seq<string>)
      ensures LongestFirst(values)
      ensures forall v :: v in values <==> v in secrets && |v| >= 4
      ensures forall i :: 0 <= i < |values| - 1 ==> values[i] != values[i + 1]
      ensures values == Dedup(Sorted(LongEnough(secrets)))
    {
      values := Dedup(Sorted(LongEnough(secrets)));
      new;
      forall v ensures v in LongEnough(secrets) <==> v in secrets && |v| >= MIN_MASK_LEN {
        LongEnoughMembers(secrets, v);
      }
      var kept := LongEnough(secrets);
      SortedIsStable(kept, 0);
      assert forall v :: v in Sorted(kept) <==> v in multiset(Sorted(kept));
      DedupKeeps(Sorted(kept));
      DedupLeavesNoPair(Sorted(kept));
    }

    method Mask(text: string) returns (out: string)
      requires "" !in values
      ensures out == MaskAll(values, text)
      ensures forall v :: v in values && Safe(v) ==> !Contains(out, v)
      ensures (forall v :: v in values ==> Safe(v)) ==> MaskAll(values, out) == out
    {
      out := text;
      for i := 0 to |values|
        invariant MaskAll(values[i..], out) == MaskAll(values, text)
      {
        if Contains(out, values[i]) {
          out := Replace(out, values[i], REDACTED);
        } else {
          ReplaceAbsent(out, values[i]);
        }
        assert values[i..][1..] == values[i + 1..];
      }
      forall v | v in values && Safe(v) ensures !Contains(out, v) {
        SecretIsGone(values, text, v);
      }
      if forall v :: v in values ==> Safe(v) {
        MaskingTwice(values, text);
      }
    }
  }
}
