/** Job keys and the row ids made from them: `unique_key` of `src/plan.rs`,
    `job_id` and `step_id` of `src/store.rs`. */
module Keys {
  import opened Text

  // ---- the subject alphabet -------------------------------------------------------------

  predicate TokenChar(c: char) {
    'a' <= c <= 'z' || 'A' <= c <= 'Z' || IsDigit(c) || c == '_' || c == '-'
  }

  /** By their codes: capitals, small letters, digits, underscore and dash. */
  lemma TokenCharExactly(c: char)
    ensures TokenChar(c) <==> var n := c as int;
                              65 <= n <= 90 || 97 <= n <= 122 || 48 <= n <= 57 || n == 95 || n == 45
  {
  }

  predicate TokenChars(s: string) {
    forall i :: 0 <= i < |s| ==> TokenChar(s[i])
  }

  /** What may stand as one part of a queue subject. */
  predicate IsSubjectToken(s: string) {
    s != "" && TokenChars(s)
  }

  function Fold(s: string): (r: string)
    ensures TokenChars(r) && |r| == |s|
    ensures forall i :: 0 <= i < |s| ==> r[i] == if TokenChar(s[i]) then s[i] else '-'
  {
    if s == "" then "" else [if TokenChar(s[0]) then s[0] else '-'] + Fold(s[1..])
  }

  function TrimDashes(s: string): (r: string)
    ensures TokenChars(s) ==> TokenChars(r)
    ensures r != "" ==> r[0] != '-' && r[|r| - 1] != '-'
  {
    if s == "" then ""
    else if s[0] == '-' then TrimDashes(s[1..])
    else if s[|s| - 1] == '-' then TrimDashes(s[..|s| - 1])
    else s
  }

  /** Only subject characters are left, with no dash at either end. */
  function Sanitize(s: string): (r: string)
    ensures TokenChars(r) && (r != "" ==> r[0] != '-' && r[|r| - 1] != '-')
  {
    TrimDashes(Fold(s))
  }

  /** Sanitizing keeps every legal character where it is, between the first and
      the last one that is no dash, and shows any other as a dash. */
  lemma SanitizeKeeps(s: string) returns (a: nat, b: nat)
    ensures a <= b <= |s| && Sanitize(s) == Fold(s)[a..b]
    ensures forall i :: 0 <= i < |s| && !(a <= i < b) ==> Fold(s)[i] == '-'
    ensures TokenChars(s) && s != "" && s[0] != '-' && s[|s| - 1] != '-' ==> Sanitize(s) == s
  {
    a, b := TrimmedTo(Fold(s));
    if TokenChars(s) {
      assert Fold(s) == s;
    }
  }

  lemma TrimmedInFront(s: string, t: string, c: nat, d: nat)
    requires s == "-" + t && c <= d <= |t|
    requires forall i :: 0 <= i < |t| && !(c <= i < d) ==> t[i] == '-'
    ensures s[c + 1..d + 1] == t[c..d]
    ensures forall i :: 0 <= i < |s| && !(c + 1 <= i < d + 1) ==> s[i] == '-'
  {
    forall i | 0 <= i < |s| && !(c + 1 <= i < d + 1) ensures s[i] == '-' {
      if i > 0 { assert s[i] == t[i - 1]; }
    }
  }

  lemma TrimmedBehind(s: string, t: string, c: nat, d: nat)
    requires s == t + "-" && c <= d <= |t|
    requires forall i :: 0 <= i < |t| && !(c <= i < d) ==> t[i] == '-'
    ensures s[c..d] == t[c..d]
    ensures forall i :: 0 <= i < |s| && !(c <= i < d) ==> s[i] == '-'
  {
    forall i | 0 <= i < |s| && !(c <= i < d) ensures s[i] == '-' {
      if i < |t| { assert s[i] == t[i]; }
    }
  }

  lemma {:induction false} TrimmedTo(s: string) returns (a: nat, b: nat)
    ensures a <= b <= |s| && TrimDashes(s) == s[a..b]
    ensures forall i :: 0 <= i < |s| && !(a <= i < b) ==> s[i] == '-'
    decreases |s|
  {
    a, b := 0, |s|;
    if s != "" && s[0] == '-' {
      var c, d := TrimmedTo(s[1..]);
      TrimmedInFront(s, s[1..], c, d);
      a, b := c + 1, d + 1;
    } else if s != "" && s[|s| - 1] == '-' {
      a, b := TrimmedTo(s[..|s| - 1]);
      TrimmedBehind(s, s[..|s| - 1], a, b);
    }
  }

  // ---- one key --------------------------------------------------------------------------

  function Suffixes(labels: seq<string>): (r: seq<string>)
    ensures forall i :: 0 <= i < |r| ==> IsSubjectToken(r[i])
  {
    if labels == [] then []
    else
      var s := Sanitize(labels[0]);
      (if s == "" then [] else [s]) + Suffixes(labels[1..])
  }

  /** The readable key: the base and the values of its cell.  `labels` are the
      cell's values as displayed, in the order of the axis names. */
  function Candidate(base: string, labels: seq<string>): string {
    var suffixes := Suffixes(labels);
    if suffixes == [] then base else base + "-" + Join(suffixes, "-")
  }

  lemma {:induction false} SuffixesAtTheEnd(labels: seq<string>, last: string)
    ensures Suffixes(labels + [last]) == Suffixes(labels) + if Sanitize(last) == "" then [] else [Sanitize(last)]
  {
    var all := labels + [last];
    if labels == [] {
      assert all[1..] == [];
    } else {
      assert all[1..] == labels[1..] + [last];
      SuffixesAtTheEnd(labels[1..], last);
    }
  }

  /** A readable key is the base and, behind a dash each, the values as far as they
      leave anything legible. */
  lemma CandidateGrows(base: string, labels: seq<string>, last: string)
    ensures Candidate(base, []) == base
    ensures Candidate(base, labels + [last])
            == Candidate(base, labels) + if Sanitize(last) == "" then "" else "-" + Sanitize(last)
  {
    var parts, s := Suffixes(labels), Sanitize(last);
    SuffixesAtTheEnd(labels, last);
    if s == "" {
      assert parts + [] == parts;
    } else if parts == [] {
      assert [] + [s] == [s] && base + "-" + s == base + ("-" + s);
    } else {
      JoinAtTheEnd(parts, s, "-");
      assert base + "-" + (Join(parts, "-") + "-" + s) == base + "-" + Join(parts, "-") + ("-" + s);
    }
  }

  function Numbered(base: string, n: nat): string {
    base + "-" + Decimal(n)
  }

  lemma NumberedInjective(base: string, m: nat, n: nat)
    requires Numbered(base, m) == Numbered(base, n)
    ensures m == n
  {
    var k := |base| + 1;
    assert Decimal(m) == Numbered(base, m)[k..] && Decimal(n) == Numbered(base, n)[k..];
    DecimalRoundTrip(m);
    DecimalRoundTrip(n);
  }

  /** The used keys that a numbered fallback from `n` on could run into. */
  ghost function Ahead(base: string, n: nat, used: set<string>): set<string> {
    set u | u in used && exists m: nat :: m >= n && u == Numbered(base, m)
  }

  lemma OneLessAhead(base: string, n: nat, used: set<string>)
    requires Numbered(base, n) in used
    ensures |Ahead(base, n + 1, used)| < |Ahead(base, n, used)|
  {
    var u := Numbered(base, n);
    assert u in Ahead(base, n, used);
    forall m: nat | m >= n + 1 ensures u != Numbered(base, m) {
      if u == Numbered(base, m) { NumberedInjective(base, m, n); }
    }
    assert u !in Ahead(base, n + 1, used);
    Smaller(Ahead(base, n + 1, used), Ahead(base, n, used), u);
  }

  lemma Smaller(a: set<string>, b: set<string>, u: string)
    requires a <= b && u in b && u !in a
    ensures |a| < |b|
  {
    Fits(a, b - {u});
  }

  lemma {:induction false} Fits(a: set<string>, b: set<string>)
    requires a <= b
    ensures |a| <= |b|
  {
    if a != {} {
      var x :| x in a;
      Fits(a - {x}, b - {x});
    }
  }

  ghost predicate IsFirstFree(base: string, index: nat, used: set<string>, key: string, n: nat) {
    n >= index && key == Numbered(base, n) && forall m: nat :: index <= m < n ==> Numbered(base, m) in used
  }

  /** `key` is the base with the first number from `index` on that is free. */
  ghost predicate FirstFree(base: string, index: nat, used: set<string>, key: string) {
    exists n: nat :: IsFirstFree(base, index, used, key, n)
  }

  /** Ends for every set of used keys, with the readable key if that is short
      enough and free, and the first free number otherwise. */
  method UniqueKey(base: string, labels: seq<string>, index: nat, used: set<string>)
    returns (key: string, used': set<string>)
    ensures key !in used && used' == used + {key}
    ensures |Candidate(base, labels)| <= 64 && Candidate(base, labels) !in used ==> key == Candidate(base, labels)
    ensures |Candidate(base, labels)| > 64 || Candidate(base, labels) in used ==> FirstFree(base, index, used, key)
  {
    key := Candidate(base, labels);
    var numbered := |key| > 64 || key in used;
    if numbered {
      key := Numbered(base, index);
    }
    var n := index;
    while key in used
      invariant n >= index
      invariant !numbered ==> key == Candidate(base, labels) && key !in used
      invariant numbered ==> key == Numbered(base, n) && forall m: nat :: index <= m < n ==> Numbered(base, m) in used
      decreases |Ahead(base, n, used)|
    {
      OneLessAhead(base, n, used);
      n := n + 1;
      key := Numbered(base, n);
    }
    assert numbered ==> IsFirstFree(base, index, used, key, n);
    used' := used + {key};
  }

  lemma {:induction false} JoinedTokens(parts: seq<string>)
    requires forall i :: 0 <= i < |parts| ==> TokenChars(parts[i])
    ensures TokenChars(Join(parts, "-"))
  {
    if |parts| > 1 {
      JoinedTokens(parts[1..]);
    }
  }

  lemma CandidateIsToken(base: string, labels: seq<string>)
    requires IsSubjectToken(base)
    ensures IsSubjectToken(Candidate(base, labels))
  {
    JoinedTokens(Suffixes(labels));
  }

  lemma NumberedIsToken(base: string, n: nat)
    requires IsSubjectToken(base)
    ensures IsSubjectToken(Numbered(base, n))
  {
  }

  // ---- all keys of a plan --------------------------------------------------------------------

  /** A job: its base id and the displayed values of each of its cells. */
  datatype Cells = Cells(base: string, labels: seq<seq<string>>)

  ghost predicate Distinct(keys: seq<string>) {
    forall i, k :: 0 <= i < k < |keys| ==> keys[i] != keys[k]
  }

  function CellCount(jobs: seq<Cells>): nat {
    if jobs == [] then 0 else CellCount(jobs[..|jobs| - 1]) + |jobs[|jobs| - 1].labels|
  }

  /** One key per cell, no two alike, and all of them subject tokens if the
      base ids are. */
  method PlanKeys(jobs: seq<Cells>) returns (keys: seq<string>)
    ensures |keys| == CellCount(jobs) && Distinct(keys)
    ensures (forall j :: j in jobs ==> IsSubjectToken(j.base)) ==> forall k :: k in keys ==> IsSubjectToken(k)
  {
    keys := [];
    var used: set<string> := {};
    ghost var safe := forall j :: j in jobs ==> IsSubjectToken(j.base);
    for i := 0 to |jobs|
      invariant |keys| == CellCount(jobs[..i])
      invariant Distinct(keys) && used == set k | k in keys
      invariant safe ==> forall k :: k in keys ==> IsSubjectToken(k)
    {
      var before := |keys|;
      for index := 0 to |jobs[i].labels|
        invariant |keys| == before + index
        invariant Distinct(keys) && used == set k | k in keys
        invariant safe ==> forall k :: k in keys ==> IsSubjectToken(k)
      {
        var key, used' := UniqueKey(jobs[i].base, jobs[i].labels[index], index, used);
        ghost var had := used;
        if safe {
          assert jobs[i] in jobs;
          KeyIsToken(jobs[i].base, jobs[i].labels[index], index, had, key);
        }
        keys, used := keys + [key], used';
      }
      assert jobs[..i + 1][..i] == jobs[..i];
    }
    assert jobs[..|jobs|] == jobs;
  }

  lemma KeyIsToken(base: string, labels: seq<string>, index: nat, used: set<string>, key: string)
    requires IsSubjectToken(base)
    requires key == Candidate(base, labels) || FirstFree(base, index, used, key)
    ensures IsSubjectToken(key)
  {
    if key == Candidate(base, labels) {
      CandidateIsToken(base, labels);
    } else {
      var n: nat :| IsFirstFree(base, index, used, key, n);
      NumberedIsToken(base, n);
    }
  }

  // ---- row ids ---------------------------------------------------------------------------------

  function JobId(run: string, key: string): string {
    run + "." + key
  }

  function StepId(job: string, index: nat): string {
    job + "." + Decimal(index)
  }

  lemma DotInside(a: string, x: string, b: string, y: string)
    requires a + "." + x == b + "." + y && |a| < |b|
    ensures '.' in b && '.' in x
  {
    var s, t := a + "." + x, b + "." + y;
    assert s[|a|] == '.' && t[|a|] == b[|a|];
    assert t[|b|] == '.' && s[|b|] == x[|b| - |a| - 1];
  }

  lemma SameCut(a: string, x: string, b: string, y: string)
    requires a + "." + x == b + "." + y && |a| == |b|
    ensures a == b && x == y
  {
    var s, t := a + "." + x, b + "." + y;
    assert s[..|a|] == a && t[..|b|] == b && s[|a| + 1..] == x && t[|b| + 1..] == y;
  }

  /** A text has one reading around a dot if the dot is its first, or its last. */
  lemma OneReading(a: string, x: string, b: string, y: string)
    requires a + "." + x == b + "." + y
    requires ('.' !in a && '.' !in b) || ('.' !in x && '.' !in y)
    ensures a == b && x == y
  {
    if |a| < |b| {
      DotInside(a, x, b, y);
    } else if |b| < |a| {
      DotInside(b, y, a, x);
    } else {
      SameCut(a, x, b, y);
    }
  }

  /** Where run ids hold no dot, a job's id tells its run and its key. */
  lemma JobIdsDiffer(run: string, key: string, run': string, key': string)
    requires '.' !in run && '.' !in run'
    ensures JobId(run, key) == JobId(run', key') <==> run == run' && key == key'
  {
    if JobId(run, key) == JobId(run', key') {
      OneReading(run, key, run', key');
    }
  }

  lemma DigitsHaveNoDot(n: nat)
    ensures '.' !in Decimal(n)
  {
    var s := Decimal(n);
    forall i | 0 <= i < |s| ensures s[i] != '.' {
      assert IsDigit(s[i]);
    }
  }

  /** A step's id tells its run, its job's key and its number. */
  lemma StepIdsDiffer(run: string, key: string, i: nat, run': string, key': string, i': nat)
    requires '.' !in run && '.' !in run'
    ensures StepId(JobId(run, key), i) == StepId(JobId(run', key'), i') <==> run == run' && key == key' && i == i'
  {
    if StepId(JobId(run, key), i) == StepId(JobId(run', key'), i') {
      DigitsHaveNoDot(i);
      DigitsHaveNoDot(i');
      OneReading(JobId(run, key), Decimal(i), JobId(run', key'), Decimal(i'));
      DecimalRoundTrip(i);
      DecimalRoundTrip(i');
      JobIdsDiffer(run, key, run', key');
    }
  }

  /** With keys that are subject tokens, no job id is a step id. */
  lemma JobAndStepIdsDiffer(run: string, key: string, run': string, key': string, i: nat)
    requires '.' !in run && '.' !in run' && IsSubjectToken(key) && IsSubjectToken(key')
    ensures JobId(run, key) != StepId(JobId(run', key'), i)
  {
    if JobId(run, key) == StepId(JobId(run', key'), i) {
      var tail := key' + "." + Decimal(i);
      assert StepId(JobId(run', key'), i) == run' + "." + tail;
      assert tail[|key'|] == '.' && !TokenChars(tail);
      OneReading(run, key, run', tail);
    }
  }
}
