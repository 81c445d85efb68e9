/** The path globs of `src/paths.rs`: `*` and `?` within one segment, `**` over
    whole segments, and the set of paths a submit changed. */
module Glob {
  import opened Common
  import opened Text

  /** The star to resume at if it took too little, and where its match began. */
  datatype Star = NoStar | At(sp: nat, st: nat)

  // ---- one segment ------------------------------------------------------

  /** What a segment pattern means: `*` stands for any run of characters, `?` for
      any one, and every other character for itself. */
  predicate Wild(p: string, t: string)
    decreases |p|
  {
    if p == "" then t == ""
    else if p[0] == '*' then exists k :: 0 <= k <= |t| && Wild(p[1..], t[k..])
    else t != "" && (p[0] == '?' || p[0] == t[0]) && Wild(p[1..], t[1..])
  }

  predicate Same(c: char, d: char) {
    c != '*' && (c == '?' || c == d)
  }

  /** `p` has no star and matches `t` character by character. */
  ghost predicate Plain(p: string, t: string) {
    |p| == |t| && forall i :: 0 <= i < |p| ==> Same(p[i], t[i])
  }

  /** A starless block in front can only be matched where it stands. */
  lemma {:induction false} PlainPrefix(block: string, p: string, t: string)
    requires forall i :: 0 <= i < |block| ==> block[i] != '*'
    ensures Wild(block + p, t) <==> |block| <= |t| && Plain(block, t[..|block|]) && Wild(p, t[|block|..])
    decreases |block|
  {
    if block == "" {
      assert block + p == p && t[0..] == t;
    } else {
      assert (block + p)[1..] == block[1..] + p;
      if t != "" {
        PlainPrefix(block[1..], p, t[1..]);
        if |block| <= |t| {
          assert t[1..][..|block| - 1] == t[..|block|][1..];
          assert t[1..][|block| - 1..] == t[|block|..];
          assert Plain(block, t[..|block|]) <==>
                 (block[0] == '?' || block[0] == t[0]) && Plain(block[1..], t[..|block|][1..]) by {
            forall i | 0 <= i < |block[1..]|
              ensures block[1..][i] == block[i + 1] && t[..|block|][1..][i] == t[..|block|][i + 1]
            {
            }
            if (block[0] == '?' || block[0] == t[0]) && Plain(block[1..], t[..|block|][1..]) {
              forall i | 0 <= i < |block| ensures block[i] == '?' || block[i] == t[..|block|][i] {
                if i > 0 { assert block[i] == block[1..][i - 1]; }
              }
            }
          }
        }
      }
    }
  }

  /** The block matched since the star is starless. */
  lemma PlainBlock(p: string, t: string, sp: nat, st: nat, pi: nat, ti: nat)
    requires Resumable(p, t, At(sp, st), pi, ti)
    ensures Plain(p[sp + 1..pi], t[st..ti])
  {
    forall i | 0 <= i < ti - st ensures Same(p[sp + 1..pi][i], t[st..ti][i]) {
      assert Same(p[(st + i) - st + sp + 1], t[st + i]);
    }
  }

  /** A leading star absorbs whatever stands before a later match. */
  lemma StarAbsorbs(p: string, t: string, k: nat)
    requires p != "" && p[0] == '*' && k <= |t| && Wild(p, t[k..])
    ensures Wild(p, t)
  {
    var j :| 0 <= j <= |t[k..]| && Wild(p[1..], t[k..][j..]);
    assert t[k..][j..] == t[k + j..];
  }

  /** Some way for the text from `st` on to match what follows the star at `sp`. */
  ghost predicate FromStar(p: string, t: string, sp: nat, st: nat)
    requires sp < |p| && st <= |t|
  {
    exists k :: st <= k <= |t| && Wild(p[sp + 1..], t[k..])
  }

  ghost predicate Resumable(p: string, t: string, star: Star, pi: nat, ti: nat) {
    star.At? ==>
      var sp, st := star.sp, star.st;
      && sp < pi <= |p| && st <= ti <= |t| && p[sp] == '*'
      && pi - sp - 1 == ti - st
      && forall i :: st <= i < ti ==> Same(p[i - st + sp + 1], t[i])
  }

  /** Reaching a second star makes the first one final: a match that resumes the
      first anywhere later also resumes the second here. */
  lemma SecondStarWins(p: string, t: string, sp: nat, st: nat, pi: nat, ti: nat)
    requires Resumable(p, t, At(sp, st), pi, ti) && pi < |p| && p[pi] == '*'
    ensures FromStar(p, t, sp, st) <==> Wild(p[pi..], t[ti..])
  {
    if FromStar(p, t, sp, st) {
      var k :| st <= k <= |t| && Wild(p[sp + 1..], t[k..]);
      LaterResume(p, t, sp, st, pi, ti, k);
    }
    ResumeHere(p, t, sp, st, pi, ti);
  }

  lemma LaterResume(p: string, t: string, sp: nat, st: nat, pi: nat, ti: nat, k: nat)
    requires Resumable(p, t, At(sp, st), pi, ti) && pi < |p| && p[pi] == '*'
    requires st <= k <= |t| && Wild(p[sp + 1..], t[k..])
    ensures Wild(p[pi..], t[ti..])
  {
    PlainBlock(p, t, sp, st, pi, ti);
    var block := p[sp + 1..pi];
    assert p[sp + 1..] == block + p[pi..];
    PlainPrefix(block, p[pi..], t[k..]);
    assert t[ti..][k - st..] == t[k..][|block|..];
    StarAbsorbs(p[pi..], t[ti..], k - st);
  }

  /** Where the match now stands, resuming here is the same as matching on. */
  lemma ResumeHere(p: string, t: string, sp: nat, st: nat, pi: nat, ti: nat)
    requires Resumable(p, t, At(sp, st), pi, ti)
    ensures Wild(p[sp + 1..], t[st..]) <==> Wild(p[pi..], t[ti..])
  {
    PlainBlock(p, t, sp, st, pi, ti);
    var block := p[sp + 1..pi];
    assert p[sp + 1..] == block + p[pi..];
    PlainPrefix(block, p[pi..], t[st..]);
    assert t[st..][..|block|] == t[st..ti] && t[st..][|block|..] == t[ti..];
  }

  /** What is left to decide. */
  ghost predicate Remaining(p: string, t: string, star: Star, pi: nat, ti: nat)
    requires pi <= |p| && ti <= |t| && Resumable(p, t, star, pi, ti)
  {
    if star.At? then FromStar(p, t, star.sp, star.st) else Wild(p[pi..], t[ti..])
  }

  /** The loop's invariant, where `want` is the answer it is after. */
  ghost predicate Sound(want: bool, p: string, t: string, star: Star, pi: nat, ti: nat) {
    && pi <= |p| && ti <= |t| && Resumable(p, t, star, pi, ti)
    && want == Remaining(p, t, star, pi, ti)
  }

  predicate Within(p: string, t: string, star: Star, pi: nat, ti: nat) {
    pi <= |p| && ti <= |t| && (star.At? ==> star.sp < pi && star.st <= ti)
  }

  /** The main loop as a recursion: where the pattern stands once the text is used
      up, or nothing, and the number of passes that took. */
  function Scan(p: string, t: string, star: Star, pi: nat, ti: nat): (r: (Option<nat>, nat))
    requires Within(p, t, star, pi, ti)
    decreases |t| - Resume(star), |p| - pi
  {
    if ti == |t| then (Some(pi), 0)
    else if pi < |p| && p[pi] == '*' then Pass(Scan(p, t, At(pi, ti), pi + 1, ti))
    else if pi < |p| && (p[pi] == '?' || p[pi] == t[ti]) then Pass(Scan(p, t, star, pi + 1, ti + 1))
    else if star.At? then Pass(Scan(p, t, At(star.sp, star.st + 1), star.sp + 1, star.st + 1))
    else (None, 1)
  }

  function Pass(r: (Option<nat>, nat)): (Option<nat>, nat) { (r.0, r.1 + 1) }

  lemma {:induction false} ScanDecides(want: bool, p: string, t: string, star: Star, pi: nat, ti: nat)
    requires Sound(want, p, t, star, pi, ti)
    ensures Within(p, t, star, pi, ti)
    ensures var at := Scan(p, t, star, pi, ti).0;
            if at.None? then !want else at.value <= |p| && (want <==> Wild(p[at.value..], ""))
    decreases |t| - Resume(star), |p| - pi
  {
    if ti == |t| {
      AtEnd(p, t, star, pi);
    } else if pi < |p| && p[pi] == '*' {
      TakeStar(want, p, t, star, pi, ti);
      ScanDecides(want, p, t, At(pi, ti), pi + 1, ti);
    } else if pi < |p| && (p[pi] == '?' || p[pi] == t[ti]) {
      TakePlain(want, p, t, star, pi, ti);
      ScanDecides(want, p, t, star, pi + 1, ti + 1);
    } else if star.At? {
      Backtrack(want, p, t, star.sp, star.st, pi, ti);
      ScanDecides(want, p, t, At(star.sp, star.st + 1), star.sp + 1, star.st + 1);
    } else {
      Stuck(want, p, t, pi, ti);
    }
  }

  /** Each pass moves the pair (resume point, pattern index) up lexicographically. */
  lemma {:induction false} ScanIsQuick(p: string, t: string, star: Star, pi: nat, ti: nat)
    requires Within(p, t, star, pi, ti)
    ensures Times(Resume(star), |p| + 1) + pi + Scan(p, t, star, pi, ti).1 <= Times(|t|, |p| + 1) + |p| + 1
    decreases |t| - Resume(star), |p| - pi
  {
    var w := |p| + 1;
    Grow(w, Resume(star), |t|);
    if ti < |t| {
      if pi < |p| && p[pi] == '*' {
        Grow(w, Resume(star), ti);
        ScanIsQuick(p, t, At(pi, ti), pi + 1, ti);
      } else if pi < |p| && (p[pi] == '?' || p[pi] == t[ti]) {
        ScanIsQuick(p, t, star, pi + 1, ti + 1);
      } else if star.At? {
        ScanIsQuick(p, t, At(star.sp, star.st + 1), star.sp + 1, star.st + 1);
      }
    }
  }

  /** `match_segment`: one pass over the text, resuming at the last star only.
      `steps` counts the passes of the main loop. */
  method MatchSegment(p: string, t: string) returns (ok: bool, ghost steps: nat)
    ensures ok <==> Wild(p, t)
    ensures steps <= (|t| + 1) * (|p| + 1)
  {
    var pi: nat, ti: nat := 0, 0;
    var star := NoStar;
    steps := 0;
    ghost var whole := Scan(p, t, star, pi, ti);
    assert p[0..] == p && t[0..] == t;
    ScanDecides(Wild(p, t), p, t, NoStar, 0, 0);
    ScanIsQuick(p, t, NoStar, 0, 0);
    Bound(|t|, |p|);
    while ti < |t|
      invariant Within(p, t, star, pi, ti)
      invariant Scan(p, t, star, pi, ti) == (whole.0, whole.1 - steps)
      decreases |t| - Resume(star), |p| - pi
    {
      if pi < |p| && p[pi] == '*' {
        star := At(pi, ti);
        pi := pi + 1;
      } else if pi < |p| && (p[pi] == '?' || p[pi] == t[ti]) {
        pi, ti := pi + 1, ti + 1;
      } else if star.At? {
        pi, ti := star.sp + 1, star.st + 1;
        star := At(star.sp, ti);
      } else {
        return false, steps + 1;
      }
      steps := steps + 1;
    }
    ok := OnlyStars(p, pi);
  }

  /** The trailing loop: stars left over match nothing. */
  method OnlyStars(p: string, start: nat) returns (ok: bool)
    requires start <= |p|
    ensures ok <==> Wild(p[start..], "")
  {
    var pi := start;
    while pi < |p| && p[pi] == '*'
      invariant start <= pi <= |p|
      invariant Wild(p[start..], "") <==> Wild(p[pi..], "")
    {
      assert p[pi..][1..] == p[pi + 1..] && ""[0..] == "";
      pi := pi + 1;
    }
    ok := pi == |p|;
  }

  lemma TakePlain(want: bool, p: string, t: string, star: Star, pi: nat, ti: nat)
    requires Sound(want, p, t, star, pi, ti) && pi < |p| && ti < |t|
    requires p[pi] != '*' && (p[pi] == '?' || p[pi] == t[ti])
    ensures Sound(want, p, t, star, pi + 1, ti + 1)
  {
    PlainStep(p, t, star, pi, ti);
  }

  lemma Backtrack(want: bool, p: string, t: string, sp: nat, st: nat, pi: nat, ti: nat)
    requires Sound(want, p, t, At(sp, st), pi, ti) && ti < |t|
    requires pi == |p| || (p[pi] != '*' && p[pi] != '?' && p[pi] != t[ti])
    ensures Sound(want, p, t, At(sp, st + 1), sp + 1, st + 1)
  {
    Mismatch(p, t, sp, st, pi, ti);
  }

  lemma Stuck(want: bool, p: string, t: string, pi: nat, ti: nat)
    requires Sound(want, p, t, NoStar, pi, ti) && ti < |t|
    requires pi == |p| || (p[pi] != '*' && p[pi] != '?' && p[pi] != t[ti])
    ensures !want
  {
    NoMatch(p[pi..], t[ti..]);
  }

  lemma TakeStar(want: bool, p: string, t: string, star: Star, pi: nat, ti: nat)
    requires Sound(want, p, t, star, pi, ti) && pi < |p| && p[pi] == '*'
    ensures Sound(want, p, t, At(pi, ti), pi + 1, ti)
  {
    if star.At? {
      SecondStarWins(p, t, star.sp, star.st, pi, ti);
    }
    StarStep(p, t, pi, ti);
  }

  function Resume(star: Star): nat {
    if star.At? then star.st else 0
  }

  /** `rounds` times `width`, as repeated addition. */
  ghost function Times(rounds: nat, width: nat): nat {
    if rounds == 0 then 0 else Times(rounds - 1, width) + width
  }

  lemma {:induction false} Grow(w: nat, a: nat, b: nat)
    requires a <= b
    ensures Times(a, w) <= Times(b, w)
    decreases b
  {
    if a < b {
      Grow(w, a, b - 1);
    }
  }

  lemma {:induction false} TimesIsProduct(a: nat, w: nat)
    ensures Times(a, w) == a * w
  {
    if a > 0 {
      TimesIsProduct(a - 1, w);
      assert (a - 1) * w + w == a * w;
    }
  }

  lemma Bound(n: nat, m: nat)
    ensures Times(n, m + 1) + m + 1 == (n + 1) * (m + 1)
  {
    assert Times(n + 1, m + 1) == Times(n, m + 1) + m + 1;
    TimesIsProduct(n + 1, m + 1);
  }

  lemma StarStep(p: string, t: string, pi: nat, ti: nat)
    requires pi < |p| && p[pi] == '*' && ti <= |t|
    ensures Wild(p[pi..], t[ti..]) <==> FromStar(p, t, pi, ti)
    ensures Resumable(p, t, At(pi, ti), pi + 1, ti)
  {
    assert p[pi..][1..] == p[pi + 1..];
    if Wild(p[pi..], t[ti..]) {
      var k :| 0 <= k <= |t[ti..]| && Wild(p[pi + 1..], t[ti..][k..]);
      assert t[ti..][k..] == t[ti + k..];
    }
    if FromStar(p, t, pi, ti) {
      var k :| ti <= k <= |t| && Wild(p[pi + 1..], t[k..]);
      assert t[ti..][k - ti..] == t[k..];
    }
  }

  lemma PlainStep(p: string, t: string, star: Star, pi: nat, ti: nat)
    requires pi < |p| && ti < |t| && Resumable(p, t, star, pi, ti)
    requires p[pi] != '*' && (p[pi] == '?' || p[pi] == t[ti])
    ensures Resumable(p, t, star, pi + 1, ti + 1)
    ensures Remaining(p, t, star, pi, ti) <==> Remaining(p, t, star, pi + 1, ti + 1)
  {
    if star.At? {
      var sp, st := star.sp, star.st;
      assert p[sp + 1..pi + 1] == p[sp + 1..pi] + [p[pi]];
      assert t[st..ti + 1] == t[st..ti] + [t[ti]];
    } else {
      assert p[pi..][1..] == p[pi + 1..] && t[ti..][1..] == t[ti + 1..];
    }
  }

  lemma NoMatch(p: string, t: string)
    requires t != "" && (p == "" || (p[0] != '*' && p[0] != '?' && p[0] != t[0]))
    ensures !Wild(p, t)
  {
  }

  lemma Mismatch(p: string, t: string, sp: nat, st: nat, pi: nat, ti: nat)
    requires Resumable(p, t, At(sp, st), pi, ti) && ti < |t|
    requires pi == |p| || (p[pi] != '*' && p[pi] != '?' && p[pi] != t[ti])
    ensures FromStar(p, t, sp, st) <==> FromStar(p, t, sp, st + 1)
    ensures Resumable(p, t, At(sp, st + 1), sp + 1, st + 1)
  {
    ResumeHere(p, t, sp, st, pi, ti);
    NoMatch(p[pi..], t[ti..]);
    if FromStar(p, t, sp, st) {
      var k :| st <= k <= |t| && Wild(p[sp + 1..], t[k..]);
      assert k != st;
    }
  }

  lemma AtEnd(p: string, t: string, star: Star, pi: nat)
    requires pi <= |p| && Resumable(p, t, star, pi, |t|)
    ensures Remaining(p, t, star, pi, |t|) <==> Wild(p[pi..], "")
  {
    assert t[|t|..] == "";
    if star.At? {
      var sp, st := star.sp, star.st;
      ResumeHere(p, t, sp, st, pi, |t|);
      if FromStar(p, t, sp, st) {
        var k :| st <= k <= |t| && Wild(p[sp + 1..], t[k..]);
        PlainBlock(p, t, sp, st, pi, |t|);
        var block := p[sp + 1..pi];
        assert p[sp + 1..] == block + p[pi..];
        PlainPrefix(block, p[pi..], t[k..]);
        assert k == st;
      }
    }
  }

  // ---- whole paths --------------------------------------------------------

  const ANY_DEPTH := "**"

  /** `match_segments`: recursion over the pattern, trying every split at `**`. */
  predicate MatchSegments(pat: seq<string>, path: seq<string>)
    decreases |pat|
  {
    if pat == [] then path == []
    else if pat[0] == ANY_DEPTH then
      pat[1..] == [] || exists i :: 0 <= i <= |path| && MatchSegments(pat[1..], path[i..])
    else path != [] && Wild(pat[0], path[0]) && MatchSegments(pat[1..], path[1..])
  }

  function Doubles(pat: seq<string>): nat {
    if pat == [] then 0 else (if pat[0] == ANY_DEPTH then 1 else 0) + Doubles(pat[1..])
  }

  function Stars(n: nat): (r: seq<string>)
    ensures |r| == n
  {
    seq(n, i => "*")
  }

  /** The pattern with its i-th `**` written out as `counts[i]` segments `*`. */
  function Expand(pat: seq<string>, counts: seq<nat>): seq<string>
    requires |counts| == Doubles(pat)
    decreases |pat|
  {
    if pat == [] then []
    else if pat[0] == ANY_DEPTH then Stars(counts[0]) + Expand(pat[1..], counts[1..])
    else [pat[0]] + Expand(pat[1..], counts)
  }

  predicate Pairwise(ps: seq<string>, ts: seq<string>) {
    |ps| == |ts| && forall i :: 0 <= i < |ps| ==> Wild(ps[i], ts[i])
  }

  lemma StarMatchesAll(t: string)
    ensures Wild("*", t)
  {
    assert "*"[1..] == "" && t[|t|..] == "";
    assert Wild("*"[1..], t[|t|..]);
  }

  lemma StarsPairwise(n: nat, ts: seq<string>)
    ensures Pairwise(Stars(n), ts) <==> |ts| == n
  {
    forall i | 0 <= i < |ts| && |ts| == n ensures Wild(Stars(n)[i], ts[i]) {
      StarMatchesAll(ts[i]);
    }
  }

  lemma PairwiseSplits(a: seq<string>, b: seq<string>, ts: seq<string>)
    ensures Pairwise(a + b, ts) <==> |a| <= |ts| && Pairwise(a, ts[..|a|]) && Pairwise(b, ts[|a|..])
  {
    if Pairwise(a + b, ts) {
      forall i | 0 <= i < |a| ensures Wild(a[i], ts[..|a|][i]) {
        assert (a + b)[i] == a[i];
      }
      forall i | 0 <= i < |b| ensures Wild(b[i], ts[|a|..][i]) {
        assert (a + b)[|a| + i] == b[i];
      }
    }
  }

  /** Any choice of counts that lines up is found by the recursion. */
  lemma {:induction false} ExpansionMatches(pat: seq<string>, counts: seq<nat>, path: seq<string>)
    requires |counts| == Doubles(pat) && Pairwise(Expand(pat, counts), path)
    ensures MatchSegments(pat, path)
    decreases |pat|
  {
    if pat != [] {
      if pat[0] == ANY_DEPTH {
        PairwiseSplits(Stars(counts[0]), Expand(pat[1..], counts[1..]), path);
        ExpansionMatches(pat[1..], counts[1..], path[counts[0]..]);
      } else {
        PairwiseSplits([pat[0]], Expand(pat[1..], counts), path);
        assert path[..1][0] == path[0] && [pat[0]][0] == pat[0];
        ExpansionMatches(pat[1..], counts, path[1..]);
      }
    }
  }

  /** And the recursion succeeds only where some choice of counts lines up. */
  lemma {:induction false} MatchHasExpansion(pat: seq<string>, path: seq<string>) returns (counts: seq<nat>)
    requires MatchSegments(pat, path)
    ensures |counts| == Doubles(pat) && Pairwise(Expand(pat, counts), path)
    decreases |pat|
  {
    if pat == [] {
      counts := [];
    } else if pat[0] == ANY_DEPTH {
      var i := |path|;
      if pat[1..] == [] {
        assert path[i..] == [];
      } else {
        i :| 0 <= i <= |path| && MatchSegments(pat[1..], path[i..]);
      }
      var rest := MatchHasExpansion(pat[1..], path[i..]);
      counts := [i] + rest;
      assert counts[1..] == rest;
      StarsPairwise(i, path[..i]);
      PairwiseSplits(Stars(i), Expand(pat[1..], rest), path);
    } else {
      counts := MatchHasExpansion(pat[1..], path[1..]);
      PairwiseSplits([pat[0]], Expand(pat[1..], counts), path);
    }
  }

  /** `matches`: surrounding blanks of the pattern and leading `./` do not count. */
  predicate Matches(pattern: string, path: string) {
    MatchSegments(Split(SkipPrefix(Trim(pattern), "./"), '/'), Split(SkipPrefix(path, "./"), '/'))
  }

  /** A path is covered exactly when some way of writing each `**` out as a number
      of `*` segments gives as many segments as the path, matching one by one. */
  lemma MatchesExactly(pattern: string, path: string)
    ensures var pat := Split(SkipPrefix(Trim(pattern), "./"), '/');
            var segments := Split(SkipPrefix(path, "./"), '/');
            Matches(pattern, path) <==>
            exists counts: seq<nat> :: |counts| == Doubles(pat) && Pairwise(Expand(pat, counts), segments)
  {
    var pat := Split(SkipPrefix(Trim(pattern), "./"), '/');
    var segments := Split(SkipPrefix(path, "./"), '/');
    if Matches(pattern, path) {
      var counts := MatchHasExpansion(pat, segments);
    }
    forall counts: seq<nat> | |counts| == Doubles(pat) && Pairwise(Expand(pat, counts), segments)
      ensures Matches(pattern, path)
    {
      ExpansionMatches(pat, counts, segments);
    }
  }

  // ---- what a submit changed ----------------------------------------------

  datatype Changes = Known(paths: seq<string>) | Unknown(reason: string)

  predicate MatchesAny(c: Changes, patterns: seq<string>) {
    c.Unknown? ||
    exists i, k :: 0 <= i < |patterns| && 0 <= k < |c.paths| && Matches(patterns[i], c.paths[k])
  }
}
