/** Substituting `${{ … }}` in a text, and evaluating conditions, as `src/expr.rs`
    does it. */
module Substitution {
  import opened Common
  import opened Text
  import opened Values
  import opened Tokenizer
  import opened Evaluator
  import Parsing

  const OPEN := "${{"
  const CLOSE := "}}"

  // ---- quotes ------------------------------------------------------------------------

  /** The open quote after one more character.  A doubled quote closes and
      opens again, which comes to the same. */
  function Step(quote: Option<char>, c: char): Option<char> {
    match quote
    case Some(q) => if c == q then None else quote
    case None => if c == '\'' || c == '"' then Some(c) else None
  }

  function QuoteAfter(quote: Option<char>, s: string): Option<char>
    decreases |s|
  {
    if s == "" then quote else QuoteAfter(Step(quote, s[0]), s[1..])
  }

  lemma {:induction false} QuoteAfterBoth(quote: Option<char>, a: string, b: string)
    ensures QuoteAfter(quote, a + b) == QuoteAfter(QuoteAfter(quote, a), b)
    decreases |a|
  {
    if a == "" {
      assert a + b == b;
    } else {
      assert (a + b)[1..] == a[1..] + b;
      QuoteAfterBoth(Step(quote, a[0]), a[1..], b);
    }
  }

  lemma QuoteAfterNext(s: string, i: nat)
    requires i < |s|
    ensures QuoteAfter(None, s[..i + 1]) == Step(QuoteAfter(None, s[..i]), s[i])
  {
    assert s[..i + 1] == s[..i] + [s[i]];
    QuoteAfterBoth(None, s[..i], [s[i]]);
    assert QuoteAfter(QuoteAfter(None, s[..i]), [s[i]]) == QuoteAfter(Step(QuoteAfter(None, s[..i]), s[i]), "");
  }

  /** An unquoted `}}` stands in `s` at `i`. */
  predicate ClosesAt(s: string, i: nat) {
    Occurs(s, CLOSE, i) && QuoteAfter(None, s[..i]) == None
  }

  /** The least such place. */
  function Close(s: string): (r: Option<nat>)
    ensures r.Some? ==> ClosesAt(s, r.value) && forall j :: 0 <= j < r.value ==> !ClosesAt(s, j)
    ensures r.None? ==> forall j: nat :: !ClosesAt(s, j)
  {
    CloseFrom(s, 0)
  }

  function CloseFrom(s: string, i: nat): (r: Option<nat>)
    ensures r.Some? ==> i <= r.value && ClosesAt(s, r.value) && forall j :: i <= j < r.value ==> !ClosesAt(s, j)
    ensures r.None? ==> forall j :: i <= j ==> !ClosesAt(s, j)
    decreases |s| - i
  {
    if i + 2 > |s| then None else if ClosesAt(s, i) then Some(i) else CloseFrom(s, i + 1)
  }

  lemma TwoAt(s: string, i: nat)
    ensures Occurs(s, CLOSE, i) <==> i + 1 < |s| && s[i] == '}' && s[i + 1] == '}'
  {
    if i + 1 < |s| {
      assert s[i..i + 2] == [s[i], s[i + 1]];
    }
  }

  lemma CloseIs(s: string, i: nat)
    requires ClosesAt(s, i) && forall j :: 0 <= j < i ==> !ClosesAt(s, j)
    ensures Close(s) == Some(i)
  {
  }

  method FindClose(body: string) returns (r: Option<nat>)
    ensures r.None? ==> forall j: nat :: !ClosesAt(body, j)
    ensures r.Some? ==> ClosesAt(body, r.value) && forall j :: 0 <= j < r.value ==> !ClosesAt(body, j)
    ensures r == Close(body)
  {
    var i: nat := 0;
    var quote: Option<char> := None;
    while i < |body|
      invariant i <= |body|
      invariant quote == QuoteAfter(None, body[..i])
      invariant forall j :: 0 <= j < i ==> !ClosesAt(body, j)
    {
      TwoAt(body, i);
      QuoteAfterNext(body, i);
      if quote.Some? {
        if body[i] == quote.value {
          if quote.value == '\'' && i + 1 < |body| && body[i + 1] == '\'' {
            QuoteAfterNext(body, i + 1);
            TwoAt(body, i + 1);
            i := i + 2;
            continue;
          }
          quote := None;
        }
      } else {
        if body[i] == '\'' || body[i] == '"' {
          quote := Some(body[i]);
        } else if body[i] == '}' && i + 1 < |body| && body[i + 1] == '}' {
          CloseIs(body, i);
          return Some(i);
        }
      }
      i := i + 1;
    }
    r := None;
  }

  // ---- no string runs over the end of an expression ---------------------------------------

  lemma {:induction false} NoQuotes(s: string)
    requires forall i :: 0 <= i < |s| ==> s[i] != '\'' && s[i] != '"'
    ensures QuoteAfter(None, s) == None
  {
    if s != "" {
      NoQuotes(s[1..]);
    }
  }

  lemma {:induction false} LiteralCloses(q: char, s: string)
    requires (q == '\'' || q == '"') && QuoteAfter(Some(q), s) == None
    ensures LiteralFrom(q, s).Closed? && QuoteAfter(None, s[LiteralFrom(q, s).length..]) == None
  {
    if s[0] != q {
      LiteralCloses(q, s[1..]);
      assert s[LiteralFrom(q, s).length..] == s[1..][LiteralFrom(q, s[1..]).length..];
    } else if q == '\'' && |s| > 1 && s[1] == '\'' {
      assert s[1..][1..] == s[2..];
      assert QuoteAfter(None, s[1..]) == QuoteAfter(Some(q), s[2..]);
      LiteralCloses(q, s[2..]);
      assert s[LiteralFrom(q, s).length..] == s[2..][LiteralFrom(q, s[2..]).length..];
    }
  }

  lemma {:induction false} NumberHasNoQuotes(s: string)
    ensures forall i :: 0 <= i < NumberLength(s) ==> s[i] != '\'' && s[i] != '"'
  {
    if ContinuesNumber(s) {
      NumberHasNoQuotes(s[1..]);
      forall i | 0 <= i < NumberLength(s) ensures s[i] != '\'' && s[i] != '"' {
        if i > 0 { assert s[i] == s[1..][i - 1]; }
      }
    }
  }

  lemma OtherTokenHasNoQuotes(s: string)
    requires s != "" && LexOne(s).Lexed? && !LexOne(s).token.Quoted?
    ensures forall i :: 0 <= i < LexOne(s).length ==> s[i] != '\'' && s[i] != '"'
  {
    var r := LexOne(s);
    if r.token.Numeral? {
      NumberHasNoQuotes(s);
    } else if r.token.Ident? {
      WordOnly(s);
      forall i | 0 <= i < r.length ensures s[i] != '\'' && s[i] != '"' {
        assert s[i] == s[..r.length][i];
      }
    }
  }

  lemma QuotedToken(s: string)
    requires s != "" && QuoteAfter(None, s) == None && (s[0] == '\'' || s[0] == '"')
    ensures LexOne(s).Lexed? && QuoteAfter(None, s[LexOne(s).length..]) == None
  {
    assert QuoteAfter(None, s) == QuoteAfter(Some(s[0]), s[1..]);
    LiteralCloses(s[0], s[1..]);
    LexesQuote(s);
    var n := LiteralFrom(s[0], s[1..]).length;
    assert s[1..][n..] == s[n + 1..];
  }

  lemma OtherToken(s: string)
    requires s != "" && QuoteAfter(None, s) == None && s[0] != '\'' && s[0] != '"' && LexOne(s).Lexed?
    ensures QuoteAfter(None, s[LexOne(s).length..]) == None
  {
    OtherTokenHasNoQuotes(s);
    PastNoQuotes(s, LexOne(s).length);
  }

  lemma PastNoQuotes(s: string, n: nat)
    requires n <= |s| && forall i :: 0 <= i < n ==> s[i] != '\'' && s[i] != '"'
    ensures QuoteAfter(None, s[n..]) == QuoteAfter(None, s)
  {
    NoQuotes(s[..n]);
    assert s == s[..n] + s[n..];
    QuoteAfterBoth(None, s[..n], s[n..]);
  }

  /** A text whose quotes pair up never has an unterminated string. */
  lemma {:induction false} QuotesPairUp(s: string)
    requires QuoteAfter(None, s) == None
    ensures Tokens(s) != Err(UnterminatedString)
    decreases |s|
  {
    if s == "" {
    } else if IsSpace(s[0]) {
      QuotesPairUp(s[1..]);
    } else if s[0] == '\'' || s[0] == '"' {
      QuotedToken(s);
      QuotesPairUp(s[LexOne(s).length..]);
    } else if LexOne(s).Lexed? {
      OtherToken(s);
      QuotesPairUp(s[LexOne(s).length..]);
    }
  }

  // ---- splitting a text ------------------------------------------------------------------------

  /** A text read as stretches between closed expressions. */
  datatype Template = Tail(text: string) | Hole(gap: string, expr: string, rest: Template)

  function Source(t: Template): string {
    match t
    case Tail(text) => text
    case Hole(gap, expr, rest) => gap + OPEN + expr + CLOSE + Source(rest)
  }

  function SplitUp(s: string): Template
    decreases |s|
  {
    var start := Find(s, OPEN);
    if start.None? then Tail(s)
    else
      var body := s[start.value + 3..];
      var end := Close(body);
      if end.None? then Tail(s)
      else Hole(s[..start.value], body[..end.value], SplitUp(body[end.value + 2..]))
  }

  /** Every gap runs up to the first `${{`, every expression to the first
      unquoted `}}` behind it, and the tail holds no closed expression. */
  predicate Proper(t: Template) {
    match t
    case Tail(text) => Find(text, OPEN).None? || Close(text[Find(text, OPEN).value + 3..]).None?
    case Hole(gap, expr, rest) =>
      Find(gap + OPEN, OPEN) == Some(|gap|) && Close(expr + CLOSE) == Some(|expr|) && Proper(rest)
  }

  lemma OpensAt(gap: string, rest: string)
    ensures Find(gap + OPEN, OPEN) == Some(|gap|) <==> Find(gap + OPEN + rest, OPEN) == Some(|gap|)
  {
    forall j | 0 <= j <= |gap| ensures Occurs(gap + OPEN + rest, OPEN, j) <==> Occurs(gap + OPEN, OPEN, j) {
      OccursLeft(gap + OPEN, rest, OPEN, j);
    }
    OccursRight(gap, OPEN, OPEN, |gap|);
  }

  lemma ClosesAtLeft(a: string, b: string, j: nat)
    requires j + 2 <= |a|
    ensures ClosesAt(a + b, j) <==> ClosesAt(a, j)
  {
    OccursLeft(a, b, CLOSE, j);
    assert (a + b)[..j] == a[..j];
  }

  lemma ClosesAfter(expr: string, rest: string)
    ensures Close(expr + CLOSE) == Some(|expr|) <==> Close(expr + CLOSE + rest) == Some(|expr|)
  {
    forall j | 0 <= j <= |expr| ensures ClosesAt(expr + CLOSE + rest, j) <==> ClosesAt(expr + CLOSE, j) {
      ClosesAtLeft(expr + CLOSE, rest, j);
    }
  }

  lemma SplitAt(s: string, gap: string, body: string, expr: string, rest: string)
    requires s == gap + OPEN + body && body == expr + CLOSE + rest
    requires Find(s, OPEN) == Some(|gap|) && Close(body) == Some(|expr|)
    ensures SplitUp(s) == Hole(gap, expr, SplitUp(rest))
  {
    assert s[..|gap|] == gap && s[|gap| + 3..] == body;
    assert body[..|expr|] == expr && body[|expr| + 2..] == rest;
  }

  lemma Assemble(gap: string, expr: string, rest: string)
    ensures gap + OPEN + (expr + CLOSE + rest) == gap + OPEN + expr + CLOSE + rest
  {
  }

  /** Splitting loses nothing, and is proper. */
  lemma {:induction false} SplitIsProper(s: string)
    ensures Source(SplitUp(s)) == s && Proper(SplitUp(s))
    decreases |s|
  {
    var start := Find(s, OPEN);
    if start.Some? {
      var gap, body := s[..start.value], s[start.value + 3..];
      assert s == gap + OPEN + body;
      var end := Close(body);
      if end.Some? {
        var expr, rest := body[..end.value], body[end.value + 2..];
        assert body == expr + CLOSE + rest;
        SplitIsProper(rest);
        SplitAt(s, gap, body, expr, rest);
        OpensAt(gap, body);
        ClosesAfter(expr, rest);
        Assemble(gap, expr, rest);
      }
    }
  }

  /** A proper reading of a text is the one splitting finds. */
  lemma {:induction false} SplitIsTheOnlyOne(t: Template)
    requires Proper(t)
    ensures SplitUp(Source(t)) == t
  {
    if t.Hole? {
      SplitIsTheOnlyOne(t.rest);
      var body := t.expr + CLOSE + Source(t.rest);
      Assemble(t.gap, t.expr, Source(t.rest));
      OpensAt(t.gap, body);
      ClosesAfter(t.expr, Source(t.rest));
      SplitAt(Source(t), t.gap, body, t.expr, Source(t.rest));
    }
  }

  // ---- substituting -----------------------------------------------------------------------------------

  /** An expression gives way to its value; one without a value stays. */
  function Shown(ctx: Context, expr: string): string {
    match Eval(ctx, expr)
    case Ok(v) => Display(ctx.lib, v)
    case Err(_) => OPEN + expr + CLOSE
  }

  function Filled(ctx: Context, t: Template): string {
    match t
    case Tail(text) => text
    case Hole(gap, expr, rest) =>
      gap + Shown(ctx, expr) + Filled(ctx, rest)
  }

  predicate AllFail(ctx: Context, t: Template) {
    t.Hole? ==> Eval(ctx, t.expr).Err? && AllFail(ctx, t.rest)
  }

  method Substitute(ctx: Context, input: string) returns (out: string)
    ensures out == Filled(ctx, SplitUp(input))
  {
    out := "";
    var rest := input;
    ghost var all := Filled(ctx, SplitUp(input));
    assert "" + all == all;
    var start := Find(rest, OPEN);
    while start.Some?
      invariant start == Find(rest, OPEN)
      invariant all == out + Filled(ctx, SplitUp(rest))
      decreases |rest|
    {
      var i := start.value;
      var body := rest[i + 3..];
      var end := FindClose(body);
      if end.None? {
        FilledToTheEnd(ctx, out, rest, i);
        return out + rest[..i] + rest[i..];
      }
      FilledOnward(ctx, out, rest, i, end.value);
      var shown := ShowHole(ctx, body[..end.value]);
      out := out + rest[..i] + shown;
      rest := body[end.value + 2..];
      start := Find(rest, OPEN);
    }
    out := out + rest;
  }

  /** What stands for one expression. */
  method ShowHole(ctx: Context, expr: string) returns (shown: string)
    ensures shown == Shown(ctx, expr)
  {
    var value := Parsing.Evaluate(ctx, expr);
    match value {
      case Ok(v) => shown := Display(ctx.lib, v);
      case Err(_) => shown := OPEN + expr + CLOSE;
    }
  }

  lemma FilledToTheEnd(ctx: Context, out: string, rest: string, i: nat)
    requires Find(rest, OPEN) == Some(i) && Close(rest[i + 3..]).None?
    ensures out + Filled(ctx, SplitUp(rest)) == out + rest[..i] + rest[i..]
  {
    assert SplitUp(rest) == Tail(rest);
    assert out + rest[..i] + rest[i..] == out + (rest[..i] + rest[i..]);
    assert rest[..i] + rest[i..] == rest;
  }

  lemma FilledOnward(ctx: Context, out: string, rest: string, i: nat, end: nat)
    requires Find(rest, OPEN) == Some(i) && Close(rest[i + 3..]) == Some(end)
    ensures var body := rest[i + 3..];
            out + Filled(ctx, SplitUp(rest))
            == out + rest[..i] + Shown(ctx, body[..end]) + Filled(ctx, SplitUp(body[end + 2..]))
  {
    var body := rest[i + 3..];
    var t := SplitUp(rest);
    assert t == Hole(rest[..i], body[..end], SplitUp(body[end + 2..]));
    Onward(out, t.gap, Shown(ctx, t.expr), Filled(ctx, t.rest));
  }

  lemma Onward(out: string, gap: string, shown: string, rest: string)
    ensures out + (gap + shown + rest) == out + gap + shown + rest
  {
  }

  /** With no expression that evaluates, the text is left as it is. */
  lemma {:induction false} Unfailing(ctx: Context, s: string)
    ensures AllFail(ctx, SplitUp(s)) ==> Filled(ctx, SplitUp(s)) == s
  {
    SplitIsProper(s);
    if AllFail(ctx, SplitUp(s)) {
      FailedStays(ctx, SplitUp(s));
    }
  }

  lemma {:induction false} FailedStays(ctx: Context, t: Template)
    requires AllFail(ctx, t)
    ensures Filled(ctx, t) == Source(t)
  {
    if t.Hole? {
      FailedStays(ctx, t.rest);
      assert t.gap + (OPEN + t.expr + CLOSE) + Source(t.rest) == Source(t);
    }
  }

  /** No expression of a text is ever refused for an unterminated string. */
  lemma {:induction false} NoHoleIsUnterminated(ctx: Context, t: Template)
    requires Proper(t) && t.Hole?
    ensures Tokens(t.expr) != Err(UnterminatedString)
  {
    assert ClosesAt(t.expr + CLOSE, |t.expr|);
    assert (t.expr + CLOSE)[..|t.expr|] == t.expr;
    QuotesPairUp(t.expr);
  }

  // ---- conditions ------------------------------------------------------------------------------------------

  function StripSuffix(s: string, suffix: string): string {
    if |suffix| <= |s| && s[|s| - |suffix|..] == suffix then s[..|s| - |suffix|] else s
  }

  /** An absent condition holds; one in `${{ }}` is read without them. */
  function EvalCondition(ctx: Context, text: string): Result<bool, ExprError> {
    var expr := Trim(text);
    if expr == "" then Ok(true)
    else
      Verdict(Eval(ctx, if OPEN <= expr then StripSuffix(expr[3..], CLOSE) else expr))
  }

  function Verdict(r: Result<Value, ExprError>): Result<bool, ExprError> {
    match r
    case Err(e) => Err(e)
    case Ok(v) => Ok(Truthy(v))
  }

  lemma WrappedIsRead(inner: string)
    ensures var wrapped := OPEN + inner + CLOSE;
            Trim(wrapped) == wrapped && OPEN <= wrapped && StripSuffix(wrapped[3..], CLOSE) == inner
  {
    var wrapped := OPEN + inner + CLOSE;
    assert wrapped[0] == '$' && wrapped[|wrapped| - 1] == '}';
    assert wrapped[3..] == inner + CLOSE;
    assert (inner + CLOSE)[..|inner|] == inner && (inner + CLOSE)[|inner|..] == CLOSE;
  }

  /** Both ways of writing a condition mean the same, with whatever blanks the
      tokenizer skips inside the braces. */
  lemma WrappedCondition(ctx: Context, a: string, expr: string, b: string)
    requires AllSpace(a) && AllSpace(b) && expr != "" && Trim(expr) == expr && !(OPEN <= expr)
    ensures EvalCondition(ctx, OPEN + (a + expr + b) + CLOSE) == EvalCondition(ctx, expr)
  {
    WrappedIsRead(a + expr + b);
    BlanksAround(ctx, a, expr, b);
    ReadsInner(ctx, OPEN + (a + expr + b) + CLOSE, a + expr + b);
  }

  lemma ReadsInner(ctx: Context, text: string, inner: string)
    requires text != "" && Trim(text) == text && OPEN <= text && StripSuffix(text[3..], CLOSE) == inner
    ensures EvalCondition(ctx, text) == Verdict(Eval(ctx, inner))
  {
  }

  lemma BlanksAround(ctx: Context, a: string, expr: string, b: string)
    requires AllSpace(a) && AllSpace(b)
    ensures Eval(ctx, a + expr + b) == Eval(ctx, expr)
  {
    assert a + expr + b == a + (expr + b);
    SkipsSpace(a, expr + b);
    TrailingSpace(expr, b);
  }
}
