/** The tokenizer of `src/expr.rs`: what it accepts, token by token, and the loop
    that does it. */
module Tokenizer {
  import opened Common
  import opened Text

  datatype Token =
    | Ident(name: string)
    | Quoted(text: string)
    | Numeral(value: real)
    | Dot | LParen | RParen | Comma
    | EqEq | NotEq | Gt | Ge | Lt | Le
    | And | Or | Not

  datatype ExprError =
    | UnexpectedChar(c: char)
    | UnterminatedString
    | BadNumber(text: string)
    | UnclosedParen
    | TrailingDot(path: string)
    | Unexpected(found: Option<Token>)
    | Trailing(next: Token)
    | UnknownFunction(name: string)

  // ---- characters --------------------------------------------------------------

  predicate IsSpace(c: char) {
    c == ' ' || c == '\t' || c == '\n' || c == '\U{000C}' || c == '\r'
  }

  predicate IsWordChar(c: char) {
    'a' <= c <= 'z' || 'A' <= c <= 'Z' || IsDigit(c) || c == '_' || c == '-' || c == '*'
  }

  /** The blanks the tokenizer skips, and what names are made of, by their codes. */
  lemma CharactersExactly(c: char)
    ensures IsSpace(c) <==> c as int in {9, 10, 12, 13, 32}
    ensures IsWordChar(c) <==> var n := c as int;
                               65 <= n <= 90 || 97 <= n <= 122 || 48 <= n <= 57 || n in {42, 45, 95}
  {
  }

  predicate AllSpace(s: string) {
    forall i :: 0 <= i < |s| ==> IsSpace(s[i])
  }

  predicate AllWordChars(s: string) {
    forall i :: 0 <= i < |s| ==> IsWordChar(s[i])
  }

  /** `s` goes on with `c`. */
  predicate StartsWith(s: string, c: char) {
    s != "" && s[0] == c
  }

  // ---- what the texts of the tokens are ---------------------------------------------

  /** A number as written: digits, with at most one dot between digits. */
  function NumeralValue(w: string): Option<real> {
    var parts := Split(w, '.');
    if |parts| > 2 || !DigitGroup(parts[0]) || !DigitGroup(parts[|parts| - 1]) then None
    else if |parts| == 1 then Some(DecimalValue(parts[0]) as real)
    else Some(DecimalValue(parts[0]) as real + DecimalValue(parts[1]) as real / PowerOfTen(|parts[1]|))
  }

  lemma {:induction false} DigitsAreOnePiece(s: string, tail: string)
    requires AllDigits(s)
    ensures Split(s, '.') == [s] && Split(s + "." + tail, '.') == [s] + Split(tail, '.')
  {
    if s == "" {
      assert "" + "." + tail == "." + tail && ("." + tail)[1..] == tail;
    } else {
      assert s == [s[0]] + s[1..] && (s + "." + tail)[1..] == s[1..] + "." + tail;
      DigitsAreOnePiece(s[1..], tail);
    }
  }

  lemma Pieces(whole: string, part: string)
    requires AllDigits(whole) && AllDigits(part)
    ensures Split(whole, '.') == [whole] && Split(whole + "." + part, '.') == [whole, part]
  {
    DigitsAreOnePiece(whole, part);
    DigitsAreOnePiece(part, "");
  }

  /** Digits are a whole number. */
  lemma WholeNumerals(w: string)
    requires AllDigits(w)
    ensures NumeralValue(w) == if w == "" then None else Some(DecimalValue(w) as real)
  {
    Pieces(w, "");
  }

  /** Digits behind a dot are tenths, hundredths and so on. */
  lemma BrokenNumerals(w: string, whole: string, part: string)
    requires AllDigits(whole) && AllDigits(part) && w == whole + "." + part
    ensures NumeralValue(w) == if whole == "" || part == "" then None
                               else Some(DecimalValue(whole) as real + DecimalValue(part) as real / PowerOfTen(|part|))
  {
    Pieces(whole, part);
    TwoPieces(w, [whole, part], whole, part);
  }

  lemma TwoPieces(w: string, parts: seq<string>, a: string, b: string)
    requires Split(w, '.') == parts && |parts| == 2 && parts[0] == a && parts[1] == b
    ensures NumeralValue(w) == if !DigitGroup(a) || !DigitGroup(b) then None
                               else Some(DecimalValue(a) as real + DecimalValue(b) as real / PowerOfTen(|b|))
  {
  }

  lemma PowersOfTen(n: nat)
    ensures PowerOfTen(0) == 1.0 && PowerOfTen(n + 1) == 10.0 * PowerOfTen(n)
  {
  }

  predicate DigitGroup(s: string) {
    s != "" && AllDigits(s)
  }

  function PowerOfTen(n: nat): (r: real)
    ensures r > 0.0
  {
    if n == 0 then 1.0 else 10.0 * PowerOfTen(n - 1)
  }

  /** Single quotes inside single quotes are doubled. */
  function Doubled(s: string): string {
    if s == "" then "" else (if s[0] == '\'' then "''" else [s[0]]) + Doubled(s[1..])
  }

  function Symbol(t: Token): string {
    match t
    case Dot => "."
    case LParen => "("
    case RParen => ")"
    case Comma => ","
    case EqEq => "=="
    case NotEq => "!="
    case Gt => ">"
    case Ge => ">="
    case Lt => "<"
    case Le => "<="
    case And => "&&"
    case Or => "||"
    case Not => "!"
    case _ => ""
  }

  /** `w` is a text of the token `t`. */
  predicate IsLexeme(w: string, t: Token) {
    match t
    case Ident(name) => w == name && name != "" && AllWordChars(name) && !IsDigit(name[0])
    case Quoted(text) => w == "'" + Doubled(text) + "'" || ('"' !in text && w == "\"" + text + "\"")
    case Numeral(value) => NumeralValue(w) == Some(value)
    case _ => w == Symbol(t)
  }

  /** What follows `w` does not make a longer token of it. */
  predicate Ends(w: string, t: Token, tail: string) {
    match t
    case Ident(_) => tail == "" || !IsWordChar(tail[0])
    case Quoted(_) => StartsWith(w, '\'') ==> !StartsWith(tail, '\'')
    case Numeral(_) => !ContinuesNumber(tail)
    case Gt => !StartsWith(tail, '=')
    case Lt => !StartsWith(tail, '=')
    case Not => !StartsWith(tail, '=')
    case _ => true
  }

  // ---- runs of characters at the front of a text ---------------------------------------

  function WordLength(s: string): (n: nat)
    ensures n <= |s|
  {
    if s == "" || !IsWordChar(s[0]) then 0 else WordLength(s[1..]) + 1
  }

  /** A digit, or a dot with a digit behind it. */
  predicate ContinuesNumber(s: string) {
    s != "" && (IsDigit(s[0]) || (s[0] == '.' && |s| > 1 && IsDigit(s[1])))
  }

  function NumberLength(s: string): (n: nat)
    ensures n <= |s|
  {
    if !ContinuesNumber(s) then 0 else NumberLength(s[1..]) + 1
  }

  datatype Literal = Closed(text: string, length: nat) | Open

  function Prefixed(c: char, skipped: nat, rest: Literal): Literal {
    match rest
    case Closed(text, length) => Closed([c] + text, skipped + length)
    case Open => Open
  }

  /** Reads on behind an opening quote `q`. */
  function LiteralFrom(q: char, s: string): (r: Literal)
    ensures r.Closed? ==> 0 < r.length <= |s|
  {
    if s == "" then Open
    else if s[0] != q then Prefixed(s[0], 1, LiteralFrom(q, s[1..]))
    else if q == '\'' && |s| > 1 && s[1] == '\'' then Prefixed('\'', 2, LiteralFrom(q, s[2..]))
    else Closed("", 1)
  }

  // ---- one token -------------------------------------------------------------------------

  datatype Lexed = Lexed(token: Token, length: nat) | Bad(error: ExprError)

  function LexOperator(s: string): (r: Option<Token>)
    requires s != ""
    ensures r.Some? ==> OperatorLength(r.value) <= |s|
  {
    var doubled := |s| > 1 && s[1] == '=';
    match s[0]
    case '.' => Some(Dot)
    case '(' => Some(LParen)
    case ')' => Some(RParen)
    case ',' => Some(Comma)
    case '=' => if doubled then Some(EqEq) else None
    case '!' => Some(if doubled then NotEq else Not)
    case '>' => Some(if doubled then Ge else Gt)
    case '<' => Some(if doubled then Le else Lt)
    case '&' => if |s| > 1 && s[1] == '&' then Some(And) else None
    case '|' => if |s| > 1 && s[1] == '|' then Some(Or) else None
    case _ => None
  }

  function OperatorLength(t: Token): nat {
    if t.EqEq? || t.NotEq? || t.Ge? || t.Le? || t.And? || t.Or? then 2 else 1
  }

  function LexOne(s: string): (r: Lexed)
    requires s != ""
    ensures r.Lexed? ==> 0 < r.length <= |s|
  {
    var c := s[0];
    var operator := LexOperator(s);
    if operator.Some? then Lexed(operator.value, OperatorLength(operator.value))
    else if c == '\'' || c == '"' then
      match LiteralFrom(c, s[1..])
      case Open => Bad(UnterminatedString)
      case Closed(text, length) => Lexed(Quoted(text), length + 1)
    else if IsDigit(c) then
      var n := NumberLength(s);
      var value := NumeralValue(s[..n]);
      if value.Some? then Lexed(Numeral(value.value), n) else Bad(BadNumber(s[..n]))
    else if IsWordChar(c) then Lexed(Ident(s[..WordLength(s)]), WordLength(s))
    else Bad(UnexpectedChar(c))
  }

  function Tokens(s: string): Result<seq<Token>, ExprError>
    decreases |s|
  {
    if s == "" then Ok([])
    else if IsSpace(s[0]) then Tokens(s[1..])
    else
      match LexOne(s)
      case Bad(e) => Err(e)
      case Lexed(t, n) => After([t], Tokens(s[n..]))
  }

  function After(front: seq<Token>, rest: Result<seq<Token>, ExprError>): Result<seq<Token>, ExprError> {
    match rest
    case Ok(ts) => Ok(front + ts)
    case Err(e) => Err(e)
  }

  // ---- a token's text is read as that token -------------------------------------------------

  lemma {:induction false} WordRun(w: string, tail: string)
    requires AllWordChars(w) && (tail == "" || !IsWordChar(tail[0]))
    ensures WordLength(w + tail) == |w|
  {
    if w == "" {
      assert w + tail == tail;
    } else {
      assert (w + tail)[1..] == w[1..] + tail;
      WordRun(w[1..], tail);
    }
  }

  predicate NumberAt(w: string, i: nat)
    requires i < |w|
  {
    IsDigit(w[i]) || (w[i] == '.' && i + 1 < |w| && IsDigit(w[i + 1]))
  }

  /** Every character of `w` carries a number on to its end. */
  predicate NumberText(w: string) {
    forall i :: 0 <= i < |w| ==> NumberAt(w, i)
  }

  lemma {:induction false} NumberRun(w: string, tail: string)
    requires NumberText(w) && !ContinuesNumber(tail)
    ensures NumberLength(w + tail) == |w|
  {
    if w == "" {
      assert w + tail == tail;
    } else {
      assert (w + tail)[1..] == w[1..] + tail;
      assert NumberAt(w, 0);
      forall i | 0 <= i < |w[1..]| ensures NumberAt(w[1..], i) {
        assert NumberAt(w, i + 1);
      }
      NumberRun(w[1..], tail);
    }
  }

  lemma NumeralIsNumberText(w: string)
    requires NumeralValue(w).Some?
    ensures w != "" && IsDigit(w[0]) && NumberText(w)
  {
    SplitJoins(w, '.');
    var parts := Split(w, '.');
    if |parts| == 2 {
      assert Join(parts[1..], ".") == parts[1];
      assert w == parts[0] + "." + parts[1];
    }
  }

  lemma {:induction false} SingleQuoted(text: string, tail: string)
    requires !StartsWith(tail, '\'')
    ensures LiteralFrom('\'', Doubled(text) + "'" + tail) == Closed(text, |Doubled(text)| + 1)
  {
    if text != "" {
      var mark, rest := if text[0] == '\'' then "''" else [text[0]], Doubled(text[1..]);
      SingleQuoted(text[1..], tail);
      assert mark + rest + "'" + tail == mark + (rest + "'" + tail);
      OneMoreQuoted(text[0], rest + "'" + tail);
    }
  }

  lemma OneMoreQuoted(c: char, s: string)
    ensures LiteralFrom('\'', (if c == '\'' then "''" else [c]) + s)
         == Prefixed(c, if c == '\'' then 2 else 1, LiteralFrom('\'', s))
  {
    assert ([c] + s)[1..] == s && ("''" + s)[2..] == s;
  }

  lemma {:induction false} DoubleQuoted(text: string, tail: string)
    requires '"' !in text
    ensures LiteralFrom('"', text + "\"" + tail) == Closed(text, |text| + 1)
  {
    if text != "" {
      DoubleQuoted(text[1..], tail);
      assert (text + "\"" + tail)[1..] == text[1..] + "\"" + tail;
    }
  }

  lemma LexesWord(w: string, tail: string)
    requires IsLexeme(w, Ident(w)) && Ends(w, Ident(w), tail)
    ensures !IsSpace(w[0]) && LexOne(w + tail) == Lexed(Ident(w), |w|)
  {
    WordRun(w, tail);
    assert (w + tail)[0] == w[0] && LexOperator(w + tail).None?;
    assert (w + tail)[..|w|] == w;
  }

  lemma LexesQuote(s: string)
    requires s != "" && (s[0] == '\'' || s[0] == '"') && LiteralFrom(s[0], s[1..]).Closed?
    ensures LexOne(s) == Lexed(Quoted(LiteralFrom(s[0], s[1..]).text), LiteralFrom(s[0], s[1..]).length + 1)
  {
    assert LexOperator(s).None?;
  }

  lemma LexesQuoted(w: string, text: string, tail: string)
    requires IsLexeme(w, Quoted(text)) && Ends(w, Quoted(text), tail)
    ensures w != "" && !IsSpace(w[0]) && LexOne(w + tail) == Lexed(Quoted(text), |w|)
  {
    if w == "'" + Doubled(text) + "'" {
      SingleQuoted(text, tail);
      assert (w + tail)[1..] == Doubled(text) + "'" + tail;
    } else {
      DoubleQuoted(text, tail);
      assert (w + tail)[1..] == text + "\"" + tail;
    }
    LexesQuote(w + tail);
  }

  lemma LexesNumber(w: string, value: real, tail: string)
    requires IsLexeme(w, Numeral(value)) && Ends(w, Numeral(value), tail)
    ensures w != "" && !IsSpace(w[0]) && LexOne(w + tail) == Lexed(Numeral(value), |w|)
  {
    NumeralIsNumberText(w);
    NumberRun(w, tail);
    assert (w + tail)[0] == w[0] && LexOperator(w + tail).None?;
    assert (w + tail)[..|w|] == w;
  }

  lemma LexesSymbol(t: Token, tail: string)
    requires !t.Ident? && !t.Quoted? && !t.Numeral? && Ends(Symbol(t), t, tail)
    ensures var w := Symbol(t); w != "" && !IsSpace(w[0]) && LexOne(w + tail) == Lexed(t, |w|)
  {
    var s := Symbol(t) + tail;
    assert |Symbol(t)| == 1 && tail != "" ==> s[1] == tail[0];
    assert LexOperator(s) == Some(t) && OperatorLength(t) == |Symbol(t)|;
  }

  lemma LexesBack(w: string, t: Token, tail: string)
    requires IsLexeme(w, t) && Ends(w, t, tail)
    ensures w != "" && !IsSpace(w[0]) && LexOne(w + tail) == Lexed(t, |w|)
  {
    if t.Ident? {
      LexesWord(w, tail);
    } else if t.Quoted? {
      LexesQuoted(w, t.text, tail);
    } else if t.Numeral? {
      LexesNumber(w, t.value, tail);
    } else {
      LexesSymbol(t, tail);
    }
  }

  // ---- and only such a text is ------------------------------------------------------------------

  lemma {:induction false} SingleQuotedOnly(s: string)
    requires LiteralFrom('\'', s).Closed?
    ensures s[..LiteralFrom('\'', s).length] == Doubled(LiteralFrom('\'', s).text) + "'"
    ensures !StartsWith(s[LiteralFrom('\'', s).length..], '\'')
  {
    var r := LiteralFrom('\'', s);
    var step := if s[0] != '\'' then 1 else 2;
    if s[0] != '\'' || (|s| > 1 && s[1] == '\'') {
      SingleQuotedOnly(s[step..]);
      assert s[r.length..] == s[step..][r.length - step..];
      assert s[..r.length] == s[..step] + s[step..][..r.length - step];
      assert r.text[1..] == LiteralFrom('\'', s[step..]).text;
    }
  }

  lemma {:induction false} DoubleQuotedOnly(s: string)
    requires LiteralFrom('"', s).Closed?
    ensures s[..LiteralFrom('"', s).length] == LiteralFrom('"', s).text + "\""
    ensures '"' !in LiteralFrom('"', s).text
  {
    var r := LiteralFrom('"', s);
    if s[0] != '"' {
      DoubleQuotedOnly(s[1..]);
      assert s[..r.length] == s[..1] + s[1..][..r.length - 1];
    }
  }

  lemma {:induction false} WordOnly(s: string)
    ensures AllWordChars(s[..WordLength(s)])
    ensures WordLength(s) < |s| ==> !IsWordChar(s[WordLength(s)])
  {
    if s != "" && IsWordChar(s[0]) {
      WordOnly(s[1..]);
      assert s[..WordLength(s)] == [s[0]] + s[1..][..WordLength(s[1..])];
    }
  }

  lemma {:induction false} NumberOnly(s: string)
    ensures !ContinuesNumber(s[NumberLength(s)..])
  {
    if ContinuesNumber(s) {
      NumberOnly(s[1..]);
      assert s[NumberLength(s)..] == s[1..][NumberLength(s[1..])..];
    } else {
      assert s[0..] == s;
    }
  }

  lemma QuotedOnly(s: string)
    requires s != "" && (s[0] == '\'' || s[0] == '"') && LiteralFrom(s[0], s[1..]).Closed?
    ensures var r := LiteralFrom(s[0], s[1..]);
            IsLexeme(s[..r.length + 1], Quoted(r.text)) && Ends(s[..r.length + 1], Quoted(r.text), s[r.length + 1..])
  {
    var r := LiteralFrom(s[0], s[1..]);
    assert s[..r.length + 1] == [s[0]] + s[1..][..r.length];
    assert s[r.length + 1..] == s[1..][r.length..];
    if s[0] == '\'' { SingleQuotedOnly(s[1..]); } else { DoubleQuotedOnly(s[1..]); }
  }

  lemma SymbolOnly(s: string, t: Token)
    requires s != "" && LexOperator(s) == Some(t)
    ensures |Symbol(t)| <= |s| && Symbol(t) == s[..|Symbol(t)|] && Ends(Symbol(t), t, s[|Symbol(t)|..])
    ensures IsLexeme(Symbol(t), t) && OperatorLength(t) == |Symbol(t)|
  {
  }

  lemma LexesOnly(s: string)
    requires s != "" && LexOne(s).Lexed?
    ensures var r := LexOne(s); IsLexeme(s[..r.length], r.token) && Ends(s[..r.length], r.token, s[r.length..])
  {
    if LexOperator(s).Some? {
      SymbolOnly(s, LexOperator(s).value);
    } else if s[0] == '\'' || s[0] == '"' {
      LexesQuote(s);
      QuotedOnly(s);
    } else if IsDigit(s[0]) {
      NumberOnly(s);
    } else {
      WordOnly(s);
    }
  }

  // ---- whole texts ------------------------------------------------------------------------------

  /** A token, the blank in front of it and the text it is written as. */
  datatype Word = Word(gap: string, text: string, token: Token)

  function Written(words: seq<Word>, end: string): string {
    if words == [] then end else words[0].gap + words[0].text + Written(words[1..], end)
  }

  function TokensOf(words: seq<Word>): seq<Token> {
    if words == [] then [] else [words[0].token] + TokensOf(words[1..])
  }

  /** Blanks are blank, texts are texts of their tokens, and a text with no
      blank behind it does not run into the next. */
  predicate Legible(words: seq<Word>, end: string) {
    if words == [] then AllSpace(end)
    else
      && AllSpace(words[0].gap)
      && IsLexeme(words[0].text, words[0].token)
      && Ends(words[0].text, words[0].token, Written(words[1..], end))
      && Legible(words[1..], end)
  }

  lemma {:induction false} SkipsSpace(gap: string, s: string)
    requires AllSpace(gap)
    ensures Tokens(gap + s) == Tokens(s)
  {
    if gap == "" {
      assert gap + s == s;
    } else {
      assert (gap + s)[1..] == gap[1..] + s;
      SkipsSpace(gap[1..], s);
    }
  }

  lemma {:induction false} ReadsBack(words: seq<Word>, end: string)
    requires Legible(words, end)
    ensures Tokens(Written(words, end)) == Ok(TokensOf(words))
  {
    if words == [] {
      SkipsSpace(end, "");
      assert end + "" == end;
    } else {
      var w, tail := words[0], Written(words[1..], end);
      ReadsBack(words[1..], end);
      LexesBack(w.text, w.token, tail);
      assert Written(words, end) == w.gap + (w.text + tail);
      SkipsSpace(w.gap, w.text + tail);
      assert (w.text + tail)[|w.text|..] == tail;
    }
  }

  lemma TokensStep(s: string)
    requires s != "" && !IsSpace(s[0]) && Tokens(s).Ok?
    ensures LexOne(s).Lexed? && Tokens(s[LexOne(s).length..]).Ok?
    ensures Tokens(s).value == [LexOne(s).token] + Tokens(s[LexOne(s).length..]).value
  {
  }

  lemma AddWord(w: Word, rest: seq<Word>, end: string)
    requires Legible(rest, end) && AllSpace(w.gap) && IsLexeme(w.text, w.token)
    requires Ends(w.text, w.token, Written(rest, end))
    ensures Legible([w] + rest, end) && Written([w] + rest, end) == w.gap + w.text + Written(rest, end)
    ensures TokensOf([w] + rest) == [w.token] + TokensOf(rest)
  {
    assert ([w] + rest)[1..] == rest;
  }

  lemma AddBlank(c: char, words: seq<Word>, end: string) returns (words': seq<Word>, end': string)
    requires IsSpace(c) && Legible(words, end)
    ensures Legible(words', end') && Written(words', end') == [c] + Written(words, end)
    ensures TokensOf(words') == TokensOf(words)
  {
    if words == [] {
      words', end' := [], [c] + end;
    } else {
      var w, rest := words[0], words[1..];
      AddWord(Word([c] + w.gap, w.text, w.token), rest, end);
      assert [c] + (w.gap + w.text + Written(rest, end)) == [c] + w.gap + w.text + Written(rest, end);
      words', end' := [Word([c] + w.gap, w.text, w.token)] + rest, end;
    }
  }

  lemma AddToken(s: string, n: nat, t: Token, rest: seq<Word>, end: string) returns (words: seq<Word>)
    requires n <= |s| && Legible(rest, end) && Written(rest, end) == s[n..]
    requires IsLexeme(s[..n], t) && Ends(s[..n], t, s[n..])
    ensures Legible(words, end) && Written(words, end) == s && TokensOf(words) == [t] + TokensOf(rest)
  {
    AddWord(Word("", s[..n], t), rest, end);
    words := [Word("", s[..n], t)] + rest;
    assert "" + s[..n] == s[..n] && s[..n] + s[n..] == s;
  }

  lemma {:induction false} ReadsOnly(s: string) returns (words: seq<Word>, end: string)
    requires Tokens(s).Ok?
    ensures Legible(words, end) && Written(words, end) == s && TokensOf(words) == Tokens(s).value
    decreases |s|
  {
    if s == "" {
      words, end := [], "";
    } else if IsSpace(s[0]) {
      words, end := ReadsOnly(s[1..]);
      words, end := AddBlank(s[0], words, end);
    } else {
      TokensStep(s);
      LexesOnly(s);
      words, end := ReadsOnly(s[LexOne(s).length..]);
      words := AddToken(s, LexOne(s).length, LexOne(s).token, words, end);
    }
  }

  /** The tokenizer answers `ts` on exactly the texts that write `ts` out, with
      blanks wherever two tokens would otherwise run together. */
  lemma TokenizesExactly(s: string, ts: seq<Token>)
    ensures Tokens(s) == Ok(ts) <==>
            exists words, end :: Legible(words, end) && Written(words, end) == s && TokensOf(words) == ts
  {
    if Tokens(s) == Ok(ts) {
      var words, end := ReadsOnly(s);
    }
    if words, end :| Legible(words, end) && Written(words, end) == s && TokensOf(words) == ts {
      ReadsBack(words, end);
    }
  }

  // ---- blanks behind a text change nothing ----------------------------------------------------

  lemma {:induction false} WordEndsAtSpace(s: string, b: string)
    requires AllSpace(b)
    ensures WordLength(s + b) == WordLength(s)
  {
    if s == "" {
      assert s + b == b;
    } else {
      assert (s + b)[1..] == s[1..] + b;
      WordEndsAtSpace(s[1..], b);
    }
  }

  lemma {:induction false} NumberEndsAtSpace(s: string, b: string)
    requires AllSpace(b)
    ensures NumberLength(s + b) == NumberLength(s)
  {
    if s == "" {
      assert s + b == b;
    } else {
      assert (s + b)[1..] == s[1..] + b;
      NumberEndsAtSpace(s[1..], b);
    }
  }

  lemma {:induction false} SpaceClosesNothing(q: char, b: string)
    requires AllSpace(b) && !IsSpace(q)
    ensures LiteralFrom(q, b) == Open
  {
    if b != "" { SpaceClosesNothing(q, b[1..]); }
  }

  lemma {:induction false} LiteralEndsAtSpace(q: char, s: string, b: string)
    requires AllSpace(b) && (q == '\'' || q == '"')
    ensures LiteralFrom(q, s + b) == LiteralFrom(q, s)
  {
    if s == "" {
      assert s + b == b;
      SpaceClosesNothing(q, b);
    } else {
      assert (s + b)[1..] == s[1..] + b;
      LiteralEndsAtSpace(q, s[1..], b);
      if |s| > 1 {
        assert (s + b)[2..] == s[2..] + b;
        LiteralEndsAtSpace(q, s[2..], b);
      }
    }
  }

  lemma OperatorEndsAtSpace(s: string, b: string)
    requires AllSpace(b) && s != ""
    ensures LexOperator(s + b) == LexOperator(s)
  {
    assert |s| == 1 && b != "" ==> (s + b)[1] == b[0];
    assert |s| > 1 ==> (s + b)[1] == s[1];
  }

  lemma LexEndsAtSpace(s: string, b: string)
    requires AllSpace(b) && s != ""
    ensures LexOne(s + b) == LexOne(s)
  {
    var c := s[0];
    assert (s + b)[0] == c && (s + b)[1..] == s[1..] + b;
    OperatorEndsAtSpace(s, b);
    if c == '\'' || c == '"' {
      LiteralEndsAtSpace(c, s[1..], b);
    } else if IsDigit(c) {
      NumberEndsAtSpace(s, b);
      assert (s + b)[..NumberLength(s)] == s[..NumberLength(s)];
    } else {
      WordEndsAtSpace(s, b);
      assert (s + b)[..WordLength(s)] == s[..WordLength(s)];
    }
  }

  lemma {:induction false} TrailingSpace(s: string, b: string)
    requires AllSpace(b)
    ensures Tokens(s + b) == Tokens(s)
    decreases |s|
  {
    if s == "" {
      SkipsSpace(b, "");
      assert s + b == b && b + "" == b;
    } else if IsSpace(s[0]) {
      assert (s + b)[1..] == s[1..] + b;
      TrailingSpace(s[1..], b);
    } else {
      LexEndsAtSpace(s, b);
      if LexOne(s).Lexed? {
        var n := LexOne(s).length;
        assert (s + b)[n..] == s[n..] + b;
        TrailingSpace(s[n..], b);
      }
    }
  }

  // ---- the loop --------------------------------------------------------------------------------

  /** What the tokenizer answers with `out` already read and `s[i..]` to go. */
  function Outcome(s: string, i: nat, out: seq<Token>): Result<seq<Token>, ExprError>
    requires i <= |s|
    decreases |s| - i
  {
    if i == |s| then Ok(out)
    else if IsSpace(s[i]) then Outcome(s, i + 1, out)
    else
      match LexOne(s[i..])
      case Bad(e) => Err(e)
      case Lexed(t, n) => Outcome(s, i + n, out + [t])
  }

  lemma {:induction false} OutcomeIs(s: string, i: nat, out: seq<Token>)
    requires i <= |s|
    ensures Outcome(s, i, out) == After(out, Tokens(s[i..]))
    decreases |s| - i
  {
    if i == |s| {
      assert out + [] == out;
    } else if IsSpace(s[i]) {
      assert s[i..][1..] == s[i + 1..];
      OutcomeIs(s, i + 1, out);
    } else if LexOne(s[i..]).Lexed? {
      var t, n := LexOne(s[i..]).token, LexOne(s[i..]).length;
      assert s[i..][n..] == s[i + n..];
      OutcomeIs(s, i + n, out + [t]);
      AfterBoth(out, t, Tokens(s[i + n..]));
    }
  }

  method Tokenize(s: string) returns (r: Result<seq<Token>, ExprError>)
    ensures r == Tokens(s)
  {
    var out: seq<Token> := [];
    var i: nat := 0;
    ghost var all := Outcome(s, 0, []);
    Starts(s);
    while i < |s|
      invariant i <= |s|
      invariant all == Outcome(s, i, out)
    {
      if IsSpace(s[i]) {
        i := i + 1;
      } else {
        var next := NextToken(s, i);
        if next.Bad? {
          return Err(next.error);
        }
        out := out + [next.token];
        i := i + next.length;
      }
    }
    r := Ok(out);
  }

  lemma Starts(s: string)
    ensures Outcome(s, 0, []) == Tokens(s)
  {
    OutcomeIs(s, 0, []);
    assert s[0..] == s;
    assert Tokens(s).Ok? ==> [] + Tokens(s).value == Tokens(s).value;
  }

  lemma AfterBoth(out: seq<Token>, t: Token, rest: Result<seq<Token>, ExprError>)
    ensures After(out, After([t], rest)) == After(out + [t], rest)
  {
    assert rest.Ok? ==> out + ([t] + rest.value) == (out + [t]) + rest.value;
  }

  method NextToken(s: string, i: nat) returns (r: Lexed)
    requires i < |s|
    ensures r == LexOne(s[i..])
  {
    var c := s[i];
    var operator := LexOperator(s[i..]);
    if operator.Some? {
      r := Lexed(operator.value, OperatorLength(operator.value));
    } else if c == '\'' || c == '"' {
      var literal, next := ReadLiteral(s, i + 1, c);
      assert s[i..][1..] == s[i + 1..];
      r := if next.None? then Bad(UnterminatedString) else Lexed(Quoted(literal), next.value - i);
    } else if IsDigit(c) {
      var end := EndOfNumber(s, i);
      assert s[i..end] == s[i..][..end - i];
      var value := NumeralValue(s[i..end]);
      r := if value.None? then Bad(BadNumber(s[i..end])) else Lexed(Numeral(value.value), end - i);
    } else if IsWordChar(c) {
      var end := EndOfWord(s, i);
      assert s[i..end] == s[i..][..end - i];
      r := Lexed(Ident(s[i..end]), end - i);
    } else {
      r := Bad(UnexpectedChar(c));
    }
  }

  method EndOfNumber(s: string, start: nat) returns (end: nat)
    requires start <= |s|
    ensures end == start + NumberLength(s[start..])
  {
    end := start;
    while end < |s| && (IsDigit(s[end]) || s[end] == '.')
      invariant start <= end <= |s|
      invariant NumberLength(s[start..]) == end - start + NumberLength(s[end..])
    {
      assert s[end..][1..] == s[end + 1..];
      if s[end] == '.' && !(end + 1 < |s| && IsDigit(s[end + 1])) {
        break;
      }
      end := end + 1;
    }
  }

  method EndOfWord(s: string, start: nat) returns (end: nat)
    requires start <= |s|
    ensures end == start + WordLength(s[start..])
  {
    end := start;
    while end < |s| && IsWordChar(s[end])
      invariant start <= end <= |s|
      invariant WordLength(s[start..]) == end - start + WordLength(s[end..])
    {
      assert s[end..][1..] == s[end + 1..];
      end := end + 1;
    }
  }

  function Extended(front: string, skipped: nat, rest: Literal): Literal {
    match rest
    case Open => Open
    case Closed(text, length) => Closed(front + text, skipped + length)
  }

  lemma LiteralStep(q: char, s: string, i: nat, front: string, skipped: nat)
    requires i < |s| && s[i] != q
    ensures Extended(front, skipped, LiteralFrom(q, s[i..]))
            == Extended(front + [s[i]], skipped + 1, LiteralFrom(q, s[i + 1..]))
  {
    assert s[i..][1..] == s[i + 1..];
    var rest := LiteralFrom(q, s[i + 1..]);
    assert rest.Closed? ==> front + ([s[i]] + rest.text) == front + [s[i]] + rest.text;
  }

  lemma LiteralDouble(s: string, i: nat, front: string, skipped: nat)
    requires i + 1 < |s| && s[i] == s[i + 1] == '\''
    ensures Extended(front, skipped, LiteralFrom('\'', s[i..]))
            == Extended(front + "'", skipped + 2, LiteralFrom('\'', s[i + 2..]))
  {
    assert s[i..][2..] == s[i + 2..];
    var rest := LiteralFrom('\'', s[i + 2..]);
    assert rest.Closed? ==> front + (['\''] + rest.text) == front + "'" + rest.text;
  }

  /** The inner loop over a string literal, from behind its opening quote. */
  method ReadLiteral(s: string, start: nat, q: char) returns (literal: string, next: Option<nat>)
    requires start <= |s|
    ensures next.None? <==> LiteralFrom(q, s[start..]).Open?
    ensures next.Some? ==> start < next.value <= |s|
    ensures next.Some? ==> LiteralFrom(q, s[start..]) == Closed(literal, next.value - start)
  {
    literal := "";
    var i := start;
    ghost var all := LiteralFrom(q, s[start..]);
    assert all.Closed? ==> "" + all.text == all.text;
    while true
      invariant start <= i <= |s|
      invariant all == Extended(literal, i - start, LiteralFrom(q, s[i..]))
      decreases |s| - i
    {
      if i >= |s| {
        return literal, None;
      }
      if s[i] == q {
        if q == '\'' && i + 1 < |s| && s[i + 1] == '\'' {
          LiteralDouble(s, i, literal, i - start);
          literal := literal + "'";
          i := i + 2;
          continue;
        }
        assert literal + "" == literal;
        return literal, Some(i + 1);
      }
      LiteralStep(q, s, i, literal, i - start);
      literal := literal + [s[i]];
      i := i + 1;
    }
  }
}
