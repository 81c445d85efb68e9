/** What expressions mean, stated on trees: the evaluator computes exactly the
    meaning of the tree a text is written from. */
module ExprTrees {
  import opened Common
  import opened Values
  import opened Tokenizer
  import opened Evaluator

  datatype Tree =
    | Either(left: Tree, right: Tree)
    | Both(left: Tree, right: Tree)
    | Negation(operand: Tree)
    | Comparison(op: Token, left: Tree, right: Tree)
    | Path(base: Tree, segments: seq<Token>)
    | Literal(text: string)
    | Number(value: real)
    | Name(name: string)
    | Application(callee: string, args: Trees)
    | Group(inner: Tree)

  datatype Trees = NoTrees | More(head: Tree, tail: Trees)

  // ---- meaning -----------------------------------------------------------------------

  /** Both operands of `||` and `&&` are evaluated, left to right; the first
      error is the outcome. */
  function Denote(ctx: Context, t: Tree): Result<Value, ExprError>
    requires WellFormed(t)
  {
    match t
    case Either(left, right) => Lift2(Denote(ctx, left), Denote(ctx, right), OrElse)
    case Both(left, right) => Lift2(Denote(ctx, left), Denote(ctx, right), AndThen)
    case Negation(operand) => Lift(Denote(ctx, operand), v => Bool(!Truthy(v)))
    case Comparison(op, left, right) =>
      Lift2(Denote(ctx, left), Denote(ctx, right), (a, b) => Bool(Compare(ctx.lib, op, a, b)))
    case Path(base, segments) => Lift(Denote(ctx, base), v => Walk(v, Segments(ctx.lib, segments)))
    case Literal(text) => Ok(Str(text))
    case Number(value) => Ok(Num(FromReal(value)))
    case Name(name) => Ok(NameValue(ctx, name))
    case Application(f, args) => CallOn(ctx, f, DenoteAll(ctx, args))
    case Group(inner) => Denote(ctx, inner)
  }

  function DenoteAll(ctx: Context, ts: Trees): Result<seq<Value>, ExprError>
    requires AllWellFormed(ts)
  {
    match ts
    case NoTrees => Ok([])
    case More(head, tail) =>
      match Denote(ctx, head)
      case Err(e) => Err(e)
      case Ok(v) =>
        match DenoteAll(ctx, tail)
        case Err(e) => Err(e)
        case Ok(vs) => Ok([v] + vs)
  }

  function Lift(r: Result<Value, ExprError>, f: Value -> Value): Result<Value, ExprError> {
    match r
    case Err(e) => Err(e)
    case Ok(v) => Ok(f(v))
  }

  function Lift2(a: Result<Value, ExprError>, b: Result<Value, ExprError>, f: (Value, Value) -> Value)
    : Result<Value, ExprError>
  {
    match a
    case Err(e) => Err(e)
    case Ok(x) =>
      match b
      case Err(e) => Err(e)
      case Ok(y) => Ok(f(x, y))
  }

  predicate IsSegment(t: Token) {
    t.Ident? || t.Numeral?
  }

  predicate AreSegments(ts: seq<Token>) {
    forall i :: 0 <= i < |ts| ==> IsSegment(ts[i])
  }

  function Segments(lib: Library, ts: seq<Token>): seq<string>
    requires AreSegments(ts)
  {
    if ts == [] then [] else [SegmentOf(lib, ts[0])] + Segments(lib, ts[1..])
  }

  predicate WellFormed(t: Tree) {
    match t
    case Either(left, right) => WellFormed(left) && WellFormed(right)
    case Both(left, right) => WellFormed(left) && WellFormed(right)
    case Negation(operand) => WellFormed(operand)
    case Comparison(op, left, right) => IsComparison(op) && WellFormed(left) && WellFormed(right)
    case Path(base, segments) => WellFormed(base) && AreSegments(segments)
    case Application(_, args) => AllWellFormed(args)
    case Group(inner) => WellFormed(inner)
    case _ => true
  }

  predicate AllWellFormed(ts: Trees) {
    match ts
    case NoTrees => true
    case More(head, tail) => WellFormed(head) && AllWellFormed(tail)
  }

  // ---- writing a tree out --------------------------------------------------------------

  function Unparse(t: Tree): seq<Token> {
    match t
    case Either(left, right) => Unparse(left) + [Or] + Unparse(right)
    case Both(left, right) => Unparse(left) + [And] + Unparse(right)
    case Negation(operand) => [Not] + Unparse(operand)
    case Comparison(op, left, right) => Unparse(left) + [op] + Unparse(right)
    case Path(base, segments) => Unparse(base) + Dotted(segments)
    case Literal(text) => [Quoted(text)]
    case Number(value) => [Numeral(value)]
    case Name(name) => [Ident(name)]
    case Application(f, args) => [Ident(f), LParen] + UnparseAll(args) + [RParen]
    case Group(inner) => [LParen] + Unparse(inner) + [RParen]
  }

  function UnparseAll(ts: Trees): seq<Token> {
    match ts
    case NoTrees => []
    case More(head, NoTrees) => Unparse(head)
    case More(head, tail) => Unparse(head) + [Comma] + UnparseAll(tail)
  }

  function Dotted(segments: seq<Token>): seq<Token> {
    if segments == [] then [] else [Dot, segments[0]] + Dotted(segments[1..])
  }

  /** How tightly a tree binds: atoms and paths, comparisons, `!`, `&&`, `||`. */
  function Level(t: Tree): nat {
    match t
    case Either(_, _) => 5
    case Both(_, _) => 4
    case Negation(_) => 3
    case Comparison(_, _, _) => 2
    case Path(_, _) => 1
    case _ => 0
  }

  /** `t` stands, without more parentheses, where the grammar wants level `n`. */
  predicate Fits(t: Tree, n: nat) {
    Level(t) <= n &&
    match t
    case Either(left, right) => Fits(left, 5) && Fits(right, 4)
    case Both(left, right) => Fits(left, 4) && Fits(right, 3)
    case Negation(operand) => Fits(operand, 3)
    case Comparison(_, left, right) => Fits(left, 1) && Fits(right, 1)
    case Path(base, _) => Fits(base, 0)
    case Application(_, args) => AllFit(args)
    case Group(inner) => Fits(inner, 5)
    case _ => true
  }

  predicate AllFit(ts: Trees) {
    match ts
    case NoTrees => true
    case More(head, tail) => Fits(head, 5) && AllFit(tail)
  }

  /** What may follow a tree of level `n` without becoming part of it. */
  predicate Stops(ts: seq<Token>, n: nat) {
    ts == [] ||
    match ts[0]
    case RParen => true
    case Comma => true
    case Or => n < 5
    case And => n < 4
    case Dot => n < 1
    case t => IsComparison(t) && n < 2
  }

  // ---- parsing what was written ------------------------------------------------------------

  function Onto(r: Result<Value, ExprError>, rest: seq<Token>): Parsed {
    match r
    case Err(e) => Fail(e)
    case Ok(v) => Done(v, rest)
  }

  function OntoList(done: seq<Value>, r: Result<seq<Value>, ExprError>, rest: seq<Token>): ParsedList {
    match r
    case Err(e) => FailList(e)
    case Ok(vs) => DoneList(done + vs, rest)
  }

  lemma {:induction false} FirstToken(t: Tree)
    requires Fits(t, 5)
    ensures Unparse(t) != []
    ensures Unparse(t)[0].LParen? || Unparse(t)[0].Quoted? || Unparse(t)[0].Numeral? || Unparse(t)[0].Ident?
            || (Unparse(t)[0].Not? && !Fits(t, 2))
  {
    match t
    case Either(left, right) => FirstToken(left);
    case Both(left, right) => FirstToken(left);
    case Comparison(_, left, right) => FirstToken(left);
    case Path(base, _) => FirstToken(base);
    case Negation(_) =>
    case Literal(_) =>
    case Number(_) =>
    case Name(_) =>
    case Application(_, _) =>
    case Group(_) =>
  }

  lemma {:induction false} PathParses(ctx: Context, base: Value, done: seq<Token>, segments: seq<Token>,
                                      rest: seq<Token>)
    requires AreSegments(segments) && AreSegments(done) && Stops(rest, 1)
    ensures PathRest(ctx, base, Segments(ctx.lib, done), Dotted(segments) + rest)
            == Done(Walk(base, Segments(ctx.lib, done + segments)), rest)
    decreases |segments|
  {
    if segments == [] {
      assert Dotted(segments) + rest == rest && done + segments == done;
    } else {
      var s := segments[0];
      PathParses(ctx, base, done + [s], segments[1..], rest);
      SegmentsAppend(ctx.lib, done, s);
      Rejoin(done, [s], segments[1..]);
      assert segments == [s] + segments[1..];
      OneSegment(s, Dotted(segments[1..]), rest);
    }
  }

  lemma OneSegment(s: Token, more: seq<Token>, rest: seq<Token>)
    ensures var ts := [Dot, s] + more + rest;
            |ts| > 1 && ts[0] == Dot && ts[1] == s && ts[2..] == more + rest
  {
  }

  lemma {:induction false} SegmentsAppend(lib: Library, ts: seq<Token>, t: Token)
    requires AreSegments(ts) && IsSegment(t)
    ensures AreSegments(ts + [t]) && Segments(lib, ts + [t]) == Segments(lib, ts) + [SegmentOf(lib, t)]
  {
    if ts != [] {
      SegmentsAppend(lib, ts[1..], t);
      assert (ts + [t])[1..] == ts[1..] + [t];
    }
  }

  lemma {:induction false} AtomParses(ctx: Context, t: Tree, rest: seq<Token>)
    requires WellFormed(t) && Fits(t, 0) && Stops(rest, 0)
    ensures ParseAtom(ctx, Unparse(t) + rest) == Onto(Denote(ctx, t), rest)
    decreases t, 0
  {
    var ts := Unparse(t) + rest;
    if t.Group? {
      OrParses(ctx, t.inner, [RParen] + rest);
      GroupParses(ctx, Unparse(t.inner), Denote(ctx, t.inner), rest);
    } else if t.Application? {
      CallParses(ctx, t.callee, t.args, rest);
      var after := UnparseAll(t.args) + ([RParen] + rest);
      assert ts == [Ident(t.callee), LParen] + after;
      AtomCalls(ctx, t.callee, after);
    } else {
      assert ts[1..] == rest;
    }
  }

  lemma GroupParses(ctx: Context, us: seq<Token>, r: Result<Value, ExprError>, rest: seq<Token>)
    requires ParseOr(ctx, us + ([RParen] + rest)) == Onto(r, [RParen] + rest)
    ensures ParseAtom(ctx, [LParen] + us + [RParen] + rest) == Onto(r, rest)
  {
    var ts := [LParen] + us + [RParen] + rest;
    assert ts[0] == LParen && ts[1..] == us + ([RParen] + rest);
    assert ([RParen] + rest)[1..] == rest;
  }

  lemma AtomCalls(ctx: Context, name: string, after: seq<Token>)
    ensures ParseAtom(ctx, [Ident(name), LParen] + after) == ParseCall(ctx, name, after)
  {
    var ts := [Ident(name), LParen] + after;
    assert ts[2..] == after && ts[1..][0] == LParen;
  }

  function CallOn(ctx: Context, name: string, args: Result<seq<Value>, ExprError>): Result<Value, ExprError> {
    match args
    case Err(e) => Err(e)
    case Ok(vs) => Call(ctx, name, vs)
  }

  lemma {:induction false} CallParses(ctx: Context, name: string, args: Trees, rest: seq<Token>)
    requires AllWellFormed(args) && AllFit(args)
    ensures ParseCall(ctx, name, UnparseAll(args) + ([RParen] + rest))
            == Onto(CallOn(ctx, name, DenoteAll(ctx, args)), rest)
    decreases args, 7
  {
    var ts := UnparseAll(args) + ([RParen] + rest);
    if args.NoTrees? {
      assert ts[1..] == rest;
    } else {
      FirstToken(args.head);
      assert UnparseAll(args)[0] == Unparse(args.head)[0];
      ArgumentsParse(ctx, [], args, rest);
      var vs := DenoteAll(ctx, args);
      assert vs.Ok? ==> [] + vs.value == vs.value;
    }
  }

  lemma {:induction false} ArgumentsParse(ctx: Context, done: seq<Value>, args: Trees, rest: seq<Token>)
    requires AllWellFormed(args) && AllFit(args) && args.More?
    ensures ParseArguments(ctx, done, UnparseAll(args) + ([RParen] + rest))
            == OntoList(done, DenoteAll(ctx, args), rest)
    decreases args, 6
  {
    if args.tail.NoTrees? {
      OrParses(ctx, args.head, [RParen] + rest);
      assert ([RParen] + rest)[1..] == rest;
    } else {
      var after := UnparseAll(args.tail) + ([RParen] + rest);
      Behind(Unparse(args.head), Comma, UnparseAll(args.tail), [RParen] + rest);
      OrParses(ctx, args.head, [Comma] + after);
      var v := Denote(ctx, args.head);
      if v.Ok? {
        ArgumentsParse(ctx, done + [v.value], args.tail, rest);
        var vs := DenoteAll(ctx, args.tail);
        assert vs.Ok? ==> done + [v.value] + vs.value == done + ([v.value] + vs.value);
      }
    }
  }

  lemma {:induction false} PrimaryParses(ctx: Context, t: Tree, rest: seq<Token>)
    requires WellFormed(t) && Fits(t, 1) && Stops(rest, 1)
    ensures ParsePrimary(ctx, Unparse(t) + rest) == Onto(Denote(ctx, t), rest)
    decreases t, 1
  {
    if t.Path? {
      AtomAndPathParse(ctx, t, rest);
    } else {
      AtomParses(ctx, t, rest);
    }
  }

  lemma {:induction false} AtomAndPathParse(ctx: Context, t: Tree, rest: seq<Token>)
    requires WellFormed(t) && Fits(t, 1) && Stops(rest, 1) && t.Path?
    ensures ParsePrimary(ctx, Unparse(t) + rest) == Onto(Denote(ctx, t), rest)
    decreases t, 0
  {
    var after := Dotted(t.segments) + rest;
    assert Unparse(t) + rest == Unparse(t.base) + after;
    AtomParses(ctx, t.base, after);
    var v := Denote(ctx, t.base);
    if v.Ok? {
      PathParses(ctx, v.value, [], t.segments, rest);
      assert [] + t.segments == t.segments;
    }
  }

  lemma {:induction false} ComparisonParses(ctx: Context, t: Tree, rest: seq<Token>)
    requires WellFormed(t) && Fits(t, 2) && Stops(rest, 2)
    ensures ParseComparison(ctx, Unparse(t) + rest) == Onto(Denote(ctx, t), rest)
    decreases t, 2
  {
    if t.Comparison? {
      var after := [t.op] + (Unparse(t.right) + rest);
      PrimaryParses(ctx, t.left, after);
      PrimaryParses(ctx, t.right, rest);
      BothSidesParse(ctx, Unparse(t.left), t.op, Unparse(t.right), Denote(ctx, t.left), Denote(ctx, t.right), rest);
    } else {
      PrimaryParses(ctx, t, rest);
    }
  }

  lemma Behind(us: seq<Token>, op: Token, ws: seq<Token>, rest: seq<Token>)
    ensures us + [op] + ws + rest == us + ([op] + (ws + rest))
    ensures ([op] + (ws + rest))[1..] == ws + rest
  {
  }

  lemma BothSidesParse(ctx: Context, us: seq<Token>, op: Token, ws: seq<Token>, a: Result<Value, ExprError>,
                       b: Result<Value, ExprError>, rest: seq<Token>)
    requires IsComparison(op)
    requires ParsePrimary(ctx, us + ([op] + (ws + rest))) == Onto(a, [op] + (ws + rest))
    requires ParsePrimary(ctx, ws + rest) == Onto(b, rest)
    ensures ParseComparison(ctx, us + [op] + ws + rest)
            == Onto(Lift2(a, b, (x, y) => Bool(Compare(ctx.lib, op, x, y))), rest)
  {
    var after := [op] + (ws + rest);
    Behind(us, op, ws, rest);
    Compares(ctx, us + after, op, after, a, b, rest);
  }

  lemma Compares(ctx: Context, ts: seq<Token>, op: Token, after: seq<Token>, a: Result<Value, ExprError>,
                 b: Result<Value, ExprError>, rest: seq<Token>)
    requires IsComparison(op) && Next(after, op)
    requires ParsePrimary(ctx, ts) == Onto(a, after) && ParsePrimary(ctx, after[1..]) == Onto(b, rest)
    ensures ParseComparison(ctx, ts) == Onto(Lift2(a, b, (x, y) => Bool(Compare(ctx.lib, op, x, y))), rest)
  {
  }

  lemma {:induction false} NotParses(ctx: Context, t: Tree, rest: seq<Token>)
    requires WellFormed(t) && Fits(t, 3) && Stops(rest, 3)
    ensures ParseNot(ctx, Unparse(t) + rest) == Onto(Denote(ctx, t), rest)
    decreases t, 3
  {
    var ts := Unparse(t) + rest;
    if t.Negation? {
      assert ts[1..] == Unparse(t.operand) + rest;
      NotParses(ctx, t.operand, rest);
    } else {
      FirstToken(t);
      assert ts[0] == Unparse(t)[0];
      ComparisonParses(ctx, t, rest);
    }
  }

  /** A tree of `&&` level is read up to the loop over what follows it. */
  lemma {:induction false} AndParses(ctx: Context, t: Tree, rest: seq<Token>)
    requires WellFormed(t) && Fits(t, 4) && Stops(rest, 3)
    ensures ParseAnd(ctx, Unparse(t) + rest)
            == if Denote(ctx, t).Ok? then AndRest(ctx, Denote(ctx, t).value, rest) else Fail(Denote(ctx, t).error)
    decreases t, 4
  {
    if t.Both? {
      Behind(Unparse(t.left), And, Unparse(t.right), rest);
      AndParses(ctx, t.left, [And] + (Unparse(t.right) + rest));
      NotParses(ctx, t.right, rest);
    } else {
      NotParses(ctx, t, rest);
    }
  }

  /** A tree of `||` level is read up to the loop over what follows it. */
  lemma {:induction false} OrParses(ctx: Context, t: Tree, rest: seq<Token>)
    requires WellFormed(t) && Fits(t, 5) && Stops(rest, 4)
    ensures ParseOr(ctx, Unparse(t) + rest)
            == if Denote(ctx, t).Ok? then OrRest(ctx, Denote(ctx, t).value, rest) else Fail(Denote(ctx, t).error)
    decreases t, 5
  {
    if t.Either? {
      Behind(Unparse(t.left), Or, Unparse(t.right), rest);
      OrParses(ctx, t.left, [Or] + (Unparse(t.right) + rest));
      AndParses(ctx, t.right, rest);
    } else {
      AndParses(ctx, t, rest);
    }
  }

  lemma EvaluatesFitting(ctx: Context, t: Tree)
    requires WellFormed(t) && Fits(t, 5)
    ensures EvalTokens(ctx, Unparse(t)) == Denote(ctx, t)
  {
    OrParses(ctx, t, []);
    assert Unparse(t) + [] == Unparse(t);
  }

  // ---- parentheses where they are needed ----------------------------------------------------------

  /** `t` with a pair of parentheses around every operand that binds too
      loosely for its place, and around the whole if level `n` wants it. */
  function Grouped(t: Tree, n: nat): Tree {
    var u :=
      match t
      case Either(left, right) => Either(Grouped(left, 5), Grouped(right, 4))
      case Both(left, right) => Both(Grouped(left, 4), Grouped(right, 3))
      case Negation(operand) => Negation(Grouped(operand, 3))
      case Comparison(op, left, right) => Comparison(op, Grouped(left, 1), Grouped(right, 1))
      case Path(base, segments) => Path(Grouped(base, 0), segments)
      case Application(f, args) => Application(f, GroupedAll(args))
      case Group(inner) => Group(Grouped(inner, 5))
      case _ => t;
    if Level(t) <= n then u else Group(u)
  }

  function GroupedAll(ts: Trees): Trees {
    match ts
    case NoTrees => NoTrees
    case More(head, tail) => More(Grouped(head, 5), GroupedAll(tail))
  }

  lemma {:induction false} GroupedFits(t: Tree, n: nat)
    requires WellFormed(t)
    ensures WellFormed(Grouped(t, n)) && Fits(Grouped(t, n), n)
  {
    match t
    case Either(left, right) => GroupedFits(left, 5); GroupedFits(right, 4);
    case Both(left, right) => GroupedFits(left, 4); GroupedFits(right, 3);
    case Negation(operand) => GroupedFits(operand, 3);
    case Comparison(_, left, right) => GroupedFits(left, 1); GroupedFits(right, 1);
    case Path(base, _) => GroupedFits(base, 0);
    case Application(_, args) => AllGroupedFit(args);
    case Group(inner) => GroupedFits(inner, 5);
    case Literal(_) =>
    case Number(_) =>
    case Name(_) =>
  }

  lemma {:induction false} AllGroupedFit(ts: Trees)
    requires AllWellFormed(ts)
    ensures AllWellFormed(GroupedAll(ts)) && AllFit(GroupedAll(ts))
  {
    if ts.More? {
      GroupedFits(ts.head, 5);
      AllGroupedFit(ts.tail);
    }
  }

  lemma {:induction false} GroupingMeansTheSame(ctx: Context, t: Tree, n: nat)
    requires WellFormed(t)
    ensures WellFormed(Grouped(t, n)) && Denote(ctx, Grouped(t, n)) == Denote(ctx, t)
  {
    GroupedFits(t, n);
    match t
    case Either(left, right) => GroupingMeansTheSame(ctx, left, 5); GroupingMeansTheSame(ctx, right, 4);
    case Both(left, right) => GroupingMeansTheSame(ctx, left, 4); GroupingMeansTheSame(ctx, right, 3);
    case Negation(operand) => GroupingMeansTheSame(ctx, operand, 3);
    case Comparison(_, left, right) => GroupingMeansTheSame(ctx, left, 1); GroupingMeansTheSame(ctx, right, 1);
    case Path(base, _) => GroupingMeansTheSame(ctx, base, 0);
    case Application(_, args) => AllGroupingMeansTheSame(ctx, args);
    case Group(inner) => GroupingMeansTheSame(ctx, inner, 5);
    case Literal(_) =>
    case Number(_) =>
    case Name(_) =>
  }

  lemma {:induction false} AllGroupingMeansTheSame(ctx: Context, ts: Trees)
    requires AllWellFormed(ts)
    ensures AllWellFormed(GroupedAll(ts)) && DenoteAll(ctx, GroupedAll(ts)) == DenoteAll(ctx, ts)
  {
    if ts.More? {
      GroupingMeansTheSame(ctx, ts.head, 5);
      AllGroupingMeansTheSame(ctx, ts.tail);
    }
  }

  // ---- the meaning of every tree ---------------------------------------------------------------------

  /** Write any tree out with the parentheses it needs, in any legible way:
      the evaluator gives the tree's meaning, its errors included. */
  lemma EvaluatesEveryTree(ctx: Context, t: Tree, words: seq<Word>, end: string)
    requires WellFormed(t) && Legible(words, end) && TokensOf(words) == Unparse(Grouped(t, 5))
    ensures Eval(ctx, Written(words, end)) == Denote(ctx, t)
  {
    GroupedFits(t, 5);
    GroupingMeansTheSame(ctx, t, 5);
    EvaluatesFitting(ctx, Grouped(t, 5));
    ReadsBack(words, end);
  }

  /** A token that some text writes. */
  ghost predicate Writable(t: Token) {
    exists w :: IsLexeme(w, t)
  }

  /** Tokens a text can hold are written legibly with a blank behind each. */
  lemma {:induction false} EverythingCanBeWritten(ts: seq<Token>) returns (words: seq<Word>)
    requires forall i :: 0 <= i < |ts| ==> Writable(ts[i])
    ensures Legible(words, " ") && TokensOf(words) == ts && Written(words, " ")[0] == ' '
  {
    words := [];
    if ts != [] {
      var rest := EverythingCanBeWritten(ts[1..]);
      assert Writable(ts[0]);
      var w :| IsLexeme(w, ts[0]);
      OneMoreWord(w, ts[0], rest);
      words := [Word(" ", w, ts[0])] + rest;
    }
  }

  lemma OneMoreWord(w: string, t: Token, rest: seq<Word>)
    requires IsLexeme(w, t) && Legible(rest, " ") && StartsWith(Written(rest, " "), ' ')
    ensures var words := [Word(" ", w, t)] + rest;
            && Legible(words, " ") && TokensOf(words) == [t] + TokensOf(rest)
            && Written(words, " ") == " " + w + Written(rest, " ")
  {
    var words := [Word(" ", w, t)] + rest;
    assert words[1..] == rest;
    assert Ends(w, t, Written(rest, " "));
  }

  // ---- and nothing else evaluates ------------------------------------------------------------------------

  /** `t` is what was read of `ts` when `p` came out. */
  predicate ReadAs(ctx: Context, t: Tree, n: nat, ts: seq<Token>, p: Parsed) {
    p.Done? && WellFormed(t) && Fits(t, n) && Denote(ctx, t) == Ok(p.value) && Unparse(t) + p.rest == ts
  }

  lemma {:induction false} AtomRead(ctx: Context, ts: seq<Token>) returns (t: Tree)
    requires ParseAtom(ctx, ts).Done?
    ensures ReadAs(ctx, t, 0, ts, ParseAtom(ctx, ts))
    decreases |ts|, 0
  {
    var first := ts[0];
    if first.LParen? {
      var inner := OrRead(ctx, ts[1..]);
      GroupRead(ts, inner, ParseOr(ctx, ts[1..]).rest);
      t := Group(inner);
    } else if first.Quoted? {
      t := Literal(first.text);
    } else if first.Numeral? {
      t := Number(first.value);
    } else if !Next(ts[1..], LParen) {
      t := Name(first.name);
    } else {
      assert ts == [first, LParen] + ts[2..];
      AtomCalls(ctx, first.name, ts[2..]);
      t := CallRead(ctx, first.name, ts[2..]);
      Rejoin([first, LParen] + UnparseAll(t.args), [RParen], ParseAtom(ctx, ts).rest);
      Rejoin([first, LParen], UnparseAll(t.args), [RParen] + ParseAtom(ctx, ts).rest);
    }
  }

  lemma GroupRead(ts: seq<Token>, inner: Tree, rest: seq<Token>)
    requires Next(ts, LParen) && Next(rest, RParen) && ts[1..] == Unparse(inner) + rest
    ensures ts == Unparse(Group(inner)) + rest[1..]
  {
    assert rest == [RParen] + rest[1..] && ts == [LParen] + ts[1..];
    Rejoin(Unparse(inner), [RParen], rest[1..]);
    Rejoin([LParen], Unparse(inner) + [RParen], rest[1..]);
    Rejoin([LParen], Unparse(inner), [RParen]);
  }

  lemma {:induction false} CallRead(ctx: Context, name: string, ts: seq<Token>) returns (t: Tree)
    requires ParseCall(ctx, name, ts).Done?
    ensures t.Application? && t.callee == name && WellFormed(t) && Fits(t, 0)
    ensures Denote(ctx, t) == Ok(ParseCall(ctx, name, ts).value)
    ensures UnparseAll(t.args) + ([RParen] + ParseCall(ctx, name, ts).rest) == ts
    decreases |ts|, 7
  {
    if Next(ts, RParen) {
      t := Application(name, NoTrees);
    } else {
      var args := ArgumentsRead(ctx, [], ts);
      t := Application(name, args);
      var vs := DenoteAll(ctx, args).value;
      assert [] + vs == vs;
      Rejoin(UnparseAll(args), [RParen], ParseCall(ctx, name, ts).rest);
    }
  }

  lemma {:induction false} ArgumentsRead(ctx: Context, done: seq<Value>, ts: seq<Token>) returns (args: Trees)
    requires ParseArguments(ctx, done, ts).DoneList?
    ensures var p := ParseArguments(ctx, done, ts);
            && args.More? && AllWellFormed(args) && AllFit(args)
            && DenoteAll(ctx, args).Ok? && done + DenoteAll(ctx, args).value == p.values
            && UnparseAll(args) + [RParen] + p.rest == ts
    decreases |ts|, 6
  {
    var head := OrRead(ctx, ts);
    var p := ParseOr(ctx, ts);
    if Next(p.rest, Comma) {
      var tail := ArgumentsRead(ctx, done + [p.value], p.rest[1..]);
      args := More(head, tail);
      assert p.rest == [Comma] + p.rest[1..];
      var vs := DenoteAll(ctx, tail).value;
      assert done + [p.value] + vs == done + ([p.value] + vs);
      var rest := ParseArguments(ctx, done, ts).rest;
      ListRejoins(Unparse(head), UnparseAll(tail), [RParen], rest);
    } else {
      args := More(head, NoTrees);
      assert p.rest == [RParen] + p.rest[1..];
      assert [p.value] + [] == [p.value];
    }
  }

  lemma ListRejoins(head: seq<Token>, tail: seq<Token>, close: seq<Token>, rest: seq<Token>)
    ensures head + ([Comma] + (tail + close + rest)) == head + [Comma] + tail + close + rest
  {
  }

  lemma {:induction false} PathRead(ctx: Context, base: Value, done: seq<Token>, ts: seq<Token>)
    returns (segments: seq<Token>)
    requires AreSegments(done) && PathRest(ctx, base, Segments(ctx.lib, done), ts).Done?
    ensures var p := PathRest(ctx, base, Segments(ctx.lib, done), ts);
            && AreSegments(done + segments) && p.value == Walk(base, Segments(ctx.lib, done + segments))
            && Dotted(segments) + p.rest == ts
    decreases |ts|
  {
    segments := [];
    if Next(ts, Dot) {
      var s := ts[1];
      SegmentsAppend(ctx.lib, done, s);
      var more := PathRead(ctx, base, done + [s], ts[2..]);
      segments := [s] + more;
      Rejoin(done, [s], more);
      assert segments[1..] == more;
      assert ts == [Dot, s] + ts[2..];
      Rejoin([Dot, s], Dotted(more), PathRest(ctx, base, Segments(ctx.lib, done), ts).rest);
    } else {
      assert done + segments == done;
    }
  }

  lemma {:induction false} PrimaryRead(ctx: Context, ts: seq<Token>) returns (t: Tree)
    requires ParsePrimary(ctx, ts).Done?
    ensures ReadAs(ctx, t, 1, ts, ParsePrimary(ctx, ts))
    decreases |ts|, 1
  {
    var base := AtomRead(ctx, ts);
    var p := ParseAtom(ctx, ts);
    var segments := PathRead(ctx, p.value, [], p.rest);
    assert [] + segments == segments;
    t := Path(base, segments);
    Rejoin(Unparse(base), Dotted(segments), ParsePrimary(ctx, ts).rest);
  }

  lemma Rejoin(a: seq<Token>, b: seq<Token>, c: seq<Token>)
    ensures a + (b + c) == (a + b) + c
  {
  }

  lemma {:induction false} ComparisonRead(ctx: Context, ts: seq<Token>) returns (t: Tree)
    requires ParseComparison(ctx, ts).Done?
    ensures ReadAs(ctx, t, 2, ts, ParseComparison(ctx, ts))
    decreases |ts|, 2
  {
    t := PrimaryRead(ctx, ts);
    var rest := ParsePrimary(ctx, ts).rest;
    if rest != [] && IsComparison(rest[0]) {
      var right := PrimaryRead(ctx, rest[1..]);
      assert rest == [rest[0]] + rest[1..];
      Rejoin(Unparse(t), [rest[0]], rest[1..]);
      Rejoin(Unparse(t) + [rest[0]], Unparse(right), ParseComparison(ctx, ts).rest);
      t := Comparison(rest[0], t, right);
    }
  }

  lemma {:induction false} NotRead(ctx: Context, ts: seq<Token>) returns (t: Tree)
    requires ParseNot(ctx, ts).Done?
    ensures ReadAs(ctx, t, 3, ts, ParseNot(ctx, ts))
    decreases |ts|, 3
  {
    if Next(ts, Not) {
      var operand := NotRead(ctx, ts[1..]);
      t := Negation(operand);
      assert ts == [Not] + ts[1..];
    } else {
      t := ComparisonRead(ctx, ts);
    }
  }

  lemma {:induction false} AndRead(ctx: Context, ts: seq<Token>) returns (t: Tree)
    requires ParseAnd(ctx, ts).Done?
    ensures ReadAs(ctx, t, 4, ts, ParseAnd(ctx, ts))
    decreases |ts|, 4
  {
    var left := NotRead(ctx, ts);
    t := AndRestRead(ctx, left, ParseNot(ctx, ts).value, ParseNot(ctx, ts).rest);
  }

  lemma OperatorRead(a: seq<Token>, op: Token, b: seq<Token>, rest: seq<Token>, ts: seq<Token>)
    requires Next(ts, op) && ts[1..] == b + rest
    ensures a + ts == (a + [op] + b) + rest
  {
    assert ts == [op] + (b + rest);
    Rejoin(a, [op], b + rest);
    Rejoin(a + [op], b, rest);
  }

  lemma {:induction false} AndRestRead(ctx: Context, left: Tree, v: Value, ts: seq<Token>) returns (t: Tree)
    requires WellFormed(left) && Fits(left, 4) && Denote(ctx, left) == Ok(v) && AndRest(ctx, v, ts).Done?
    ensures ReadAs(ctx, t, 4, Unparse(left) + ts, AndRest(ctx, v, ts))
    decreases |ts|, 4
  {
    t := left;
    if Next(ts, And) {
      var right := NotRead(ctx, ts[1..]);
      var p := ParseNot(ctx, ts[1..]);
      t := AndRestRead(ctx, Both(left, right), AndThen(v, p.value), p.rest);
      OperatorRead(Unparse(left), And, Unparse(right), p.rest, ts);
    }
  }

  lemma {:induction false} OrRead(ctx: Context, ts: seq<Token>) returns (t: Tree)
    requires ParseOr(ctx, ts).Done?
    ensures ReadAs(ctx, t, 5, ts, ParseOr(ctx, ts))
    decreases |ts|, 5
  {
    var left := AndRead(ctx, ts);
    t := OrRestRead(ctx, left, ParseAnd(ctx, ts).value, ParseAnd(ctx, ts).rest);
  }

  lemma {:induction false} OrRestRead(ctx: Context, left: Tree, v: Value, ts: seq<Token>) returns (t: Tree)
    requires WellFormed(left) && Fits(left, 5) && Denote(ctx, left) == Ok(v) && OrRest(ctx, v, ts).Done?
    ensures ReadAs(ctx, t, 5, Unparse(left) + ts, OrRest(ctx, v, ts))
    decreases |ts|, 5
  {
    t := left;
    if Next(ts, Or) {
      var right := AndRead(ctx, ts[1..]);
      var p := ParseAnd(ctx, ts[1..]);
      t := OrRestRead(ctx, Either(left, right), OrElse(v, p.value), p.rest);
      OperatorRead(Unparse(left), Or, Unparse(right), p.rest, ts);
    }
  }

  /** An evaluation succeeds with `v` exactly when the text writes out some
      tree of the grammar that means `v`. */
  lemma EvaluatesExactly(ctx: Context, s: string, v: Value)
    ensures Eval(ctx, s) == Ok(v) <==>
            exists t: Tree :: WellFormed(t) && Fits(t, 5) && Denote(ctx, t) == Ok(v) && Tokens(s) == Ok(Unparse(t))
  {
    if Eval(ctx, s) == Ok(v) {
      var ts := Tokens(s).value;
      var t := OrRead(ctx, ts);
      assert Unparse(t) + [] == Unparse(t);
    }
    if t: Tree :| WellFormed(t) && Fits(t, 5) && Denote(ctx, t) == Ok(v) && Tokens(s) == Ok(Unparse(t)) {
      EvaluatesFitting(ctx, t);
    }
  }

  // ---- chains -----------------------------------------------------------------------------------------------

  function EitherAll(ts: seq<Tree>): Tree
    requires ts != []
  {
    if |ts| == 1 then ts[0] else Either(EitherAll(ts[..|ts| - 1]), ts[|ts| - 1])
  }

  function BothAll(ts: seq<Tree>): Tree
    requires ts != []
  {
    if |ts| == 1 then ts[0] else Both(BothAll(ts[..|ts| - 1]), ts[|ts| - 1])
  }

  ghost predicate AllDenote(ctx: Context, ts: seq<Tree>) {
    forall i :: 0 <= i < |ts| ==> WellFormed(ts[i]) && Denote(ctx, ts[i]).Ok?
  }

  /** `k` is the first operand whose truth is `stop`, or the last operand. */
  ghost predicate Decides(ctx: Context, ts: seq<Tree>, stop: bool, k: nat)
    requires AllDenote(ctx, ts)
  {
    && k < |ts|
    && (Truthy(Denote(ctx, ts[k]).value) == stop || k == |ts| - 1)
    && forall j :: 0 <= j < k ==> Truthy(Denote(ctx, ts[j]).value) != stop
  }

  /** `a || b || …` is its first truthy operand, else its last. */
  lemma {:induction false} OrChain(ctx: Context, ts: seq<Tree>, k: nat)
    requires ts != [] && AllDenote(ctx, ts) && Decides(ctx, ts, true, k)
    ensures WellFormed(EitherAll(ts)) && Denote(ctx, EitherAll(ts)) == Denote(ctx, ts[k])
  {
    if |ts| > 1 {
      var front := ts[..|ts| - 1];
      OrChain(ctx, front, if k == |front| then k - 1 else k);
    }
  }

  /** `a && b && …` is its first operand that is not truthy, else its last. */
  lemma {:induction false} AndChain(ctx: Context, ts: seq<Tree>, k: nat)
    requires ts != [] && AllDenote(ctx, ts) && Decides(ctx, ts, false, k)
    ensures WellFormed(BothAll(ts)) && Denote(ctx, BothAll(ts)) == Denote(ctx, ts[k])
  {
    if |ts| > 1 {
      var front := ts[..|ts| - 1];
      AndChain(ctx, front, if k == |front| then k - 1 else k);
    }
  }
}
