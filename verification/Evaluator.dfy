/** The recursive-descent evaluator of `src/expr.rs`: it computes values while it
    parses, and never builds a tree. */
module Evaluator {
  import opened Common
  import opened Text
  import opened Values
  import opened Tokenizer
  import Glob

  /** The scopes an expression reads. */
  datatype Context = Context(root: map<string, Value>, lib: Library)

  function Status(ctx: Context): string {
    if "__status" in ctx.root && ctx.root["__status"].Str? then ctx.root["__status"].s else "success"
  }

  function Lookup(ctx: Context, path: seq<string>): Value {
    if path == [] || path[0] !in ctx.root then Null else Walk(ctx.root[path[0]], path[1..])
  }

  // ---- functions ------------------------------------------------------------------

  function Argument(ctx: Context, args: seq<Value>, i: nat): string {
    if i < |args| then Display(ctx.lib, args[i]) else ""
  }

  function Format(lib: Library, out: string, args: seq<Value>, i: nat): string
    requires i <= |args|
    decreases |args| - i
  {
    if i == |args| then out
    else Format(lib, Replace(out, "{" + Decimal(i) + "}", Display(lib, args[i])), args, i + 1)
  }

  function Displays(lib: Library, vs: seq<Value>): (r: seq<string>)
    ensures |r| == |vs| && forall i :: 0 <= i < |vs| ==> r[i] == Display(lib, vs[i])
  {
    if vs == [] then [] else [Display(lib, vs[0])] + Displays(lib, vs[1..])
  }

  predicate Changed(ctx: Context, patterns: seq<string>) {
    var files := Lookup(ctx, ["ci", "changed_files"]);
    || !Truthy(Lookup(ctx, ["ci", "changes_known"]))
    || !files.Arr?
    || exists i, k :: 0 <= i < |patterns| && 0 <= k < |files.items|
                      && Glob.Matches(patterns[i], Display(ctx.lib, files.items[k]))
  }

  function Call(ctx: Context, name: string, args: seq<Value>): Result<Value, ExprError> {
    var first, second := Argument(ctx, args, 0), Argument(ctx, args, 1);
    match name
    case "contains" =>
      if |args| > 0 && args[0].Arr? then
        var item := if |args| > 1 then args[1] else Null;
        Ok(Bool(exists i :: 0 <= i < |args[0].items| && LooseEq(ctx.lib, args[0].items[i], item)))
      else Ok(Bool(Contains(first, second)))
    case "startsWith" => Ok(Bool(second <= first))
    case "endsWith" => Ok(Bool(|second| <= |first| && first[|first| - |second|..] == second))
    case "format" => Ok(Str(Format(ctx.lib, first, if args == [] then [] else args[1..], 0)))
    case "join" =>
      var sep := if |args| > 1 then second else ",";
      Ok(Str(if |args| > 0 && args[0].Arr? then Join(Displays(ctx.lib, args[0].items), sep) else first))
    case "toJSON" => Ok(Str(ctx.lib.jsonText(if |args| > 0 then args[0] else Null)))
    case "fromJSON" =>
      var parsed := ctx.lib.parseJson(first);
      Ok(if parsed.Some? then parsed.value else Null)
    case "changed" => Ok(Bool(Changed(ctx, Displays(ctx.lib, args))))
    case "success" => Ok(Bool(Status(ctx) == "success"))
    case "failure" => Ok(Bool(Status(ctx) == "failure"))
    case "cancelled" => Ok(Bool(Status(ctx) == "cancelled"))
    case "always" => Ok(Bool(true))
    case _ => Err(UnknownFunction(name))
  }

  function NameValue(ctx: Context, name: string): Value {
    match name
    case "true" => Bool(true)
    case "false" => Bool(false)
    case "null" => Null
    case _ => Lookup(ctx, [name])
  }

  // ---- operators -------------------------------------------------------------------

  predicate IsComparison(t: Token) {
    t.EqEq? || t.NotEq? || t.Gt? || t.Ge? || t.Lt? || t.Le?
  }

  predicate Compare(lib: Library, op: Token, a: Value, b: Value)
    requires IsComparison(op)
  {
    if op.EqEq? then LooseEq(lib, a, b)
    else if op.NotEq? then !LooseEq(lib, a, b)
    else
      var x, y := AsNumber(lib, a), AsNumber(lib, b);
      x.Some? && y.Some? &&
      match op
      case Gt => x.value > y.value
      case Ge => x.value >= y.value
      case Lt => x.value < y.value
      case _ => x.value <= y.value
  }

  function OrElse(a: Value, b: Value): Value {
    if Truthy(a) then a else b
  }

  function AndThen(a: Value, b: Value): Value {
    if Truthy(a) then b else a
  }

  // ---- the grammar, as a function of the tokens still to read --------------------------

  datatype Parsed = Done(value: Value, rest: seq<Token>) | Fail(error: ExprError)

  datatype ParsedList = DoneList(values: seq<Value>, rest: seq<Token>) | FailList(error: ExprError)

  predicate Next(ts: seq<Token>, t: Token) {
    ts != [] && ts[0] == t
  }

  function ParseOr(ctx: Context, ts: seq<Token>): (r: Parsed)
    ensures r.Done? ==> |r.rest| < |ts|
    decreases |ts|, 5
  {
    match ParseAnd(ctx, ts)
    case Fail(e) => Fail(e)
    case Done(v, rest) => OrRest(ctx, v, rest)
  }

  function OrRest(ctx: Context, left: Value, ts: seq<Token>): (r: Parsed)
    ensures r.Done? ==> |r.rest| <= |ts|
    decreases |ts|, 5
  {
    if !Next(ts, Or) then Done(left, ts)
    else
      match ParseAnd(ctx, ts[1..])
      case Fail(e) => Fail(e)
      case Done(right, rest) => OrRest(ctx, OrElse(left, right), rest)
  }

  function ParseAnd(ctx: Context, ts: seq<Token>): (r: Parsed)
    ensures r.Done? ==> |r.rest| < |ts|
    decreases |ts|, 4
  {
    match ParseNot(ctx, ts)
    case Fail(e) => Fail(e)
    case Done(v, rest) => AndRest(ctx, v, rest)
  }

  function AndRest(ctx: Context, left: Value, ts: seq<Token>): (r: Parsed)
    ensures r.Done? ==> |r.rest| <= |ts|
    decreases |ts|, 4
  {
    if !Next(ts, And) then Done(left, ts)
    else
      match ParseNot(ctx, ts[1..])
      case Fail(e) => Fail(e)
      case Done(right, rest) => AndRest(ctx, AndThen(left, right), rest)
  }

  function ParseNot(ctx: Context, ts: seq<Token>): (r: Parsed)
    ensures r.Done? ==> |r.rest| < |ts|
    decreases |ts|, 3
  {
    if Next(ts, Not) then
      match ParseNot(ctx, ts[1..])
      case Fail(e) => Fail(e)
      case Done(v, rest) => Done(Bool(!Truthy(v)), rest)
    else ParseComparison(ctx, ts)
  }

  function ParseComparison(ctx: Context, ts: seq<Token>): (r: Parsed)
    ensures r.Done? ==> |r.rest| < |ts|
    decreases |ts|, 2
  {
    match ParsePrimary(ctx, ts)
    case Fail(e) => Fail(e)
    case Done(left, rest) =>
      if rest == [] || !IsComparison(rest[0]) then Done(left, rest)
      else
        match ParsePrimary(ctx, rest[1..])
        case Fail(e) => Fail(e)
        case Done(right, after) => Done(Bool(Compare(ctx.lib, rest[0], left, right)), after)
  }

  function ParsePrimary(ctx: Context, ts: seq<Token>): (r: Parsed)
    ensures r.Done? ==> |r.rest| < |ts|
    decreases |ts|, 1
  {
    match ParseAtom(ctx, ts)
    case Fail(e) => Fail(e)
    case Done(base, rest) => PathRest(ctx, base, [], rest)
  }

  function PathRest(ctx: Context, base: Value, segments: seq<string>, ts: seq<Token>): (r: Parsed)
    ensures r.Done? ==> |r.rest| <= |ts|
    decreases |ts|
  {
    if !Next(ts, Dot) then Done(Walk(base, segments), ts)
    else if |ts| > 1 && (ts[1].Ident? || ts[1].Numeral?) then
      PathRest(ctx, base, segments + [SegmentOf(ctx.lib, ts[1])], ts[2..])
    else Fail(TrailingDot(Join(segments, ".")))
  }

  function SegmentOf(lib: Library, t: Token): string
    requires t.Ident? || t.Numeral?
  {
    if t.Ident? then t.name else Display(lib, Num(FromReal(t.value)))
  }

  function ParseAtom(ctx: Context, ts: seq<Token>): (r: Parsed)
    ensures r.Done? ==> |r.rest| < |ts|
    decreases |ts|, 0
  {
    if ts == [] then Fail(Unexpected(None))
    else
      match ts[0]
      case LParen => (
        match ParseOr(ctx, ts[1..])
        case Fail(e) => Fail(e)
        case Done(v, rest) => if Next(rest, RParen) then Done(v, rest[1..]) else Fail(UnclosedParen))
      case Quoted(s) => Done(Str(s), ts[1..])
      case Numeral(n) => Done(Num(FromReal(n)), ts[1..])
      case Ident(name) =>
        if !Next(ts[1..], LParen) then Done(NameValue(ctx, name), ts[1..])
        else ParseCall(ctx, name, ts[2..])
      case _ => Fail(Unexpected(Some(ts[0])))
  }

  /** A call, from behind its opening parenthesis. */
  function ParseCall(ctx: Context, name: string, ts: seq<Token>): (r: Parsed)
    ensures r.Done? ==> |r.rest| < |ts|
    decreases |ts|, 7
  {
    if Next(ts, RParen) then Called(ctx, name, [], ts[1..])
    else
      match ParseArguments(ctx, [], ts)
      case FailList(e) => Fail(e)
      case DoneList(args, rest) => Called(ctx, name, args, rest)
  }

  function Called(ctx: Context, name: string, args: seq<Value>, rest: seq<Token>): Parsed {
    match Call(ctx, name, args)
    case Err(e) => Fail(e)
    case Ok(v) => Done(v, rest)
  }

  function ParseArguments(ctx: Context, args: seq<Value>, ts: seq<Token>): (r: ParsedList)
    ensures r.DoneList? ==> |r.rest| < |ts|
    decreases |ts|, 6
  {
    match ParseOr(ctx, ts)
    case Fail(e) => FailList(e)
    case Done(v, rest) =>
      if Next(rest, Comma) then ParseArguments(ctx, args + [v], rest[1..])
      else if Next(rest, RParen) then DoneList(args + [v], rest[1..])
      else FailList(UnclosedParen)
  }

  function EvalTokens(ctx: Context, ts: seq<Token>): Result<Value, ExprError> {
    match ParseOr(ctx, ts)
    case Fail(e) => Err(e)
    case Done(v, rest) => if rest == [] then Ok(v) else Err(Trailing(rest[0]))
  }

  function Eval(ctx: Context, text: string): Result<Value, ExprError> {
    match Tokens(text)
    case Err(e) => Err(e)
    case Ok(ts) => EvalTokens(ctx, ts)
  }

  // ---- the run's own scope ---------------------------------------------------------------

  /** What the `ci` scope shows of a run. */
  datatype Run = Run(id: string, workflow: string, repository: string, gitRef: string, sha: string,
                     before: string, changes: Glob.Changes)

  function StripPrefix(s: string, prefix: string): string {
    if prefix <= s then s[|prefix|..] else s
  }

  function Paths(c: Glob.Changes): seq<string> {
    if c.Known? then c.paths else []
  }

  function Strings(ss: seq<string>): (vs: seq<Value>)
    ensures |vs| == |ss| && forall i :: 0 <= i < |ss| ==> vs[i] == Str(ss[i])
  {
    if ss == [] then [] else [Str(ss[0])] + Strings(ss[1..])
  }

  function CiScope(run: Option<Run>): Value {
    match run
    case None => Obj(map[])
    case Some(r) =>
      Obj(map[
        "sha" := Str(r.sha),
        "before" := Str(r.before),
        "ref" := Str(r.gitRef),
        "branch" := Str(StripPrefix(r.gitRef, "refs/heads/")),
        "repository" := Str(r.repository),
        "run_id" := Str(r.id),
        "workflow" := Str(r.workflow),
        "changed_files" := Arr(Strings(Paths(r.changes))),
        "changes_known" := Bool(r.changes.Known?),
        "changes_reason" := Str(if r.changes.Known? then "" else r.changes.reason)])
  }

  lemma CiScopeShowsChanges(ctx: Context, r: Run)
    requires "ci" in ctx.root && ctx.root["ci"] == CiScope(Some(r))
    ensures Lookup(ctx, ["ci", "changes_known"]) == Bool(r.changes.Known?)
    ensures Lookup(ctx, ["ci", "changed_files"]) == Arr(Strings(Paths(r.changes)))
  {
    var scope := CiScope(Some(r));
    var a, b := ["ci", "changes_known"], ["ci", "changed_files"];
    assert a[1..] == ["changes_known"] && b[1..] == ["changed_files"];
    assert Walk(scope, ["changes_known"]) == Property(scope, "changes_known");
    assert Walk(scope, ["changed_files"]) == Property(scope, "changed_files");
  }

  /** In a condition, `changed(p…)` is what the path filters compute for the
      same patterns, whether the run's changes are known or not. */
  lemma ChangedIsMatchesAny(ctx: Context, r: Run, args: seq<Value>)
    requires "ci" in ctx.root && ctx.root["ci"] == CiScope(Some(r))
    ensures Call(ctx, "changed", args) == Ok(Bool(Glob.MatchesAny(r.changes, Displays(ctx.lib, args))))
  {
    CallsChanged(ctx, args);
    CiScopeShowsChanges(ctx, r);
    if r.changes.Known? {
      ChangedOnKnown(ctx, r.changes.paths, Displays(ctx.lib, args));
    } else {
      ChangedOnUnknown(ctx, r.changes, Displays(ctx.lib, args));
    }
  }

  lemma CallsChanged(ctx: Context, args: seq<Value>)
    ensures Call(ctx, "changed", args) == Ok(Bool(Changed(ctx, Displays(ctx.lib, args))))
  {
  }

  lemma ChangedOnUnknown(ctx: Context, c: Glob.Changes, patterns: seq<string>)
    requires Lookup(ctx, ["ci", "changes_known"]) == Bool(false) && c.Unknown?
    ensures Changed(ctx, patterns) == Glob.MatchesAny(c, patterns)
  {
  }

  lemma ChangedOnKnown(ctx: Context, paths: seq<string>, patterns: seq<string>)
    requires Lookup(ctx, ["ci", "changes_known"]) == Bool(true)
    requires Lookup(ctx, ["ci", "changed_files"]) == Arr(Strings(paths))
    ensures Changed(ctx, patterns) == Glob.MatchesAny(Glob.Known(paths), patterns)
  {
    var files := Strings(paths);
    if i, k :| 0 <= i < |patterns| && 0 <= k < |files| && Glob.Matches(patterns[i], Display(ctx.lib, files[k])) {
      assert Glob.Matches(patterns[i], paths[k]);
    }
    if i, k :| 0 <= i < |patterns| && 0 <= k < |paths| && Glob.Matches(patterns[i], paths[k]) {
      assert Glob.Matches(patterns[i], Display(ctx.lib, files[k]));
    }
  }
}
