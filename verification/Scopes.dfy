/** What names and paths find, and what the scopes of runs, jobs and steps show. */
module Scopes {
  import opened Common
  import opened Text
  import opened Values
  import opened Tokenizer
  import opened Evaluator
  import opened ExprTrees
  import opened Operators
  import Conditions
  import Steps
  import Substitution

  // ---- names and paths --------------------------------------------------------------

  /** The three constants are themselves, any other name is what the root has under
      it, or nothing. */
  lemma NamesFind(ctx: Context, name: string)
    ensures Denote(ctx, Name("true")) == Ok(Bool(true)) && Denote(ctx, Name("false")) == Ok(Bool(false))
    ensures Denote(ctx, Name("null")) == Ok(Null)
    ensures name !in {"true", "false", "null"} ==>
              Denote(ctx, Name(name)) == Ok(if name in ctx.root then ctx.root[name] else Null)
  {
    assert [name][1..] == [];
  }

  /** A property of an object is the value under its name, and an item of a list
      the value at its number; anything else, or what is not there, is nothing. */
  lemma PropertiesFind(v: Value, key: string, i: nat)
    ensures v.Obj? ==> Property(v, key) == if key in v.fields then v.fields[key] else Null
    ensures v.Arr? && i < |v.items| && i < 0x1_0000_0000_0000_0000 ==>
              Property(v, Decimal(i)) == v.items[i] && Property(v, "+" + Decimal(i)) == v.items[i]
    ensures v.Arr? && i >= |v.items| ==> Property(v, Decimal(i)) == Null
    ensures v.Arr? && (key == "" || !AllDigits(if key[0] == '+' then key[1..] else key)) ==> Property(v, key) == Null
    ensures !v.Obj? && !v.Arr? ==> Property(v, key) == Null
  {
    DecimalRoundTrip(i);
    assert ("+" + Decimal(i))[1..] == Decimal(i);
    assert Decimal(i)[0] != '+';
  }

  lemma IndexTooLarge(v: Value, i: nat)
    requires v.Arr? && i >= 0x1_0000_0000_0000_0000
    ensures Property(v, Decimal(i)) == Null
  {
    DecimalRoundTrip(i);
    assert Decimal(i)[0] != '+';
  }

  /** A path is followed property by property; a number in it reads as its digits. */
  lemma PathsFind(ctx: Context, t: Tree, v: Value, segments: seq<Token>, last: Token)
    requires Means(ctx, t, v) && AreSegments(segments) && IsSegment(last)
    ensures WellFormed(Path(t, segments)) && WellFormed(Path(t, segments + [last]))
    ensures Denote(ctx, Path(t, [])) == Ok(v)
    ensures var found := Denote(ctx, Path(t, segments));
            && found.Ok?
            && (last.Ident? ==>
                  Denote(ctx, Path(t, segments + [last])) == Ok(Property(found.value, last.name)))
            && (last.Numeral? && last.value == last.value.Floor as real && 0.0 <= last.value < 9007199254740992.0 ==>
                  Denote(ctx, Path(t, segments + [last])) == Ok(Property(found.value, Decimal(last.value.Floor))))
  {
    SegmentsAppend(ctx.lib, segments, last);
    WalkOn(v, Segments(ctx.lib, segments), [SegmentOf(ctx.lib, last)]);
  }

  /** What is looked up by a path of names is what the path means. */
  lemma LookupIsPath(ctx: Context, name: string, segments: seq<Token>)
    requires AreSegments(segments) && name !in {"true", "false", "null"}
    ensures Denote(ctx, Path(Name(name), segments)) == Ok(Lookup(ctx, [name] + Segments(ctx.lib, segments)))
  {
    var path := [name] + Segments(ctx.lib, segments);
    assert path[1..] == Segments(ctx.lib, segments);
    NamesFind(ctx, name);
    if name !in ctx.root {
      WalkNothing(Segments(ctx.lib, segments));
    }
  }

  lemma {:induction false} WalkNothing(segments: seq<string>)
    ensures Walk(Null, segments) == Null
  {
    if segments != [] { WalkNothing(segments[1..]); }
  }

  // ---- the run ------------------------------------------------------------------------

  lemma FieldShown(ctx: Context, fields: map<string, Value>, key: string)
    requires "ci" in ctx.root && ctx.root["ci"] == Obj(fields)
    ensures Lookup(ctx, ["ci", key]) == if key in fields then fields[key] else Null
  {
    var path := ["ci", key];
    assert path[1..] == [key] && [key][1..] == [];
    assert Walk(Obj(fields), [key]) == Walk(Property(Obj(fields), key), []);
  }

  /** `ci` shows the run under each of its names. */
  lemma CiShowsTheRun(ctx: Context, r: Run)
    requires "ci" in ctx.root && ctx.root["ci"] == CiScope(Some(r))
    ensures Lookup(ctx, ["ci", "repository"]) == Str(r.repository)
    ensures Lookup(ctx, ["ci", "run_id"]) == Str(r.id) && Lookup(ctx, ["ci", "workflow"]) == Str(r.workflow)
    ensures Lookup(ctx, ["ci", "changes_reason"]) == Str(if r.changes.Known? then "" else r.changes.reason)
  {
    var fields := CiScope(Some(r)).fields;
    FieldShown(ctx, fields, "repository");
    FieldShown(ctx, fields, "run_id");
    FieldShown(ctx, fields, "workflow");
    FieldShown(ctx, fields, "changes_reason");
  }

  /** And the commit it is for. */
  lemma CiShowsTheCommit(ctx: Context, r: Run)
    requires "ci" in ctx.root && ctx.root["ci"] == CiScope(Some(r))
    ensures Lookup(ctx, ["ci", "sha"]) == Str(r.sha) && Lookup(ctx, ["ci", "before"]) == Str(r.before)
    ensures Lookup(ctx, ["ci", "ref"]) == Str(r.gitRef)
  {
    var fields := CiScope(Some(r)).fields;
    FieldShown(ctx, fields, "sha");
    FieldShown(ctx, fields, "before");
    FieldShown(ctx, fields, "ref");
  }

  /** And its branch, without the prefix of branches where the reference has it. */
  lemma CiShowsTheBranch(ctx: Context, r: Run, branch: string)
    requires "ci" in ctx.root && ctx.root["ci"] == CiScope(Some(r))
    ensures r.gitRef == "refs/heads/" + branch ==> Lookup(ctx, ["ci", "branch"]) == Str(branch)
    ensures !("refs/heads/" <= r.gitRef) ==> Lookup(ctx, ["ci", "branch"]) == Str(r.gitRef)
  {
    FieldShown(ctx, CiScope(Some(r)).fields, "branch");
    if r.gitRef == "refs/heads/" + branch {
      assert r.gitRef[|"refs/heads/"|..] == branch;
    }
  }

  /** Of a run that cannot be read every property is nothing. */
  lemma UnreadRunShowsNothing(ctx: Context, key: string)
    requires "ci" in ctx.root && ctx.root["ci"] == CiScope(None)
    ensures Lookup(ctx, ["ci", key]) == Null
  {
    FieldShown(ctx, map[], key);
  }

  // ---- a job and its steps --------------------------------------------------------------------

  lemma UnderItsName(ctx: Context, name: string, path: seq<string>)
    ensures Lookup(ctx, [name] + path) == if name in ctx.root then Walk(ctx.root[name], path) else Null
  {
    assert ([name] + path)[1..] == path;
  }

  /** A job's condition sees the results of its needs, the run, and otherwise what
      it would see anyway. */
  lemma JobConditionSees(base: Context, needs: Value, ci: Value, anyFailed: bool, name: string, path: seq<string>)
    ensures var ctx := Conditions.JobContext(base, needs, ci, anyFailed);
            && ctx.lib == base.lib
            && Lookup(ctx, ["needs"] + path) == Walk(needs, path)
            && Lookup(ctx, ["ci"] + path) == Walk(ci, path)
            && (name !in {"needs", "ci", "__status"} ==> Lookup(ctx, [name] + path) == Lookup(base, [name] + path))
  {
    var ctx := Conditions.JobContext(base, needs, ci, anyFailed);
    UnderItsName(ctx, "needs", path);
    UnderItsName(ctx, "ci", path);
    UnderItsName(ctx, name, path);
    UnderItsName(base, name, path);
    assert "needs"[0] != "ci"[0] && "__status"[0] != "needs"[0] && "__status"[0] != "ci"[0];
  }

  /** A step's condition sees the recorded steps, and otherwise what it would see
      anyway. */
  lemma StepConditionSees(base: Context, outputs: map<string, Value>, status: string, name: string, path: seq<string>)
    ensures var ctx := Steps.StepContext(base, outputs, status);
            && ctx.lib == base.lib && Status(ctx) == status
            && Lookup(ctx, ["steps"] + path) == Walk(Obj(outputs), path)
            && (name !in {"steps", "__status"} ==> Lookup(ctx, [name] + path) == Lookup(base, [name] + path))
  {
    var ctx := Steps.StepContext(base, outputs, status);
    UnderItsName(ctx, "steps", path);
    UnderItsName(ctx, name, path);
    UnderItsName(base, name, path);
    assert "__status"[0] != "steps"[0];
  }

  /** What a step recorded under its id shows as its outputs and its outcome. */
  lemma RecordShows(outputs: map<string, Value>, id: string, found: Value, outcome: string, path: seq<string>)
    requires id in outputs && outputs[id] == Obj(map["outputs" := found, "outcome" := Str(outcome)])
    ensures Walk(Obj(outputs), [id, "outputs"] + path) == Walk(found, path)
    ensures Walk(Obj(outputs), [id, "outcome"]) == Str(outcome)
  {
    var record := outputs[id];
    assert ([id, "outputs"] + path)[1..] == ["outputs"] + path && (["outputs"] + path)[1..] == path;
    assert [id, "outcome"][1..] == ["outcome"] && ["outcome"][1..] == [];
    assert "outputs"[3] != "outcome"[3];
    assert Walk(Obj(outputs), [id, "outputs"] + path) == Walk(record, ["outputs"] + path);
    assert Walk(Obj(outputs), [id, "outcome"]) == Walk(record, ["outcome"]);
    assert Walk(record, ["outcome"]) == Walk(Str(outcome), []);
  }

  // ---- conditions ----------------------------------------------------------------------------

  lemma {:induction false} BlankTrims(text: string)
    requires forall i :: 0 <= i < |text| ==> IsBlank(text[i])
    ensures Trim(text) == ""
  {
    if text != "" { BlankTrims(text[1..]); }
  }

  /** A condition holds if it is blank, or if what is written there means something
      that counts as true; without a meaning it has no value. */
  lemma ConditionsDecide(ctx: Context, text: string)
    ensures (forall i :: 0 <= i < |text| ==> IsBlank(text[i])) ==> Substitution.EvalCondition(ctx, text) == Ok(true)
    ensures Trim(text) != "" && !(Substitution.OPEN <= Trim(text)) ==>
              Substitution.EvalCondition(ctx, text) ==
                if Eval(ctx, Trim(text)).Ok? then Ok(Eval(ctx, Trim(text)).value !in FALSY)
                else Err(Eval(ctx, Trim(text)).error)
  {
    if forall i :: 0 <= i < |text| ==> IsBlank(text[i]) {
      BlankTrims(text);
    } else if Eval(ctx, Trim(text)).Ok? {
      TruthyExactly(Eval(ctx, Trim(text)).value);
    }
  }
}
