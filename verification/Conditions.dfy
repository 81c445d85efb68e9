/** Conditions on the status so far, and the scheduler's use of them. */
module Conditions {
  import opened Common
  import opened Text
  import opened Values
  import opened Tokenizer
  import opened Evaluator
  import ExprTrees
  import Substitution
  import Glob

  lemma TokenThen(w: string, t: Token, tail: string)
    requires IsLexeme(w, t) && Ends(w, t, tail)
    ensures Tokens(w + tail) == After([t], Tokens(tail))
  {
    LexesBack(w, t, tail);
    assert (w + tail)[|w|..] == tail && (w + tail)[0] == w[0];
  }

  lemma CallTokens(name: string)
    requires IsLexeme(name, Ident(name))
    ensures Tokens(name + "()") == Ok([Ident(name), LParen, RParen])
  {
    TokenThen(")", RParen, "");
    TokenThen("(", LParen, ")");
    TokenThen(name, Ident(name), "()");
    assert ")" + "" == ")" && "(" + ")" == "()" && Tokens("") == Ok([]);
    assert [RParen] + [] == [RParen] && [LParen] + [RParen] == [LParen, RParen];
    assert [Ident(name)] + [LParen, RParen] == [Ident(name), LParen, RParen];
  }

  /** A call without arguments, written out, is evaluated as that call. */
  lemma CallText(ctx: Context, name: string)
    requires IsLexeme(name, Ident(name))
    ensures Eval(ctx, name + "()") == Call(ctx, name, [])
  {
    var t := ExprTrees.Application(name, ExprTrees.NoTrees);
    CallTokens(name);
    ExprTrees.EvaluatesFitting(ctx, t);
    assert ExprTrees.Unparse(t) == [Ident(name), LParen, RParen];
  }

  lemma NoTrim(name: string)
    requires IsLexeme(name, Ident(name))
    ensures Trim(name + "()") == name + "()" && !(Substitution.OPEN <= name + "()")
  {
    var s := name + "()";
    assert s[0] == name[0] && IsWordChar(s[0]) && s[|s| - 1] == ')';
  }

  lemma AlwaysHolds(ctx: Context)
    ensures Substitution.EvalCondition(ctx, "always()") == Ok(true)
  {
    var name := "always";
    assert name + "()" == "always()";
    AlwaysCall(ctx);
    ConditionIsCall(ctx, name);
  }

  lemma AlwaysCall(ctx: Context)
    ensures Call(ctx, "always", []) == Ok(Bool(true))
  {
  }

  // ---- a job's `if:` --------------------------------------------------------------------

  function JobContext(base: Context, needs: Value, ci: Value, anyFailed: bool): Context {
    var status := Str(if anyFailed then "failure" else "success");
    base.(root := base.root["needs" := needs]["ci" := ci]["__status" := status])
  }

  /** `should_run`: without an `if:`, only if nothing needed has failed. */
  function ShouldRun(base: Context, condition: Option<string>, needs: Value, ci: Value, anyFailed: bool)
    : Result<bool, ExprError>
  {
    if condition.None? then Ok(!anyFailed)
    else Substitution.EvalCondition(JobContext(base, needs, ci, anyFailed), condition.value)
  }

  lemma StatusCalls(ctx: Context, status: string)
    requires Status(ctx) == status
    ensures Call(ctx, "success", []) == Ok(Bool(status == "success"))
    ensures Call(ctx, "failure", []) == Ok(Bool(status == "failure"))
  {
  }

  lemma ConditionIsCall(ctx: Context, name: string)
    requires IsLexeme(name, Ident(name)) && Call(ctx, name, []).Ok?
    ensures Substitution.EvalCondition(ctx, name + "()") == Ok(Truthy(Call(ctx, name, []).value))
  {
    CallText(ctx, name);
    NoTrim(name);
  }

  lemma FailureCondition(ctx: Context)
    ensures Substitution.EvalCondition(ctx, "failure()") == Ok(Status(ctx) == "failure")
  {
    var name := "failure";
    assert name + "()" == "failure()";
    StatusCalls(ctx, Status(ctx));
    ConditionIsCall(ctx, name);
  }

  lemma SuccessCondition(ctx: Context)
    ensures Substitution.EvalCondition(ctx, "success()") == Ok(Status(ctx) == "success")
  {
    var name := "success";
    assert name + "()" == "success()";
    StatusCalls(ctx, Status(ctx));
    ConditionIsCall(ctx, name);
  }

  lemma JobStatus(base: Context, needs: Value, ci: Value, anyFailed: bool)
    ensures Status(JobContext(base, needs, ci, anyFailed)) == if anyFailed then "failure" else "success"
  {
  }

  /** A job that says `always()` runs whatever its needs came to, `failure()`
      exactly when one of them failed, and `success()` is the default. */
  lemma StatusConditions(base: Context, needs: Value, ci: Value, anyFailed: bool)
    ensures ShouldRun(base, Some("always()"), needs, ci, anyFailed) == Ok(true)
    ensures ShouldRun(base, Some("failure()"), needs, ci, anyFailed) == Ok(anyFailed)
    ensures ShouldRun(base, Some("success()"), needs, ci, anyFailed) == ShouldRun(base, None, needs, ci, anyFailed)
  {
    var ctx := JobContext(base, needs, ci, anyFailed);
    JobStatus(base, needs, ci, anyFailed);
    AlwaysHolds(ctx);
    FailureCondition(ctx);
    SuccessCondition(ctx);
  }

  /** A job's `changed(…)` sees the run's changes as the path filters do. */
  lemma JobSeesChanges(base: Context, needs: Value, run: Run, anyFailed: bool, args: seq<Value>)
    ensures Call(JobContext(base, needs, CiScope(Some(run)), anyFailed), "changed", args)
            == Ok(Bool(Glob.MatchesAny(run.changes, Displays(base.lib, args))))
  {
    ChangedIsMatchesAny(JobContext(base, needs, CiScope(Some(run)), anyFailed), run, args);
  }
}
