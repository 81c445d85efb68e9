/** Running the steps of one job, as `run_steps` of `src/dispatch.rs` does it. */
module Steps {
  import opened Common
  import opened Values
  import opened Tokenizer
  import opened Evaluator
  import Substitution
  import Conditions

  /** `action` marks a step that `uses:` rather than runs a command. */
  datatype Step = Step(condition: Option<string>, action: bool, id: Option<string>, continueOnError: bool)

  /** What the world does when a step's turn comes: whether the job has been
      cancelled by then, and how the command or action would end. */
  datatype Turn = Turn(cancelled: bool, ending: Ending)

  datatype Ending = Exited(code: int, outputs: Value) | Broke(reason: string)

  /** What is left on a step's row. */
  datatype Mark = NotReached | Created | Skipped | Succeeded | Failed

  datatype Trouble = Cancelled | BadCondition(error: ExprError) | StepFailed

  /** The scopes a step sees; `status` is what `success()` and `failure()` read. */
  function StepContext(base: Context, outputs: map<string, Value>, status: string): Context {
    base.(root := base.root["steps" := Obj(outputs)]["__status" := Str(status)])
  }

  function Recorded(step: Step, e: Ending, outputs: map<string, Value>): map<string, Value> {
    if !step.action && e.Exited? && step.id.Some?
    then outputs[step.id.value := Obj(map["outputs" := e.outputs,
                                          "outcome" := Str(if e.code == 0 then "success" else "failure")])]
    else outputs
  }

  predicate EndsWell(step: Step, e: Ending) {
    e.Exited? && (step.action || e.code == 0)
  }

  /** A failure the job goes on after.  A command that was lost, rather than
      one that exited badly, is never tolerated. */
  predicate Tolerated(step: Step, e: Ending) {
    step.continueOnError && (step.action || e.Exited?)
  }

  // ---- the plain meaning -------------------------------------------------------------------

  datatype StepEnd = GoOn(mark: Mark, outputs: map<string, Value>) | Halt(mark: Mark, trouble: Trouble)

  function OneStep(base: Context, step: Step, turn: Turn, outputs: map<string, Value>): StepEnd {
    if turn.cancelled then Halt(NotReached, Cancelled)
    else
      var should := if step.condition.Some?
                    then Substitution.EvalCondition(StepContext(base, outputs, "success"), step.condition.value)
                    else Ok(true);
      if should.Err? then Halt(Created, BadCondition(should.error))
      else if !should.value then GoOn(Skipped, outputs)
      else if EndsWell(step, turn.ending) then GoOn(Succeeded, Recorded(step, turn.ending, outputs))
      else if Tolerated(step, turn.ending) then GoOn(Failed, Recorded(step, turn.ending, outputs))
      else Halt(Failed, StepFailed)
  }

  datatype Played = Played(marks: seq<Mark>, end: Result<map<string, Value>, Trouble>)

  function NoneReached(n: nat): (r: seq<Mark>)
    ensures |r| == n && forall i :: 0 <= i < n ==> r[i] == NotReached
  {
    if n == 0 then [] else [NotReached] + NoneReached(n - 1)
  }

  function Play(base: Context, steps: seq<Step>, turns: seq<Turn>, outputs: map<string, Value>): (r: Played)
    requires |turns| == |steps|
    ensures |r.marks| == |steps|
    decreases |steps|
  {
    if steps == [] then Played([], Ok(outputs))
    else
      match OneStep(base, steps[0], turns[0], outputs)
      case Halt(mark, trouble) => Played([mark] + NoneReached(|steps| - 1), Err(trouble))
      case GoOn(mark, more) =>
        var rest := Play(base, steps[1..], turns[1..], more);
        Played([mark] + rest.marks, rest.end)
  }

  // ---- the loop -----------------------------------------------------------------------------

  /** The source's loop, with its `failed` variable.  That it comes to `Play`,
      which never tells a step of an earlier failure, shows that `failed` is
      never set where a step's condition is looked at. */
  method RunSteps(base: Context, steps: seq<Step>, turns: seq<Turn>)
    returns (marks: seq<Mark>, end: Result<map<string, Value>, Trouble>)
    requires |turns| == |steps|
    ensures Played(marks, end) == Play(base, steps, turns, map[])
  {
    var outputs: map<string, Value> := map[];
    var failed := false;
    marks := [];
    var i: nat := 0;
    ghost var all := Play(base, steps, turns, map[]);
    assert steps[0..] == steps && turns[0..] == turns && [] + all.marks == all.marks;
    while i < |steps|
      invariant i <= |steps| && |marks| == i && !failed
      invariant Joined(marks, Play(base, steps[i..], turns[i..], outputs)) == all
    {
      var step, turn := steps[i], turns[i];
      assert steps[i..][1..] == steps[i + 1..] && turns[i..][1..] == turns[i + 1..];
      Unroll(base, steps, turns, i, outputs, marks);
      if turn.cancelled {
        return marks + [NotReached] + NoneReached(|steps| - i - 1), Err(Cancelled);
      }
      var ctx := StepContext(base, outputs, if failed then "failure" else "success");
      var should: bool;
      if step.condition.Some? {
        var v := Substitution.EvalCondition(ctx, step.condition.value);
        if v.Err? {
          return marks + [Created] + NoneReached(|steps| - i - 1), Err(BadCondition(v.error));
        }
        should := v.value;
      } else {
        should := !failed;
      }
      if !should {
        marks := marks + [Skipped];
      } else {
        outputs := Recorded(step, turn.ending, outputs);
        if EndsWell(step, turn.ending) {
          marks := marks + [Succeeded];
        } else {
          marks := marks + [Failed];
          if !Tolerated(step, turn.ending) {
            failed := true;
            marks := marks + NoneReached(|steps| - i - 1);
            break;
          }
        }
      }
      i := i + 1;
    }
    end := if failed then Err(StepFailed) else Ok(outputs);
    if !failed {
      assert steps[i..] == [] && marks + [] == marks;
    }
  }

  function Joined(front: seq<Mark>, rest: Played): Played {
    Played(front + rest.marks, rest.end)
  }

  lemma Unroll(base: Context, steps: seq<Step>, turns: seq<Turn>, i: nat, outputs: map<string, Value>, marks: seq<Mark>)
    requires |turns| == |steps| && i < |steps|
    ensures var e := OneStep(base, steps[i], turns[i], outputs);
            Joined(marks, Play(base, steps[i..], turns[i..], outputs))
            == if e.Halt? then Played(marks + [e.mark] + NoneReached(|steps| - i - 1), Err(e.trouble))
               else Joined(marks + [e.mark], Play(base, steps[i + 1..], turns[i + 1..], e.outputs))
  {
    var e := OneStep(base, steps[i], turns[i], outputs);
    assert steps[i..][1..] == steps[i + 1..] && turns[i..][1..] == turns[i + 1..];
    if e.Halt? {
      Rejoin(marks, e.mark, NoneReached(|steps| - i - 1));
    } else {
      Rejoin(marks, e.mark, Play(base, steps[i + 1..], turns[i + 1..], e.outputs).marks);
    }
  }

  lemma Rejoin(a: seq<Mark>, m: Mark, b: seq<Mark>)
    ensures a + ([m] + b) == a + [m] + b
  {
  }

  // ---- which steps run ------------------------------------------------------------------------

  predicate Ran(m: Mark) {
    m.Succeeded? || m.Failed?
  }

  /** The outputs collected when the first `i` steps have all been gone past. */
  function PastSteps(base: Context, steps: seq<Step>, turns: seq<Turn>, i: nat): Option<map<string, Value>>
    requires |turns| == |steps| && i <= |steps|
  {
    if i == 0 then Some(map[])
    else
      match PastSteps(base, steps, turns, i - 1)
      case None => None
      case Some(outputs) =>
        match OneStep(base, steps[i - 1], turns[i - 1], outputs)
        case Halt(_, _) => None
        case GoOn(_, more) => Some(more)
  }

  /** Where the first `i` steps leave the whole. */
  predicate Stands(base: Context, steps: seq<Step>, turns: seq<Turn>, i: nat, past: Option<map<string, Value>>,
                   all: Played)
    requires |turns| == |steps| && i <= |steps|
  {
    && |all.marks| == |steps|
    && (past.Some? ==> Joined(all.marks[..i], Play(base, steps[i..], turns[i..], past.value)) == all)
    && (past.None? ==> all.end.Err? && forall k :: i <= k < |steps| ==> all.marks[k] == NotReached)
  }

  lemma {:induction false} PlayPast(base: Context, steps: seq<Step>, turns: seq<Turn>, i: nat)
    requires |turns| == |steps| && i <= |steps|
    ensures Stands(base, steps, turns, i, PastSteps(base, steps, turns, i), Play(base, steps, turns, map[]))
  {
    if i == 0 {
      StandsAtStart(base, steps, turns);
    } else {
      PlayPast(base, steps, turns, i - 1);
      StandsNext(base, steps, turns, i, PastSteps(base, steps, turns, i - 1), Play(base, steps, turns, map[]));
    }
  }

  lemma StandsAtStart(base: Context, steps: seq<Step>, turns: seq<Turn>)
    requires |turns| == |steps|
    ensures Stands(base, steps, turns, 0, Some(map[]), Play(base, steps, turns, map[]))
  {
    var all := Play(base, steps, turns, map[]);
    assert steps[0..] == steps && turns[0..] == turns;
    assert all.marks[..0] + all.marks == all.marks;
  }

  lemma StandsNext(base: Context, steps: seq<Step>, turns: seq<Turn>, i: nat, before: Option<map<string, Value>>,
                   all: Played)
    requires |turns| == |steps| && 0 < i <= |steps| && Stands(base, steps, turns, i - 1, before, all)
    ensures before.None? ==> Stands(base, steps, turns, i, None, all)
    ensures before.Some? ==>
              var e := OneStep(base, steps[i - 1], turns[i - 1], before.value);
              Stands(base, steps, turns, i, if e.GoOn? then Some(e.outputs) else None, all)
  {
    if before.Some? {
      var front := all.marks[..i - 1];
      Unroll(base, steps, turns, i - 1, before.value, front);
      PastOne(all, front, OneStep(base, steps[i - 1], turns[i - 1], before.value), base, steps, turns, i);
    }
  }

  lemma PastOne(all: Played, front: seq<Mark>, e: StepEnd, base: Context, steps: seq<Step>, turns: seq<Turn>, i: nat)
    requires |turns| == |steps| && 0 < i <= |steps| && |all.marks| == |steps| && |front| == i - 1
    requires all == if e.Halt? then Played(front + [e.mark] + NoneReached(|steps| - i), Err(e.trouble))
                    else Joined(front + [e.mark], Play(base, steps[i..], turns[i..], e.outputs))
    ensures e.GoOn? ==> Joined(all.marks[..i], Play(base, steps[i..], turns[i..], e.outputs)) == all
    ensures e.Halt? ==> all.end.Err? && forall k :: i <= k < |steps| ==> all.marks[k] == NotReached
  {
    assert all.marks[..i] == front + [e.mark];
  }

  /** A step leaves the mark that its own turn gives, if every step before it
      was gone past, and is not reached otherwise, whatever its condition. */
  lemma MarkedExactly(base: Context, steps: seq<Step>, turns: seq<Turn>, i: nat)
    requires |turns| == |steps| && i < |steps|
    ensures var past := PastSteps(base, steps, turns, i);
            Play(base, steps, turns, map[]).marks[i]
            == if past.None? then NotReached else OneStep(base, steps[i], turns[i], past.value).mark
  {
    PlayPast(base, steps, turns, i);
    var past, all := PastSteps(base, steps, turns, i), Play(base, steps, turns, map[]);
    if past.Some? {
      Unroll(base, steps, turns, i, past.value, all.marks[..i]);
    }
  }

  // ---- teardown -------------------------------------------------------------------------------------

  /** The job goes on behind a step with this mark. */
  predicate Passed(step: Step, turn: Turn, m: Mark) {
    m.Skipped? || m.Succeeded? || (m.Failed? && Tolerated(step, turn.ending))
  }

  lemma PassedMeansGoOn(base: Context, step: Step, turn: Turn, outputs: map<string, Value>)
    ensures var e := OneStep(base, step, turn, outputs); e.GoOn? <==> Passed(step, turn, e.mark)
  {
  }

  /** One more step was gone past exactly when its mark says so. */
  lemma PastOneMore(base: Context, steps: seq<Step>, turns: seq<Turn>, i: nat)
    requires |turns| == |steps| && i < |steps|
    ensures PastSteps(base, steps, turns, i + 1).Some? <==>
            PastSteps(base, steps, turns, i).Some?
            && Passed(steps[i], turns[i], Play(base, steps, turns, map[]).marks[i])
  {
    MarkedExactly(base, steps, turns, i);
    var past := PastSteps(base, steps, turns, i);
    if past.Some? {
      PassedMeansGoOn(base, steps[i], turns[i], past.value);
    }
  }

  ghost predicate AllPassed(steps: seq<Step>, turns: seq<Turn>, marks: seq<Mark>, i: nat)
    requires |turns| == |steps| == |marks| && i <= |steps|
  {
    forall j :: 0 <= j < i ==> Passed(steps[j], turns[j], marks[j])
  }

  lemma PastExactly(base: Context, steps: seq<Step>, turns: seq<Turn>, i: nat)
    requires |turns| == |steps| && i <= |steps|
    ensures PastSteps(base, steps, turns, i).Some?
            <==> AllPassed(steps, turns, Play(base, steps, turns, map[]).marks, i)
  {
    var marks := Play(base, steps, turns, map[]).marks;
    var past := seq(|steps| + 1, k requires 0 <= k <= |steps| => PastSteps(base, steps, turns, k).Some?);
    forall k: nat | k < |steps| ensures past[k + 1] <==> past[k] && Passed(steps[k], turns[k], marks[k]) {
      PastOneMore(base, steps, turns, k);
    }
    PastCounts(steps, turns, marks, past, i);
  }

  lemma {:induction false} PastCounts(steps: seq<Step>, turns: seq<Turn>, marks: seq<Mark>, past: seq<bool>, i: nat)
    requires |turns| == |steps| == |marks| && i <= |steps| && |past| == |steps| + 1 && past[0]
    requires forall k: nat :: k < |steps| ==> (past[k + 1] <==> past[k] && Passed(steps[k], turns[k], marks[k]))
    ensures past[i] <==> AllPassed(steps, turns, marks, i)
  {
    if i > 0 {
      PastCounts(steps, turns, marks, past, i - 1);
      AllPassedNext(steps, turns, marks, i - 1);
    }
  }

  lemma AllPassedNext(steps: seq<Step>, turns: seq<Turn>, marks: seq<Mark>, i: nat)
    requires |turns| == |steps| == |marks| && i < |steps|
    ensures AllPassed(steps, turns, marks, i + 1) <==>
            AllPassed(steps, turns, marks, i) && Passed(steps[i], turns[i], marks[i])
  {
  }

  /** A step whose condition comes to `c` whatever the outputs so far: it runs
      exactly when `c` is true, the job is not cancelled by its turn, and every
      step before it was skipped, succeeded, or failed and is tolerated. */
  lemma RunsExactly(base: Context, steps: seq<Step>, turns: seq<Turn>, i: nat, c: bool)
    requires |turns| == |steps| && i < |steps| && steps[i].condition.Some?
    requires forall outputs ::
               Substitution.EvalCondition(StepContext(base, outputs, "success"), steps[i].condition.value) == Ok(c)
    ensures var marks := Play(base, steps, turns, map[]).marks;
            Ran(marks[i]) <==> c && !turns[i].cancelled && AllPassed(steps, turns, marks, i)
  {
    MarkedExactly(base, steps, turns, i);
    PastExactly(base, steps, turns, i);
  }

  lemma AlwaysRunsExactly(base: Context, steps: seq<Step>, turns: seq<Turn>, i: nat)
    requires |turns| == |steps| && i < |steps| && steps[i].condition == Some("always()")
    ensures var marks := Play(base, steps, turns, map[]).marks;
            Ran(marks[i]) <==> !turns[i].cancelled && AllPassed(steps, turns, marks, i)
  {
    forall outputs
      ensures Substitution.EvalCondition(StepContext(base, outputs, "success"), steps[i].condition.value) == Ok(true)
    {
      Conditions.AlwaysHolds(StepContext(base, outputs, "success"));
    }
    RunsExactly(base, steps, turns, i, true);
  }

  lemma StepStatus(base: Context, outputs: map<string, Value>)
    ensures Status(StepContext(base, outputs, "success")) == "success"
  {
  }

  /** `if: success()` is `if: always()`: it runs exactly when that would. */
  lemma SuccessRunsExactly(base: Context, steps: seq<Step>, turns: seq<Turn>, i: nat)
    requires |turns| == |steps| && i < |steps| && steps[i].condition == Some("success()")
    ensures var marks := Play(base, steps, turns, map[]).marks;
            Ran(marks[i]) <==> !turns[i].cancelled && AllPassed(steps, turns, marks, i)
  {
    forall outputs
      ensures Substitution.EvalCondition(StepContext(base, outputs, "success"), steps[i].condition.value) == Ok(true)
    {
      StepStatus(base, outputs);
      Conditions.SuccessCondition(StepContext(base, outputs, "success"));
    }
    RunsExactly(base, steps, turns, i, true);
  }

  /** A step that says `if: failure()` never runs, whatever fails before it. */
  lemma FailureNeverRuns(base: Context, steps: seq<Step>, turns: seq<Turn>, i: nat)
    requires |turns| == |steps| && i < |steps| && steps[i].condition == Some("failure()")
    ensures !Ran(Play(base, steps, turns, map[]).marks[i])
  {
    forall outputs
      ensures Substitution.EvalCondition(StepContext(base, outputs, "success"), steps[i].condition.value) == Ok(false)
    {
      StepStatus(base, outputs);
      Conditions.FailureCondition(StepContext(base, outputs, "success"));
    }
    RunsExactly(base, steps, turns, i, false);
  }

  /** So it does not get teardown to run: behind any step the job does not go
      on after, no step is reached, whatever its condition. */
  lemma TeardownDoesNotRun(base: Context, steps: seq<Step>, turns: seq<Turn>, h: nat, i: nat)
    requires |turns| == |steps| && h < i < |steps|
    requires !Passed(steps[h], turns[h], Play(base, steps, turns, map[]).marks[h])
    ensures Play(base, steps, turns, map[]).marks[i] == NotReached
  {
    PastExactly(base, steps, turns, i);
    MarkedExactly(base, steps, turns, i);
  }

  /** As in: a command that exits with 1, and a teardown behind it. */
  lemma TeardownLeftOut(base: Context, outputs: Value)
    ensures var steps := [Step(None, false, None, false), Step(Some("always()"), false, None, false)];
            var turns := [Turn(false, Exited(1, outputs)), Turn(false, Exited(0, outputs))];
            Play(base, steps, turns, map[]).marks == [Failed, NotReached]
  {
    var steps := [Step(None, false, None, false), Step(Some("always()"), false, None, false)];
    var turns := [Turn(false, Exited(1, outputs)), Turn(false, Exited(0, outputs))];
    assert OneStep(base, steps[0], turns[0], map[]) == Halt(Failed, StepFailed);
    assert Play(base, steps, turns, map[]).marks == [Failed] + NoneReached(1);
  }
}
