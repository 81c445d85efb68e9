/** What the marks of a job's steps say, what later steps see of earlier ones, and
    how the job ends. */
module StepRecords {
  import opened Common
  import opened Values
  import opened Evaluator
  import Substitution
  import opened Steps

  // ---- marks ----------------------------------------------------------------------

  /** How a step that ran is marked, and when the job goes on behind it: always if
      it succeeded, and otherwise only if it tolerates that, which a command that
      was lost never does. */
  lemma RanMeans(base: Context, steps: seq<Step>, turns: seq<Turn>, i: nat)
    requires |turns| == |steps| && i < |steps|
    requires Ran(Play(base, steps, turns, map[]).marks[i])
    ensures var m, step, e := Play(base, steps, turns, map[]).marks[i], steps[i], turns[i].ending;
            && (m == Succeeded <==> e.Exited? && (step.action || e.code == 0))
            && (PastSteps(base, steps, turns, i + 1).Some? <==>
                  m == Succeeded || (step.continueOnError && (step.action || e.Exited?)))
  {
    MarkedExactly(base, steps, turns, i);
  }

  /** How a step is marked that did not run though the job got to it. */
  lemma NotRunMeans(base: Context, steps: seq<Step>, turns: seq<Turn>, i: nat)
    requires |turns| == |steps| && i < |steps| && PastSteps(base, steps, turns, i).Some?
    requires !Ran(Play(base, steps, turns, map[]).marks[i])
    ensures var m, step := Play(base, steps, turns, map[]).marks[i], steps[i];
            var ctx := StepContext(base, PastSteps(base, steps, turns, i).value, "success");
            && (m == NotReached <==> turns[i].cancelled)
            && (!turns[i].cancelled ==>
                  && step.condition.Some?
                  && (m == Created <==> Substitution.EvalCondition(ctx, step.condition.value).Err?)
                  && (m == Skipped <==> Substitution.EvalCondition(ctx, step.condition.value) == Ok(false)))
            && (PastSteps(base, steps, turns, i + 1) ==
                  if m == Skipped then PastSteps(base, steps, turns, i) else None)
  {
    MarkedExactly(base, steps, turns, i);
  }

  // ---- records ---------------------------------------------------------------------------

  /** Step `k` leaves a record under `id`: a command with that id that ran to its
      end, well or badly. */
  ghost predicate Records(base: Context, steps: seq<Step>, turns: seq<Turn>, k: nat, id: string)
    requires |turns| == |steps| && k < |steps|
  {
    && steps[k].id == Some(id) && !steps[k].action && turns[k].ending.Exited?
    && Ran(Play(base, steps, turns, map[]).marks[k])
  }

  /** The outputs of a command and whether it ended well. */
  function RecordOf(e: Ending): Value
    requires e.Exited?
  {
    Obj(map["outputs" := e.outputs, "outcome" := Str(if e.code == 0 then "success" else "failure")])
  }

  /** Under `id` the one map shows what the other does. */
  ghost predicate SameUnder(id: string, a: map<string, Value>, b: map<string, Value>) {
    (id in a <==> id in b) && (id in a ==> a[id] == b[id])
  }

  lemma RecordedNow(base: Context, steps: seq<Step>, turns: seq<Turn>, k: nat, id: string)
    requires |turns| == |steps| && k < |steps| && PastSteps(base, steps, turns, k + 1).Some?
    ensures PastSteps(base, steps, turns, k).Some?
    ensures var before, after := PastSteps(base, steps, turns, k).value, PastSteps(base, steps, turns, k + 1).value;
            && (Records(base, steps, turns, k, id) ==> after == before[id := RecordOf(turns[k].ending)])
            && (!Records(base, steps, turns, k, id) ==> SameUnder(id, before, after))
  {
    MarkedExactly(base, steps, turns, k);
  }

  /** None of the steps from `a` up to `b` leaves a record under `id`. */
  ghost predicate Unrecorded(base: Context, steps: seq<Step>, turns: seq<Turn>, a: nat, b: nat, id: string)
    requires |turns| == |steps| && b <= |steps|
  {
    forall j :: a <= j < b ==> !Records(base, steps, turns, j, id)
  }

  lemma OneLess(base: Context, steps: seq<Step>, turns: seq<Turn>, a: nat, b: nat, id: string)
    requires |turns| == |steps| && a < b <= |steps| && Unrecorded(base, steps, turns, a, b, id)
    ensures !Records(base, steps, turns, b - 1, id) && Unrecorded(base, steps, turns, a, b - 1, id)
  {
  }

  /** What was recorded is seen as long as nothing else is recorded there. */
  lemma {:induction false} SeenOn(base: Context, steps: seq<Step>, turns: seq<Turn>, k: nat, i: nat, id: string)
    requires |turns| == |steps| && k <= i <= |steps| && PastSteps(base, steps, turns, i).Some?
    requires Unrecorded(base, steps, turns, k, i, id)
    ensures PastSteps(base, steps, turns, k).Some?
    ensures SameUnder(id, PastSteps(base, steps, turns, k).value, PastSteps(base, steps, turns, i).value)
    decreases i
  {
    if k < i {
      OneLess(base, steps, turns, k, i, id);
      RecordedNow(base, steps, turns, i - 1, id);
      SeenOn(base, steps, turns, k, i - 1, id);
    }
  }

  lemma JustRecorded(base: Context, steps: seq<Step>, turns: seq<Turn>, k: nat, id: string)
    requires |turns| == |steps| && k < |steps| && PastSteps(base, steps, turns, k + 1).Some?
    requires Records(base, steps, turns, k, id)
    ensures Shown(PastSteps(base, steps, turns, k + 1), id, turns[k].ending)
  {
    RecordedNow(base, steps, turns, k, id);
  }

  /** Under `id` stands how `e` ended. */
  ghost predicate Shown(seen: Option<map<string, Value>>, id: string, e: Ending) {
    seen.Some? && e.Exited? && id in seen.value && seen.value[id] == RecordOf(e)
  }

  lemma StillShown(a: Option<map<string, Value>>, b: Option<map<string, Value>>, id: string, e: Ending)
    requires a.Some? && b.Some? && SameUnder(id, a.value, b.value) && Shown(a, id, e)
    ensures Shown(b, id, e)
  {
  }

  /** A later step sees, under an id, the outputs and the outcome of the last step
      before it that left a record there. */
  lemma LastRecordIsSeen(base: Context, steps: seq<Step>, turns: seq<Turn>, k: nat, i: nat, id: string)
    requires |turns| == |steps| && k < i <= |steps| && PastSteps(base, steps, turns, i).Some?
    requires Records(base, steps, turns, k, id) && Unrecorded(base, steps, turns, k + 1, i, id)
    ensures Shown(PastSteps(base, steps, turns, i), id, turns[k].ending)
  {
    SeenOn(base, steps, turns, k + 1, i, id);
    JustRecorded(base, steps, turns, k, id);
    StillShown(PastSteps(base, steps, turns, k + 1), PastSteps(base, steps, turns, i), id, turns[k].ending);
  }

  /** And nothing where none did. */
  lemma NoRecordIsSeen(base: Context, steps: seq<Step>, turns: seq<Turn>, i: nat, id: string)
    requires |turns| == |steps| && i <= |steps| && PastSteps(base, steps, turns, i).Some?
    requires Unrecorded(base, steps, turns, 0, i, id)
    ensures id !in PastSteps(base, steps, turns, i).value
  {
    SeenOn(base, steps, turns, 0, i, id);
  }

  // ---- the end -------------------------------------------------------------------------------

  /** The job ends well exactly when every step was gone past, with what they
      recorded; otherwise the step it stopped at says why. */
  lemma EndsExactly(base: Context, steps: seq<Step>, turns: seq<Turn>)
    requires |turns| == |steps|
    ensures var end, past := Play(base, steps, turns, map[]).end, PastSteps(base, steps, turns, |steps|);
            (end.Ok? <==> past.Some?) && (past.Some? ==> end == Ok(past.value))
  {
    PlayPast(base, steps, turns, |steps|);
  }

  lemma StopsAt(base: Context, steps: seq<Step>, turns: seq<Turn>, h: nat)
    requires |turns| == |steps| && h < |steps|
    requires PastSteps(base, steps, turns, h).Some? && PastSteps(base, steps, turns, h + 1).None?
    ensures var all := Play(base, steps, turns, map[]);
            && all.end.Err? && all.marks[h] in {NotReached, Created, Failed}
            && (all.marks[h] == NotReached ==> all.end.error == Cancelled)
            && (all.marks[h] == Created ==> all.end.error.BadCondition?)
            && (all.marks[h] == Failed ==> all.end.error == StepFailed)
  {
    PlayPast(base, steps, turns, h);
    MarkedExactly(base, steps, turns, h);
    var past, all := PastSteps(base, steps, turns, h), Play(base, steps, turns, map[]);
    Unroll(base, steps, turns, h, past.value, all.marks[..h]);
  }
}
