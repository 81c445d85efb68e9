/** The `ci_job` table and the statements `src/store.rs` runs against it.

    Each statement is a function on the table; the class `Store` is the table as
    the program holds it, one method per statement, each proved to be that
    function of the old rows.  `JobProtocol` interleaves the same functions. */
module JobStore {
  import opened Common

  type JobId = string

  datatype Status = Pending | Queued | Running | Success | Failure | Skipped | Cancelled

  datatype Row = Row(status: Status, runner: Option<string>, sandbox: Option<string>, attempt: int)

  type Table = map<JobId, Row>

  predicate Terminal(s: Status) {
    s.Success? || s.Failure? || s.Skipped? || s.Cancelled?
  }

  /** What a job can end as. */
  type Final = s: Status | Terminal(s) witness Success

  /** Read by `should_run` as a reason not to run. */
  predicate Bad(s: Status) {
    s.Failure? || s.Cancelled?
  }

  // ---- what every statement keeps ---------------------------------------

  /** How far a status is from the start: not begun, begun, over. */
  function Stage(s: Status): nat {
    if Terminal(s) then 2 else if s.Running? then 1 else 0
  }

  /** No row disappears and none moves to an earlier stage, so in particular a
      terminal row stays terminal and a started one never goes back. */
  predicate Forward(t: Table, t': Table) {
    && t.Keys == t'.Keys
    && forall j :: j in t ==> Stage(t[j].status) <= Stage(t'[j].status)
  }

  lemma ForwardTransitive(a: Table, b: Table, c: Table)
    requires Forward(a, b) && Forward(b, c)
    ensures Forward(a, c)
  {
    forall j | j in a ensures Stage(a[j].status) <= Stage(c[j].status) {
      assert Stage(a[j].status) <= Stage(b[j].status);
      assert Stage(b[j].status) <= Stage(c[j].status);
    }
  }

  // ---- the statements ---------------------------------------------------

  predicate IsPending(t: Table, j: JobId) { j in t && t[j].status.Pending? }
  predicate IsQueued(t: Table, j: JobId) { j in t && t[j].status.Queued? }
  predicate IsOpen(t: Table, j: JobId) { j in t && !Terminal(t[j].status) }

  function Queue(t: Table, j: JobId): (r: Table)
    ensures Forward(t, r)
  {
    if IsPending(t, j) then t[j := t[j].(status := Queued)] else t
  }

  function Unqueue(t: Table, j: JobId): (r: Table)
    ensures Forward(t, r)
  {
    if IsQueued(t, j) then t[j := t[j].(status := Pending)] else t
  }

  function Claim(t: Table, j: JobId, runner: string, attempt: int): (r: Table)
    ensures Forward(t, r)
  {
    if IsOpen(t, j) then t[j := t[j].(status := Running, runner := Some(runner), attempt := attempt)] else t
  }

  function Start(t: Table, j: JobId, runner: string, sandbox: string, attempt: int): (r: Table)
    ensures Forward(t, r)
  {
    if IsOpen(t, j)
    then t[j := Row(Running, Some(runner), Some(sandbox), attempt)]
    else t
  }

  /** No guard on the current status: the last writer wins.  Every caller passes
      a final status; that, and not a guard in the statement, is why a finished
      job stays finished. */
  function SetStatus(t: Table, j: JobId, s: Final): (r: Table)
    ensures Forward(t, r)
  {
    if j in t then t[j := t[j].(status := s)] else t
  }

  function CancelAll(t: Table, jobs: set<JobId>): (r: Table)
    ensures Forward(t, r)
  {
    map j | j in t :: if j in jobs && !Terminal(t[j].status) then t[j].(status := Cancelled) else t[j]
  }

  // ---- how the statements go together -------------------------------------

  ghost predicate SameElsewhere(t: Table, t': Table, j: JobId) {
    t'.Keys == t.Keys && forall k :: k in t && k != j ==> t'[k] == t[k]
  }

  /** The life of a job, statement by statement, each of which leaves every other
      row alone. */
  lemma LifeOfAJob(t: Table, j: JobId, runner: string, sandbox: string, attempt: int, end: Final)
    requires IsPending(t, j)
    ensures var queued := Queue(t, j);
            var claimed := Claim(queued, j, runner, attempt);
            var started := Start(claimed, j, runner, sandbox, attempt);
            var over := SetStatus(started, j, end);
            && SameElsewhere(t, queued, j) && SameElsewhere(t, claimed, j)
            && SameElsewhere(t, started, j) && SameElsewhere(t, over, j)
            && queued[j] == t[j].(status := Queued) && Unqueue(queued, j) == t
            && claimed[j] == Row(Running, Some(runner), t[j].sandbox, attempt)
            && started[j] == Row(Running, Some(runner), Some(sandbox), attempt)
            && over[j] == Row(end, Some(runner), Some(sandbox), attempt)
  {
    assert Unqueue(Queue(t, j), j) == t;
  }

  /** The statements in front of the last leave alone what is not theirs to move:
      a row is queued only from pending, taken back only from queued, and claimed,
      started or cancelled only if it is not over. */
  lemma LeftAlone(t: Table, j: JobId, runner: string, sandbox: string, attempt: int, jobs: set<JobId>)
    ensures !(j in t && t[j].status == Pending) ==> Queue(t, j) == t
    ensures !(j in t && t[j].status == Queued) ==> Unqueue(t, j) == t
    ensures !(j in t && t[j].status in {Pending, Queued, Running}) ==>
              Claim(t, j, runner, attempt) == t && Start(t, j, runner, sandbox, attempt) == t
    ensures var c := CancelAll(t, jobs);
            && c.Keys == t.Keys
            && forall k :: k in t ==>
                 c[k] == if k in jobs && t[k].status in {Pending, Queued, Running} then t[k].(status := Cancelled)
                         else t[k]
  {
  }

  datatype RunStatus = RunActive | RunSuccess | RunFailure | RunCancelled

  class Store {
    var rows: Table
    var runs: map<string, RunStatus>

    constructor (jobs: set<JobId>, names: set<string>)
      ensures rows.Keys == jobs && runs.Keys == names
      ensures forall j :: j in jobs ==> rows[j] == Row(Pending, None, None, 1)
      ensures forall r :: r in names ==> runs[r] == RunActive
    {
      rows := map j | j in jobs :: Row(Pending, None, None, 1);
      runs := map r | r in names :: RunActive;
    }

    method QueueJob(j: JobId) returns (moved: bool)
      modifies this`rows
      ensures rows == Queue(old(rows), j)
      ensures moved == IsPending(old(rows), j)
      ensures Forward(old(rows), rows)
    {
      moved := IsPending(rows, j);
      if moved {
        rows := rows[j := rows[j].(status := Queued)];
      }
    }

    method UnqueueJob(j: JobId) returns (moved: bool)
      modifies this`rows
      ensures rows == Unqueue(old(rows), j)
      ensures moved == IsQueued(old(rows), j)
      ensures Forward(old(rows), rows)
    {
      moved := IsQueued(rows, j);
      if moved {
        rows := rows[j := rows[j].(status := Pending)];
      }
    }

    method ClaimJob(j: JobId, runner: string, attempt: int) returns (taken: bool)
      modifies this`rows
      ensures rows == Claim(old(rows), j, runner, attempt)
      ensures taken == IsOpen(old(rows), j)
      ensures Forward(old(rows), rows)
    {
      taken := IsOpen(rows, j);
      if taken {
        rows := rows[j := rows[j].(status := Running, runner := Some(runner), attempt := attempt)];
      }
    }

    method StartJob(j: JobId, runner: string, sandbox: string, attempt: int) returns (taken: bool)
      modifies this`rows
      ensures rows == Start(old(rows), j, runner, sandbox, attempt)
      ensures taken == IsOpen(old(rows), j)
      ensures Forward(old(rows), rows)
    {
      taken := IsOpen(rows, j);
      if taken {
        rows := rows[j := Row(Running, Some(runner), Some(sandbox), attempt)];
      }
    }

    method SetJobStatus(j: JobId, s: Final)
      modifies this`rows
      ensures rows == SetStatus(old(rows), j, s)
      ensures Forward(old(rows), rows)
    {
      if j in rows {
        rows := rows[j := rows[j].(status := s)];
      }
    }

    /** Of a run that is over, or unknown, nothing changes and nothing is
        counted; otherwise the run and each of its `jobs` that is not over. */
    method CancelRun(run: string, jobs: set<JobId>) returns (stopped: Option<nat>)
      modifies this
      ensures stopped.Some? <==> run in old(runs) && old(runs)[run] == RunActive
      ensures stopped.None? ==> rows == old(rows) && runs == old(runs)
      ensures stopped.Some? ==> runs == old(runs)[run := RunCancelled] && rows == CancelAll(old(rows), jobs)
      ensures stopped.Some? ==>
                stopped.value == |set j | j in old(rows) && j in jobs && !Terminal(old(rows)[j].status)|
      ensures Forward(old(rows), rows)
    {
      if run !in runs || runs[run] != RunActive {
        return None;
      }
      runs := runs[run := RunCancelled];
      var hit := set j | j in rows && j in jobs && !Terminal(rows[j].status);
      rows := map j | j in rows :: if j in hit then rows[j].(status := Cancelled) else rows[j];
      stopped := Some(|hit|);
      assert rows == CancelAll(old(rows), jobs);
    }
  }

  // ---- the scheduler's two summaries of a run's rows ---------------------

  /** One row as `jobs_of` returns it, reduced to what the summaries read. */
  datatype Cell = Cell(base: string, status: Status, outputs: map<string, string>)

  function Rank(s: Status): nat {
    match s
    case Success => 0
    case Skipped => 1
    case Pending | Queued | Running => 2
    case Cancelled => 3
    case Failure => 4
  }

  function WorseOf(a: Status, b: Status): Status {
    if Rank(b) > Rank(a) then b else a
  }

  /** What `needs.<base>` shows. */
  datatype Need = Need(result: Status, outputs: map<string, string>)

  /** Some cell of `base` shows `st`. */
  predicate Attained(cells: seq<Cell>, base: string, st: Status) {
    exists i :: 0 <= i < |cells| && cells[i].base == base && cells[i].status == st
  }

  /** The outputs of the cells of `base`, a later cell's over an earlier's. */
  function MergedOutputs(cells: seq<Cell>, base: string): map<string, string> {
    if cells == [] then map[]
    else
      var last := cells[|cells| - 1];
      MergedOutputs(cells[..|cells| - 1], base) + (if last.base == base then last.outputs else map[])
  }

  /** One cell more. */
  function Collapsed(result: map<string, Need>, c: Cell): map<string, Need> {
    var current := if c.base in result then result[c.base] else Need(Success, map[]);
    result[c.base := Need(WorseOf(current.result, c.status), current.outputs + c.outputs)]
  }

  function NeedsOf(cells: seq<Cell>): map<string, Need> {
    if cells == [] then map[] else Collapsed(NeedsOf(cells[..|cells| - 1]), cells[|cells| - 1])
  }

  /** For every base the worst of its cells, whatever order they come in. */
  lemma {:induction false} WorstCell(cells: seq<Cell>, b: string)
    ensures b in NeedsOf(cells) <==> exists i :: 0 <= i < |cells| && cells[i].base == b
    ensures b in NeedsOf(cells) ==> Attained(cells, b, NeedsOf(cells)[b].result)
    ensures forall i :: 0 <= i < |cells| && cells[i].base == b ==>
              Rank(cells[i].status) <= Rank(NeedsOf(cells)[b].result)
  {
    if cells != [] {
      var front, last := cells[..|cells| - 1], cells[|cells| - 1];
      WorstCell(front, b);
      AttainedOn(front, last, b, NeedsOf(front));
      assert cells == front + [last];
    }
  }

  lemma AttainedOn(front: seq<Cell>, last: Cell, b: string, before: map<string, Need>)
    requires b in before ==> Attained(front, b, before[b].result)
    ensures b in Collapsed(before, last) ==> Attained(front + [last], b, Collapsed(before, last)[b].result)
  {
    var cells := front + [last];
    assert cells[|front|] == last;
    if b in before {
      var i :| 0 <= i < |front| && front[i].base == b && front[i].status == before[b].result;
      assert cells[i] == front[i];
    }
  }

  lemma {:induction false} OutputsMerged(cells: seq<Cell>, b: string)
    ensures MergedOutputs(cells, b) == if b in NeedsOf(cells) then NeedsOf(cells)[b].outputs else map[]
  {
    if cells != [] {
      OutputsMerged(cells[..|cells| - 1], b);
    }
  }

  /** The `needs` context: the worst of each base's cells, and their outputs
      merged in row order. */
  method NeedsResults(cells: seq<Cell>) returns (result: map<string, Need>)
    ensures forall b :: b in result <==> exists i :: 0 <= i < |cells| && cells[i].base == b
    ensures forall i :: 0 <= i < |cells| ==>
              cells[i].base in result && Rank(cells[i].status) <= Rank(result[cells[i].base].result)
    ensures forall b :: b in result ==> Attained(cells, b, result[b].result)
    ensures forall b :: b in result ==> result[b].outputs == MergedOutputs(cells, b)
  {
    result := map[];
    for k := 0 to |cells|
      invariant result == NeedsOf(cells[..k])
    {
      assert cells[..k + 1][..k] == cells[..k];
      result := Collapsed(result, cells[k]);
    }
    assert cells[..|cells|] == cells;
    forall b
      ensures b in result <==> exists i :: 0 <= i < |cells| && cells[i].base == b
      ensures b in result ==> Attained(cells, b, result[b].result) && result[b].outputs == MergedOutputs(cells, b)
    {
      WorstCell(cells, b);
      OutputsMerged(cells, b);
    }
    forall i | 0 <= i < |cells|
      ensures cells[i].base in result && Rank(cells[i].status) <= Rank(result[cells[i].base].result)
    {
      WorstCell(cells, cells[i].base);
    }
  }

  /** The value of an output is that of the last cell of the base that sets it. */
  lemma {:induction false} LastCellWins(cells: seq<Cell>, base: string, k: string)
    ensures k in MergedOutputs(cells, base) <==>
            exists i :: 0 <= i < |cells| && cells[i].base == base && k in cells[i].outputs
    ensures forall i :: 0 <= i < |cells| && cells[i].base == base && k in cells[i].outputs
              && (forall m :: i < m < |cells| && cells[m].base == base ==> k !in cells[m].outputs)
              ==> MergedOutputs(cells, base)[k] == cells[i].outputs[k]
  {
    if cells != [] {
      var front := cells[..|cells| - 1];
      LastCellWins(front, base, k);
      assert forall i :: 0 <= i < |front| ==> front[i] == cells[i];
    }
  }

  /** `any_failed` of `should_run`. */
  predicate AnyFailed(needs: seq<string>, result: map<string, Need>) {
    exists n :: n in needs && n in result && Bad(result[n].result)
  }

  /** Whether a cell of a needed base reads as failed or cancelled. */
  predicate SomeCellBad(needs: seq<string>, cells: seq<Cell>) {
    exists i :: 0 <= i < |cells| && cells[i].base in needs && Bad(cells[i].status)
  }

  /** Collapsing a base to its worst cell loses nothing the default guard reads:
      whatever order the rows come in, the collapsed results fail exactly when
      some single cell did. */
  method DefaultGuard(needs: seq<string>, cells: seq<Cell>) returns (run: bool)
    ensures run <==> !SomeCellBad(needs, cells)
  {
    var result := NeedsResults(cells);
    run := !AnyFailed(needs, result);
    if SomeCellBad(needs, cells) {
      var i :| 0 <= i < |cells| && cells[i].base in needs && Bad(cells[i].status);
      assert cells[i] in cells;
      assert Bad(result[cells[i].base].result);
    }
  }

  /** The `terminal` map of `advance_run`: a base is done once every cell is. */
  method TerminalBases(cells: seq<Cell>) returns (done: map<string, bool>)
    ensures forall b :: b in done <==> exists i :: 0 <= i < |cells| && cells[i].base == b
    ensures forall b :: b in done ==>
              (done[b] <==> forall i :: 0 <= i < |cells| && cells[i].base == b ==> Terminal(cells[i].status))
  {
    done := map[];
    for k := 0 to |cells|
      invariant forall b :: b in done <==> exists i :: 0 <= i < k && cells[i].base == b
      invariant forall b :: b in done ==>
                  (done[b] <==> forall i :: 0 <= i < k && cells[i].base == b ==> Terminal(cells[i].status))
    {
      var b := cells[k].base;
      var t := Terminal(cells[k].status);
      done := done[b := if b in done then done[b] && t else t];
    }
  }
}
