/** The run's own row: a roll-up of its jobs that is read in one statement and
    written in another. */
module JobRuns {
  import opened JobStore
  import opened JobProtocol
  import opened JobHands
  import opened JobEndings

  /** Every job of the run is over, and shows the ending it keeps. */
  ghost predicate AllFinal(p: Plan, s: State, run: string) {
    forall j :: j in p && p[j].run == run ==>
      j in s.rows && Terminal(s.rows[j].status) && OutOfHands(p, s, j, {s.rows[j].status})
  }

  /** The run's row says what its jobs come to. */
  ghost predicate Agrees(p: Plan, s: State, run: string) {
    run in s.runs && s.runs[run] == RunOf(Look(p, s.rows, run))
  }

  /** Nobody is about to write anything else to it. */
  ghost predicate RollUpsAgree(p: Plan, s: State, run: string) {
    forall pid :: pid in s.schedulers && s.schedulers[pid].RollingUp? && s.schedulers[pid].run == run ==>
      RunOf(s.schedulers[pid].view) == RunOf(Look(p, s.rows, run))
  }

  /** What agreement comes to: a run shows cancelled if any of its jobs does, else
      failure if any does, and success once all have succeeded or been skipped. */
  lemma AgreementShows(p: Plan, s: State, run: string)
    requires Agrees(p, s, run) && s.rows.Keys == p.Keys
    ensures var st, jobs := s.runs[run], set j | j in p && p[j].run == run;
            && (st == RunCancelled <==> exists j :: j in jobs && s.rows[j].status == Cancelled)
            && (st == RunFailure <==> && (forall j :: j in jobs ==> s.rows[j].status != Cancelled)
                                      && exists j :: j in jobs && s.rows[j].status == Failure)
            && (st == RunSuccess <==> forall j :: j in jobs ==> s.rows[j].status in {Success, Skipped})
            && (st == RunActive <==> && (forall j :: j in jobs ==> !Bad(s.rows[j].status))
                                     && exists j :: j in jobs && !Terminal(s.rows[j].status))
  {
    var v := Look(p, s.rows, run);
    assert forall j :: j in v <==> j in p && p[j].run == run;
  }

  // ---- once the jobs are final ------------------------------------------------------

  lemma FinalKept(p: Plan, s: State, e: Step, run: string)
    requires Enabled(p, s, e) && AllFinal(p, s, run)
    ensures AllFinal(p, Apply(p, s, e), run) && Look(p, Apply(p, s, e).rows, run) == Look(p, s.rows, run)
  {
    var s' := Apply(p, s, e);
    assert Forward(s.rows, s'.rows);
    forall j | j in p && p[j].run == run
      ensures j in s'.rows && s'.rows[j].status == s.rows[j].status
      ensures Terminal(s'.rows[j].status) && OutOfHands(p, s', j, {s'.rows[j].status})
    {
      StepKeepsHandsOff(p, s, e, j, {s.rows[j].status});
    }
  }

  lemma OverRunsAreNotActive(p: Plan, s: State, run: string)
    requires AllFinal(p, s, run)
    ensures RunOf(Look(p, s.rows, run)) != RunActive
  {
  }

  lemma RunRowMoves(p: Plan, s: State, e: Step, run: string)
    requires Enabled(p, s, e) && run in s.runs && s.runs[run] != RunActive
    ensures run in Apply(p, s, e).runs
    ensures Apply(p, s, e).runs[run] != s.runs[run] ==>
              && e.Schedule? && e.what.WriteRun? && e.pid in s.schedulers && s.schedulers[e.pid].RollingUp?
              && s.schedulers[e.pid].run == run && Apply(p, s, e).runs[run] == RunOf(s.schedulers[e.pid].view)
  {
    if e.Execute? {
      if e.act.Deliver? { DeliverFrame(s, e.pid, e.act.msg); } else { WorkFrame(s, e.pid, e.act); }
    }
  }

  lemma RollUpsMove(p: Plan, s: State, pid: nat, e: SchedulerStep, q: nat)
    requires CanSchedule(p, s, pid, e) && q in Scheduled(p, s, pid, e).schedulers
    requires Scheduled(p, s, pid, e).schedulers[q].RollingUp?
    ensures var y := Scheduled(p, s, pid, e).schedulers[q];
            (q in s.schedulers && s.schedulers[q] == y) || y.view == Look(p, s.rows, y.run)
  {
  }

  lemma AgreementKept(p: Plan, s: State, e: Step, run: string)
    requires Enabled(p, s, e) && AllFinal(p, s, run) && Agrees(p, s, run) && RollUpsAgree(p, s, run)
    ensures Agrees(p, Apply(p, s, e), run) && RollUpsAgree(p, Apply(p, s, e), run)
  {
    var s' := Apply(p, s, e);
    FinalKept(p, s, e, run);
    OverRunsAreNotActive(p, s, run);
    RunRowMoves(p, s, e, run);
    forall q | q in s'.schedulers && s'.schedulers[q].RollingUp? && s'.schedulers[q].run == run
      ensures RunOf(s'.schedulers[q].view) == RunOf(Look(p, s'.rows, run))
    {
      if e.Schedule? { RollUpsMove(p, s, e.pid, e.what, q); } else { OthersLeaveSchedulers(p, s, e); }
    }
  }

  lemma {:induction false} AgreementLasts(p: Plan, s: State, es: seq<Step>, run: string)
    requires Runs(p, s, es) && AllFinal(p, s, run) && Agrees(p, s, run) && RollUpsAgree(p, s, run)
    ensures Agrees(p, After(p, s, es), run)
    decreases |es|
  {
    if es != [] {
      FinalKept(p, s, es[0], run);
      AgreementKept(p, s, es[0], run);
      AgreementLasts(p, Apply(p, s, es[0]), es[1..], run);
    }
  }

  ghost predicate AlwaysAgrees(p: Plan, s: State, run: string) {
    forall es :: Runs(p, s, es) ==> Agrees(p, After(p, s, es), run)
  }

  lemma AgreesNow(p: Plan, s: State, run: string)
    requires AlwaysAgrees(p, s, run)
    ensures Agrees(p, s, run)
  {
    var none: seq<Step> := [];
    assert Runs(p, s, none) && After(p, s, none) == s;
  }

  /** Once the jobs of a run show the endings they keep, its row agrees with them
      from then on if and only if it does now, and no scheduler that has read the
      rows for the roll-up, and has not written it, read anything else in them. */
  lemma RunAgreesExactly(p: Plan, s: State, run: string)
    requires AllFinal(p, s, run)
    ensures AlwaysAgrees(p, s, run) <==> Agrees(p, s, run) && RollUpsAgree(p, s, run)
  {
    if Agrees(p, s, run) && RollUpsAgree(p, s, run) {
      forall es | Runs(p, s, es) ensures Agrees(p, After(p, s, es), run) {
        AgreementLasts(p, s, es, run);
      }
    } else if AlwaysAgrees(p, s, run) {
      AgreesNow(p, s, run);
      var pid :| pid in s.schedulers && s.schedulers[pid].RollingUp? && s.schedulers[pid].run == run
                 && RunOf(s.schedulers[pid].view) != RunOf(Look(p, s.rows, run));
      StaleWrite(p, s, pid, run);
    }
  }

  lemma StaleWrite(p: Plan, s: State, pid: nat, run: string)
    requires run in s.runs && pid in s.schedulers && s.schedulers[pid].RollingUp? && s.schedulers[pid].run == run
    requires RunOf(s.schedulers[pid].view) != RunOf(Look(p, s.rows, run))
    ensures !AlwaysAgrees(p, s, run)
  {
    var e := Schedule(pid, WriteRun);
    First(p, s, e, []);
    assert [e] + [] == [e];
    assert !Agrees(p, After(p, s, [e]), run);
  }

  // ---- a run that is never seen to end ---------------------------------------------------

  /** `j` is all there is to its run. */
  predicate Alone(p: Plan, j: JobId) {
    j in p && forall k :: k in p && p[k].run == p[j].run ==> k == j
  }

  lemma OneRow(p: Plan, t: Table, j: JobId)
    requires Alone(p, j) && j in t
    ensures Look(p, t, p[j].run) == map[j := t[j].status]
    ensures !Terminal(t[j].status) ==> RunOf(Look(p, t, p[j].run)) == RunActive
    ensures t[j].status == Success ==> RunOf(Look(p, t, p[j].run)) == RunSuccess
  {
    var v := Look(p, t, p[j].run);
    assert v == map[j := t[j].status];
    assert j in v;
  }

  /** Only deliveries and job rows have moved. */
  ghost predicate Beside(t: State, s: State) {
    && s.schedulers == t.schedulers && s.runs == t.runs && s.reapers == t.reapers && s.cancellers == t.cancellers
    && s.rows.Keys == t.rows.Keys
  }

  /** Only schedulers and run rows have moved. */
  ghost predicate Above(t: State, s: State) {
    && s.rows == t.rows && s.queue == t.queue && s.executors == t.executors && s.reapers == t.reapers
    && s.cancellers == t.cancellers
  }

  /** The one delivery is of `j`, from the one message, and at `ph`. */
  ghost predicate OnlyDelivery(s: State, j: JobId, ph: Phase) {
    && s.executors.Keys == {0} && s.executors[0].job == j && s.executors[0].msg == 0 && s.executors[0].phase == ph
    && s.queue.Keys == {0} && j in s.rows
  }

  lemma OverFrame(t: State, j: JobId)
    requires OnlyDelivery(t, j, InStep)
    ensures CanExecute(t, 0, StepsOver(true))
    ensures var s := Executed(t, 0, StepsOver(true)); OnlyDelivery(s, j, Closing(Success)) && Beside(t, s)
  {
  }

  lemma WriteFrame(t: State, j: JobId)
    requires OnlyDelivery(t, j, Closing(Success))
    ensures CanExecute(t, 0, WriteStatus)
    ensures var s := Executed(t, 0, WriteStatus);
            OnlyDelivery(s, j, Leaving) && Beside(t, s) && s.rows[j].status == Success
  {
  }

  lemma LeaveFrame(t: State, j: JobId)
    requires OnlyDelivery(t, j, Leaving)
    ensures CanExecute(t, 0, Leave)
    ensures var s := Executed(t, 0, Leave); OnlyDelivery(s, j, Settled) && Beside(t, s) && s.rows == t.rows
  {
  }

  lemma AckFrame(t: State, j: JobId)
    requires OnlyDelivery(t, j, Settled)
    ensures CanExecute(t, 0, Ack)
    ensures var s := Executed(t, 0, Ack);
            s.executors == map[] && s.queue == map[] && Beside(t, s) && s.rows == t.rows
  {
    assert t.executors - {0} == map[] && t.queue - {0} == map[];
  }

  /** The delivery ends well and is acknowledged. */
  lemma FinishIt(p: Plan, s0: State, es0: seq<Step>, t: State, j: JobId) returns (es: seq<Step>, s: State)
    requires Runs(p, s0, es0) && t == After(p, s0, es0) && j in p && OnlyDelivery(t, j, InStep)
    ensures Runs(p, s0, es) && s == After(p, s0, es) && Beside(t, s)
    ensures s.executors == map[] && s.queue == map[] && j in s.rows && s.rows[j].status == Success
  {
    OverFrame(t, j);
    es, s := Extend(p, s0, es0, t, Execute(0, StepsOver(true)));
    WriteFrame(s, j);
    es, s := Extend(p, s0, es, s, Execute(0, WriteStatus));
    LeaveFrame(s, j);
    es, s := Extend(p, s0, es, s, Execute(0, Leave));
    AckFrame(s, j);
    es, s := Extend(p, s0, es, s, Execute(0, Ack));
  }

  /** The queued job is delivered, does its steps and is acknowledged. */
  lemma RunsToItsEnd(p: Plan, s0: State, es0: seq<Step>, t: State, j: JobId) returns (es: seq<Step>, s: State)
    requires Runs(p, s0, es0) && t == After(p, s0, es0) && j in p && IsOpen(t.rows, j)
    requires t.queue == map[0 := Message(j, 0)] && t.executors == map[]
    ensures Runs(p, s0, es) && s == After(p, s0, es) && Beside(t, s)
    ensures s.executors == map[] && s.queue == map[] && j in s.rows && s.rows[j].status == Success
  {
    es, s := DeliverIt(p, s0, es0, t, j);
    es, s := WorkOnIt(p, s0, es, s, j);
    es, s := FinishIt(p, s0, es, s, j);
  }

  // -- schedulers, up to their roll-up

  lemma ReadRowsFrame(p: Plan, t: State, pid: nat)
    requires pid in t.schedulers && t.schedulers[pid].Deciding? && t.schedulers[pid].ahead == {}
    ensures CanSchedule(p, t, pid, ReadRows)
    ensures var s, run := Scheduled(p, t, pid, ReadRows), t.schedulers[pid].run;
            && Above(t, s) && s.runs == t.runs
            && s.schedulers == t.schedulers[pid := RollingUp(run, Look(p, t.rows, run))]
  {
  }

  lemma WriteRunFrame(p: Plan, t: State, pid: nat)
    requires pid in t.schedulers && t.schedulers[pid].RollingUp? && t.schedulers[pid].run in t.runs
    ensures CanSchedule(p, t, pid, WriteRun)
    ensures var s, x := Scheduled(p, t, pid, WriteRun), t.schedulers[pid];
            Above(t, s) && s.schedulers == t.schedulers - {pid} && s.runs == t.runs[x.run := RunOf(x.view)]
  {
  }

  lemma ReadJobsFrame(p: Plan, t: State, pid: nat, run: string)
    requires pid !in t.schedulers
    ensures var s := Scheduled(p, t, pid, ReadJobs(run));
            && Above(t, s) && s.runs == t.runs
            && s.schedulers == t.schedulers[pid := Reading(run, Look(p, t.rows, run))]
  {
  }

  lemma ReadNeedsFrame(p: Plan, t: State, pid: nat, run: string, v: View)
    requires pid in t.schedulers && t.schedulers[pid] == Reading(run, v) && v == Look(p, t.rows, run)
    ensures CanSchedule(p, t, pid, ReadNeeds)
    ensures var s := Scheduled(p, t, pid, ReadNeeds);
            Above(t, s) && s.runs == t.runs && s.schedulers == t.schedulers[pid := Deciding(run, v, v, v.Keys)]
  {
  }

  lemma PassFrame(p: Plan, t: State, pid: nat, run: string, v: View, j: JobId)
    requires pid in t.schedulers && t.schedulers[pid] == Deciding(run, v, v, {j}) && j in v && !v[j].Pending?
    ensures CanSchedule(p, t, pid, PassJob(j))
    ensures var s := Scheduled(p, t, pid, PassJob(j));
            Above(t, s) && s.runs == t.runs && s.schedulers == t.schedulers[pid := Deciding(run, v, v, {})]
  {
    assert {j} - {j} == {};
  }

  lemma PassOver(p: Plan, s0: State, es0: seq<Step>, t: State, run: string, v: View, j: JobId)
    returns (es: seq<Step>, s: State)
    requires Runs(p, s0, es0) && t == After(p, s0, es0) && j in v && !v[j].Pending?
    requires 1 in t.schedulers && t.schedulers[1] == Deciding(run, v, v, {j})
    ensures Runs(p, s0, es) && s == After(p, s0, es) && Above(t, s) && s.runs == t.runs
    ensures s.schedulers == t.schedulers[1 := Deciding(run, v, v, {})]
  {
    PassFrame(p, t, 1, run, v, j);
    es, s := Extend(p, s0, es0, t, Schedule(1, PassJob(j)));
  }

  lemma ReadOn(p: Plan, s0: State, es0: seq<Step>, t: State, run: string, v: View) returns (es: seq<Step>, s: State)
    requires Runs(p, s0, es0) && t == After(p, s0, es0) && v == Look(p, t.rows, run)
    requires 1 in t.schedulers && t.schedulers[1] == Reading(run, v)
    ensures Runs(p, s0, es) && s == After(p, s0, es) && Above(t, s) && s.runs == t.runs
    ensures s.schedulers == t.schedulers[1 := Deciding(run, v, v, v.Keys)]
  {
    ReadNeedsFrame(p, t, 1, run, v);
    es, s := Extend(p, s0, es0, t, Schedule(1, ReadNeeds));
  }

  lemma ReadAgain(p: Plan, s0: State, es0: seq<Step>, t: State, run: string) returns (es: seq<Step>, s: State)
    requires Runs(p, s0, es0) && t == After(p, s0, es0) && 1 !in t.schedulers
    ensures Runs(p, s0, es) && s == After(p, s0, es) && Above(t, s) && s.runs == t.runs
    ensures var v := Look(p, t.rows, run); s.schedulers == t.schedulers[1 := Deciding(run, v, v, v.Keys)]
  {
    var v := Look(p, t.rows, run);
    ReadJobsFrame(p, t, 1, run);
    es, s := Extend(p, s0, es0, t, Schedule(1, ReadJobs(run)));
    es, s := ReadOn(p, s0, es, s, run, v);
  }

  /** A scheduler starts, and finds the only job over. */
  lemma LookAgain(p: Plan, s0: State, es0: seq<Step>, t: State, j: JobId) returns (es: seq<Step>, s: State)
    requires Runs(p, s0, es0) && t == After(p, s0, es0) && Alone(p, j) && j in t.rows && t.rows[j].status == Success
    requires t.schedulers.Keys == {0}
    ensures Runs(p, s0, es) && s == After(p, s0, es) && Above(t, s) && s.runs == t.runs
    ensures s.schedulers.Keys == {0, 1} && s.schedulers[0] == t.schedulers[0]
    ensures s.schedulers[1].Deciding? && s.schedulers[1].run == p[j].run && s.schedulers[1].ahead == {}
  {
    var v := Look(p, t.rows, p[j].run);
    OneRow(p, t.rows, j);
    assert v.Keys == {j};
    es, s := ReadAgain(p, s0, es0, t, p[j].run);
    es, s := PassOver(p, s0, es, s, p[j].run, v, j);
  }

  /** Its roll-up says so, and then the older one is written over it. */
  lemma RollUpsCross(p: Plan, s0: State, es0: seq<Step>, t: State, j: JobId) returns (es: seq<Step>, s: State)
    requires Runs(p, s0, es0) && t == After(p, s0, es0) && j in p && p[j].run in t.runs
    requires t.schedulers.Keys == {0, 1} && t.schedulers[0].RollingUp? && t.schedulers[0].run == p[j].run
    requires t.schedulers[1].Deciding? && t.schedulers[1].run == p[j].run && t.schedulers[1].ahead == {}
    requires RunOf(t.schedulers[0].view) == RunActive
    ensures Runs(p, s0, es) && s == After(p, s0, es) && Above(t, s)
    ensures s.schedulers == map[] && p[j].run in s.runs && s.runs[p[j].run] == RunActive
  {
    ReadRowsFrame(p, t, 1);
    es, s := Extend(p, s0, es0, t, Schedule(1, ReadRows));
    WriteRunFrame(p, s, 1);
    es, s := Extend(p, s0, es, s, Schedule(1, WriteRun));
    WriteRunFrame(p, s, 0);
    es, s := Extend(p, s0, es, s, Schedule(0, WriteRun));
    assert s.schedulers == map[];
  }

  /** So the run and its jobs can disagree, and stay so: a roll-up read while the
      only job was queued and written after it ended leaves the run active, with
      its job over and nobody left to look at it. */
  lemma ARunCanBeLeftActive(p: Plan, s0: State, j: JobId) returns (es: seq<Step>)
    requires Init(p, s0) && Plain(p, j) && Alone(p, j)
    ensures Runs(p, s0, es)
    ensures var s := After(p, s0, es);
            && j in s.rows && s.rows[j].status == Success && p[j].run in s.runs && s.runs[p[j].run] == RunActive
            && s.schedulers == map[] && s.executors == map[] && s.queue == map[] && s.reapers == map[]
            && s.cancellers == map[]
  {
    var s;
    es, s := QueueIt(p, s0, j);
    OneRow(p, s0.rows, j);
    OneRow(p, s.rows, j);
    ReadRowsFrame(p, s, 0);
    es, s := Extend(p, s0, es, s, Schedule(0, ReadRows));
    es, s := RunsToItsEnd(p, s0, es, s, j);
    es, s := LookAgain(p, s0, es, s, j);
    es, s := RollUpsCross(p, s0, es, s, j);
  }
}
