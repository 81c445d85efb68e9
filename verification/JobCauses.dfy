/** Why a job shows what it shows: in every run, each status a row can reach was
    written by a step that had the reason the program gives for it. */
module JobCauses {
  import opened Common
  import opened JobStore
  import opened JobProtocol

  // ---- the reasons ----------------------------------------------------------------

  /** In this snapshot every base `j` needs has a cell, and all its cells are over. */
  ghost predicate ShownOver(p: Plan, v: View, j: JobId)
    requires j in p
  {
    forall n :: n in p[j].needs ==>
      && (exists c :: c in v && c in p && p[c].base == n)
      && (forall c :: c in v && c in p && p[c].base == n ==> v[c] in {Success, Failure, Skipped, Cancelled})
  }

  /** In this one some cell `j` needs failed or was cancelled. */
  ghost predicate ShownFailed(p: Plan, v: View, j: JobId)
    requires j in p
  {
    exists c :: c in v && c in p && p[c].base in p[j].needs && v[c] in {Failure, Cancelled}
  }

  /** A scheduler has come to `j`, which it read as pending. */
  ghost predicate At(p: Plan, x: Scheduler, j: JobId) {
    x.Deciding? && j in x.ahead && j in p && j in x.view && x.view[j] == Pending
  }

  /** Its plan can be read, its needs are over, and the condition says to skip:
      the job's own or, without one, that a need failed. */
  ghost predicate SaysSkip(p: Plan, x: Scheduler, j: JobId, other: nat) {
    && At(p, x, j) && p[j].readable && ShownOver(p, x.view, j)
    && match p[j].guard
       case Some(guard) => guard(x.needs, other) == ToSkip
       case None => ShownFailed(p, x.needs, j)
  }

  ghost predicate SaysRun(p: Plan, x: Scheduler, j: JobId, other: nat) {
    && At(p, x, j) && p[j].readable && ShownOver(p, x.view, j)
    && match p[j].guard
       case Some(guard) => guard(x.needs, other) == ToRun
       case None => !ShownFailed(p, x.needs, j)
  }

  /** Its plan cannot be read, or its needs are over and the condition does not
      say to skip, so that it has no value or routing may refuse the job. */
  ghost predicate SaysRefuse(p: Plan, x: Scheduler, j: JobId, other: nat) {
    && At(p, x, j)
    && (p[j].readable ==>
          && ShownOver(p, x.view, j)
          && match p[j].guard
             case Some(guard) => guard(x.needs, other) != ToSkip
             case None => !ShownFailed(p, x.needs, j))
  }

  ghost predicate BySchedule(p: Plan, s: State, pid: nat, what: SchedulerStep, j: JobId, st: Status)
    requires j in s.rows
  {
    && pid in s.schedulers
    && var x := s.schedulers[pid];
       match what
       case SkipJob(k, other) => k == j && st == Skipped && SaysSkip(p, x, j, other)
       case RefuseJob(k, other) => k == j && st == Failure && SaysRefuse(p, x, j, other)
       case QueueJob(k, other) => k == j && st == Queued && s.rows[j].status == Pending && SaysRun(p, x, j, other)
       case Rollback => x.RollingBack? && x.job == j && st == Pending && s.rows[j].status == Queued
       case _ => false
  }

  ghost predicate ByExecute(s: State, pid: nat, act: ExecutorStep, j: JobId, st: Status) {
    && pid in s.executors && s.executors[pid].job == j
    && var x := s.executors[pid];
       match act
       case ClaimRow(_) => st == Running && x.phase.Open?
       case StartRow => st == Running && x.phase.Holding?
       case WriteStatus => x.phase.Closing? && x.phase.status == st
       case GiveUp(written) => st == Failure && written && x.phase.Broken? && x.attempt >= 4
       case _ => false
  }

  /** Step `e` may write `st` on `j` in state `s`, and why. */
  ghost predicate Cause(p: Plan, s: State, e: Step, j: JobId, st: Status)
    requires j in s.rows
  {
    match e
    case Schedule(pid, what) => BySchedule(p, s, pid, what, j, st)
    case Execute(pid, act) => ByExecute(s, pid, act, j, st)
    case ReapFail(pid, k, written) => k == j && written && st == Failure && pid in s.reapers && j in s.reapers[pid]
    case CancelJobs(pid) =>
      && pid in s.cancellers && j in p && p[j].run == s.cancellers[pid] && st == Cancelled
      && s.rows[j].status in {Pending, Queued, Running}
    case _ => false
  }

  // ---- where processes start, and what is put on record --------------------------------

  /** A scheduler starts on a snapshot of the run. */
  lemma SchedulersStart(p: Plan, s: State, pid: nat, run: string)
    ensures Enabled(p, s, Schedule(pid, ReadJobs(run))) <==> pid !in s.schedulers
    ensures pid !in s.schedulers ==>
              var t := Scheduled(p, s, pid, ReadJobs(run));
              && t.rows == s.rows && t.schedulers.Keys == s.schedulers.Keys + {pid}
              && t.schedulers[pid].Reading? && t.schedulers[pid].run == run
              && forall j, st :: (j, st) in t.schedulers[pid].view.Items <==>
                                 j in p && p[j].run == run && j in s.rows && s.rows[j].status == st
  {
  }

  /** A delivery starts from a message that has one left. */
  lemma DeliveriesStart(p: Plan, s: State, pid: nat, m: nat)
    ensures Enabled(p, s, Execute(pid, Deliver(m))) <==>
            pid !in s.executors && m in s.queue && s.queue[m].deliveries < 4
    ensures pid !in s.executors && m in s.queue && s.queue[m].deliveries < 4 ==>
              var t, n := Executed(s, pid, Deliver(m)), s.queue[m].deliveries + 1;
              && t.rows == s.rows && t.queue == s.queue[m := Message(s.queue[m].job, n)]
              && t.executors == s.executors[pid := Executor(m, s.queue[m].job, n, !IsOpen(s.rows, s.queue[m].job),
                                                            Fetched)]
  {
  }

  /** A reaper starts with queued jobs of active runs. */
  lemma ReapersStart(p: Plan, s: State, pid: nat, jobs: set<JobId>)
    ensures Enabled(p, s, ReapRead(pid, jobs)) <==>
            pid !in s.reapers && forall j :: j in jobs ==>
              j in p && j in s.rows && s.rows[j].status == Queued && (p[j].run, RunActive) in s.runs.Items
    ensures Enabled(p, s, ReapRead(pid, jobs)) ==>
              Apply(p, s, ReapRead(pid, jobs)) == s.(reapers := s.reapers[pid := jobs])
  {
  }

  /** A cancel starts with an active run, which shows it at once; its jobs do by
      the next statement. */
  lemma CancelsStart(p: Plan, s: State, pid: nat, run: string)
    ensures Enabled(p, s, CancelRow(pid, run)) <==> pid !in s.cancellers && (run, RunActive) in s.runs.Items
    ensures Enabled(p, s, CancelRow(pid, run)) ==>
              Apply(p, s, CancelRow(pid, run))
              == s.(runs := s.runs[run := RunCancelled], cancellers := s.cancellers[pid := run])
  {
  }

  /** The steps that are possible for a delivery where it is. */
  ghost predicate MayOnly(s: State, pid: nat, es: set<ExecutorStep>) {
    forall e :: CanExecute(s, pid, e) ==> e in es
  }

  lemma SettledMayOnlyAck(s: State, pid: nat)
    requires pid in s.executors && s.executors[pid].phase == Settled
    ensures MayOnly(s, pid, {Ack, ExecutorStops}) && CanExecute(s, pid, Ack)
  {
  }

  lemma LeavingMayBreak(s: State, pid: nat)
    requires pid in s.executors && s.executors[pid].phase == Leaving
    ensures MayOnly(s, pid, {Leave, Break, ExecutorStops}) && CanExecute(s, pid, Leave) && CanExecute(s, pid, Break)
    ensures MayOnly(Executed(s, pid, Leave), pid, {Ack, ExecutorStops})
  {
    SettledMayOnlyAck(Executed(s, pid, Leave), pid);
  }

  /** A delivery that finds its job over before it has a VM has only its ack left. */
  lemma OverMeansDone(s: State, pid: nat, e: ExecutorStep)
    requires pid in s.executors && CanExecute(s, pid, e) && (e == ReadRow || e.ClaimRow?)
    requires s.executors[pid].job in s.rows && Terminal(s.rows[s.executors[pid].job].status)
    ensures var t := Executed(s, pid, e);
            t.rows == s.rows && MayOnly(t, pid, {Ack, ExecutorStops}) && CanExecute(t, pid, Ack)
  {
    SettledMayOnlyAck(Executed(s, pid, e), pid);
  }

  /** One that is refused at the start, or has written its outcome, still has a VM
      to give back or an event to send, and may yet be cut off. */
  lemma OverMeansAlmostDone(s: State, pid: nat, e: ExecutorStep)
    requires pid in s.executors && CanExecute(s, pid, e) && s.executors[pid].job in s.rows
    requires e == WriteStatus || (e == StartRow && Terminal(s.rows[s.executors[pid].job].status))
    ensures var t := Executed(s, pid, e);
            && MayOnly(t, pid, {Leave, Break, ExecutorStops}) && CanExecute(t, pid, Leave) && CanExecute(t, pid, Break)
            && MayOnly(Executed(t, pid, Leave), pid, {Ack, ExecutorStops})
  {
    LeavingMayBreak(Executed(s, pid, e), pid);
  }

  lemma PhasesGoOn(s: State, pid: nat, runner: string, vm: string)
    requires pid in s.executors
    ensures var ph := s.executors[pid].phase;
            && (ph == Open ==> CanExecute(s, pid, ClaimRow(runner)))
            && (ph.Acquiring? ==> CanExecute(s, pid, AcquireVm(vm)))
            && (ph.Holding? ==> CanExecute(s, pid, StartRow))
            && (ph == Between ==> CanExecute(s, pid, CheckCancelled))
            && (ph == InStep ==> CanExecute(s, pid, EndStep))
            && (ph.Closing? ==> CanExecute(s, pid, WriteStatus))
            && (ph == Broken ==> CanExecute(s, pid, if s.executors[pid].attempt >= 4 then GiveUp(true) else Nak))
            && (ph == GaveUp ==> CanExecute(s, pid, Ack))
  {
  }

  /** And one whose job is open goes on: it claims, gets a VM, starts, and looks
      for a cancel in front of each step. */
  lemma OpenMeansOn(s: State, pid: nat, e: ExecutorStep, runner: string, vm: string)
    requires pid in s.executors && CanExecute(s, pid, e) && IsOpen(s.rows, s.executors[pid].job)
    ensures var t := Executed(s, pid, e);
            && (e == ReadRow ==> CanExecute(t, pid, ClaimRow(runner)))
            && (e.ClaimRow? ==> CanExecute(t, pid, AcquireVm(vm)))
            && (e.AcquireVm? ==> CanExecute(t, pid, StartRow))
            && (e == StartRow || e == EndStep ==> CanExecute(t, pid, CheckCancelled))
            && (e == CheckCancelled ==> CanExecute(t, pid, EndStep))
            && (e.StepsOver? ==> CanExecute(t, pid, WriteStatus))
  {
    if pid in Executed(s, pid, e).executors {
      PhasesGoOn(Executed(s, pid, e), pid, runner, vm);
    }
  }

  /** What breaks off is tried again or, at the fourth delivery, given up. */
  lemma BrokenMeansAgain(s: State, pid: nat)
    requires CanExecute(s, pid, Break)
    ensures var t := Executed(s, pid, Break);
            && t.rows == s.rows && t.queue == s.queue
            && (if s.executors[pid].attempt < 4 then MayOnly(t, pid, {Nak, ExecutorStops}) && CanExecute(t, pid, Nak)
                else MayOnly(t, pid, {GiveUp(true), GiveUp(false), ExecutorStops}) && CanExecute(t, pid, GiveUp(true)))
  {
  }

  lemma OnlyTheirOwnStop(p: Plan, s: State, pid: nat)
    ensures Enabled(p, s, Schedule(pid, SchedulerStops)) <==> pid in s.schedulers
    ensures Enabled(p, s, Execute(pid, ExecutorStops)) <==> pid in s.executors
    ensures Enabled(p, s, ReaperStops(pid)) <==> pid in s.reapers
    ensures Enabled(p, s, CancellerStops(pid)) <==> pid in s.cancellers
  {
  }

  /** What the guarantees allow for is only on record when it has happened: a
      final write lost, a last delivery stopped, a scheduler stopped or a rollback
      failed between the two stores. */
  lemma AccidentsHappened(p: Plan, s: State, e: Step, j: JobId)
    requires Enabled(p, s, e)
    ensures var t := Apply(p, s, e);
            && (j in t.lost && j !in s.lost ==> e.Execute? && e.act == GiveUp(false) && OnLastAttempt(s, e.pid, j))
            && (j in t.dropped && j !in s.dropped ==>
                  e.Execute? && e.act == ExecutorStops && OnLastAttempt(s, e.pid, j))
            && (j in t.stranded && j !in s.stranded ==>
                  e.Schedule? && e.what in {RollbackFails, SchedulerStops} && BetweenTheStores(s, e.pid, j))
            && (j in t.acked && j !in s.acked ==>
                  e.Execute? && e.act == Ack && e.pid in s.executors && s.executors[e.pid].job == j)
  {
    match e
    case Schedule(pid, what) => SchedulingAccidents(p, s, pid, what, j);
    case Execute(pid, act) => ExecutingAccidents(s, pid, act, j);
    case _ =>
  }

  ghost predicate OnLastAttempt(s: State, pid: nat, j: JobId) {
    pid in s.executors && s.executors[pid].job == j && s.executors[pid].attempt >= 4
  }

  ghost predicate BetweenTheStores(s: State, pid: nat, j: JobId) {
    && pid in s.schedulers && (s.schedulers[pid].Publishing? || s.schedulers[pid].RollingBack?)
    && s.schedulers[pid].job == j
  }

  lemma SchedulingAccidents(p: Plan, s: State, pid: nat, e: SchedulerStep, j: JobId)
    requires CanSchedule(p, s, pid, e)
    ensures var t := Scheduled(p, s, pid, e);
            && t.lost == s.lost && t.dropped == s.dropped && t.acked == s.acked
            && (j in t.stranded && j !in s.stranded ==>
                  e in {RollbackFails, SchedulerStops} && BetweenTheStores(s, pid, j))
  {
  }

  lemma ExecutingAccidents(s: State, pid: nat, e: ExecutorStep, j: JobId)
    requires CanExecute(s, pid, e)
    ensures var t := Executed(s, pid, e);
            && t.stranded == s.stranded
            && (j in t.lost && j !in s.lost ==> e == GiveUp(false) && OnLastAttempt(s, pid, j))
            && (j in t.dropped && j !in s.dropped ==> e == ExecutorStops && OnLastAttempt(s, pid, j))
            && (j in t.acked && j !in s.acked ==> e == Ack && pid in s.executors && s.executors[pid].job == j)
  {
  }

  lemma SchedulingRuns(p: Plan, s: State, pid: nat, e: SchedulerStep)
    requires CanSchedule(p, s, pid, e)
    ensures var runs := Scheduled(p, s, pid, e).runs;
            && runs.Keys == s.runs.Keys
            && (e != WriteRun ==> runs == s.runs)
            && (e == WriteRun && s.schedulers[pid].run in s.runs ==>
                  runs == s.runs[s.schedulers[pid].run := RunOf(s.schedulers[pid].view)])
  {
  }

  lemma ExecutingRuns(s: State, pid: nat, e: ExecutorStep)
    requires CanExecute(s, pid, e)
    ensures Executed(s, pid, e).runs == s.runs
  {
  }

  /** No run comes or goes, and its row is written only by a cancel or with what a
      scheduler made of the jobs. */
  lemma RunRowsAreWritten(p: Plan, s: State, e: Step, run: string)
    requires Enabled(p, s, e)
    ensures var runs := Apply(p, s, e).runs;
            && runs.Keys == s.runs.Keys
            && (run in s.runs && runs[run] != s.runs[run] ==>
                  || (e.CancelRow? && e.run == run && runs[run] == RunCancelled)
                  || (e.Schedule? && e.what == WriteRun && RollsUp(s, e.pid, run)
                      && runs[run] == RunOf(s.schedulers[e.pid].view)))
  {
    match e
    case Schedule(pid, what) => SchedulingRuns(p, s, pid, what);
    case Execute(pid, act) => ExecutingRuns(s, pid, act);
    case _ =>
  }

  ghost predicate RollsUp(s: State, pid: nat, run: string) {
    pid in s.schedulers && s.schedulers[pid].RollingUp? && s.schedulers[pid].run == run
  }

  // ---- every change has one ---------------------------------------------------------

  lemma ReadyShown(p: Plan, v: View, j: JobId)
    requires j in p
    ensures Ready(p, v, j) <==> ShownOver(p, v, j)
    ensures ReadsFailed(p, v, j) <==> ShownFailed(p, v, j)
  {
    forall n
      ensures BaseDone(p, v, n) <==>
              && (exists c :: c in v && c in p && p[c].base == n)
              && (forall c :: c in v && c in p && p[c].base == n ==> v[c] in {Success, Failure, Skipped, Cancelled})
    {
    }
  }

  /** A scheduler at its list does with a job ahead exactly what it says, and
      there is always something it can do. */
  lemma VisitsExactly(p: Plan, s: State, pid: nat, j: JobId, other: nat)
    requires pid in s.schedulers && s.schedulers[pid].Deciding? && j in s.schedulers[pid].ahead
    ensures var x := s.schedulers[pid];
            && (CanSchedule(p, s, pid, SkipJob(j, other)) <==> SaysSkip(p, x, j, other))
            && (CanSchedule(p, s, pid, QueueJob(j, other)) <==> SaysRun(p, x, j, other))
            && (CanSchedule(p, s, pid, RefuseJob(j, other)) <==> SaysRefuse(p, x, j, other))
            && (CanSchedule(p, s, pid, PassJob(j)) <==> !At(p, x, j) || (p[j].readable && !ShownOver(p, x.view, j)))
    ensures || CanSchedule(p, s, pid, PassJob(j)) || CanSchedule(p, s, pid, SkipJob(j, other))
            || CanSchedule(p, s, pid, RefuseJob(j, other))
  {
    var x := s.schedulers[pid];
    if j in p {
      ReadyShown(p, x.view, j);
      ReadyShown(p, x.needs, j);
    }
  }

  /** Only a job ahead is visited, and none twice: whatever comes of it, it is no
      longer ahead, and the others are as they were. */
  lemma VisitedOnce(p: Plan, s: State, pid: nat, e: SchedulerStep, j: JobId)
    requires CanSchedule(p, s, pid, e) && (e.PassJob? || e.SkipJob? || e.RefuseJob? || e.QueueJob?) && e.job == j
    ensures pid in s.schedulers && s.schedulers[pid].Deciding? && j in s.schedulers[pid].ahead
    ensures pid in Scheduled(p, s, pid, e).schedulers
    ensures var x, y := s.schedulers[pid], Scheduled(p, s, pid, e).schedulers[pid];
            && Visiting(y) && y.ahead == x.ahead - {j}
            && y.run == x.run && y.view == x.view && y.needs == x.needs
            && (y.Publishing? <==> e.QueueJob? && IsPending(s.rows, j)) && (y.Publishing? ==> y.job == j)
  {
  }

  /** Any process may stop between two statements, and leaves the rows and the
      queue as they are. */
  lemma AnyProcessMayStop(p: Plan, s: State, pid: nat)
    ensures pid in s.schedulers ==>
              && Enabled(p, s, Schedule(pid, SchedulerStops))
              && var t := Apply(p, s, Schedule(pid, SchedulerStops));
                 t.rows == s.rows && t.queue == s.queue && t.runs == s.runs && t.schedulers == s.schedulers - {pid}
    ensures pid in s.executors ==>
              && Enabled(p, s, Execute(pid, ExecutorStops))
              && var t := Apply(p, s, Execute(pid, ExecutorStops));
                 t.rows == s.rows && t.queue == s.queue && t.runs == s.runs && t.executors == s.executors - {pid}
    ensures pid in s.reapers ==>
              && Enabled(p, s, ReaperStops(pid))
              && Apply(p, s, ReaperStops(pid)) == s.(reapers := s.reapers - {pid})
    ensures pid in s.cancellers ==>
              && Enabled(p, s, CancellerStops(pid))
              && Apply(p, s, CancellerStops(pid)) == s.(cancellers := s.cancellers - {pid})
  {
  }

  lemma ScheduleCause(p: Plan, s: State, pid: nat, e: SchedulerStep, j: JobId)
    requires CanSchedule(p, s, pid, e) && j in s.rows && Scheduled(p, s, pid, e).rows[j] != s.rows[j]
    ensures BySchedule(p, s, pid, e, j, Scheduled(p, s, pid, e).rows[j].status)
  {
    if j in p && pid in s.schedulers {
      var x := s.schedulers[pid];
      ReadyShown(p, x.view, j);
      if Visiting(x) { ReadyShown(p, x.needs, j); }
    }
  }

  lemma ExecuteCause(s: State, pid: nat, e: ExecutorStep, j: JobId)
    requires CanExecute(s, pid, e) && j in s.rows && Executed(s, pid, e).rows[j] != s.rows[j]
    ensures ByExecute(s, pid, e, j, Executed(s, pid, e).rows[j].status)
  {
  }

  lemma StepCause(p: Plan, s: State, e: Step, j: JobId)
    requires Enabled(p, s, e) && j in s.rows && Apply(p, s, e).rows[j] != s.rows[j]
    ensures Cause(p, s, e, j, Apply(p, s, e).rows[j].status)
  {
    match e
    case Schedule(pid, what) => ScheduleCause(p, s, pid, what, j);
    case Execute(pid, act) => ExecuteCause(s, pid, act, j);
    case _ =>
  }

  // ---- over whole runs -----------------------------------------------------------------

  lemma {:induction false} LastStep(p: Plan, s: State, es: seq<Step>)
    requires es != [] && Runs(p, s, es)
    ensures var front, last := es[..|es| - 1], es[|es| - 1];
            && Runs(p, s, front) && Enabled(p, After(p, s, front), last)
            && After(p, s, es) == Apply(p, After(p, s, front), last)
    decreases |es|
  {
    if |es| > 1 {
      var s1, rest := Apply(p, s, es[0]), es[1..];
      LastStep(p, s1, rest);
      assert es[..|es| - 1][1..] == rest[..|rest| - 1];
    } else {
      assert es[1..] == [] && es[..0] == [];
    }
  }

  /** Whatever a row shows that it did not show at first, some step of the run
      wrote there, for its reason. */
  lemma {:induction false} EveryStatusHasACause(p: Plan, s0: State, es: seq<Step>, j: JobId) returns (i: nat)
    requires Runs(p, s0, es) && j in s0.rows && After(p, s0, es).rows[j].status != s0.rows[j].status
    ensures i < |es| && Runs(p, s0, es[..i]) && j in After(p, s0, es[..i]).rows
    ensures Cause(p, After(p, s0, es[..i]), es[i], j, After(p, s0, es).rows[j].status)
    decreases |es|
  {
    var n := |es| - 1;
    i := n;
    LastStep(p, s0, es);
    var s := After(p, s0, es[..n]);
    if After(p, s0, es).rows[j] != s.rows[j] {
      StepCause(p, s, es[n], j);
    } else {
      i := EveryStatusHasACause(p, s0, es[..n], j);
      FrontOfFront(es, n, i);
    }
  }

  lemma FrontOfFront(es: seq<Step>, n: nat, i: nat)
    requires i < n <= |es|
    ensures es[..n][..i] == es[..i] && es[..n][i] == es[i]
  {
  }
}
