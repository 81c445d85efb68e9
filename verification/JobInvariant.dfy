/** What every step of the job protocol keeps. */
module JobInvariant {
  import opened JobStore
  import opened JobProtocol

  // ---- the invariant ----------------------------------------------------

  /** Every cell of every base `j` needs exists and is over. */
  ghost predicate NeedsOver(p: Plan, t: Table, j: JobId)
    requires j in p
  {
    Ready(p, Look(p, t, p[j].run), j)
  }

  ghost predicate HasMessage(s: State, j: JobId) {
    exists m :: m in s.queue && s.queue[m].job == j
  }

  ghost predicate Mid(x: Scheduler, j: JobId) {
    (x.Publishing? || x.RollingBack?) && x.job == j
  }

  ghost predicate InFlight(s: State, j: JobId) {
    exists pid :: pid in s.schedulers && Mid(s.schedulers[pid], j)
  }

  ghost predicate Delivering(s: State, j: JobId) {
    exists pid :: pid in s.executors && s.executors[pid].job == j
  }

  /** A snapshot never calls a job over that is not. */
  ghost predicate Honest(p: Plan, t: Table, run: string, v: View) {
    && v.Keys == Look(p, t, run).Keys
    && (forall j :: j in v && Terminal(v[j]) ==> Terminal(t[j].status))
  }

  /** Whatever the first snapshot shows as over, the second does too. */
  ghost predicate Older(v: View, w: View) {
    v.Keys == w.Keys && forall j :: j in v && Terminal(v[j]) ==> Terminal(w[j])
  }

  ghost predicate SchedulerSound(p: Plan, t: Table, x: Scheduler) {
    && Honest(p, t, x.run, x.view)
    && (Visiting(x) ==> Honest(p, t, x.run, x.needs) && Older(x.view, x.needs))
    && (x.Publishing? || x.RollingBack? ==> x.job in p && p[x.job].run == x.run)
  }

  ghost predicate SchedulersSound(p: Plan, s: State) {
    && s.rows.Keys == p.Keys
    && forall pid :: pid in s.schedulers ==> SchedulerSound(p, s.rows, s.schedulers[pid])
  }

  /** Past the scheduler: queued, started, on the queue or being worked on. */
  ghost predicate Released(s: State, j: JobId) {
    || (j in s.rows && (s.rows[j].status.Queued? || s.rows[j].status.Running?))
    || HasMessage(s, j) || InFlight(s, j) || Delivering(s, j)
  }

  /** The snapshot tells the job to run: its `if:` says so or, if it has none,
      nothing it needs reads as failed. */
  ghost predicate ToldToRun(p: Plan, v: View, j: JobId)
    requires j in p
  {
    if p[j].guard.Some? then exists other :: p[j].guard.value(v, other) == ToRun else !ReadsFailed(p, v, j)
  }

  /** Once released, a job has been checked against a snapshot that met its
      `needs` and told it to run. */
  ghost predicate WellChecked(p: Plan, s: State, j: JobId)
    requires j in s.checked
  {
    && j in p && NeedsOver(p, s.rows, j)
    && s.checked[j].Keys == Look(p, s.rows, p[j].run).Keys && Ready(p, s.checked[j], j)
    && ToldToRun(p, s.checked[j], j)
  }

  ghost predicate ReleasedAreChecked(s: State) {
    forall j :: Released(s, j) ==> j in s.checked
  }

  ghost predicate ChecksSound(p: Plan, s: State) {
    forall j :: j in s.checked ==> WellChecked(p, s, j)
  }

  predicate Working(ph: Phase) {
    ph.Acquiring? || ph.Holding? || ph.Between? || ph.InStep? || ph.Closing?
  }

  ghost predicate ExecutorSound(t: Table, lost: set<JobId>, x: Executor) {
    && x.job in t
    && (x.late ==> Terminal(t[x.job].status) && !Working(x.phase) && !x.phase.Open? && !x.phase.Leaving?)
    && (x.phase.Settled? || x.phase.Leaving? ==> Terminal(t[x.job].status))
    && (x.phase.GaveUp? ==> Terminal(t[x.job].status) || x.job in lost)
    && (Working(x.phase) ==> Stage(t[x.job].status) >= 1)
  }

  ghost predicate ExecutorsSound(s: State) {
    forall pid :: pid in s.executors ==> ExecutorSound(s.rows, s.lost, s.executors[pid])
  }

  ghost predicate OwnMessage(s: State, x: Executor) {
    x.msg < s.sequence && (x.msg in s.queue ==> s.queue[x.msg].job == x.job)
  }

  ghost predicate MessagesSound(s: State) {
    && (forall m :: m in s.queue ==> m < s.sequence && s.queue[m].job in s.rows)
    && (forall pid :: pid in s.executors ==> OwnMessage(s, s.executors[pid]))
    && (forall j :: j in s.acked ==> j in s.rows && (Terminal(s.rows[j].status) || j in s.lost))
    && (forall j :: j in s.published ==> HasMessage(s, j) || j in s.acked)
  }

  ghost predicate QueuedAccounted(s: State) {
    forall j :: IsQueued(s.rows, j) ==> HasMessage(s, j) || InFlight(s, j) || j in s.stranded || j in s.lost
  }

  ghost predicate RunnerOnlyOnceTaken(s: State) {
    forall j :: j in s.rows && Stage(s.rows[j].status) == 0 ==> s.rows[j].runner.None?
  }

  ghost predicate Inv(p: Plan, s: State) {
    && SchedulersSound(p, s) && ReleasedAreChecked(s) && ChecksSound(p, s)
    && ExecutorsSound(s) && MessagesSound(s) && QueuedAccounted(s) && RunnerOnlyOnceTaken(s)
  }

  // ---- facts that survive forward movement -------------------------------

  lemma HonestKept(p: Plan, t: Table, t': Table, run: string, v: View)
    requires Honest(p, t, run, v) && Forward(t, t')
    ensures Honest(p, t', run, v)
  {
    assert Look(p, t, run).Keys == Look(p, t', run).Keys;
    forall j | j in v && Terminal(v[j]) ensures Terminal(t'[j].status) {
      assert Stage(t[j].status) <= Stage(t'[j].status);
    }
  }

  lemma SchedulerSoundKept(p: Plan, t: Table, t': Table, x: Scheduler)
    requires SchedulerSound(p, t, x) && Forward(t, t')
    ensures SchedulerSound(p, t', x)
  {
    HonestKept(p, t, t', x.run, x.view);
    if Visiting(x) {
      HonestKept(p, t, t', x.run, x.needs);
    }
  }

  lemma ReadyKept(p: Plan, v: View, w: View, j: JobId)
    requires j in p && Older(v, w) && Ready(p, v, j)
    ensures Ready(p, w, j)
  {
    forall n | n in p[j].needs ensures BaseDone(p, w, n) {
      assert BaseDone(p, v, n);
    }
  }

  lemma NeedsStayOver(p: Plan, t: Table, t': Table, j: JobId)
    requires j in p && Forward(t, t') && NeedsOver(p, t, j)
    ensures NeedsOver(p, t', j)
  {
    var v, w := Look(p, t, p[j].run), Look(p, t', p[j].run);
    forall c | c in v && Terminal(v[c]) ensures Terminal(w[c]) {
      assert Stage(t[c].status) <= Stage(t'[c].status);
    }
    ReadyKept(p, v, w, j);
  }

  /** A snapshot in which `j`'s needs are over was telling the truth. */
  lemma HonestReady(p: Plan, t: Table, v: View, j: JobId)
    requires j in p && Honest(p, t, p[j].run, v) && Ready(p, v, j)
    ensures NeedsOver(p, t, j)
  {
    ReadyKept(p, v, Look(p, t, p[j].run), j);
  }

  // ---- every step keeps the invariant ------------------------------------

  lemma SchedulersKept(p: Plan, s: State, s': State)
    requires SchedulersSound(p, s) && Forward(s.rows, s'.rows)
    requires forall pid :: pid in s'.schedulers ==> pid in s.schedulers && s'.schedulers[pid] == s.schedulers[pid]
    ensures SchedulersSound(p, s')
  {
    forall pid | pid in s'.schedulers ensures SchedulerSound(p, s'.rows, s'.schedulers[pid]) {
      SchedulerSoundKept(p, s.rows, s'.rows, s.schedulers[pid]);
    }
  }

  lemma NextSchedulerSound(p: Plan, t: Table, s: State, x: Scheduler, e: SchedulerStep)
    requires SchedulerSound(p, t, x) && Called(p, s, x, e)
    ensures SchedulerSound(p, t, NextScheduler(p, t, x, e))
  {
  }

  lemma SchedulingKeepsSchedulers(p: Plan, s: State, pid: nat, e: SchedulerStep)
    requires SchedulersSound(p, s) && CanSchedule(p, s, pid, e)
    ensures SchedulersSound(p, Scheduled(p, s, pid, e))
  {
    var s' := Scheduled(p, s, pid, e);
    forall q | q in s'.schedulers ensures SchedulerSound(p, s'.rows, s'.schedulers[q]) {
      if q == pid && !e.ReadJobs? {
        NextSchedulerSound(p, s.rows, s, s.schedulers[pid], e);
        SchedulerSoundKept(p, s.rows, s'.rows, s'.schedulers[q]);
      } else if q in s.schedulers {
        SchedulerSoundKept(p, s.rows, s'.rows, s.schedulers[q]);
      }
    }
  }

  lemma ChecksKept(p: Plan, s: State, s': State)
    requires ChecksSound(p, s) && Forward(s.rows, s'.rows) && s'.checked == s.checked
    ensures ChecksSound(p, s')
  {
    forall j | j in s'.checked ensures WellChecked(p, s', j) {
      assert WellChecked(p, s, j);
      NeedsStayOver(p, s.rows, s'.rows, j);
    }
  }

  /** A decision to run rests on a sound snapshot. */
  lemma DecisionIsChecked(p: Plan, t: Table, t': Table, x: Scheduler, j: JobId, other: nat)
    requires SchedulerSound(p, t, x) && Decides(p, x, j) && Judged(p, j, x.needs, other) == ToRun && Forward(t, t')
    ensures NeedsOver(p, t', j) && x.needs.Keys == Look(p, t', p[j].run).Keys && Ready(p, x.needs, j)
    ensures ToldToRun(p, x.needs, j)
  {
    HonestReady(p, t, x.view, j);
    ReadyKept(p, x.view, x.needs, j);
    NeedsStayOver(p, t, t', j);
    assert Look(p, t, p[j].run).Keys == Look(p, t', p[j].run).Keys;
  }

  lemma ChecksGrow(p: Plan, s: State, s': State, j: JobId, needs: View)
    requires ChecksSound(p, s) && Forward(s.rows, s'.rows) && s'.checked == s.checked[j := needs]
    requires j in p && NeedsOver(p, s'.rows, j) && needs.Keys == Look(p, s'.rows, p[j].run).Keys && Ready(p, needs, j)
    requires ToldToRun(p, needs, j)
    ensures ChecksSound(p, s')
  {
    ChecksKept(p, s, s'.(checked := s.checked));
    forall k | k in s'.checked ensures WellChecked(p, s', k) {
      if k != j { assert WellChecked(p, s'.(checked := s.checked), k); }
    }
  }

  lemma QueueingIsChecked(p: Plan, s: State, pid: nat, j: JobId, other: nat)
    requires SchedulersSound(p, s) && ChecksSound(p, s) && CanSchedule(p, s, pid, QueueJob(j, other))
    ensures ChecksSound(p, Scheduled(p, s, pid, QueueJob(j, other)))
  {
    var s', x := Scheduled(p, s, pid, QueueJob(j, other)), s.schedulers[pid];
    if IsPending(s.rows, j) {
      DecisionIsChecked(p, s.rows, s'.rows, x, j, other);
      ChecksGrow(p, s, s', j, x.needs);
    } else {
      ChecksKept(p, s, s');
    }
  }

  lemma ExecutorsKept(s: State, s': State)
    requires ExecutorsSound(s) && Forward(s.rows, s'.rows) && s.lost <= s'.lost
    requires forall q :: q in s'.executors ==> q in s.executors && s'.executors[q] == s.executors[q]
    ensures ExecutorsSound(s')
  {
    forall q | q in s'.executors ensures ExecutorSound(s'.rows, s'.lost, s'.executors[q]) {
      var x := s.executors[q];
      assert ExecutorSound(s.rows, s.lost, x);
      assert Stage(s.rows[x.job].status) <= Stage(s'.rows[x.job].status);
    }
  }

  lemma ExecutorStepSound(t: Table, lost: set<JobId>, x: Executor, e: ExecutorStep)
    requires ExecutorSound(t, lost, x) && Follows(x, e)
    ensures var lost' := if e.GiveUp? && !e.written then lost + {x.job} else lost;
            ExecutorSound(ExecutorRows(t, x, e), lost', x.(phase := NextPhase(t, x, e)))
  {
    assert Stage(t[x.job].status) <= Stage(ExecutorRows(t, x, e)[x.job].status);
  }

  lemma DeliveringKeepsExecutors(s: State, pid: nat, m: nat)
    requires ExecutorsSound(s) && MessagesSound(s) && CanExecute(s, pid, Deliver(m))
    ensures ExecutorsSound(Executed(s, pid, Deliver(m)))
  {
    var s' := Executed(s, pid, Deliver(m));
    forall q | q in s'.executors ensures ExecutorSound(s'.rows, s'.lost, s'.executors[q]) {
      if q != pid { assert ExecutorSound(s.rows, s.lost, s.executors[q]); }
    }
  }

  lemma LeavingKeepsExecutors(s: State, pid: nat, e: ExecutorStep)
    requires ExecutorsSound(s) && CanExecute(s, pid, e) && (e.Nak? || e.ExecutorStops? || e.Ack?)
    ensures ExecutorsSound(Executed(s, pid, e))
  {
    var s' := Executed(s, pid, e);
    forall q | q in s'.executors ensures ExecutorSound(s'.rows, s'.lost, s'.executors[q]) {
      assert ExecutorSound(s.rows, s.lost, s.executors[q]);
    }
  }

  lemma WorkingKeepsExecutors(s: State, pid: nat, e: ExecutorStep)
    requires ExecutorsSound(s) && CanExecute(s, pid, e) && !e.Deliver? && !e.Nak? && !e.ExecutorStops? && !e.Ack?
    ensures ExecutorsSound(Executed(s, pid, e))
  {
    var s' := Executed(s, pid, e);
    ExecutorStepSound(s.rows, s.lost, s.executors[pid], e);
    ExecutorsKept(s, s'.(executors := s.executors));
  }

  lemma ExecutingKeepsExecutors(s: State, pid: nat, e: ExecutorStep)
    requires ExecutorsSound(s) && MessagesSound(s) && CanExecute(s, pid, e)
    ensures ExecutorsSound(Executed(s, pid, e))
  {
    if e.Deliver? {
      DeliveringKeepsExecutors(s, pid, e.msg);
    } else if e.Nak? || e.ExecutorStops? || e.Ack? {
      LeavingKeepsExecutors(s, pid, e);
    } else {
      WorkingKeepsExecutors(s, pid, e);
    }
  }

  /** The queue loses only what was acknowledged, whatever else happens. */
  ghost predicate QueueGrows(s: State, s': State) {
    forall m :: m in s.queue ==> m in s'.queue && s'.queue[m].job == s.queue[m].job
  }

  lemma MessageKept(s: State, s': State, j: JobId)
    requires QueueGrows(s, s') && HasMessage(s, j)
    ensures HasMessage(s', j)
  {
    var m :| m in s.queue && s.queue[m].job == j;
    assert m in s'.queue && s'.queue[m].job == j;
  }

  lemma MessagesKept(s: State, s': State)
    requires MessagesSound(s) && Forward(s.rows, s'.rows) && QueueGrows(s, s')
    requires s'.acked == s.acked && s.lost <= s'.lost
    requires forall m :: m in s'.queue ==> m < s'.sequence && s'.queue[m].job in s'.rows
    requires forall pid :: pid in s'.executors ==> OwnMessage(s', s'.executors[pid])
    requires forall j :: j in s'.published ==> j in s.published || HasMessage(s', j)
    ensures MessagesSound(s')
  {
    forall j | j in s'.acked ensures j in s'.rows && (Terminal(s'.rows[j].status) || j in s'.lost) {
      assert Stage(s.rows[j].status) <= Stage(s'.rows[j].status);
    }
    forall j | j in s'.published ensures HasMessage(s', j) || j in s'.acked {
      if HasMessage(s, j) {
        MessageKept(s, s', j);
      }
    }
  }

  ghost predicate SameQueue(s: State, s': State) {
    s'.queue == s.queue && s'.sequence == s.sequence && s'.published == s.published
  }

  ghost predicate Enqueued(s: State, s': State, j: JobId) {
    && s'.queue == s.queue[s.sequence := Message(j, 0)]
    && s'.sequence == s.sequence + 1 && s'.published == s.published + {j}
  }

  /** What a scheduler leaves alone, and the one thing it may add. */
  lemma SchedulingFrame(p: Plan, s: State, pid: nat, e: SchedulerStep)
    requires CanSchedule(p, s, pid, e)
    ensures var s' := Scheduled(p, s, pid, e);
            && s'.executors == s.executors && s'.reapers == s.reapers && s'.acked == s.acked && s'.lost == s.lost
            && s.stranded <= s'.stranded
            && if e.PublishNew? || (e.PublishFails? && e.landed)
               then Enqueued(s, s', s.schedulers[pid].job)
               else SameQueue(s, s')
  {
  }

  lemma EnqueueingKeepsMessages(s: State, s': State, j: JobId)
    requires MessagesSound(s) && j in s.rows && Enqueued(s, s', j) && Forward(s.rows, s'.rows)
    requires s'.executors == s.executors && s'.acked == s.acked && s'.lost == s.lost
    ensures MessagesSound(s')
  {
    assert s.sequence in s'.queue && s'.queue[s.sequence].job == j;
    forall q | q in s'.executors ensures OwnMessage(s', s'.executors[q]) {
      assert OwnMessage(s, s.executors[q]);
    }
    MessagesKept(s, s');
  }

  lemma SchedulingKeepsMessages(p: Plan, s: State, pid: nat, e: SchedulerStep)
    requires SchedulersSound(p, s) && MessagesSound(s) && CanSchedule(p, s, pid, e)
    ensures MessagesSound(Scheduled(p, s, pid, e))
  {
    SchedulingFrame(p, s, pid, e);
    var s' := Scheduled(p, s, pid, e);
    if e.PublishNew? || (e.PublishFails? && e.landed) {
      assert SchedulerSound(p, s.rows, s.schedulers[pid]);
      EnqueueingKeepsMessages(s, s', s.schedulers[pid].job);
    } else {
      SameQueueKeepsMessages(s, s');
    }
  }

  lemma SameQueueKeepsMessages(s: State, s': State)
    requires MessagesSound(s) && SameQueue(s, s') && Forward(s.rows, s'.rows)
    requires s'.acked == s.acked && s.lost <= s'.lost
    requires forall q :: q in s'.executors ==>
               && q in s.executors
               && s'.executors[q].msg == s.executors[q].msg && s'.executors[q].job == s.executors[q].job
    ensures MessagesSound(s')
  {
    forall q | q in s'.executors ensures OwnMessage(s', s'.executors[q]) {
      assert OwnMessage(s, s.executors[q]);
    }
    forall j | HasMessage(s, j) ensures HasMessage(s', j) {
      MessageKept(s, s', j);
    }
    MessagesKept(s, s');
  }

  lemma DeliveringKeepsMessages(s: State, pid: nat, m: nat)
    requires MessagesSound(s) && CanExecute(s, pid, Deliver(m))
    ensures MessagesSound(Executed(s, pid, Deliver(m)))
  {
    var s' := Executed(s, pid, Deliver(m));
    forall q | q in s'.executors ensures OwnMessage(s', s'.executors[q]) {
      if q != pid {
        assert OwnMessage(s, s.executors[q]);
      }
    }
    forall j | HasMessage(s, j) ensures HasMessage(s', j) {
      MessageKept(s, s', j);
    }
    MessagesKept(s, s');
  }

  lemma AckingKeepsMessages(s: State, pid: nat)
    requires ExecutorsSound(s) && MessagesSound(s) && CanExecute(s, pid, Ack)
    ensures MessagesSound(Executed(s, pid, Ack))
  {
    var s' := Executed(s, pid, Ack);
    var x := s.executors[pid];
    assert ExecutorSound(s.rows, s.lost, x) && OwnMessage(s, x);
    forall q | q in s'.executors ensures OwnMessage(s', s'.executors[q]) {
      assert OwnMessage(s, s.executors[q]);
    }
    forall j | j in s'.published ensures HasMessage(s', j) || j in s'.acked {
      if j != x.job && j !in s.acked {
        var m :| m in s.queue && s.queue[m].job == j;
        assert m in s'.queue;
      }
    }
  }

  /** What a delivery leaves alone. */
  lemma ExecutingFrame(s: State, pid: nat, e: ExecutorStep)
    requires CanExecute(s, pid, e)
    ensures var s' := Executed(s, pid, e);
            && s'.schedulers == s.schedulers && s'.reapers == s.reapers && s'.checked == s.checked
            && s'.stranded == s.stranded && s.lost <= s'.lost
            && (!e.Deliver? && !e.Ack? ==>
                  && SameQueue(s, s') && s'.acked == s.acked
                  && (forall q :: q in s'.executors ==>
                        && q in s.executors
                        && s'.executors[q].msg == s.executors[q].msg && s'.executors[q].job == s.executors[q].job))
  {
  }

  lemma ExecutingKeepsMessages(s: State, pid: nat, e: ExecutorStep)
    requires ExecutorsSound(s) && MessagesSound(s) && CanExecute(s, pid, e)
    ensures MessagesSound(Executed(s, pid, e))
  {
    if e.Deliver? {
      DeliveringKeepsMessages(s, pid, e.msg);
    } else if e.Ack? {
      AckingKeepsMessages(s, pid);
    } else {
      ExecutingFrame(s, pid, e);
      SameQueueKeepsMessages(s, Executed(s, pid, e));
    }
  }

  // -- runners

  lemma SchedulingKeepsRunners(p: Plan, s: State, pid: nat, e: SchedulerStep)
    requires RunnerOnlyOnceTaken(s) && CanSchedule(p, s, pid, e)
    ensures RunnerOnlyOnceTaken(Scheduled(p, s, pid, e))
  {
    var s' := Scheduled(p, s, pid, e);
    forall j | j in s'.rows ensures s'.rows[j].runner == s.rows[j].runner
    {
      assert j in s.rows;
    }
    assert Forward(s.rows, s'.rows);
  }

  lemma ExecutingKeepsRunners(s: State, pid: nat, e: ExecutorStep)
    requires RunnerOnlyOnceTaken(s) && CanExecute(s, pid, e)
    ensures RunnerOnlyOnceTaken(Executed(s, pid, e))
  {
    var s' := Executed(s, pid, e);
    if !(e.Deliver? || e.Nak? || e.ExecutorStops? || e.Ack?) {
      var x := s.executors[pid];
      forall j | j in s'.rows && Stage(s'.rows[j].status) == 0 ensures s'.rows[j].runner.None? {
        if j == x.job {
          RowKeepsRunner(s.rows, x, e);
        }
      }
    }
  }

  lemma RowKeepsRunner(t: Table, x: Executor, e: ExecutorStep)
    requires Follows(x, e) && x.job in t && (Stage(t[x.job].status) == 0 ==> t[x.job].runner.None?)
    ensures var r := ExecutorRows(t, x, e)[x.job]; Stage(r.status) == 0 ==> r.runner.None?
  {
  }

  // -- released jobs were checked, queued jobs are accounted for

  lemma SchedulingChecks(p: Plan, s: State, pid: nat, e: SchedulerStep)
    requires CanSchedule(p, s, pid, e)
    ensures s.checked.Keys <= Scheduled(p, s, pid, e).checked.Keys
  {
  }

  lemma MessagesReleased(p: Plan, s: State, pid: nat, e: SchedulerStep, j: JobId)
    requires CanSchedule(p, s, pid, e) && HasMessage(Scheduled(p, s, pid, e), j)
    ensures Released(s, j)
  {
    SchedulingFrame(p, s, pid, e);
    var s' := Scheduled(p, s, pid, e);
    var m :| m in s'.queue && s'.queue[m].job == j;
    if m in s.queue && s.queue[m].job == j {
      assert HasMessage(s, j);
    } else {
      assert Mid(s.schedulers[pid], j);
    }
  }

  lemma FlightsReleased(p: Plan, s: State, pid: nat, e: SchedulerStep, j: JobId)
    requires CanSchedule(p, s, pid, e) && InFlight(Scheduled(p, s, pid, e), j)
    ensures InFlight(s, j) || j in Scheduled(p, s, pid, e).checked
  {
    var s' := Scheduled(p, s, pid, e);
    var q :| q in s'.schedulers && Mid(s'.schedulers[q], j);
    if q in s.schedulers && Mid(s.schedulers[q], j) {
      assert InFlight(s, j);
    }
  }

  lemma RowsReleased(p: Plan, s: State, pid: nat, e: SchedulerStep, j: JobId)
    requires CanSchedule(p, s, pid, e) && j in s.rows
    requires var st := Scheduled(p, s, pid, e).rows[j].status; st.Queued? || st.Running?
    ensures Released(s, j) || j in Scheduled(p, s, pid, e).checked
  {
  }

  lemma SchedulingReleases(p: Plan, s: State, pid: nat, e: SchedulerStep, j: JobId)
    requires ReleasedAreChecked(s) && CanSchedule(p, s, pid, e)
    ensures Released(Scheduled(p, s, pid, e), j) ==> j in Scheduled(p, s, pid, e).checked
  {
    var s' := Scheduled(p, s, pid, e);
    SchedulingFrame(p, s, pid, e);
    SchedulingChecks(p, s, pid, e);
    if HasMessage(s', j) {
      MessagesReleased(p, s, pid, e, j);
    } else if InFlight(s', j) {
      FlightsReleased(p, s, pid, e, j);
    } else if Delivering(s', j) {
      assert Delivering(s, j);
    } else if Released(s', j) {
      RowsReleased(p, s, pid, e, j);
    }
  }

  lemma ExecutedRow(s: State, pid: nat, e: ExecutorStep, j: JobId)
    requires CanExecute(s, pid, e) && j in s.rows
    ensures Executed(s, pid, e).rows[j] == s.rows[j] || Delivering(s, j)
  {
    if pid in s.executors && s.executors[pid].job == j {
      assert Delivering(s, j);
    }
  }

  lemma ExecutedJobs(s: State, pid: nat, e: ExecutorStep, j: JobId)
    requires CanExecute(s, pid, e)
    ensures Delivering(Executed(s, pid, e), j) ==> Delivering(s, j) || HasMessage(s, j)
    ensures HasMessage(Executed(s, pid, e), j) ==> HasMessage(s, j)
  {
    var s' := Executed(s, pid, e);
    if HasMessage(s', j) {
      var m :| m in s'.queue && s'.queue[m].job == j;
      assert m in s.queue && s.queue[m].job == j;
    }
    if Delivering(s', j) {
      var q :| q in s'.executors && s'.executors[q].job == j;
      if q in s.executors {
        assert s.executors[q].job == j;
      } else {
        assert s.queue[e.msg].job == j;
      }
    }
  }

  lemma ExecutingReleases(s: State, pid: nat, e: ExecutorStep, j: JobId)
    requires ReleasedAreChecked(s) && CanExecute(s, pid, e)
    ensures Released(Executed(s, pid, e), j) ==> j in s.checked
  {
    ExecutingFrame(s, pid, e);
    ExecutedJobs(s, pid, e, j);
    if j in s.rows {
      ExecutedRow(s, pid, e, j);
    }
    assert Released(Executed(s, pid, e), j) ==> Released(s, j);
  }

  lemma FlightResolved(p: Plan, s: State, pid: nat, e: SchedulerStep, j: JobId)
    requires MessagesSound(s) && CanSchedule(p, s, pid, e)
    requires pid in s.schedulers && Mid(s.schedulers[pid], j)
    requires IsQueued(Scheduled(p, s, pid, e).rows, j)
    ensures var s' := Scheduled(p, s, pid, e);
            HasMessage(s', j) || InFlight(s', j) || j in s'.stranded || j in s'.lost
  {
    var s' := Scheduled(p, s, pid, e);
    match e
    case PublishNew => assert s.sequence in s'.queue && s'.queue[s.sequence].job == j;
    case PublishDuplicate =>
      if HasMessage(s, j) {
        MessageKept(s, s', j);
      }
    case PublishFails(landed) => assert Mid(s'.schedulers[pid], j);
    case _ =>
  }

  lemma SchedulingAccounts(p: Plan, s: State, pid: nat, e: SchedulerStep, j: JobId)
    requires MessagesSound(s) && QueuedAccounted(s) && CanSchedule(p, s, pid, e)
    requires IsQueued(Scheduled(p, s, pid, e).rows, j)
    ensures var s' := Scheduled(p, s, pid, e);
            HasMessage(s', j) || InFlight(s', j) || j in s'.stranded || j in s'.lost
  {
    SchedulingFrame(p, s, pid, e);
    var s' := Scheduled(p, s, pid, e);
    if !IsQueued(s.rows, j) {
      assert Mid(s'.schedulers[pid], j);
    } else if pid in s.schedulers && Mid(s.schedulers[pid], j) {
      FlightResolved(p, s, pid, e, j);
    } else if HasMessage(s, j) {
      assert QueueGrows(s, s') by {
        assert forall m :: m in s.queue ==> m < s.sequence;
      }
      MessageKept(s, s', j);
    } else if InFlight(s, j) {
      var q :| q in s.schedulers && Mid(s.schedulers[q], j);
      assert q in s'.schedulers && Mid(s'.schedulers[q], j);
    }
  }

  lemma ExecutingAccounts(s: State, pid: nat, e: ExecutorStep, j: JobId)
    requires ExecutorsSound(s) && MessagesSound(s) && QueuedAccounted(s) && CanExecute(s, pid, e)
    requires IsQueued(Executed(s, pid, e).rows, j)
    ensures var s' := Executed(s, pid, e);
            HasMessage(s', j) || InFlight(s', j) || j in s'.stranded || j in s'.lost
  {
    ExecutingFrame(s, pid, e);
    var s' := Executed(s, pid, e);
    assert Stage(s.rows[j].status) <= Stage(s'.rows[j].status);
    ExecutingNeverQueues(s, pid, e, j);
    if HasMessage(s, j) {
      var m :| m in s.queue && s.queue[m].job == j;
      if m in s'.queue {
        assert s'.queue[m].job == j;
      } else {
        var x := s.executors[pid];
        assert ExecutorSound(s.rows, s.lost, x) && OwnMessage(s, x);
      }
    }
  }

  lemma ExecutingNeverQueues(s: State, pid: nat, e: ExecutorStep, j: JobId)
    requires CanExecute(s, pid, e) && IsQueued(Executed(s, pid, e).rows, j)
    ensures IsQueued(s.rows, j)
  {
  }

  // -- reapers and cancels write only final statuses, and touch nothing else

  ghost predicate OnlyEnds(s: State, s': State) {
    && Forward(s.rows, s'.rows)
    && s' == s.(rows := s'.rows, reapers := s'.reapers, runs := s'.runs, cancellers := s'.cancellers)
    && forall j :: j in s.rows ==>
         s'.rows[j] == s.rows[j] || (Terminal(s'.rows[j].status) && s'.rows[j].runner == s.rows[j].runner)
  }

  lemma EndingKeepsInv(p: Plan, s: State, s': State)
    requires Inv(p, s) && OnlyEnds(s, s')
    ensures Inv(p, s')
  {
    SchedulersKept(p, s, s');
    ExecutorsKept(s, s');
    SameQueueKeepsMessages(s, s');
    ChecksKept(p, s, s');
    forall j | Released(s', j) ensures j in s'.checked {
      assert HasMessage(s', j) ==> HasMessage(s, j);
      assert InFlight(s', j) ==> InFlight(s, j);
      assert Delivering(s', j) ==> Delivering(s, j);
      assert Released(s, j);
    }
    forall j | IsQueued(s'.rows, j)
      ensures HasMessage(s', j) || InFlight(s', j) || j in s'.stranded || j in s'.lost
    {
      assert IsQueued(s.rows, j);
      assert HasMessage(s, j) ==> HasMessage(s', j);
      assert InFlight(s, j) ==> InFlight(s', j);
    }
  }

  lemma InitHolds(p: Plan, s: State)
    requires Init(p, s)
    ensures Inv(p, s)
  {
  }

  lemma StepKeepsInv(p: Plan, s: State, e: Step)
    requires Inv(p, s) && Enabled(p, s, e)
    ensures Inv(p, Apply(p, s, e))
  {
    match e
    case Schedule(pid, what) => SchedulingKeepsInv(p, s, pid, what);
    case Execute(pid, act) => ExecutingKeepsInv(p, s, pid, act);
    case _ => EndingKeepsInv(p, s, Apply(p, s, e));
  }

  lemma SchedulingKeepsChecks(p: Plan, s: State, pid: nat, e: SchedulerStep)
    requires SchedulersSound(p, s) && ChecksSound(p, s) && CanSchedule(p, s, pid, e)
    ensures ChecksSound(p, Scheduled(p, s, pid, e))
  {
    if e.QueueJob? {
      QueueingIsChecked(p, s, pid, e.job, e.other);
    } else {
      ChecksKept(p, s, Scheduled(p, s, pid, e));
    }
  }

  lemma SchedulingKeepsReleased(p: Plan, s: State, pid: nat, e: SchedulerStep)
    requires Inv(p, s) && CanSchedule(p, s, pid, e)
    ensures ReleasedAreChecked(Scheduled(p, s, pid, e))
  {
    var s' := Scheduled(p, s, pid, e);
    forall j | Released(s', j) ensures j in s'.checked {
      SchedulingReleases(p, s, pid, e, j);
    }
  }

  lemma SchedulingKeepsAccounts(p: Plan, s: State, pid: nat, e: SchedulerStep)
    requires Inv(p, s) && CanSchedule(p, s, pid, e)
    ensures QueuedAccounted(Scheduled(p, s, pid, e))
  {
    var s' := Scheduled(p, s, pid, e);
    forall j | IsQueued(s'.rows, j)
      ensures HasMessage(s', j) || InFlight(s', j) || j in s'.stranded || j in s'.lost
    {
      SchedulingAccounts(p, s, pid, e, j);
    }
  }

  lemma SchedulingKeepsInv(p: Plan, s: State, pid: nat, e: SchedulerStep)
    requires Inv(p, s) && CanSchedule(p, s, pid, e)
    ensures Inv(p, Scheduled(p, s, pid, e))
  {
    SchedulingFrame(p, s, pid, e);
    SchedulingKeepsSchedulers(p, s, pid, e);
    SchedulingKeepsMessages(p, s, pid, e);
    SchedulingKeepsRunners(p, s, pid, e);
    SchedulingKeepsChecks(p, s, pid, e);
    SchedulingKeepsReleased(p, s, pid, e);
    SchedulingKeepsAccounts(p, s, pid, e);
    ExecutorsKept(s, Scheduled(p, s, pid, e));
  }

  lemma ExecutingKeepsInv(p: Plan, s: State, pid: nat, e: ExecutorStep)
    requires Inv(p, s) && CanExecute(s, pid, e)
    ensures Inv(p, Executed(s, pid, e))
  {
    var s' := Executed(s, pid, e);
    ExecutingFrame(s, pid, e);
    SchedulersKept(p, s, s');
    ExecutingKeepsExecutors(s, pid, e);
    ExecutingKeepsMessages(s, pid, e);
    ExecutingKeepsRunners(s, pid, e);
    ChecksKept(p, s, s');
    forall j | Released(s', j) ensures j in s'.checked {
      ExecutingReleases(s, pid, e, j);
    }
    forall j | IsQueued(s'.rows, j)
      ensures HasMessage(s', j) || InFlight(s', j) || j in s'.stranded || j in s'.lost
    {
      ExecutingAccounts(s, pid, e, j);
    }
  }

  /** The invariant holds after every run, from any state that has it. */
  lemma {:induction false} RunKeepsInv(p: Plan, s: State, es: seq<Step>)
    requires Inv(p, s) && Runs(p, s, es)
    ensures Inv(p, After(p, s, es))
    decreases |es|
  {
    if es != [] {
      StepKeepsInv(p, s, es[0]);
      RunKeepsInv(p, Apply(p, s, es[0]), es[1..]);
    }
  }

  // ---- messages with no delivery left --------------------------------------------

  /** The final delivery of `m` is in an executor's hands. */
  ghost predicate LastInHand(s: State, m: nat) {
    exists pid :: pid in s.executors && s.executors[pid].msg == m && s.executors[pid].attempt >= MAX_DELIVER
  }

  /** A message can be delivered again, or its last delivery is in hand, or an
      executor stopped on it. */
  ghost predicate LastOnesHeld(s: State) {
    forall m :: m in s.queue && s.queue[m].deliveries >= MAX_DELIVER ==>
      LastInHand(s, m) || s.queue[m].job in s.dropped
  }

  lemma QueueLeftAlone(s: State, s': State)
    requires LastOnesHeld(s) && s'.executors == s.executors && s.dropped <= s'.dropped
    requires forall m :: m in s'.queue && s'.queue[m].deliveries >= MAX_DELIVER ==>
               m in s.queue && s'.queue[m] == s.queue[m]
    ensures LastOnesHeld(s')
  {
    forall m | m in s'.queue && s'.queue[m].deliveries >= MAX_DELIVER
      ensures LastInHand(s', m) || s'.queue[m].job in s'.dropped
    {
      if LastInHand(s, m) {
        var pid :| pid in s.executors && s.executors[pid].msg == m && s.executors[pid].attempt >= MAX_DELIVER;
        assert pid in s'.executors;
      }
    }
  }

  lemma DeliveringKeepsLast(s: State, pid: nat, m: nat, n: nat)
    requires LastOnesHeld(s) && CanExecute(s, pid, Deliver(m))
    requires var s' := Executed(s, pid, Deliver(m)); n in s'.queue && s'.queue[n].deliveries >= MAX_DELIVER
    ensures var s' := Executed(s, pid, Deliver(m)); LastInHand(s', n) || s'.queue[n].job in s'.dropped
  {
    var s' := Executed(s, pid, Deliver(m));
    if n == m {
      assert s'.executors[pid].msg == n;
    } else if LastInHand(s, n) {
      var q :| q in s.executors && s.executors[q].msg == n && s.executors[q].attempt >= MAX_DELIVER;
      assert s'.executors[q] == s.executors[q];
    }
  }

  /** A delivery in hand stays so, unless it is acknowledged or stops. */
  lemma WorkFrame(s: State, pid: nat, e: ExecutorStep, q: nat)
    requires CanExecute(s, pid, e) && !e.Deliver? && q in s.executors
    ensures var s' := Executed(s, pid, e);
            && (forall n :: n in s'.queue ==> n in s.queue && s'.queue[n] == s.queue[n])
            && s.dropped <= s'.dropped
            && if q in s'.executors
               then s'.executors[q].msg == s.executors[q].msg && s'.executors[q].attempt == s.executors[q].attempt
               else q == pid && (e.Ack? ==> s.executors[q].msg !in s'.queue)
                    && (e.Nak? ==> s.executors[q].attempt < MAX_DELIVER)
                    && (e.ExecutorStops? && s.executors[q].attempt >= MAX_DELIVER ==> s.executors[q].job in s'.dropped)
                    && (e.Ack? || e.Nak? || e.ExecutorStops?)
  {
  }

  lemma WorkingKeepsLast(s: State, pid: nat, e: ExecutorStep, n: nat)
    requires LastOnesHeld(s) && MessagesSound(s) && CanExecute(s, pid, e) && !e.Deliver?
    requires var s' := Executed(s, pid, e); n in s'.queue && s'.queue[n].deliveries >= MAX_DELIVER
    ensures var s' := Executed(s, pid, e); LastInHand(s', n) || s'.queue[n].job in s'.dropped
  {
    var s' := Executed(s, pid, e);
    WorkFrame(s, pid, e, pid);
    if LastInHand(s, n) {
      var q :| q in s.executors && s.executors[q].msg == n && s.executors[q].attempt >= MAX_DELIVER;
      assert OwnMessage(s, s.executors[q]);
      WorkFrame(s, pid, e, q);
    }
  }

  lemma ExecutingKeepsLast(s: State, pid: nat, e: ExecutorStep)
    requires MessagesSound(s) && LastOnesHeld(s) && CanExecute(s, pid, e)
    ensures LastOnesHeld(Executed(s, pid, e))
  {
    var s' := Executed(s, pid, e);
    forall n | n in s'.queue && s'.queue[n].deliveries >= MAX_DELIVER
      ensures LastInHand(s', n) || s'.queue[n].job in s'.dropped
    {
      if e.Deliver? {
        DeliveringKeepsLast(s, pid, e.msg, n);
      } else {
        WorkingKeepsLast(s, pid, e, n);
      }
    }
  }

  lemma SchedulingKeepsLast(p: Plan, s: State, pid: nat, e: SchedulerStep)
    requires LastOnesHeld(s) && CanSchedule(p, s, pid, e)
    ensures LastOnesHeld(Scheduled(p, s, pid, e))
  {
    SchedulingFrame(p, s, pid, e);
    SchedulingDrops(p, s, pid, e);
    QueueLeftAlone(s, Scheduled(p, s, pid, e));
  }

  lemma StepKeepsLast(p: Plan, s: State, e: Step)
    requires Inv(p, s) && LastOnesHeld(s) && Enabled(p, s, e)
    ensures LastOnesHeld(Apply(p, s, e))
  {
    if e.Execute? {
      ExecutingKeepsLast(s, e.pid, e.act);
    } else if e.Schedule? {
      SchedulingKeepsLast(p, s, e.pid, e.what);
    } else {
      QueueLeftAlone(s, Apply(p, s, e));
    }
  }

  lemma SchedulingDrops(p: Plan, s: State, pid: nat, e: SchedulerStep)
    requires CanSchedule(p, s, pid, e)
    ensures Scheduled(p, s, pid, e).dropped == s.dropped
  {
  }

  lemma {:induction false} RunKeepsLast(p: Plan, s: State, es: seq<Step>)
    requires Inv(p, s) && LastOnesHeld(s) && Runs(p, s, es)
    ensures LastOnesHeld(After(p, s, es))
    decreases |es|
  {
    if es != [] {
      StepKeepsInv(p, s, es[0]);
      StepKeepsLast(p, s, es[0]);
      RunKeepsLast(p, Apply(p, s, es[0]), es[1..]);
    }
  }
}
