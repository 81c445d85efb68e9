/** What holds after every run of the job protocol, however its processes
    interleave, stop and are redelivered. */
module JobGuarantees {
  import opened JobStore
  import opened JobProtocol
  import opened JobInvariant

  /** Dependencies first.  However the run went, a job that is queued, running,
      on the queue or being worked on has every cell of everything it needs over,
      each needed base has a cell, and the snapshot it was queued on showed every
      cell of the run, those needed over and, unless the job carries its own
      `if:`, none of them failed or cancelled.  If it does, the `if:` came to
      true on that snapshot. */
  lemma NeedsAreOverFirst(p: Plan, s0: State, es: seq<Step>, j: JobId)
    requires Init(p, s0) && Runs(p, s0, es) && Released(After(p, s0, es), j)
    ensures var s := After(p, s0, es);
            && j in p && s.rows.Keys == p.Keys && j in s.checked
            && (forall n :: n in p[j].needs ==> exists c :: c in p && p[c].run == p[j].run && p[c].base == n)
            && (forall c :: c in p && p[c].run == p[j].run && p[c].base in p[j].needs ==> Terminal(s.rows[c].status))
            && (forall c :: c in s.checked[j] <==> c in p && p[c].run == p[j].run)
            && (forall c :: c in s.checked[j] && p[c].base in p[j].needs ==>
                  Terminal(s.checked[j][c]) && (p[j].guard.None? ==> !Bad(s.checked[j][c])))
            && (p[j].guard.Some? ==> exists other :: p[j].guard.value(s.checked[j], other) == ToRun)
  {
    InitHolds(p, s0);
    RunKeepsInv(p, s0, es);
    var s := After(p, s0, es);
    assert WellChecked(p, s, j);
    var v := Look(p, s.rows, p[j].run);
    forall n | n in p[j].needs ensures exists c :: c in p && p[c].run == p[j].run && p[c].base == n {
      assert BaseDone(p, v, n);
    }
    forall c | c in p && p[c].run == p[j].run && p[c].base in p[j].needs ensures Terminal(s.rows[c].status) {
      assert BaseDone(p, v, p[c].base) && c in v;
    }
  }

  /** So a job whose `if:` never comes to true is never queued, started, on the
      queue or worked on: it stays pending until it is over. */
  lemma NeverToldNeverReleased(p: Plan, s0: State, es: seq<Step>, j: JobId)
    requires Init(p, s0) && Runs(p, s0, es) && j in p && p[j].guard.Some?
    requires forall v, other :: p[j].guard.value(v, other) != ToRun
    ensures !Released(After(p, s0, es), j)
    ensures var s := After(p, s0, es); j in s.rows && (s.rows[j].status.Pending? || Terminal(s.rows[j].status))
  {
    if Released(After(p, s0, es), j) {
      NeedsAreOverFirst(p, s0, es, j);
    }
  }

  /** A delivery that begins once its job is over never claims the job, a VM or a
      step, and neither does anything it does later. */
  lemma LateDeliveriesDoNothing(p: Plan, s0: State, es: seq<Step>, pid: nat)
    requires Init(p, s0) && Runs(p, s0, es)
    requires pid in After(p, s0, es).executors && After(p, s0, es).executors[pid].late
    ensures var s := After(p, s0, es);
            var x := s.executors[pid];
            && x.job in s.rows && Terminal(s.rows[x.job].status)
            && (x.phase.Fetched? || x.phase.Settled? || x.phase.Broken? || x.phase.GaveUp?)
  {
    InitHolds(p, s0);
    RunKeepsInv(p, s0, es);
    var s := After(p, s0, es);
    assert ExecutorSound(s.rows, s.lost, s.executors[pid]);
  }

  /** A message is acknowledged only for a job that is over, unless the write that
      ends the final attempt was itself lost. */
  lemma AckedMeansOver(p: Plan, s0: State, es: seq<Step>, j: JobId)
    requires Init(p, s0) && Runs(p, s0, es) && j in After(p, s0, es).acked
    ensures var s := After(p, s0, es);
            j in s.rows && (Terminal(s.rows[j].status) || j in s.lost)
  {
    InitHolds(p, s0);
    RunKeepsInv(p, s0, es);
  }

  /** A message of `j` that has a delivery left. */
  ghost predicate Deliverable(s: State, j: JobId) {
    exists m :: m in s.queue && s.queue[m].job == j && s.queue[m].deliveries < MAX_DELIVER
  }

  /** A queued job comes back: a message of it has a delivery left, or one is in
      an executor's hands.  Otherwise a scheduler stands between the two stores,
      or one stopped there, a rollback failed, a final write was lost, or an
      executor stopped on the last delivery. */
  lemma QueuedMeansOnTheQueue(p: Plan, s0: State, es: seq<Step>, j: JobId)
    requires Init(p, s0) && Runs(p, s0, es) && IsQueued(After(p, s0, es).rows, j)
    ensures var s := After(p, s0, es);
            || Deliverable(s, j) || Delivering(s, j) || InFlight(s, j)
            || j in s.stranded || j in s.lost || j in s.dropped
  {
    InitHolds(p, s0);
    RunKeepsInv(p, s0, es);
    RunKeepsLast(p, s0, es);
    var s := After(p, s0, es);
    if HasMessage(s, j) {
      StillComing(s, j);
    }
  }

  lemma StillComing(s: State, j: JobId)
    requires MessagesSound(s) && LastOnesHeld(s) && HasMessage(s, j)
    ensures Deliverable(s, j) || Delivering(s, j) || j in s.dropped
  {
    var m :| m in s.queue && s.queue[m].job == j;
    if LastInHand(s, m) {
      var pid :| pid in s.executors && s.executors[pid].msg == m && s.executors[pid].attempt >= MAX_DELIVER;
      assert OwnMessage(s, s.executors[pid]);
    }
  }

  /** No row a reaper can list carries a runner, so its check whether "the runner"
      is online never spares a job. */
  lemma ReaperNeverSpares(p: Plan, s0: State, es: seq<Step>, pid: nat, jobs: set<JobId>, j: JobId)
    requires Init(p, s0) && Runs(p, s0, es)
    requires Enabled(p, After(p, s0, es), ReapRead(pid, jobs)) && j in jobs
    ensures j in After(p, s0, es).rows && After(p, s0, es).rows[j].runner.None?
  {
    InitHolds(p, s0);
    RunKeepsInv(p, s0, es);
    assert IsQueued(After(p, s0, es).rows, j);
  }
}
