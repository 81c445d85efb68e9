/** A cancel that does not last. */
module JobEndings {
  import opened JobStore
  import opened JobProtocol
  import opened JobHands

  /** One more step of a run. */
  lemma Extend(p: Plan, s0: State, es: seq<Step>, s: State, e: Step) returns (es': seq<Step>, s': State)
    requires Runs(p, s0, es) && s == After(p, s0, es) && Enabled(p, s, e)
    ensures es' == es + [e] && Runs(p, s0, es') && s' == After(p, s0, es') && s' == Apply(p, s, e)
  {
    es', s' := es + [e], Apply(p, s, e);
    First(p, s, e, []);
    assert [e] + [] == [e];
    Joined(p, s0, es, [e]);
  }

  ghost predicate OnIt(s: State, j: JobId, ph: Phase) {
    IsOpen(s.rows, j) && 0 in s.executors && s.executors[0].job == j && s.executors[0].phase == ph
  }

  predicate Leads(from: Phase, e: ExecutorStep, to: Phase) {
    || (from == Fetched && e == ReadRow && to == Open)
    || (from == Open && e == ClaimRow("h") && to == Acquiring("h"))
    || (from == Acquiring("h") && e == AcquireVm("v") && to == Holding("h", "v"))
    || (from == Holding("h", "v") && e == StartRow && to == Between)
    || (from == Between && e == CheckCancelled && to == InStep)
  }

  lemma Led(s: State, j: JobId, from: Phase, e: ExecutorStep, to: Phase)
    requires OnIt(s, j, from) && Leads(from, e, to)
    ensures CanExecute(s, 0, e) && OnIt(Executed(s, 0, e), j, to)
    ensures var s' := Executed(s, 0, e);
            s' == s.(rows := s'.rows, executors := s'.executors) && s'.executors.Keys == s.executors.Keys
            && s'.executors[0].msg == s.executors[0].msg && s'.rows.Keys == s.rows.Keys
  {
  }

  /** Nothing but the delivery and the job rows has moved. */
  ghost predicate OnlyOn(s: State, s': State) {
    && s' == s.(rows := s'.rows, executors := s'.executors) && s'.rows.Keys == s.rows.Keys
    && 0 in s.executors && s'.executors.Keys == s.executors.Keys && s'.executors[0].msg == s.executors[0].msg
  }

  /** A delivery of a job nobody has ended goes on to the next phase. */
  lemma Proceed(p: Plan, s0: State, es: seq<Step>, s: State, j: JobId, from: Phase, e: ExecutorStep, to: Phase)
    returns (es': seq<Step>, s': State)
    requires Runs(p, s0, es) && s == After(p, s0, es) && OnIt(s, j, from) && Leads(from, e, to)
    ensures Runs(p, s0, es') && s' == After(p, s0, es') && OnIt(s', j, to) && OnlyOn(s, s')
  {
    Led(s, j, from, e, to);
    es', s' := Extend(p, s0, es, s, Execute(0, e));
  }

  /** And so up to its first step. */
  lemma WorkOnIt(p: Plan, s0: State, es0: seq<Step>, s: State, j: JobId) returns (es: seq<Step>, s': State)
    requires Runs(p, s0, es0) && s == After(p, s0, es0) && OnIt(s, j, Fetched)
    ensures Runs(p, s0, es) && s' == After(p, s0, es) && OnIt(s', j, InStep) && OnlyOn(s, s')
  {
    es, s' := Proceed(p, s0, es0, s, j, Fetched, ReadRow, Open);
    es, s' := Proceed(p, s0, es, s', j, Open, ClaimRow("h"), Acquiring("h"));
    es, s' := Proceed(p, s0, es, s', j, Acquiring("h"), AcquireVm("v"), Holding("h", "v"));
    es, s' := Proceed(p, s0, es, s', j, Holding("h", "v"), StartRow, Between);
    es, s' := Proceed(p, s0, es, s', j, Between, CheckCancelled, InStep);
  }

  /** The `k`-th step ends a cancel of `j`'s run, and leaves `j` cancelled. */
  ghost predicate CancelledBy(p: Plan, s0: State, es: seq<Step>, k: nat, j: JobId)
    requires j in p
  {
    && 0 < k < |es| && es[k - 1] == CancelRow(0, p[j].run) && es[k] == CancelJobs(0) && Runs(p, s0, es[..k + 1])
    && j in After(p, s0, es[..k + 1]).rows && After(p, s0, es[..k + 1]).rows[j].status == Cancelled
  }

  /** Cancelled during its last step. */
  ghost predicate CutShort(s: State, j: JobId) {
    && j in s.rows && s.rows[j].status == Cancelled
    && 0 in s.executors && s.executors[0].job == j && s.executors[0].phase == InStep
  }

  lemma CancelInStep(p: Plan, t: State, j: JobId)
    requires j in p && OnIt(t, j, InStep) && 0 in t.cancellers && t.cancellers[0] == p[j].run
    ensures CutShort(Apply(p, t, CancelJobs(0)), j)
  {
  }

  lemma FinishAnyway(p: Plan, s0: State, es1: seq<Step>, s1: State, j: JobId) returns (es: seq<Step>, s: State)
    requires Runs(p, s0, es1) && s1 == After(p, s0, es1) && CutShort(s1, j) && j in p
    ensures Runs(p, s0, es) && s == After(p, s0, es) && j in s.rows && s.rows[j].status == Success
    ensures |es1| <= |es| && es[..|es1|] == es1
  {
    StepsEnd(s1, 0, true);
    var es2, s2 := Extend(p, s0, es1, s1, Execute(0, StepsOver(true)));
    WriteEnds(s2, 0);
    es, s := Extend(p, s0, es2, s2, Execute(0, WriteStatus));
  }

  lemma CancelIt(p: Plan, s0: State, es0: seq<Step>, t: State, j: JobId) returns (es: seq<Step>, s: State, k: nat)
    requires Runs(p, s0, es0) && t == After(p, s0, es0) && j in p && OnIt(t, j, InStep)
    requires t.cancellers == map[] && p[j].run in t.runs && t.runs[p[j].run] == RunActive
    ensures Runs(p, s0, es) && s == After(p, s0, es) && CutShort(s, j) && CancelledBy(p, s0, es, k, j)
  {
    var es1, s1 := Extend(p, s0, es0, t, CancelRow(0, p[j].run));
    CancelInStep(p, s1, j);
    es, s := Extend(p, s0, es1, s1, CancelJobs(0));
    k := |es0| + 1;
    CancelledAt(p, s0, es, k, j);
  }

  lemma CancelledAt(p: Plan, s0: State, es: seq<Step>, k: nat, j: JobId)
    requires j in p && 0 < k && |es| == k + 1 && es[k - 1] == CancelRow(0, p[j].run) && es[k] == CancelJobs(0)
    requires Runs(p, s0, es) && CutShort(After(p, s0, es), j)
    ensures CancelledBy(p, s0, es, k, j)
  {
    assert es[..k + 1] == es;
  }

  lemma CancelledStill(p: Plan, s0: State, es1: seq<Step>, es: seq<Step>, k: nat, j: JobId)
    requires j in p && CancelledBy(p, s0, es1, k, j) && |es1| <= |es| && es[..|es1|] == es1
    ensures CancelledBy(p, s0, es, k, j)
  {
    assert es[..k + 1] == es1[..k + 1] && es[k] == es[..|es1|][k] && es[k - 1] == es[..|es1|][k - 1];
  }

  /** A job that can be queued at once. */
  predicate Plain(p: Plan, j: JobId) {
    j in p && p[j].needs == [] && p[j].guard.None? && p[j].readable
  }

  /** Its scheduler has put it on the queue, and has the other jobs ahead. */
  ghost predicate JustQueued(p: Plan, s0: State, s: State, j: JobId)
    requires j in p
  {
    && s.queue == map[0 := Message(j, 0)] && s.executors == map[] && s.cancellers == map[] && s.runs == s0.runs
    && s.rows == Queue(s0.rows, j) && IsOpen(s.rows, j) && s.reapers == map[]
    && s.schedulers.Keys == {0} && s.schedulers[0].Deciding? && s.schedulers[0].run == p[j].run
    && s.schedulers[0].ahead == Look(p, s0.rows, p[j].run).Keys - {j}
  }

  /** The run's only scheduler is at the head of its list. */
  ghost predicate AtHead(p: Plan, s0: State, s: State, run: string) {
    var v := Look(p, s0.rows, run); s == s0.(schedulers := map[0 := Deciding(run, v, v, v.Keys)])
  }

  lemma ReadIt(p: Plan, s0: State, run: string) returns (es: seq<Step>, s: State)
    requires Init(p, s0)
    ensures Runs(p, s0, es) && s == After(p, s0, es) && AtHead(p, s0, s, run)
  {
    es, s := Extend(p, s0, [], s0, Schedule(0, ReadJobs(run)));
    es, s := Extend(p, s0, es, s, Schedule(0, ReadNeeds));
  }

  lemma QueueStep(p: Plan, s0: State, s: State, j: JobId)
    requires Init(p, s0) && Plain(p, j) && AtHead(p, s0, s, p[j].run)
    ensures CanSchedule(p, s, 0, QueueJob(j, 0))
    ensures var v, s' := Look(p, s0.rows, p[j].run), Scheduled(p, s, 0, QueueJob(j, 0));
            s' == s0.(rows := Queue(s0.rows, j), checked := s'.checked,
                      schedulers := map[0 := Publishing(p[j].run, v, v, v.Keys - {j}, j)])
  {
  }

  lemma PublishStep(p: Plan, s0: State, s: State, j: JobId)
    requires Init(p, s0) && Plain(p, j)
    requires var v := Look(p, s0.rows, p[j].run);
             s == s0.(rows := Queue(s0.rows, j), checked := s.checked,
                      schedulers := map[0 := Publishing(p[j].run, v, v, v.Keys - {j}, j)])
    ensures CanSchedule(p, s, 0, PublishNew) && JustQueued(p, s0, Scheduled(p, s, 0, PublishNew), j)
  {
  }

  lemma QueueIt(p: Plan, s0: State, j: JobId) returns (es: seq<Step>, s: State)
    requires Init(p, s0) && Plain(p, j)
    ensures Runs(p, s0, es) && s == After(p, s0, es) && JustQueued(p, s0, s, j)
  {
    es, s := ReadIt(p, s0, p[j].run);
    QueueStep(p, s0, s, j);
    es, s := Extend(p, s0, es, s, Schedule(0, QueueJob(j, 0)));
    PublishStep(p, s0, s, j);
    es, s := Extend(p, s0, es, s, Schedule(0, PublishNew));
  }

  lemma DeliverStep(t: State, j: JobId)
    requires IsOpen(t.rows, j) && t.queue == map[0 := Message(j, 0)] && t.executors == map[]
    ensures CanExecute(t, 0, Deliver(0)) && OnIt(Executed(t, 0, Deliver(0)), j, Fetched)
    ensures var s := Executed(t, 0, Deliver(0));
            && s == t.(queue := map[0 := Message(j, 1)], executors := s.executors)
            && s.executors.Keys == {0} && s.executors[0].msg == 0
  {
  }

  lemma DeliverIt(p: Plan, s0: State, es0: seq<Step>, t: State, j: JobId) returns (es: seq<Step>, s: State)
    requires Runs(p, s0, es0) && t == After(p, s0, es0) && IsOpen(t.rows, j)
    requires t.queue == map[0 := Message(j, 0)] && t.executors == map[]
    ensures Runs(p, s0, es) && s == After(p, s0, es) && OnIt(s, j, Fetched)
    ensures s == t.(queue := map[0 := Message(j, 1)], executors := s.executors)
    ensures s.executors.Keys == {0} && s.executors[0].msg == 0
  {
    DeliverStep(t, j);
    es, s := Extend(p, s0, es0, t, Execute(0, Deliver(0)));
  }

  /** So "cancelled stays cancelled" fails: in any plan with a job that needs
      nothing, a cancel that lands during the last step ends the job as
      cancelled, and is then overwritten by `success`. */
  lemma ACancelCanBeOverwritten(p: Plan, s0: State, j: JobId) returns (es: seq<Step>, k: nat)
    requires Init(p, s0) && Plain(p, j)
    ensures CancelledBy(p, s0, es, k, j)
    ensures Runs(p, s0, es) && j in After(p, s0, es).rows && After(p, s0, es).rows[j].status == Success
  {
    var es1, s := QueueIt(p, s0, j);
    es1, s := DeliverIt(p, s0, es1, s, j);
    es1, s := WorkOnIt(p, s0, es1, s, j);
    es1, s, k := CancelIt(p, s0, es1, s, j);
    es, s := FinishAnyway(p, s0, es1, s, j);
    CancelledStill(p, s0, es1, es, k, j);
  }
}
