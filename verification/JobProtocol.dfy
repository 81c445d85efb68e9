/** The job protocol: schedulers, executors, reapers and cancels interleaving over
    the `ci_job` table and the work queue, where any process may stop between two
    statements.

    One step is one SQL statement or one queue action.  A process holds what it
    read earlier (a scheduler its two snapshots of the run, a reaper its list), so
    every decision below may be taken on stale data, exactly as in the program. */
module JobProtocol {
  import opened Common
  import opened JobStore

  const MAX_DELIVER: nat := 4

  /** What a condition comes to: run the job, skip it, or it has no value. */
  datatype Verdict = ToRun | ToSkip | ToRefuse

  /** The fixed part of a row.  `guard` is the job's `if:`, which reads the
      statuses of the needs and whatever else, here a number; `readable` says
      its stored plan can be read, `tolerant` that it has `continue-on-error`. */
  datatype Job = Job(
    run: string, base: string, needs: seq<string>,
    guard: Option<(View, nat) -> Verdict>, readable: bool, tolerant: bool)

  type Plan = map<JobId, Job>

  /** The statuses of one run's rows, as some process read them. */
  type View = map<JobId, Status>

  /** One call of `advance_run`.  `ahead` are the jobs its loop has not come to. */
  datatype Scheduler =
    | Reading(run: string, view: View)
    | Deciding(run: string, view: View, needs: View, ahead: set<JobId>)
    | Publishing(run: string, view: View, needs: View, ahead: set<JobId>, job: JobId)
    | RollingBack(run: string, view: View, needs: View, ahead: set<JobId>, job: JobId)
    | RollingUp(run: string, view: View)    // statuses read again, run row not written

  /** In the loop over the jobs. */
  predicate Visiting(x: Scheduler) {
    x.Deciding? || x.Publishing? || x.RollingBack?
  }

  /** Where one delivery has got to inside `consume`. */
  datatype Phase =
    | Fetched                  // delivered, row not read yet
    | Open                     // read as not terminal
    | Acquiring(runner: string)
    | Holding(runner: string, vm: string)
    | Between                  // started, next to look for a cancel
    | InStep
    | Closing(status: Final)   // outcome known, not yet written
    | Leaving                  // nothing left to write, but something to wait for
    | Settled                  // nothing left but to acknowledge
    | Broken                   // `run_job` returned Err, or was cut off
    | GaveUp                   // last attempt, failure written or lost

  /** `late` records whether the job was already over when the delivery began. */
  datatype Executor = Executor(msg: nat, job: JobId, attempt: nat, late: bool, phase: Phase)

  datatype Message = Message(job: JobId, deliveries: nat)

  datatype State = State(
    rows: Table,
    queue: map<nat, Message>,
    sequence: nat,               // the stream's next sequence number
    schedulers: map<nat, Scheduler>,
    executors: map<nat, Executor>,
    reapers: map<nat, set<JobId>>,
    runs: map<string, RunStatus>,
    cancellers: map<nat, string>, // run row written, job rows not
    published: set<JobId>,       // ids the stream's duplicate window has seen
    checked: map<JobId, View>,   // the `needs` snapshot each job was last queued on
    acked: set<JobId>,           // jobs some message of which was acknowledged
    stranded: set<JobId>,        // scheduler died before publishing, or a rollback failed
    lost: set<JobId>,            // the final attempt's status write did not land
    dropped: set<JobId>)         // an executor stopped on the final attempt, unacknowledged

  // ---- what a process reads ---------------------------------------------

  function Look(p: Plan, t: Table, run: string): View {
    map j | j in t && j in p && p[j].run == run :: t[j].status
  }

  predicate BaseDone(p: Plan, v: View, base: string) {
    && (exists c :: c in v && c in p && p[c].base == base)
    && (forall c :: c in v && c in p && p[c].base == base ==> Terminal(v[c]))
  }

  predicate Ready(p: Plan, v: View, j: JobId)
    requires j in p
  {
    forall n :: n in p[j].needs ==> BaseDone(p, v, n)
  }

  predicate ReadsFailed(p: Plan, v: View, j: JobId)
    requires j in p
  {
    exists c :: c in v && c in p && p[c].base in p[j].needs && Bad(v[c])
  }

  /** `should_run`: without an `if:`, only if nothing needed reads as failed. */
  function Judged(p: Plan, j: JobId, needs: View, other: nat): Verdict
    requires j in p
  {
    match p[j].guard
    case Some(guard) => guard(needs, other)
    case None => if ReadsFailed(p, needs, j) then ToSkip else ToRun
  }

  /** What `roll_up_run` makes of the statuses. */
  function RunOf(v: View): RunStatus {
    if exists j :: j in v && v[j].Cancelled? then RunCancelled
    else if exists j :: j in v && v[j].Failure? then RunFailure
    else if forall j :: j in v ==> v[j].Success? || v[j].Skipped? then RunSuccess
    else RunActive
  }

  // ---- the steps --------------------------------------------------------

  /** `advance_run`, statement by statement. */
  datatype SchedulerStep =
    | ReadJobs(run: string)
    | ReadNeeds
    | PassJob(job: JobId)                   // not pending, or not ready
    | SkipJob(job: JobId, other: nat)
    | RefuseJob(job: JobId, other: nat)     // unreadable plan, bad `if:`, no route
    | QueueJob(job: JobId, other: nat)
    | PublishNew
    | PublishDuplicate                      // collapsed by the message id
    | PublishFails(landed: bool)            // an error, whether or not it landed
    | Rollback
    | RollbackFails
    | ReadRows
    | WriteRun
    | SchedulerStops                        // an error or a crash, at any point

  /** `consume` and `run_job`, statement by statement. */
  datatype ExecutorStep =
    | Deliver(msg: nat)
    | ReadRow
    | ClaimRow(runner: string)
    | AcquireVm(vm: string)
    | StartRow
    | CheckCancelled
    | EndStep
    | StepsOver(succeeded: bool)            // done, or an error, which may be tolerated
    | WriteStatus
    | Leave
    | Break                                 // any error, or the job ceiling
    | GiveUp(written: bool)
    | Nak
    | Ack
    | ExecutorStops                         // crash, or an ack that was lost

  datatype Step =
    | Schedule(pid: nat, what: SchedulerStep)
    | Execute(pid: nat, act: ExecutorStep)
    | ReapRead(pid: nat, jobs: set<JobId>)  // fail_jobs_waiting_for_a_runner
    | ReapFail(pid: nat, job: JobId, written: bool)
    | ReaperStops(pid: nat)
    | CancelRow(pid: nat, run: string)      // cancel_run's first statement
    | CancelJobs(pid: nat)                  // and its second
    | CancellerStops(pid: nat)

  /** The loop has come to `j`, which was read as pending. */
  predicate Considers(p: Plan, x: Scheduler, j: JobId) {
    x.Deciding? && j in x.ahead && j in p && j in x.view && x.view[j].Pending?
  }

  /** And its plan can be read and its needs are over. */
  predicate Decides(p: Plan, x: Scheduler, j: JobId) {
    Considers(p, x, j) && p[j].readable && Ready(p, x.view, j)
  }

  /** The step is one for where the scheduler is. */
  predicate Due(x: Scheduler, e: SchedulerStep) {
    match e
    case ReadJobs(_) => false
    case ReadNeeds => x.Reading?
    case PassJob(j) => x.Deciding? && j in x.ahead
    case SkipJob(j, _) => x.Deciding? && j in x.ahead
    case RefuseJob(j, _) => x.Deciding? && j in x.ahead
    case QueueJob(j, _) => x.Deciding? && j in x.ahead
    case PublishNew => x.Publishing?
    case PublishDuplicate => x.Publishing?
    case PublishFails(_) => x.Publishing?
    case Rollback => x.RollingBack?
    case RollbackFails => x.RollingBack?
    case ReadRows => x.Deciding? && x.ahead == {}
    case WriteRun => x.RollingUp?
    case SchedulerStops => true
  }

  /** And the one `advance_run` takes there. */
  predicate Called(p: Plan, s: State, x: Scheduler, e: SchedulerStep) {
    Due(x, e) &&
    match e
    case PassJob(j) => Considers(p, x, j) ==> p[j].readable && !Ready(p, x.view, j)
    case SkipJob(j, other) => Decides(p, x, j) && Judged(p, j, x.needs, other) == ToSkip
    case RefuseJob(j, other) =>
      Considers(p, x, j) && (!p[j].readable || (Ready(p, x.view, j) && Judged(p, j, x.needs, other) != ToSkip))
    case QueueJob(j, other) => Decides(p, x, j) && Judged(p, j, x.needs, other) == ToRun
    case PublishDuplicate => x.job in s.published
    case _ => true
  }

  predicate CanSchedule(p: Plan, s: State, pid: nat, e: SchedulerStep) {
    if e.ReadJobs? then pid !in s.schedulers else pid in s.schedulers && Called(p, s, s.schedulers[pid], e)
  }

  predicate CanExecute(s: State, pid: nat, e: ExecutorStep) {
    if e.Deliver?
    then e.msg in s.queue && s.queue[e.msg].deliveries < MAX_DELIVER && pid !in s.executors
    else pid in s.executors && Follows(s.executors[pid], e)
  }

  predicate Follows(x: Executor, e: ExecutorStep) {
    match e
    case Deliver(msg) => false
    case ReadRow => x.phase.Fetched?
    case ClaimRow(runner) => x.phase.Open?
    case AcquireVm(vm) => x.phase.Acquiring?
    case StartRow => x.phase.Holding?
    case CheckCancelled => x.phase.Between?
    case EndStep => x.phase.InStep?
    case StepsOver(ok) => x.phase.Between? || x.phase.InStep?
    case WriteStatus => x.phase.Closing?
    case Leave => x.phase.Leaving?
    case Break => !x.phase.Settled? && !x.phase.Broken? && !x.phase.GaveUp?
    case GiveUp(written) => x.phase.Broken? && x.attempt >= MAX_DELIVER
    case Nak => x.phase.Broken? && x.attempt < MAX_DELIVER
    case Ack => x.phase.Settled? || x.phase.GaveUp?
    case ExecutorStops => true
  }

  /** A job has a step, and each is behind a look for a cancel, so without one
      the steps end only by an error, which `continue-on-error` calls success. */
  predicate EndsAs(job: Job, x: Executor, e: ExecutorStep) {
    e.StepsOver? ==> if e.succeeded then x.phase.InStep? || job.tolerant else !job.tolerant
  }

  predicate Enabled(p: Plan, s: State, e: Step) {
    match e
    case Schedule(pid, what) => CanSchedule(p, s, pid, what)
    case Execute(pid, act) =>
      && CanExecute(s, pid, act)
      && (act.StepsOver? ==> s.executors[pid].job in p && EndsAs(p[s.executors[pid].job], s.executors[pid], act))
    case ReapRead(pid, jobs) =>
      && pid !in s.reapers
      && forall j :: j in jobs ==>
           IsQueued(s.rows, j) && j in p && p[j].run in s.runs && s.runs[p[j].run] == RunActive
    case ReapFail(pid, j, _) => pid in s.reapers && j in s.reapers[pid]
    case ReaperStops(pid) => pid in s.reapers
    case CancelRow(pid, run) => pid !in s.cancellers && run in s.runs && s.runs[run] == RunActive
    case CancelJobs(pid) => pid in s.cancellers
    case CancellerStops(pid) => pid in s.cancellers
  }

  function Resume(x: Scheduler): Scheduler
    requires Visiting(x)
  {
    Deciding(x.run, x.view, x.needs, x.ahead)
  }

  /** On to the next job. */
  function Past(x: Scheduler, j: JobId): Scheduler
    requires x.Deciding?
  {
    Deciding(x.run, x.view, x.needs, x.ahead - {j})
  }

  function Enqueue(s: State, j: JobId): State {
    s.(queue := s.queue[s.sequence := Message(j, 0)], sequence := s.sequence + 1, published := s.published + {j})
  }

  /** What a scheduler's step writes to the job rows. */
  function SchedulerRows(t: Table, x: Scheduler, e: SchedulerStep): (after: Table)
    requires Due(x, e)
    ensures Forward(t, after)
  {
    match e
    case SkipJob(j, _) => SetStatus(t, j, Skipped)
    case RefuseJob(j, _) => SetStatus(t, j, Failure)
    case QueueJob(j, _) => Queue(t, j)
    case Rollback => Unqueue(t, x.job)
    case _ => t
  }

  /** Where a step leaves the scheduler, unless it ends it. */
  function NextScheduler(p: Plan, t: Table, x: Scheduler, e: SchedulerStep): Scheduler
    requires Due(x, e)
  {
    match e
    case ReadNeeds => Deciding(x.run, x.view, Look(p, t, x.run), x.view.Keys)
    case PassJob(j) => Past(x, j)
    case SkipJob(j, _) => Past(x, j)
    case RefuseJob(j, _) => Past(x, j)
    case QueueJob(j, _) =>
      if IsPending(t, j) then Publishing(x.run, x.view, x.needs, x.ahead - {j}, j) else Past(x, j)
    case PublishNew => Resume(x)
    case PublishDuplicate => Resume(x)
    case PublishFails(_) => RollingBack(x.run, x.view, x.needs, x.ahead, x.job)
    case Rollback => Resume(x)
    case RollbackFails => Resume(x)
    case ReadRows => RollingUp(x.run, Look(p, t, x.run))
    case _ => x
  }

  predicate Lands(e: SchedulerStep) {
    e.PublishNew? || (e.PublishFails? && e.landed)
  }

  function SchedulersAfter(p: Plan, s: State, pid: nat, e: SchedulerStep): map<nat, Scheduler>
    requires pid in s.schedulers && Due(s.schedulers[pid], e)
  {
    if e.WriteRun? || e.SchedulerStops? then s.schedulers - {pid}
    else s.schedulers[pid := NextScheduler(p, s.rows, s.schedulers[pid], e)]
  }

  function CheckedAfter(s: State, x: Scheduler, e: SchedulerStep): map<JobId, View>
    requires Due(x, e)
  {
    if e.QueueJob? && IsPending(s.rows, e.job) then s.checked[e.job := x.needs] else s.checked
  }

  function StrandedAfter(s: State, x: Scheduler, e: SchedulerStep): set<JobId>
    requires Due(x, e)
  {
    if e.RollbackFails? || (e.SchedulerStops? && (x.Publishing? || x.RollingBack?)) then s.stranded + {x.job}
    else s.stranded
  }

  function RunsAfter(s: State, x: Scheduler, e: SchedulerStep): map<string, RunStatus>
    requires Due(x, e)
  {
    if e.WriteRun? && x.run in s.runs then s.runs[x.run := RunOf(x.view)] else s.runs
  }

  function Landed(s: State, x: Scheduler, e: SchedulerStep): (after: State)
    requires Due(x, e)
  {
    if Lands(e) then Enqueue(s, x.job) else s
  }

  function Scheduled(p: Plan, s: State, pid: nat, e: SchedulerStep): (after: State)
    requires CanSchedule(p, s, pid, e)
    ensures Forward(s.rows, after.rows)
  {
    if e.ReadJobs? then s.(schedulers := s.schedulers[pid := Reading(e.run, Look(p, s.rows, e.run))])
    else
      var x := s.schedulers[pid];
      Landed(s, x, e).(
        rows := SchedulerRows(s.rows, x, e),
        schedulers := SchedulersAfter(p, s, pid, e),
        checked := CheckedAfter(s, x, e),
        stranded := StrandedAfter(s, x, e),
        runs := RunsAfter(s, x, e))
  }

  /** What a step of a delivery writes to the job's row. */
  function ExecutorRows(t: Table, x: Executor, e: ExecutorStep): (after: Table)
    requires Follows(x, e)
    ensures Forward(t, after)
    ensures forall j :: j in t && j != x.job ==> after[j] == t[j]
  {
    match e
    case ClaimRow(runner) => Claim(t, x.job, runner, x.attempt)
    case StartRow => Start(t, x.job, x.phase.runner, x.phase.vm, x.attempt)
    case WriteStatus => SetStatus(t, x.job, x.phase.status)
    case GiveUp(written) => if written then SetStatus(t, x.job, Failure) else t
    case _ => t
  }

  /** Where a step leaves the delivery. */
  function NextPhase(t: Table, x: Executor, e: ExecutorStep): Phase
    requires Follows(x, e)
  {
    match e
    case ReadRow => if IsOpen(t, x.job) then Open else Settled
    case ClaimRow(runner) => if IsOpen(t, x.job) then Acquiring(runner) else Settled
    case AcquireVm(vm) => Holding(x.phase.runner, vm)
    case StartRow => if IsOpen(t, x.job) then Between else Leaving
    case CheckCancelled =>
      if x.job in t && t[x.job].status.Cancelled? then Closing(Cancelled) else InStep
    case EndStep => Between
    case StepsOver(ok) => Closing(if ok then Success else Failure)
    case WriteStatus => Leaving
    case Leave => Settled
    case Break => Broken
    case GiveUp(written) => GaveUp
    case _ => x.phase
  }

  function Delivered(s: State, pid: nat, m: nat): State
    requires m in s.queue
  {
    var msg := s.queue[m];
    s.(queue := s.queue[m := msg.(deliveries := msg.deliveries + 1)],
       executors := s.executors[pid := Executor(m, msg.job, msg.deliveries + 1, !IsOpen(s.rows, msg.job), Fetched)])
  }

  function Acked(s: State, pid: nat): State
    requires pid in s.executors
  {
    var x := s.executors[pid];
    s.(queue := s.queue - {x.msg}, acked := s.acked + {x.job}, executors := s.executors - {pid})
  }

  function Stopped(s: State, pid: nat): State
    requires pid in s.executors
  {
    var x := s.executors[pid];
    s.(executors := s.executors - {pid},
       dropped := if x.attempt >= MAX_DELIVER then s.dropped + {x.job} else s.dropped)
  }

  function Worked(s: State, pid: nat, e: ExecutorStep): State
    requires pid in s.executors && Follows(s.executors[pid], e)
  {
    var x := s.executors[pid];
    s.(rows := ExecutorRows(s.rows, x, e),
       executors := s.executors[pid := x.(phase := NextPhase(s.rows, x, e))],
       lost := if e.GiveUp? && !e.written then s.lost + {x.job} else s.lost)
  }

  function Executed(s: State, pid: nat, e: ExecutorStep): (after: State)
    requires CanExecute(s, pid, e)
    ensures Forward(s.rows, after.rows)
  {
    if e.Deliver? then Delivered(s, pid, e.msg)
    else if e.Nak? then s.(executors := s.executors - {pid})
    else if e.ExecutorStops? then Stopped(s, pid)
    else if e.Ack? then Acked(s, pid)
    else Worked(s, pid, e)
  }

  function Apply(p: Plan, s: State, e: Step): (after: State)
    requires Enabled(p, s, e)
    ensures Forward(s.rows, after.rows)
  {
    match e
    case Schedule(pid, what) => Scheduled(p, s, pid, what)
    case Execute(pid, act) => Executed(s, pid, act)
    case ReapRead(pid, jobs) => s.(reapers := s.reapers[pid := jobs])
    case ReapFail(pid, j, written) =>
      s.(rows := if written then SetStatus(s.rows, j, Failure) else s.rows,
         reapers := s.reapers[pid := s.reapers[pid] - {j}])
    case ReaperStops(pid) => s.(reapers := s.reapers - {pid})
    case CancelRow(pid, run) =>
      s.(runs := s.runs[run := RunCancelled], cancellers := s.cancellers[pid := run])
    case CancelJobs(pid) =>
      s.(rows := CancelAll(s.rows, set j | j in p && p[j].run == s.cancellers[pid]),
         cancellers := s.cancellers - {pid})
    case CancellerStops(pid) => s.(cancellers := s.cancellers - {pid})
  }

  ghost predicate Init(p: Plan, s: State) {
    && s.rows.Keys == p.Keys
    && (forall j :: j in s.rows ==> s.rows[j] == Row(Pending, None, None, 1))
    && s.queue == map[] && s.sequence == 0 && s.schedulers == map[] && s.executors == map[] && s.reapers == map[]
    && s.published == {} && s.checked == map[] && s.acked == {} && s.stranded == {} && s.lost == {}
    && s.dropped == {} && s.cancellers == map[]
    && s.runs.Keys == (set j | j in p :: p[j].run) && forall r :: r in s.runs ==> s.runs[r] == RunActive
  }

  /** `es` can be taken from `s`, and `After` is where they lead. */
  predicate Runs(p: Plan, s: State, es: seq<Step>)
    decreases |es|
  {
    es == [] || (Enabled(p, s, es[0]) && Runs(p, Apply(p, s, es[0]), es[1..]))
  }

  function After(p: Plan, s: State, es: seq<Step>): (after: State)
    requires Runs(p, s, es)
    ensures Forward(s.rows, after.rows)
    decreases |es|
  {
    if es == [] then s
    else
      var m := Apply(p, s, es[0]);
      var r := After(p, m, es[1..]);
      ForwardTransitive(s.rows, m.rows, r.rows);
      r
  }
}
