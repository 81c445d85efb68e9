/** When the ending a finished job shows is final.  A write that ends a job looks at
    no status, so an ending lasts exactly as long as nobody who could write another
    one still has the job in hand. */
module JobHands {
  import opened JobStore
  import opened JobProtocol

  // ---- who can still write what ---------------------------------------------------

  /** Something that can still act on a job. */
  datatype Hand =
    | InScheduler(pid: nat)
    | InReaper(pid: nat)
    | InMessage(msg: nat)
    | InExecutor(pid: nat)

  function Ahead(x: Scheduler): set<JobId> {
    match x
    case Reading(_, view) => view.Keys
    case RollingUp(_, _) => {}
    case _ => x.ahead
  }

  /** The scheduler has yet to come to `j`, and will find it pending. */
  predicate Expects(x: Scheduler, j: JobId) {
    j in Ahead(x) && j in x.view && x.view[j].Pending?
  }

  /** `es` can happen while scheduler `pid` stays where it is. */
  ghost predicate Passes(p: Plan, s: State, es: seq<Step>, pid: nat) {
    && pid in s.schedulers && Runs(p, s, es)
    && pid in After(p, s, es).schedulers && After(p, s, es).schedulers[pid] == s.schedulers[pid]
  }

  /** Scheduler `pid` may come to the verdict `v` on `j`: from the needs it has
      read or, if it has not, from some it may yet read. */
  ghost predicate MayJudge(p: Plan, s: State, pid: nat, j: JobId, v: Verdict)
    requires j in p && pid in s.schedulers
  {
    var x := s.schedulers[pid];
    if Visiting(x) then exists other :: Judged(p, j, x.needs, other) == v
    else exists es, other ::
      Passes(p, s, es, pid) && Judged(p, j, Look(p, After(p, s, es).rows, x.run), other) == v
  }

  /** Scheduler `pid` can still write a status outside `good` on `j`. */
  ghost predicate SchedulerActs(p: Plan, s: State, pid: nat, j: JobId, good: set<Status>)
    requires j in p && pid in s.schedulers
  {
    var x := s.schedulers[pid];
    || (x.Publishing? && x.job == j && Failure !in good)
    || (Expects(x, j) && !p[j].readable && Failure !in good)
    || (&& Expects(x, j) && p[j].readable && Ready(p, x.view, j)
        && (|| (MayJudge(p, s, pid, j, ToSkip) && Skipped !in good)
            || ((MayJudge(p, s, pid, j, ToRun) || MayJudge(p, s, pid, j, ToRefuse)) && Failure !in good)))
  }

  /** A delivery can still write a status outside `good`: by giving up, at the
      end of its steps, or with the outcome it knows. */
  predicate ExecutorActs(tolerant: bool, x: Executor, good: set<Status>) {
    || (x.attempt >= MAX_DELIVER && !x.phase.Settled? && !x.phase.GaveUp? && Failure !in good)
    || ((x.phase.Between? || x.phase.InStep?) && (Success !in good || (!tolerant && Failure !in good)))
    || (x.phase.Closing? && x.phase.status !in good)
  }

  ghost predicate Holds(p: Plan, s: State, j: JobId, good: set<Status>, h: Hand)
    requires j in p
  {
    match h
    case InScheduler(pid) => pid in s.schedulers && SchedulerActs(p, s, pid, j, good)
    case InReaper(pid) => pid in s.reapers && j in s.reapers[pid] && Failure !in good
    case InMessage(m) =>
      m in s.queue && s.queue[m].job == j && s.queue[m].deliveries < MAX_DELIVER && Failure !in good
    case InExecutor(pid) =>
      pid in s.executors && s.executors[pid].job == j && ExecutorActs(p[j].tolerant, s.executors[pid], good)
  }

  ghost predicate OutOfHands(p: Plan, s: State, j: JobId, good: set<Status>)
    requires j in p
  {
    forall h :: !Holds(p, s, j, good, h)
  }

  /** `j` is over, and shows one of `good`. */
  ghost predicate Shows(s: State, j: JobId, good: set<Status>) {
    j in s.rows && Terminal(s.rows[j].status) && s.rows[j].status in good
  }

  /** Every set of endings but those that hold cancelled and failure without
      success.  For them it can matter whether a cancel is overwritten by a
      failure before or after a delivery looks for it. */
  predicate Decisive(good: set<Status>) {
    Cancelled in good && Failure in good ==> Success in good
  }

  // ---- runs, taken apart and put together ---------------------------------------------

  lemma First(p: Plan, s: State, e: Step, es: seq<Step>)
    requires Enabled(p, s, e) && Runs(p, Apply(p, s, e), es)
    ensures Runs(p, s, [e] + es) && After(p, s, [e] + es) == After(p, Apply(p, s, e), es)
  {
    assert ([e] + es)[1..] == es;
  }

  lemma Head(p: Plan, s: State, es: seq<Step>, more: seq<Step>) returns (s1: State)
    requires es != [] && Runs(p, s, es)
    ensures Runs(p, s1, es[1..]) && After(p, s, es) == After(p, s1, es[1..])
    ensures Runs(p, s1, es[1..] + more) ==>
              Runs(p, s, es + more) && After(p, s, es + more) == After(p, s1, es[1..] + more)
  {
    s1 := Apply(p, s, es[0]);
    if Runs(p, s1, es[1..] + more) {
      First(p, s, es[0], es[1..] + more);
      assert [es[0]] + (es[1..] + more) == es + more;
    }
  }

  lemma {:induction false} Joined(p: Plan, s: State, es: seq<Step>, more: seq<Step>)
    requires Runs(p, s, es) && Runs(p, After(p, s, es), more)
    ensures Runs(p, s, es + more) && After(p, s, es + more) == After(p, After(p, s, es), more)
    decreases |es|
  {
    if es == [] {
      assert es + more == more;
    } else {
      var s1 := Head(p, s, es, more);
      Joined(p, s1, es[1..], more);
    }
  }

  // ---- out of hands, a job stays as it is -----------------------------------------

  /** `y` is `x` some steps on: the same, or with the needs read in state `s`,
      and publishing `j` only if it was. */
  ghost predicate Carries(p: Plan, s: State, x: Scheduler, y: Scheduler, j: JobId) {
    if Visiting(y) then
      && y.view == x.view && y.ahead <= Ahead(x)
      && (x.Reading? || Visiting(x))
      && (if x.Reading? then y.needs == Look(p, s.rows, x.run) else y.needs == x.needs)
      && (y.Publishing? && y.job == j ==> x.Publishing? && x.job == j)
    else y == x
  }

  lemma SchedulerMoves(p: Plan, s: State, x: Scheduler, e: SchedulerStep, j: JobId)
    requires Called(p, s, x, e) && j in s.rows && Terminal(s.rows[j].status)
    ensures var y := NextScheduler(p, s.rows, x, e); y.RollingUp? || Carries(p, s, x, y, j)
  {
  }

  lemma ReadingJudgesOn(p: Plan, s: State, e: Step, pid: nat, j: JobId, v: Verdict)
    requires j in p && Enabled(p, s, e) && pid in s.schedulers && pid in Apply(p, s, e).schedulers
    requires Apply(p, s, e).schedulers[pid] == s.schedulers[pid] && MayJudge(p, Apply(p, s, e), pid, j, v)
    ensures MayJudge(p, s, pid, j, v)
  {
    var s', x := Apply(p, s, e), s.schedulers[pid];
    if !Visiting(x) {
      var es, other :|
        Passes(p, s', es, pid) && Judged(p, j, Look(p, After(p, s', es).rows, x.run), other) == v;
      First(p, s, e, es);
      assert Passes(p, s, [e] + es, pid);
    }
  }

  /** Reading the needs now is one of the things that may come. */
  lemma JudgesNow(p: Plan, s: State, pid: nat, j: JobId, other: nat)
    requires j in p && pid in s.schedulers && !Visiting(s.schedulers[pid])
    ensures MayJudge(p, s, pid, j, Judged(p, j, Look(p, s.rows, s.schedulers[pid].run), other))
  {
    assert Passes(p, s, [], pid);
  }

  lemma JudgesNoSooner(p: Plan, s: State, e: Step, pid: nat, j: JobId, v: Verdict)
    requires j in p && Enabled(p, s, e) && pid in s.schedulers && pid in Apply(p, s, e).schedulers
    requires Carries(p, s, s.schedulers[pid], Apply(p, s, e).schedulers[pid], j)
    requires MayJudge(p, Apply(p, s, e), pid, j, v)
    ensures MayJudge(p, s, pid, j, v)
  {
    var x, y := s.schedulers[pid], Apply(p, s, e).schedulers[pid];
    if !Visiting(y) {
      ReadingJudgesOn(p, s, e, pid, j, v);
    } else {
      var other :| Judged(p, j, y.needs, other) == v;
      if x.Reading? {
        JudgesNow(p, s, pid, j, other);
      }
    }
  }

  lemma ActsNoSooner(p: Plan, s: State, e: Step, pid: nat, j: JobId, good: set<Status>)
    requires j in p && Enabled(p, s, e) && pid in s.schedulers && pid in Apply(p, s, e).schedulers
    requires Carries(p, s, s.schedulers[pid], Apply(p, s, e).schedulers[pid], j)
    requires SchedulerActs(p, Apply(p, s, e), pid, j, good)
    ensures SchedulerActs(p, s, pid, j, good)
  {
    var s' := Apply(p, s, e);
    if MayJudge(p, s', pid, j, ToSkip) { JudgesNoSooner(p, s, e, pid, j, ToSkip); }
    if MayJudge(p, s', pid, j, ToRun) { JudgesNoSooner(p, s, e, pid, j, ToRun); }
    if MayJudge(p, s', pid, j, ToRefuse) { JudgesNoSooner(p, s, e, pid, j, ToRefuse); }
  }

  /** A scheduler behind a step is a new one, at its roll-up, or one from before. */
  lemma SchedulersBehind(p: Plan, s: State, e: Step, q: nat, j: JobId)
    requires Enabled(p, s, e) && q in Apply(p, s, e).schedulers && j in s.rows && Terminal(s.rows[j].status)
    ensures var y := Apply(p, s, e).schedulers[q];
            || y.RollingUp? || (y.Reading? && y.view == Look(p, s.rows, y.run))
            || (q in s.schedulers && Carries(p, s, s.schedulers[q], y, j))
  {
    if e.Schedule? {
      ScheduledBehind(p, s, e.pid, e.what, q, j);
    } else {
      OthersLeaveSchedulers(p, s, e);
    }
  }

  lemma ScheduledBehind(p: Plan, s: State, pid: nat, e: SchedulerStep, q: nat, j: JobId)
    requires CanSchedule(p, s, pid, e) && q in Scheduled(p, s, pid, e).schedulers
    requires j in s.rows && Terminal(s.rows[j].status)
    ensures var y := Scheduled(p, s, pid, e).schedulers[q];
            || y.RollingUp? || (y.Reading? && y.view == Look(p, s.rows, y.run))
            || (q in s.schedulers && Carries(p, s, s.schedulers[q], y, j))
  {
    if q == pid && !e.ReadJobs? {
      SchedulerMoves(p, s, s.schedulers[pid], e, j);
    }
  }

  lemma OthersLeaveSchedulers(p: Plan, s: State, e: Step)
    requires Enabled(p, s, e) && !e.Schedule?
    ensures Apply(p, s, e).schedulers == s.schedulers
  {
    if e.Execute? && !e.act.Deliver? {
      WorkFrame(s, e.pid, e.act);
    } else if e.Execute? {
      DeliverFrame(s, e.pid, e.act.msg);
    }
  }

  lemma SchedulersHandsOff(p: Plan, s: State, e: Step, j: JobId, good: set<Status>, q: nat)
    requires Enabled(p, s, e) && j in p && Shows(s, j, good) && OutOfHands(p, s, j, good)
    ensures !Holds(p, Apply(p, s, e), j, good, InScheduler(q))
  {
    var s' := Apply(p, s, e);
    assert !Holds(p, s, j, good, InScheduler(q));
    if q in s'.schedulers {
      SchedulersBehind(p, s, e, q, j);
      if q in s.schedulers && Carries(p, s, s.schedulers[q], s'.schedulers[q], j) && SchedulerActs(p, s', q, j, good) {
        ActsNoSooner(p, s, e, q, j, good);
      }
    }
  }

  lemma SchedulingStatus(p: Plan, s: State, pid: nat, e: SchedulerStep, j: JobId, good: set<Status>)
    requires CanSchedule(p, s, pid, e) && j in p && Shows(s, j, good)
    requires pid in s.schedulers ==> !SchedulerActs(p, s, pid, j, good)
    ensures Scheduled(p, s, pid, e).rows[j].status in good
  {
    if e.SkipJob? && e.job == j {
      assert MayJudge(p, s, pid, j, ToSkip);
    } else if e.RefuseJob? && e.job == j && p[j].readable {
      assert MayJudge(p, s, pid, j, Judged(p, j, s.schedulers[pid].needs, e.other));
    }
  }

  /** What a scheduler leaves alone, but for a message it may add. */
  lemma SchedulingLeaves(p: Plan, s: State, pid: nat, e: SchedulerStep)
    requires CanSchedule(p, s, pid, e)
    ensures Scheduled(p, s, pid, e).executors == s.executors && Scheduled(p, s, pid, e).reapers == s.reapers
    ensures if Lands(e) then Scheduled(p, s, pid, e).queue == s.queue[s.sequence := Message(s.schedulers[pid].job, 0)]
            else Scheduled(p, s, pid, e).queue == s.queue
  {
  }

  lemma SchedulingHandsOff(p: Plan, s: State, pid: nat, e: SchedulerStep, j: JobId, good: set<Status>, h: Hand)
    requires CanSchedule(p, s, pid, e) && j in p && Shows(s, j, good) && OutOfHands(p, s, j, good) && !h.InScheduler?
    ensures !Holds(p, Scheduled(p, s, pid, e), j, good, h)
  {
    assert !Holds(p, s, j, good, h) && !Holds(p, s, j, good, InScheduler(pid));
    SchedulingLeaves(p, s, pid, e);
  }

  lemma DeliveringHandsOff(p: Plan, s: State, pid: nat, m: nat, j: JobId, good: set<Status>, h: Hand)
    requires CanExecute(s, pid, Deliver(m)) && j in p && Shows(s, j, good) && OutOfHands(p, s, j, good)
    requires !h.InScheduler?
    ensures !Holds(p, Executed(s, pid, Deliver(m)), j, good, h)
  {
    assert !Holds(p, s, j, good, h) && !Holds(p, s, j, good, InMessage(m));
  }

  /** One delivery of `j` moves on without acting. */
  lemma ActsNoMore(job: Job, t: Table, x: Executor, e: ExecutorStep, good: set<Status>)
    requires Follows(x, e) && !ExecutorActs(job.tolerant, x, good) && EndsAs(job, x, e)
    requires x.job in t && Terminal(t[x.job].status) && t[x.job].status in good
    ensures ExecutorRows(t, x, e)[x.job].status in good
    ensures !ExecutorActs(job.tolerant, x.(phase := NextPhase(t, x, e)), good)
  {
  }

  /** What a delivery's step leaves as it was. */
  ghost predicate OnlyWorks(s: State, s': State, pid: nat, e: ExecutorStep)
    requires pid in s.executors && Follows(s.executors[pid], e)
  {
    && s'.schedulers == s.schedulers && s'.reapers == s.reapers && s'.runs == s.runs
    && (forall m :: m in s'.queue ==> m in s.queue && s'.queue[m] == s.queue[m])
    && s'.rows == ExecutorRows(s.rows, s.executors[pid], e)
    && (forall q :: q in s'.executors ==> q in s.executors && (q != pid ==> s'.executors[q] == s.executors[q]))
    && (pid in s'.executors ==>
          s'.executors[pid] == s.executors[pid].(phase := NextPhase(s.rows, s.executors[pid], e)))
  }

  lemma WorkFrame(s: State, pid: nat, e: ExecutorStep)
    requires CanExecute(s, pid, e) && !e.Deliver?
    ensures OnlyWorks(s, Executed(s, pid, e), pid, e)
  {
  }

  lemma WorkHandsOff(p: Plan, s: State, s': State, pid: nat, e: ExecutorStep, j: JobId, good: set<Status>, h: Hand)
    requires pid in s.executors && Follows(s.executors[pid], e) && OnlyWorks(s, s', pid, e)
    requires s.executors[pid].job in p ==> EndsAs(p[s.executors[pid].job], s.executors[pid], e)
    requires j in p && Shows(s, j, good) && OutOfHands(p, s, j, good) && !h.InScheduler?
    ensures j in s'.rows && s'.rows[j].status in good && !Holds(p, s', j, good, h)
  {
    assert !Holds(p, s, j, good, h) && !Holds(p, s, j, good, InExecutor(pid));
    var x := s.executors[pid];
    if x.job == j {
      ActsNoMore(p[j], s.rows, x, e, good);
    }
  }

  lemma HandsOff(p: Plan, s: State, e: Step, j: JobId, good: set<Status>, h: Hand)
    requires Enabled(p, s, e) && j in p && Shows(s, j, good) && OutOfHands(p, s, j, good) && !h.InScheduler?
    ensures Apply(p, s, e).rows[j].status in good && !Holds(p, Apply(p, s, e), j, good, h)
  {
    assert !Holds(p, s, j, good, h);
    match e
    case Schedule(pid, what) =>
      assert !Holds(p, s, j, good, InScheduler(pid));
      SchedulingStatus(p, s, pid, what, j, good);
      SchedulingHandsOff(p, s, pid, what, j, good, h);
    case Execute(pid, act) =>
      if act.Deliver? {
        DeliveringHandsOff(p, s, pid, act.msg, j, good, h);
      } else {
        WorkFrame(s, pid, act);
        WorkHandsOff(p, s, Executed(s, pid, act), pid, act, j, good, h);
      }
    case ReapFail(pid, _, _) => assert !Holds(p, s, j, good, InReaper(pid));
    case _ =>
  }

  lemma StepKeepsHandsOff(p: Plan, s: State, e: Step, j: JobId, good: set<Status>)
    requires Enabled(p, s, e) && j in p && Shows(s, j, good) && OutOfHands(p, s, j, good)
    ensures Shows(Apply(p, s, e), j, good) && OutOfHands(p, Apply(p, s, e), j, good)
  {
    assert Stage(s.rows[j].status) <= Stage(Apply(p, s, e).rows[j].status);
    HandsOff(p, s, e, j, good, InReaper(0));
    forall h ensures !Holds(p, Apply(p, s, e), j, good, h) {
      if h.InScheduler? {
        SchedulersHandsOff(p, s, e, j, good, h.pid);
      } else {
        HandsOff(p, s, e, j, good, h);
      }
    }
  }

  lemma {:induction false} RunKeepsHandsOff(p: Plan, s: State, es: seq<Step>, j: JobId, good: set<Status>)
    requires Runs(p, s, es) && j in p && Shows(s, j, good) && OutOfHands(p, s, j, good)
    ensures Shows(After(p, s, es), j, good) && OutOfHands(p, After(p, s, es), j, good)
    decreases |es|
  {
    if es != [] {
      StepKeepsHandsOff(p, s, es[0], j, good);
      RunKeepsHandsOff(p, Apply(p, s, es[0]), es[1..], j, good);
    }
  }

  // ---- and in somebody's hands it can change ------------------------------------------

  /** `es` ends `j` with a status outside `good`. */
  ghost predicate Spoils(p: Plan, s: State, es: seq<Step>, j: JobId, good: set<Status>) {
    Runs(p, s, es) && j in After(p, s, es).rows && After(p, s, es).rows[j].status !in good
  }

  lemma SpoilsNow(p: Plan, s: State, e: Step, j: JobId, good: set<Status>)
    requires Enabled(p, s, e) && j in Apply(p, s, e).rows && Apply(p, s, e).rows[j].status !in good
    ensures Spoils(p, s, [e], j, good)
  {
    assert [e] + [] == [e];
    First(p, s, e, []);
  }

  lemma SpoilsLater(p: Plan, s: State, e: Step, es: seq<Step>, j: JobId, good: set<Status>)
    requires Enabled(p, s, e) && Spoils(p, Apply(p, s, e), es, j, good)
    ensures Spoils(p, s, [e] + es, j, good)
  {
    First(p, s, e, es);
  }

  lemma BreakFrame(s: State, pid: nat)
    requires CanExecute(s, pid, Break)
    ensures Executed(s, pid, Break).rows == s.rows
    ensures Executed(s, pid, Break).executors == s.executors[pid := s.executors[pid].(phase := Broken)]
  {
  }

  lemma GivesUp(p: Plan, s: State, pid: nat, j: JobId, good: set<Status>)
    requires j in s.rows && Failure !in good && pid in s.executors && s.executors[pid].job == j
    requires s.executors[pid].attempt >= MAX_DELIVER && s.executors[pid].phase.Broken?
    ensures Spoils(p, s, [Execute(pid, GiveUp(true))], j, good)
  {
    SpoilsNow(p, s, Execute(pid, GiveUp(true)), j, good);
  }

  lemma FinalAttemptSpoils(p: Plan, s: State, pid: nat, j: JobId, good: set<Status>) returns (es: seq<Step>)
    requires j in s.rows && Failure !in good && pid in s.executors && s.executors[pid].job == j
    requires s.executors[pid].attempt >= MAX_DELIVER
    requires !s.executors[pid].phase.Settled? && !s.executors[pid].phase.GaveUp?
    ensures Spoils(p, s, es, j, good)
  {
    es := [Execute(pid, GiveUp(true))];
    if s.executors[pid].phase.Broken? {
      GivesUp(p, s, pid, j, good);
    } else {
      var e := Execute(pid, Break);
      BreakFrame(s, pid);
      GivesUp(p, Apply(p, s, e), pid, j, good);
      SpoilsLater(p, s, e, es, j, good);
      es := [e] + es;
    }
  }

  lemma Unused(ks: set<nat>) returns (k: nat)
    ensures k !in ks && forall i :: i in ks ==> i < k
    decreases |ks|
  {
    if ks == {} {
      k := 0;
    } else {
      var i :| i in ks;
      var n := Unused(ks - {i});
      assert ks == (ks - {i}) + {i};
      k := if n <= i then i + 1 else n;
    }
  }

  lemma DeliverFrame(s: State, pid: nat, m: nat)
    requires CanExecute(s, pid, Deliver(m))
    ensures var s' := Executed(s, pid, Deliver(m));
            && s'.rows == s.rows && s'.schedulers == s.schedulers && s'.runs == s.runs && pid in s'.executors
            && s'.executors[pid].job == s.queue[m].job && s'.executors[pid].phase.Fetched?
            && s'.executors[pid].attempt == s.queue[m].deliveries + 1
            && s'.queue == s.queue[m := Message(s.queue[m].job, s.queue[m].deliveries + 1)]
  {
  }

  /** A message is delivered until its last attempt, which gives up. */
  lemma MessageSpoils(p: Plan, s: State, m: nat, j: JobId, good: set<Status>) returns (es: seq<Step>)
    requires j in p && j in s.rows && Holds(p, s, j, good, InMessage(m))
    ensures Spoils(p, s, es, j, good)
    decreases MAX_DELIVER - s.queue[m].deliveries
  {
    var pid := Unused(s.executors.Keys);
    var e := Execute(pid, Deliver(m));
    DeliverFrame(s, pid, m);
    var s1 := Apply(p, s, e);
    if s.queue[m].deliveries + 1 == MAX_DELIVER {
      es := FinalAttemptSpoils(p, s1, pid, j, good);
    } else {
      var f := Execute(pid, ExecutorStops);
      var rest := MessageSpoils(p, Apply(p, s1, f), m, j, good);
      SpoilsLater(p, s1, f, rest, j, good);
      es := [f] + rest;
    }
    SpoilsLater(p, s, e, es, j, good);
    es := [e] + es;
  }

  lemma StepsEnd(s: State, pid: nat, ok: bool)
    requires pid in s.executors && (s.executors[pid].phase.Between? || s.executors[pid].phase.InStep?)
    ensures var s' := Executed(s, pid, StepsOver(ok));
            && s'.rows == s.rows
            && s'.executors == s.executors[pid := s.executors[pid].(phase := Closing(if ok then Success else Failure))]
  {
  }

  /** The write that ends a job looks at no status. */
  lemma WriteEnds(s: State, pid: nat)
    requires pid in s.executors && s.executors[pid].phase.Closing? && s.executors[pid].job in s.rows
    ensures var s' := Executed(s, pid, WriteStatus);
            s'.rows.Keys == s.rows.Keys && s'.rows[s.executors[pid].job].status == s.executors[pid].phase.status
  {
  }

  lemma EndingSpoils(p: Plan, s: State, pid: nat, ok: bool, good: set<Status>) returns (es: seq<Step>)
    requires pid in s.executors && s.executors[pid].job in p && s.executors[pid].job in s.rows
    requires s.executors[pid].phase.Between? || s.executors[pid].phase.InStep?
    requires EndsAs(p[s.executors[pid].job], s.executors[pid], StepsOver(ok))
    requires (if ok then Success else Failure) !in good
    ensures Spoils(p, s, es, s.executors[pid].job, good)
  {
    var j := s.executors[pid].job;
    var over, write := Execute(pid, StepsOver(ok)), Execute(pid, WriteStatus);
    StepsEnd(s, pid, ok);
    WriteEnds(Apply(p, s, over), pid);
    SpoilsNow(p, Apply(p, s, over), write, j, good);
    SpoilsLater(p, s, over, [write], j, good);
    es := [over] + [write];
  }

  lemma NotCancelled(s: State, pid: nat)
    requires pid in s.executors && s.executors[pid].phase.Between? && s.executors[pid].job in s.rows
    requires s.rows[s.executors[pid].job].status != Cancelled
    ensures var s' := Executed(s, pid, CheckCancelled);
            && s'.rows == s.rows
            && s'.executors == s.executors[pid := s.executors[pid].(phase := InStep)]
  {
  }

  /** A delivery at its steps can fail, or go on and succeed: behind a cancel it
      only fails. */
  lemma StepsSpoil(p: Plan, s: State, pid: nat, j: JobId, good: set<Status>) returns (es: seq<Step>)
    requires j in p && Shows(s, j, good) && Decisive(good) && pid in s.executors && s.executors[pid].job == j
    requires s.executors[pid].phase.Between? || s.executors[pid].phase.InStep?
    requires Success !in good || (!p[j].tolerant && Failure !in good)
    ensures Spoils(p, s, es, j, good)
  {
    var ok := p[j].tolerant || Failure in good;
    if s.executors[pid].phase.Between? && ok && !p[j].tolerant {
      var look := Execute(pid, CheckCancelled);
      NotCancelled(s, pid);
      es := EndingSpoils(p, Apply(p, s, look), pid, ok, good);
      SpoilsLater(p, s, look, es, j, good);
      es := [look] + es;
    } else {
      es := EndingSpoils(p, s, pid, ok, good);
    }
  }

  lemma ExecutorSpoils(p: Plan, s: State, pid: nat, j: JobId, good: set<Status>) returns (es: seq<Step>)
    requires j in p && Shows(s, j, good) && Decisive(good) && Holds(p, s, j, good, InExecutor(pid))
    ensures Spoils(p, s, es, j, good)
  {
    var x := s.executors[pid];
    if x.phase.Closing? && x.phase.status !in good {
      var write := Execute(pid, WriteStatus);
      WriteEnds(s, pid);
      SpoilsNow(p, s, write, j, good);
      es := [write];
    } else if (x.phase.Between? || x.phase.InStep?) && (Success !in good || (!p[j].tolerant && Failure !in good)) {
      es := StepsSpoil(p, s, pid, j, good);
    } else {
      es := FinalAttemptSpoils(p, s, pid, j, good);
    }
  }

  /** The step by which a scheduler gets back to its list. */
  function BackToList(x: Scheduler): SchedulerStep {
    if x.Reading? then ReadNeeds else if x.Publishing? then PublishNew else RollbackFails
  }

  lemma BackAtList(p: Plan, s: State, pid: nat)
    requires pid in s.schedulers
    requires s.schedulers[pid].Reading? || s.schedulers[pid].Publishing? || s.schedulers[pid].RollingBack?
    ensures var x := s.schedulers[pid];
            && CanSchedule(p, s, pid, BackToList(x)) && Scheduled(p, s, pid, BackToList(x)).rows == s.rows
            && pid in Scheduled(p, s, pid, BackToList(x)).schedulers
            && Scheduled(p, s, pid, BackToList(x)).schedulers[pid]
               == Deciding(x.run, x.view, if x.Reading? then Look(p, s.rows, x.run) else x.needs, Ahead(x))
  {
  }

  lemma Publishes(p: Plan, s: State, pid: nat)
    requires pid in s.schedulers && s.schedulers[pid].Publishing?
    ensures CanSchedule(p, s, pid, PublishNew) && Scheduled(p, s, pid, PublishNew).rows == s.rows
    ensures Scheduled(p, s, pid, PublishNew).queue == s.queue[s.sequence := Message(s.schedulers[pid].job, 0)]
  {
  }

  /** A scheduler at its list writes as it judges. */
  lemma VerdictSpoils(p: Plan, s: State, pid: nat, j: JobId, other: nat, good: set<Status>) returns (es: seq<Step>)
    requires pid in s.schedulers && j in s.rows && Considers(p, s.schedulers[pid], j)
    requires p[j].readable ==> Ready(p, s.schedulers[pid].view, j)
    requires if p[j].readable && Judged(p, j, s.schedulers[pid].needs, other) == ToSkip then Skipped !in good
             else Failure !in good
    ensures Spoils(p, s, es, j, good)
  {
    var e := if p[j].readable && Judged(p, j, s.schedulers[pid].needs, other) == ToSkip
             then Schedule(pid, SkipJob(j, other)) else Schedule(pid, RefuseJob(j, other));
    SpoilsNow(p, s, e, j, good);
    es := [e];
  }

  /** The same from wherever in the call it is, with the needs it has or reads now. */
  lemma ExpectingSpoils(p: Plan, s: State, pid: nat, j: JobId, other: nat, good: set<Status>) returns (es: seq<Step>)
    requires pid in s.schedulers && j in p && j in s.rows && Expects(s.schedulers[pid], j)
    requires p[j].readable ==> Ready(p, s.schedulers[pid].view, j)
    requires var x := s.schedulers[pid];
             var needs := if Visiting(x) then x.needs else Look(p, s.rows, x.run);
             if p[j].readable && Judged(p, j, needs, other) == ToSkip then Skipped !in good else Failure !in good
    ensures Spoils(p, s, es, j, good)
  {
    var x := s.schedulers[pid];
    if x.Deciding? {
      es := VerdictSpoils(p, s, pid, j, other, good);
    } else {
      var back := Schedule(pid, BackToList(x));
      BackAtList(p, s, pid);
      es := VerdictSpoils(p, Apply(p, s, back), pid, j, other, good);
      SpoilsLater(p, s, back, es, j, good);
      es := [back] + es;
    }
  }

  /** A verdict a scheduler may come to can be brought about. */
  lemma JudgingSpoils(p: Plan, s: State, pid: nat, j: JobId, v: Verdict, good: set<Status>) returns (es: seq<Step>)
    requires j in p && j in s.rows && pid in s.schedulers && Expects(s.schedulers[pid], j)
    requires p[j].readable && Ready(p, s.schedulers[pid].view, j) && MayJudge(p, s, pid, j, v)
    requires if v == ToSkip then Skipped !in good else Failure !in good
    ensures Spoils(p, s, es, j, good)
  {
    var x := s.schedulers[pid];
    if Visiting(x) {
      var other :| Judged(p, j, x.needs, other) == v;
      es := ExpectingSpoils(p, s, pid, j, other, good);
    } else {
      var front, other :|
        Passes(p, s, front, pid) && Judged(p, j, Look(p, After(p, s, front).rows, x.run), other) == v;
      var s1 := After(p, s, front);
      assert Forward(s.rows, s1.rows);
      var rest := ExpectingSpoils(p, s1, pid, j, other, good);
      Joined(p, s, front, rest);
      es := front + rest;
    }
  }

  lemma PublishingSpoils(p: Plan, s: State, pid: nat, j: JobId, good: set<Status>) returns (es: seq<Step>)
    requires j in p && j in s.rows && Failure !in good
    requires pid in s.schedulers && s.schedulers[pid].Publishing? && s.schedulers[pid].job == j
    ensures Spoils(p, s, es, j, good)
  {
    var e := Schedule(pid, PublishNew);
    Publishes(p, s, pid);
    var rest := MessageSpoils(p, Apply(p, s, e), s.sequence, j, good);
    SpoilsLater(p, s, e, rest, j, good);
    es := [e] + rest;
  }

  lemma SchedulerSpoils(p: Plan, s: State, pid: nat, j: JobId, good: set<Status>) returns (es: seq<Step>)
    requires j in p && j in s.rows && Holds(p, s, j, good, InScheduler(pid))
    ensures Spoils(p, s, es, j, good)
  {
    var x := s.schedulers[pid];
    if x.Publishing? && x.job == j && Failure !in good {
      es := PublishingSpoils(p, s, pid, j, good);
    } else if !p[j].readable {
      es := ExpectingSpoils(p, s, pid, j, 0, good);
    } else if MayJudge(p, s, pid, j, ToSkip) && Skipped !in good {
      es := JudgingSpoils(p, s, pid, j, ToSkip, good);
    } else if MayJudge(p, s, pid, j, ToRun) {
      es := JudgingSpoils(p, s, pid, j, ToRun, good);
    } else {
      es := JudgingSpoils(p, s, pid, j, ToRefuse, good);
    }
  }

  lemma HandSpoils(p: Plan, s: State, j: JobId, good: set<Status>, h: Hand) returns (es: seq<Step>)
    requires j in p && Shows(s, j, good) && Decisive(good) && Holds(p, s, j, good, h)
    ensures Spoils(p, s, es, j, good)
  {
    match h
    case InScheduler(pid) => es := SchedulerSpoils(p, s, pid, j, good);
    case InReaper(pid) =>
      SpoilsNow(p, s, ReapFail(pid, j, true), j, good);
      es := [ReapFail(pid, j, true)];
    case InMessage(m) => es := MessageSpoils(p, s, m, j, good);
    case InExecutor(pid) => es := ExecutorSpoils(p, s, pid, j, good);
  }

  // ---- the theorems -----------------------------------------------------------------------

  /** From `s` on, whatever happens, `j` shows one of `good`. */
  ghost predicate Forever(p: Plan, s: State, j: JobId, good: set<Status>) {
    forall es :: Runs(p, s, es) ==> Shows(After(p, s, es), j, good)
  }

  /** A job that is over goes on showing one of `good` in every continuation if
      and only if nobody who could write another status has it in hand. */
  lemma FinalExactly(p: Plan, s: State, j: JobId, good: set<Status>)
    requires j in p && Shows(s, j, good) && Decisive(good)
    ensures Forever(p, s, j, good) <==> OutOfHands(p, s, j, good)
  {
    if OutOfHands(p, s, j, good) {
      forall es | Runs(p, s, es) ensures Shows(After(p, s, es), j, good) {
        RunKeepsHandsOff(p, s, es, j, good);
      }
    } else {
      var h :| Holds(p, s, j, good, h);
      var es := HandSpoils(p, s, j, good, h);
      assert !Shows(After(p, s, es), j, good);
    }
  }

  /** Exactly when the ending a job shows is the one it keeps, whichever it is. */
  lemma EndingIsFinalExactly(p: Plan, s: State, j: JobId)
    requires j in p && j in s.rows && Terminal(s.rows[j].status)
    ensures Forever(p, s, j, {s.rows[j].status}) <==> OutOfHands(p, s, j, {s.rows[j].status})
  {
    FinalExactly(p, s, j, {s.rows[j].status});
  }

  /** What to look at for a job that was cancelled or succeeded. */
  predicate LetGo(p: Plan, s: State, j: JobId, st: Status)
    requires j in p
  {
    && (forall pid :: pid in s.schedulers ==>
          && !(s.schedulers[pid].Publishing? && s.schedulers[pid].job == j)
          && (Expects(s.schedulers[pid], j) ==> p[j].readable && !Ready(p, s.schedulers[pid].view, j)))
    && (forall pid :: pid in s.reapers ==> j !in s.reapers[pid])
    && (forall m :: m in s.queue && s.queue[m].job == j ==> s.queue[m].deliveries >= MAX_DELIVER)
    && (forall pid :: pid in s.executors && s.executors[pid].job == j ==>
          !ExecutorActs(p[j].tolerant, s.executors[pid], {st}))
  }

  lemma SomeVerdict(p: Plan, s: State, pid: nat, j: JobId)
    requires j in p && pid in s.schedulers
    ensures MayJudge(p, s, pid, j, ToSkip) || MayJudge(p, s, pid, j, ToRun) || MayJudge(p, s, pid, j, ToRefuse)
  {
    var x := s.schedulers[pid];
    if Visiting(x) {
      assert MayJudge(p, s, pid, j, Judged(p, j, x.needs, 0));
    } else {
      JudgesNow(p, s, pid, j, 0);
    }
  }

  lemma LetGoIsOutOfHands(p: Plan, s: State, j: JobId, st: Status)
    requires j in p && (st == Cancelled || st == Success)
    ensures LetGo(p, s, j, st) <==> OutOfHands(p, s, j, {st})
  {
    forall pid | pid in s.schedulers
      ensures SchedulerActs(p, s, pid, j, {st}) <==>
              || (s.schedulers[pid].Publishing? && s.schedulers[pid].job == j)
              || (Expects(s.schedulers[pid], j) && (p[j].readable ==> Ready(p, s.schedulers[pid].view, j)))
    {
      SomeVerdict(p, s, pid, j);
    }
    if LetGo(p, s, j, st) {
      forall h ensures !Holds(p, s, j, {st}, h) {
      }
    } else {
      NotLetGo(p, s, j, st);
    }
  }

  lemma NotLetGo(p: Plan, s: State, j: JobId, st: Status)
    requires j in p && (st == Cancelled || st == Success) && !LetGo(p, s, j, st)
    requires forall pid :: pid in s.schedulers ==>
               (SchedulerActs(p, s, pid, j, {st}) <==>
                || (s.schedulers[pid].Publishing? && s.schedulers[pid].job == j)
                || (Expects(s.schedulers[pid], j) && (p[j].readable ==> Ready(p, s.schedulers[pid].view, j))))
    ensures exists h :: Holds(p, s, j, {st}, h)
  {
    if pid :| pid in s.schedulers && SchedulerActs(p, s, pid, j, {st}) {
      assert Holds(p, s, j, {st}, InScheduler(pid));
    } else if pid :| pid in s.reapers && j in s.reapers[pid] {
      assert Holds(p, s, j, {st}, InReaper(pid));
    } else if m :| m in s.queue && s.queue[m].job == j && s.queue[m].deliveries < MAX_DELIVER {
      assert Holds(p, s, j, {st}, InMessage(m));
    } else {
      var pid :| pid in s.executors && s.executors[pid].job == j && ExecutorActs(p[j].tolerant, s.executors[pid], {st});
      assert Holds(p, s, j, {st}, InExecutor(pid));
    }
  }

  /** Cancelled stays cancelled exactly when, at that moment, no scheduler is
      publishing the job or has it ahead as pending with its needs over, no
      reaper lists it, no message of it has a delivery left, and no executor on
      it is on a last attempt it may give up, at its steps, or about to write
      another status. */
  lemma CancelledStaysExactly(p: Plan, s: State, j: JobId)
    requires j in p && j in s.rows && s.rows[j].status == Cancelled
    ensures Forever(p, s, j, {Cancelled}) <==> LetGo(p, s, j, Cancelled)
  {
    FinalExactly(p, s, j, {Cancelled});
    LetGoIsOutOfHands(p, s, j, Cancelled);
  }

  /** And success stays success on the same terms. */
  lemma SuccessStaysExactly(p: Plan, s: State, j: JobId)
    requires j in p && j in s.rows && s.rows[j].status == Success
    ensures Forever(p, s, j, {Success}) <==> LetGo(p, s, j, Success)
  {
    FinalExactly(p, s, j, {Success});
    LetGoIsOutOfHands(p, s, j, Success);
  }
}
