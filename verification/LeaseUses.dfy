/** Who acts in the lease protocol, and how each use of a VM begins and ends,
    whatever the timing. */
module LeaseUses {
  import opened Common
  import opened VmPool
  import opened LeaseProtocol

  // ---- only the living act ----------------------------------------------------------

  /** The instance that takes a step; time and the daemon take the others. */
  function Actor(e: Step): Option<Instance> {
    match e
    case Boot(i) => Some(i)
    case Crash(i) => Some(i)
    case Wait(_) => None
    case RenewAll(i) => Some(i)
    case ClaimWarm(i, _, _, _, _) => Some(i)
    case StartBuild(i, _, _, _) => Some(i)
    case EndBuild(i, _) => Some(i)
    case RegisterNew(i, _, _, _, _) => Some(i)
    case HandBack(u) => Some(u.instance)
    case Discard(u) => Some(u.instance)
    case CutOff(u) => Some(u.instance)
    case Borrow(i, _, _) => Some(i)
    case EndBorrow(u) => Some(u.instance)
    case Reclaim(i, _, _) => Some(i)
    case ClearBuilds(i, _) => Some(i)
    case SweepByHand(i, _, _) => Some(i)
    case SweepFailedRuns(i, _, _, _) => Some(i)
    case SweepUnwanted(i, _, _, _, _) => Some(i)
    case Destroyed(_) => None
  }

  /** Every use is a live instance's, nobody is both live and dead, tokens are
      used once, and every draining VM is in some sweeper's hands. */
  ghost predicate Attended(s: State) {
    && (forall u :: u in s.uses + s.borrowed ==> u.instance in s.live && u.token < s.token)
    && s.live !! s.dead.Keys
    && (forall v :: v in s.rows && s.rows[v].status.Draining? ==> v in s.taken)
  }

  lemma StepKeepsAttended(k: Timing, s: State, e: Step)
    requires Enabled(k, s, e) && Attended(s)
    ensures Attended(Apply(k, s, e)) && s.dead.Keys <= Apply(k, s, e).dead.Keys
  {
  }

  lemma {:induction false} RunKeepsAttended(k: Timing, s: State, es: seq<Step>)
    requires Runs(k, s, es) && Attended(s)
    ensures Attended(After(k, s, es)) && s.dead.Keys <= After(k, s, es).dead.Keys
    decreases |es|
  {
    if es != [] {
      StepKeepsAttended(k, s, es[0]);
      RunKeepsAttended(k, Apply(k, s, es[0]), es[1..]);
    }
  }

  /** An instance acts only from its start to its crash; once it has crashed no
      step is its own any more, and nothing is in its use. */
  lemma OnlyTheLivingAct(k: Timing, s0: State, es: seq<Step>, e: Step)
    requires Init(s0) && Runs(k, s0, es) && Enabled(k, After(k, s0, es), e) && Actor(e).Some?
    ensures var s, i := After(k, s0, es), Actor(e).value;
            && i !in s.dead && (e.Boot? <==> i !in s.live)
            && (e.Crash? ==> var t := Apply(k, s, e);
                  && i !in t.live && i in t.dead && t.dead[i] == s.now && t.rows == s.rows
                  && forall u :: u in t.uses + t.borrowed <==> u in s.uses + s.borrowed && u.instance != i)
  {
    RunKeepsAttended(k, s0, es);
    StepKeepsAttended(k, After(k, s0, es), e);
  }

  /** The loops of a live instance are never held up. */
  lemma TheLivingMayActAlways(k: Timing, s: State, i: Instance, runners: set<string>, active: set<string>, v: VmId,
                              book: Ledger, live: set<string>, idleFor: int, locked: set<VmId>)
    requires i in s.live
    ensures Enabled(k, s, RenewAll(i)) && Enabled(k, s, Crash(i)) && Enabled(k, s, Reclaim(i, runners, active))
    ensures Enabled(k, s, ClearBuilds(i, runners)) && Enabled(k, s, SweepByHand(i, v, runners))
    ensures Enabled(k, s, SweepFailedRuns(i, runners, book, locked))
    ensures Enabled(k, s, SweepUnwanted(i, runners, live, idleFor, locked))
  {
  }

  // ---- uses begin and end ---------------------------------------------------------------

  /** What a step may do to the uses of pooled VMs: one begins, with a claim or a
      registration of its own, or one ends. */
  lemma UsesBeginAndEnd(k: Timing, s0: State, es: seq<Step>, e: Step, u: Use)
    requires Init(s0) && Runs(k, s0, es) && Enabled(k, After(k, s0, es), e)
    ensures var s := After(k, s0, es);
            var t := Apply(k, s, e);
            && (u in t.uses && u !in s.uses ==>
                  && u.token == s.token && t.token > s.token && u.vm in t.rows
                  && t.rows[u.vm].status == Claimed && t.rows[u.vm].claimedBy == Some(u.job)
                  && t.rows[u.vm].leasedBy == Some(u.instance) && t.rows[u.vm].leasedUntil == Some(s.now + k.lease)
                  && (if u.vm in s.rows then e.ClaimWarm? && s.rows[u.vm].status == Idle
                      else e.RegisterNew?))
            && (u in s.uses && u !in t.uses ==>
                  || (e == HandBack(u) && (u.vm in s.rows ==> u.vm in t.rows && t.rows[u.vm].status == Idle))
                  || (e == Discard(u) && u.vm !in t.rows)
                  || (e == CutOff(u) && t.rows == s.rows)
                  || (e == Crash(u.instance) && t.rows == s.rows))
  {
    RunKeepsAttended(k, s0, es);
  }

  /** A job that names a VM neither looks at the pool's table nor changes it. */
  lemma BorrowingIsPastThePool(k: Timing, s: State, e: Step, u: Use)
    requires Enabled(k, s, e) && (u in s.borrowed) != (u in Apply(k, s, e).borrowed)
    ensures var t := Apply(k, s, e);
            && t.rows == s.rows
            && (u in t.borrowed ==> e == Borrow(u.instance, u.job, u.vm) && u.token == s.token && t.token > s.token)
            && (u in s.borrowed ==> e == EndBorrow(u) || e == Crash(u.instance))
  {
  }

  /** A build is in the table from its start to its end, under its own instance's
      lease, and nowhere else. */
  lemma BuildsStartAndEnd(k: Timing, s: State, i: Instance, job: string, runner: string, fp: string)
    requires Enabled(k, s, StartBuild(i, job, runner, fp))
    ensures var t, id := Apply(k, s, StartBuild(i, job, runner, fp)), BuildingId(job);
            && id in t.rows && t.rows[id].status == Building && t.rows[id].claimedBy == Some(job)
            && t.rows[id].leasedBy == Some(i) && t.rows[id].leasedUntil == Some(s.now + k.lease)
            && Enabled(k, t, EndBuild(i, job)) && Apply(k, t, EndBuild(i, job)).rows == s.rows - {id}
            && t.uses == s.uses && Apply(k, t, EndBuild(i, job)).uses == s.uses
  {
  }

  /** What a sweep takes is destroyed, once the daemon says so, and its row is
      gone then. */
  lemma SweptIsDestroyed(k: Timing, s0: State, es: seq<Step>, v: VmId)
    requires Init(s0) && Runs(k, s0, es)
    requires v in After(k, s0, es).rows && After(k, s0, es).rows[v].status == Draining
    ensures var s := After(k, s0, es);
            && Enabled(k, s, Destroyed(v))
            && Apply(k, s, Destroyed(v)).rows == s.rows - {v} && v !in Apply(k, s, Destroyed(v)).taken
  {
    RunKeepsAttended(k, s0, es);
  }
}
