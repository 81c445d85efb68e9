/** What holds after every run of the lease protocol. */
module LeaseGuarantees {
  import opened Common
  import opened VmPool
  import opened LeaseProtocol
  import opened LeaseInvariant

  /** Whatever the timing, in every reachable table the placeholders are exactly
      the rows being built, a held row says for whom and until when, any other
      says neither, and no claim, sweep or keepalive listing yields a
      placeholder. */
  lemma TableKeepsItsShape(k: Timing, s0: State, es: seq<Step>, v: VmId, runner: string, fp: string, locked: set<VmId>,
                           runners: set<string>, book: Ledger, live: set<string>, idleFor: int, i: Instance)
    requires Init(s0) && Runs(k, s0, es)
    ensures Shape(After(k, s0, es).rows)
    ensures var t, now := After(k, s0, es).rows, After(k, s0, es).now;
            IsPlaceholder(v) ==>
              && !Wanted(t, runner, fp, locked, v)
              && v !in SweepOne(t, v, runners) && v !in SweepFailed(t, runners, book, locked)
              && v !in SweepStale(t, runners, live, idleFor, now, locked)
              && forall r :: (v, r) !in LeasedBy(t, i)
  {
    RunKeepsTable(k, s0, es);
    if IsPlaceholder(v) {
      var s := After(k, s0, es);
      NoPlaceholderReachesADaemon(s.rows, runner, fp, locked, v, runners, book, live, idleFor, s.now, i);
    }
  }

  /** With timely renewals, no VM is ever in use by two live jobs that got it from
      the pool, whatever others borrow it, and every such use is backed by a claim
      of its own process for its own job. */
  lemma MutualExclusion(k: Timing, s0: State, es: seq<Step>)
    requires k.gap <= k.lease && Init(s0) && Runs(k, s0, es)
    ensures Exclusive(After(k, s0, es)) && UsesBacked(After(k, s0, es))
  {
    RunKeepsInv(k, s0, es);
  }

  /** So every pooled VM in use is among those its instance keeps alive. */
  lemma LiveUseIsKeptAlive(k: Timing, s0: State, es: seq<Step>, u: Use)
    requires k.gap <= k.lease && Init(s0) && Runs(k, s0, es) && u in After(k, s0, es).uses
    ensures var s := After(k, s0, es);
            u.vm in s.rows && (u.vm, s.rows[u.vm].runner) in LeasedBy(s.rows, u.instance)
  {
    MutualExclusion(k, s0, es);
    var s := After(k, s0, es);
    assert UseBacked(s, u);
    ListedExactly(s.rows, u.instance, u.vm, s.rows[u.vm].runner);
  }

  predicate Housekeeping(e: Step) {
    || e.Reclaim? || e.ClearBuilds? || e.SweepByHand? || e.SweepFailedRuns? || e.SweepUnwanted? || e.Destroyed?
  }

  /** No reclaim, sweep or destruction touches the row of a VM in live use. */
  lemma HousekeepingSparesLiveUse(k: Timing, s0: State, es: seq<Step>, e: Step, u: Use)
    requires k.gap <= k.lease && Init(s0) && Runs(k, s0, es)
    requires Enabled(k, After(k, s0, es), e) && Housekeeping(e) && u in After(k, s0, es).uses
    ensures var s := After(k, s0, es);
            u.vm in s.rows && u.vm in Apply(k, s, e).rows && Apply(k, s, e).rows[u.vm] == s.rows[u.vm]
  {
    RunKeepsInv(k, s0, es);
    var s := After(k, s0, es);
    assert UseBacked(s, u) && RowShape(u.vm, s.rows[u.vm]);
    if e.Reclaim? {
      InUseIsNotOrphaned(k, s, u, e.runners, e.i, e.active);
    }
  }

  /** What a reclaim takes was another instance's, on a runner it serves, and past
      its lease; the job's own status plays no part. */
  lemma ReclaimTakesOnlyTheExpired(k: Timing, s0: State, es: seq<Step>, i: Instance, runners: set<string>,
                                   active: set<string>, v: VmId)
    requires Init(s0) && Runs(k, s0, es) && i in After(k, s0, es).live
    requires v in After(k, s0, es).rows
    ensures var s := After(k, s0, es);
            var r := s.rows[v];
            Apply(k, s, Reclaim(i, runners, active)).rows[v] != r <==>
            && r.status.Claimed? && r.runner in runners && r.leasedBy != Some(i)
            && r.leasedUntil.Some? && r.leasedUntil.value < s.now
  {
    RunKeepsTable(k, s0, es);
    var s := After(k, s0, es);
    assert RowShape(v, s.rows[v]);
  }

  /** A crash is repaired in bounded time: while some other instance keeps
      reclaiming the runner at least every `period`, a VM the dead instance held
      there cannot still be its own after crash + lease + period. */
  lemma CrashedClaimsComeBack(k: Timing, s0: State, es: seq<Step>, dead: Instance, sweeper: Instance, v: VmId,
                              period: nat)
    requires Init(s0) && Runs(k, s0, es)
    requires var s := After(k, s0, es);
             && dead in s.dead && sweeper != dead && v in s.rows
             && (sweeper, s.rows[v].runner) in s.swept && s.now <= s.swept[(sweeper, s.rows[v].runner)] + period
             && s.now > s.dead[dead] + k.lease + period
    ensures var r := After(k, s0, es).rows[v];
            !(r.status.Claimed? && r.leasedBy == Some(dead))
  {
    RunKeepsTable(k, s0, es);
    var s := After(k, s0, es);
    var r := s.rows[v];
    if r.status.Claimed? && r.leasedBy == Some(dead) {
      assert LeaseSound(k, s, r);
      assert Outlives(r, sweeper, s.swept[(sweeper, r.runner)]);
    }
  }
}
