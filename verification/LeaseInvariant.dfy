/** What every step of the lease protocol keeps: of the table, whatever the timing,
    and of the VMs in use, if renewals are timely. */
module LeaseInvariant {
  import opened Common
  import opened VmPool
  import opened LeaseProtocol

  // ---- the invariant ----------------------------------------------------

  /** A held row's lease, read against its holder's history. */
  ghost predicate LeaseSound(k: Timing, s: State, r: Row) {
    r.leasedBy.Some? && r.leasedUntil.Some? &&
    var i, until := r.leasedBy.value, r.leasedUntil.value;
    && (i in s.live || i in s.dead)
    && (i in s.live ==> i in s.renewed && until >= s.renewed[i] + k.lease)
    && (i in s.dead ==> until <= s.dead[i] + k.lease)
    && until <= s.now + k.lease
  }

  ghost predicate LeasesSound(k: Timing, s: State) {
    forall v :: v in s.rows && Held(s.rows[v]) ==> LeaseSound(k, s, s.rows[v])
  }

  ghost predicate ClocksSound(k: Timing, s: State) {
    && (forall i :: i in s.live ==> i in s.renewed && s.renewed[i] <= s.now <= s.renewed[i] + k.gap && i !in s.dead)
    && (forall q :: q in s.swept ==> s.swept[q] <= s.now)
  }

  ghost predicate UseBacked(s: State, u: Use) {
    && u.token < s.token && u.instance in s.live
    && u.vm in s.rows && s.rows[u.vm].status.Claimed?
    && s.rows[u.vm].leasedBy == Some(u.instance) && s.rows[u.vm].claimedBy == Some(u.job)
  }

  ghost predicate UsesBacked(s: State) {
    forall u :: u in s.uses ==> UseBacked(s, u)
  }

  /** No VM is in use by two jobs. */
  ghost predicate Exclusive(s: State) {
    forall u, w :: u in s.uses && w in s.uses && u.vm == w.vm ==> u == w
  }

  ghost predicate TakenAside(s: State) {
    forall v :: v in s.taken ==> !IsPlaceholder(v) && (v in s.rows ==> s.rows[v].status.Draining?)
  }

  ghost predicate Outlives(r: Row, b: Instance, t: Time) {
    r.status.Claimed? && r.leasedBy.Some? && r.leasedUntil.Some? && r.leasedBy.value != b ==> r.leasedUntil.value >= t
  }

  /** After an instance has reclaimed a runner, what other instances still hold
      there had not expired at that moment. */
  ghost predicate SweptSound(s: State) {
    forall b, v :: v in s.rows && (b, s.rows[v].runner) in s.swept ==>
      Outlives(s.rows[v], b, s.swept[(b, s.rows[v].runner)])
  }

  /** No placeholder is ever in use. */
  ghost predicate RealUses(s: State) {
    forall u :: u in s.uses ==> !IsPlaceholder(u.vm)
  }

  /** What holds whatever the timing. */
  ghost predicate TableInv(k: Timing, s: State) {
    Shape(s.rows) && LeasesSound(k, s) && ClocksSound(k, s) && SweptSound(s) && RealUses(s)
  }

  /** What holds besides if renewals are timely. */
  ghost predicate UseInv(s: State) {
    UsesBacked(s) && Exclusive(s) && TakenAside(s)
  }

  ghost predicate Inv(k: Timing, s: State) {
    TableInv(k, s) && UseInv(s)
  }

  // ---- how one statement may change the table -----------------------------

  /** The row is as it was, holds nothing, or was just leased by a live instance. */
  ghost predicate RowMoved(k: Timing, s: State, t': Table, v: VmId)
    requires v in t'
  {
    || (v in s.rows && t'[v] == s.rows[v])
    || !Held(t'[v])
    || (exists i :: i in s.live && t'[v].leasedBy == Some(i) && t'[v].leasedUntil == Some(s.now + k.lease))
  }

  ghost predicate Moved(k: Timing, s: State, t': Table) {
    forall v :: v in t' ==> RowMoved(k, s, t', v)
  }

  ghost predicate SameClocks(s: State, s': State) {
    s'.now == s.now && s'.live == s.live && s'.dead == s.dead && s'.renewed == s.renewed && s'.swept == s.swept
  }

  lemma MovedKeepsLeases(k: Timing, s: State, s': State)
    requires LeasesSound(k, s) && ClocksSound(k, s) && SweptSound(s) && Moved(k, s, s'.rows) && SameClocks(s, s')
    ensures LeasesSound(k, s') && ClocksSound(k, s') && SweptSound(s')
  {
    forall v | v in s'.rows && Held(s'.rows[v]) ensures LeaseSound(k, s', s'.rows[v]) {
      assert RowMoved(k, s, s'.rows, v);
    }
    forall b, v | v in s'.rows && (b, s'.rows[v].runner) in s'.swept
      ensures Outlives(s'.rows[v], b, s'.swept[(b, s'.rows[v].runner)])
    {
      assert RowMoved(k, s, s'.rows, v);
    }
  }

  /** The row of a VM in use keeps saying who uses it. */
  ghost predicate SameHolder(s: State, t': Table, v: VmId) {
    && v in s.rows && v in t' && t'[v].status == s.rows[v].status
    && t'[v].leasedBy == s.rows[v].leasedBy && t'[v].claimedBy == s.rows[v].claimedBy
  }

  lemma UsesKept(s: State, s': State)
    requires UsesBacked(s) && Exclusive(s)
    requires s'.uses <= s.uses && s.token <= s'.token
    requires forall u :: u in s'.uses ==> SameHolder(s, s'.rows, u.vm) && u.instance in s'.live
    ensures UsesBacked(s') && Exclusive(s')
  {
    forall u | u in s'.uses ensures UseBacked(s', u) {
      assert UseBacked(s, u);
    }
  }

  /** What a live job is using has not expired, so nobody may reclaim it: this is
      where `gap <= lease` is needed. */
  lemma InUseIsNotOrphaned(k: Timing, s: State, u: Use, runners: set<string>, self: Instance, active: set<string>)
    requires k.gap <= k.lease && LeasesSound(k, s) && ClocksSound(k, s) && UsesBacked(s) && u in s.uses
    ensures u.vm in s.rows && !Orphan(s.rows[u.vm], runners, self, active, s.now)
    ensures s.rows[u.vm].leasedUntil.Some? && s.now <= s.rows[u.vm].leasedUntil.value
  {
    assert UseBacked(s, u);
    assert LeaseSound(k, s, s.rows[u.vm]);
  }

  // ---- every step keeps the table's part, whatever the timing -----------------

  lemma ClockStepKeepsTable(k: Timing, s: State, e: Step)
    requires TableInv(k, s) && Enabled(k, s, e) && (e.Boot? || e.Crash? || e.Wait? || e.Borrow? || e.EndBorrow?)
    ensures TableInv(k, Apply(k, s, e))
  {
    var s' := Apply(k, s, e);
    forall v | v in s'.rows && Held(s'.rows[v]) ensures LeaseSound(k, s', s'.rows[v]) {
      assert LeaseSound(k, s, s.rows[v]);
    }
  }

  lemma RenewKeepsTable(k: Timing, s: State, i: Instance)
    requires TableInv(k, s) && i in s.live
    ensures TableInv(k, Apply(k, s, RenewAll(i)))
  {
    var s' := Apply(k, s, RenewAll(i));
    ShapeKept(s.rows, "", "", "", "", Lease(i, k.lease), s.now);
    forall v | v in s'.rows && Held(s'.rows[v]) ensures LeaseSound(k, s', s'.rows[v]) {
      assert LeaseSound(k, s, s.rows[v]);
    }
    forall b, v | v in s'.rows && (b, s'.rows[v].runner) in s'.swept
      ensures Outlives(s'.rows[v], b, s'.swept[(b, s'.rows[v].runner)])
    {
      assert Outlives(s.rows[v], b, s.swept[(b, s.rows[v].runner)]);
    }
  }

  lemma AcquireKeepsTable(k: Timing, s: State, e: Step)
    requires TableInv(k, s) && Enabled(k, s, e) && (e.ClaimWarm? || e.RegisterNew?)
    ensures TableInv(k, Apply(k, s, e))
  {
    var s' := Apply(k, s, e);
    ShapeKept(s.rows, e.vm, e.job, e.runner, e.fp, Lease(e.i, k.lease), s.now);
    if e.ClaimWarm? {
      assert RowShape(e.vm, s.rows[e.vm]);
    }
    forall v | v in s'.rows ensures RowMoved(k, s, s'.rows, v) {
    }
    MovedKeepsLeases(k, s, s');
  }

  lemma BuildStepKeepsTable(k: Timing, s: State, e: Step)
    requires TableInv(k, s) && Enabled(k, s, e) && (e.StartBuild? || e.EndBuild? || e.ClearBuilds?)
    ensures TableInv(k, Apply(k, s, e))
  {
    var s' := Apply(k, s, e);
    if e.StartBuild? {
      ShapeKept(s.rows, "", e.job, e.runner, e.fp, Lease(e.i, k.lease), s.now);
    } else if e.ClearBuilds? {
      SweepsKeepShape(s.rows, e.runners, e.i, {}, s.now, {});
    }
    forall v | v in s'.rows ensures RowMoved(k, s, s'.rows, v) {
    }
    MovedKeepsLeases(k, s, s');
  }

  /** A VM goes back or away, whoever holds its row by then. */
  lemma GiveUpKeepsTable(k: Timing, s: State, e: Step)
    requires TableInv(k, s) && Enabled(k, s, e) && (e.HandBack? || e.Discard? || e.CutOff?)
    ensures TableInv(k, Apply(k, s, e))
  {
    var s' := Apply(k, s, e);
    ShapeKept(s.rows, e.u.vm, "", "", "", Lease("", 0), s.now);
    forall v | v in s'.rows ensures RowMoved(k, s, s'.rows, v) {
    }
    MovedKeepsLeases(k, s, s');
  }

  lemma ReclaimKeepsTable(k: Timing, s: State, e: Step)
    requires TableInv(k, s) && Enabled(k, s, e) && e.Reclaim?
    ensures TableInv(k, Apply(k, s, e))
  {
    var s' := Apply(k, s, e);
    SweepsKeepShape(s.rows, e.runners, e.i, e.active, s.now, {});
    forall v | v in s'.rows ensures RowMoved(k, s, s'.rows, v) {
    }
    MovedKeepsLeases(k, s, s'.(swept := s.swept));
    forall b, v | v in s'.rows && (b, s'.rows[v].runner) in s'.swept
      ensures Outlives(s'.rows[v], b, s'.swept[(b, s'.rows[v].runner)])
    {
      if (b, s.rows[v].runner) in s.swept {
        assert Outlives(s.rows[v], b, s.swept[(b, s.rows[v].runner)]);
      }
    }
  }

  lemma DrainKeepsTable(k: Timing, s: State, vs: set<VmId>)
    requires TableInv(k, s) && forall v :: v in vs ==> v in s.rows && !Held(s.rows[v])
    ensures TableInv(k, Sweeping(s, vs))
  {
    var s' := Sweeping(s, vs);
    SweepsKeepShape(s.rows, {}, "", {}, 0, vs);
    forall v | v in s'.rows ensures RowMoved(k, s, s'.rows, v) {
    }
    MovedKeepsLeases(k, s, s');
  }

  lemma DestroyedKeepsTable(k: Timing, s: State, v: VmId)
    requires TableInv(k, s) && v in s.taken
    ensures TableInv(k, Apply(k, s, Destroyed(v)))
  {
    var s' := Apply(k, s, Destroyed(v));
    forall w | w in s'.rows ensures RowMoved(k, s, s'.rows, w) {
    }
    MovedKeepsLeases(k, s, s');
  }

  lemma StepKeepsTable(k: Timing, s: State, e: Step)
    requires TableInv(k, s) && Enabled(k, s, e)
    ensures TableInv(k, Apply(k, s, e))
  {
    match e
    case Boot(_) => ClockStepKeepsTable(k, s, e);
    case Crash(_) => ClockStepKeepsTable(k, s, e);
    case Wait(_) => ClockStepKeepsTable(k, s, e);
    case Borrow(_, _, _) => ClockStepKeepsTable(k, s, e);
    case EndBorrow(_) => ClockStepKeepsTable(k, s, e);
    case RenewAll(i) => RenewKeepsTable(k, s, i);
    case ClaimWarm(_, _, _, _, _) => AcquireKeepsTable(k, s, e);
    case RegisterNew(_, _, _, _, _) => AcquireKeepsTable(k, s, e);
    case StartBuild(_, _, _, _) => BuildStepKeepsTable(k, s, e);
    case EndBuild(_, _) => BuildStepKeepsTable(k, s, e);
    case ClearBuilds(_, _) => BuildStepKeepsTable(k, s, e);
    case HandBack(_) => GiveUpKeepsTable(k, s, e);
    case Discard(_) => GiveUpKeepsTable(k, s, e);
    case CutOff(_) => GiveUpKeepsTable(k, s, e);
    case Reclaim(_, _, _) => ReclaimKeepsTable(k, s, e);
    case SweepByHand(_, v, runners) => DrainKeepsTable(k, s, SweepOne(s.rows, v, runners));
    case SweepFailedRuns(_, runners, book, locked) =>
      DrainKeepsTable(k, s, SweepFailed(s.rows, runners, book, locked));
    case SweepUnwanted(_, runners, live, idleFor, locked) =>
      DrainKeepsTable(k, s, SweepStale(s.rows, runners, live, idleFor, s.now, locked));
    case Destroyed(v) => DestroyedKeepsTable(k, s, v);
  }

  lemma {:induction false} RunKeepsTable(k: Timing, s: State, es: seq<Step>)
    requires TableInv(k, s) && Runs(k, s, es)
    ensures TableInv(k, After(k, s, es))
    decreases |es|
  {
    if es != [] {
      StepKeepsTable(k, s, es[0]);
      RunKeepsTable(k, Apply(k, s, es[0]), es[1..]);
    }
  }

  // ---- and the uses' part, if renewals are timely ---------------------------------

  lemma NewUseKept(s: State, s': State, i: Instance, job: string, v: VmId)
    requires UsesBacked(s) && Exclusive(s) && i in s.live
    requires s'.uses == s.uses + {Use(s.token, i, job, v)} && s'.token == s.token + 1 && s'.live == s.live
    requires v !in s.rows || !Held(s.rows[v])
    requires v in s'.rows && s'.rows == s.rows[v := s'.rows[v]]
    requires s'.rows[v].status.Claimed? && s'.rows[v].leasedBy == Some(i) && s'.rows[v].claimedBy == Some(job)
    ensures UsesBacked(s') && Exclusive(s')
  {
    forall u | u in s.uses ensures u.vm != v && UseBacked(s', u) {
      assert UseBacked(s, u);
    }
  }

  lemma GiveUpKeepsUses(k: Timing, s: State, e: Step)
    requires Inv(k, s) && Enabled(k, s, e) && (e.HandBack? || e.Discard? || e.CutOff?)
    ensures UseInv(Apply(k, s, e))
  {
    var s' := Apply(k, s, e);
    assert UseBacked(s, e.u);
    forall u | u in s'.uses ensures SameHolder(s, s'.rows, u.vm) {
      assert UseBacked(s, u) && u.vm != e.u.vm;
    }
    UsesKept(s, s');
  }

  lemma ReclaimKeepsUses(k: Timing, s: State, e: Step)
    requires k.gap <= k.lease && Inv(k, s) && Enabled(k, s, e) && e.Reclaim?
    ensures UseInv(Apply(k, s, e))
  {
    var s' := Apply(k, s, e);
    forall u | u in s'.uses ensures SameHolder(s, s'.rows, u.vm) {
      InUseIsNotOrphaned(k, s, u, e.runners, e.i, e.active);
    }
    UsesKept(s, s');
  }

  lemma DrainKeepsUses(k: Timing, s: State, vs: set<VmId>)
    requires Inv(k, s) && forall v :: v in vs ==> v in s.rows && !Held(s.rows[v])
    ensures UseInv(Sweeping(s, vs))
  {
    var s' := Sweeping(s, vs);
    forall v | v in vs ensures !IsPlaceholder(v) {
      assert RowShape(v, s.rows[v]);
    }
    forall u | u in s'.uses ensures SameHolder(s, s'.rows, u.vm) {
      assert UseBacked(s, u);
    }
    UsesKept(s, s');
  }

  predicate Sweeps(e: Step) {
    e.SweepByHand? || e.SweepFailedRuns? || e.SweepUnwanted?
  }

  /** Steps that take no VM from anyone and give none. */
  predicate Neutral(e: Step) {
    || e.Boot? || e.Crash? || e.Wait? || e.RenewAll? || e.StartBuild? || e.EndBuild? || e.ClearBuilds?
    || e.Destroyed? || e.Borrow? || e.EndBorrow?
  }

  lemma NeutralKeepsUses(k: Timing, s: State, e: Step)
    requires Inv(k, s) && Enabled(k, s, e) && Neutral(e)
    ensures UseInv(Apply(k, s, e))
  {
    var s' := Apply(k, s, e);
    forall u | u in s'.uses ensures SameHolder(s, s'.rows, u.vm) && u.instance in s'.live {
      assert UseBacked(s, u) && RowShape(u.vm, s.rows[u.vm]);
    }
    UsesKept(s, s');
  }

  lemma StepKeepsInv(k: Timing, s: State, e: Step)
    requires k.gap <= k.lease && Inv(k, s) && Enabled(k, s, e)
    ensures Inv(k, Apply(k, s, e))
  {
    StepKeepsTable(k, s, e);
    if Neutral(e) {
      NeutralKeepsUses(k, s, e);
    } else if e.ClaimWarm? || e.RegisterNew? {
      NewUseKept(s, Apply(k, s, e), e.i, e.job, e.vm);
    } else if e.HandBack? || e.Discard? || e.CutOff? {
      GiveUpKeepsUses(k, s, e);
    } else if e.Reclaim? {
      ReclaimKeepsUses(k, s, e);
    } else {
      SweepKeepsUses(k, s, e);
    }
  }

  lemma SweepKeepsUses(k: Timing, s: State, e: Step)
    requires Inv(k, s) && Enabled(k, s, e) && Sweeps(e)
    ensures UseInv(Apply(k, s, e))
  {
    if e.SweepByHand? {
      DrainKeepsUses(k, s, SweepOne(s.rows, e.vm, e.runners));
    } else if e.SweepFailedRuns? {
      DrainKeepsUses(k, s, SweepFailed(s.rows, e.runners, e.book, e.locked));
    } else {
      DrainKeepsUses(k, s, SweepStale(s.rows, e.runners, e.live, e.idleFor, s.now, e.locked));
    }
  }

  lemma {:induction false} RunKeepsInv(k: Timing, s: State, es: seq<Step>)
    requires k.gap <= k.lease && Inv(k, s) && Runs(k, s, es)
    ensures Inv(k, After(k, s, es))
    decreases |es|
  {
    if es != [] {
      StepKeepsInv(k, s, es[0]);
      RunKeepsInv(k, Apply(k, s, es[0]), es[1..]);
    }
  }
}
