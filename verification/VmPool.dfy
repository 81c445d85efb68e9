/** The warm pool table `ci_vm_pool` and the statements `src/pool.rs` runs on it.

    As in `JobStore`, a statement is a function on the table and a method of the
    class that holds the table; the clock and the instance's lease are arguments. */
module VmPool {
  import opened Common
  import JobStore

  type VmId = string
  type Instance = string
  type Time = int

  datatype VmStatus = Building | Idle | Claimed | Draining

  datatype Row = Row(
    runner: string, fingerprint: string, status: VmStatus,
    claimedBy: Option<string>, lastJob: Option<string>,
    leasedBy: Option<Instance>, leasedUntil: Option<Time>, lastUsed: Time)

  type Table = map<VmId, Row>

  /** A holder and how long its claim is good for without a renewal. */
  datatype Lease = Lease(instance: Instance, ttl: nat)

  const PREFIX := "building-"

  function BuildingId(job: string): VmId { PREFIX + job }

  predicate IsPlaceholder(v: VmId) { PREFIX <= v }

  predicate Held(r: Row) { r.status.Claimed? || r.status.Building? }

  // ---- the statements ---------------------------------------------------

  predicate Wanted(t: Table, runner: string, fp: string, locked: set<VmId>, v: VmId) {
    v in t && v !in locked && t[v].runner == runner && t[v].fingerprint == fp && t[v].status.Idle?
  }

  function Take(r: Row, job: string, l: Lease, now: Time): Row {
    r.(status := Claimed, claimedBy := Some(job), lastJob := Some(job), lastUsed := now,
       leasedBy := Some(l.instance), leasedUntil := Some(now + l.ttl))
  }

  /** `claim`, once the row is chosen. */
  function ClaimVm(t: Table, v: VmId, job: string, l: Lease, now: Time): Table
    requires v in t
  {
    t[v := Take(t[v], job, l, now)]
  }

  function BuildBegun(t: Table, job: string, runner: string, fp: string, l: Lease, now: Time): Table {
    t[BuildingId(job) :=
      Row(runner, fp, Building, Some(job), Some(job), Some(l.instance), Some(now + l.ttl), now)]
  }

  /** On a conflict the runner and fingerprint already recorded are kept. */
  function Registered(t: Table, v: VmId, runner: string, fp: string, job: string, l: Lease, now: Time): Table {
    t[v := if v in t then Take(t[v], job, l, now)
           else Row(runner, fp, Claimed, Some(job), Some(job), Some(l.instance), Some(now + l.ttl), now)]
  }

  function Free(r: Row): Row {
    r.(status := Idle, claimedBy := None, leasedBy := None, leasedUntil := None)
  }

  /** Keyed on the sandbox alone: whoever asks, the VM goes back. */
  function Released(t: Table, v: VmId, now: Time): Table {
    if v in t then t[v := Free(t[v]).(lastUsed := now)] else t
  }

  function Forgotten(t: Table, v: VmId): Table { t - {v} }

  function Renewed(t: Table, l: Lease, now: Time): Table {
    map v | v in t ::
      if Held(t[v]) && t[v].leasedBy == Some(l.instance) then t[v].(leasedUntil := Some(now + l.ttl)) else t[v]
  }

  /** What `release_orphans` takes back: another holder's claim, on a served
      runner, whose lease has run out.  A claim with no lease at all falls back
      to whether its job is still active. */
  predicate Orphan(r: Row, runners: set<string>, self: Instance, active: set<string>, now: Time) {
    && r.status.Claimed? && r.runner in runners && r.leasedBy != Some(self)
    && if r.leasedUntil.Some? then r.leasedUntil.value < now
       else r.claimedBy.None? || r.claimedBy.value !in active
  }

  function OrphansReleased(t: Table, runners: set<string>, self: Instance, active: set<string>, now: Time): Table {
    map v | v in t :: if Orphan(t[v], runners, self, active, now) then Free(t[v]) else t[v]
  }

  predicate StaleBuild(r: Row, runners: set<string>, self: Instance, now: Time) {
    && r.status.Building? && r.runner in runners && r.leasedBy != Some(self)
    && (r.leasedUntil.None? || r.leasedUntil.value < now)
  }

  function StaleBuildsSwept(t: Table, runners: set<string>, self: Instance, now: Time): Table {
    map v | v in t && !StaleBuild(t[v], runners, self, now) :: t[v]
  }

  function Drained(t: Table, vs: set<VmId>): Table {
    map v | v in t :: if v in vs then t[v].(status := Draining) else t[v]
  }

  function SweepOne(t: Table, v: VmId, runners: set<string>): set<VmId> {
    if v in t && t[v].runner in runners && !Held(t[v]) then {v} else {}
  }

  /** The run of each job, and how each run stands. */
  datatype Ledger = Ledger(runOf: map<string, string>, runs: map<string, JobStore.RunStatus>)

  predicate EndedBadly(book: Ledger, job: string) {
    && job in book.runOf && book.runOf[job] in book.runs
    && (book.runs[book.runOf[job]].RunFailure? || book.runs[book.runOf[job]].RunCancelled?)
  }

  function SweepFailed(t: Table, runners: set<string>, book: Ledger, locked: set<VmId>): set<VmId> {
    set v | v in t && v !in locked && t[v].status.Idle? && t[v].runner in runners
            && t[v].lastJob.Some? && EndedBadly(book, t[v].lastJob.value)
  }

  function SweepStale(t: Table, runners: set<string>, live: set<string>, idleFor: int, now: Time, locked: set<VmId>)
    : set<VmId>
  {
    set v | v in t && v !in locked && t[v].status.Idle? && t[v].runner in runners
            && (t[v].fingerprint !in live || t[v].lastUsed < now - idleFor)
  }

  function LeasedBy(t: Table, i: Instance): set<(VmId, string)> {
    set v | v in t && t[v].status.Claimed? && t[v].leasedBy == Some(i) :: (v, t[v].runner)
  }

  // ---- the shape of every reachable table --------------------------------

  /** Placeholders are exactly the rows being built; a held row says who holds it,
      for which job and until when; any other row says none of the three. */
  predicate RowShape(v: VmId, r: Row) {
    && (r.status.Building? <==> IsPlaceholder(v))
    && r.leasedBy.Some? == r.leasedUntil.Some? == r.claimedBy.Some? == Held(r)
  }

  ghost predicate Shape(t: Table) {
    forall v :: v in t ==> RowShape(v, t[v])
  }

  lemma ShapeKept(t: Table, v: VmId, job: string, runner: string, fp: string, l: Lease, now: Time)
    requires Shape(t)
    ensures v in t && t[v].status.Idle? ==> Shape(ClaimVm(t, v, job, l, now))
    ensures Shape(BuildBegun(t, job, runner, fp, l, now))
    ensures !IsPlaceholder(v) ==> Shape(Registered(t, v, runner, fp, job, l, now))
    ensures !IsPlaceholder(v) ==> Shape(Released(t, v, now))
    ensures Shape(Forgotten(t, v)) && Shape(Renewed(t, l, now))
  {
    assert IsPlaceholder(BuildingId(job));
    if v in t {
      assert RowShape(v, t[v]);
    }
    forall w | w in t ensures RowShape(w, Renewed(t, l, now)[w]) {
      assert RowShape(w, t[w]);
    }
  }

  lemma SweepsKeepShape(t: Table, runners: set<string>, self: Instance, active: set<string>, now: Time, vs: set<VmId>)
    requires Shape(t) && forall v :: v in vs && v in t ==> !Held(t[v])
    ensures Shape(OrphansReleased(t, runners, self, active, now))
    ensures Shape(StaleBuildsSwept(t, runners, self, now))
    ensures Shape(Drained(t, vs))
  {
    forall w | w in t
      ensures RowShape(w, OrphansReleased(t, runners, self, active, now)[w]) && RowShape(w, Drained(t, vs)[w])
    {
      assert RowShape(w, t[w]);
    }
  }

  /** Nothing that reaches a daemon is ever handed a placeholder. */
  lemma NoPlaceholderReachesADaemon(t: Table, runner: string, fp: string, locked: set<VmId>, v: VmId,
                                    runners: set<string>, book: Ledger, live: set<string>, idleFor: int,
                                    now: Time, i: Instance)
    requires Shape(t) && IsPlaceholder(v)
    ensures !Wanted(t, runner, fp, locked, v)
    ensures v !in SweepOne(t, v, runners) && v !in SweepFailed(t, runners, book, locked)
    ensures v !in SweepStale(t, runners, live, idleFor, now, locked)
    ensures forall r :: (v, r) !in LeasedBy(t, i)
  {
    if v in t {
      assert RowShape(v, t[v]);
    }
  }

  // ---- what the statements come to -----------------------------------------

  /** The rows of `vs` started to drain, and nothing else happened. */
  ghost predicate StartedToDrain(t: Table, t': Table, vs: set<VmId>) {
    && t'.Keys == t.Keys
    && (forall v :: v in t && v !in vs ==> t'[v] == t[v])
    && (forall v :: v in vs ==> v in t && t'[v] == t[v].(status := Draining) && t[v] != t'[v])
  }

  /** Used at most `idleFor` ago, for a fingerprint still wanted. */
  ghost predicate WorthKeeping(r: Row, live: set<string>, idleFor: int, now: Time) {
    r.fingerprint in live && now - r.lastUsed <= idleFor
  }

  /** After a sweep every idle VM left on a served runner, locked ones apart, is
      worth keeping, and what the sweep took was idle, unlocked, on a served
      runner and not worth keeping. */
  lemma StaleAreSwept(t: Table, runners: set<string>, live: set<string>, idleFor: int, now: Time, locked: set<VmId>)
    ensures var taken := SweepStale(t, runners, live, idleFor, now, locked);
            var t' := Drained(t, taken);
            && StartedToDrain(t, t', taken)
            && (forall v :: v in t' && v !in locked && t'[v].status == Idle && t'[v].runner in runners ==>
                  WorthKeeping(t'[v], live, idleFor, now))
            && (forall v :: v in taken ==>
                  && v !in locked && t[v].status == Idle && t[v].runner in runners
                  && !WorthKeeping(t[v], live, idleFor, now))
  {
    var taken := SweepStale(t, runners, live, idleFor, now, locked);
    forall v | v in t && v !in taken && v !in locked && t[v].status == Idle && t[v].runner in runners
      ensures WorthKeeping(t[v], live, idleFor, now)
    {
    }
  }

  /** The run of the last job on this VM failed or was cancelled. */
  ghost predicate LastRunFailed(r: Row, book: Ledger) {
    exists job, run :: r.lastJob == Some(job) && (job, run) in book.runOf.Items && run in book.runs
                       && book.runs[run] in {JobStore.RunFailure, JobStore.RunCancelled}
  }

  /** And after the other no VM last used by a failed run is idle. */
  lemma FailedAreSwept(t: Table, runners: set<string>, book: Ledger, locked: set<VmId>)
    ensures var taken := SweepFailed(t, runners, book, locked);
            var t' := Drained(t, taken);
            && StartedToDrain(t, t', taken)
            && (forall v :: v in t' && v !in locked && t'[v].status == Idle && t'[v].runner in runners ==>
                  !LastRunFailed(t'[v], book))
            && (forall v :: v in taken ==>
                  v !in locked && t[v].status == Idle && t[v].runner in runners && LastRunFailed(t[v], book))
  {
    forall v | v in t
      ensures LastRunFailed(t[v], book) <==> t[v].lastJob.Some? && EndedBadly(book, t[v].lastJob.value)
    {
      if t[v].lastJob.Some? && EndedBadly(book, t[v].lastJob.value) {
        var job := t[v].lastJob.value;
        assert (job, book.runOf[job]) in book.runOf.Items;
      }
    }
  }

  /** A sweep by hand takes a served VM that no job has and that is not being
      built, whether it is idle or a sweep of it was left off. */
  lemma OneIsSwept(t: Table, v: VmId, runners: set<string>)
    ensures var taken := SweepOne(t, v, runners);
            var t' := Drained(t, taken);
            && (v in taken <==> v in t && t[v].runner in runners && t[v].status in {Idle, Draining})
            && taken <= {v} && t'.Keys == t.Keys
            && (forall w :: w in t && w !in taken ==> t'[w] == t[w])
            && (v in taken ==> t'[v] == t[v].(status := Draining))
  {
  }

  /** `r` is held for `job` by `l`, so that any other instance that serves the
      runner may take it away once the lease is over, and not before. */
  ghost predicate HeldFor(r: Row, job: string, l: Lease, now: Time) {
    && r.claimedBy == Some(job) && r.lastJob == Some(job) && r.lastUsed == now
    && r.leasedBy == Some(l.instance) && r.leasedUntil == Some(now + l.ttl)
    && (forall runners, other, active, at :: Orphan(r, runners, other, active, at) <==>
          r.status == Claimed && r.runner in runners && other != l.instance && at > now + l.ttl)
    && (forall runners, other, at :: StaleBuild(r, runners, other, at) <==>
          r.status == Building && r.runner in runners && other != l.instance && at > now + l.ttl)
  }

  lemma HeldBy(r: Row, job: string, l: Lease, now: Time)
    requires Held(r) && r.claimedBy == r.lastJob == Some(job) && r.lastUsed == now
    requires r.leasedBy == Some(l.instance) && r.leasedUntil == Some(now + l.ttl)
    ensures HeldFor(r, job, l, now)
  {
  }

  /** A claimed VM is nobody else's until its lease runs out or it comes back;
      then it waits for the same runner and fingerprint as before. */
  lemma ClaimedAndReleased(t: Table, v: VmId, job: string, l: Lease, now: Time, later: Time)
    requires v in t
    ensures var t' := ClaimVm(t, v, job, l, now);
            && t'.Keys == t.Keys && (forall w :: w in t && w != v ==> t'[w] == t[w])
            && t'[v].status == Claimed && HeldFor(t'[v], job, l, now)
            && (forall runner, fp, locked :: !Wanted(t', runner, fp, locked, v))
            && Handed(Released(t', v, later), v, t[v].runner, t[v].fingerprint, job, later)
  {
    HeldBy(ClaimVm(t, v, job, l, now)[v], job, l, now);
  }

  /** Idle, for the next job on `runner` with fingerprint `fp`, and for no other. */
  ghost predicate Handed(t: Table, v: VmId, runner: string, fp: string, job: string, now: Time) {
    && v in t && t[v] == Row(runner, fp, Idle, None, Some(job), None, None, now)
    && (forall r, f, locked :: Wanted(t, r, f, locked, v) <==> r == runner && f == fp && v !in locked)
  }

  /** So is a VM just registered, and released after. */
  lemma RegisteredAndReleased(t: Table, v: VmId, runner: string, fp: string, job: string, l: Lease, now: Time,
                              later: Time)
    ensures var t' := Registered(t, v, runner, fp, job, l, now);
            && t'.Keys == t.Keys + {v} && (forall w :: w in t && w != v ==> t'[w] == t[w])
            && t'[v].status == Claimed && HeldFor(t'[v], job, l, now)
            && (v !in t ==> Handed(Released(t', v, later), v, runner, fp, job, later))
            && (v in t ==> Handed(Released(t', v, later), v, t[v].runner, t[v].fingerprint, job, later))
  {
    HeldBy(Registered(t, v, runner, fp, job, l, now)[v], job, l, now);
  }

  /** A build in progress stands in the table for its job under its own lease;
      once it is forgotten the table is as it was. */
  lemma BuildComesAndGoes(t: Table, job: string, runner: string, fp: string, l: Lease, now: Time)
    ensures var t', id := BuildBegun(t, job, runner, fp, l, now), BuildingId(job);
            && t'.Keys == t.Keys + {id} && (forall w :: w in t && w != id ==> t'[w] == t[w])
            && t'[id].status == Building && t'[id].runner == runner && t'[id].fingerprint == fp
            && HeldFor(t'[id], job, l, now)
            && (id !in t ==> Forgotten(t', id) == t)
  {
    HeldBy(BuildBegun(t, job, runner, fp, l, now)[BuildingId(job)], job, l, now);
  }

  /** Nobody may take the row away before `until` is past. */
  ghost predicate SafeUntil(r: Row, until: Time) {
    && (forall runners, other, active, at :: Orphan(r, runners, other, active, at) ==> at > until)
    && (forall runners, other, at :: StaleBuild(r, runners, other, at) ==> at > until)
  }

  lemma LeasedIsSafe(r: Row, until: Time)
    requires r.leasedUntil == Some(until)
    ensures SafeUntil(r, until)
  {
  }

  /** Renewal starts the lease of everything the instance holds anew, and
      touches nothing else. */
  lemma RenewedAnew(t: Table, l: Lease, now: Time, v: VmId)
    requires Shape(t) && v in t
    ensures var t' := Renewed(t, l, now);
            && t'.Keys == t.Keys
            && (t[v].leasedBy == Some(l.instance) ==>
                  t'[v] == t[v].(leasedUntil := Some(now + l.ttl)) && SafeUntil(t'[v], now + l.ttl))
            && (t[v].leasedBy != Some(l.instance) ==> t'[v] == t[v])
  {
    assert RowShape(v, t[v]);
    LeasedIsSafe(t[v].(leasedUntil := Some(now + l.ttl)), now + l.ttl);
  }

  /** What is taken back from a lapsed claim goes to the next job that fits, and
      keeps its last use; a row with no lease at all goes by its job. */
  lemma OrphansComeBack(t: Table, runners: set<string>, self: Instance, active: set<string>, now: Time, v: VmId)
    requires v in t
    ensures var t', r := OrphansReleased(t, runners, self, active, now), t[v];
            && t'.Keys == t.Keys
            && (t'[v] == r || (t'[v] == Row(r.runner, r.fingerprint, Idle, None, r.lastJob, None, None, r.lastUsed)
                               && Wanted(t', r.runner, r.fingerprint, {}, v)))
            && (t'[v] != r <==>
                  && r.status == Claimed && r.runner in runners && r.leasedBy != Some(self)
                  && (|| (exists until :: r.leasedUntil == Some(until) && until < now)
                      || (r.leasedUntil == None && !exists job :: r.claimedBy == Some(job) && job in active)))
  {
  }

  /** The listing kept alive is what the instance holds for its jobs, with the
      host of each: no placeholders, nothing idle, nothing of anybody else. */
  lemma ListedExactly(t: Table, i: Instance, v: VmId, runner: string)
    ensures (v, runner) in LeasedBy(t, i) <==>
            v in t && t[v].status == Claimed && t[v].leasedBy == Some(i) && t[v].runner == runner
  {
  }

  /** Only placeholders of builds whose lease lapsed, or that have none, go. */
  lemma StaleBuildsGo(t: Table, runners: set<string>, self: Instance, now: Time, v: VmId)
    requires v in t
    ensures var t', r := StaleBuildsSwept(t, runners, self, now), t[v];
            && t'.Keys <= t.Keys && (v in t' ==> t'[v] == r)
            && (v !in t' <==>
                  && r.status == Building && r.runner in runners && r.leasedBy != Some(self)
                  && (r.leasedUntil == None || exists until :: r.leasedUntil == Some(until) && until < now))
  {
  }

  lemma MostRecent(t: Table, vs: set<VmId>) returns (v: VmId)
    requires vs != {} && forall w :: w in vs ==> w in t
    ensures v in vs && forall w :: w in vs ==> t[w].lastUsed <= t[v].lastUsed
    decreases |vs|
  {
    v :| v in vs;
    if vs != {v} {
      var rest := vs - {v};
      var u := MostRecent(t, rest);
      assert vs == rest + {v};
      if t[v].lastUsed < t[u].lastUsed {
        v := u;
      }
    }
  }

  class Pool {
    var rows: Table

    constructor ()
      ensures rows == map[] && Shape(rows)
    {
      rows := map[];
    }

    /** One statement: the most recently used idle match that no concurrent claim
        has locked, or nothing. */
    method Claim(runner: string, fp: string, job: string, l: Lease, now: Time, locked: set<VmId>)
      returns (got: Option<VmId>)
      requires Shape(rows)
      modifies this
      ensures Shape(rows)
      ensures got.None? ==> rows == old(rows) && forall v :: !Wanted(old(rows), runner, fp, locked, v)
      ensures got.Some? ==>
                && Wanted(old(rows), runner, fp, locked, got.value)
                && (forall v :: Wanted(old(rows), runner, fp, locked, v) ==>
                      old(rows)[v].lastUsed <= old(rows)[got.value].lastUsed)
                && !IsPlaceholder(got.value)
                && rows == ClaimVm(old(rows), got.value, job, l, now)
    {
      var candidates := set v | v in rows && Wanted(rows, runner, fp, locked, v);
      if candidates == {} {
        assert forall v :: Wanted(rows, runner, fp, locked, v) ==> v in candidates;
        return None;
      }
      assert exists v :: v in candidates && forall w :: w in candidates ==> rows[w].lastUsed <= rows[v].lastUsed by {
        var u := MostRecent(rows, candidates);
      }
      var v :| v in candidates && forall w :: w in candidates ==> rows[w].lastUsed <= rows[v].lastUsed;
      ShapeKept(rows, v, job, runner, fp, l, now);
      assert RowShape(v, rows[v]);
      rows := rows[v := Take(rows[v], job, l, now)];
      got := Some(v);
    }

    method BeginBuild(job: string, runner: string, fp: string, l: Lease, now: Time) returns (id: VmId)
      requires Shape(rows)
      modifies this
      ensures Shape(rows) && rows == BuildBegun(old(rows), job, runner, fp, l, now)
      ensures id == BuildingId(job) == "building-" + job && IsPlaceholder(id)
    {
      ShapeKept(rows, "", job, runner, fp, l, now);
      id := BuildingId(job);
      rows := rows[id := Row(runner, fp, Building, Some(job), Some(job), Some(l.instance), Some(now + l.ttl), now)];
    }

    method Register(v: VmId, runner: string, fp: string, job: string, l: Lease, now: Time)
      requires Shape(rows) && !IsPlaceholder(v)
      modifies this
      ensures Shape(rows) && rows == Registered(old(rows), v, runner, fp, job, l, now)
    {
      ShapeKept(rows, v, job, runner, fp, l, now);
      rows := Registered(rows, v, runner, fp, job, l, now);
    }

    method Release(v: VmId, now: Time)
      requires Shape(rows) && !IsPlaceholder(v)
      modifies this
      ensures Shape(rows) && rows == Released(old(rows), v, now)
    {
      if v in rows {
        assert RowShape(v, rows[v]);
        rows := rows[v := Free(rows[v]).(lastUsed := now)];
      }
    }

    method Forget(v: VmId)
      requires Shape(rows)
      modifies this
      ensures Shape(rows) && rows == Forgotten(old(rows), v)
    {
      rows := rows - {v};
    }

    method RenewLeases(l: Lease, now: Time) returns (renewed: nat)
      requires Shape(rows)
      modifies this
      ensures Shape(rows) && rows == Renewed(old(rows), l, now)
      ensures renewed == |set v | v in old(rows) && Held(old(rows)[v]) && old(rows)[v].leasedBy == Some(l.instance)|
    {
      ShapeKept(rows, "", "", "", "", l, now);
      renewed := |set v | v in rows && Held(rows[v]) && rows[v].leasedBy == Some(l.instance)|;
      rows := Renewed(rows, l, now);
    }

    method ReleaseOrphans(runners: set<string>, self: Instance, active: set<string>, now: Time)
      requires Shape(rows)
      modifies this
      ensures Shape(rows) && rows == OrphansReleased(old(rows), runners, self, active, now)
    {
      SweepsKeepShape(rows, runners, self, active, now, {});
      rows := OrphansReleased(rows, runners, self, active, now);
    }

    method SweepStaleBuilds(runners: set<string>, self: Instance, now: Time)
      requires Shape(rows)
      modifies this
      ensures Shape(rows) && rows == StaleBuildsSwept(old(rows), runners, self, now)
    {
      SweepsKeepShape(rows, runners, self, {}, now, {});
      rows := StaleBuildsSwept(rows, runners, self, now);
    }

    method TakeOneForSweep(v: VmId, runners: set<string>) returns (taken: set<VmId>)
      requires Shape(rows)
      modifies this
      ensures taken == SweepOne(old(rows), v, runners)
      ensures Shape(rows) && rows == Drained(old(rows), taken)
    {
      taken := SweepOne(rows, v, runners);
      SweepsKeepShape(rows, runners, "", {}, 0, taken);
      rows := Drained(rows, taken);
    }

    method TakeFailedForSweep(runners: set<string>, book: Ledger, locked: set<VmId>) returns (taken: set<VmId>)
      requires Shape(rows)
      modifies this
      ensures taken == SweepFailed(old(rows), runners, book, locked)
      ensures Shape(rows) && rows == Drained(old(rows), taken)
    {
      taken := SweepFailed(rows, runners, book, locked);
      SweepsKeepShape(rows, runners, "", {}, 0, taken);
      rows := Drained(rows, taken);
    }

    method TakeForSweep(runners: set<string>, live: set<string>, idleFor: int, now: Time, locked: set<VmId>)
      returns (taken: set<VmId>)
      requires Shape(rows)
      modifies this
      ensures taken == SweepStale(old(rows), runners, live, idleFor, now, locked)
      ensures Shape(rows) && rows == Drained(old(rows), taken)
    {
      taken := SweepStale(rows, runners, live, idleFor, now, locked);
      SweepsKeepShape(rows, runners, "", {}, 0, taken);
      rows := Drained(rows, taken);
    }
  }
}
