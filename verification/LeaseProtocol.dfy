/** The lease protocol over the warm pool: processes that start and crash, acquire
    and release VMs, renew what they hold, and take back what others stopped
    renewing, with time passing in between.

    Two parameters fix the timing.  `lease` is how long a claim lasts without a
    renewal (`vm_lease`), and `gap` bounds the time a live process lets pass
    between two renewals.  Everything else is unconstrained. */
module LeaseProtocol {
  import opened VmPool

  datatype Timing = Timing(lease: nat, gap: nat)

  /** A job using a VM right now.  `token` tells two deliveries of one job apart. */
  datatype Use = Use(token: nat, instance: Instance, job: string, vm: VmId)

  datatype State = State(
    rows: Table,
    now: Time,
    live: set<Instance>,
    dead: map<Instance, Time>,            // when each crashed
    renewed: map<Instance, Time>,         // last renewal, or start
    uses: set<Use>,
    token: nat,
    borrowed: set<Use>,                   // by jobs that name a VM in `uses:`
    taken: set<VmId>,                     // being destroyed by some sweeper
    swept: map<(Instance, string), Time>) // last reclaim of a runner by an instance

  datatype Step =
    | Boot(i: Instance)
    | Crash(i: Instance)
    | Wait(until: Time)
    | RenewAll(i: Instance)
    | ClaimWarm(i: Instance, job: string, runner: string, fp: string, vm: VmId)
    | StartBuild(i: Instance, job: string, runner: string, fp: string)
    | EndBuild(i: Instance, job: string)
    | RegisterNew(i: Instance, job: string, runner: string, fp: string, vm: VmId)
    | HandBack(u: Use)                    // release_vm, back into the pool
    | Discard(u: Use)                     // release_vm or acquire_vm, destroyed
    | CutOff(u: Use)                      // the job ceiling: the row stays claimed
    | Borrow(i: Instance, job: string, vm: VmId) // a VM named in `uses:`, past the pool
    | EndBorrow(u: Use)
    | Reclaim(i: Instance, runners: set<string>, active: set<string>)
    | ClearBuilds(i: Instance, runners: set<string>)
    | SweepByHand(i: Instance, vm: VmId, runners: set<string>)
    | SweepFailedRuns(i: Instance, runners: set<string>, book: Ledger, locked: set<VmId>)
    | SweepUnwanted(i: Instance, runners: set<string>, live: set<string>, idleFor: int, locked: set<VmId>)
    | Destroyed(vm: VmId)

  /** An id the daemon has just assigned. */
  predicate FreshVm(s: State, v: VmId) {
    !IsPlaceholder(v) && v !in s.rows && v !in s.taken
  }

  predicate Enabled(k: Timing, s: State, e: Step) {
    match e
    case Boot(i) => i !in s.live && i !in s.dead
    case Crash(i) => i in s.live
    case Wait(t) => s.now <= t && forall i :: i in s.live && i in s.renewed ==> t <= s.renewed[i] + k.gap
    case RenewAll(i) => i in s.live
    case ClaimWarm(i, job, runner, fp, v) => i in s.live && Wanted(s.rows, runner, fp, {}, v)
    case StartBuild(i, job, runner, fp) => i in s.live
    case EndBuild(i, job) => i in s.live
    case RegisterNew(i, job, runner, fp, v) => i in s.live && FreshVm(s, v)
    case HandBack(u) => u in s.uses
    case Discard(u) => u in s.uses
    case CutOff(u) => u in s.uses
    case Borrow(i, job, v) => i in s.live
    case EndBorrow(u) => u in s.borrowed
    case Reclaim(i, runners, active) => i in s.live
    case ClearBuilds(i, runners) => i in s.live
    case SweepByHand(i, v, runners) => i in s.live
    case SweepFailedRuns(i, runners, book, locked) => i in s.live
    case SweepUnwanted(i, runners, live, idleFor, locked) => i in s.live
    case Destroyed(v) => v in s.taken
  }

  function Using(s: State, i: Instance, job: string, v: VmId): State {
    s.(uses := s.uses + {Use(s.token, i, job, v)}, token := s.token + 1)
  }

  function Sweeping(s: State, vs: set<VmId>): State {
    s.(rows := Drained(s.rows, vs), taken := s.taken + vs)
  }

  function Apply(k: Timing, s: State, e: Step): State
    requires Enabled(k, s, e)
  {
    match e
    case Boot(i) => s.(live := s.live + {i}, renewed := s.renewed[i := s.now])
    case Crash(i) =>
      s.(live := s.live - {i}, dead := s.dead[i := s.now], uses := (set u | u in s.uses && u.instance != i),
         borrowed := (set u | u in s.borrowed && u.instance != i))
    case Wait(t) => s.(now := t)
    case RenewAll(i) => s.(rows := Renewed(s.rows, Lease(i, k.lease), s.now), renewed := s.renewed[i := s.now])
    case ClaimWarm(i, job, runner, fp, v) =>
      Using(s, i, job, v).(rows := ClaimVm(s.rows, v, job, Lease(i, k.lease), s.now))
    case StartBuild(i, job, runner, fp) => s.(rows := BuildBegun(s.rows, job, runner, fp, Lease(i, k.lease), s.now))
    case EndBuild(i, job) => s.(rows := Forgotten(s.rows, BuildingId(job)))
    case RegisterNew(i, job, runner, fp, v) =>
      Using(s, i, job, v).(rows := Registered(s.rows, v, runner, fp, job, Lease(i, k.lease), s.now))
    case HandBack(u) => s.(rows := Released(s.rows, u.vm, s.now), uses := s.uses - {u})
    case Discard(u) => s.(rows := Forgotten(s.rows, u.vm), uses := s.uses - {u})
    case CutOff(u) => s.(uses := s.uses - {u})
    case Borrow(i, job, v) =>
      s.(borrowed := s.borrowed + {Use(s.token, i, job, v)}, token := s.token + 1)
    case EndBorrow(u) => s.(borrowed := s.borrowed - {u})
    case Reclaim(i, runners, active) =>
      s.(rows := OrphansReleased(s.rows, runners, i, active, s.now),
         swept := s.swept + map r | r in runners :: (i, r) := s.now)
    case ClearBuilds(i, runners) => s.(rows := StaleBuildsSwept(s.rows, runners, i, s.now))
    case SweepByHand(i, v, runners) => Sweeping(s, SweepOne(s.rows, v, runners))
    case SweepFailedRuns(i, runners, book, locked) => Sweeping(s, SweepFailed(s.rows, runners, book, locked))
    case SweepUnwanted(i, runners, live, idleFor, locked) =>
      Sweeping(s, SweepStale(s.rows, runners, live, idleFor, s.now, locked))
    case Destroyed(v) => s.(rows := Forgotten(s.rows, v), taken := s.taken - {v})
  }

  predicate Init(s: State) {
    && s.rows == map[] && s.live == {} && s.dead == map[] && s.renewed == map[]
    && s.uses == {} && s.token == 0 && s.borrowed == {} && s.taken == {} && s.swept == map[]
  }

  predicate Runs(k: Timing, s: State, es: seq<Step>)
    decreases |es|
  {
    es == [] || (Enabled(k, s, es[0]) && Runs(k, Apply(k, s, es[0]), es[1..]))
  }

  function After(k: Timing, s: State, es: seq<Step>): State
    requires Runs(k, s, es)
    decreases |es|
  {
    if es == [] then s else After(k, Apply(k, s, es[0]), es[1..])
  }
}
