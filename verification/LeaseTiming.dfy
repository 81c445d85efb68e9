/** Exactly which timings keep the pool safe. */
module LeaseTiming {
  import opened Common
  import opened VmPool
  import opened LeaseProtocol
  import opened LeaseInvariant
  import opened LeaseGuarantees

  ghost predicate AlwaysExclusive(k: Timing) {
    forall s0, es :: Init(s0) && Runs(k, s0, es) ==> Exclusive(After(k, s0, es))
  }

  /** One more step of a run. */
  lemma Extend(k: Timing, s0: State, es: seq<Step>, s: State, e: Step) returns (es': seq<Step>, s': State)
    requires Runs(k, s0, es) && s == After(k, s0, es) && Enabled(k, s, e)
    ensures es' == es + [e] && Runs(k, s0, es') && s' == After(k, s0, es') && s' == Apply(k, s, e)
    decreases |es|
  {
    es', s' := es + [e], Apply(k, s, e);
    if es == [] {
      assert [e][1..] == [];
    } else {
      var _, _ := Extend(k, Apply(k, s0, es[0]), es[1..], s, e);
      assert es'[0] == es[0] && es'[1..] == es[1..] + [e];
    }
  }

  lemma OneHolds(k: Timing, s0: State, a: Instance, b: Instance, r: string, v: VmId) returns (es: seq<Step>, s: State)
    requires Init(s0) && a != b && !IsPlaceholder(v)
    ensures Runs(k, s0, es) && s == After(k, s0, es)
    ensures s.rows == map[v := Row(r, "", Claimed, Some(""), Some(""), Some(a), Some(s.now + k.lease), s.now)]
    ensures s.live == {a, b} && s.renewed == map[a := s.now, b := s.now]
    ensures s.uses == {Use(0, a, "", v)} && s.token == 1
  {
    es, s := Extend(k, s0, [], s0, Boot(a));
    es, s := Extend(k, s0, es, s, Boot(b));
    es, s := Extend(k, s0, es, s, RegisterNew(a, "", r, "", v));
  }

  lemma OtherTakes(k: Timing, s0: State, es0: seq<Step>, t: State, a: Instance, b: Instance, r: string, v: VmId)
    returns (es: seq<Step>, s: State)
    requires k.gap > k.lease && a != b
    requires Runs(k, s0, es0) && t == After(k, s0, es0)
    requires t.rows == map[v := Row(r, "", Claimed, Some(""), Some(""), Some(a), Some(t.now + k.lease), t.now)]
    requires t.live == {a, b} && t.renewed == map[a := t.now, b := t.now] && t.token == 1
    ensures Runs(k, s0, es) && s == After(k, s0, es)
    ensures s.uses == t.uses + {Use(1, b, "", v)}
  {
    es, s := Extend(k, s0, es0, t, Wait(t.now + k.lease + 1));
    LateIsReclaimed(k, s, a, b, r, v);
    es, s := Extend(k, s0, es, s, Reclaim(b, {r}, {}));
    es, s := Extend(k, s0, es, s, ClaimWarm(b, "", r, "", v));
  }

  lemma LateIsReclaimed(k: Timing, s: State, a: Instance, b: Instance, r: string, v: VmId)
    requires a != b && b in s.live && v in s.rows && s.rows[v].runner == r && s.rows[v].status.Claimed?
    requires s.rows[v].leasedBy == Some(a) && s.rows[v].leasedUntil.Some? && s.rows[v].leasedUntil.value < s.now
    requires s.rows[v].fingerprint == ""
    ensures var s' := Apply(k, s, Reclaim(b, {r}, {}));
            Wanted(s'.rows, r, "", {}, v) && s'.live == s.live && s'.uses == s.uses && s'.token == s.token
  {
  }

  /** A job that names a VM takes it past the pool, so it can share one, however
      timely the renewals. */
  lemma ABorrowedVmIsShared(k: Timing, s0: State) returns (es: seq<Step>, u: Use, w: Use)
    requires Init(s0)
    ensures Runs(k, s0, es) && u in After(k, s0, es).uses && w in After(k, s0, es).borrowed
    ensures u.vm == w.vm && u.instance != w.instance
  {
    var a, b, r, v := "a", "b", "r", "sb";
    assert a[0] != b[0];
    assert v[0] != PREFIX[0];
    var s;
    es, s := OneHolds(k, s0, a, b, r, v);
    es, s := Extend(k, s0, es, s, Borrow(b, "", v));
    u, w := Use(0, a, "", v), Use(1, b, "", v);
  }

  /** The other half: if a renewal may come later than the lease, some run puts two
      jobs on one VM. */
  lemma LateRenewalSharesAVm(k: Timing, s0: State) returns (es: seq<Step>)
    requires k.gap > k.lease && Init(s0)
    ensures Runs(k, s0, es) && !Exclusive(After(k, s0, es))
  {
    var a, b, r, v := "a", "b", "r", "sb";
    assert a[0] != b[0];
    assert v[0] != PREFIX[0];
    var s;
    es, s := OneHolds(k, s0, a, b, r, v);
    es, s := OtherTakes(k, s0, es, s, a, b, r, v);
    assert Use(0, a, "", v) in s.uses && Use(1, b, "", v) in s.uses;
  }

  /** So the pool is safe in every run exactly when a live process never lets more
      than the lease pass between two renewals. */
  lemma SafeExactlyWhenTimely(k: Timing)
    ensures AlwaysExclusive(k) <==> k.gap <= k.lease
  {
    if k.gap <= k.lease {
      forall s0, es | Init(s0) && Runs(k, s0, es) ensures Exclusive(After(k, s0, es)) {
        MutualExclusion(k, s0, es);
      }
    } else {
      var s0 := State(map[], 0, {}, map[], map[], {}, 0, {}, {}, map[]);
      var es := LateRenewalSharesAVm(k, s0);
    }
  }

  /** The lease loop's interval for a lease of so many seconds: a third of it,
      but no less than five seconds, in thirds of a second. */
  function LoopInterval(lease: nat): nat {
    if lease > 15 then lease else 15
  }

  /** A loop that renews every interval, at most `delay` late, keeps the pool safe
      exactly for the leases that leave room for both; with no delay at all that
      is every lease from the five-second floor up. */
  lemma SafeLeases(lease: nat, delay: nat)
    ensures AlwaysExclusive(Timing(3 * lease, LoopInterval(lease) + 3 * delay)) <==>
            lease >= 5 + delay && 2 * lease >= 3 * delay
  {
    SafeExactlyWhenTimely(Timing(3 * lease, LoopInterval(lease) + 3 * delay));
  }
}
