/** The image catalog of `src/image.rs`: one row per image and runner, built under
    a lease. */
module ImageCatalog {
  import opened Common

  datatype Status = Building | Ready | Failed

  datatype Row = Row(
    status: Status,
    workflow: string,
    job: string,
    leasedUntil: Option<nat>,
    size: nat,
    error: Option<string>,
    readyAt: Option<nat>)

  /** An image is a file on one runner's disk. */
  datatype Key = Key(name: string, runner: string)

  type Table = map<Key, Row>

  datatype Claim = Use | Build | InProgress

  // ---- the statements ------------------------------------------------------------------

  /** The row may be taken: there is none, or it is neither ready nor held. */
  predicate Free(t: Table, k: Key, now: nat) {
    k in t ==> t[k].status != Ready && (t[k].leasedUntil.None? || t[k].leasedUntil.value < now)
  }

  function Upserted(t: Table, k: Key, workflow: string, job: string, now: nat, lease: nat): Table {
    if !Free(t, k, now) then t
    else if k in t then
      t[k := t[k].(status := Building, job := job, error := None, leasedUntil := Some(now + lease))]
    else
      t[k := Row(Building, workflow, job, Some(now + lease), 0, None, None)]
  }

  function Renewed(t: Table, k: Key, now: nat, lease: nat): Table {
    if k in t && t[k].status == Building then t[k := t[k].(leasedUntil := Some(now + lease))] else t
  }

  function MarkedReady(t: Table, k: Key, size: nat, now: nat): Table {
    if k in t
    then t[k := t[k].(status := Ready, readyAt := Some(now), leasedUntil := None, error := None, size := size)]
    else t
  }

  function MarkedFailed(t: Table, k: Key, error: string): Table {
    if k in t && t[k].status != Ready
    then t[k := t[k].(status := Failed, leasedUntil := None, error := Some(error))]
    else t
  }

  function Forgotten(t: Table, k: Key): Table {
    t - {k}
  }

  /** Only the row of `k` may differ. */
  ghost predicate SameElsewhere(t: Table, t': Table, k: Key) {
    forall o :: o != k ==> (o in t' <==> o in t) && (o in t' ==> t'[o] == t[o])
  }

  class Catalog {
    var rows: Table

    constructor ()
      ensures rows == map[]
    {
      rows := map[];
    }

    /** With nobody in between, the answer says what the row now is. */
    method ClaimImage(k: Key, workflow: string, job: string, now: nat, lease: nat) returns (c: Claim)
      modifies this
      ensures rows == Upserted(old(rows), k, workflow, job, now, lease)
      ensures k in rows
      ensures c == Build <==> Free(old(rows), k, now)
      ensures c == Build ==>
                && rows[k].status == Building && rows[k].job == job && rows[k].error.None?
                && rows[k].workflow == (if k in old(rows) then old(rows)[k].workflow else workflow)
                && rows[k].size == (if k in old(rows) then old(rows)[k].size else 0)
                && rows[k].readyAt == (if k in old(rows) then old(rows)[k].readyAt else None)
                && (forall t: nat :: Free(rows, k, t) <==> t > now + lease)
      ensures c == Use <==> rows[k].status == Ready
      ensures SameElsewhere(old(rows), rows, k)
      ensures c != Build ==> rows == old(rows)
    {
      if Free(rows, k, now) {
        rows := Upserted(rows, k, workflow, job, now, lease);
        return Build;
      }
      c := if k in rows && rows[k].status == Ready then Use else InProgress;
    }

    /** A build in progress cannot be taken over before the new expiry; nothing
        else changes, a finished image least of all. */
    method Renew(k: Key, now: nat, lease: nat)
      modifies this
      ensures rows == Renewed(old(rows), k, now, lease)
      ensures SameElsewhere(old(rows), rows, k)
      ensures k in old(rows) && old(rows)[k].status != Building ==> rows == old(rows)
      ensures k in old(rows) && old(rows)[k].status == Building ==>
                forall t: nat :: Free(rows, k, t) <==> t > now + lease
    {
      if k in rows && rows[k].status == Building {
        rows := rows[k := rows[k].(leasedUntil := Some(now + lease))];
      }
    }

    method MarkReady(k: Key, size: nat, now: nat)
      modifies this
      ensures rows == MarkedReady(old(rows), k, size, now)
      ensures k in old(rows) ==>
                && rows[k] == Row(Ready, old(rows)[k].workflow, old(rows)[k].job, None, size, None, Some(now))
                && (forall t: nat :: !Free(rows, k, t))
      ensures k !in old(rows) ==> rows == old(rows)
      ensures SameElsewhere(old(rows), rows, k)
    {
      if k in rows {
        rows := rows[k := rows[k].(status := Ready, readyAt := Some(now), leasedUntil := None, error := None,
                                   size := size)];
      }
    }

    /** A failure reported late never takes back a finished image.  Otherwise the
        next claim, whenever it comes, is told to build, and until then the row
        carries the reason. */
    method MarkFailed(k: Key, error: string)
      modifies this
      ensures rows == MarkedFailed(old(rows), k, error)
      ensures k !in old(rows) || old(rows)[k].status == Ready ==> rows == old(rows)
      ensures k in old(rows) && old(rows)[k].status != Ready ==>
                && k in rows && rows[k].status == Failed && rows[k].error == Some(error)
                && rows[k].workflow == old(rows)[k].workflow && rows[k].job == old(rows)[k].job
                && (forall t: nat :: Free(rows, k, t))
      ensures SameElsewhere(old(rows), rows, k)
    {
      if k in rows && rows[k].status != Ready {
        rows := rows[k := rows[k].(status := Failed, leasedUntil := None, error := Some(error))];
      }
    }

    /** The next claim, whenever it comes, is told to build. */
    method Forget(k: Key)
      modifies this
      ensures rows == Forgotten(old(rows), k)
      ensures k !in rows && forall t: nat :: Free(rows, k, t)
      ensures SameElsewhere(old(rows), rows, k)
    {
      rows := rows - {k};
    }
  }

  // ---- runs ----------------------------------------------------------------------------------

  /** One statement by one process, or time going by.  A claim is two steps:
      another process may act between its upsert and its reading of the row. */
  datatype Step =
    | Upsert(key: Key, workflow: string, job: string, lease: nat)
    | ReadStatus(key: Key)
    | RenewLease(key: Key, lease: nat)
    | Finish(key: Key, size: nat)
    | Fail(key: Key, error: string)
    | Drop(key: Key)
    | Tick(seconds: nat)

  datatype State = State(rows: Table, now: nat)

  function After(s: State, e: Step): State {
    match e
    case Upsert(k, workflow, job, lease) => s.(rows := Upserted(s.rows, k, workflow, job, s.now, lease))
    case ReadStatus(_) => s
    case RenewLease(k, lease) => s.(rows := Renewed(s.rows, k, s.now, lease))
    case Finish(k, size) => s.(rows := MarkedReady(s.rows, k, size, s.now))
    case Fail(k, error) => s.(rows := MarkedFailed(s.rows, k, error))
    case Drop(k) => s.(rows := Forgotten(s.rows, k))
    case Tick(d) => s.(now := s.now + d)
  }

  function Run(s: State, es: seq<Step>): State {
    if es == [] then s else After(Run(s, es[..|es| - 1]), es[|es| - 1])
  }

  /** Step `i` is a claim of `k` that was told to build. */
  predicate ToldToBuild(s: State, es: seq<Step>, i: nat, k: Key) {
    i < |es| && es[i].Upsert? && es[i].key == k && Free(Run(s, es[..i]).rows, k, Run(s, es[..i]).now)
  }

  predicate Ends(e: Step, k: Key) {
    (e.Fail? || e.Drop?) && e.key == k
  }

  /** The last lease taken on `k` ran out before step `i`. */
  ghost predicate LapsedAt(s: State, es: seq<Step>, i: nat, k: Key)
    requires i <= |es|
  {
    var t := Run(s, es[..i]);
    k in t.rows && t.rows[k].status == Building && t.rows[k].leasedUntil.Some? && t.rows[k].leasedUntil.value < t.now
  }

  /** Held by a builder, or finished. */
  predicate Kept(t: Table, k: Key) {
    k in t && (t[k].status == Ready || (t[k].status == Building && t[k].leasedUntil.Some?))
  }

  lemma StepKeeps(s: State, e: Step, k: Key)
    requires Kept(s.rows, k) && !Ends(e, k)
    ensures Kept(After(s, e).rows, k)
  {
  }

  lemma {:induction false} KeptBetween(s: State, es: seq<Step>, i: nat, j: nat, k: Key)
    requires i < j <= |es| && ToldToBuild(s, es, i, k) && forall m :: i < m < j ==> !Ends(es[m], k)
    ensures Kept(Run(s, es[..j]).rows, k)
    decreases j
  {
    assert es[..j][..j - 1] == es[..j - 1] && es[..j][j - 1] == es[j - 1];
    if j > i + 1 {
      KeptBetween(s, es, i, j - 1, k);
      StepKeeps(Run(s, es[..j - 1]), es[j - 1], k);
    }
  }

  /** Two builds of one image on one runner are only ever ordered if, in
      between, a failure was recorded, the row was forgotten, or the first
      builder's lease, renewals included, ran out. */
  lemma BuildsAreSeparated(s: State, es: seq<Step>, i: nat, j: nat, k: Key)
    requires i < j && ToldToBuild(s, es, i, k) && ToldToBuild(s, es, j, k)
    ensures (exists m :: i < m < j && Ends(es[m], k)) || LapsedAt(s, es, j, k)
  {
    if forall m :: i < m < j ==> !Ends(es[m], k) {
      KeptBetween(s, es, i, j, k);
    }
  }

  /** Failed or forgotten, with nobody at it. */
  ghost predicate Abandoned(t: Table, k: Key) {
    k in t ==> t[k].status == Failed && t[k].leasedUntil.None?
  }

  lemma {:induction false} StaysAbandoned(s: State, es: seq<Step>, m: nat, j: nat, k: Key)
    requires m < j <= |es| && Abandoned(Run(s, es[..m + 1]).rows, k)
    requires forall i :: m < i < j ==> !((es[i].Upsert? || es[i].Finish?) && es[i].key == k)
    ensures Abandoned(Run(s, es[..j]).rows, k)
    decreases j
  {
    if j > m + 1 {
      StaysAbandoned(s, es, m, j - 1, k);
      assert es[..j][..j - 1] == es[..j - 1] && es[..j][j - 1] == es[j - 1];
    }
  }

  /** Once a build has failed, or its row was forgotten, the next claim is told
      to build, however soon it comes and whoever makes it. */
  lemma NextClaimBuilds(s: State, es: seq<Step>, m: nat, j: nat, k: Key)
    requires m < j < |es| && Ends(es[m], k) && es[j].Upsert? && es[j].key == k
    requires forall i :: m < i < j ==> !((es[i].Upsert? || es[i].Finish?) && es[i].key == k)
    ensures ToldToBuild(s, es, j, k)
            || (es[m].Fail? && k in Run(s, es[..m]).rows && Run(s, es[..m]).rows[k].status == Ready)
  {
    var t := Run(s, es[..m]);
    assert es[..m + 1][..m] == es[..m] && es[..m + 1][m] == es[m];
    if es[m].Drop? || !(k in t.rows && t.rows[k].status == Ready) {
      StaysAbandoned(s, es, m, j, k);
    }
  }

  lemma {:induction false} ReadyStays(s: State, es: seq<Step>, k: Key)
    requires k in s.rows && s.rows[k].status == Ready
    requires forall m :: 0 <= m < |es| ==> !(es[m].Drop? && es[m].key == k)
    ensures k in Run(s, es).rows && Run(s, es).rows[k].status == Ready
    decreases |es|
  {
    if es != [] {
      ReadyStays(s, es[..|es| - 1], k);
    }
  }

  /** A finished image is only ever lost by being forgotten. */
  lemma {:induction false} ReadyLeftOnlyByForget(s: State, es: seq<Step>, k: Key)
    requires k in s.rows && s.rows[k].status == Ready
    requires !(k in Run(s, es).rows && Run(s, es).rows[k].status == Ready)
    ensures exists m :: 0 <= m < |es| && es[m] == Drop(k)
  {
    if forall m :: 0 <= m < |es| ==> !(es[m].Drop? && es[m].key == k) {
      ReadyStays(s, es, k);
    } else {
      var m :| 0 <= m < |es| && es[m].Drop? && es[m].key == k;
      assert es[m] == Drop(k);
    }
  }

  /** What the lease says: the time of the last claim or renewal, plus its length. */
  ghost predicate LeaseFrom(s: State, es: seq<Step>, m: nat, k: Key, until: nat)
    requires m < |es|
  {
    || (ToldToBuild(s, es, m, k) && until == Run(s, es[..m]).now + es[m].lease)
    || (es[m].RenewLease? && es[m].key == k && until == Run(s, es[..m]).now + es[m].lease)
  }

  /** A lease that ran out was last taken or renewed a whole lease before:
      a builder that renews in time is never built beside. */
  lemma {:induction false} LapsedMeansNotRenewed(s: State, es: seq<Step>, j: nat, k: Key)
    requires s.rows == map[] && j <= |es| && LapsedAt(s, es, j, k)
    ensures exists m :: 0 <= m < j && LeaseFrom(s, es, m, k, Run(s, es[..j]).rows[k].leasedUntil.value)
  {
    LeaseHasAStart(s, es, j, k);
  }

  lemma {:induction false} LeaseHasAStart(s: State, es: seq<Step>, j: nat, k: Key)
    requires s.rows == map[] && j <= |es|
    requires k in Run(s, es[..j]).rows && Run(s, es[..j]).rows[k].leasedUntil.Some?
    ensures exists m :: 0 <= m < j && LeaseFrom(s, es, m, k, Run(s, es[..j]).rows[k].leasedUntil.value)
    decreases j
  {
    if j > 0 {
      var before, e := Run(s, es[..j - 1]), es[j - 1];
      assert es[..j][..j - 1] == es[..j - 1] && es[..j][j - 1] == e;
      var until := After(before, e).rows[k].leasedUntil.value;
      if !LeaseFrom(s, es, j - 1, k, until) {
        assert k in before.rows && before.rows[k].leasedUntil == Some(until);
        LeaseHasAStart(s, es, j - 1, k);
      }
    }
  }
}
