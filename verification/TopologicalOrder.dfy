/** The order of a plan's jobs, as `src/plan.rs` finds it: wave after wave of jobs
    whose needs are all placed. */
module TopologicalOrder {
  import opened Common

  /** One cell of the plan.  `base` is the job it is a cell of, and `needs`
      names other jobs. */
  datatype Job = Job(key: string, base: string, needs: seq<string>)

  predicate Ready(done: set<string>, j: Job) {
    forall n :: n in j.needs ==> n in done
  }

  function ReadyOnes(done: set<string>, js: seq<Job>): seq<Job> {
    if js == [] then [] else (if Ready(done, js[0]) then [js[0]] else []) + ReadyOnes(done, js[1..])
  }

  function Waiting(done: set<string>, js: seq<Job>): (r: seq<Job>)
    ensures |r| + |ReadyOnes(done, js)| == |js|
  {
    if js == [] then [] else (if Ready(done, js[0]) then [] else [js[0]]) + Waiting(done, js[1..])
  }

  function Bases(js: seq<Job>): set<string> {
    set j | j in js :: j.base
  }

  /** The needs that name no job of `bases`, in order. */
  function Missing(bases: set<string>, js: seq<Job>): seq<string> {
    if js == [] then [] else Absent(bases, js[0].needs) + Missing(bases, js[1..])
  }

  function Absent(bases: set<string>, needs: seq<string>): seq<string> {
    if needs == [] then []
    else (if needs[0] in bases then [] else [needs[0]]) + Absent(bases, needs[1..])
  }

  function Keys(js: seq<Job>): seq<string> {
    if js == [] then [] else [js[0].key] + Keys(js[1..])
  }

  function Stuck(bases: set<string>, js: seq<Job>): seq<string> {
    if Missing(bases, js) == [] then Keys(js) else Missing(bases, js)
  }

  /** The waves that follow once `done` are placed. */
  function Waves(bases: set<string>, done: set<string>, js: seq<Job>): Result<seq<Job>, seq<string>>
    decreases |js|
  {
    if js == [] then Ok([])
    else
      var wave := ReadyOnes(done, js);
      if wave == [] then Err(Stuck(bases, js))
      else
        match Waves(bases, done + Bases(wave), Waiting(done, js))
        case Err(e) => Err(e)
        case Ok(rest) => Ok(wave + rest)
  }

  function Order(js: seq<Job>): Result<seq<Job>, seq<string>> {
    Waves(Bases(js), {}, js)
  }

  // ---- the loops -----------------------------------------------------------------------

  function Reverse(js: seq<Job>): (r: seq<Job>)
    ensures |r| == |js|
  {
    if js == [] then [] else Reverse(js[1..]) + [js[0]]
  }

  lemma {:induction false} ReverseSnoc(js: seq<Job>, j: Job)
    ensures Reverse(js + [j]) == [j] + Reverse(js)
  {
    if js != [] {
      assert (js + [j])[1..] == js[1..] + [j];
      ReverseSnoc(js[1..], j);
    }
  }

  /** The positions of the ready jobs, ascending, are `ready`. */
  ghost predicate ReadyAt(done: set<string>, js: seq<Job>, ready: seq<nat>) {
    && (forall p :: 0 <= p < |ready| ==> ready[p] < |js| && Ready(done, js[ready[p]]))
    && (forall p, q :: 0 <= p < q < |ready| ==> ready[p] < ready[q])
    && (forall i :: 0 <= i < |js| && Ready(done, js[i]) ==> i in ready)
  }

  lemma Position(done: set<string>, js: seq<Job>, ready: seq<nat>, k: nat)
    requires ReadyAt(done, js, ready) && k < |js| && Ready(done, js[k])
    ensures exists q :: 0 <= q < |ready| && ready[q] == k
  {
    assert k in ready;
  }

  method ReadyPositions(done: set<string>, js: seq<Job>) returns (ready: seq<nat>)
    ensures ReadyAt(done, js, ready)
  {
    ready := [];
    for i := 0 to |js|
      invariant forall p :: 0 <= p < |ready| ==> ready[p] < i && Ready(done, js[ready[p]])
      invariant forall p, q :: 0 <= p < q < |ready| ==> ready[p] < ready[q]
      invariant forall k :: 0 <= k < i && Ready(done, js[k]) ==> k in ready
    {
      if Ready(done, js[i]) {
        ready := ready + [i];
      }
    }
  }

  lemma OneWaits(done: set<string>, j: Job, rest: seq<Job>)
    requires !Ready(done, j)
    ensures ReadyOnes(done, [j] + rest) == ReadyOnes(done, rest)
    ensures Waiting(done, [j] + rest) == [j] + Waiting(done, rest)
  {
    assert ([j] + rest)[1..] == rest;
  }

  lemma Regroup(j: Job, mid: seq<Job>, tail: seq<Job>)
    ensures [j] + mid + tail == [j] + (mid + tail)
  {
  }

  /** Jobs none of which is ready stay where they are. */
  lemma {:induction false} AllWait(done: set<string>, mid: seq<Job>, tail: seq<Job>)
    requires forall i :: 0 <= i < |mid| ==> !Ready(done, mid[i])
    ensures ReadyOnes(done, mid + tail) == ReadyOnes(done, tail)
    ensures Waiting(done, mid + tail) == mid + Waiting(done, tail)
  {
    if mid == [] {
      assert mid + tail == tail;
    } else {
      var j, more := mid[0], mid[1..];
      assert mid == [j] + more;
      AllWait(done, more, tail);
      OneWaits(done, j, more + tail);
      Regroup(j, more, tail);
      Regroup(j, more, Waiting(done, tail));
    }
  }

  lemma OneGoes(done: set<string>, j: Job, mid: seq<Job>, tail: seq<Job>)
    requires Ready(done, j) && forall i :: 0 <= i < |mid| ==> !Ready(done, mid[i])
    ensures ReadyOnes(done, [j] + (mid + tail)) == [j] + ReadyOnes(done, tail)
    ensures Waiting(done, [j] + (mid + tail)) == mid + Waiting(done, tail)
  {
    AllWait(done, mid, tail);
    var all := [j] + (mid + tail);
    assert all[1..] == mid + tail && all[0] == j;
  }

  /** Where the removal stands when all positions from `cut` on are handled. */
  ghost predicate Removed(done: set<string>, js: seq<Job>, cut: nat, wave: seq<Job>, rest: seq<Job>) {
    cut <= |js| && rest == js[..cut] + Waiting(done, js[cut..]) && Reverse(wave) == ReadyOnes(done, js[cut..])
  }

  lemma RemoveOne(done: set<string>, js: seq<Job>, i: nat, cut: nat, wave: seq<Job>, rest: seq<Job>)
    requires Removed(done, js, cut, wave, rest) && i < cut && Ready(done, js[i])
    requires forall k :: i < k < cut ==> !Ready(done, js[k])
    ensures i < |rest| && rest[i] == js[i] && Removed(done, js, i, wave + [js[i]], rest[..i] + rest[i + 1..])
  {
    var front, mid, tail := js[..i], js[i + 1..cut], js[cut..];
    OneGoes(done, js[i], mid, tail);
    Pieces(js, i, cut);
    Without(front, js[i], mid, Waiting(done, tail));
    ReverseSnoc(wave, js[i]);
  }

  lemma Pieces(js: seq<Job>, i: nat, cut: nat)
    requires i < cut <= |js|
    ensures js[i..] == [js[i]] + (js[i + 1..cut] + js[cut..])
    ensures js[..cut] == js[..i] + [js[i]] + js[i + 1..cut]
  {
  }

  lemma Without(front: seq<Job>, j: Job, mid: seq<Job>, tail: seq<Job>)
    ensures var s := front + [j] + mid + tail;
            s[|front|] == j && s[..|front|] + s[|front| + 1..] == front + (mid + tail)
  {
  }

  /** No job is ready behind the position taken next. */
  lemma NoneBetween(done: set<string>, js: seq<Job>, ready: seq<nat>, p: nat, cut: nat)
    requires ReadyAt(done, js, ready) && p < |ready| && cut <= |js|
    requires forall q :: p < q < |ready| ==> cut <= ready[q]
    ensures forall k :: ready[p] < k < cut ==> !Ready(done, js[k])
  {
    forall k: nat | ready[p] < k < cut ensures !Ready(done, js[k]) {
      if Ready(done, js[k]) { Position(done, js, ready, k); }
    }
  }

  /** Takes the ready jobs out of `js`, from the last position to the first,
      and puts them back in order. */
  method TakeWave(done: set<string>, js: seq<Job>, ready: seq<nat>) returns (wave: seq<Job>, rest: seq<Job>)
    requires ReadyAt(done, js, ready)
    ensures wave == ReadyOnes(done, js) && rest == Waiting(done, js)
  {
    wave, rest := [], js;
    var p := |ready|;
    ghost var cut := |js|;
    assert js[cut..] == [] && js[..cut] == js;
    while p > 0
      invariant 0 <= p <= |ready|
      invariant Removed(done, js, cut, wave, rest)
      invariant forall q :: p <= q < |ready| ==> cut <= ready[q]
      invariant forall q :: 0 <= q < p ==> ready[q] < cut
    {
      p := p - 1;
      var i := ready[p];
      NoneBetween(done, js, ready, p, cut);
      RemoveOne(done, js, i, cut, wave, rest);
      wave, rest := wave + [rest[i]], rest[..i] + rest[i + 1..];
      cut := i;
    }
    assert forall k :: 0 <= k < cut ==> !Ready(done, js[k]);
    AllWait(done, js[..cut], js[cut..]);
    assert js[..cut] + js[cut..] == js;
    wave := Reverse(wave);
  }

  method TopologicallyOrdered(js: seq<Job>) returns (r: Result<seq<Job>, seq<string>>)
    ensures r == Order(js)
  {
    var bases := Bases(js);
    var ordered: seq<Job> := [];
    var done: set<string> := {};
    var remaining := js;
    ghost var all := Order(js);
    assert all.Ok? ==> [] + all.value == all.value;
    while remaining != []
      invariant all == Placed(ordered, Waves(bases, done, remaining))
      decreases |remaining|
    {
      var ready := ReadyPositions(done, remaining);
      NoneReady(done, remaining, ready);
      if ready == [] {
        return Err(Stuck(bases, remaining));
      }
      var wave, rest := TakeWave(done, remaining, ready);
      PlaceWave(bases, done, remaining, ordered);
      done := done + Bases(wave);
      ordered := ordered + wave;
      remaining := rest;
    }
    assert ordered + [] == ordered;
    r := Ok(ordered);
  }

  function Placed(front: seq<Job>, rest: Result<seq<Job>, seq<string>>): Result<seq<Job>, seq<string>> {
    match rest
    case Err(e) => Err(e)
    case Ok(js) => Ok(front + js)
  }

  lemma PlacedBehind(front: seq<Job>, wave: seq<Job>, rest: Result<seq<Job>, seq<string>>)
    ensures Placed(front, Placed(wave, rest)) == Placed(front + wave, rest)
  {
    assert rest.Ok? ==> front + (wave + rest.value) == front + wave + rest.value;
  }

  lemma PlaceWave(bases: set<string>, done: set<string>, js: seq<Job>, front: seq<Job>)
    requires js != [] && ReadyOnes(done, js) != []
    ensures var wave := ReadyOnes(done, js);
            Placed(front, Waves(bases, done, js))
            == Placed(front + wave, Waves(bases, done + Bases(wave), Waiting(done, js)))
  {
    var wave := ReadyOnes(done, js);
    var rest := Waves(bases, done + Bases(wave), Waiting(done, js));
    assert Waves(bases, done, js) == Placed(wave, rest);
    PlacedBehind(front, wave, rest);
  }

  lemma NoneReady(done: set<string>, js: seq<Job>, ready: seq<nat>)
    requires ReadyAt(done, js, ready)
    ensures ready == [] <==> ReadyOnes(done, js) == []
  {
    ReadyMembers(done, js);
    if ready != [] {
      assert js[ready[0]] in js;
      assert js[ready[0]] in ReadyOnes(done, js);
    }
    if ReadyOnes(done, js) != [] {
      var j := ReadyOnes(done, js)[0];
      assert j in js && Ready(done, j);
      var i :| 0 <= i < |js| && js[i] == j;
      assert i in ready;
    }
  }

  lemma {:induction false} ReadyMembers(done: set<string>, js: seq<Job>)
    ensures forall j :: j in ReadyOnes(done, js) <==> j in js && Ready(done, j)
    ensures forall j :: j in Waiting(done, js) <==> j in js && !Ready(done, j)
  {
    if js != [] {
      ReadyMembers(done, js[1..]);
      assert js == [js[0]] + js[1..];
    }
  }

  // ---- nothing lost, nothing doubled -------------------------------------------------------

  lemma OneMoreJob(j: Job, some: seq<Job>, others: seq<Job>, all: seq<Job>)
    requires multiset(some) + multiset(others) == multiset(all)
    ensures multiset([j] + some) + multiset(others) == multiset([j] + all)
    ensures multiset(some) + multiset([j] + others) == multiset([j] + all)
  {
  }

  lemma {:induction false} WaveParts(done: set<string>, js: seq<Job>)
    ensures multiset(ReadyOnes(done, js)) + multiset(Waiting(done, js)) == multiset(js)
  {
    if js != [] {
      var j, ready, rest := js[0], ReadyOnes(done, js[1..]), Waiting(done, js[1..]);
      WaveParts(done, js[1..]);
      OneMoreJob(j, ready, rest, js[1..]);
      assert js == [j] + js[1..];
      assert ReadyOnes(done, js) == if Ready(done, j) then [j] + ready else ready;
      assert Waiting(done, js) == if Ready(done, j) then rest else [j] + rest;
    }
  }

  lemma {:induction false} OrderIsPermutation(bases: set<string>, done: set<string>, js: seq<Job>)
    requires Waves(bases, done, js).Ok?
    ensures multiset(Waves(bases, done, js).value) == multiset(js)
    decreases |js|
  {
    if js != [] {
      var wave := ReadyOnes(done, js);
      OrderIsPermutation(bases, done + Bases(wave), Waiting(done, js));
      WaveParts(done, js);
    }
  }

  // ---- the needs graph ------------------------------------------------------------------------

  /** Some cell of `a` needs `b`. */
  ghost predicate Edge(js: seq<Job>, a: string, b: string) {
    exists j :: j in js && j.base == a && b in j.needs
  }

  ghost predicate IsPath(js: seq<Job>, p: seq<string>) {
    p != [] && forall i :: 0 <= i < |p| - 1 ==> Edge(js, p[i], p[i + 1])
  }

  ghost predicate IsCycle(js: seq<Job>, p: seq<string>) {
    IsPath(js, p) && |p| >= 2 && p[0] == p[|p| - 1]
  }

  ghost predicate Cyclic(js: seq<Job>) {
    exists p :: IsCycle(js, p)
  }

  ghost predicate NeedsExist(js: seq<Job>) {
    forall j, n :: j in js && n in j.needs ==> n in Bases(js)
  }

  /** The cells of one job need the same jobs: they are made from one. */
  ghost predicate SharedNeeds(js: seq<Job>) {
    forall a, b :: a in js && b in js && a.base == b.base ==> a.needs == b.needs
  }

  // ---- a stuck plan has a missing need or a cycle -------------------------------------------------

  lemma {:induction false} AbsentNone(bases: set<string>, needs: seq<string>)
    ensures Absent(bases, needs) == [] <==> forall n :: n in needs ==> n in bases
  {
    if needs != [] {
      AbsentNone(bases, needs[1..]);
      assert needs == [needs[0]] + needs[1..];
    }
  }

  lemma {:induction false} MissingNone(bases: set<string>, js: seq<Job>)
    ensures Missing(bases, js) == [] <==> forall j, n :: j in js && n in j.needs ==> n in bases
  {
    if js != [] {
      MissingNone(bases, js[1..]);
      AbsentNone(bases, js[0].needs);
      assert js == [js[0]] + js[1..];
    }
  }

  lemma MissingHead(bases: set<string>, j: Job, js: seq<Job>)
    ensures Missing(bases, [j] + js) == Absent(bases, j.needs) + Missing(bases, js)
  {
    assert ([j] + js)[1..] == js;
  }

  lemma {:induction false} MissingWaits(bases: set<string>, done: set<string>, js: seq<Job>)
    requires done <= bases
    ensures Missing(bases, Waiting(done, js)) == Missing(bases, js)
  {
    if js != [] {
      MissingWaits(bases, done, js[1..]);
      if Ready(done, js[0]) {
        AbsentNone(bases, js[0].needs);
        assert Absent(bases, js[0].needs) == [] && Waiting(done, js) == Waiting(done, js[1..]);
      } else {
        MissingHead(bases, js[0], Waiting(done, js[1..]));
      }
    }
  }

  lemma {:induction false} MissingStops(bases: set<string>, done: set<string>, js: seq<Job>)
    requires done <= bases && Bases(js) <= bases && Missing(bases, js) != []
    ensures Waves(bases, done, js) == Err(Missing(bases, js))
    decreases |js|
  {
    var wave := ReadyOnes(done, js);
    if wave != [] {
      ReadyMembers(done, js);
      MissingWaits(bases, done, js);
      MissingStops(bases, done + Bases(wave), Waiting(done, js));
    }
  }

  /** A plan with needs that name no job is refused with exactly those needs. */
  lemma MissingNeedsAreNamed(js: seq<Job>)
    requires !NeedsExist(js)
    ensures Order(js) == Err(Missing(Bases(js), js)) && Missing(Bases(js), js) != []
  {
    MissingNone(Bases(js), js);
    MissingStops(Bases(js), {}, js);
  }

  lemma {:induction false} DistinctFit(p: seq<string>, names: set<string>)
    requires forall i :: 0 <= i < |p| ==> p[i] in names
    requires forall i, k :: 0 <= i < k < |p| ==> p[i] != p[k]
    ensures |p| <= |names|
  {
    if p != [] {
      DistinctFit(p[1..], names - {p[0]});
    }
  }

  /** `a` needs one of `names`. */
  ghost predicate GoesOn(js: seq<Job>, names: set<string>, a: string) {
    exists b :: b in names && Edge(js, a, b)
  }

  lemma PathOn(js: seq<Job>, p: seq<string>, b: string)
    requires IsPath(js, p) && Edge(js, p[|p| - 1], b)
    ensures IsPath(js, p + [b])
  {
    var q := p + [b];
    forall i | 0 <= i < |q| - 1 ensures Edge(js, q[i], q[i + 1]) {
      if i < |p| - 1 { assert Edge(js, p[i], p[i + 1]); }
    }
  }

  lemma {:induction false} LongPath(js: seq<Job>, names: set<string>, n: nat) returns (p: seq<string>)
    requires names != {} && forall a {:trigger GoesOn(js, names, a)} :: a in names ==> GoesOn(js, names, a)
    ensures IsPath(js, p) && |p| == n + 1 && forall i :: 0 <= i < |p| ==> p[i] in names
  {
    if n == 0 {
      var a :| a in names;
      p := [a];
    } else {
      var front := LongPath(js, names, n - 1);
      assert GoesOn(js, names, front[n - 1]);
      var b :| b in names && Edge(js, front[n - 1], b);
      PathOn(js, front, b);
      p := front + [b];
    }
  }

  ghost predicate Repeats(p: seq<string>) {
    exists i, k :: 0 <= i < k < |p| && p[i] == p[k]
  }

  /** If every job of a group needs another of the group, the group has a cycle. */
  lemma NoWayOut(js: seq<Job>, names: set<string>)
    requires names != {} && forall a {:trigger GoesOn(js, names, a)} :: a in names ==> GoesOn(js, names, a)
    ensures Cyclic(js)
  {
    var p := LongPath(js, names, |names|);
    if !Repeats(p) {
      DistinctFit(p, names);
    }
    var i, k :| 0 <= i < k < |p| && p[i] == p[k];
    CutOut(js, p, i, k);
  }

  lemma CutOut(js: seq<Job>, p: seq<string>, i: nat, k: nat)
    requires IsPath(js, p) && i < k < |p| && p[i] == p[k]
    ensures IsCycle(js, p[i..k + 1])
  {
    var c := p[i..k + 1];
    forall m | 0 <= m < |c| - 1 ensures Edge(js, c[m], c[m + 1]) {
      assert Edge(js, p[i + m], p[i + m + 1]);
    }
  }

  lemma EveryoneWaits(js: seq<Job>, done: set<string>, rem: seq<Job>, a: string)
    requires NeedsExist(js) && a in Bases(rem)
    requires forall j :: j in rem ==> j in js && !Ready(done, j)
    requires forall j :: j in js ==> j in rem || j.base in done
    ensures GoesOn(js, Bases(rem), a)
  {
    var j :| j in rem && j.base == a;
    var n :| n in j.needs && n !in done;
    assert n in Bases(js);
    var k :| k in js && k.base == n;
    assert n in Bases(rem) && Edge(js, a, n);
  }

  lemma {:induction false} StuckMeansCycle(js: seq<Job>, done: set<string>, rem: seq<Job>)
    requires NeedsExist(js) && Waves(Bases(js), done, rem).Err?
    requires forall j :: j in rem ==> j in js
    requires forall j :: j in js ==> j in rem || j.base in done
    ensures Cyclic(js)
    decreases |rem|
  {
    ReadyMembers(done, rem);
    var wave := ReadyOnes(done, rem);
    if wave != [] {
      StuckMeansCycle(js, done + Bases(wave), Waiting(done, rem));
    } else {
      NoneIsReady(js, done, rem);
    }
  }

  lemma NoneIsReady(js: seq<Job>, done: set<string>, rem: seq<Job>)
    requires NeedsExist(js) && rem != []
    requires forall j :: j in rem ==> j in js && !Ready(done, j)
    requires forall j :: j in js ==> j in rem || j.base in done
    ensures Cyclic(js)
  {
    forall a | a in Bases(rem) ensures GoesOn(js, Bases(rem), a) {
      EveryoneWaits(js, done, rem, a);
    }
    assert rem[0].base in Bases(rem);
    NoWayOut(js, Bases(rem));
  }

  // ---- depth ------------------------------------------------------------------------------------------

  /** The depth of `j` is one more than the greatest of its needs', 0 without. */
  ghost predicate IsDepth(d: map<string, nat>, j: Job) {
    && j.base in d
    && (forall n :: n in j.needs ==> n in d && d[n] < d[j.base])
    && (d[j.base] == 0 || exists n :: n in j.needs && n in d && d[n] + 1 == d[j.base])
  }

  ghost predicate Depths(js: seq<Job>, d: map<string, nat>) {
    d.Keys == Bases(js) && forall j {:trigger IsDepth(d, j)} :: j in js ==> IsDepth(d, j)
  }

  function Layer(js: seq<Job>, d: map<string, nat>, k: nat): seq<Job> {
    if js == [] then []
    else (if js[0].base in d && d[js[0].base] == k then [js[0]] else []) + Layer(js[1..], d, k)
  }

  /** The jobs of depth 0, then those of depth 1, and so on below `k`, each
      layer in the order of `js`. */
  function Layers(js: seq<Job>, d: map<string, nat>, k: nat): seq<Job> {
    if k == 0 then [] else Layers(js, d, k - 1) + Layer(js, d, k - 1)
  }

  function Unplaced(js: seq<Job>, d: map<string, nat>): seq<Job> {
    if js == [] then [] else (if js[0].base in d then [] else [js[0]]) + Unplaced(js[1..], d)
  }

  /** After `k` waves, `d` holds the wave each placed job went in. */
  ghost predicate WavesSoFar(js: seq<Job>, d: map<string, nat>, k: nat) {
    && d.Keys <= Bases(js)
    && (forall b :: b in d ==> d[b] < k)
    && (forall j {:trigger IsDepth(d, j)} :: j in js && j.base in d ==> IsDepth(d, j))
    && (forall j {:trigger HeldBack(d, k, j)} :: j in js && j.base !in d ==> k == 0 || HeldBack(d, k, j))
  }

  /** Not ready in the wave before. */
  ghost predicate HeldBack(d: map<string, nat>, k: nat, j: Job) {
    exists n :: n in j.needs && (n !in d || d[n] + 1 == k)
  }

  function NextDepths(js: seq<Job>, d: map<string, nat>, k: nat): map<string, nat> {
    var wave := ReadyOnes(d.Keys, Unplaced(js, d));
    map b | b in d.Keys + Bases(wave) :: if b in d then d[b] else k
  }

  lemma {:induction false} UnplacedMembers(js: seq<Job>, d: map<string, nat>)
    ensures forall j :: j in Unplaced(js, d) <==> j in js && j.base !in d
  {
    if js != [] {
      UnplacedMembers(js[1..], d);
      assert js == [js[0]] + js[1..];
    }
  }

  /** A job is placed next exactly when it is ready: its cells go together. */
  lemma PlacedNext(js: seq<Job>, d: map<string, nat>, k: nat, j: Job)
    requires SharedNeeds(js) && j in js && j.base !in d
    ensures j.base in NextDepths(js, d, k) <==> Ready(d.Keys, j)
  {
    var wave := ReadyOnes(d.Keys, Unplaced(js, d));
    UnplacedMembers(js, d);
    ReadyMembers(d.Keys, Unplaced(js, d));
    if j.base in Bases(wave) {
      var i :| i in wave && i.base == j.base;
      assert i.needs == j.needs;
    }
    if Ready(d.Keys, j) {
      assert j in wave;
    }
  }

  ghost predicate NextIs(js: seq<Job>, d: map<string, nat>, e: map<string, nat>, k: nat) {
    && (forall b :: b in d ==> b in e && e[b] == d[b] && d[b] < k)
    && (forall b :: b in e && b !in d ==> e[b] == k)
    && (forall j :: j in js && j.base !in d ==> (j.base in e <==> Ready(d.Keys, j)))
  }

  lemma {:induction false} WaveIsLayer(js: seq<Job>, d: map<string, nat>, e: map<string, nat>, k: nat)
    requires NextIs(js, d, e, k)
    ensures ReadyOnes(d.Keys, Unplaced(js, d)) == Layer(js, e, k)
    ensures Waiting(d.Keys, Unplaced(js, d)) == Unplaced(js, e)
  {
    if js != [] {
      WaveIsLayer(js[1..], d, e, k);
      var j, rest := js[0], Unplaced(js[1..], d);
      assert j in js;
      if j.base in d {
        assert Unplaced(js, d) == rest && Layer(js, e, k) == Layer(js[1..], e, k);
      } else {
        assert Unplaced(js, d) == [j] + rest && ([j] + rest)[1..] == rest;
      }
    }
  }

  lemma {:induction false} LayerKept(js: seq<Job>, d: map<string, nat>, e: map<string, nat>, k: nat, i: nat)
    requires NextIs(js, d, e, k) && i < k
    ensures Layer(js, d, i) == Layer(js, e, i)
  {
    if js != [] {
      LayerKept(js[1..], d, e, k, i);
      assert js[0] in js;
    }
  }

  lemma {:induction false} LayersKept(js: seq<Job>, d: map<string, nat>, e: map<string, nat>, k: nat, m: nat)
    requires NextIs(js, d, e, k) && m <= k
    ensures Layers(js, d, m) == Layers(js, e, m)
  {
    if m > 0 {
      LayersKept(js, d, e, k, m - 1);
      LayerKept(js, d, e, k, m - 1);
    }
  }

  lemma DepthKept(d: map<string, nat>, e: map<string, nat>, j: Job)
    requires IsDepth(d, j) && forall b :: b in d ==> b in e && e[b] == d[b]
    ensures IsDepth(e, j)
  {
  }

  lemma DepthOfNext(d: map<string, nat>, e: map<string, nat>, k: nat, j: Job)
    requires forall b :: b in d ==> b in e && e[b] == d[b] && d[b] < k
    requires j.base in e && e[j.base] == k && Ready(d.Keys, j) && (k == 0 || HeldBack(d, k, j))
    ensures IsDepth(e, j)
  {
    if k > 0 {
      var n :| n in j.needs && (n !in d || d[n] + 1 == k);
      assert n in d.Keys;
    }
  }

  lemma HeldBackNext(d: map<string, nat>, e: map<string, nat>, k: nat, j: Job)
    requires (forall b :: b in e && b !in d ==> e[b] == k) && !Ready(d.Keys, j)
    ensures HeldBack(e, k + 1, j)
  {
    var n :| n in j.needs && n !in d.Keys;
    assert n in e ==> e[n] + 1 == k + 1;
  }

  lemma NextWave(js: seq<Job>, d: map<string, nat>, k: nat) returns (e: map<string, nat>)
    requires SharedNeeds(js) && WavesSoFar(js, d, k)
    ensures e == NextDepths(js, d, k) && NextIs(js, d, e, k) && WavesSoFar(js, e, k + 1)
  {
    e := NextDepths(js, d, k);
    UnplacedMembers(js, d);
    ReadyMembers(d.Keys, Unplaced(js, d));
    forall j | j in js && j.base !in d ensures j.base in e <==> Ready(d.Keys, j) {
      PlacedNext(js, d, k, j);
    }
    forall j | j in js && j.base in e ensures IsDepth(e, j) {
      if j.base in d { DepthKept(d, e, j); } else { DepthOfNext(d, e, k, j); }
    }
    forall j | j in js && j.base !in e ensures HeldBack(e, k + 1, j) {
      HeldBackNext(d, e, k, j);
    }
  }

  lemma AllPlaced(js: seq<Job>, d: map<string, nat>, k: nat)
    requires WavesSoFar(js, d, k) && Unplaced(js, d) == []
    ensures Depths(js, d)
  {
    UnplacedMembers(js, d);
    forall j | j in js ensures j.base in d {
      assert j !in Unplaced(js, d);
    }
  }

  lemma OneMoreWave(js: seq<Job>, d: map<string, nat>, k: nat) returns (e: map<string, nat>)
    requires SharedNeeds(js) && WavesSoFar(js, d, k)
    ensures WavesSoFar(js, e, k + 1) && e.Keys == d.Keys + Bases(ReadyOnes(d.Keys, Unplaced(js, d)))
    ensures Unplaced(js, e) == Waiting(d.Keys, Unplaced(js, d))
    ensures Layers(js, e, k + 1) == Layers(js, d, k) + ReadyOnes(d.Keys, Unplaced(js, d))
  {
    e := NextWave(js, d, k);
    WaveIsLayer(js, d, e, k);
    LayersKept(js, d, e, k, k);
  }

  /** `all` is `front` and then what the waves over `rem` give. */
  ghost predicate Completes(bases: set<string>, done: set<string>, rem: seq<Job>, front: seq<Job>, all: seq<Job>) {
    Waves(bases, done, rem).Ok? && all == front + Waves(bases, done, rem).value
  }

  lemma WavesGoOn(bases: set<string>, done: set<string>, rem: seq<Job>)
    requires rem != [] && Waves(bases, done, rem).Ok?
    ensures ReadyOnes(done, rem) != []
    ensures Waves(bases, done + Bases(ReadyOnes(done, rem)), Waiting(done, rem)).Ok?
  {
  }

  lemma CompletesBefore(bases: set<string>, done: set<string>, rem: seq<Job>, front: seq<Job>, all: seq<Job>)
    requires rem != [] && Waves(bases, done, rem).Ok?
    requires var wave := ReadyOnes(done, rem);
             Completes(bases, done + Bases(wave), Waiting(done, rem), front + wave, all)
    ensures Completes(bases, done, rem, front, all)
  {
    var wave := ReadyOnes(done, rem);
    Rejoin(front, wave, Waves(bases, done + Bases(wave), Waiting(done, rem)).value);
  }

  lemma LastWave(js: seq<Job>, bases: set<string>, d: map<string, nat>, k: nat)
    requires WavesSoFar(js, d, k) && Unplaced(js, d) == []
    ensures Depths(js, d) && (forall b :: b in d ==> d[b] < k)
    ensures Completes(bases, d.Keys, [], Layers(js, d, k), Layers(js, d, k))
  {
    AllPlaced(js, d, k);
  }

  lemma ToNextWave(js: seq<Job>, bases: set<string>, d: map<string, nat>, k: nat, rem: seq<Job>)
    returns (next: map<string, nat>, rest: seq<Job>)
    requires SharedNeeds(js) && WavesSoFar(js, d, k)
    requires rem == Unplaced(js, d) && Waves(bases, d.Keys, rem).Ok? && rem != []
    ensures WavesSoFar(js, next, k + 1)
    ensures rest == Unplaced(js, next) && Waves(bases, next.Keys, rest).Ok? && |rest| < |rem|
    ensures forall all :: Completes(bases, next.Keys, rest, Layers(js, next, k + 1), all) ==>
                          Completes(bases, d.Keys, rem, Layers(js, d, k), all)
  {
    WavesGoOn(bases, d.Keys, rem);
    next := OneMoreWave(js, d, k);
    rest := Waiting(d.Keys, rem);
    forall all | Completes(bases, next.Keys, rest, Layers(js, next, k + 1), all)
      ensures Completes(bases, d.Keys, rem, Layers(js, d, k), all)
    {
      CompletesBefore(bases, d.Keys, rem, Layers(js, d, k), all);
    }
  }

  /** The waves still to come place the remaining jobs by their depth. */
  lemma {:induction false} WavesAreLayers(js: seq<Job>, bases: set<string>, d: map<string, nat>, k: nat, rem: seq<Job>)
    returns (e: map<string, nat>, m: nat)
    requires SharedNeeds(js) && WavesSoFar(js, d, k) && rem == Unplaced(js, d) && Waves(bases, d.Keys, rem).Ok?
    ensures Depths(js, e) && (forall b :: b in e ==> e[b] < m)
    ensures Completes(bases, d.Keys, rem, Layers(js, d, k), Layers(js, e, m))
    decreases |rem|
  {
    if rem == [] {
      LastWave(js, bases, d, k);
      e, m := d, k;
    } else {
      var next, rest := ToNextWave(js, bases, d, k, rem);
      e, m := WavesAreLayers(js, bases, next, k + 1, rest);
    }
  }

  lemma Rejoin(a: seq<Job>, b: seq<Job>, c: seq<Job>)
    ensures (a + b) + c == a + (b + c)
  {
  }

  lemma {:induction false} NothingPlaced(js: seq<Job>)
    ensures Unplaced(js, map[]) == js
  {
    if js != [] { NothingPlaced(js[1..]); }
  }

  lemma NoWaveYet(js: seq<Job>, none: map<string, nat>)
    requires none == map[]
    ensures WavesSoFar(js, none, 0) && Unplaced(js, none) == js && none.Keys == {} && Layers(js, none, 0) == []
  {
    NothingPlaced(js);
  }

  lemma OrderedByDepth(js: seq<Job>) returns (d: map<string, nat>, m: nat)
    requires SharedNeeds(js) && Order(js).Ok?
    ensures Depths(js, d) && (forall b :: b in d ==> d[b] < m) && Order(js).value == Layers(js, d, m)
  {
    var none: map<string, nat> := map[];
    NoWaveYet(js, none);
    d, m := WavesAreLayers(js, Bases(js), none, 0, js);
    CompletesFromNothing(Bases(js), js, Layers(js, d, m));
  }

  lemma CompletesFromNothing(bases: set<string>, js: seq<Job>, all: seq<Job>)
    requires Completes(bases, {}, js, [], all)
    ensures Waves(bases, {}, js) == Ok(all)
  {
    var rest := Waves(bases, {}, js).value;
    assert [] + rest == rest;
  }

  // ---- what depth means -----------------------------------------------------------------------------------

  lemma {:induction false} PathsDescend(js: seq<Job>, d: map<string, nat>, p: seq<string>)
    requires Depths(js, d) && IsPath(js, p) && p[0] in d
    ensures p[|p| - 1] in d && d[p[|p| - 1]] + |p| - 1 <= d[p[0]]
    decreases |p|
  {
    if |p| > 1 {
      assert Edge(js, p[0], p[1]);
      var j :| j in js && j.base == p[0] && p[1] in j.needs;
      assert IsDepth(d, j);
      var q := p[1..];
      forall i | 0 <= i < |q| - 1 ensures Edge(js, q[i], q[i + 1]) {
        assert Edge(js, p[i + 1], p[i + 2]);
      }
      PathsDescend(js, d, q);
    }
  }

  lemma {:induction false} LongestPath(js: seq<Job>, d: map<string, nat>, b: string) returns (p: seq<string>)
    requires Depths(js, d) && b in d
    ensures IsPath(js, p) && p[0] == b && |p| == d[b] + 1
    decreases d[b]
  {
    if d[b] == 0 {
      p := [b];
    } else {
      var j :| j in js && j.base == b;
      assert IsDepth(d, j);
      var n :| n in j.needs && n in d && d[n] + 1 == d[b];
      var rest := LongestPath(js, d, n);
      p := [b] + rest;
      assert Edge(js, b, n);
      forall i | 0 <= i < |p| - 1 ensures Edge(js, p[i], p[i + 1]) {
        if i > 0 { assert Edge(js, rest[i - 1], rest[i]); }
      }
    }
  }

  /** The depth of a job is the number of needs on its longest chain of needs;
      so there is only one way to give depths. */
  lemma DepthIsLongestChain(js: seq<Job>, d: map<string, nat>, b: string)
    requires Depths(js, d) && b in d
    ensures exists p :: IsPath(js, p) && p[0] == b && |p| == d[b] + 1
    ensures forall p :: IsPath(js, p) && p[0] == b ==> |p| <= d[b] + 1
  {
    var p := LongestPath(js, d, b);
    forall q | IsPath(js, q) && q[0] == b ensures |q| <= d[b] + 1 {
      PathsDescend(js, d, q);
    }
  }

  lemma DepthsAreUnique(js: seq<Job>, d: map<string, nat>, e: map<string, nat>)
    requires Depths(js, d) && Depths(js, e)
    ensures d == e
  {
    forall b | b in d ensures d[b] == e[b] {
      var p := LongestPath(js, d, b);
      var q := LongestPath(js, e, b);
      PathsDescend(js, d, q);
      PathsDescend(js, e, p);
    }
  }

  // ---- the theorems ------------------------------------------------------------------------------------------

  /** Ordering succeeds exactly when every need names a job of the plan and
      no job needs itself, however indirectly. */
  lemma OrderSucceedsExactly(js: seq<Job>)
    requires SharedNeeds(js)
    ensures Order(js).Ok? <==> NeedsExist(js) && !Cyclic(js)
  {
    if Order(js).Ok? {
      var d, m := OrderedByDepth(js);
      forall j, n | j in js && n in j.needs ensures n in Bases(js) {
        assert IsDepth(d, j);
      }
      forall p ensures !IsCycle(js, p) {
        if IsCycle(js, p) {
          assert Edge(js, p[0], p[1]);
          PathsDescend(js, d, p);
        }
      }
    } else if NeedsExist(js) {
      StuckMeansCycle(js, {}, js);
    }
  }

  /** On success the result is the input sorted, stably, by depth. */
  lemma OrderIsStableByDepth(js: seq<Job>, d: map<string, nat>, m: nat)
    requires SharedNeeds(js) && Order(js).Ok? && Depths(js, d) && forall b :: b in d ==> d[b] < m
    ensures Order(js).value == Layers(js, d, m)
  {
    var e, k := OrderedByDepth(js);
    DepthsAreUnique(js, d, e);
    if k <= m { EmptyLayers(js, d, k, m); } else { EmptyLayers(js, d, m, k); }
  }

  lemma {:induction false} EmptyLayer(js: seq<Job>, d: map<string, nat>, k: nat)
    requires forall b :: b in d ==> d[b] < k
    ensures Layer(js, d, k) == []
  {
    if js != [] { EmptyLayer(js[1..], d, k); }
  }

  lemma {:induction false} EmptyLayers(js: seq<Job>, d: map<string, nat>, k: nat, m: nat)
    requires k <= m && forall b :: b in d ==> d[b] < k
    ensures Layers(js, d, m) == Layers(js, d, k)
  {
    if k < m {
      EmptyLayers(js, d, k, m - 1);
      EmptyLayer(js, d, m - 1);
    }
  }

  lemma {:induction false} LayerDepth(js: seq<Job>, d: map<string, nat>, k: nat)
    ensures forall j :: j in Layer(js, d, k) ==> j in js && j.base in d && d[j.base] == k
  {
    if js != [] {
      LayerDepth(js[1..], d, k);
    }
  }

  lemma {:induction false} LayersAscend(js: seq<Job>, d: map<string, nat>, m: nat)
    ensures forall j :: j in Layers(js, d, m) ==> j in js && j.base in d && d[j.base] < m
    ensures forall i, k :: 0 <= i < k < |Layers(js, d, m)| ==>
              d[Layers(js, d, m)[i].base] <= d[Layers(js, d, m)[k].base]
  {
    if m > 0 {
      LayersAscend(js, d, m - 1);
      LayerDepth(js, d, m - 1);
      var front, last := Layers(js, d, m - 1), Layer(js, d, m - 1);
      var all: seq<Job> := front + last;
      forall i, k | 0 <= i < k < |all| ensures d[all[i].base] <= d[all[k].base] {
        if i < |front| { assert front[i] in front; } else { assert last[i - |front|] in last; }
        if k >= |front| { assert last[k - |front|] in last; }
      }
    }
  }

  /** Every job comes after every cell of everything it needs. */
  lemma NeedsComeFirst(js: seq<Job>, i: nat, k: nat)
    requires SharedNeeds(js) && Order(js).Ok? && i < |Order(js).value| && k < |Order(js).value|
    requires Order(js).value[k].base in Order(js).value[i].needs
    ensures k < i
  {
    var d, m := OrderedByDepth(js);
    NeedsAreShallower(js, d, m, i, k);
  }

  lemma NeedsAreShallower(js: seq<Job>, d: map<string, nat>, m: nat, i: nat, k: nat)
    requires Depths(js, d) && i < |Layers(js, d, m)| && k < |Layers(js, d, m)|
    requires Layers(js, d, m)[k].base in Layers(js, d, m)[i].needs
    ensures k < i
  {
    var out := Layers(js, d, m);
    LayersAscend(js, d, m);
    assert out[i] in out;
    assert IsDepth(d, out[i]);
  }
}
