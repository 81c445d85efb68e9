/** Where a job runs: placement, routing and runner choice of `src/dispatch.rs` over
    the pool snapshot of `src/runners.rs`. */
module Placement {
  import opened Common
  import opened Text

  datatype RunnerStatus = Online | Stale | Offline | Orphaned

  datatype Runner = Runner(id: string, name: string, status: RunnerStatus)

  datatype RunnerSet = RunnerSet(id: string, name: string, served: bool, runners: seq<Runner>)

  datatype Pool = Pool(networks: seq<RunnerSet>, defaultNetwork: string, defaultNode: string)

  datatype Target = Target(local: bool, network: Option<string>, node: Option<string>, vm: Option<string>)

  datatype Job = Job(key: string, target: Target, anyHost: bool)

  datatype Placed = Placed(network: RunnerSet, node: Option<Runner>, vm: Option<string>)

  datatype Route = ToRunner(id: string) | ToNetwork(id: string)

  datatype Refusal =
    | NoNetwork
    | UnservedNetwork(name: string)
    | UnknownNetwork(wanted: string)
    | NoDefaultNode
    | DefaultNodeUnserved(node: string)
    | UnknownRunner(wanted: string, network: string)
    | RunnerOffline(runner: string, status: RunnerStatus)
    | NoOnlineRunner(network: string)

  // ---- names ---------------------------------------------------------------------------

  function Lower(c: char): char {
    if 'A' <= c <= 'Z' then (c as int + 32) as char else c
  }

  /** Equal but for the case of ASCII letters. */
  predicate SameName(a: string, b: string) {
    |a| == |b| && forall i :: 0 <= i < |a| ==> Lower(a[i]) == Lower(b[i])
  }

  predicate Addresses(needle: string, r: Runner) {
    r.id == needle || SameName(r.name, needle)
  }

  predicate Names(needle: string, n: RunnerSet) {
    n.id == needle || SameName(n.name, needle)
  }

  /** The first runner `needle` addresses. */
  function FindRunner(rs: seq<Runner>, needle: string): (r: Option<Runner>)
    ensures r.None? <==> forall i :: 0 <= i < |rs| ==> !Addresses(needle, rs[i])
    ensures r.Some? ==> r.value in rs && Addresses(needle, r.value)
  {
    if rs == [] then None else if Addresses(needle, rs[0]) then Some(rs[0]) else FindRunner(rs[1..], needle)
  }

  function FirstNamed(ns: seq<RunnerSet>, needle: string): (r: Option<RunnerSet>)
    ensures r.None? <==> forall i :: 0 <= i < |ns| ==> !Names(needle, ns[i])
    ensures r.Some? ==> r.value in ns && Names(needle, r.value)
  {
    if ns == [] then None else if Names(needle, ns[0]) then Some(ns[0]) else FirstNamed(ns[1..], needle)
  }

  function FindNetwork(p: Pool, needle: string): Option<RunnerSet> {
    FirstNamed(p.networks, Trim(needle))
  }

  function FirstServed(ns: seq<RunnerSet>, id: Option<string>): (r: Option<RunnerSet>)
    ensures r.Some? ==> r.value in ns && r.value.served && (id.Some? ==> r.value.id == id.value)
  {
    if ns == [] then None
    else if ns[0].served && (id.Some? ==> ns[0].id == id.value) then Some(ns[0])
    else FirstServed(ns[1..], id)
  }

  function DefaultSet(p: Pool): Option<RunnerSet> {
    var preferred := FirstServed(p.networks, Some(p.defaultNetwork));
    if preferred.Some? then preferred else FirstServed(p.networks, None)
  }

  // ---- the served network that holds a host -----------------------------------------------

  function WithId(rs: seq<Runner>, id: string): (r: Option<Runner>)
    ensures r.None? <==> forall i :: 0 <= i < |rs| ==> rs[i].id != id
    ensures r.Some? ==> r.value in rs && r.value.id == id
  {
    if rs == [] then None else if rs[0].id == id then Some(rs[0]) else WithId(rs[1..], id)
  }

  datatype Found = Nowhere | At(network: RunnerSet, node: Runner)

  /** The network is served and the node is its first with that id. */
  predicate Holds(n: RunnerSet, id: string) {
    n.served && WithId(n.runners, id).Some?
  }

  function FirstHolding(ns: seq<RunnerSet>, id: string, network: Option<string>): Found {
    if ns == [] then Nowhere
    else if Holds(ns[0], id) && (network.Some? ==> ns[0].id == network.value)
    then At(ns[0], WithId(ns[0].runners, id).value)
    else FirstHolding(ns[1..], id, network)
  }

  /** The default network if it holds the host, else the first that does. */
  function Located(p: Pool, id: string): Found {
    var preferred := FirstHolding(p.networks, id, Some(p.defaultNetwork));
    if preferred.At? then preferred else FirstHolding(p.networks, id, None)
  }

  method Locate(p: Pool, id: string) returns (found: Found)
    ensures found == Located(p, id)
  {
    found := Nowhere;
    for i := 0 to |p.networks|
      invariant FirstHolding(p.networks, id, Some(p.defaultNetwork))
                == FirstHolding(p.networks[i..], id, Some(p.defaultNetwork))
      invariant FirstHolding(p.networks, id, None)
                == if found.At? then found else FirstHolding(p.networks[i..], id, None)
    {
      var n := p.networks[i];
      assert p.networks[i..][1..] == p.networks[i + 1..];
      if n.served {
        var r := WithId(n.runners, id);
        if r.Some? {
          if n.id == p.defaultNetwork {
            return At(n, r.value);
          }
          if found.Nowhere? {
            found := At(n, r.value);
          }
        }
      }
    }
  }

  // ---- placement ----------------------------------------------------------------------------

  function NetworkOf(p: Pool, t: Target): Result<RunnerSet, Refusal> {
    if t.network.None? then
      var d := DefaultSet(p);
      if d.Some? then Ok(d.value) else Err(NoNetwork)
    else
      var n := FindNetwork(p, Trim(t.network.value));
      if n.None? then Err(UnknownNetwork(Trim(t.network.value)))
      else if !n.value.served then Err(UnservedNetwork(n.value.name))
      else Ok(n.value)
  }

  function Place(p: Pool, j: Job): Result<Placed, Refusal> {
    var t := j.target;
    if t.local then
      if p.defaultNode == "" then Err(NoDefaultNode)
      else
        match Located(p, p.defaultNode)
        case Nowhere => Err(DefaultNodeUnserved(p.defaultNode))
        case At(network, node) => Ok(Placed(network, Some(node), t.vm))
    else
      match NetworkOf(p, t)
      case Err(e) => Err(e)
      case Ok(n) =>
        if t.node.None? then Ok(Placed(n, None, None))
        else
          var r := FindRunner(n.runners, t.node.value);
          if r.Some? then Ok(Placed(n, r, t.vm))
          else if j.anyHost && t.vm.None? then Ok(Placed(n, None, None))
          else Err(UnknownRunner(t.node.value, n.name))
  }

  function RouteFor(p: Pool, j: Job): Result<Route, Refusal> {
    match Place(p, j)
    case Err(e) => Err(e)
    case Ok(where) =>
      if where.node.Some? then Ok(ToRunner(where.node.value.id))
      else if where.network.id == "" then Err(NoNetwork)
      else Ok(ToNetwork(where.network.id))
  }

  function FirstOnline(rs: seq<Runner>): (r: Option<Runner>)
    ensures r.None? <==> forall i :: 0 <= i < |rs| ==> rs[i].status != Online
    ensures r.Some? ==> r.value in rs && r.value.status == Online
  {
    if rs == [] then None else if rs[0].status == Online then Some(rs[0]) else FirstOnline(rs[1..])
  }

  datatype Picked = Picked(runner: string, vm: Option<string>)

  function PickRunner(p: Pool, j: Job): Result<Picked, Refusal> {
    match Place(p, j)
    case Err(e) => Err(e)
    case Ok(where) =>
      if where.node.Some? then
        var node := where.node.value;
        if node.status == Online then Ok(Picked(node.id, where.vm)) else Err(RunnerOffline(node.name, node.status))
      else
        var r := FirstOnline(where.network.runners);
        if r.Some? then Ok(Picked(r.value.id, where.vm)) else Err(NoOnlineRunner(where.network.name))
  }

  // ---- the queue and the host agree ------------------------------------------------------------

  /** A place is in a served network of the pool, its host is one of that
      network's, and a VM is only named along with its host. */
  lemma PlacedSoundly(p: Pool, j: Job)
    requires Place(p, j).Ok?
    ensures var where := Place(p, j).value;
            && where.network in p.networks && where.network.served
            && (where.node.Some? ==> where.node.value in where.network.runners)
            && (where.vm.Some? ==> where.node.Some?)
  {
    if j.target.local {
      HoldingIsServed(p.networks, p.defaultNode, Some(p.defaultNetwork));
      HoldingIsServed(p.networks, p.defaultNode, None);
    }
  }

  lemma {:induction false} HoldingIsServed(ns: seq<RunnerSet>, id: string, network: Option<string>)
    ensures var f := FirstHolding(ns, id, network);
            f.At? ==> f.network in ns && f.network.served && f.node in f.network.runners && f.node.id == id
  {
    if ns != [] { HoldingIsServed(ns[1..], id, network); }
  }

  /** On one snapshot, a job on a host's queue is picked up by that host or
      refused because it is not online; a job on a network's queue is picked
      up by an online host of a served network with that id, and refused only
      if that network has none. */
  lemma QueueAndHostAgree(p: Pool, j: Job)
    requires RouteFor(p, j).Ok?
    ensures var route, picked := RouteFor(p, j).value, PickRunner(p, j);
            match route
            case ToRunner(id) =>
              if picked.Ok? then picked.value.runner == id else picked.error.RunnerOffline?
            case ToNetwork(id) =>
              exists n :: n in p.networks && n.served && n.id == id &&
                if picked.Ok?
                then picked.value.vm.None? &&
                     exists r :: r in n.runners && r.id == picked.value.runner && r.status == Online
                else picked.error == NoOnlineRunner(n.name) && forall r :: r in n.runners ==> r.status != Online
  {
    PlacedSoundly(p, j);
    var where := Place(p, j).value;
    if where.node.None? {
      var r := FirstOnline(where.network.runners);
      assert r.Some? ==> r.value in where.network.runners && r.value.status == Online;
    }
  }

  // ---- canonical names ---------------------------------------------------------------------------

  /** `assign_network` for one job: the repository's network where none is
      named, then the names the snapshot uses. */
  function WithDefault(j: Job, network: Option<string>): Job {
    if j.target.network.None? && !j.target.local && network.Some?
    then j.(target := j.target.(network := network))
    else j
  }

  function Canonical(j: Job, where: Placed): Job {
    j.(target := j.target.(network := Some(where.network.name),
                           node := if where.node.Some? then Some(where.node.value.name) else j.target.node))
  }

  function Assign(p: Pool, j: Job, network: Option<string>): Result<Job, Refusal> {
    match Place(p, WithDefault(j, network))
    case Err(e) => Err(e)
    case Ok(where) => Ok(Canonical(WithDefault(j, network), where))
  }

  /** The snapshot finds a place again by the names it shows. */
  predicate FindsItself(p: Pool, where: Placed) {
    && FindNetwork(p, where.network.name) == Some(where.network)
    && (where.node.Some? ==> FindRunner(where.network.runners, where.node.value.name) == where.node)
  }

  lemma {:induction false} TrimTwice(s: string)
    ensures Trim(Trim(s)) == Trim(s)
  {
    if s != "" {
      if IsBlank(s[0]) { TrimTwice(s[1..]); } else if IsBlank(s[|s| - 1]) { TrimTwice(s[..|s| - 1]); }
    }
  }

  /** Canonical names keep a job where it was exactly when the snapshot finds
      that place by them.  A job that runs on the default host always stays. */
  lemma CanonicalExactly(p: Pool, j: Job)
    requires Place(p, j).Ok?
    ensures Place(p, Canonical(j, Place(p, j).value)) == Place(p, j)
            <==> j.target.local || FindsItself(p, Place(p, j).value)
  {
    var where := Place(p, j).value;
    PlacedSoundly(p, j);
    TrimTwice(where.network.name);
  }

  /** Networks are listed by name. */
  predicate SortedByName(ns: seq<RunnerSet>) {
    forall i, j :: 0 <= i < j < |ns| ==> AtMost(ns[i].name, ns[j].name)
  }

  /** They can move one: a network's name may be another's id. */
  lemma ANameCanMoveAJob(runners: seq<Runner>)
    ensures var a, b := RunnerSet("x", "y", true, []), RunnerSet("y", "b", true, runners);
            var p, j := Pool([b, a], "", ""), Job("k", Target(false, Some("x"), None, None), false);
            && SortedByName(p.networks)
            && Place(p, j) == Ok(Placed(a, None, None))
            && Place(p, Canonical(j, Place(p, j).value)) == Ok(Placed(b, None, None))
  {
    var a, b := RunnerSet("x", "y", true, []), RunnerSet("y", "b", true, runners);
    var ns := [b, a];
    assert ns[1..] == [a] && ns[0] == b;
    assert Trim("x") == "x" && Trim("y") == "y";
    assert Names("y", ns[0]);
    assert FirstNamed(ns, "y") == Some(b);
    assert "b"[0] == 'b' && "x"[0] == 'x' && !Names("x", ns[0]) && Names("x", a);
    assert FirstNamed(ns, "x") == Some(a);
  }

  // ---- all jobs at once ---------------------------------------------------------------------------

  /** No job is moved by canonical names. */
  ghost predicate AllStay(p: Pool) {
    forall j :: Place(p, j).Ok? ==> Place(p, Canonical(j, Place(p, j).value)) == Place(p, j)
  }

  /** Some target names `n`, or it is where jobs go that name none. */
  ghost predicate Reached(p: Pool, n: RunnerSet) {
    exists network :: NetworkOf(p, Target(false, network, None, None)) == Ok(n)
  }

  /** Some target names `r` among the hosts of `n`. */
  ghost predicate Addressed(n: RunnerSet, r: Runner) {
    exists needle :: FindRunner(n.runners, needle) == Some(r)
  }

  /** Every network a job can be sent to, and every host there, is found by
      its own name. */
  ghost predicate NamesFind(p: Pool) {
    forall n :: Reached(p, n) ==>
      && FindNetwork(p, n.name) == Some(n)
      && forall r :: Addressed(n, r) ==> FindRunner(n.runners, r.name) == Some(r)
  }

  lemma ReachedWhenPlaced(p: Pool, j: Job)
    requires !j.target.local && Place(p, j).Ok?
    ensures Reached(p, Place(p, j).value.network)
    ensures Place(p, j).value.node.Some? ==> Addressed(Place(p, j).value.network, Place(p, j).value.node.value)
  {
    var where := Place(p, j).value;
    assert NetworkOf(p, Target(false, j.target.network, None, None)) == Ok(where.network);
    if where.node.Some? {
      assert FindRunner(where.network.runners, j.target.node.value) == Some(where.node.value);
    }
  }

  lemma PlacedWhenReached(p: Pool, n: RunnerSet, network: Option<string>, node: Option<string>)
    requires NetworkOf(p, Target(false, network, None, None)) == Ok(n)
    requires node.Some? ==> FindRunner(n.runners, node.value).Some?
    ensures Place(p, Job("", Target(false, network, node, None), false))
            == Ok(Placed(n, if node.Some? then FindRunner(n.runners, node.value) else None, None))
  {
    var t, u := Target(false, network, None, None), Target(false, network, node, None);
    assert NetworkOf(p, u) == NetworkOf(p, t);
  }

  lemma StayingFinds(p: Pool, n: RunnerSet, network: Option<string>, node: Option<string>)
    requires AllStay(p) && NetworkOf(p, Target(false, network, None, None)) == Ok(n)
    requires node.Some? ==> FindRunner(n.runners, node.value).Some?
    ensures FindNetwork(p, n.name) == Some(n)
    ensures node.Some? ==>
              FindRunner(n.runners, FindRunner(n.runners, node.value).value.name) == FindRunner(n.runners, node.value)
  {
    var j := Job("", Target(false, network, node, None), false);
    PlacedWhenReached(p, n, network, node);
    CanonicalExactly(p, j);
  }

  // -- the same as a check over what is listed

  /** The letters that count as `c`. */
  function Cases(c: char): set<char> {
    if 'A' <= c <= 'Z' then {c, (c as int + 32) as char}
    else if 'a' <= c <= 'z' then {c, (c as int - 32) as char}
    else {c}
  }

  lemma CasesExactly(c: char, d: char)
    ensures d in Cases(c) <==> Lower(c) == Lower(d)
  {
  }

  /** The ways to write a name. */
  function Spellings(s: string): set<string> {
    if s == "" then {""} else set c, w | c in Cases(s[0]) && w in Spellings(s[1..]) :: [c] + w
  }

  lemma {:induction false} SpellingsExactly(s: string, w: string)
    ensures w in Spellings(s) <==> SameName(s, w)
  {
    if s != "" && w != "" {
      SpellingsExactly(s[1..], w[1..]);
      CasesExactly(s[0], w[0]);
      assert w == [w[0]] + w[1..];
      assert SameName(s, w) <==> Lower(s[0]) == Lower(w[0]) && SameName(s[1..], w[1..]) by {
        SameNameSteps(s, w);
      }
    }
  }

  lemma SameNameSteps(s: string, w: string)
    requires s != "" && w != ""
    ensures SameName(s, w) <==> Lower(s[0]) == Lower(w[0]) && SameName(s[1..], w[1..])
  {
    if Lower(s[0]) == Lower(w[0]) && SameName(s[1..], w[1..]) {
      forall i | 0 <= i < |s| ensures Lower(s[i]) == Lower(w[i]) {
        if i > 0 { assert Lower(s[1..][i - 1]) == Lower(w[1..][i - 1]); }
      }
    }
  }

  /** `n` is the default, or its id or a spelling of its name finds it. */
  predicate FoundAtAll(p: Pool, n: RunnerSet) {
    || DefaultSet(p) == Some(n)
    || (n.served && exists w :: w in {n.id} + Spellings(n.name) && Trim(w) == w && FirstNamed(p.networks, w) == Some(n))
  }

  predicate HostFoundAtAll(n: RunnerSet, r: Runner) {
    exists w :: w in {r.id} + Spellings(r.name) && FindRunner(n.runners, w) == Some(r)
  }

  /** Every listed network that is found at all, and every host of it that is,
      is found by its own name. */
  predicate NamesCheck(p: Pool) {
    forall n :: n in p.networks && FoundAtAll(p, n) ==>
      && FindNetwork(p, n.name) == Some(n)
      && forall r :: r in n.runners && HostFoundAtAll(n, r) ==> FindRunner(n.runners, r.name) == Some(r)
  }

  lemma ReachedExactly(p: Pool, n: RunnerSet)
    ensures Reached(p, n) <==> n in p.networks && FoundAtAll(p, n)
  {
    if Reached(p, n) {
      var network :| NetworkOf(p, Target(false, network, None, None)) == Ok(n);
      if network.Some? {
        var w := Trim(network.value);
        TrimTwice(network.value);
        SpellingsExactly(n.name, w);
        assert w in {n.id} + Spellings(n.name);
      }
    }
    if n in p.networks && FoundAtAll(p, n) {
      if DefaultSet(p) == Some(n) {
        assert NetworkOf(p, Target(false, None, None, None)) == Ok(n);
      } else {
        var w :| w in {n.id} + Spellings(n.name) && Trim(w) == w && FirstNamed(p.networks, w) == Some(n);
        assert NetworkOf(p, Target(false, Some(w), None, None)) == Ok(n);
      }
    }
  }

  lemma AddressedExactly(n: RunnerSet, r: Runner)
    ensures Addressed(n, r) <==> r in n.runners && HostFoundAtAll(n, r)
  {
    if Addressed(n, r) {
      var w :| FindRunner(n.runners, w) == Some(r);
      SpellingsExactly(r.name, w);
      assert w in {r.id} + Spellings(r.name);
    }
  }

  lemma NamesCheckExactly(p: Pool)
    ensures NamesCheck(p) <==> NamesFind(p)
  {
    forall n ensures Reached(p, n) <==> n in p.networks && FoundAtAll(p, n) {
      ReachedExactly(p, n);
    }
    forall n, r ensures Addressed(n, r) <==> r in n.runners && HostFoundAtAll(n, r) {
      AddressedExactly(n, r);
    }
  }

  /** A snapshot keeps every job's place exactly when its names find what they
      name, which its lists show. */
  lemma AllStayExactly(p: Pool)
    ensures AllStay(p) <==> NamesCheck(p)
  {
    NamesCheckExactly(p);
    if NamesFind(p) {
      forall j | Place(p, j).Ok? ensures Place(p, Canonical(j, Place(p, j).value)) == Place(p, j) {
        if !j.target.local { ReachedWhenPlaced(p, j); }
        CanonicalExactly(p, j);
      }
    }
    if AllStay(p) {
      forall n | Reached(p, n) ensures FindNetwork(p, n.name) == Some(n) {
        var network :| NetworkOf(p, Target(false, network, None, None)) == Ok(n);
        StayingFinds(p, n, network, None);
      }
      forall n, r | Reached(p, n) && Addressed(n, r) ensures FindRunner(n.runners, r.name) == Some(r) {
        var network :| NetworkOf(p, Target(false, network, None, None)) == Ok(n);
        var needle :| FindRunner(n.runners, needle) == Some(r);
        StayingFinds(p, n, network, Some(needle));
      }
    }
  }

  /** Where names find what they name, assigning a network leaves a job's place as
      it was, and doing it again changes nothing. */
  lemma AssignKeepsPlace(p: Pool, j: Job, network: Option<string>)
    requires NamesCheck(p) && Assign(p, j, network).Ok?
    ensures var k := Assign(p, j, network).value;
            Place(p, k) == Place(p, WithDefault(j, network)) && Assign(p, k, network) == Ok(k)
  {
    AllStayExactly(p);
    var d := WithDefault(j, network);
    assert Place(p, Canonical(d, Place(p, d).value)) == Place(p, d);
  }

  // ---- a whole plan -----------------------------------------------------------------------------

  datatype Assigned = Assigned(jobs: seq<Job>, warned: seq<string>)

  /** `assign_network`: refused at the first job without a place; otherwise
      every job gets its canonical names, and a warning is left for each one
      pinned to a host that is not online. */
  method AssignNetworks(p: Pool, jobs: seq<Job>, network: Option<string>) returns (r: Result<Assigned, Refusal>)
    ensures r.Ok? <==> forall i :: 0 <= i < |jobs| ==> Assign(p, jobs[i], network).Ok?
    ensures r.Ok? ==> |r.value.jobs| == |jobs| &&
                      forall i :: 0 <= i < |jobs| ==> Assign(p, jobs[i], network) == Ok(r.value.jobs[i])
    ensures r.Ok? ==> forall k :: k in r.value.warned <==>
                        exists i :: 0 <= i < |jobs| && jobs[i].key == k && Warned(p, jobs[i], network)
    ensures r.Err? ==> exists i :: 0 <= i < |jobs| && Assign(p, jobs[i], network) == Err(r.error) &&
                                   forall k :: 0 <= k < i ==> Assign(p, jobs[k], network).Ok?
  {
    var done: seq<Job> := [];
    var warned: seq<string> := [];
    for i := 0 to |jobs|
      invariant |done| == i
      invariant forall k :: 0 <= k < i ==> Assign(p, jobs[k], network) == Ok(done[k])
      invariant forall k :: k in warned <==> exists m :: 0 <= m < i && jobs[m].key == k && Warned(p, jobs[m], network)
    {
      var job := WithDefault(jobs[i], network);
      var where := Place(p, job);
      if where.Err? {
        return Err(where.error);
      }
      if where.value.node.Some? && where.value.node.value.status != Online {
        warned := warned + [job.key];
      }
      done := done + [Canonical(job, where.value)];
    }
    r := Ok(Assigned(done, warned));
  }

  /** The job is pinned to a host that is not online. */
  predicate Warned(p: Pool, j: Job, network: Option<string>) {
    var where := Place(p, WithDefault(j, network));
    where.Ok? && where.value.node.Some? && where.value.node.value.status != Online
  }
}
