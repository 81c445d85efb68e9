/** Where a job lands, said of the lists a snapshot shows: the first network, and
    in it the first host, that has what the job asks for. */
module Landing {
  import opened Common
  import opened Text
  import opened Placement

  // ---- a job that names no network ----------------------------------------------------

  /** Network `i` is the first that is served and has the configured id. */
  ghost predicate IsDefault(p: Pool, i: nat) {
    && i < |p.networks| && p.networks[i].served && p.networks[i].id == p.defaultNetwork
    && forall k :: 0 <= k < i ==> !(p.networks[k].served && p.networks[k].id == p.defaultNetwork)
  }

  ghost predicate IsFirstServed(p: Pool, i: nat) {
    i < |p.networks| && p.networks[i].served && forall k :: 0 <= k < i ==> !p.networks[k].served
  }

  ghost predicate DefaultIsServed(p: Pool) {
    exists n :: n in p.networks && n.served && n.id == p.defaultNetwork
  }

  lemma {:induction false} FirstServedIs(ns: seq<RunnerSet>, id: Option<string>, i: nat)
    requires i < |ns| && ns[i].served && (id.Some? ==> ns[i].id == id.value)
    requires forall k :: 0 <= k < i ==> !(ns[k].served && (id.Some? ==> ns[k].id == id.value))
    ensures FirstServed(ns, id) == Some(ns[i])
  {
    if i > 0 {
      assert ns[0].served ==> id.Some? && ns[0].id != id.value;
      FirstServedIs(ns[1..], id, i - 1);
    }
  }

  lemma {:induction false} NoneServed(ns: seq<RunnerSet>, id: Option<string>)
    requires forall n :: n in ns ==> !(n.served && (id.Some? ==> n.id == id.value))
    ensures FirstServed(ns, id) == None
  {
    if ns != [] {
      assert ns[0] in ns;
      NoneServed(ns[1..], id);
    }
  }

  /** A job that names no network goes to the configured one if it is served, else
      to the first that is, and nowhere if none is. */
  lemma UnnamedLands(p: Pool, i: nat)
    ensures IsDefault(p, i) ==> NetworkOf(p, Target(false, None, None, None)) == Ok(p.networks[i])
    ensures !DefaultIsServed(p) && IsFirstServed(p, i) ==>
              NetworkOf(p, Target(false, None, None, None)) == Ok(p.networks[i])
    ensures (forall n :: n in p.networks ==> !n.served) ==>
              NetworkOf(p, Target(false, None, None, None)) == Err(NoNetwork)
  {
    if IsDefault(p, i) {
      FirstServedIs(p.networks, Some(p.defaultNetwork), i);
    } else if !DefaultIsServed(p) && IsFirstServed(p, i) {
      NoneServed(p.networks, Some(p.defaultNetwork));
      FirstServedIs(p.networks, None, i);
    } else if forall n :: n in p.networks ==> !n.served {
      NoneServed(p.networks, Some(p.defaultNetwork));
      NoneServed(p.networks, None);
    }
  }

  // ---- a job that names one -------------------------------------------------------------

  /** Network `i` is the first whose id is `w` or whose name is, but for case. */
  ghost predicate IsNamed(p: Pool, w: string, i: nat) {
    && i < |p.networks| && (p.networks[i].id == w || w in Spellings(p.networks[i].name))
    && forall k :: 0 <= k < i ==> p.networks[k].id != w && w !in Spellings(p.networks[k].name)
  }

  lemma {:induction false} FirstNamedIs(ns: seq<RunnerSet>, w: string, i: nat)
    requires i < |ns| && (ns[i].id == w || w in Spellings(ns[i].name))
    requires forall k :: 0 <= k < i ==> ns[k].id != w && w !in Spellings(ns[k].name)
    ensures FirstNamed(ns, w) == Some(ns[i])
  {
    SpellingsExactly(ns[0].name, w);
    if i > 0 {
      FirstNamedIs(ns[1..], w, i - 1);
    }
  }

  /** A job goes to the network it names, blanks around the name apart, if that
      is served; else it is refused, and told which of the two is wrong. */
  lemma NamedLands(p: Pool, name: string, i: nat)
    ensures var w, t := Trim(name), Target(false, Some(name), None, None);
            && (IsNamed(p, w, i) ==> NetworkOf(p, t) == if p.networks[i].served then Ok(p.networks[i])
                                                        else Err(UnservedNetwork(p.networks[i].name)))
            && ((forall n :: n in p.networks ==> n.id != w && w !in Spellings(n.name)) ==>
                  NetworkOf(p, t) == Err(UnknownNetwork(w)))
  {
    var w := Trim(name);
    TrimTwice(name);
    if IsNamed(p, w, i) {
      FirstNamedIs(p.networks, w, i);
    } else if forall n :: n in p.networks ==> n.id != w && w !in Spellings(n.name) {
      var found := FirstNamed(p.networks, w);
      if found.Some? { SpellingsExactly(found.value.name, w); }
    }
  }

  // ---- in the network -----------------------------------------------------------------------

  /** Host `i` is the first whose id is `w` or whose name is, but for case. */
  ghost predicate IsHost(n: RunnerSet, w: string, i: nat) {
    && i < |n.runners| && (n.runners[i].id == w || w in Spellings(n.runners[i].name))
    && forall k :: 0 <= k < i ==> n.runners[k].id != w && w !in Spellings(n.runners[k].name)
  }

  ghost predicate NoHost(n: RunnerSet, w: string) {
    forall r :: r in n.runners ==> r.id != w && w !in Spellings(r.name)
  }

  lemma {:induction false} FindRunnerIs(rs: seq<Runner>, w: string, i: nat)
    requires i < |rs| && (rs[i].id == w || w in Spellings(rs[i].name))
    requires forall k :: 0 <= k < i ==> rs[k].id != w && w !in Spellings(rs[k].name)
    ensures FindRunner(rs, w) == Some(rs[i])
  {
    SpellingsExactly(rs[0].name, w);
    if i > 0 {
      FindRunnerIs(rs[1..], w, i - 1);
    }
  }

  /** A job that names no host is for any of its network, and one that names a
      host is for that host and the VM it names there.  If there is no such host
      only a job that asks for any other, and names no VM, is still taken. */
  lemma HostLands(p: Pool, j: Job, n: RunnerSet, i: nat)
    requires !j.target.local && NetworkOf(p, Target(false, j.target.network, None, None)) == Ok(n)
    ensures j.target.node == None ==> Place(p, j) == Ok(Placed(n, None, None))
    ensures j.target.node.Some? && IsHost(n, j.target.node.value, i) ==>
              Place(p, j) == Ok(Placed(n, Some(n.runners[i]), j.target.vm))
    ensures j.target.node.Some? && NoHost(n, j.target.node.value) ==>
              Place(p, j) == if j.anyHost && j.target.vm == None then Ok(Placed(n, None, None))
                             else Err(UnknownRunner(j.target.node.value, n.name))
  {
    assert NetworkOf(p, j.target) == Ok(n);
    if j.target.node.Some? {
      var w := j.target.node.value;
      if IsHost(n, w, i) {
        FindRunnerIs(n.runners, w, i);
      } else if FindRunner(n.runners, w).Some? {
        SpellingsExactly(FindRunner(n.runners, w).value.name, w);
      }
    }
  }

  /** And it is refused with its network if that is. */
  lemma RefusedWithItsNetwork(p: Pool, j: Job)
    requires !j.target.local && NetworkOf(p, Target(false, j.target.network, None, None)).Err?
    ensures Place(p, j) == Err(NetworkOf(p, Target(false, j.target.network, None, None)).error)
  {
    assert NetworkOf(p, j.target) == NetworkOf(p, Target(false, j.target.network, None, None));
  }

  // ---- the default host ------------------------------------------------------------------------

  /** `r` is the first host of `n` with this id. */
  ghost predicate HasHost(n: RunnerSet, id: string, r: Runner) {
    exists k :: 0 <= k < |n.runners| && n.runners[k] == r && r.id == id
                && forall m :: 0 <= m < k ==> n.runners[m].id != id
  }

  ghost predicate LacksHost(n: RunnerSet, id: string) {
    forall r :: r in n.runners ==> r.id != id
  }

  lemma {:induction false} WithIdIs(rs: seq<Runner>, id: string, k: nat)
    requires k < |rs| && rs[k].id == id && forall m :: 0 <= m < k ==> rs[m].id != id
    ensures WithId(rs, id) == Some(rs[k])
  {
    if k > 0 { WithIdIs(rs[1..], id, k - 1); }
  }

  lemma HasHostIs(n: RunnerSet, id: string, r: Runner)
    ensures HasHost(n, id, r) ==> WithId(n.runners, id) == Some(r)
    ensures LacksHost(n, id) <==> WithId(n.runners, id) == None
  {
    if HasHost(n, id, r) {
      var k :| 0 <= k < |n.runners| && n.runners[k] == r && r.id == id
               && forall m :: 0 <= m < k ==> n.runners[m].id != id;
      WithIdIs(n.runners, id, k);
    }
  }

  /** Network `i` is the first that is served, has the host, and the id if one
      is given. */
  ghost predicate IsHolder(ns: seq<RunnerSet>, host: string, id: Option<string>, i: nat, r: Runner) {
    && i < |ns| && ns[i].served && HasHost(ns[i], host, r) && (id.Some? ==> ns[i].id == id.value)
    && forall k :: 0 <= k < i ==> !ns[k].served || LacksHost(ns[k], host) || (id.Some? && ns[k].id != id.value)
  }

  lemma {:induction false} FirstHoldingIs(ns: seq<RunnerSet>, host: string, id: Option<string>, i: nat, r: Runner)
    requires IsHolder(ns, host, id, i, r)
    ensures FirstHolding(ns, host, id) == At(ns[i], r)
  {
    HasHostIs(ns[0], host, r);
    if i > 0 {
      FirstHoldingIs(ns[1..], host, id, i - 1, r);
    }
  }

  lemma {:induction false} NobodyHolds(ns: seq<RunnerSet>, host: string, id: Option<string>)
    requires forall n :: n in ns ==> !n.served || LacksHost(n, host) || (id.Some? && n.id != id.value)
    ensures FirstHolding(ns, host, id) == Nowhere
  {
    if ns != [] {
      assert ns[0] in ns;
      if WithId(ns[0].runners, host).Some? { HasHostIs(ns[0], host, WithId(ns[0].runners, host).value); }
      NobodyHolds(ns[1..], host, id);
    }
  }

  ghost predicate DefaultsLack(p: Pool, host: string) {
    forall n :: n in p.networks && n.served && n.id == p.defaultNetwork ==> LacksHost(n, host)
  }

  /** A local job runs on the orchestrator's own host, in the configured network
      if that holds it, else in the first served one that does; without such a
      host or network it is refused. */
  lemma LocalLands(p: Pool, j: Job, i: nat, r: Runner)
    requires j.target.local
    ensures p.defaultNode == "" ==> Place(p, j) == Err(NoDefaultNode)
    ensures p.defaultNode != "" && IsHolder(p.networks, p.defaultNode, Some(p.defaultNetwork), i, r) ==>
              Place(p, j) == Ok(Placed(p.networks[i], Some(r), j.target.vm))
    ensures p.defaultNode != "" && DefaultsLack(p, p.defaultNode) && IsHolder(p.networks, p.defaultNode, None, i, r) ==>
              Place(p, j) == Ok(Placed(p.networks[i], Some(r), j.target.vm))
    ensures p.defaultNode != "" && (forall n :: n in p.networks && n.served ==> LacksHost(n, p.defaultNode)) ==>
              Place(p, j) == Err(DefaultNodeUnserved(p.defaultNode))
  {
    var host, id := p.defaultNode, Some(p.defaultNetwork);
    if IsHolder(p.networks, host, id, i, r) {
      FirstHoldingIs(p.networks, host, id, i, r);
    }
    if DefaultsLack(p, host) {
      NobodyHolds(p.networks, host, id);
      if IsHolder(p.networks, host, None, i, r) {
        FirstHoldingIs(p.networks, host, None, i, r);
      }
    }
    if forall n :: n in p.networks && n.served ==> LacksHost(n, host) {
      NobodyHolds(p.networks, host, id);
      NobodyHolds(p.networks, host, None);
    }
  }

  /** If the configured network holds that host, a local job and one that names
      nothing land in the same network. */
  lemma LocalAndUnnamedLandTogether(p: Pool, i: nat, r: Runner, local: Job, unnamed: Job)
    requires local.target.local
    requires !unnamed.target.local && unnamed.target.network == None && unnamed.target.node == None
    requires p.defaultNode != "" && IsDefault(p, i) && HasHost(p.networks[i], p.defaultNode, r)
    ensures Place(p, local) == Ok(Placed(p.networks[i], Some(r), local.target.vm))
    ensures Place(p, unnamed) == Ok(Placed(p.networks[i], None, None))
  {
    LocalLands(p, local, i, r);
    UnnamedLands(p, i);
    HostLands(p, unnamed, p.networks[i], 0);
  }

  // ---- who runs it ---------------------------------------------------------------------------------

  /** A job for any host is picked up by the first of its network that is online,
      one for a host by that host, on the VM it names. */
  lemma FirstOnlineRuns(p: Pool, j: Job, i: nat)
    requires Place(p, j).Ok?
    ensures var where := Place(p, j).value;
            var hosts := if where.node.Some? then [where.node.value] else where.network.runners;
            && (i < |hosts| && hosts[i].status == Online && (forall k :: 0 <= k < i ==> hosts[k].status != Online) ==>
                  PickRunner(p, j) == Ok(Picked(hosts[i].id, where.vm)))
            && (PickRunner(p, j).Ok? <==> exists r :: r in hosts && r.status == Online)
            && (where.node.Some? && where.node.value.status != Online ==>
                  PickRunner(p, j) == Err(RunnerOffline(where.node.value.name, where.node.value.status)))
  {
    var where := Place(p, j).value;
    if where.node.None? {
      if i < |where.network.runners| && where.network.runners[i].status == Online
         && forall k :: 0 <= k < i ==> where.network.runners[k].status != Online {
        FirstOnlineIs(where.network.runners, i);
      }
      var r := FirstOnline(where.network.runners);
    }
  }

  lemma {:induction false} FirstOnlineIs(rs: seq<Runner>, i: nat)
    requires i < |rs| && rs[i].status == Online && forall k :: 0 <= k < i ==> rs[k].status != Online
    ensures FirstOnline(rs) == Some(rs[i])
  {
    if i > 0 { FirstOnlineIs(rs[1..], i - 1); }
  }

  /** The queue is the host's if there is one, online or not, else the network's;
      only a network without an id has none. */
  lemma QueueIsForThePlace(p: Pool, j: Job)
    requires Place(p, j).Ok?
    ensures var where := Place(p, j).value;
            && (where.node.Some? ==> RouteFor(p, j) == Ok(ToRunner(where.node.value.id)))
            && (where.node.None? && where.network.id != "" ==> RouteFor(p, j) == Ok(ToNetwork(where.network.id)))
            && (where.node.None? && where.network.id == "" ==> RouteFor(p, j) == Err(NoNetwork))
  {
  }

  // ---- the repository's network -----------------------------------------------------------------------

  /** The repository's network stands in exactly for one the job does not name,
      and the names put in are those of the place the job then has. */
  lemma RepositoryStandsIn(p: Pool, j: Job, network: string)
    ensures j.target.network == None && !j.target.local ==>
              Assign(p, j, Some(network)) == Assign(p, j.(target := j.target.(network := Some(network))), None)
    ensures j.target.network.Some? || j.target.local ==> Assign(p, j, Some(network)) == Assign(p, j, None)
    ensures Assign(p, j, None).Ok? <==> Place(p, j).Ok?
    ensures Place(p, j).Err? ==> Assign(p, j, None) == Err(Place(p, j).error)
    ensures Place(p, j).Ok? ==>
              var where, k := Place(p, j).value, Assign(p, j, None).value;
              && k.target.network == Some(where.network.name)
              && k.target.node == (if where.node.Some? then Some(where.node.value.name) else j.target.node)
              && k == j.(target := j.target.(network := k.target.network, node := k.target.node))
  {
  }

  /** A job is warned about exactly when the host it is pinned to would refuse
      to run it now for not being online. */
  lemma WarnedExactly(p: Pool, j: Job, network: Option<string>)
    ensures Warned(p, j, network) <==>
            var r := PickRunner(p, WithDefault(j, network)); r.Err? && r.error.RunnerOffline?
  {
  }
}
