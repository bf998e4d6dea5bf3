/**
 * `computeLXCNetIPs` (internal/provider/lxc/helpers.go): up to three attempts
 * to read a running container's interfaces and give every configured network
 * the IPv4 address the container reports under its name.
 *
 * Only a failing interface query uses up an attempt.  A query that succeeds
 * decides the outcome at once: every network must have a non-empty address
 * and the configured names must be distinct (the networks are collected in a
 * map keyed by name and its size is compared with the list's length).
 */
module LxcNetIPs {
  import opened Gateway
  import opened LxcNet

  const IP_RETRIES := 3
  const UNRESOLVED := "Unable to compute all ifaces ips"
  const RETRIES_EXHAUSTED := "Unable to compute all ifaces ips after 3 retries"

  /** The interfaces keyed by name with their IPv4 address; a later interface overrides an earlier one. */
  function IfaceMap(ifaces: seq<Iface>): map<string, string>
  {
    if ifaces == [] then map[]
    else IfaceMap(ifaces[..|ifaces| - 1])[ifaces[|ifaces| - 1].name := ifaces[|ifaces| - 1].ipv4]
  }

  /** Go's map index: the address, or "" for a name the container did not report. */
  function Lookup(m: map<string, string>, name: string): string
  {
    if name in m then m[name] else ""
  }

  /** `net` with its computed address taken from `m`. */
  function WithIP(net: NetModel, m: map<string, string>): NetModel
  {
    net.(computedIP := Some(Lookup(m, net.name)))
  }

  predicate Addressed(net: NetModel, m: map<string, string>)
  {
    Lookup(m, net.name) != ""
  }

  predicate AllAddressed(nets: seq<NetModel>, m: map<string, string>)
  {
    forall i :: 0 <= i < |nets| ==> Addressed(nets[i], m)
  }

  /** The first `n` networks have pairwise different names. */
  predicate DistinctUpTo(nets: seq<NetModel>, n: int)
  {
    forall a, b :: 0 <= a < b < n && b < |nets| ==> nets[a].name != nets[b].name
  }

  predicate DistinctNames(nets: seq<NetModel>)
  {
    DistinctUpTo(nets, |nets|)
  }

  /**
   * What one successful interface query yields: every network with its
   * reported address, in the configured order, when all are addressed and
   * their names are distinct; an error otherwise.
   */
  function Resolve(nets: seq<NetModel>, m: map<string, string>): (r: Result<seq<NetModel>>)
  {
    if AllAddressed(nets, m) && DistinctNames(nets) then Ok(seq(|nets|, i requires 0 <= i < |nets| => WithIP(nets[i], m)))
    else Err(UNRESOLVED)
  }

  /** Builds the interface map, one interface at a time. */
  method BuildIfaceMap(ifaces: seq<Iface>) returns (m: map<string, string>)
    ensures m == IfaceMap(ifaces)
  {
    m := map[];
    for i := 0 to |ifaces|
      invariant m == IfaceMap(ifaces[..i])
    {
      assert ifaces[..i + 1][..i] == ifaces[..i];
      m := m[ifaces[i].name := ifaces[i].ipv4];
    }
    assert ifaces[..|ifaces|] == ifaces;
  }

  /** The names of the first `n` networks. */
  function NamesUpTo(nets: seq<NetModel>, n: int): set<string>
    requires 0 <= n <= |nets|
  {
    if n == 0 then {} else NamesUpTo(nets, n - 1) + {nets[n - 1].name}
  }

  lemma {:induction false} NamesUpToHas(nets: seq<NetModel>, n: int)
    requires 0 <= n <= |nets|
    ensures forall j :: 0 <= j < n ==> nets[j].name in NamesUpTo(nets, n)
  {
    if n > 0 {
      NamesUpToHas(nets, n - 1);
    }
  }

  lemma {:induction false} NamesUpToLacks(nets: seq<NetModel>, n: int, name: string)
    requires 0 <= n <= |nets|
    requires forall j :: 0 <= j < n ==> nets[j].name != name
    ensures name !in NamesUpTo(nets, n)
  {
    if n > 0 {
      NamesUpToLacks(nets, n - 1, name);
    }
  }

  lemma AddOne<T>(names: set<T>, x: T)
    ensures |names + {x}| == if x in names then |names| else |names| + 1
  {
    if x in names {
      assert names + {x} == names;
    }
  }

  /** The first `n` names are distinct exactly when there are `n` of them. */
  lemma {:induction false} NamesCard(nets: seq<NetModel>, n: int)
    requires 0 <= n <= |nets|
    ensures |NamesUpTo(nets, n)| <= n
    ensures |NamesUpTo(nets, n)| == n <==> DistinctUpTo(nets, n)
  {
    if n > 0 {
      NamesCard(nets, n - 1);
      var name := nets[n - 1].name;
      AddOne(NamesUpTo(nets, n - 1), name);
      if DistinctUpTo(nets, n) {
        assert DistinctUpTo(nets, n - 1);
        NamesUpToLacks(nets, n - 1, name);
      } else if DistinctUpTo(nets, n - 1) {
        RepeatedName(nets, n);
      }
    }
  }

  /** A name that breaks distinctness at position `n - 1` already occurs before it. */
  lemma RepeatedName(nets: seq<NetModel>, n: int)
    requires 0 < n <= |nets| && DistinctUpTo(nets, n - 1) && !DistinctUpTo(nets, n)
    ensures nets[n - 1].name in NamesUpTo(nets, n - 1)
  {
    var a, b :| 0 <= a < b < n && nets[a].name == nets[b].name;
    NamesUpToHas(nets, n - 1);
    assert b == n - 1 && nets[a].name in NamesUpTo(nets, n - 1);
  }

  /**
   * What the collecting loop knows after the first `i` networks: they all
   * have addresses, the collection is keyed by their names and, as long as
   * those names are distinct, holds each of them with its address.
   */
  predicate Collected(nets: seq<NetModel>, m: map<string, string>, i: int, computed: map<string, NetModel>)
    requires 0 <= i <= |nets|
  {
    (forall j :: 0 <= j < i ==> Addressed(nets[j], m)) &&
    computed.Keys == NamesUpTo(nets, i) &&
    (DistinctUpTo(nets, i) ==>
      forall j :: 0 <= j < i ==> nets[j].name in computed && computed[nets[j].name] == WithIP(nets[j], m))
  }

  lemma CollectStep(nets: seq<NetModel>, m: map<string, string>, i: int, computed: map<string, NetModel>)
    requires 0 <= i < |nets| && Collected(nets, m, i, computed) && Addressed(nets[i], m)
    ensures Collected(nets, m, i + 1, computed[nets[i].name := WithIP(nets[i], m)])
  {
  }

  /** After the loop: the collection has as many entries as networks exactly when the resolution succeeds. */
  lemma CollectDone(nets: seq<NetModel>, m: map<string, string>, i: int, computed: map<string, NetModel>)
    requires 0 <= i <= |nets| && Collected(nets, m, i, computed)
    requires i < |nets| ==> !Addressed(nets[i], m)
    ensures |computed| == |nets| <==> AllAddressed(nets, m) && DistinctNames(nets)
  {
    NamesCard(nets, i);
    assert |computed| == |computed.Keys|;
  }

  /**
   * The collecting loop of one attempt: networks are keyed by name until the
   * first one without an address.
   */
  method CollectNets(nets: seq<NetModel>, m: map<string, string>) returns (computed: map<string, NetModel>)
    ensures |computed| == |nets| <==> AllAddressed(nets, m) && DistinctNames(nets)
    ensures AllAddressed(nets, m) && DistinctNames(nets) ==>
      forall j :: 0 <= j < |nets| ==> nets[j].name in computed && computed[nets[j].name] == WithIP(nets[j], m)
  {
    computed := map[];
    var i := 0;
    while i < |nets|
      invariant 0 <= i <= |nets|
      invariant Collected(nets, m, i, computed)
    {
      if Lookup(m, nets[i].name) == "" {
        break;
      }
      CollectStep(nets, m, i, computed);
      computed := computed[nets[i].name := WithIP(nets[i], m)];
      i := i + 1;
    }
    CollectDone(nets, m, i, computed);
  }

  /**
   * The body of one attempt after a successful query: collect the networks,
   * compare the collection's size with the list's length, and emit the
   * collected networks in configured order.
   */
  method ComputeNets(nets: seq<NetModel>, m: map<string, string>) returns (r: Result<seq<NetModel>>)
    ensures r == Resolve(nets, m)
  {
    var computed := CollectNets(nets, m);
    if |nets| != |computed| {
      return Err(UNRESOLVED);
    }
    var out: seq<NetModel> := [];
    for k := 0 to |nets|
      invariant |out| == k
      invariant forall j :: 0 <= j < k ==> out[j] == WithIP(nets[j], m)
    {
      out := out + [computed[nets[k].name]];
    }
    assert out == Resolve(nets, m).value;
    return Ok(out);
  }

  /** The attempts from number `attempt` (counting from 0) on. */
  function NetIPsLoop(node: string, vmid: int, nets: seq<NetModel>, attempt: int, s: seq<Reply>): Run<Result<seq<NetModel>>>
    decreases IP_RETRIES - attempt
  {
    if attempt >= IP_RETRIES then Run(Err(RETRIES_EXHAUSTED), s, [])
    else
      var ev := Step(GetInterfaces(node, vmid), s);
      match IfacesOf(ev.reply)
      case Err(_) => Extend([ev], NetIPsLoop(node, vmid, nets, attempt + 1, Tail(s)))
      case Ok(ifaces) => Run(Resolve(nets, IfaceMap(ifaces)), Tail(s), [ev])
  }

  /** What `computeLXCNetIPs` does against the script `s`. */
  function NetIPsRun(node: string, vmid: int, nets: seq<NetModel>, s: seq<Reply>): Run<Result<seq<NetModel>>>
  {
    NetIPsLoop(node, vmid, nets, 0, s)
  }

  method ComputeLXCNetIPs(gw: Cluster, node: string, vmid: int, nets: seq<NetModel>) returns (r: Result<seq<NetModel>>)
    modifies gw
    ensures var run := NetIPsRun(node, vmid, nets, old(gw.script));
      r == run.value && gw.script == run.rest && gw.trace == old(gw.trace) + run.events
  {
    ghost var done: seq<Event> := [];
    for attempt := 0 to IP_RETRIES
      invariant gw.trace == old(gw.trace) + done
      invariant NetIPsRun(node, vmid, nets, old(gw.script)) == Extend(done, NetIPsLoop(node, vmid, nets, attempt, gw.script))
    {
      ghost var s := gw.script;
      var reply := gw.Send(GetInterfaces(node, vmid));
      var ifaces := IfacesOf(reply);
      AppendAssoc(old(gw.trace), done, [Event(GetInterfaces(node, vmid), reply)]);
      if ifaces.Err? {
        ExtendTwice(done, [Event(GetInterfaces(node, vmid), reply)], NetIPsLoop(node, vmid, nets, attempt + 1, gw.script));
        done := done + [Event(GetInterfaces(node, vmid), reply)];
        continue;
      }
      var m := BuildIfaceMap(ifaces.value);
      r := ComputeNets(nets, m);
      return;
    }
    return Err(RETRIES_EXHAUSTED);
  }

  // -------------------------------------------------------------------------
  // Properties.

  /** The address map holds exactly the reported names, each with the address of its last interface. */
  lemma {:induction false} IfaceMapLastWins(ifaces: seq<Iface>, name: string)
    ensures name in IfaceMap(ifaces) <==> exists i :: 0 <= i < |ifaces| && ifaces[i].name == name
    ensures forall i :: (0 <= i < |ifaces| && ifaces[i].name == name &&
      (forall k :: i < k < |ifaces| ==> ifaces[k].name != name)) ==> IfaceMap(ifaces)[name] == ifaces[i].ipv4
  {
    if ifaces != [] {
      var init := ifaces[..|ifaces| - 1];
      IfaceMapLastWins(init, name);
      if name in IfaceMap(init) {
        var i :| 0 <= i < |init| && init[i].name == name;
        assert ifaces[i].name == name;
      }
      forall i | 0 <= i < |ifaces| - 1 && ifaces[i].name == name
        ensures init[i].name == name
      {
      }
    }
  }

  /**
   * A successful resolution keeps the length, the order and every attribute of
   * the configured networks and adds, to each, the non-empty address the
   * container reported under its name.
   */
  lemma ResolveOk(nets: seq<NetModel>, m: map<string, string>)
    requires Resolve(nets, m).Ok?
    ensures var out := Resolve(nets, m).value;
      |out| == |nets| &&
      forall i :: 0 <= i < |nets| ==>
        out[i].(computedIP := None) == nets[i].(computedIP := None) &&
        out[i].computedIP == Some(m[nets[i].name]) && m[nets[i].name] != ""
  {
  }

  /** A resolution fails exactly when some network has no address or two share a name. */
  lemma ResolveErr(nets: seq<NetModel>, m: map<string, string>)
    ensures Resolve(nets, m).Err? <==>
      (exists i :: 0 <= i < |nets| && !Addressed(nets[i], m)) ||
      (exists a, b :: 0 <= a < b < |nets| && nets[a].name == nets[b].name)
  {
  }

  /** Every event is an interface query of the container. */
  predicate QueriesOnly(evs: seq<Event>, node: string, vmid: int)
  {
    forall i :: 0 <= i < |evs| ==> evs[i].call == GetInterfaces(node, vmid)
  }

  /** Every query of `evs` failed. */
  predicate AllFailed(evs: seq<Event>)
  {
    forall i :: 0 <= i < |evs| ==> IfacesOf(evs[i].reply).Err?
  }

  /** At most three calls, all of them interface queries of the container. */
  lemma {:induction false} NetIPsCalls(node: string, vmid: int, nets: seq<NetModel>, attempt: int, s: seq<Reply>)
    requires 0 <= attempt
    ensures var run := NetIPsLoop(node, vmid, nets, attempt, s);
      |run.events| <= (if attempt >= IP_RETRIES then 0 else IP_RETRIES - attempt) &&
      QueriesOnly(run.events, node, vmid)
    decreases IP_RETRIES - attempt
  {
    if attempt < IP_RETRIES {
      var ev := Step(GetInterfaces(node, vmid), s);
      if IfacesOf(ev.reply).Err? {
        var sub := NetIPsLoop(node, vmid, nets, attempt + 1, Tail(s));
        NetIPsCalls(node, vmid, nets, attempt + 1, Tail(s));
        assert NetIPsLoop(node, vmid, nets, attempt, s).events == [ev] + sub.events;
      }
    }
  }

  /** Every query but the last one failed: no query follows a successful one. */
  lemma {:induction false} NoQueryAfterSuccess(node: string, vmid: int, nets: seq<NetModel>, attempt: int, s: seq<Reply>)
    ensures var run := NetIPsLoop(node, vmid, nets, attempt, s);
      |run.events| > 0 ==> AllFailed(run.events[..|run.events| - 1])
    decreases IP_RETRIES - attempt
  {
    var run := NetIPsLoop(node, vmid, nets, attempt, s);
    if attempt < IP_RETRIES {
      var ev := Step(GetInterfaces(node, vmid), s);
      if IfacesOf(ev.reply).Err? {
        var sub := NetIPsLoop(node, vmid, nets, attempt + 1, Tail(s));
        NoQueryAfterSuccess(node, vmid, nets, attempt + 1, Tail(s));
        assert run.events == [ev] + sub.events;
        if sub.events != [] {
          assert run.events[..|run.events| - 1] == [ev] + sub.events[..|sub.events| - 1];
        }
      }
    }
  }

  /** The retries error comes exactly from three failed queries. */
  lemma {:induction false} RetriesExhausted(node: string, vmid: int, nets: seq<NetModel>, attempt: int, s: seq<Reply>)
    requires 0 <= attempt <= IP_RETRIES
    ensures var run := NetIPsLoop(node, vmid, nets, attempt, s);
      run.value == Err(RETRIES_EXHAUSTED) <==> |run.events| == IP_RETRIES - attempt && AllFailed(run.events)
    decreases IP_RETRIES - attempt
  {
    var run := NetIPsLoop(node, vmid, nets, attempt, s);
    if attempt < IP_RETRIES {
      var ev := Step(GetInterfaces(node, vmid), s);
      if IfacesOf(ev.reply).Err? {
        var sub := NetIPsLoop(node, vmid, nets, attempt + 1, Tail(s));
        RetriesExhausted(node, vmid, nets, attempt + 1, Tail(s));
        assert run.events == [ev] + sub.events;
        assert AllFailed(run.events) <==> AllFailed(sub.events) by {
          assert forall i :: 0 < i < |run.events| ==> run.events[i] == sub.events[i - 1];
          if !AllFailed(sub.events) {
            var k :| 0 <= k < |sub.events| && !IfacesOf(sub.events[k].reply).Err?;
            assert run.events[k + 1] == sub.events[k];
          }
        }
      } else {
        assert run.events == [ev];
        assert !IfacesOf(run.events[0].reply).Err?;
        assert |UNRESOLVED| != |RETRIES_EXHAUSTED|;
      }
    }
  }

  /** Any other outcome is the resolution of the interfaces the last, successful, query returned. */
  lemma {:induction false} ResolvedByLastQuery(node: string, vmid: int, nets: seq<NetModel>, attempt: int, s: seq<Reply>)
    ensures var run := NetIPsLoop(node, vmid, nets, attempt, s);
      run.value != Err(RETRIES_EXHAUSTED) ==>
        run.events != [] && IfacesOf(Last(run.events).reply).Ok? &&
        run.value == Resolve(nets, IfaceMap(IfacesOf(Last(run.events).reply).value))
    decreases IP_RETRIES - attempt
  {
    var run := NetIPsLoop(node, vmid, nets, attempt, s);
    if attempt < IP_RETRIES {
      var ev := Step(GetInterfaces(node, vmid), s);
      if IfacesOf(ev.reply).Err? {
        var sub := NetIPsLoop(node, vmid, nets, attempt + 1, Tail(s));
        ResolvedByLastQuery(node, vmid, nets, attempt + 1, Tail(s));
        assert run.events == [ev] + sub.events;
        if sub.events != [] {
          assert Last(run.events) == Last(sub.events);
        }
      }
    }
  }

  /** Computing the addresses only queries interfaces. */
  lemma NetIPsKinds(node: string, vmid: int, nets: seq<NetModel>, s: seq<Reply>)
    ensures KindsWithin(NetIPsRun(node, vmid, nets, s).events, {IfaceQueries})
  {
    NetIPsCalls(node, vmid, nets, 0, s);
  }
}
