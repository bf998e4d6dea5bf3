/**
 * The older `proxmox_node_lxc` resource (`node_lxc/lxc_resource.go`), whose
 * operations poll the cluster in loops of their own instead of using the
 * helpers of `lxc/helpers.go`:
 *
 *  - `Create` drives the new container to the configured status with no
 *    retry budget, resolves the addresses in exactly three attempts, and
 *    runs the commands, waiting (without starting or stopping anything) for
 *    the container to be running before and stopped after them.  No failure
 *    is rolled back.
 *  - `Read` takes the status from the node's container list and recomputes
 *    the addresses of a running container.
 *  - `Update` starts or stops the container when the configured status
 *    changes, then polls until it has left its old status.
 *  - `Delete` stops a running container, waits for "stopped", deletes it and
 *    waits until its id is free.
 */
module NodeLxc {
  import opened Gateway
  import opened Plugin
  import opened Decimal
  import opened LxcNet
  import opened LxcStatus
  import opened LxcDelete

  /**
   * `LXCResourceModel` of this resource: like the newer container's, without
   * a name server.  Optional attributes are `None` when null; the root file
   * system block is not read by any operation and is left out.
   */
  datatype NodeModel = NodeModel(
    node: string, osTemplate: string, vmid: Option<int>, features: Features,
    hostname: Option<string>, networks: seq<NetModel>, onBoot: Option<bool>,
    password: Option<string>, sshPublicKeys: seq<string>,
    unprivileged: Option<bool>, status: string, cmds: seq<string>)

  const CREATE_FAILED := "Unable to create node lxc, got error: "
  const EXEC_FAILED := "Unable to create node lxc cuz command execution failed, got error: "
  const IPS_INCOMPLETE := "Unable to compute all ifaces ips"
  const READ_FAILED := "Unable to read node lxc, got error: "
  const UPDATE_FAILED := "Unable to update node lxc, got error: "
  const DELETE_NODE_FAILED := "Unable to delete node lxc, got error: "
  const NIL_DEREFERENCE := "invalid memory address or nil pointer dereference"
  const INDEX_OUT_OF_RANGE := "index out of range"

  /** The shell the commands run in. */
  const SHELL := "bash"
  /** The number of address attempts. */
  const IP_RETRIES := 3

  /** The error `Read` reports when the node lists no container with the id. */
  function NotFound(vmid: int): string
  {
    "node lxc with id " + FormatInt(vmid) + " not found"
  }

  /** The create request built from the plan for the container `vmid`. */
  function NodeRequestOf(plan: NodeModel, vmid: int): CreateRequest
  {
    CreateRequest(
      plan.node, plan.osTemplate, vmid, ValueOr(plan.hostname, ""),
      ValueOr(plan.password, ""), JoinKeys(plan.sshPublicKeys),
      ValueOr(plan.unprivileged, false), ValueOr(plan.onBoot, false),
      "", plan.features, PveNets(plan.networks))
  }

  // -------------------------------------------------------------------------
  // Create: the status loop.

  /** The transition the status loop issues after seeing `remote`, if any. */
  function Nudge(node: string, vmid: int, desired: string, remote: string, s: seq<Reply>): (t: Run<Outcome>)
    ensures |t.rest| <= |s|
  {
    if desired == STATUS_RUNNING && remote == STATUS_STOPPED then
      var ev := Step(Start(node, vmid), s);
      Run(AckOf(ev.reply), Tail(s), [ev])
    else if desired == STATUS_STOPPED && remote == STATUS_RUNNING then
      var ev := Step(Stop(node, vmid, false), s);
      Run(AckOf(ev.reply), Tail(s), [ev])
    else Run(Pass, s, [])
  }

  /** The status loop of `Create`: poll until the container is in the status `desired`. */
  function ConvergeRun(node: string, vmid: int, desired: string, s: seq<Reply>): Run<Outcome>
    decreases |s|
  {
    var poll := Step(GetStatus(node, vmid), s);
    var remote := StatusOf(poll.reply);
    if remote.Err? then Run(Fail(remote.msg), Tail(s), [poll])
    else if desired == remote.value then Run(Pass, Tail(s), [poll])
    else
      var t := Nudge(node, vmid, desired, remote.value, Tail(s));
      if t.value.Fail? then Run(t.value, t.rest, [poll] + t.events)
      else Extend([poll] + t.events, ConvergeRun(node, vmid, desired, t.rest))
  }

  method Converge(gw: Cluster, node: string, vmid: int, desired: string) returns (err: Outcome)
    modifies gw
    ensures var run := ConvergeRun(node, vmid, desired, old(gw.script));
      err == run.value && gw.script == run.rest && gw.trace == old(gw.trace) + run.events
  {
    ghost var done: seq<Event> := [];
    while true
      invariant gw.trace == old(gw.trace) + done
      invariant ConvergeRun(node, vmid, desired, old(gw.script)) == Extend(done, ConvergeRun(node, vmid, desired, gw.script))
      decreases |gw.script|
    {
      var r := gw.Send(GetStatus(node, vmid));
      var poll := Event(GetStatus(node, vmid), r);
      var remote := StatusOf(r);
      if remote.Err? {
        AppendAssoc(old(gw.trace), done, [poll]);
        return Fail(remote.msg);
      }
      if desired == remote.value {
        AppendAssoc(old(gw.trace), done, [poll]);
        return Pass;
      }
      ghost var t := Nudge(node, vmid, desired, remote.value, gw.script);
      var nudged: Outcome := Pass;
      if desired == STATUS_RUNNING && remote.value == STATUS_STOPPED {
        var a := gw.Send(Start(node, vmid));
        nudged := AckOf(a);
      } else if desired == STATUS_STOPPED && remote.value == STATUS_RUNNING {
        var a := gw.Send(Stop(node, vmid, false));
        nudged := AckOf(a);
      }
      AppendAssoc(old(gw.trace) + done, [poll], t.events);
      AppendAssoc(old(gw.trace), done, [poll] + t.events);
      if nudged.Fail? {
        return nudged;
      }
      ExtendTwice(done, [poll] + t.events, ConvergeRun(node, vmid, desired, gw.script));
      done := done + ([poll] + t.events);
    }
  }

  // -------------------------------------------------------------------------
  // Create: the address loop.

  /** `ifacesMap`: the interfaces by name; of two with the same name the later one stays. */
  function IfaceMap(ifaces: seq<Iface>): map<string, Iface>
  {
    if ifaces == [] then map[]
    else IfaceMap(ifaces[..|ifaces| - 1])[ifaces[|ifaces| - 1].name := ifaces[|ifaces| - 1]]
  }

  /** `ifacesMap[name].IPv4`, with the zero value "" for a name no interface has. */
  function MappedIPv4(m: map<string, Iface>, name: string): string
  {
    if name in m then m[name].ipv4 else ""
  }

  /** `net` with the computed address `ip`. */
  function WithIP(net: NetModel, ip: string): NetModel
  {
    net.(computedIP := Some(ip))
  }

  /**
   * `computedNets` once the configured networks `nets` are added to `acc`
   * in order, by name, up to the first whose interface has no address.
   */
  function Collect(nets: seq<NetModel>, m: map<string, Iface>, acc: map<string, NetModel>): map<string, NetModel>
    decreases |nets|
  {
    if nets == [] || MappedIPv4(m, nets[0].name) == "" then acc
    else Collect(nets[1..], m, acc[nets[0].name := WithIP(nets[0], MappedIPv4(m, nets[0].name))])
  }

  /** The zero `LXCNetResourceModel`, which a missing key of `computedNets` gives. */
  const ZeroNet := NetModel("", None, None, None, None, None, None, None, None, None, None, None, None)

  /**
   * One answered attempt of the address loop: the networks rebuilt in
   * configured order from `computedNets`, or `None` when `computedNets` does
   * not hold one entry per configured network.
   */
  function Rebuild(nets: seq<NetModel>, ifaces: seq<Iface>): Option<seq<NetModel>>
  {
    var computed := Collect(nets, IfaceMap(ifaces), map[]);
    if |nets| != |computed| then None
    else Some(seq(|nets|, i requires 0 <= i < |nets| =>
      if nets[i].name in computed then computed[nets[i].name] else ZeroNet))
  }

  /**
   * The address loop of `Create` from attempt `i` on, `current` being the
   * networks so far: every attempt queries the interfaces; a failed query
   * skips the attempt, an answered one rebuilds the networks or ends the
   * loop with an error.
   */
  function AddressLoop(node: string, vmid: int, nets: seq<NetModel>, current: seq<NetModel>, i: int, s: seq<Reply>): Run<Result<seq<NetModel>>>
    decreases IP_RETRIES - i
  {
    if i >= IP_RETRIES then Run(Ok(current), s, [])
    else
      var q := Step(GetInterfaces(node, vmid), s);
      var fetched := IfacesOf(q.reply);
      if fetched.Err? then Extend([q], AddressLoop(node, vmid, nets, current, i + 1, Tail(s)))
      else match Rebuild(nets, fetched.value)
        case None => Run(Err(IPS_INCOMPLETE), Tail(s), [q])
        case Some(out) => Extend([q], AddressLoop(node, vmid, nets, out, i + 1, Tail(s)))
  }

  /** The networks an answered attempt rebuilds, as the loops of `Create` compute them. */
  method RebuildNets(nets: seq<NetModel>, ifaces: seq<Iface>) returns (out: Option<seq<NetModel>>)
    ensures out == Rebuild(nets, ifaces)
  {
    var m: map<string, Iface> := map[];
    for k := 0 to |ifaces|
      invariant m == IfaceMap(ifaces[..k])
    {
      assert ifaces[..k + 1][..k] == ifaces[..k];
      m := m[ifaces[k].name := ifaces[k]];
    }
    assert ifaces[..|ifaces|] == ifaces;
    var computed: map<string, NetModel> := map[];
    var j := 0;
    while j < |nets|
      invariant 0 <= j <= |nets|
      invariant Collect(nets, m, map[]) == Collect(nets[j..], m, computed)
    {
      var ip := if nets[j].name in m then m[nets[j].name].ipv4 else "";
      if ip == "" {
        assert Collect(nets[j..], m, computed) == computed;
        break;
      }
      assert nets[j..][1..] == nets[j + 1..];
      computed := computed[nets[j].name := WithIP(nets[j], ip)];
      j := j + 1;
    }
    assert j == |nets| ==> nets[j..] == [];
    assert computed == Collect(nets, m, map[]);
    if |nets| != |computed| {
      return None;
    }
    var rebuilt: seq<NetModel> := [];
    for k := 0 to |nets|
      invariant |rebuilt| == k
      invariant forall i :: 0 <= i < k ==>
        rebuilt[i] == if nets[i].name in computed then computed[nets[i].name] else ZeroNet
    {
      var net := if nets[k].name in computed then computed[nets[k].name] else ZeroNet;
      rebuilt := rebuilt + [net];
    }
    var expected := seq(|nets|, i requires 0 <= i < |nets| =>
      if nets[i].name in computed then computed[nets[i].name] else ZeroNet);
    assert rebuilt == expected;
    return Some(rebuilt);
  }

  method ResolveAddresses(gw: Cluster, node: string, vmid: int, nets: seq<NetModel>) returns (out: Result<seq<NetModel>>)
    modifies gw
    ensures var run := AddressLoop(node, vmid, nets, nets, 0, old(gw.script));
      out == run.value && gw.script == run.rest && gw.trace == old(gw.trace) + run.events
  {
    var current := nets;
    ghost var done: seq<Event> := [];
    for i := 0 to IP_RETRIES
      invariant gw.trace == old(gw.trace) + done
      invariant AddressLoop(node, vmid, nets, nets, 0, old(gw.script)) == Extend(done, AddressLoop(node, vmid, nets, current, i, gw.script))
    {
      var r := gw.Send(GetInterfaces(node, vmid));
      var q := Event(GetInterfaces(node, vmid), r);
      AppendAssoc(old(gw.trace), done, [q]);
      var fetched := IfacesOf(r);
      if fetched.Ok? {
        var rebuilt := RebuildNets(nets, fetched.value);
        if rebuilt.None? {
          return Err(IPS_INCOMPLETE);
        }
        current := rebuilt.value;
      }
      ExtendTwice(done, [q], AddressLoop(node, vmid, nets, current, i + 1, gw.script));
      done := done + [q];
    }
    return Ok(current);
  }

  // -------------------------------------------------------------------------
  // Create: the command phase.

  /** What a wait loop ends with: its error, and the last status it saw. */
  datatype Waited = Waited(err: Outcome, seen: string)

  /**
   * A wait loop of the command phase: poll, recording every status seen in
   * the state, until the container is in the status `target`.
   */
  function WaitRun(node: string, vmid: int, target: string, seen: string, s: seq<Reply>): Run<Waited>
    decreases |s|
  {
    var poll := Step(GetStatus(node, vmid), s);
    var remote := StatusOf(poll.reply);
    if remote.Err? then Run(Waited(Fail(remote.msg), seen), Tail(s), [poll])
    else if remote.value == target then Run(Waited(Pass, target), Tail(s), [poll])
    else Extend([poll], WaitRun(node, vmid, target, remote.value, Tail(s)))
  }

  method WaitFor(gw: Cluster, node: string, vmid: int, target: string, seen: string) returns (w: Waited)
    modifies gw
    ensures var run := WaitRun(node, vmid, target, seen, old(gw.script));
      w == run.value && gw.script == run.rest && gw.trace == old(gw.trace) + run.events
  {
    var last := seen;
    ghost var done: seq<Event> := [];
    while true
      invariant gw.trace == old(gw.trace) + done
      invariant WaitRun(node, vmid, target, seen, old(gw.script)) == Extend(done, WaitRun(node, vmid, target, last, gw.script))
      decreases |gw.script|
    {
      var r := gw.Send(GetStatus(node, vmid));
      var poll := Event(GetStatus(node, vmid), r);
      AppendAssoc(old(gw.trace), done, [poll]);
      var remote := StatusOf(r);
      if remote.Err? {
        return Waited(Fail(remote.msg), last);
      }
      last := remote.value;
      if remote.value == target {
        return Waited(Pass, last);
      }
      ExtendTwice(done, [poll], WaitRun(node, vmid, target, last, gw.script));
      done := done + [poll];
    }
  }

  /** What `Exec` returns: the output, the exit code and the error. */
  datatype Executed = Executed(output: string, exitCode: int, error: Option<string>)

  /** A failed call returns a zero exit code with its error. */
  function ExecOf(r: Reply): Executed
  {
    match r
    case ExecDone(out, code, e) => Executed(out, code, e)
    case Failure(m) => Executed("", 0, Some(m))
    case _ => Executed("", 0, Some(UNEXPECTED_REPLY))
  }

  /**
   * How the command loop ends: every command exited with 0, or one did not,
   * with its error or (reading a nil error) a panic.
   */
  datatype ExecOutcome = AllRan | ExitedNonZero(msg: string) | NilError

  /** The command loop: run the commands in order until one exits non-zero. */
  function ExecsRun(vmid: int, cmds: seq<string>, s: seq<Reply>): Run<ExecOutcome>
    decreases |cmds|
  {
    if cmds == [] then Run(AllRan, s, [])
    else
      var ev := Step(Exec(vmid, SHELL, cmds[0]), s);
      var x := ExecOf(ev.reply);
      if x.exitCode != 0 then Run(if x.error.Some? then ExitedNonZero(x.error.value) else NilError, Tail(s), [ev])
      else Extend([ev], ExecsRun(vmid, cmds[1..], Tail(s)))
  }

  method ExecAll(gw: Cluster, vmid: int, cmds: seq<string>) returns (e: ExecOutcome)
    modifies gw
    ensures var run := ExecsRun(vmid, cmds, old(gw.script));
      e == run.value && gw.script == run.rest && gw.trace == old(gw.trace) + run.events
  {
    ghost var done: seq<Event> := [];
    for i := 0 to |cmds|
      invariant gw.trace == old(gw.trace) + done
      invariant ExecsRun(vmid, cmds, old(gw.script)) == Extend(done, ExecsRun(vmid, cmds[i..], gw.script))
    {
      assert cmds[i..][0] == cmds[i] && cmds[i..][1..] == cmds[i + 1..];
      var r := gw.Send(Exec(vmid, SHELL, cmds[i]));
      var ev := Event(Exec(vmid, SHELL, cmds[i]), r);
      AppendAssoc(old(gw.trace), done, [ev]);
      var x := ExecOf(r);
      if x.exitCode != 0 {
        if x.error.None? {
          return NilError;
        }
        return ExitedNonZero(x.error.value);
      }
      ExtendTwice(done, [ev], ExecsRun(vmid, cmds[i + 1..], gw.script));
      done := done + [ev];
    }
    return AllRan;
  }

  // -------------------------------------------------------------------------
  // Create: the whole operation.

  /** `Create`: obtain an id, create the container, then the loops. */
  function NodeCreateRun(plan: NodeModel, s: seq<Reply>): Run<Response<NodeModel>>
  {
    var id := GetVMIDRun(plan.vmid, s);
    if id.value.Err? then Run(Response([ClientError(CREATE_FAILED + id.value.msg)], Unchanged), id.rest, id.events)
    else Extend(id.events, NodeCreateWithIdRun(plan, id.value.value, id.rest))
  }

  /**
   * The creation request for `vmid`.  The state records the id the cluster
   * returns, while every later call uses `vmid`.
   */
  function NodeCreateWithIdRun(plan: NodeModel, vmid: int, s: seq<Reply>): Run<Response<NodeModel>>
  {
    var c := Step(Call.Create(NodeRequestOf(plan, vmid)), s);
    var created := CreatedOf(c.reply);
    if created.Err? then Run(Response([ClientError(CREATE_FAILED + created.msg)], Unchanged), Tail(s), [c])
    else Extend([c], ConvergedRun(plan.(vmid := Some(created.value)), vmid, Tail(s)))
  }

  /** The status loop, then the state is written and the addresses and commands follow. */
  function ConvergedRun(data: NodeModel, vmid: int, s: seq<Reply>): Run<Response<NodeModel>>
  {
    var conv := ConvergeRun(data.node, vmid, data.status, s);
    if conv.value.Fail? then Run(Response([ClientError(CREATE_FAILED + conv.value.msg)], Unchanged), conv.rest, conv.events)
    else Extend(conv.events, AddressPhaseRun(data, vmid, conv.rest))
  }

  /** For a container configured "running", the address loop; then the command phase. */
  function AddressPhaseRun(data: NodeModel, vmid: int, s: seq<Reply>): Run<Response<NodeModel>>
  {
    if data.status != STATUS_RUNNING then CommandPhaseRun(data, vmid, s)
    else
      var a := AddressLoop(data.node, vmid, data.networks, data.networks, 0, s);
      if a.value.Err? then Run(Response([ClientError(CREATE_FAILED + a.value.msg)], Written(data)), a.rest, a.events)
      else Extend(a.events, CommandPhaseRun(data.(networks := a.value.value), vmid, a.rest))
  }

  /**
   * With commands: for a container configured "stopped", wait until it is
   * running; run the commands; for one configured "stopped", wait until it
   * is stopped again.
   */
  function CommandPhaseRun(data: NodeModel, vmid: int, s: seq<Reply>): Run<Response<NodeModel>>
  {
    if data.cmds == [] then Run(Response([], Written(data)), s, [])
    else if data.status == STATUS_STOPPED then
      var w := WaitRun(data.node, vmid, STATUS_RUNNING, data.status, s);
      if w.value.err.Fail? then
        Run(Response([ClientError(CREATE_FAILED + w.value.err.msg)], Written(data.(status := w.value.seen))), w.rest, w.events)
      else Extend(w.events, ExecPhaseRun(data.(status := STATUS_RUNNING), STATUS_STOPPED, vmid, w.rest))
    else ExecPhaseRun(data, data.status, vmid, s)
  }

  /** The commands, then the wait for "stopped" when that is the configured status `desired`. */
  function ExecPhaseRun(data: NodeModel, desired: string, vmid: int, s: seq<Reply>): Run<Response<NodeModel>>
  {
    var e := ExecsRun(vmid, data.cmds, s);
    match e.value
    case NilError => Run(Panic(NIL_DEREFERENCE), e.rest, e.events)
    case ExitedNonZero(m) => Run(Response([ClientError(EXEC_FAILED + m)], Written(data)), e.rest, e.events)
    case AllRan =>
      if desired != STATUS_STOPPED then Run(Response([], Written(data)), e.rest, e.events)
      else
        var w := WaitRun(data.node, vmid, STATUS_STOPPED, data.status, e.rest);
        var diags := if w.value.err.Fail? then [ClientError(CREATE_FAILED + w.value.err.msg)] else [];
        Extend(e.events, Run(Response(diags, Written(data.(status := w.value.seen))), w.rest, w.events))
  }

  method Create(gw: Cluster, plan: NodeModel) returns (resp: Response<NodeModel>)
    modifies gw
    ensures var run := NodeCreateRun(plan, old(gw.script));
      resp == run.value && gw.script == run.rest && gw.trace == old(gw.trace) + run.events
  {
    ghost var idRun := GetVMIDRun(plan.vmid, gw.script);
    var id := GetVMID(gw, plan.vmid);
    if id.Err? {
      return Response([ClientError(CREATE_FAILED + id.msg)], Unchanged);
    }
    resp := CreateWithId(gw, plan, id.value);
    AppendAssoc(old(gw.trace), idRun.events, NodeCreateWithIdRun(plan, id.value, idRun.rest).events);
  }

  method CreateWithId(gw: Cluster, plan: NodeModel, vmid: int) returns (resp: Response<NodeModel>)
    modifies gw
    ensures var run := NodeCreateWithIdRun(plan, vmid, old(gw.script));
      resp == run.value && gw.script == run.rest && gw.trace == old(gw.trace) + run.events
  {
    var ssh := "";
    for i := 0 to |plan.sshPublicKeys|
      invariant ssh == JoinKeys(plan.sshPublicKeys[..i])
    {
      assert plan.sshPublicKeys[..i + 1][..i] == plan.sshPublicKeys[..i];
      ssh := ssh + "\n" + plan.sshPublicKeys[i];
    }
    assert plan.sshPublicKeys[..|plan.sshPublicKeys|] == plan.sshPublicKeys;
    var nets: seq<PveNet> := [];
    for i := 0 to |plan.networks|
      invariant nets == PveNets(plan.networks[..i])
    {
      nets := nets + [ToPVELXCNet(plan.networks[i])];
    }
    assert plan.networks[..|plan.networks|] == plan.networks;
    var req := CreateRequest(
      plan.node, plan.osTemplate, vmid, ValueOr(plan.hostname, ""),
      ValueOr(plan.password, ""), ssh, false, false, "", plan.features, nets);
    if plan.unprivileged.Some? {
      req := req.(unprivileged := plan.unprivileged.value);
    }
    if plan.onBoot.Some? {
      req := req.(onBoot := plan.onBoot.value);
    }
    assert req == NodeRequestOf(plan, vmid);
    var r := gw.Send(Call.Create(req));
    var created := CreatedOf(r);
    if created.Err? {
      return Response([ClientError(CREATE_FAILED + created.msg)], Unchanged);
    }
    var data := plan.(vmid := Some(created.value));
    ghost var rest := ConvergedRun(data, vmid, gw.script);
    resp := Converged(gw, data, vmid);
    AppendAssoc(old(gw.trace), [Event(Call.Create(req), r)], rest.events);
  }

  method Converged(gw: Cluster, data: NodeModel, vmid: int) returns (resp: Response<NodeModel>)
    modifies gw
    ensures var run := ConvergedRun(data, vmid, old(gw.script));
      resp == run.value && gw.script == run.rest && gw.trace == old(gw.trace) + run.events
  {
    ghost var conv := ConvergeRun(data.node, vmid, data.status, gw.script);
    var err := Converge(gw, data.node, vmid, data.status);
    if err.Fail? {
      return Response([ClientError(CREATE_FAILED + err.msg)], Unchanged);
    }
    ghost var rest := AddressPhaseRun(data, vmid, gw.script);
    resp := AddressPhase(gw, data, vmid);
    AppendAssoc(old(gw.trace), conv.events, rest.events);
  }

  method AddressPhase(gw: Cluster, data: NodeModel, vmid: int) returns (resp: Response<NodeModel>)
    modifies gw
    ensures var run := AddressPhaseRun(data, vmid, old(gw.script));
      resp == run.value && gw.script == run.rest && gw.trace == old(gw.trace) + run.events
  {
    if data.status != STATUS_RUNNING {
      resp := CommandPhase(gw, data, vmid);
      return;
    }
    ghost var a := AddressLoop(data.node, vmid, data.networks, data.networks, 0, gw.script);
    var nets := ResolveAddresses(gw, data.node, vmid, data.networks);
    if nets.Err? {
      return Response([ClientError(CREATE_FAILED + nets.msg)], Written(data));
    }
    ghost var rest := CommandPhaseRun(data.(networks := nets.value), vmid, gw.script);
    resp := CommandPhase(gw, data.(networks := nets.value), vmid);
    AppendAssoc(old(gw.trace), a.events, rest.events);
  }

  method CommandPhase(gw: Cluster, data: NodeModel, vmid: int) returns (resp: Response<NodeModel>)
    modifies gw
    ensures var run := CommandPhaseRun(data, vmid, old(gw.script));
      resp == run.value && gw.script == run.rest && gw.trace == old(gw.trace) + run.events
  {
    if |data.cmds| == 0 {
      return Response([], Written(data));
    }
    if data.status != STATUS_STOPPED {
      resp := ExecPhase(gw, data, data.status, vmid);
      return;
    }
    ghost var w := WaitRun(data.node, vmid, STATUS_RUNNING, data.status, gw.script);
    var waited := WaitFor(gw, data.node, vmid, STATUS_RUNNING, data.status);
    if waited.err.Fail? {
      return Response([ClientError(CREATE_FAILED + waited.err.msg)], Written(data.(status := waited.seen)));
    }
    ghost var rest := ExecPhaseRun(data.(status := STATUS_RUNNING), STATUS_STOPPED, vmid, gw.script);
    resp := ExecPhase(gw, data.(status := STATUS_RUNNING), STATUS_STOPPED, vmid);
    AppendAssoc(old(gw.trace), w.events, rest.events);
  }

  method ExecPhase(gw: Cluster, data: NodeModel, desired: string, vmid: int) returns (resp: Response<NodeModel>)
    modifies gw
    ensures var run := ExecPhaseRun(data, desired, vmid, old(gw.script));
      resp == run.value && gw.script == run.rest && gw.trace == old(gw.trace) + run.events
  {
    ghost var e := ExecsRun(vmid, data.cmds, gw.script);
    var ran := ExecAll(gw, vmid, data.cmds);
    if ran.NilError? {
      return Panic(NIL_DEREFERENCE);
    }
    if ran.ExitedNonZero? {
      return Response([ClientError(EXEC_FAILED + ran.msg)], Written(data));
    }
    if desired != STATUS_STOPPED {
      return Response([], Written(data));
    }
    ghost var w := WaitRun(data.node, vmid, STATUS_STOPPED, data.status, gw.script);
    var waited := WaitFor(gw, data.node, vmid, STATUS_STOPPED, data.status);
    AppendAssoc(old(gw.trace), e.events, w.events);
    if waited.err.Fail? {
      return Response([ClientError(CREATE_FAILED + waited.err.msg)], Written(data.(status := waited.seen)));
    }
    return Response([], Written(data.(status := waited.seen)));
  }

  // -------------------------------------------------------------------------
  // Read.

  /** The status of the first listed container with the id `vmid`, "" when none is listed. */
  function FirstStatus(entries: seq<LxcEntry>, vmid: int): string
    decreases |entries|
  {
    if entries == [] then ""
    else if entries[0].vmid == vmid then entries[0].status
    else FirstStatus(entries[1..], vmid)
  }

  /** `data.Node.String()`: the node's name in double quotes, which `Read` passes to the interface query. */
  function Quoted(node: string): string
  {
    "\"" + node + "\""
  }

  /** `remoteIface`: the last interface named `name`, or the zero interface. */
  function LastNamed(ifaces: seq<Iface>, name: string): Iface
    decreases |ifaces|
  {
    if ifaces == [] then Iface("", "")
    else if ifaces[|ifaces| - 1].name == name then ifaces[|ifaces| - 1]
    else LastNamed(ifaces[..|ifaces| - 1], name)
  }

  /** `computedNets` of `Read`: the configured networks, in order, up to the first without an address. */
  function ReadCollect(nets: seq<NetModel>, ifaces: seq<Iface>): seq<NetModel>
    decreases |nets|
  {
    if nets == [] || LastNamed(ifaces, nets[0].name).ipv4 == "" then []
    else [WithIP(nets[0], LastNamed(ifaces, nets[0].name).ipv4)] + ReadCollect(nets[1..], ifaces)
  }

  /** How an answered attempt of `Read`'s address loop ends. */
  datatype Attempt = Rebuilt(nets: seq<NetModel>) | Incomplete | OutOfRange

  /**
   * An answered attempt of `Read`, as written: `data.Networks` is emptied
   * before its length is compared with that of `computedNets`, and the
   * networks are then rebuilt by indexing `computedNets` with the position
   * of each configured network.
   */
  function ReadAttempt(nets: seq<NetModel>, ifaces: seq<Iface>): Attempt
  {
    var emptied: seq<NetModel> := [];
    var computed := ReadCollect(nets, ifaces);
    if |emptied| != |computed| then Incomplete
    else if |nets| > |computed| then OutOfRange
    else Rebuilt(computed)
  }

  /** The attempt as evidently intended: the configured networks are compared with `computedNets`. */
  function ReadAttemptFixed(nets: seq<NetModel>, ifaces: seq<Iface>): Attempt
  {
    var computed := ReadCollect(nets, ifaces);
    if |nets| != |computed| then Incomplete else Rebuilt(computed)
  }

  /** `Read`'s address loop from attempt `i` on, each answered query handled by `attempt`. */
  function ReadAddressLoop(node: string, vmid: int, nets: seq<NetModel>, current: seq<NetModel>, i: int, s: seq<Reply>,
                           attempt: (seq<NetModel>, seq<Iface>) -> Attempt): Run<Attempt>
    decreases IP_RETRIES - i
  {
    if i >= IP_RETRIES then Run(Rebuilt(current), s, [])
    else
      var q := Step(GetInterfaces(node, vmid), s);
      var fetched := IfacesOf(q.reply);
      if fetched.Err? then Extend([q], ReadAddressLoop(node, vmid, nets, current, i + 1, Tail(s), attempt))
      else
        var a := attempt(nets, fetched.value);
        if a.Rebuilt? then Extend([q], ReadAddressLoop(node, vmid, nets, a.nets, i + 1, Tail(s), attempt))
        else Run(a, Tail(s), [q])
  }

  /** The response once the address loop ended with `a`. */
  function ReadResponse(data: NodeModel, a: Attempt): Response<NodeModel>
  {
    match a
    case Rebuilt(nets) => Response([], Written(data.(networks := nets)))
    case Incomplete => Response([ClientError(CREATE_FAILED + IPS_INCOMPLETE)], Unchanged)
    case OutOfRange => Panic(INDEX_OUT_OF_RANGE)
  }

  /** `Read`, its answered address attempts handled by `attempt`. */
  function NodeReadWith(data: NodeModel, s: seq<Reply>, attempt: (seq<NetModel>, seq<Iface>) -> Attempt): Run<Response<NodeModel>>
  {
    var g := Step(GetAll(data.node), s);
    var listed := ListingOf(g.reply);
    var vmid := ValueOr(data.vmid, 0);
    if listed.Err? then Run(Response([ClientError(READ_FAILED + listed.msg)], Unchanged), Tail(s), [g])
    else
      var status := FirstStatus(listed.value, vmid);
      if status == "" then Run(Response([ClientError(READ_FAILED + NotFound(vmid))], Unchanged), Tail(s), [g])
      else if data.status != STATUS_RUNNING then Run(Response([], Written(data.(status := status))), Tail(s), [g])
      else
        var a := ReadAddressLoop(Quoted(data.node), vmid, data.networks, data.networks, 0, Tail(s), attempt);
        Extend([g], Run(ReadResponse(data.(status := status), a.value), a.rest, a.events))
  }

  /** `Read` as written. */
  function NodeReadRun(data: NodeModel, s: seq<Reply>): Run<Response<NodeModel>>
  {
    NodeReadWith(data, s, ReadAttempt)
  }

  /** `Read` with the address attempt as evidently intended. */
  function NodeReadFixedRun(data: NodeModel, s: seq<Reply>): Run<Response<NodeModel>>
  {
    NodeReadWith(data, s, ReadAttemptFixed)
  }

  /** `computedNets` of `Read`: for each network in turn, the address of the last interface with its name. */
  method CollectAddresses(nets: seq<NetModel>, ifaces: seq<Iface>) returns (computed: seq<NetModel>)
    ensures computed == ReadCollect(nets, ifaces)
  {
    computed := [];
    var k := 0;
    while k < |nets|
      invariant 0 <= k <= |nets|
      invariant ReadCollect(nets, ifaces) == computed + ReadCollect(nets[k..], ifaces)
    {
      var remote := Iface("", "");
      for j := 0 to |ifaces|
        invariant remote == LastNamed(ifaces[..j], nets[k].name)
      {
        assert ifaces[..j + 1][..j] == ifaces[..j];
        if ifaces[j].name == nets[k].name {
          remote := ifaces[j];
        }
      }
      assert ifaces[..|ifaces|] == ifaces;
      assert nets[k..][0] == nets[k] && nets[k..][1..] == nets[k + 1..];
      if remote.ipv4 == "" {
        break;
      }
      computed := computed + [WithIP(nets[k], remote.ipv4)];
      k := k + 1;
    }
    assert k == |nets| ==> nets[k..] == [];
  }

  /** An answered attempt of `Read`'s address loop. */
  method AttemptAddresses(nets: seq<NetModel>, ifaces: seq<Iface>) returns (a: Attempt)
    ensures a == ReadAttempt(nets, ifaces)
  {
    var computed := CollectAddresses(nets, ifaces);
    var emptied: seq<NetModel> := [];
    if |emptied| != |computed| {
      return Incomplete;
    }
    ReadCollectBounded(nets, ifaces);
    a := Reindex(|nets|, computed);
    assert |nets| <= |computed| ==> computed[..|nets|] == computed;
  }

  /** The rebuild loop of `Read`: position `i` of each of `count` networks taken from `computed`. */
  method Reindex(count: nat, computed: seq<NetModel>) returns (a: Attempt)
    ensures count > |computed| ==> a == OutOfRange
    ensures count <= |computed| ==> a == Rebuilt(computed[..count])
  {
    var rebuilt: seq<NetModel> := [];
    for i := 0 to count
      invariant i <= |computed| && rebuilt == computed[..i]
    {
      if i >= |computed| {
        return OutOfRange;
      }
      rebuilt := rebuilt + [computed[i]];
    }
    return Rebuilt(rebuilt);
  }

  lemma {:induction false} ReadCollectBounded(nets: seq<NetModel>, ifaces: seq<Iface>)
    ensures |ReadCollect(nets, ifaces)| <= |nets|
    decreases |nets|
  {
    if nets != [] {
      ReadCollectBounded(nets[1..], ifaces);
    }
  }

  method ReadAddresses(gw: Cluster, node: string, vmid: int, nets: seq<NetModel>) returns (a: Attempt)
    modifies gw
    ensures var run := ReadAddressLoop(node, vmid, nets, nets, 0, old(gw.script), ReadAttempt);
      a == run.value && gw.script == run.rest && gw.trace == old(gw.trace) + run.events
  {
    var current := nets;
    ghost var done: seq<Event> := [];
    for i := 0 to IP_RETRIES
      invariant gw.trace == old(gw.trace) + done
      invariant ReadAddressLoop(node, vmid, nets, nets, 0, old(gw.script), ReadAttempt)
        == Extend(done, ReadAddressLoop(node, vmid, nets, current, i, gw.script, ReadAttempt))
    {
      var r := gw.Send(GetInterfaces(node, vmid));
      var q := Event(GetInterfaces(node, vmid), r);
      AppendAssoc(old(gw.trace), done, [q]);
      var fetched := IfacesOf(r);
      if fetched.Ok? {
        var attempt := AttemptAddresses(nets, fetched.value);
        if !attempt.Rebuilt? {
          return attempt;
        }
        current := attempt.nets;
      }
      ExtendTwice(done, [q], ReadAddressLoop(node, vmid, nets, current, i + 1, gw.script, ReadAttempt));
      done := done + [q];
    }
    return Rebuilt(current);
  }

  method Read(gw: Cluster, data: NodeModel) returns (resp: Response<NodeModel>)
    modifies gw
    ensures var run := NodeReadRun(data, old(gw.script));
      resp == run.value && gw.script == run.rest && gw.trace == old(gw.trace) + run.events
  {
    var vmid := ValueOr(data.vmid, 0);
    var r := gw.Send(GetAll(data.node));
    var listed := ListingOf(r);
    if listed.Err? {
      return Response([ClientError(READ_FAILED + listed.msg)], Unchanged);
    }
    var status := "";
    var k := 0;
    while k < |listed.value|
      invariant 0 <= k <= |listed.value|
      invariant FirstStatus(listed.value, vmid) == FirstStatus(listed.value[k..], vmid)
    {
      assert listed.value[k..][0] == listed.value[k] && listed.value[k..][1..] == listed.value[k + 1..];
      if listed.value[k].vmid == vmid {
        status := listed.value[k].status;
        break;
      }
      k := k + 1;
    }
    assert status == FirstStatus(listed.value, vmid);
    if status == "" {
      return Response([ClientError(READ_FAILED + NotFound(vmid))], Unchanged);
    }
    if data.status != STATUS_RUNNING {
      return Response([], Written(data.(status := status)));
    }
    ghost var a := ReadAddressLoop(Quoted(data.node), vmid, data.networks, data.networks, 0, gw.script, ReadAttempt);
    var attempt := ReadAddresses(gw, Quoted(data.node), vmid, data.networks);
    AppendAssoc(old(gw.trace), [Event(GetAll(data.node), r)], a.events);
    resp := ReadResponse(data.(status := status), attempt);
  }

  // -------------------------------------------------------------------------
  // Update.

  /** The transition `Update` issues from the old status `current`: Start from "stopped", a forced Stop from "running". */
  function Toggle(node: string, vmid: int, current: string, s: seq<Reply>): Run<Outcome>
  {
    if current == STATUS_STOPPED then
      var ev := Step(Start(node, vmid), s);
      Run(AckOf(ev.reply), Tail(s), [ev])
    else if current == STATUS_RUNNING then
      var ev := Step(Stop(node, vmid, true), s);
      Run(AckOf(ev.reply), Tail(s), [ev])
    else Run(Pass, s, [])
  }

  /** `Update`'s status loop: poll until the container has left the status `current`. */
  function LeaveRun(node: string, vmid: int, current: string, s: seq<Reply>): Run<Outcome>
    decreases |s|
  {
    var poll := Step(GetStatus(node, vmid), s);
    var remote := StatusOf(poll.reply);
    if remote.Err? then Run(Fail(remote.msg), Tail(s), [poll])
    else if remote.value == current then Extend([poll], LeaveRun(node, vmid, current, Tail(s)))
    else Run(Pass, Tail(s), [poll])
  }

  /**
   * `Update`: the plan, with the id of the prior state, is written back;
   * when the configured status changes the container is first toggled (an
   * error is reported and the update goes on) and polled until it left its
   * old status (an error there ends the update).
   */
  function NodeUpdateRun(plan: NodeModel, state: NodeModel, s: seq<Reply>): Run<Response<NodeModel>>
  {
    var vmid := ValueOr(state.vmid, 0);
    var data := plan.(vmid := Some(vmid));
    if plan.status == state.status then Run(Response([], Written(data)), s, [])
    else
      var t := Toggle(state.node, vmid, state.status, s);
      var diags := if t.value.Fail? then [ClientError(UPDATE_FAILED + t.value.msg)] else [];
      var w := LeaveRun(state.node, vmid, state.status, t.rest);
      Extend(t.events, Run(
        if w.value.Fail? then Response(diags + [ClientError(UPDATE_FAILED + w.value.msg)], Unchanged)
        else Response(diags, Written(data)),
        w.rest, w.events))
  }

  method LeaveStatus(gw: Cluster, node: string, vmid: int, current: string) returns (err: Outcome)
    modifies gw
    ensures var run := LeaveRun(node, vmid, current, old(gw.script));
      err == run.value && gw.script == run.rest && gw.trace == old(gw.trace) + run.events
  {
    ghost var done: seq<Event> := [];
    while true
      invariant gw.trace == old(gw.trace) + done
      invariant LeaveRun(node, vmid, current, old(gw.script)) == Extend(done, LeaveRun(node, vmid, current, gw.script))
      decreases |gw.script|
    {
      var r := gw.Send(GetStatus(node, vmid));
      var poll := Event(GetStatus(node, vmid), r);
      AppendAssoc(old(gw.trace), done, [poll]);
      var remote := StatusOf(r);
      if remote.Err? {
        return Fail(remote.msg);
      }
      if remote.value != current {
        return Pass;
      }
      ExtendTwice(done, [poll], LeaveRun(node, vmid, current, gw.script));
      done := done + [poll];
    }
  }

  method ToggleStatus(gw: Cluster, node: string, vmid: int, current: string) returns (err: Outcome)
    modifies gw
    ensures var run := Toggle(node, vmid, current, old(gw.script));
      err == run.value && gw.script == run.rest && gw.trace == old(gw.trace) + run.events
  {
    err := Pass;
    if current == STATUS_STOPPED {
      var r := gw.Send(Start(node, vmid));
      err := AckOf(r);
    } else if current == STATUS_RUNNING {
      var r := gw.Send(Stop(node, vmid, true));
      err := AckOf(r);
    }
  }

  method Update(gw: Cluster, plan: NodeModel, state: NodeModel) returns (resp: Response<NodeModel>)
    modifies gw
    ensures var run := NodeUpdateRun(plan, state, old(gw.script));
      resp == run.value && gw.script == run.rest && gw.trace == old(gw.trace) + run.events
  {
    var vmid := ValueOr(state.vmid, 0);
    var data := plan.(vmid := Some(vmid));
    if plan.status == state.status {
      return Response([], Written(data));
    }
    ghost var t := Toggle(state.node, vmid, state.status, gw.script);
    var err := ToggleStatus(gw, state.node, vmid, state.status);
    var diags: seq<Diag> := [];
    if err.Fail? {
      diags := diags + [ClientError(UPDATE_FAILED + err.msg)];
    }
    ghost var w := LeaveRun(state.node, vmid, state.status, gw.script);
    var left := LeaveStatus(gw, state.node, vmid, state.status);
    AppendAssoc(old(gw.trace), t.events, w.events);
    if left.Fail? {
      return Response(diags + [ClientError(UPDATE_FAILED + left.msg)], Unchanged);
    }
    return Response(diags, Written(data));
  }

  // -------------------------------------------------------------------------
  // Delete.

  /** The Stop `Delete` issues when the first poll saw `remote`: only for a running container. */
  function Halt(node: string, vmid: int, remote: string, s: seq<Reply>): Run<Outcome>
  {
    if remote == STATUS_RUNNING then
      var ev := Step(Stop(node, vmid, false), s);
      Run(AckOf(ev.reply), Tail(s), [ev])
    else Run(Pass, s, [])
  }

  /** `Delete`: poll, stop a running container, then remove it. */
  function NodeDeleteRun(data: NodeModel, s: seq<Reply>): Run<Response<NodeModel>>
  {
    var vmid := ValueOr(data.vmid, 0);
    var first := Step(GetStatus(data.node, vmid), s);
    var remote := StatusOf(first.reply);
    if remote.Err? then Run(Response([ClientError(DELETE_NODE_FAILED + remote.msg)], Unchanged), Tail(s), [first])
    else
      var h := Halt(data.node, vmid, remote.value, Tail(s));
      if h.value.Fail? then Run(Response([ClientError(DELETE_NODE_FAILED + h.value.msg)], Unchanged), h.rest, [first] + h.events)
      else Extend([first] + h.events, RemoveRun(data.node, vmid, h.rest))
  }

  /** Once the status read and the halt both pass, Delete goes on with the removal on the replies left. */
  lemma NodeDeleteContinues(data: NodeModel, s: seq<Reply>)
    requires StatusOf(Head(s)).Ok?
    requires Halt(data.node, ValueOr(data.vmid, 0), StatusOf(Head(s)).value, Tail(s)).value.Pass?
    ensures var vmid := ValueOr(data.vmid, 0);
      var h := Halt(data.node, vmid, StatusOf(Head(s)).value, Tail(s));
      NodeDeleteRun(data, s) == Extend([Step(GetStatus(data.node, vmid), s)] + h.events, RemoveRun(data.node, vmid, h.rest))
  {
  }

  /** Wait for "stopped", delete, wait until the id is free; the resource leaves the state once all succeeded. */
  function RemoveRun(node: string, vmid: int, s: seq<Reply>): Run<Response<NodeModel>>
  {
    var w := WaitStopped(node, vmid, s);
    if w.value.Fail? then Run(Response([ClientError(DELETE_NODE_FAILED + w.value.msg)], Unchanged), w.rest, w.events)
    else
      var d := Step(Call.Delete(node, vmid), w.rest);
      if AckOf(d.reply).Fail? then
        Run(Response([ClientError(DELETE_NODE_FAILED + AckOf(d.reply).msg)], Unchanged), Tail(w.rest), w.events + [d])
      else
        var f := WaitFree(vmid, Tail(w.rest));
        Run(if f.value.Fail? then Response([ClientError(DELETE_NODE_FAILED + f.value.msg)], Unchanged) else Response([], Removed),
            f.rest, w.events + [d] + f.events)
  }

  method Delete(gw: Cluster, data: NodeModel) returns (resp: Response<NodeModel>)
    modifies gw
    ensures var run := NodeDeleteRun(data, old(gw.script));
      resp == run.value && gw.script == run.rest && gw.trace == old(gw.trace) + run.events
  {
    var vmid := ValueOr(data.vmid, 0);
    ghost var s0 := gw.script;
    var r := gw.Send(GetStatus(data.node, vmid));
    var first := Event(GetStatus(data.node, vmid), r);
    var remote := StatusOf(r);
    if remote.Err? {
      return Response([ClientError(DELETE_NODE_FAILED + remote.msg)], Unchanged);
    }
    ghost var h := Halt(data.node, vmid, remote.value, gw.script);
    var halted := HaltIfRunning(gw, data.node, vmid, remote.value);
    if halted.Fail? {
      return Response([ClientError(DELETE_NODE_FAILED + halted.msg)], Unchanged);
    }
    NodeDeleteContinues(data, s0);
    ghost var rest := RemoveRun(data.node, vmid, gw.script);
    resp := Remove(gw, data.node, vmid);
    AppendAssoc(old(gw.trace), [first] + h.events, rest.events);
  }

  method HaltIfRunning(gw: Cluster, node: string, vmid: int, remote: string) returns (err: Outcome)
    modifies gw
    ensures var run := Halt(node, vmid, remote, old(gw.script));
      err == run.value && gw.script == run.rest && gw.trace == old(gw.trace) + run.events
  {
    err := Pass;
    if remote == STATUS_RUNNING {
      var r := gw.Send(Stop(node, vmid, false));
      err := AckOf(r);
    }
  }

  method Remove(gw: Cluster, node: string, vmid: int) returns (resp: Response<NodeModel>)
    modifies gw
    ensures var run := RemoveRun(node, vmid, old(gw.script));
      resp == run.value && gw.script == run.rest && gw.trace == old(gw.trace) + run.events
  {
    ghost var w := WaitStopped(node, vmid, gw.script);
    var err := WaitUntilStopped(gw, node, vmid);
    if err.Fail? {
      return Response([ClientError(DELETE_NODE_FAILED + err.msg)], Unchanged);
    }
    var r := gw.Send(Call.Delete(node, vmid));
    var d := Event(Call.Delete(node, vmid), r);
    AppendAssoc(old(gw.trace), w.events, [d]);
    if AckOf(r).Fail? {
      return Response([ClientError(DELETE_NODE_FAILED + AckOf(r).msg)], Unchanged);
    }
    ghost var f := WaitFree(vmid, gw.script);
    err := WaitUntilFree(gw, vmid);
    AppendAssoc(old(gw.trace), w.events + [d], f.events);
    if err.Fail? {
      return Response([ClientError(DELETE_NODE_FAILED + err.msg)], Unchanged);
    }
    return Response([], Removed);
  }

  // -------------------------------------------------------------------------
  // Properties of Create's loops.

  /**
   * The status loop of `Create`: status queries and transitions of the
   * container only, each transition right after a poll that justifies it.
   * It has no retry budget: it succeeds exactly when its last poll read the
   * status `desired`, and fails only with the error of its last call.
   */
  predicate Converges(run: Run<Outcome>, node: string, vmid: int, desired: string)
  {
    run.events != [] && StatusCalls(run.events, node, vmid) &&
    TransitionsJustified(run.events, node, vmid, desired) &&
    (run.value == Pass <==> Last(run.events) == Event(GetStatus(node, vmid), StatusIs(desired))) &&
    (run.value.Fail? ==>
      (IsKind(Last(run.events), StatusPolls) && StatusOf(Last(run.events).reply) == Err(run.value.msg)) ||
      (IsKind(Last(run.events), Transitions) && AckOf(Last(run.events).reply) == run.value))
  }

  /** After a poll that read `remote`, the loop issues at most one transition, and only a justified one. */
  lemma NudgeShape(node: string, vmid: int, desired: string, remote: string, s: seq<Reply>)
    requires remote != desired
    ensures var poll := Event(GetStatus(node, vmid), StatusIs(remote));
      var t := Nudge(node, vmid, desired, remote, s);
      StatusCalls([poll] + t.events, node, vmid) && TransitionsJustified([poll] + t.events, node, vmid, desired) &&
      (t.events == [] ==> t.value == Pass && t.rest == s) &&
      (t.events != [] ==> t.events == [Step(t.events[0].call, s)] && IsKind(t.events[0], Transitions) &&
                          t.value == AckOf(t.events[0].reply) && t.rest == Tail(s))
  {
  }

  lemma ConvergesPrepend(pre: seq<Event>, sub: Run<Outcome>, node: string, vmid: int, desired: string)
    requires pre != [] && StatusCalls(pre, node, vmid) && TransitionsJustified(pre, node, vmid, desired)
    requires Converges(sub, node, vmid, desired)
    ensures Converges(Extend(pre, sub), node, vmid, desired)
  {
    StatusCallsConcat(pre, sub.events, node, vmid);
    JustifiedConcat(pre, sub.events, node, vmid, desired);
    assert Last(pre + sub.events) == Last(sub.events);
  }

  lemma {:induction false} ConvergeShape(node: string, vmid: int, desired: string, s: seq<Reply>)
    ensures Converges(ConvergeRun(node, vmid, desired, s), node, vmid, desired)
    decreases |s|
  {
    var poll := Step(GetStatus(node, vmid), s);
    var remote := StatusOf(poll.reply);
    if remote.Ok? && desired != remote.value {
      assert poll == Event(GetStatus(node, vmid), StatusIs(remote.value));
      var t := Nudge(node, vmid, desired, remote.value, Tail(s));
      NudgeShape(node, vmid, desired, remote.value, Tail(s));
      if t.value.Pass? {
        ConvergeShape(node, vmid, desired, t.rest);
        ConvergesPrepend([poll] + t.events, ConvergeRun(node, vmid, desired, t.rest), node, vmid, desired);
      } else {
        assert Last([poll] + t.events) == t.events[0];
      }
    }
  }

  /** Every call of the status loop is a status query or a transition. */
  lemma StatusCallsKinds(evs: seq<Event>, node: string, vmid: int)
    requires StatusCalls(evs, node, vmid)
    ensures KindsWithin(evs, {StatusPolls, Transitions})
  {
    forall i | 0 <= i < |evs|
      ensures KindOf(evs[i]) in {StatusPolls, Transitions}
    {
      assert evs[i].call in {GetStatus(node, vmid), Start(node, vmid), Stop(node, vmid, false)};
    }
  }

  /**
   * The address loop queries the interfaces of the container and nothing
   * else; from attempt `i` on it makes one query per remaining attempt
   * unless an answered query cannot be rebuilt, and that error is the last
   * event.  The networks it returns are the ones it started from or the
   * rebuild of an answered query.
   */
  predicate Addressed(run: Run<Result<seq<NetModel>>>, node: string, vmid: int, nets: seq<NetModel>, current: seq<NetModel>, i: nat)
  {
    (forall k :: 0 <= k < |run.events| ==> run.events[k].call == GetInterfaces(node, vmid)) &&
    |run.events| <= IP_RETRIES - i &&
    (run.value.Ok? ==>
       |run.events| == IP_RETRIES - i &&
       (run.value.value == current ||
        exists k :: 0 <= k < |run.events| && IfacesOf(run.events[k].reply).Ok? &&
          Rebuild(nets, IfacesOf(run.events[k].reply).value) == Some(run.value.value))) &&
    (run.value.Err? ==>
       run.events != [] && run.value.msg == IPS_INCOMPLETE &&
       IfacesOf(Last(run.events).reply).Ok? && Rebuild(nets, IfacesOf(Last(run.events).reply).value) == None)
  }

  lemma AddressedPrepend(q: Event, sub: Run<Result<seq<NetModel>>>, node: string, vmid: int, nets: seq<NetModel>,
                         current: seq<NetModel>, next: seq<NetModel>, i: nat)
    requires i < IP_RETRIES && q.call == GetInterfaces(node, vmid)
    requires next == current || (IfacesOf(q.reply).Ok? && Rebuild(nets, IfacesOf(q.reply).value) == Some(next))
    requires Addressed(sub, node, vmid, nets, next, i + 1)
    ensures Addressed(Extend([q], sub), node, vmid, nets, current, i)
  {
    var evs := [q] + sub.events;
    assert forall k :: 0 < k < |evs| ==> evs[k] == sub.events[k - 1];
    if sub.value.Ok? && sub.value.value != current {
      if sub.value.value == next {
        assert evs[0] == q;
      } else {
        var k :| 0 <= k < |sub.events| && IfacesOf(sub.events[k].reply).Ok? &&
          Rebuild(nets, IfacesOf(sub.events[k].reply).value) == Some(sub.value.value);
        assert evs[k + 1] == sub.events[k];
      }
    }
    if sub.value.Err? {
      assert Last(evs) == Last(sub.events);
    }
  }

  lemma {:induction false} AddressLoopShape(node: string, vmid: int, nets: seq<NetModel>, current: seq<NetModel>, i: nat, s: seq<Reply>)
    requires i <= IP_RETRIES
    ensures Addressed(AddressLoop(node, vmid, nets, current, i, s), node, vmid, nets, current, i)
    decreases IP_RETRIES - i
  {
    if i < IP_RETRIES {
      var q := Step(GetInterfaces(node, vmid), s);
      var fetched := IfacesOf(q.reply);
      if fetched.Err? {
        AddressLoopShape(node, vmid, nets, current, i + 1, Tail(s));
        AddressedPrepend(q, AddressLoop(node, vmid, nets, current, i + 1, Tail(s)), node, vmid, nets, current, current, i);
      } else if Rebuild(nets, fetched.value).Some? {
        var out := Rebuild(nets, fetched.value).value;
        AddressLoopShape(node, vmid, nets, out, i + 1, Tail(s));
        AddressedPrepend(q, AddressLoop(node, vmid, nets, out, i + 1, Tail(s)), node, vmid, nets, current, out, i);
      }
    }
  }

  /**
   * A wait loop of the command phase: status queries of the container only,
   * every one but the last answered with a status other than `target`; it
   * succeeds exactly when the last one reads `target`, and then records it.
   */
  predicate WaitedFor(run: Run<Waited>, node: string, vmid: int, target: string)
  {
    run.events != [] &&
    (forall k :: 0 <= k < |run.events| ==> run.events[k].call == GetStatus(node, vmid)) &&
    (forall k :: 0 <= k < |run.events| - 1 ==> run.events[k].reply.StatusIs? && run.events[k].reply.status != target) &&
    (run.value.err == Pass <==> Last(run.events).reply == StatusIs(target)) &&
    (run.value.err == Pass ==> run.value.seen == target) &&
    (run.value.err.Fail? ==> StatusOf(Last(run.events).reply) == Err(run.value.err.msg))
  }

  lemma {:induction false} WaitRunShape(node: string, vmid: int, target: string, seen: string, s: seq<Reply>)
    ensures WaitedFor(WaitRun(node, vmid, target, seen, s), node, vmid, target)
    decreases |s|
  {
    var poll := Step(GetStatus(node, vmid), s);
    var remote := StatusOf(poll.reply);
    if remote.Ok? && remote.value != target {
      var sub := WaitRun(node, vmid, target, remote.value, Tail(s));
      WaitRunShape(node, vmid, target, remote.value, Tail(s));
      var evs := [poll] + sub.events;
      assert forall k :: 0 < k < |evs| ==> evs[k] == sub.events[k - 1];
      assert Last(evs) == Last(sub.events);
    }
  }

  /**
   * The command loop runs the commands in order in the shell "bash" until one
   * exits non-zero: every command but the last it ran exited with 0, and all
   * ran exactly when it reports success.  A non-zero exit with a nil error is
   * the nil dereference.
   */
  predicate Executes(run: Run<ExecOutcome>, vmid: int, cmds: seq<string>)
  {
    |run.events| <= |cmds| &&
    (forall k :: 0 <= k < |run.events| ==> run.events[k].call == Exec(vmid, SHELL, cmds[k])) &&
    (forall k :: 0 <= k < |run.events| - 1 ==> ExecOf(run.events[k].reply).exitCode == 0) &&
    (run.value == AllRan <==>
      |run.events| == |cmds| && forall k :: 0 <= k < |run.events| ==> ExecOf(run.events[k].reply).exitCode == 0) &&
    (run.value != AllRan ==> run.events != [] && ExecOf(Last(run.events).reply).exitCode != 0) &&
    (run.value.ExitedNonZero? ==> run.events != [] && ExecOf(Last(run.events).reply).error == Some(run.value.msg)) &&
    (run.value == NilError ==> run.events != [] && ExecOf(Last(run.events).reply).error == None)
  }

  lemma ExecutesPrepend(ev: Event, sub: Run<ExecOutcome>, vmid: int, cmds: seq<string>)
    requires cmds != [] && ev.call == Exec(vmid, SHELL, cmds[0]) && ExecOf(ev.reply).exitCode == 0
    requires Executes(sub, vmid, cmds[1..])
    ensures Executes(Extend([ev], sub), vmid, cmds)
  {
    var evs := [ev] + sub.events;
    assert forall k :: 0 < k < |evs| ==> evs[k] == sub.events[k - 1];
    if sub.events != [] {
      assert Last(evs) == Last(sub.events);
    }
  }

  lemma {:induction false} ExecsRunShape(vmid: int, cmds: seq<string>, s: seq<Reply>)
    ensures Executes(ExecsRun(vmid, cmds, s), vmid, cmds)
    decreases |cmds|
  {
    if cmds != [] {
      var ev := Step(Exec(vmid, SHELL, cmds[0]), s);
      if ExecOf(ev.reply).exitCode == 0 {
        ExecsRunShape(vmid, cmds[1..], Tail(s));
        ExecutesPrepend(ev, ExecsRun(vmid, cmds[1..], Tail(s)), vmid, cmds);
      }
    }
  }

  // -------------------------------------------------------------------------
  // Properties of the addresses.

  /** Every network has an interface of its name with an address. */
  predicate Resolved(nets: seq<NetModel>, m: map<string, Iface>)
  {
    forall i :: 0 <= i < |nets| ==> MappedIPv4(m, nets[i].name) != ""
  }

  /** The networks' names are pairwise distinct, and none is in `taken`. */
  predicate FreshNames(nets: seq<NetModel>, taken: set<string>)
  {
    (forall i :: 0 <= i < |nets| ==> nets[i].name !in taken) &&
    (forall i, j :: 0 <= i < j < |nets| ==> nets[i].name != nets[j].name)
  }

  /** The networks, each with the address of its interface. */
  function WithAddresses(nets: seq<NetModel>, m: map<string, Iface>): seq<NetModel>
  {
    seq(|nets|, i requires 0 <= i < |nets| => WithIP(nets[i], MappedIPv4(m, nets[i].name)))
  }

  lemma ResolvedSplit(nets: seq<NetModel>, m: map<string, Iface>)
    requires nets != []
    ensures Resolved(nets, m) <==> MappedIPv4(m, nets[0].name) != "" && Resolved(nets[1..], m)
  {
    assert forall i :: 0 < i < |nets| ==> nets[i] == nets[1..][i - 1];
  }

  lemma FreshSplit(nets: seq<NetModel>, taken: set<string>)
    requires nets != []
    ensures FreshNames(nets, taken) <==> nets[0].name !in taken && FreshNames(nets[1..], taken + {nets[0].name})
  {
    var rest := nets[1..];
    assert forall i :: 0 < i < |nets| ==> nets[i] == rest[i - 1];
    if nets[0].name !in taken && FreshNames(rest, taken + {nets[0].name}) {
      forall i, j | 0 <= i < j < |nets|
        ensures nets[i].name != nets[j].name
      {
        if i > 0 {
          assert nets[i] == rest[i - 1] && nets[j] == rest[j - 1];
        } else {
          assert nets[j] == rest[j - 1];
        }
      }
    }
  }

  /**
   * `computedNets` gains one entry per network added: it reaches
   * `|acc| + |nets|` entries exactly when every network has an address and a
   * name not seen before.
   */
  lemma {:induction false} CollectSize(nets: seq<NetModel>, m: map<string, Iface>, acc: map<string, NetModel>)
    ensures |Collect(nets, m, acc)| <= |acc| + |nets|
    ensures |Collect(nets, m, acc)| == |acc| + |nets| <==> Resolved(nets, m) && FreshNames(nets, acc.Keys)
    decreases |nets|
  {
    if nets != [] {
      var n := nets[0].name;
      ResolvedSplit(nets, m);
      FreshSplit(nets, acc.Keys);
      if MappedIPv4(m, n) != "" {
        var next := acc[n := WithIP(nets[0], MappedIPv4(m, n))];
        CollectSize(nets[1..], m, next);
        if n in acc {
          assert next.Keys == acc.Keys;
        } else {
          assert next.Keys == acc.Keys + {n};
        }
      }
    }
  }

  /** With fresh names, every network is found under its name with its address, and `acc` stays. */
  lemma {:induction false} CollectValues(nets: seq<NetModel>, m: map<string, Iface>, acc: map<string, NetModel>)
    requires Resolved(nets, m) && FreshNames(nets, acc.Keys)
    ensures var c := Collect(nets, m, acc);
      (forall k :: k in acc ==> k in c && c[k] == acc[k]) &&
      (forall i :: 0 <= i < |nets| ==> nets[i].name in c && c[nets[i].name] == WithIP(nets[i], MappedIPv4(m, nets[i].name)))
    decreases |nets|
  {
    if nets != [] {
      var n := nets[0].name;
      ResolvedSplit(nets, m);
      FreshSplit(nets, acc.Keys);
      var next := acc[n := WithIP(nets[0], MappedIPv4(m, n))];
      assert next.Keys == acc.Keys + {n};
      CollectValues(nets[1..], m, next);
      assert forall i :: 0 < i < |nets| ==> nets[i] == nets[1..][i - 1];
    }
  }

  /**
   * An answered attempt of `Create`'s address loop succeeds exactly when the
   * configured networks have distinct names and each has an interface with
   * an address; the networks are then, in configured order, the configured
   * ones with those addresses.
   */
  lemma RebuildMeans(nets: seq<NetModel>, ifaces: seq<Iface>)
    ensures var m := IfaceMap(ifaces);
      Rebuild(nets, ifaces) == if Resolved(nets, m) && FreshNames(nets, {}) then Some(WithAddresses(nets, m)) else None
  {
    var m := IfaceMap(ifaces);
    var empty: map<string, NetModel> := map[];
    assert empty.Keys == {};
    CollectSize(nets, m, empty);
    if Resolved(nets, m) && FreshNames(nets, {}) {
      CollectValues(nets, m, empty);
      var computed := Collect(nets, m, empty);
      var rebuilt := seq(|nets|, i requires 0 <= i < |nets| =>
        if nets[i].name in computed then computed[nets[i].name] else ZeroNet);
      assert rebuilt == WithAddresses(nets, m);
    }
  }

  /** Of the interfaces with one name, the map keeps the last, as `Read`'s search finds it. */
  lemma {:induction false} IfaceMapLastNamed(ifaces: seq<Iface>, name: string)
    ensures name in IfaceMap(ifaces) <==> exists i :: 0 <= i < |ifaces| && ifaces[i].name == name
    ensures name in IfaceMap(ifaces) ==> IfaceMap(ifaces)[name] == LastNamed(ifaces, name)
    ensures MappedIPv4(IfaceMap(ifaces), name) == LastNamed(ifaces, name).ipv4
    decreases |ifaces|
  {
    if ifaces != [] {
      var init := ifaces[..|ifaces| - 1];
      IfaceMapLastNamed(init, name);
      assert forall i :: 0 <= i < |init| ==> init[i] == ifaces[i];
      if ifaces[|ifaces| - 1].name != name && name in IfaceMap(ifaces) {
        var i :| 0 <= i < |ifaces| && ifaces[i].name == name;
        assert i < |init| && init[i].name == name;
      }
    }
  }

  /**
   * `Read`'s `computedNets` holds every configured network exactly when each
   * has an address, and then holds them in order with their addresses.
   */
  lemma {:induction false} ReadCollectMeans(nets: seq<NetModel>, ifaces: seq<Iface>)
    ensures var m := IfaceMap(ifaces);
      (|ReadCollect(nets, ifaces)| == |nets| <==> Resolved(nets, m)) &&
      (Resolved(nets, m) ==> ReadCollect(nets, ifaces) == WithAddresses(nets, m))
    decreases |nets|
  {
    var m := IfaceMap(ifaces);
    ReadCollectBounded(nets, ifaces);
    if nets != [] {
      ResolvedSplit(nets, m);
      IfaceMapLastNamed(ifaces, nets[0].name);
      ReadCollectMeans(nets[1..], ifaces);
      if Resolved(nets, m) {
        assert WithAddresses(nets, m) == [WithIP(nets[0], MappedIPv4(m, nets[0].name))] + WithAddresses(nets[1..], m);
      }
    }
  }

  /**
   * The attempt as intended succeeds exactly when every configured network
   * has an interface with an address, and then writes the configured
   * networks, in order, with those addresses.
   */
  lemma ReadFixedMeans(nets: seq<NetModel>, ifaces: seq<Iface>)
    ensures var m := IfaceMap(ifaces);
      ReadAttemptFixed(nets, ifaces) == if Resolved(nets, m) then Rebuilt(WithAddresses(nets, m)) else Incomplete
  {
    ReadCollectMeans(nets, ifaces);
  }

  /**
   * As written, an answered attempt never rebuilds configured networks: it
   * reports the addresses incomplete exactly when the first network has
   * one, and indexes past `computedNets` otherwise.
   */
  lemma ReadAttemptAsWritten(nets: seq<NetModel>, ifaces: seq<Iface>)
    requires nets != []
    ensures ReadAttempt(nets, ifaces) == if MappedIPv4(IfaceMap(ifaces), nets[0].name) != "" then Incomplete else OutOfRange
  {
    IfaceMapLastNamed(ifaces, nets[0].name);
  }

  /** So a running container whose every network has an address is reported incomplete. */
  lemma ReadRejectsResolved(nets: seq<NetModel>, ifaces: seq<Iface>)
    requires nets != [] && Resolved(nets, IfaceMap(ifaces))
    ensures ReadAttempt(nets, ifaces) == Incomplete
    ensures ReadAttemptFixed(nets, ifaces) == Rebuilt(WithAddresses(nets, IfaceMap(ifaces)))
  {
    ReadAttemptAsWritten(nets, ifaces);
    ReadFixedMeans(nets, ifaces);
  }

  lemma {:induction false} AsWrittenLoopKeeps(node: string, vmid: int, nets: seq<NetModel>, current: seq<NetModel>, i: int, s: seq<Reply>)
    requires nets != []
    ensures var run := ReadAddressLoop(node, vmid, nets, current, i, s, ReadAttempt);
      run.value.Rebuilt? ==> run.value.nets == current
    decreases IP_RETRIES - i
  {
    if i < IP_RETRIES {
      AsWrittenLoopKeeps(node, vmid, nets, current, i + 1, Tail(s));
    }
  }

  /**
   * As written, `Read` of a running container with networks never writes
   * addresses it computed: when it writes the state, the networks are the
   * ones it read.
   */
  lemma ReadKeepsNetworks(data: NodeModel, s: seq<Reply>)
    requires data.networks != []
    ensures var run := NodeReadRun(data, s);
      run.value.Response? && run.value.state.Written? ==> run.value.state.model.networks == data.networks
  {
    AsWrittenLoopKeeps(Quoted(data.node), ValueOr(data.vmid, 0), data.networks, data.networks, 0, Tail(s));
  }

  // -------------------------------------------------------------------------
  // Create as a whole.

  /** The calls `Create` makes after the creation itself. */
  const AFTER_CREATE: set<Kind> := {StatusPolls, Transitions, IfaceQueries, OtherCalls}

  lemma WaitedKinds(run: Run<Waited>, node: string, vmid: int, target: string)
    requires WaitedFor(run, node, vmid, target)
    ensures KindsWithin(run.events, {StatusPolls})
  {
    assert forall k :: 0 <= k < |run.events| ==> run.events[k].call == GetStatus(node, vmid);
  }

  lemma ExecPhaseKinds(data: NodeModel, desired: string, vmid: int, s: seq<Reply>)
    ensures KindsWithin(ExecPhaseRun(data, desired, vmid, s).events, {StatusPolls, OtherCalls})
  {
    var e := ExecsRun(vmid, data.cmds, s);
    ExecsRunShape(vmid, data.cmds, s);
    assert forall k :: 0 <= k < |e.events| ==> e.events[k].call == Exec(vmid, SHELL, data.cmds[k]);
    ExecCallKinds(e.events);
    if e.value == AllRan && desired == STATUS_STOPPED {
      var w := WaitRun(data.node, vmid, STATUS_STOPPED, data.status, e.rest);
      WaitRunShape(data.node, vmid, STATUS_STOPPED, data.status, e.rest);
      WaitedKinds(w, data.node, vmid, STATUS_STOPPED);
      KindsWithinConcat(e.events, w.events, {StatusPolls, OtherCalls});
    }
  }

  lemma CommandPhaseKinds(data: NodeModel, vmid: int, s: seq<Reply>)
    ensures KindsWithin(CommandPhaseRun(data, vmid, s).events, {StatusPolls, OtherCalls})
  {
    if data.cmds != [] {
      if data.status == STATUS_STOPPED {
        var w := WaitRun(data.node, vmid, STATUS_RUNNING, data.status, s);
        WaitRunShape(data.node, vmid, STATUS_RUNNING, data.status, s);
        WaitedKinds(w, data.node, vmid, STATUS_RUNNING);
        if w.value.err.Pass? {
          ExecPhaseKinds(data.(status := STATUS_RUNNING), STATUS_STOPPED, vmid, w.rest);
          KindsWithinConcat(w.events, ExecPhaseRun(data.(status := STATUS_RUNNING), STATUS_STOPPED, vmid, w.rest).events, {StatusPolls, OtherCalls});
        }
      } else {
        ExecPhaseKinds(data, data.status, vmid, s);
      }
    }
  }

  lemma AddressPhaseKinds(data: NodeModel, vmid: int, s: seq<Reply>)
    ensures KindsWithin(AddressPhaseRun(data, vmid, s).events, AFTER_CREATE)
  {
    if data.status != STATUS_RUNNING {
      CommandPhaseKinds(data, vmid, s);
    } else {
      var a := AddressLoop(data.node, vmid, data.networks, data.networks, 0, s);
      AddressLoopShape(data.node, vmid, data.networks, data.networks, 0, s);
      IfaceCallKinds(a.events, data.node, vmid);
      if a.value.Ok? {
        CommandPhaseKinds(data.(networks := a.value.value), vmid, a.rest);
        KindsWithinConcat(a.events, CommandPhaseRun(data.(networks := a.value.value), vmid, a.rest).events, AFTER_CREATE);
      }
    }
  }

  lemma ExecCallKinds(evs: seq<Event>)
    requires forall k :: 0 <= k < |evs| ==> evs[k].call.Exec?
    ensures KindsWithin(evs, {StatusPolls, OtherCalls})
  {
  }

  lemma IfaceCallKinds(evs: seq<Event>, node: string, vmid: int)
    requires forall k :: 0 <= k < |evs| ==> evs[k].call == GetInterfaces(node, vmid)
    ensures KindsWithin(evs, AFTER_CREATE)
  {
  }

  lemma ConvergedKinds(data: NodeModel, vmid: int, s: seq<Reply>)
    ensures KindsWithin(ConvergedRun(data, vmid, s).events, AFTER_CREATE)
  {
    var conv := ConvergeRun(data.node, vmid, data.status, s);
    ConvergeShape(data.node, vmid, data.status, s);
    StatusCallsKinds(conv.events, data.node, vmid);
    if conv.value.Pass? {
      AddressPhaseKinds(data, vmid, conv.rest);
      KindsWithinConcat(conv.events, AddressPhaseRun(data, vmid, conv.rest).events, AFTER_CREATE);
    }
  }

  /** After the id is settled: the creation, then calls other than creations. */
  lemma CreatedKinds(plan: NodeModel, vmid: int, s: seq<Reply>)
    ensures var run := NodeCreateWithIdRun(plan, vmid, s);
      KindsWithin(run.events, AFTER_CREATE + {Creations}) && Count(run.events, Creations) == 1
  {
    var c := Step(Call.Create(NodeRequestOf(plan, vmid)), s);
    var created := CreatedOf(c.reply);
    CountOne(c, Creations);
    var after: seq<Event> := [];
    if created.Ok? {
      after := ConvergedRun(plan.(vmid := Some(created.value)), vmid, Tail(s)).events;
      ConvergedKinds(plan.(vmid := Some(created.value)), vmid, Tail(s));
    }
    assert NodeCreateWithIdRun(plan, vmid, s).events == [c] + after;
    KindsWithinWider(after, AFTER_CREATE, AFTER_CREATE + {Creations});
    KindsWithinConcat([c], after, AFTER_CREATE + {Creations});
    KindsWithinCount(after, AFTER_CREATE, Creations);
    CountConcat([c], after, Creations);
  }

  /**
   * `Create` creates the container at most once and never deletes it: no
   * failure after the creation is rolled back, and every other call is a
   * status query, a transition, an interface query, an id allocation or a
   * command.
   */
  lemma NodeCreateKinds(plan: NodeModel, s: seq<Reply>)
    ensures var run := NodeCreateRun(plan, s);
      KindsWithin(run.events, AFTER_CREATE + {Creations}) &&
      Count(run.events, Creations) <= 1 && Count(run.events, Deletes) == 0
  {
    var run := NodeCreateRun(plan, s);
    var id := GetVMIDRun(plan.vmid, s);
    assert KindsWithin(id.events, AFTER_CREATE + {Creations});
    KindsWithinCount(id.events, AFTER_CREATE, Creations);
    if id.value.Ok? {
      var rest := NodeCreateWithIdRun(plan, id.value.value, id.rest);
      CreatedKinds(plan, id.value.value, id.rest);
      KindsWithinConcat(id.events, rest.events, AFTER_CREATE + {Creations});
      CountConcat(id.events, rest.events, Creations);
    }
    KindsWithinCount(run.events, AFTER_CREATE + {Creations}, Deletes);
  }

  /** A written state differs from `data` at most in its networks and status. */
  predicate KeepsConfig(r: Response<NodeModel>, data: NodeModel)
  {
    r.Response? && r.state.Written? ==>
      r.state.model == data.(networks := r.state.model.networks, status := r.state.model.status)
  }

  lemma ExecPhaseKeeps(data: NodeModel, desired: string, vmid: int, s: seq<Reply>)
    ensures KeepsConfig(ExecPhaseRun(data, desired, vmid, s).value, data)
  {
  }

  lemma CommandPhaseKeeps(data: NodeModel, vmid: int, s: seq<Reply>)
    ensures KeepsConfig(CommandPhaseRun(data, vmid, s).value, data)
  {
    if data.cmds != [] && data.status == STATUS_STOPPED {
      var w := WaitRun(data.node, vmid, STATUS_RUNNING, data.status, s);
      if w.value.err.Pass? {
        ExecPhaseKeeps(data.(status := STATUS_RUNNING), STATUS_STOPPED, vmid, w.rest);
      }
    } else if data.cmds != [] {
      ExecPhaseKeeps(data, data.status, vmid, s);
    }
  }

  /**
   * `Create` writes the state only once the status loop saw the container
   * in the configured status, and what it writes is the plan with the id
   * the cluster returned, the networks it started from or rebuilt from an
   * answered query, and a status.
   */
  lemma NodeCreatedWrites(plan: NodeModel, vmid: int, s: seq<Reply>)
    ensures var run := NodeCreateWithIdRun(plan, vmid, s);
      run.value.Response? && run.value.state.Written? ==>
        var created := CreatedOf(Head(s));
        var data := plan.(vmid := Some(created.value));
        var conv := ConvergeRun(plan.node, vmid, plan.status, Tail(s));
        created.Ok? && run.events[0] == Step(Call.Create(NodeRequestOf(plan, vmid)), s) &&
        conv.value == Pass && Last(conv.events) == Event(GetStatus(plan.node, vmid), StatusIs(plan.status)) &&
        run.events[1..|conv.events| + 1] == conv.events &&
        KeepsConfig(run.value, data)
  {
    var run := NodeCreateWithIdRun(plan, vmid, s);
    var created := CreatedOf(Head(s));
    if created.Ok? {
      var data := plan.(vmid := Some(created.value));
      var conv := ConvergeRun(plan.node, vmid, plan.status, Tail(s));
      ConvergeShape(plan.node, vmid, plan.status, Tail(s));
      if conv.value.Pass? {
        var a := AddressPhaseRun(data, vmid, conv.rest);
        assert run.events == [run.events[0]] + conv.events + a.events;
        assert run.events[1..|conv.events| + 1] == conv.events;
        if data.status != STATUS_RUNNING {
          CommandPhaseKeeps(data, vmid, conv.rest);
        } else {
          var al := AddressLoop(data.node, vmid, data.networks, data.networks, 0, conv.rest);
          if al.value.Ok? {
            CommandPhaseKeeps(data.(networks := al.value.value), vmid, al.rest);
          }
        }
      }
    }
  }

  // -------------------------------------------------------------------------
  // Properties of Read, Update and Delete.

  /** When no listed container has the id, `Read` finds the status "", which it reports as not found. */
  lemma {:induction false} FirstStatusAbsent(entries: seq<LxcEntry>, vmid: int)
    requires forall i :: 0 <= i < |entries| ==> entries[i].vmid != vmid
    ensures FirstStatus(entries, vmid) == ""
    decreases |entries|
  {
    if entries != [] {
      assert entries[0].vmid != vmid;
      assert forall i :: 0 <= i < |entries| - 1 ==> entries[1..][i] == entries[i + 1];
      FirstStatusAbsent(entries[1..], vmid);
    }
  }

  /** `Read` takes the status of the first listed container with the id. */
  lemma {:induction false} FirstStatusFirst(entries: seq<LxcEntry>, vmid: int, i: nat)
    requires i < |entries| && entries[i].vmid == vmid
    requires forall j :: 0 <= j < i ==> entries[j].vmid != vmid
    ensures FirstStatus(entries, vmid) == entries[i].status
    decreases i
  {
    if i > 0 {
      assert entries[0].vmid != vmid;
      assert forall j :: 0 <= j < i - 1 ==> entries[1..][j] == entries[j + 1];
      FirstStatusFirst(entries[1..], vmid, i - 1);
    }
  }

  /**
   * `Update`'s poll loop: status queries of the container only, every one
   * but the last answered with the old status `current`; it succeeds exactly
   * when the last one reads another status.
   */
  predicate Left(run: Run<Outcome>, node: string, vmid: int, current: string)
  {
    run.events != [] &&
    (forall k :: 0 <= k < |run.events| ==> run.events[k].call == GetStatus(node, vmid)) &&
    (forall k :: 0 <= k < |run.events| - 1 ==> run.events[k].reply == StatusIs(current)) &&
    (run.value == Pass <==> Last(run.events).reply.StatusIs? && Last(run.events).reply.status != current) &&
    (run.value.Fail? ==> StatusOf(Last(run.events).reply) == Err(run.value.msg))
  }

  lemma {:induction false} LeaveRunShape(node: string, vmid: int, current: string, s: seq<Reply>)
    ensures Left(LeaveRun(node, vmid, current, s), node, vmid, current)
    decreases |s|
  {
    var poll := Step(GetStatus(node, vmid), s);
    var remote := StatusOf(poll.reply);
    if remote.Ok? && remote.value == current {
      var sub := LeaveRun(node, vmid, current, Tail(s));
      LeaveRunShape(node, vmid, current, Tail(s));
      var evs := [poll] + sub.events;
      assert forall k :: 0 < k < |evs| ==> evs[k] == sub.events[k - 1];
      assert Last(evs) == Last(sub.events);
    }
  }

  /** Only status queries: no transition. */
  lemma PollsOnly(evs: seq<Event>, node: string, vmid: int)
    requires forall k :: 0 <= k < |evs| ==> evs[k].call == GetStatus(node, vmid)
    ensures Count(evs, Transitions) == 0 && Count(evs, Deletes) == 0
  {
    assert KindsWithin(evs, {StatusPolls});
    KindsWithinCount(evs, {StatusPolls}, Transitions);
    KindsWithinCount(evs, {StatusPolls}, Deletes);
  }

  /** The transition `Update` issues: Start from "stopped", a forced Stop from "running", none otherwise. */
  lemma ToggleShape(node: string, vmid: int, current: string, s: seq<Reply>)
    ensures var t := Toggle(node, vmid, current, s);
      Count(t.events, Transitions) == |t.events| == (if current in {STATUS_STOPPED, STATUS_RUNNING} then 1 else 0) &&
      (current == STATUS_STOPPED ==> t.events[0].call == Start(node, vmid)) &&
      (current == STATUS_RUNNING ==> t.events[0].call == Stop(node, vmid, true))
  {
    var t := Toggle(node, vmid, current, s);
    if t.events != [] {
      CountOne(t.events[0], Transitions);
    }
  }

  /**
   * `Update` writes the plan with the id of the prior state.  When the
   * configured status is unchanged it calls nothing; otherwise its first call
   * is the transition chosen by the old status (Start from "stopped", a
   * forced Stop from "running", none from any other status), followed only
   * by status queries; it writes the state exactly when the last query read
   * a status other than the old one.
   */
  lemma NodeUpdateShape(plan: NodeModel, state: NodeModel, s: seq<Reply>)
    ensures var run := NodeUpdateRun(plan, state, s);
      var vmid := ValueOr(state.vmid, 0);
      (plan.status == state.status ==> run.events == [] && run.value == Response([], Written(plan.(vmid := Some(vmid))))) &&
      (plan.status != state.status ==>
         run.events != [] &&
         Count(run.events, Transitions) == (if state.status in {STATUS_STOPPED, STATUS_RUNNING} then 1 else 0) &&
         (state.status == STATUS_STOPPED ==> run.events[0].call == Start(state.node, vmid)) &&
         (state.status == STATUS_RUNNING ==> run.events[0].call == Stop(state.node, vmid, true)) &&
         (run.value.Response? && run.value.state.Written? <==>
            Last(run.events).reply.StatusIs? && Last(run.events).reply.status != state.status) &&
         (run.value.Response? && run.value.state.Written? ==> run.value.state.model == plan.(vmid := Some(vmid))))
  {
    var vmid := ValueOr(state.vmid, 0);
    if plan.status != state.status {
      var t := Toggle(state.node, vmid, state.status, s);
      var w := LeaveRun(state.node, vmid, state.status, t.rest);
      ToggleShape(state.node, vmid, state.status, s);
      LeaveRunShape(state.node, vmid, state.status, t.rest);
      PollsOnly(w.events, state.node, vmid);
      CountConcat(t.events, w.events, Transitions);
      assert Last(t.events + w.events) == Last(w.events);
      assert NodeUpdateRun(plan, state, s).events == t.events + w.events;
    }
  }

  /**
   * `Delete` stops the container only when its first poll read "running",
   * and without forcing; it deletes at most once, right after a poll that
   * read "stopped"; the resource leaves the state only after the id was
   * reported free, and otherwise stays with one error.
   */
  predicate NodeDeleted(run: Run<Response<NodeModel>>, node: string, vmid: int)
  {
    run.events != [] && run.events[0].call == GetStatus(node, vmid) &&
    Count(run.events, Transitions) <= 1 &&
    (Count(run.events, Transitions) == 1 ==>
       |run.events| > 1 && run.events[0].reply == StatusIs(STATUS_RUNNING) && run.events[1].call == Stop(node, vmid, false)) &&
    Removal(run, node, vmid)
  }

  /** At most one Delete, justified; removed only once the id is free, otherwise one error. */
  predicate Removal(run: Run<Response<NodeModel>>, node: string, vmid: int)
  {
    Count(run.events, Deletes) <= 1 && DeletesJustified(run.events, node, vmid) &&
    (run.value == Response([], Removed) || (run.value.Response? && run.value.state == Unchanged && |run.value.diags| == 1)) &&
    (run.value == Response([], Removed) ==> run.events != [] && Count(run.events, Deletes) == 1 && Last(run.events).reply == Available(true))
  }

  /** The removal issues no transition and starts with a status query. */
  predicate Removes(run: Run<Response<NodeModel>>, node: string, vmid: int)
  {
    run.events != [] && run.events[0].call == GetStatus(node, vmid) &&
    Count(run.events, Transitions) == 0 && Removal(run, node, vmid)
  }

  lemma WaitStoppedQuiet(node: string, vmid: int, s: seq<Reply>)
    ensures var w := WaitStopped(node, vmid, s);
      StopWait(w, node, vmid) && Count(w.events, Transitions) == 0 && NoDeletes(w.events)
  {
    var w := WaitStopped(node, vmid, s);
    WaitStoppedShape(node, vmid, s);
    PollsOnly(w.events, node, vmid);
    CountZero(w.events, Deletes);
  }

  lemma WaitFreeQuiet(vmid: int, s: seq<Reply>)
    ensures var f := WaitFree(vmid, s);
      FreeWait(f, vmid) && Count(f.events, Transitions) == 0 && NoDeletes(f.events)
  {
    var f := WaitFree(vmid, s);
    WaitFreeShape(vmid, s);
    assert KindsWithin(f.events, {OtherCalls});
    KindsWithinCount(f.events, {OtherCalls}, Transitions);
    KindsWithinCount(f.events, {OtherCalls}, Deletes);
    CountZero(f.events, Deletes);
  }

  lemma DeleteNone(evs: seq<Event>, node: string, vmid: int)
    requires NoDeletes(evs)
    ensures Count(evs, Deletes) == 0 && DeletesJustified(evs, node, vmid)
  {
    CountNone(evs, Deletes);
  }

  /** The Delete and what follows it, once the container was seen stopped. */
  lemma DeletedAfterWait(node: string, vmid: int, w: Run<Outcome>, s: seq<Reply>)
    requires StopWait(w, node, vmid) && w.value == Pass && Count(w.events, Transitions) == 0 && NoDeletes(w.events)
    requires s == w.rest
    ensures var d := Step(Call.Delete(node, vmid), s);
      var post := if AckOf(d.reply).Fail? then [] else WaitFree(vmid, Tail(s)).events;
      Count(w.events + [d] + post, Transitions) == 0 &&
      Count(w.events + [d] + post, Deletes) == 1 && DeletesJustified(w.events + [d] + post, node, vmid) &&
      (AckOf(d.reply).Pass? ==>
         Last(w.events + [d] + post) == Last(post) &&
         (WaitFree(vmid, Tail(s)).value == Pass <==> Last(post).reply == Available(true)))
  {
    var d := Step(Call.Delete(node, vmid), s);
    var post: seq<Event> := [];
    if AckOf(d.reply).Pass? {
      WaitFreeQuiet(vmid, Tail(s));
      post := WaitFree(vmid, Tail(s)).events;
      assert Last(w.events + [d] + post) == Last(post);
    }
    DeleteBetween(w.events, d, post, node, vmid);
    CountOne(d, Transitions);
    CountConcat(w.events, [d], Transitions);
    CountConcat(w.events + [d], post, Transitions);
  }

  lemma RemoveAfterStopped(node: string, vmid: int, s: seq<Reply>)
    requires WaitStopped(node, vmid, s).value == Pass
    ensures Removes(RemoveRun(node, vmid, s), node, vmid)
  {
    var w := WaitStopped(node, vmid, s);
    WaitStoppedQuiet(node, vmid, s);
    DeletedAfterWait(node, vmid, w, w.rest);
    var d := Step(Call.Delete(node, vmid), w.rest);
    var post := if AckOf(d.reply).Fail? then [] else WaitFree(vmid, Tail(w.rest)).events;
    assert RemoveRun(node, vmid, s).events == w.events + [d] + post;
    assert RemoveRun(node, vmid, s).events[0] == w.events[0];
  }

  lemma RemoveShape(node: string, vmid: int, s: seq<Reply>)
    ensures Removes(RemoveRun(node, vmid, s), node, vmid)
  {
    var w := WaitStopped(node, vmid, s);
    if w.value.Pass? {
      RemoveAfterStopped(node, vmid, s);
    } else {
      WaitStoppedQuiet(node, vmid, s);
      DeleteNone(w.events, node, vmid);
    }
  }

  lemma PrependRemoval(pre: seq<Event>, r: Run<Response<NodeModel>>, node: string, vmid: int)
    requires Removes(r, node, vmid) && NoDeletes(pre)
    ensures Count(pre + r.events, Deletes) == Count(r.events, Deletes)
    ensures Count(pre + r.events, Transitions) == Count(pre, Transitions)
    ensures DeletesJustified(pre + r.events, node, vmid)
    ensures Last(pre + r.events) == Last(r.events)
  {
    var evs := pre + r.events;
    DeleteNone(pre, node, vmid);
    CountConcat(pre, r.events, Deletes);
    CountConcat(pre, r.events, Transitions);
    assert forall k :: 0 <= k < |pre| ==> evs[k] == pre[k];
    assert forall k :: |pre| <= k < |evs| ==> evs[k] == r.events[k - |pre|];
    forall i | 0 <= i < |evs| && IsKind(evs[i], Deletes)
      ensures i > 0 && evs[i - 1] == Event(GetStatus(node, vmid), StatusIs(STATUS_STOPPED)) && evs[i].call == Call.Delete(node, vmid)
    {
      var j := i - |pre|;
      assert evs[i] == r.events[j];
      assert evs[i - 1] == r.events[j - 1];
    }
  }

  /** The first poll, and the Stop when it read "running". */
  lemma HaltShape(node: string, vmid: int, first: Event, remote: string, s: seq<Reply>)
    requires first == Event(GetStatus(node, vmid), StatusIs(remote))
    ensures var h := Halt(node, vmid, remote, s);
      var pre := [first] + h.events;
      NoDeletes(pre) && Count(pre, Transitions) == |h.events| <= 1 &&
      (h.events != [] ==> remote == STATUS_RUNNING && h.events[0].call == Stop(node, vmid, false))
  {
    var h := Halt(node, vmid, remote, s);
    CountOne(first, Transitions);
    CountConcat([first], h.events, Transitions);
    if h.events != [] {
      CountOne(h.events[0], Transitions);
    }
  }

  /** `Delete` once the first poll read `remote`. */
  lemma DeleteAfterPoll(node: string, vmid: int, first: Event, remote: string, s: seq<Reply>)
    requires first == Event(GetStatus(node, vmid), StatusIs(remote))
    ensures var h := Halt(node, vmid, remote, s);
      var run := if h.value.Fail? then Run(Response([ClientError(DELETE_NODE_FAILED + h.value.msg)], Unchanged), h.rest, [first] + h.events)
                 else Extend([first] + h.events, RemoveRun(node, vmid, h.rest));
      NodeDeleted(run, node, vmid)
  {
    var h := Halt(node, vmid, remote, s);
    var pre := [first] + h.events;
    HaltShape(node, vmid, first, remote, s);
    if h.value.Fail? {
      DeleteNone(pre, node, vmid);
    } else {
      var r := RemoveRun(node, vmid, h.rest);
      RemoveShape(node, vmid, h.rest);
      PrependRemoval(pre, r, node, vmid);
    }
  }

  lemma NodeDeleteShape(data: NodeModel, s: seq<Reply>)
    ensures NodeDeleted(NodeDeleteRun(data, s), data.node, ValueOr(data.vmid, 0))
  {
    var vmid := ValueOr(data.vmid, 0);
    var first := Step(GetStatus(data.node, vmid), s);
    var remote := StatusOf(first.reply);
    if remote.Err? {
      CountOne(first, Transitions);
      DeleteNone([first], data.node, vmid);
    } else {
      DeleteAfterPoll(data.node, vmid, first, remote.value, Tail(s));
    }
  }
}
