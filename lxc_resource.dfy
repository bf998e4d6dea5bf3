/**
 * The `proxmox_lxc` resource (`LXCResource` of `lxc/lxc_resource.go`):
 * creating, reading, updating and deleting a container on top of the
 * helpers of `lxc/helpers.go`.
 *
 * Each operation is a method against the scripted cluster, specified by a
 * function that gives the response it builds, the replies it consumes and
 * the calls it issues.  The lemmas state what the provider promises across
 * a whole operation: a container whose provisioning fails is rolled back
 * with exactly one guarded Delete, addresses are only resolved for a
 * running container, and an update rewrites the interfaces of a stopped
 * container only.
 */
module LxcResource {
  import opened Gateway
  import opened Plugin
  import opened Decimal
  import opened LxcNet
  import opened LxcStatus
  import opened LxcNetIPs
  import opened LxcCommands
  import opened LxcDelete
  import opened Compensation

  /**
   * `LXCResourceModel`.  Optional attributes are `None` when null; the root
   * file system block is not read by any operation and is left out.
   */
  datatype LxcModel = LxcModel(
    node: string, osTemplate: string, vmid: Option<int>, features: Features,
    hostname: Option<string>, nameserver: Option<string>, networks: seq<NetModel>,
    onBoot: Option<bool>, password: Option<string>, sshPublicKeys: seq<string>,
    unprivileged: Option<bool>, status: string, cmds: seq<string>)

  const CREATE_FAILED := "Unable to create node lxc, got error: "
  const START_FAILED := "Unable to start node lxc, got error: "
  const CMDS_FAILED := "Failed to run commands inside lxc , got error: "
  const RESTORE_FAILED := "Unable to update node lxc status, got error: "
  const READ_FAILED := "Unable to read node lxc, got error: "
  const READ_IPS_FAILED := "Unable to read lxc ifaces ips, got error: "
  const STOP_FAILED := "Unable to stop lxc, got error: "
  const UPDATE_NETS_FAILED := "Unable to update lxc interfaces, got error: "
  const UPDATE_STATUS_FAILED := "Unable to update lxc status, got error: "
  const DELETE_NODE_FAILED := "Unable to delete node lxc, got error: "

  /** The error Read reports when the cluster has no such container. */
  function NotFound(vmid: int, node: string): string
  {
    "LXC " + FormatInt(vmid) + " not found in node " + node +
    ", maybe it was deleted. Try removing it manually from the state"
  }

  /** The create request built from the plan for the container `vmid`. */
  function CreateRequestOf(plan: LxcModel, vmid: int): CreateRequest
  {
    CreateRequest(
      plan.node, plan.osTemplate, vmid, ValueOr(plan.hostname, ""),
      ValueOr(plan.password, ""), JoinKeys(plan.sshPublicKeys),
      ValueOr(plan.unprivileged, false), ValueOr(plan.onBoot, false),
      ValueOr(plan.nameserver, ""), plan.features, PveNets(plan.networks))
  }

  // -------------------------------------------------------------------------
  // Create.

  /** The commands stage: start, run the commands, bring back the configured status. */
  function CommandsStage(data: LxcModel, vmid: int, s: seq<Reply>): Run<Response<LxcModel>>
  {
    if data.cmds == [] then Run(Response([], Written(data)), s, [])
    else
      var up := UpdateStatusRun(data.node, vmid, STATUS_RUNNING, s);
      if up.value.Fail? then Extend(up.events, RollbackRun(data, data.node, vmid, START_FAILED + up.value.msg, up.rest))
      else
        var c := CommandsRun(vmid, data.cmds, up.rest);
        Extend(up.events, Extend(c.events, AfterCommands(data, vmid, c)))
  }

  /** What follows the commands `c`: a rollback if one failed, else the configured status. */
  function AfterCommands(data: LxcModel, vmid: int, c: Run<Outcome>): Run<Response<LxcModel>>
  {
    if c.value.Fail? then RollbackRun(data, data.node, vmid, CMDS_FAILED + c.value.msg, c.rest)
    else
      var back := UpdateStatusRun(data.node, vmid, data.status, c.rest);
      if back.value.Fail? then Extend(back.events, RollbackRun(data, data.node, vmid, RESTORE_FAILED + back.value.msg, back.rest))
      else Run(Response([], Written(data)), back.rest, back.events)
  }

  /** The address stage: only a container configured "running" has its addresses resolved. */
  function AddressStage(data: LxcModel, vmid: int, s: seq<Reply>): Run<Response<LxcModel>>
  {
    if data.status != STATUS_RUNNING then CommandsStage(data, vmid, s)
    else
      var ips := NetIPsRun(data.node, vmid, data.networks, s);
      if ips.value.Err? then Extend(ips.events, RollbackRun(data, data.node, vmid, CREATE_FAILED + ips.value.msg, ips.rest))
      else Extend(ips.events, CommandsStage(data.(networks := ips.value.value), vmid, ips.rest))
  }

  /** Everything after the container exists: status, addresses, commands. */
  function ProvisionRun(data: LxcModel, vmid: int, s: seq<Reply>): Run<Response<LxcModel>>
  {
    var st := UpdateStatusRun(data.node, vmid, data.status, s);
    if st.value.Fail? then Extend(st.events, RollbackRun(data, data.node, vmid, CREATE_FAILED + st.value.msg, st.rest))
    else Extend(st.events, AddressStage(data, vmid, st.rest))
  }

  /** `Create`: obtain an id, create the container, then provision it. */
  function CreateRun(plan: LxcModel, s: seq<Reply>): Run<Response<LxcModel>>
  {
    var id := GetVMIDRun(plan.vmid, s);
    if id.value.Err? then
      Run(Response([ClientError(CREATE_FAILED + id.value.msg)], Unchanged), id.rest, id.events)
    else Extend(id.events, CreateWithIdRun(plan, id.value.value, id.rest))
  }

  /** The creation request for the container `vmid`, then its provisioning. */
  function CreateWithIdRun(plan: LxcModel, vmid: int, s: seq<Reply>): Run<Response<LxcModel>>
  {
    var c := Step(Call.Create(CreateRequestOf(plan, vmid)), s);
    if CreatedOf(c.reply).Err? then
      Run(Response([ClientError(CREATE_FAILED + CreatedOf(c.reply).msg)], Unchanged), Tail(s), [c])
    else Extend([c], ProvisionRun(plan.(vmid := Some(vmid)), vmid, Tail(s)))
  }

  method Create(gw: Cluster, plan: LxcModel) returns (resp: Response<LxcModel>)
    modifies gw
    ensures var run := CreateRun(plan, old(gw.script));
      resp == run.value && gw.script == run.rest && gw.trace == old(gw.trace) + run.events
  {
    ghost var idRun := GetVMIDRun(plan.vmid, gw.script);
    var id := GetVMID(gw, plan.vmid);
    if id.Err? {
      return Response([ClientError(CREATE_FAILED + id.msg)], Unchanged);
    }
    resp := CreateWithId(gw, plan, id.value);
    AppendAssoc(old(gw.trace), idRun.events, CreateWithIdRun(plan, id.value, idRun.rest).events);
  }

  method CreateWithId(gw: Cluster, plan: LxcModel, vmid: int) returns (resp: Response<LxcModel>)
    modifies gw
    ensures var run := CreateWithIdRun(plan, vmid, old(gw.script));
      resp == run.value && gw.script == run.rest && gw.trace == old(gw.trace) + run.events
  {
    var ssh := FormatSSHPublicKey(plan.sshPublicKeys);
    var nets := NewPVELXCNets(plan.networks);
    var req := CreateRequest(
      plan.node, plan.osTemplate, vmid, ValueOr(plan.hostname, ""),
      ValueOr(plan.password, ""), ssh, ValueOr(plan.unprivileged, false),
      ValueOr(plan.onBoot, false), ValueOr(plan.nameserver, ""), plan.features, nets);
    assert req == CreateRequestOf(plan, vmid);
    var r := gw.Send(Call.Create(req));
    var created := CreatedOf(r);
    if created.Err? {
      return Response([ClientError(CREATE_FAILED + created.msg)], Unchanged);
    }
    var data := plan.(vmid := Some(vmid));
    ghost var p := ProvisionRun(data, vmid, gw.script);
    resp := Provision(gw, data, vmid);
    AppendAssoc(old(gw.trace), [Event(Call.Create(req), r)], p.events);
  }

  /** The provisioning stages, in order; a failing stage rolls the container back. */
  method Provision(gw: Cluster, data: LxcModel, vmid: int) returns (resp: Response<LxcModel>)
    modifies gw
    ensures var run := ProvisionRun(data, vmid, old(gw.script));
      resp == run.value && gw.script == run.rest && gw.trace == old(gw.trace) + run.events
  {
    ghost var st := UpdateStatusRun(data.node, vmid, data.status, gw.script);
    var err := UpdateLXCStatus(gw, data.node, vmid, data.status);
    if err.Fail? {
      resp := Rollback(gw, data, data.node, vmid, CREATE_FAILED + err.msg);
      AppendAssoc(old(gw.trace), st.events, RollbackRun(data, data.node, vmid, CREATE_FAILED + err.msg, st.rest).events);
      return;
    }
    resp := ResolveAddresses(gw, data, vmid);
    AppendAssoc(old(gw.trace), st.events, AddressStage(data, vmid, st.rest).events);
  }

  method ResolveAddresses(gw: Cluster, data: LxcModel, vmid: int) returns (resp: Response<LxcModel>)
    modifies gw
    ensures var run := AddressStage(data, vmid, old(gw.script));
      resp == run.value && gw.script == run.rest && gw.trace == old(gw.trace) + run.events
  {
    if data.status != STATUS_RUNNING {
      resp := RunCommandsStage(gw, data, vmid);
      return;
    }
    ghost var ips := NetIPsRun(data.node, vmid, data.networks, gw.script);
    var computed := ComputeLXCNetIPs(gw, data.node, vmid, data.networks);
    if computed.Err? {
      resp := Rollback(gw, data, data.node, vmid, CREATE_FAILED + computed.msg);
      AppendAssoc(old(gw.trace), ips.events, RollbackRun(data, data.node, vmid, CREATE_FAILED + computed.msg, ips.rest).events);
      return;
    }
    var next := data.(networks := computed.value);
    resp := RunCommandsStage(gw, next, vmid);
    AppendAssoc(old(gw.trace), ips.events, CommandsStage(next, vmid, ips.rest).events);
  }

  method RunCommandsStage(gw: Cluster, data: LxcModel, vmid: int) returns (resp: Response<LxcModel>)
    modifies gw
    ensures var run := CommandsStage(data, vmid, old(gw.script));
      resp == run.value && gw.script == run.rest && gw.trace == old(gw.trace) + run.events
  {
    if |data.cmds| == 0 {
      return Response([], Written(data));
    }
    ghost var up := UpdateStatusRun(data.node, vmid, STATUS_RUNNING, gw.script);
    var err := UpdateLXCStatus(gw, data.node, vmid, STATUS_RUNNING);
    if err.Fail? {
      resp := Rollback(gw, data, data.node, vmid, START_FAILED + err.msg);
      AppendAssoc(old(gw.trace), up.events, RollbackRun(data, data.node, vmid, START_FAILED + err.msg, up.rest).events);
      return;
    }
    ghost var c := CommandsRun(vmid, data.cmds, gw.script);
    err := RunLXCCommands(gw, vmid, data.cmds);
    if err.Fail? {
      ghost var rb := RollbackRun(data, data.node, vmid, CMDS_FAILED + err.msg, c.rest);
      resp := Rollback(gw, data, data.node, vmid, CMDS_FAILED + err.msg);
      AppendAssoc(old(gw.trace) + up.events, c.events, rb.events);
      AppendAssoc(old(gw.trace), up.events, c.events + rb.events);
      return;
    }
    ghost var back := UpdateStatusRun(data.node, vmid, data.status, gw.script);
    err := UpdateLXCStatus(gw, data.node, vmid, data.status);
    if err.Fail? {
      ghost var rb := RollbackRun(data, data.node, vmid, RESTORE_FAILED + err.msg, back.rest);
      resp := Rollback(gw, data, data.node, vmid, RESTORE_FAILED + err.msg);
      AppendAssoc(old(gw.trace) + up.events + c.events, back.events, rb.events);
      AppendAssoc(old(gw.trace) + up.events, c.events, back.events + rb.events);
      AppendAssoc(old(gw.trace), up.events, c.events + (back.events + rb.events));
      return;
    }
    AppendAssoc(old(gw.trace) + up.events, c.events, back.events);
    AppendAssoc(old(gw.trace), up.events, c.events + back.events);
    return Response([], Written(data));
  }

  // -------------------------------------------------------------------------
  // Read, Update, Delete.

  /**
   * `Read`: refresh the status from the cluster; a container configured
   * "running" also has its addresses resolved again, and loses its networks
   * when that fails.
   */
  function ReadRun(data: LxcModel, s: seq<Reply>): Run<Response<LxcModel>>
  {
    var vmid := ValueOr(data.vmid, 0);
    var ev := Step(GetByID(data.node, vmid), s);
    var rec := RecordOf(ev.reply);
    if rec.Err? then Run(Response([ClientError(READ_FAILED + rec.msg)], Unchanged), Tail(s), [ev])
    else if rec.value.None? then Run(Response([ClientError(NotFound(vmid, data.node))], Unchanged), Tail(s), [ev])
    else
      var seen := data.(status := rec.value.value.status);
      if data.status != STATUS_RUNNING then Run(Response([], Written(seen)), Tail(s), [ev])
      else
        var ips := NetIPsRun(data.node, vmid, data.networks, Tail(s));
        if ips.value.Err? then
          Run(Response([ClientError(READ_IPS_FAILED + ips.value.msg)], Written(seen.(networks := []))), ips.rest, [ev] + ips.events)
        else Run(Response([], Written(seen.(networks := ips.value.value))), ips.rest, [ev] + ips.events)
  }

  method Read(gw: Cluster, data: LxcModel) returns (resp: Response<LxcModel>)
    modifies gw
    ensures var run := ReadRun(data, old(gw.script));
      resp == run.value && gw.script == run.rest && gw.trace == old(gw.trace) + run.events
  {
    var vmid := ValueOr(data.vmid, 0);
    var r := gw.Send(GetByID(data.node, vmid));
    var rec := RecordOf(r);
    if rec.Err? {
      return Response([ClientError(READ_FAILED + rec.msg)], Unchanged);
    } else if rec.value.None? {
      return Response([ClientError(NotFound(vmid, data.node))], Unchanged);
    }
    var seen := data.(status := rec.value.value.status);
    if data.status != STATUS_RUNNING {
      return Response([], Written(seen));
    }
    ghost var mid := gw.trace;
    var computed := ComputeLXCNetIPs(gw, data.node, vmid, data.networks);
    AppendAssoc(old(gw.trace), [Event(GetByID(data.node, vmid), r)], gw.trace[|mid|..]);
    if computed.Err? {
      return Response([ClientError(READ_IPS_FAILED + computed.msg)], Written(seen.(networks := [])));
    }
    return Response([], Written(seen.(networks := computed.value)));
  }

  /**
   * `Update`: stop the container, rewrite its interfaces from the plan,
   * bring back the status of the prior state and resolve the planned
   * networks' addresses; the first failure ends the update.  Only the
   * networks of the prior state are replaced.
   */
  function UpdateRun(plan: LxcModel, state: LxcModel, s: seq<Reply>): Run<Response<LxcModel>>
  {
    var node := state.node;
    var vmid := ValueOr(state.vmid, 0);
    var st := UpdateStatusRun(node, vmid, STATUS_STOPPED, s);
    if st.value.Fail? then Run(Response([ClientError(STOP_FAILED + st.value.msg)], Unchanged), st.rest, st.events)
    else
      var u := Step(UpdateNets(node, vmid, PveNets(plan.networks)), st.rest);
      if AckOf(u.reply).Fail? then
        Run(Response([ClientError(UPDATE_NETS_FAILED + AckOf(u.reply).msg)], Unchanged), Tail(st.rest), st.events + [u])
      else Extend(st.events + [u], RestartRun(plan, state, Tail(st.rest)))
  }

  /** The second half of `Update`: restore the status, then resolve the addresses. */
  function RestartRun(plan: LxcModel, state: LxcModel, s: seq<Reply>): Run<Response<LxcModel>>
  {
    var node := state.node;
    var vmid := ValueOr(state.vmid, 0);
    var back := UpdateStatusRun(node, vmid, state.status, s);
    if back.value.Fail? then Run(Response([ClientError(UPDATE_STATUS_FAILED + back.value.msg)], Unchanged), back.rest, back.events)
    else
      var ips := NetIPsRun(node, vmid, plan.networks, back.rest);
      if ips.value.Err? then
        Run(Response([ClientError(READ_IPS_FAILED + ips.value.msg)], Unchanged), ips.rest, back.events + ips.events)
      else Run(Response([], Written(state.(networks := ips.value.value))), ips.rest, back.events + ips.events)
  }

  method Update(gw: Cluster, plan: LxcModel, state: LxcModel) returns (resp: Response<LxcModel>)
    modifies gw
    ensures var run := UpdateRun(plan, state, old(gw.script));
      resp == run.value && gw.script == run.rest && gw.trace == old(gw.trace) + run.events
  {
    var node := state.node;
    var vmid := ValueOr(state.vmid, 0);
    ghost var st := UpdateStatusRun(node, vmid, STATUS_STOPPED, gw.script);
    var err := UpdateLXCStatus(gw, node, vmid, STATUS_STOPPED);
    if err.Fail? {
      return Response([ClientError(STOP_FAILED + err.msg)], Unchanged);
    }
    var nets := NewPVELXCNets(plan.networks);
    var r := gw.Send(UpdateNets(node, vmid, nets));
    if AckOf(r).Fail? {
      return Response([ClientError(UPDATE_NETS_FAILED + AckOf(r).msg)], Unchanged);
    }
    UpdateContinues(plan, state, old(gw.script));
    ghost var rs := RestartRun(plan, state, gw.script);
    resp := Restart(gw, plan, state);
    AppendAssoc(old(gw.trace), st.events + [Event(UpdateNets(node, vmid, nets), r)], rs.events);
  }

  /** Once the container is stopped and the networks are pushed, `Update` goes on as `RestartRun`. */
  lemma UpdateContinues(plan: LxcModel, state: LxcModel, s: seq<Reply>)
    requires UpdateStatusRun(state.node, ValueOr(state.vmid, 0), STATUS_STOPPED, s).value.Pass?
    requires var st := UpdateStatusRun(state.node, ValueOr(state.vmid, 0), STATUS_STOPPED, s);
      AckOf(Head(st.rest)).Pass?
    ensures var st := UpdateStatusRun(state.node, ValueOr(state.vmid, 0), STATUS_STOPPED, s);
      UpdateRun(plan, state, s) ==
        Extend(st.events + [Step(UpdateNets(state.node, ValueOr(state.vmid, 0), PveNets(plan.networks)), st.rest)],
          RestartRun(plan, state, Tail(st.rest)))
  {
  }

  method Restart(gw: Cluster, plan: LxcModel, state: LxcModel) returns (resp: Response<LxcModel>)
    modifies gw
    ensures var run := RestartRun(plan, state, old(gw.script));
      resp == run.value && gw.script == run.rest && gw.trace == old(gw.trace) + run.events
  {
    var node := state.node;
    var vmid := ValueOr(state.vmid, 0);
    ghost var back := UpdateStatusRun(node, vmid, state.status, gw.script);
    var err := UpdateLXCStatus(gw, node, vmid, state.status);
    if err.Fail? {
      return Response([ClientError(UPDATE_STATUS_FAILED + err.msg)], Unchanged);
    }
    ghost var ips := NetIPsRun(node, vmid, plan.networks, gw.script);
    var computed := ComputeLXCNetIPs(gw, node, vmid, plan.networks);
    AppendAssoc(old(gw.trace), back.events, ips.events);
    if computed.Err? {
      return Response([ClientError(READ_IPS_FAILED + computed.msg)], Unchanged);
    }
    return Response([], Written(state.(networks := computed.value)));
  }

  /** `Delete`: `deleteLXC`; the resource leaves the state only when it succeeds. */
  function DeleteResourceRun(data: LxcModel, s: seq<Reply>): Run<Response<LxcModel>>
  {
    var d := DeleteRun(data.node, ValueOr(data.vmid, 0), s);
    if d.value.Fail? then Run(Response([ClientError(DELETE_NODE_FAILED + d.value.msg)], Unchanged), d.rest, d.events)
    else Run(Response([], Removed), d.rest, d.events)
  }

  method Delete(gw: Cluster, data: LxcModel) returns (resp: Response<LxcModel>)
    modifies gw
    ensures var run := DeleteResourceRun(data, old(gw.script));
      resp == run.value && gw.script == run.rest && gw.trace == old(gw.trace) + run.events
  {
    var err := DeleteLXC(gw, data.node, ValueOr(data.vmid, 0));
    if err.Fail? {
      return Response([ClientError(DELETE_NODE_FAILED + err.msg)], Unchanged);
    }
    return Response([], Removed);
  }

  // -------------------------------------------------------------------------
  // Properties of Create.

  /** `m` is `data` except possibly for its networks. */
  predicate SameBut(m: LxcModel, data: LxcModel)
  {
    m.(networks := []) == data.(networks := [])
  }

  /**
   * The outcome of provisioning a created container `vmid`: the resource is
   * never left out of the state unless it was deleted; with no error it is
   * written and nothing was deleted; deletion happens at most once and only
   * right after a poll that saw the container stopped; addresses are only
   * queried for a container configured "running" and commands only
   * submitted when there are some; a written model differs from `data` in
   * its networks at most.
   */
  predicate Provisioned(run: Run<Response<LxcModel>>, data: LxcModel, vmid: int, creations: int)
  {
    run.value.Response? && Count(run.events, Creations) == creations &&
    Count(run.events, Deletes) <= 1 && DeletesJustified(run.events, data.node, vmid) &&
    (data.status != STATUS_RUNNING ==> Count(run.events, IfaceQueries) == 0) &&
    (data.cmds == [] ==> Count(run.events, Submissions) == 0) &&
    match run.value.state
    case Unchanged => false
    case Removed =>
      |run.value.diags| == 1 && Count(run.events, Deletes) == 1 &&
      run.events != [] && Last(run.events) == Event(IsVMIDAvailable(vmid), Available(true))
    case Written(m) =>
      SameBut(m, data) &&
      ((run.value.diags == [] && Count(run.events, Deletes) == 0) ||
       (|run.value.diags| == 2 && DELETE_FAILED <= run.value.diags[1].detail))
  }

  lemma RolledBackProvisioned(run: Run<Response<LxcModel>>, data: LxcModel, vmid: int, detail: string)
    requires RolledBack(run, data, data.node, vmid, detail)
    ensures Provisioned(run, data, vmid, 0)
  {
  }

  /** Calls that delete nothing, query no interfaces and submit nothing keep a run provisioned. */
  lemma ProvisionedPrepend(pre: seq<Event>, sub: Run<Response<LxcModel>>, data: LxcModel, vmid: int, n: int)
    requires Count(pre, Deletes) == 0
    requires data.status != STATUS_RUNNING ==> Count(pre, IfaceQueries) == 0
    requires data.cmds == [] ==> Count(pre, Submissions) == 0
    requires Provisioned(sub, data, vmid, n)
    ensures Provisioned(Extend(pre, sub), data, vmid, n + Count(pre, Creations))
  {
    var evs := pre + sub.events;
    CountConcat(pre, sub.events, Creations);
    CountConcat(pre, sub.events, Deletes);
    CountConcat(pre, sub.events, IfaceQueries);
    CountConcat(pre, sub.events, Submissions);
    JustifiedAfter(pre, sub.events, data.node, vmid);
    if sub.value.state.Removed? {
      assert Last(evs) == Last(sub.events);
    }
  }

  lemma CommandsStageShape(data: LxcModel, vmid: int, s: seq<Reply>)
    ensures Provisioned(CommandsStage(data, vmid, s), data, vmid, 0)
  {
    if data.cmds != [] {
      var up := UpdateStatusRun(data.node, vmid, STATUS_RUNNING, s);
      StatusRunQuiet(data.node, vmid, STATUS_RUNNING, s);
      if up.value.Fail? {
        RollbackShape(data, data.node, vmid, START_FAILED + up.value.msg, up.rest);
        ProvisionedPrepend(up.events, RollbackRun(data, data.node, vmid, START_FAILED + up.value.msg, up.rest), data, vmid, 0);
      } else {
        var c := CommandsRun(vmid, data.cmds, up.rest);
        CommandsKinds(vmid, data.cmds, up.rest);
        CommandsThenRest(data, vmid, c);
        ProvisionedPrepend(up.events, Extend(c.events, AfterCommands(data, vmid, c)), data, vmid, 0);
      }
    }
  }

  lemma CommandsThenRest(data: LxcModel, vmid: int, c: Run<Outcome>)
    requires data.cmds != [] && KindsWithin(c.events, {Submissions, SettledPolls, RunningPolls})
    ensures Provisioned(Extend(c.events, AfterCommands(data, vmid, c)), data, vmid, 0)
  {
    var ks := {Submissions, SettledPolls, RunningPolls};
    KindsWithinCount(c.events, ks, Deletes);
    KindsWithinCount(c.events, ks, IfaceQueries);
    KindsWithinCount(c.events, ks, Creations);
    AfterCommandsShape(data, vmid, c);
    ProvisionedPrepend(c.events, AfterCommands(data, vmid, c), data, vmid, 0);
  }

  lemma AfterCommandsShape(data: LxcModel, vmid: int, c: Run<Outcome>)
    requires data.cmds != []
    ensures Provisioned(AfterCommands(data, vmid, c), data, vmid, 0)
  {
    if c.value.Fail? {
      RollbackShape(data, data.node, vmid, CMDS_FAILED + c.value.msg, c.rest);
    } else {
      var back := UpdateStatusRun(data.node, vmid, data.status, c.rest);
      StatusRunQuiet(data.node, vmid, data.status, c.rest);
      if back.value.Fail? {
        RollbackShape(data, data.node, vmid, RESTORE_FAILED + back.value.msg, back.rest);
        ProvisionedPrepend(back.events, RollbackRun(data, data.node, vmid, RESTORE_FAILED + back.value.msg, back.rest), data, vmid, 0);
      } else {
        var run := AfterCommands(data, vmid, c);
        CountZero(back.events, Deletes);
        assert DeletesJustified(run.events, data.node, vmid);
      }
    }
  }

  lemma AddressStageShape(data: LxcModel, vmid: int, s: seq<Reply>)
    ensures Provisioned(AddressStage(data, vmid, s), data, vmid, 0)
  {
    if data.status != STATUS_RUNNING {
      CommandsStageShape(data, vmid, s);
    } else {
      var ips := NetIPsRun(data.node, vmid, data.networks, s);
      NetIPsKinds(data.node, vmid, data.networks, s);
      KindsWithinCount(ips.events, {IfaceQueries}, Deletes);
      KindsWithinCount(ips.events, {IfaceQueries}, Submissions);
      KindsWithinCount(ips.events, {IfaceQueries}, Creations);
      if ips.value.Err? {
        RollbackShape(data, data.node, vmid, CREATE_FAILED + ips.value.msg, ips.rest);
        ProvisionedPrepend(ips.events, RollbackRun(data, data.node, vmid, CREATE_FAILED + ips.value.msg, ips.rest), data, vmid, 0);
      } else {
        var next := data.(networks := ips.value.value);
        CommandsStageShape(next, vmid, ips.rest);
        ProvisionedNetworks(CommandsStage(next, vmid, ips.rest), data, ips.value.value, vmid);
        ProvisionedPrepend(ips.events, CommandsStage(next, vmid, ips.rest), data, vmid, 0);
      }
    }
  }

  /** Provisioning with resolved networks is provisioning of the configured model. */
  lemma ProvisionedNetworks(run: Run<Response<LxcModel>>, data: LxcModel, nets: seq<NetModel>, vmid: int)
    requires Provisioned(run, data.(networks := nets), vmid, 0)
    ensures Provisioned(run, data, vmid, 0)
  {
    if run.value.state.Written? {
      assert data.(networks := nets).(networks := []) == data.(networks := []);
    }
  }

  lemma ProvisionShape(data: LxcModel, vmid: int, s: seq<Reply>)
    ensures Provisioned(ProvisionRun(data, vmid, s), data, vmid, 0)
  {
    var st := UpdateStatusRun(data.node, vmid, data.status, s);
    StatusRunQuiet(data.node, vmid, data.status, s);
    if st.value.Fail? {
      RollbackShape(data, data.node, vmid, CREATE_FAILED + st.value.msg, st.rest);
      ProvisionedPrepend(st.events, RollbackRun(data, data.node, vmid, CREATE_FAILED + st.value.msg, st.rest), data, vmid, 0);
    } else {
      AddressStageShape(data, vmid, st.rest);
      ProvisionedPrepend(st.events, AddressStage(data, vmid, st.rest), data, vmid, 0);
    }
  }

  /** The creation request and what follows it, for the obtained id `vmid`. */
  predicate CreatedWith(run: Run<Response<LxcModel>>, plan: LxcModel, vmid: int)
  {
    run.value.Response? &&
    (run.value.state == Unchanged ==>
      |run.value.diags| == 1 && CREATE_FAILED <= run.value.diags[0].detail &&
      Count(run.events, Deletes) == 0 && Count(run.events, IfaceQueries) == 0) &&
    (run.value.state != Unchanged ==> Provisioned(run, plan.(vmid := Some(vmid)), vmid, 1))
  }

  lemma CreateWithIdShape(plan: LxcModel, vmid: int, s: seq<Reply>)
    ensures CreatedWith(CreateWithIdRun(plan, vmid, s), plan, vmid)
  {
    var c := Step(Call.Create(CreateRequestOf(plan, vmid)), s);
    CountOne(c, Deletes);
    CountOne(c, IfaceQueries);
    CountOne(c, Submissions);
    CountOne(c, Creations);
    if CreatedOf(c.reply).Ok? {
      var data := plan.(vmid := Some(vmid));
      ProvisionShape(data, vmid, Tail(s));
      ProvisionedPrepend([c], ProvisionRun(data, vmid, Tail(s)), data, vmid, 0);
    }
  }

  /** Prepending the id allocation, which neither creates nor deletes. */
  lemma CreatedPrepend(pre: seq<Event>, sub: Run<Response<LxcModel>>, plan: LxcModel, vmid: int)
    requires Count(pre, Deletes) == 0 && Count(pre, IfaceQueries) == 0
    requires Count(pre, Submissions) == 0 && Count(pre, Creations) == 0
    requires CreatedWith(sub, plan, vmid)
    ensures CreatedWith(Extend(pre, sub), plan, vmid)
  {
    CountConcat(pre, sub.events, Deletes);
    CountConcat(pre, sub.events, IfaceQueries);
    if sub.value.state != Unchanged {
      ProvisionedPrepend(pre, sub, plan.(vmid := Some(vmid)), vmid, 1);
    }
  }

  /**
   * `Create`: when no id could be obtained or the creation request failed,
   * the only effect is one error and nothing is deleted.  Once the container
   * exists (one Create call, with the configured id when there is one) the
   * run is provisioned: on any later failure it is rolled back.
   */
  lemma CreateRollsBack(plan: LxcModel, s: seq<Reply>)
    ensures var run := CreateRun(plan, s);
      var id := GetVMIDRun(plan.vmid, s);
      run.value.Response? &&
      (id.value.Err? ==> run.value == Response([ClientError(CREATE_FAILED + id.value.msg)], Unchanged) && |run.events| <= 1) &&
      (id.value.Ok? ==> (plan.vmid.Some? ==> id.value.value == plan.vmid.value) && CreatedWith(run, plan, id.value.value))
  {
    var id := GetVMIDRun(plan.vmid, s);
    if id.value.Ok? {
      CreateWithIdShape(plan, id.value.value, id.rest);
      if plan.vmid.None? {
        CountOne(id.events[0], Deletes);
        CountOne(id.events[0], IfaceQueries);
        CountOne(id.events[0], Submissions);
        CountOne(id.events[0], Creations);
      }
      CreatedPrepend(id.events, CreateWithIdRun(plan, id.value.value, id.rest), plan, id.value.value);
    }
  }

  // -------------------------------------------------------------------------
  // Properties of Read, Update and Delete.

  /**
   * `Read` asks for the container first.  A missing container gives the
   * "not found" error and leaves the state alone; a found one has its status
   * taken from the cluster and keeps every other attribute but its
   * networks.  A container not configured "running" is not queried further;
   * otherwise its networks are those resolved from the last interface query,
   * or none, with an error, when they could not be resolved.
   */
  lemma ReadRefreshes(data: LxcModel, s: seq<Reply>)
    ensures var run := ReadRun(data, s);
      var vmid := ValueOr(data.vmid, 0);
      var rec := RecordOf(Head(s));
      run.value.Response? && run.events != [] && run.events[0] == Step(GetByID(data.node, vmid), s) &&
      (rec == Ok(None) ==> run.value == Response([ClientError(NotFound(vmid, data.node))], Unchanged)) &&
      (run.value.state.Written? <==> rec.Ok? && rec.value.Some?) &&
      (run.value.state.Written? ==>
        run.value.state.model.status == rec.value.value.status &&
        run.value.state.model.(status := data.status, networks := data.networks) == data) &&
      (data.status != STATUS_RUNNING ==> |run.events| == 1 && Count(run.events, IfaceQueries) == 0) &&
      (run.value.state.Written? && run.value.diags != [] ==>
        |run.value.diags| == 1 && READ_IPS_FAILED <= run.value.diags[0].detail &&
        run.value.state.model.networks == []) &&
      (run.value.state.Written? && run.value.diags == [] && data.status == STATUS_RUNNING ==>
        IfacesOf(Last(run.events).reply).Ok? &&
        Ok(run.value.state.model.networks) == Resolve(data.networks, IfaceMap(IfacesOf(Last(run.events).reply).value)))
  {
    var run := ReadRun(data, s);
    var vmid := ValueOr(data.vmid, 0);
    CountOne(run.events[0], IfaceQueries);
    if data.status == STATUS_RUNNING && RecordOf(Head(s)).Ok? && RecordOf(Head(s)).value.Some? {
      var ips := NetIPsRun(data.node, vmid, data.networks, Tail(s));
      ResolvedByLastQuery(data.node, vmid, data.networks, 0, Tail(s));
      if ips.value.Ok? {
        assert Last(run.events) == Last(ips.events);
      }
    }
  }

  /** Every Start or Stop of `evs` is a Stop of the container. */
  predicate StopsOnly(evs: seq<Event>, node: string, vmid: int)
  {
    forall i :: 0 <= i < |evs| && IsKind(evs[i], Transitions) ==> evs[i].call == Stop(node, vmid, false)
  }

  /**
   * The interfaces are only ever rewritten to the planned networks, and
   * nothing but Stop transitions precede the rewrite.
   */
  predicate RewritesStopped(evs: seq<Event>, node: string, vmid: int, nets: seq<PveNet>)
  {
    forall j :: 0 <= j < |evs| && evs[j].call.UpdateNets? ==>
      evs[j].call == UpdateNets(node, vmid, nets) && StopsOnly(evs[..j], node, vmid)
  }

  lemma StopPhase(node: string, vmid: int, s: seq<Reply>)
    ensures var evs := UpdateStatusRun(node, vmid, STATUS_STOPPED, s).events;
      StatusCalls(evs, node, vmid) && StopsOnly(evs, node, vmid)
  {
    var evs := UpdateStatusRun(node, vmid, STATUS_STOPPED, s).events;
    StatusLoopCalls(node, vmid, STATUS_STOPPED, 1, s);
    forall i | 0 <= i < |evs| && IsKind(evs[i], Transitions)
      ensures evs[i].call == Stop(node, vmid, false)
    {
      if i == 0 {
        assert false;
      }
      assert Justifies(evs[i - 1], evs[i].call, node, vmid, STATUS_STOPPED);
    }
  }

  /** No event of `evs` rewrites interfaces. */
  predicate NoRewrites(evs: seq<Event>)
  {
    forall i :: 0 <= i < |evs| ==> !evs[i].call.UpdateNets?
  }

  lemma NoRewritesConcat(a: seq<Event>, b: seq<Event>)
    requires NoRewrites(a) && NoRewrites(b)
    ensures NoRewrites(a + b)
  {
    assert forall i :: |a| <= i < |a + b| ==> (a + b)[i] == b[i - |a|];
  }

  /** The second half of `Update` never rewrites interfaces, creates or deletes. */
  lemma RestartRewritesNothing(plan: LxcModel, state: LxcModel, s: seq<Reply>)
    ensures var evs := RestartRun(plan, state, s).events;
      NoRewrites(evs) && Count(evs, Deletes) == 0 && Count(evs, Creations) == 0
  {
    var node := state.node;
    var vmid := ValueOr(state.vmid, 0);
    var back := UpdateStatusRun(node, vmid, state.status, s);
    StatusLoopCalls(node, vmid, state.status, 1, s);
    assert NoRewrites(back.events);
    StatusRunQuiet(node, vmid, state.status, s);
    if back.value.Pass? {
      var ips := NetIPsRun(node, vmid, plan.networks, back.rest);
      NetIPsCalls(node, vmid, plan.networks, 0, back.rest);
      assert NoRewrites(ips.events);
      NoRewritesConcat(back.events, ips.events);
      NetIPsKinds(node, vmid, plan.networks, back.rest);
      KindsWithinCount(ips.events, {IfaceQueries}, Deletes);
      KindsWithinCount(ips.events, {IfaceQueries}, Creations);
      CountConcat(back.events, ips.events, Deletes);
      CountConcat(back.events, ips.events, Creations);
    }
  }

  /**
   * `Update` stops the container before it rewrites the interfaces to the
   * planned networks, never creates or deletes, and reports the first
   * failure alone.  A successful update keeps the prior state but for the
   * networks, which are those resolved from the last interface query.
   */
  predicate UpdateShape(run: Run<Response<LxcModel>>, plan: LxcModel, state: LxcModel)
  {
    run.value.Response? &&
    RewritesStopped(run.events, state.node, ValueOr(state.vmid, 0), PveNets(plan.networks)) &&
    Count(run.events, Deletes) == 0 && Count(run.events, Creations) == 0 &&
    (run.value.state.Unchanged? <==> run.value.diags != []) &&
    (run.value.diags != [] ==> |run.value.diags| == 1) &&
    (run.value.state.Written? ==>
      run.value.state.model == state.(networks := run.value.state.model.networks) &&
      run.events != [] && IfacesOf(Last(run.events).reply).Ok? &&
      Ok(run.value.state.model.networks) == Resolve(plan.networks, IfaceMap(IfacesOf(Last(run.events).reply).value)))
  }

  lemma UpdateStopsFirst(plan: LxcModel, state: LxcModel, s: seq<Reply>)
    ensures UpdateShape(UpdateRun(plan, state, s), plan, state)
  {
    var node := state.node;
    var vmid := ValueOr(state.vmid, 0);
    var st := UpdateStatusRun(node, vmid, STATUS_STOPPED, s);
    StopPhase(node, vmid, s);
    StatusRunQuiet(node, vmid, STATUS_STOPPED, s);
    if st.value.Fail? {
      assert UpdateRun(plan, state, s).events == st.events;
    } else if AckOf(Head(st.rest)).Fail? {
      UpdateRefused(plan, state, s);
    } else {
      UpdateContinues(plan, state, s);
      UpdateRestarted(plan, state, s);
    }
  }

  /** The stop succeeded and pushing the networks failed. */
  lemma UpdateRefused(plan: LxcModel, state: LxcModel, s: seq<Reply>)
    requires var st := UpdateStatusRun(state.node, ValueOr(state.vmid, 0), STATUS_STOPPED, s);
      st.value.Pass? && AckOf(Head(st.rest)).Fail? &&
      StatusCalls(st.events, state.node, ValueOr(state.vmid, 0)) && StopsOnly(st.events, state.node, ValueOr(state.vmid, 0)) &&
      Count(st.events, Deletes) == 0 && Count(st.events, Creations) == 0
    ensures UpdateShape(UpdateRun(plan, state, s), plan, state)
  {
    var node := state.node;
    var vmid := ValueOr(state.vmid, 0);
    var st := UpdateStatusRun(node, vmid, STATUS_STOPPED, s);
    var u := Step(UpdateNets(node, vmid, PveNets(plan.networks)), st.rest);
    CountOne(u, Deletes);
    CountOne(u, Creations);
    CountConcat(st.events, [u], Deletes);
    CountConcat(st.events, [u], Creations);
    UpdateRewrites(st.events, u, [], node, vmid, PveNets(plan.networks));
    assert st.events + [u] + [] == st.events + [u];
  }

  /** The stop succeeded and the networks were pushed: the rest is `RestartRun`. */
  lemma UpdateRestarted(plan: LxcModel, state: LxcModel, s: seq<Reply>)
    requires var st := UpdateStatusRun(state.node, ValueOr(state.vmid, 0), STATUS_STOPPED, s);
      st.value.Pass? && AckOf(Head(st.rest)).Pass? &&
      StatusCalls(st.events, state.node, ValueOr(state.vmid, 0)) && StopsOnly(st.events, state.node, ValueOr(state.vmid, 0)) &&
      Count(st.events, Deletes) == 0 && Count(st.events, Creations) == 0 &&
      UpdateRun(plan, state, s) ==
        Extend(st.events + [Step(UpdateNets(state.node, ValueOr(state.vmid, 0), PveNets(plan.networks)), st.rest)],
          RestartRun(plan, state, Tail(st.rest)))
    ensures UpdateShape(UpdateRun(plan, state, s), plan, state)
  {
    var node := state.node;
    var vmid := ValueOr(state.vmid, 0);
    var st := UpdateStatusRun(node, vmid, STATUS_STOPPED, s);
    var u := Step(UpdateNets(node, vmid, PveNets(plan.networks)), st.rest);
    var r := RestartRun(plan, state, Tail(st.rest));
    CountOne(u, Deletes);
    CountOne(u, Creations);
    CountConcat(st.events, [u], Deletes);
    CountConcat(st.events, [u], Creations);
    RestartRewritesNothing(plan, state, Tail(st.rest));
    UpdateRewrites(st.events, u, r.events, node, vmid, PveNets(plan.networks));
    CountConcat(st.events + [u], r.events, Deletes);
    CountConcat(st.events + [u], r.events, Creations);
    RestartResolves(plan, state, Tail(st.rest));
    if r.value.state.Written? {
      assert Last(st.events + [u] + r.events) == Last(r.events);
    }
  }

  lemma UpdateRewrites(pre: seq<Event>, u: Event, post: seq<Event>, node: string, vmid: int, nets: seq<PveNet>)
    requires StatusCalls(pre, node, vmid) && StopsOnly(pre, node, vmid) && u.call == UpdateNets(node, vmid, nets)
    requires NoRewrites(post)
    ensures RewritesStopped(pre + [u] + post, node, vmid, nets)
  {
    var evs := pre + [u] + post;
    forall j | 0 <= j < |evs| && evs[j].call.UpdateNets?
      ensures evs[j].call == UpdateNets(node, vmid, nets) && StopsOnly(evs[..j], node, vmid)
    {
      if j < |pre| {
        assert false;
      } else if j > |pre| {
        assert false;
      }
      assert evs[..j] == pre;
    }
  }

  /** A restart that writes the state resolved the planned networks from its last query. */
  lemma RestartResolves(plan: LxcModel, state: LxcModel, s: seq<Reply>)
    ensures var r := RestartRun(plan, state, s);
      (r.value.state.Unchanged? <==> r.value.diags != []) && |r.value.diags| <= 1 &&
      (r.value.state.Written? ==>
        r.value.state.model == state.(networks := r.value.state.model.networks) &&
        r.events != [] && IfacesOf(Last(r.events).reply).Ok? &&
        Ok(r.value.state.model.networks) == Resolve(plan.networks, IfaceMap(IfacesOf(Last(r.events).reply).value)))
  {
    var node := state.node;
    var vmid := ValueOr(state.vmid, 0);
    var r := RestartRun(plan, state, s);
    var back := UpdateStatusRun(node, vmid, state.status, s);
    if back.value.Pass? {
      var ips := NetIPsRun(node, vmid, plan.networks, back.rest);
      ResolvedByLastQuery(node, vmid, plan.networks, 0, back.rest);
      if ips.value.Ok? {
        assert Last(r.events) == Last(ips.events);
      }
    }
  }

  /**
   * `Delete` removes the resource exactly when `deleteLXC` succeeded, that
   * is once the container was deleted, at most once and right after a poll
   * that saw it stopped, and its id was reported free.
   */
  lemma DeleteRemoves(data: LxcModel, s: seq<Reply>)
    ensures var run := DeleteResourceRun(data, s);
      var vmid := ValueOr(data.vmid, 0);
      run.value.Response? &&
      (run.value.state == Removed <==> run.value.diags == []) &&
      Count(run.events, Deletes) <= 1 && DeletesJustified(run.events, data.node, vmid) &&
      (run.value.state == Removed ==>
        Count(run.events, Deletes) == 1 &&
        run.events != [] && Last(run.events) == Event(IsVMIDAvailable(vmid), Available(true))) &&
      (run.value.state != Removed ==>
        run.value.state == Unchanged && |run.value.diags| == 1 && DELETE_NODE_FAILED <= run.value.diags[0].detail)
  {
    var vmid := ValueOr(data.vmid, 0);
    DeleteOnlyWhenStopped(data.node, vmid, s);
    DeleteOutcome(data.node, vmid, s);
  }
}
