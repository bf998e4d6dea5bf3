/**
 * The `proxmox_lxc_template` resource (`lxc/lxc_template.go`): create a
 * container, optionally run commands inside it (started for the purpose and
 * stopped again), then convert it into a template.
 *
 * `newPVELXCTplNets`, which builds the networks of the request, is not part
 * of this model; it is taken to convert each configured network with
 * `LXCTplNetResourceModel.ToPVELXCNet`, in order.
 */
module LxcTemplate {
  import opened Gateway
  import opened Plugin
  import opened Decimal
  import opened LxcNet
  import opened LxcStatus
  import opened LxcCommands
  import opened LxcDelete
  import opened Compensation

  /**
   * `LXCTplResourceModel`.  Optional attributes are `None` when null; the
   * root file system block is not read by any operation and is left out.
   */
  datatype TplModel = TplModel(
    node: string, osTemplate: string, vmid: Option<int>, features: Features,
    hostname: Option<string>, nameserver: Option<string>, networks: seq<TplNetModel>,
    onBoot: Option<bool>, password: Option<string>, sshPublicKeys: seq<string>,
    unprivileged: Option<bool>, cmds: seq<string>)

  const CREATE_FAILED := "Unable to create node lxc, got error: "
  const START_FAILED := "Unable to start lxc to run commands, got error: "
  const CMDS_FAILED := "Failed to run commands inside lxc , got error: "
  const STOP_FAILED := "Unable to update node lxc status, got error: "
  const CONVERT_FAILED := "Unable to convert lxc to template, got error: "
  const DELETE_NODE_FAILED := "Unable to delete node lxc, got error: "
  const IMPORT_ERROR := "Import Error"
  const IMPORT_FAILED := "Unable to import lxc template, got error: "

  /** The template's networks as sent to the cluster. */
  function TplNets(nets: seq<TplNetModel>): (out: seq<PveNet>)
    ensures |out| == |nets|
    ensures forall i :: 0 <= i < |nets| ==> Converts(FromTpl(nets[i], None), out[i])
  {
    seq(|nets|, i requires 0 <= i < |nets| => TplToPVELXCNet(nets[i]))
  }

  /** The create request built from the plan for the container `vmid`. */
  function TplRequestOf(plan: TplModel, vmid: int): CreateRequest
  {
    CreateRequest(
      plan.node, plan.osTemplate, vmid, ValueOr(plan.hostname, ""),
      ValueOr(plan.password, ""), JoinKeys(plan.sshPublicKeys),
      ValueOr(plan.unprivileged, false), ValueOr(plan.onBoot, false),
      ValueOr(plan.nameserver, ""), plan.features, TplNets(plan.networks))
  }

  // -------------------------------------------------------------------------
  // Create.

  /** `Create`: obtain an id, create the container, then the command phase and the conversion. */
  function TplCreateRun(plan: TplModel, s: seq<Reply>): Run<Response<TplModel>>
  {
    var id := GetVMIDRun(plan.vmid, s);
    if id.value.Err? then Run(Response([ClientError(CREATE_FAILED + id.value.msg)], Unchanged), id.rest, id.events)
    else Extend(id.events, TplCreateWithIdRun(plan, id.value.value, id.rest))
  }

  function TplCreateWithIdRun(plan: TplModel, vmid: int, s: seq<Reply>): Run<Response<TplModel>>
  {
    var c := Step(Call.Create(TplRequestOf(plan, vmid)), s);
    if CreatedOf(c.reply).Err? then
      Run(Response([ClientError(CREATE_FAILED + CreatedOf(c.reply).msg)], Unchanged), Tail(s), [c])
    else Extend([c], CommandPhaseRun(plan.(vmid := Some(vmid)), vmid, Tail(s)))
  }

  /**
   * With commands: start the container, run them, stop it again, each
   * failure rolling the container back; then the conversion.
   */
  function CommandPhaseRun(data: TplModel, vmid: int, s: seq<Reply>): Run<Response<TplModel>>
  {
    if data.cmds == [] then ConvertRun(data, vmid, s)
    else
      var up := UpdateStatusRun(data.node, vmid, STATUS_RUNNING, s);
      if up.value.Fail? then Extend(up.events, RollbackRun(data, data.node, vmid, START_FAILED + up.value.msg, up.rest))
      else
        var c := CommandsRun(vmid, data.cmds, up.rest);
        Extend(up.events, Extend(c.events, AfterTplCommands(data, vmid, c)))
  }

  /** What follows the commands `c`: a rollback if one failed, else stop and convert. */
  function AfterTplCommands(data: TplModel, vmid: int, c: Run<Outcome>): Run<Response<TplModel>>
  {
    if c.value.Fail? then RollbackRun(data, data.node, vmid, CMDS_FAILED + c.value.msg, c.rest)
    else
      var down := UpdateStatusRun(data.node, vmid, STATUS_STOPPED, c.rest);
      if down.value.Fail? then Extend(down.events, RollbackRun(data, data.node, vmid, STOP_FAILED + down.value.msg, down.rest))
      else Extend(down.events, ConvertRun(data, vmid, down.rest))
  }

  /** The conversion into a template; its failure is reported and the container kept. */
  function ConvertRun(data: TplModel, vmid: int, s: seq<Reply>): Run<Response<TplModel>>
  {
    var t := Step(CreateTemplate(data.node, vmid), s);
    if AckOf(t.reply).Fail? then Run(Response([ClientError(CONVERT_FAILED + AckOf(t.reply).msg)], Written(data)), Tail(s), [t])
    else Run(Response([], Written(data)), Tail(s), [t])
  }

  method Create(gw: Cluster, plan: TplModel) returns (resp: Response<TplModel>)
    modifies gw
    ensures var run := TplCreateRun(plan, old(gw.script));
      resp == run.value && gw.script == run.rest && gw.trace == old(gw.trace) + run.events
  {
    ghost var idRun := GetVMIDRun(plan.vmid, gw.script);
    var id := GetVMID(gw, plan.vmid);
    if id.Err? {
      return Response([ClientError(CREATE_FAILED + id.msg)], Unchanged);
    }
    resp := CreateWithId(gw, plan, id.value);
    AppendAssoc(old(gw.trace), idRun.events, TplCreateWithIdRun(plan, id.value, idRun.rest).events);
  }

  method CreateWithId(gw: Cluster, plan: TplModel, vmid: int) returns (resp: Response<TplModel>)
    modifies gw
    ensures var run := TplCreateWithIdRun(plan, vmid, old(gw.script));
      resp == run.value && gw.script == run.rest && gw.trace == old(gw.trace) + run.events
  {
    var ssh := FormatSSHPublicKey(plan.sshPublicKeys);
    var req := CreateRequest(
      plan.node, plan.osTemplate, vmid, ValueOr(plan.hostname, ""),
      ValueOr(plan.password, ""), ssh, false, false, "", plan.features, TplNets(plan.networks));
    if plan.unprivileged.Some? {
      req := req.(unprivileged := plan.unprivileged.value);
    }
    if plan.onBoot.Some? {
      req := req.(onBoot := plan.onBoot.value);
    }
    if plan.nameserver.Some? {
      req := req.(nameserver := plan.nameserver.value);
    }
    assert req == TplRequestOf(plan, vmid);
    var r := gw.Send(Call.Create(req));
    var created := CreatedOf(r);
    if created.Err? {
      return Response([ClientError(CREATE_FAILED + created.msg)], Unchanged);
    }
    var data := plan.(vmid := Some(vmid));
    ghost var p := CommandPhaseRun(data, vmid, gw.script);
    resp := CommandPhase(gw, data, vmid);
    AppendAssoc(old(gw.trace), [Event(Call.Create(req), r)], p.events);
  }

  method CommandPhase(gw: Cluster, data: TplModel, vmid: int) returns (resp: Response<TplModel>)
    modifies gw
    ensures var run := CommandPhaseRun(data, vmid, old(gw.script));
      resp == run.value && gw.script == run.rest && gw.trace == old(gw.trace) + run.events
  {
    if |data.cmds| == 0 {
      resp := Convert(gw, data, vmid);
      return;
    }
    ghost var up := UpdateStatusRun(data.node, vmid, STATUS_RUNNING, gw.script);
    var err := UpdateLXCStatus(gw, data.node, vmid, STATUS_RUNNING);
    if err.Fail? {
      resp := Rollback(gw, data, data.node, vmid, START_FAILED + err.msg);
      AppendAssoc(old(gw.trace), up.events, RollbackRun(data, data.node, vmid, START_FAILED + err.msg, up.rest).events);
      return;
    }
    ghost var c := CommandsRun(vmid, data.cmds, gw.script);
    err := RunLXCCommands(gw, vmid, data.cmds);
    ghost var after := AfterTplCommands(data, vmid, c);
    resp := FinishCommands(gw, data, vmid, err);
    AppendAssoc(old(gw.trace) + up.events, c.events, after.events);
    AppendAssoc(old(gw.trace), up.events, c.events + after.events);
  }

  /** The part of the command phase after the commands, whose outcome is `err`. */
  method FinishCommands(gw: Cluster, data: TplModel, vmid: int, err: Outcome) returns (resp: Response<TplModel>)
    modifies gw
    ensures forall c: Run<Outcome> :: c.value == err && c.rest == old(gw.script) ==>
      var run := AfterTplCommands(data, vmid, c);
      resp == run.value && gw.script == run.rest && gw.trace == old(gw.trace) + run.events
  {
    if err.Fail? {
      resp := Rollback(gw, data, data.node, vmid, CMDS_FAILED + err.msg);
      return;
    }
    ghost var down := UpdateStatusRun(data.node, vmid, STATUS_STOPPED, gw.script);
    var e := UpdateLXCStatus(gw, data.node, vmid, STATUS_STOPPED);
    if e.Fail? {
      resp := Rollback(gw, data, data.node, vmid, STOP_FAILED + e.msg);
      AppendAssoc(old(gw.trace), down.events, RollbackRun(data, data.node, vmid, STOP_FAILED + e.msg, down.rest).events);
      return;
    }
    resp := Convert(gw, data, vmid);
    AppendAssoc(old(gw.trace), down.events, ConvertRun(data, vmid, down.rest).events);
  }

  method Convert(gw: Cluster, data: TplModel, vmid: int) returns (resp: Response<TplModel>)
    modifies gw
    ensures var run := ConvertRun(data, vmid, old(gw.script));
      resp == run.value && gw.script == run.rest && gw.trace == old(gw.trace) + run.events
  {
    var r := gw.Send(CreateTemplate(data.node, vmid));
    if AckOf(r).Fail? {
      return Response([ClientError(CONVERT_FAILED + AckOf(r).msg)], Written(data));
    }
    return Response([], Written(data));
  }

  // -------------------------------------------------------------------------
  // Read, Update, Delete, ImportState.

  /** `Read` writes the prior state back as it is, without asking the cluster. */
  method Read(gw: Cluster, data: TplModel) returns (resp: Response<TplModel>)
    ensures resp == Response([], Written(data))
  {
    resp := Response([], Written(data));
  }

  /** `Update` does nothing: no call, no error, the planned state stays. */
  method Update(gw: Cluster, plan: TplModel, state: TplModel) returns (resp: Response<TplModel>)
    ensures resp == Response([], Unchanged)
  {
    resp := Response([], Unchanged);
  }

  /** `Delete`: `deleteLXC`; the resource leaves the state when it succeeds. */
  function TplDeleteRun(data: TplModel, s: seq<Reply>): Run<Response<TplModel>>
  {
    var d := DeleteRun(data.node, ValueOr(data.vmid, 0), s);
    if d.value.Fail? then Run(Response([ClientError(DELETE_NODE_FAILED + d.value.msg)], Unchanged), d.rest, d.events)
    else Run(Response([], Removed), d.rest, d.events)
  }

  method Delete(gw: Cluster, data: TplModel) returns (resp: Response<TplModel>)
    modifies gw
    ensures var run := TplDeleteRun(data, old(gw.script));
      resp == run.value && gw.script == run.rest && gw.trace == old(gw.trace) + run.events
  {
    var err := DeleteLXC(gw, data.node, ValueOr(data.vmid, 0));
    if err.Fail? {
      return Response([ClientError(DELETE_NODE_FAILED + err.msg)], Unchanged);
    }
    return Response([], Removed);
  }

  /** The model with every attribute null. */
  const NullTpl := TplModel("", "", None, Features(None, None, None, None), None, None, [], None, None, [], None, [])

  /** `ImportState`: a decimal id becomes the template's id, everything else null. */
  function ImportTplState(id: string): Response<TplModel>
  {
    var p := Atoi(id);
    if !p.ok then Response([Diag(IMPORT_ERROR, IMPORT_FAILED + AtoiError(id))], Unchanged)
    else Response([], Written(NullTpl.(vmid := Some(p.value))))
  }

  // -------------------------------------------------------------------------
  // Properties of Create.

  /**
   * The command phase ended with the one conversion, and nothing was
   * deleted: the state holds the created container whatever the
   * conversion's outcome, and its failure is the one error.
   */
  predicate Converted(run: Run<Response<TplModel>>, data: TplModel, vmid: int)
  {
    Count(run.events, Deletes) == 0 && Count(run.events, Conversions) == 1 &&
    run.events != [] && Last(run.events).call == CreateTemplate(data.node, vmid) &&
    run.value == Response(
      if AckOf(Last(run.events).reply).Pass? then [] else [ClientError(CONVERT_FAILED + AckOf(Last(run.events).reply).msg)],
      Written(data))
  }

  /**
   * The container was rolled back and never converted: it left the state
   * exactly when its deletion completed (the last call then saw its id
   * free); otherwise it stays, with the failed deletion as second error.
   */
  predicate Abandoned(run: Run<Response<TplModel>>, data: TplModel, vmid: int)
  {
    Count(run.events, Conversions) == 0 && run.value.Response? &&
    ((run.value.state == Removed && |run.value.diags| == 1 && Count(run.events, Deletes) == 1 &&
      run.events != [] && Last(run.events) == Event(IsVMIDAvailable(vmid), Available(true))) ||
     (run.value.state == Written(data) && |run.value.diags| == 2 && DELETE_FAILED <= run.value.diags[1].detail))
  }

  /**
   * Everything after the creation of the container `vmid`: at most one
   * deletion, right after a poll that saw it stopped, and the run either
   * converted the container or abandoned it.
   */
  predicate TplProvisioned(run: Run<Response<TplModel>>, data: TplModel, vmid: int, creations: int)
  {
    Count(run.events, Creations) == creations &&
    Count(run.events, Deletes) <= 1 && DeletesJustified(run.events, data.node, vmid) &&
    (Converted(run, data, vmid) || Abandoned(run, data, vmid))
  }

  lemma ConvertedPrepend(pre: seq<Event>, sub: Run<Response<TplModel>>, data: TplModel, vmid: int)
    requires Count(pre, Deletes) == 0 && Count(pre, Conversions) == 0
    requires Converted(sub, data, vmid)
    ensures Converted(Extend(pre, sub), data, vmid)
  {
    CountConcat(pre, sub.events, Deletes);
    CountConcat(pre, sub.events, Conversions);
    assert Last(pre + sub.events) == Last(sub.events);
  }

  lemma AbandonedPrepend(pre: seq<Event>, sub: Run<Response<TplModel>>, data: TplModel, vmid: int)
    requires Count(pre, Deletes) == 0 && Count(pre, Conversions) == 0
    requires Abandoned(sub, data, vmid)
    ensures Abandoned(Extend(pre, sub), data, vmid)
  {
    CountConcat(pre, sub.events, Deletes);
    CountConcat(pre, sub.events, Conversions);
    if sub.events != [] {
      assert Last(pre + sub.events) == Last(sub.events);
    }
  }

  /** Calls that neither delete nor convert keep a run provisioned. */
  lemma TplProvisionedPrepend(pre: seq<Event>, sub: Run<Response<TplModel>>, data: TplModel, vmid: int, n: int)
    requires Count(pre, Deletes) == 0 && Count(pre, Conversions) == 0
    requires TplProvisioned(sub, data, vmid, n)
    ensures TplProvisioned(Extend(pre, sub), data, vmid, n + Count(pre, Creations))
    ensures Abandoned(sub, data, vmid) ==> Abandoned(Extend(pre, sub), data, vmid)
  {
    CountConcat(pre, sub.events, Creations);
    CountConcat(pre, sub.events, Deletes);
    JustifiedAfter(pre, sub.events, data.node, vmid);
    if Converted(sub, data, vmid) {
      ConvertedPrepend(pre, sub, data, vmid);
    }
    if Abandoned(sub, data, vmid) {
      AbandonedPrepend(pre, sub, data, vmid);
    }
  }

  lemma ConvertShape(data: TplModel, vmid: int, s: seq<Reply>)
    ensures Converted(ConvertRun(data, vmid, s), data, vmid)
    ensures TplProvisioned(ConvertRun(data, vmid, s), data, vmid, 0)
  {
    var t := Step(CreateTemplate(data.node, vmid), s);
    CountOne(t, Creations);
    CountOne(t, Deletes);
    CountOne(t, Conversions);
  }

  /** Without commands, the only call after the creation is the conversion. */
  lemma NoCommandsConvertsOnly(data: TplModel, vmid: int, s: seq<Reply>)
    requires data.cmds == []
    ensures var run := CommandPhaseRun(data, vmid, s);
      run.events == [Event(CreateTemplate(data.node, vmid), Head(s))] && run.rest == Tail(s) &&
      Converted(run, data, vmid)
  {
    ConvertShape(data, vmid, s);
  }

  lemma TplRollbackShape(data: TplModel, vmid: int, detail: string, s: seq<Reply>)
    ensures var run := RollbackRun(data, data.node, vmid, detail, s);
      TplProvisioned(run, data, vmid, 0) && Abandoned(run, data, vmid) && run.value.diags[0] == ClientError(detail)
  {
    RollbackShape(data, data.node, vmid, detail, s);
  }

  /** The commands neither create, delete nor convert. */
  lemma CommandsQuiet(vmid: int, cmds: seq<string>, s: seq<Reply>)
    ensures var evs := CommandsRun(vmid, cmds, s).events;
      Count(evs, Deletes) == 0 && Count(evs, Conversions) == 0 && Count(evs, Creations) == 0
  {
    var evs := CommandsRun(vmid, cmds, s).events;
    var ks := {Submissions, SettledPolls, RunningPolls};
    CommandsKinds(vmid, cmds, s);
    KindsWithinCount(evs, ks, Deletes);
    KindsWithinCount(evs, ks, Conversions);
    KindsWithinCount(evs, ks, Creations);
  }

  /** After a failed stop the container is rolled back. */
  lemma StopFailureShape(data: TplModel, vmid: int, s: seq<Reply>)
    requires UpdateStatusRun(data.node, vmid, STATUS_STOPPED, s).value.Fail?
    ensures var down := UpdateStatusRun(data.node, vmid, STATUS_STOPPED, s);
      var run := Extend(down.events, RollbackRun(data, data.node, vmid, STOP_FAILED + down.value.msg, down.rest));
      TplProvisioned(run, data, vmid, 0) && Abandoned(run, data, vmid)
  {
    var down := UpdateStatusRun(data.node, vmid, STATUS_STOPPED, s);
    StatusRunQuiet(data.node, vmid, STATUS_STOPPED, s);
    TplRollbackShape(data, vmid, STOP_FAILED + down.value.msg, down.rest);
    TplProvisionedPrepend(down.events, RollbackRun(data, data.node, vmid, STOP_FAILED + down.value.msg, down.rest), data, vmid, 0);
  }

  /** After a successful stop the container is converted. */
  lemma StopSuccessShape(data: TplModel, vmid: int, s: seq<Reply>)
    ensures var down := UpdateStatusRun(data.node, vmid, STATUS_STOPPED, s);
      var run := Extend(down.events, ConvertRun(data, vmid, down.rest));
      TplProvisioned(run, data, vmid, 0)
  {
    var down := UpdateStatusRun(data.node, vmid, STATUS_STOPPED, s);
    StatusRunQuiet(data.node, vmid, STATUS_STOPPED, s);
    ConvertShape(data, vmid, down.rest);
    TplProvisionedPrepend(down.events, ConvertRun(data, vmid, down.rest), data, vmid, 0);
  }

  /**
   * After the commands: a failed command or a failed stop abandons the
   * container; only their success can lead to the conversion.
   */
  lemma AfterTplCommandsShape(data: TplModel, vmid: int, c: Run<Outcome>)
    ensures var run := AfterTplCommands(data, vmid, c);
      var down := UpdateStatusRun(data.node, vmid, STATUS_STOPPED, c.rest);
      TplProvisioned(run, data, vmid, 0) &&
      (c.value.Fail? || down.value.Fail? ==> Abandoned(run, data, vmid))
  {
    if c.value.Fail? {
      TplRollbackShape(data, vmid, CMDS_FAILED + c.value.msg, c.rest);
    } else if UpdateStatusRun(data.node, vmid, STATUS_STOPPED, c.rest).value.Fail? {
      StopFailureShape(data, vmid, c.rest);
    } else {
      StopSuccessShape(data, vmid, c.rest);
    }
  }

  /** Starting, running the commands and what follows them. */
  lemma StartedShape(data: TplModel, vmid: int, s: seq<Reply>)
    requires data.cmds != []
    requires UpdateStatusRun(data.node, vmid, STATUS_RUNNING, s).value.Pass?
    ensures var up := UpdateStatusRun(data.node, vmid, STATUS_RUNNING, s);
      var c := CommandsRun(vmid, data.cmds, up.rest);
      var down := UpdateStatusRun(data.node, vmid, STATUS_STOPPED, c.rest);
      var run := CommandPhaseRun(data, vmid, s);
      TplProvisioned(run, data, vmid, 0) &&
      (c.value.Fail? || down.value.Fail? ==> Abandoned(run, data, vmid))
  {
    var up := UpdateStatusRun(data.node, vmid, STATUS_RUNNING, s);
    var c := CommandsRun(vmid, data.cmds, up.rest);
    var after := AfterTplCommands(data, vmid, c);
    StatusRunQuiet(data.node, vmid, STATUS_RUNNING, s);
    CommandsQuiet(vmid, data.cmds, up.rest);
    AfterTplCommandsShape(data, vmid, c);
    TplProvisionedPrepend(c.events, after, data, vmid, 0);
    TplProvisionedPrepend(up.events, Extend(c.events, after), data, vmid, 0);
  }

  /**
   * The command phase keeps the created container provisioned.  With
   * commands, a failure to start the container, a failed command or a
   * failure to stop it again each abandon it without conversion: the
   * conversion happens only after all three stages succeeded.
   */
  lemma CommandPhaseShape(data: TplModel, vmid: int, s: seq<Reply>)
    ensures var run := CommandPhaseRun(data, vmid, s);
      var up := UpdateStatusRun(data.node, vmid, STATUS_RUNNING, s);
      var c := CommandsRun(vmid, data.cmds, up.rest);
      var down := UpdateStatusRun(data.node, vmid, STATUS_STOPPED, c.rest);
      TplProvisioned(run, data, vmid, 0) &&
      (data.cmds != [] && (up.value.Fail? || c.value.Fail? || down.value.Fail?) ==> Abandoned(run, data, vmid))
  {
    if data.cmds == [] {
      ConvertShape(data, vmid, s);
    } else {
      var up := UpdateStatusRun(data.node, vmid, STATUS_RUNNING, s);
      if up.value.Fail? {
        StatusRunQuiet(data.node, vmid, STATUS_RUNNING, s);
        TplRollbackShape(data, vmid, START_FAILED + up.value.msg, up.rest);
        TplProvisionedPrepend(up.events, RollbackRun(data, data.node, vmid, START_FAILED + up.value.msg, up.rest), data, vmid, 0);
      } else {
        StartedShape(data, vmid, s);
      }
    }
  }

  /**
   * Commands are submitted only once the container was brought to
   * "running": the start's calls come first, and a failed start submits
   * nothing.
   */
  lemma CommandsAfterStart(data: TplModel, vmid: int, s: seq<Reply>)
    requires data.cmds != []
    ensures var run := CommandPhaseRun(data, vmid, s);
      var up := UpdateStatusRun(data.node, vmid, STATUS_RUNNING, s);
      |up.events| <= |run.events| && run.events[..|up.events|] == up.events &&
      (up.value.Fail? ==> Count(run.events, Submissions) == 0)
  {
    var up := UpdateStatusRun(data.node, vmid, STATUS_RUNNING, s);
    var run := CommandPhaseRun(data, vmid, s);
    var rest := run.events[|up.events|..];
    assert run.events == up.events + rest;
    if up.value.Fail? {
      StatusRunQuiet(data.node, vmid, STATUS_RUNNING, s);
      RollbackShape(data, data.node, vmid, START_FAILED + up.value.msg, up.rest);
      CountConcat(up.events, rest, Submissions);
    }
  }

  /** The creation request and what follows it, for the obtained id `vmid`. */
  predicate TplCreatedWith(run: Run<Response<TplModel>>, plan: TplModel, vmid: int)
  {
    run.value.Response? &&
    (run.value.state.Unchanged? ==>
      |run.value.diags| == 1 && CREATE_FAILED <= run.value.diags[0].detail &&
      Count(run.events, Deletes) == 0 && Count(run.events, Conversions) == 0) &&
    (!run.value.state.Unchanged? ==> TplProvisioned(run, plan.(vmid := Some(vmid)), vmid, 1))
  }

  lemma TplCreateWithIdShape(plan: TplModel, vmid: int, s: seq<Reply>)
    ensures TplCreatedWith(TplCreateWithIdRun(plan, vmid, s), plan, vmid)
  {
    var c := Step(Call.Create(TplRequestOf(plan, vmid)), s);
    CountOne(c, Deletes);
    CountOne(c, Conversions);
    CountOne(c, Creations);
    if CreatedOf(c.reply).Ok? {
      var data := plan.(vmid := Some(vmid));
      CommandPhaseShape(data, vmid, Tail(s));
      TplProvisionedPrepend([c], CommandPhaseRun(data, vmid, Tail(s)), data, vmid, 0);
    }
  }

  lemma TplCreatedPrepend(pre: seq<Event>, sub: Run<Response<TplModel>>, plan: TplModel, vmid: int)
    requires Count(pre, Deletes) == 0 && Count(pre, Conversions) == 0 && Count(pre, Creations) == 0
    requires TplCreatedWith(sub, plan, vmid)
    ensures TplCreatedWith(Extend(pre, sub), plan, vmid)
  {
    CountConcat(pre, sub.events, Deletes);
    CountConcat(pre, sub.events, Conversions);
    if !sub.value.state.Unchanged? {
      TplProvisionedPrepend(pre, sub, plan.(vmid := Some(vmid)), vmid, 1);
    }
  }

  /**
   * `Create`: when no id could be obtained or the creation request failed,
   * the only effect is one error, with nothing deleted or converted.  Once
   * the container exists (created once, with the configured id when there
   * is one) the run is provisioned as `TplProvisioned` says.
   */
  lemma TplCreateShape(plan: TplModel, s: seq<Reply>)
    ensures var run := TplCreateRun(plan, s);
      var id := GetVMIDRun(plan.vmid, s);
      run.value.Response? &&
      (id.value.Err? ==> run.value == Response([ClientError(CREATE_FAILED + id.value.msg)], Unchanged) && |run.events| <= 1) &&
      (id.value.Ok? ==> (plan.vmid.Some? ==> id.value.value == plan.vmid.value) && TplCreatedWith(run, plan, id.value.value))
  {
    var id := GetVMIDRun(plan.vmid, s);
    if id.value.Ok? {
      var sub := TplCreateWithIdRun(plan, id.value.value, id.rest);
      TplCreateWithIdShape(plan, id.value.value, id.rest);
      if plan.vmid.None? {
        CountOne(id.events[0], Deletes);
        CountOne(id.events[0], Conversions);
        CountOne(id.events[0], Creations);
      }
      TplCreatedPrepend(id.events, sub, plan, id.value.value);
    }
  }

  // -------------------------------------------------------------------------
  // Properties of Delete and ImportState.

  /**
   * `Delete` removes the template from the state exactly when `deleteLXC`
   * succeeded: it was deleted once, right after a poll that saw it stopped,
   * and its id was reported free.
   */
  lemma TplDeleteRemoves(data: TplModel, s: seq<Reply>)
    ensures var run := TplDeleteRun(data, s);
      var vmid := ValueOr(data.vmid, 0);
      run.value.Response? &&
      (run.value.state.Removed? <==> run.value.diags == []) &&
      Count(run.events, Deletes) <= 1 && DeletesJustified(run.events, data.node, vmid) &&
      (run.value.state.Removed? ==>
        Count(run.events, Deletes) == 1 &&
        run.events != [] && Last(run.events) == Event(IsVMIDAvailable(vmid), Available(true))) &&
      (!run.value.state.Removed? ==>
        run.value.state.Unchanged? && |run.value.diags| == 1 && DELETE_NODE_FAILED <= run.value.diags[0].detail)
  {
    var vmid := ValueOr(data.vmid, 0);
    DeleteOnlyWhenStopped(data.node, vmid, s);
    DeleteOutcome(data.node, vmid, s);
  }

  /**
   * `ImportState` accepts exactly what `strconv.Atoi` accepts and stores it
   * as the template's id; every 64-bit id written in decimal imports as
   * itself.
   */
  lemma TplImportRejectsNonNumeric(id: string)
    ensures var r := ImportTplState(id);
      r.Response? &&
      (r.state.Written? <==> Atoi(id).ok) &&
      (!Atoi(id).ok ==> r.state.Unchanged? && r.diags == [Diag(IMPORT_ERROR, IMPORT_FAILED + AtoiError(id))]) &&
      (Atoi(id).ok ==>
        r.diags == [] && r.state.model.(vmid := None) == NullTpl && r.state.model.vmid == Some(Atoi(id).value))
  {
  }

  lemma TplImportFormatted(n: int)
    requires MIN_INT <= n <= MAX_INT
    ensures ImportTplState(FormatInt(n)) == Response([], Written(NullTpl.(vmid := Some(n))))
  {
    AtoiFormatInt(n);
  }
}
