/**
 * The `proxmox_lxc_linked_clone` resource (`lxc/lxc_linked_clone.go`):
 * cloning a container, bringing the clone to its configured status, and
 * reporting the clone's addresses while it runs.
 *
 * The clone's addresses come from `computeLXCCloneNetIPs`, whose body is not
 * part of this model: it is one `CloneNetIPs` call answered by the list of
 * interfaces (or an error).
 */
module LxcLinkedClone {
  import opened Gateway
  import opened Plugin
  import opened Decimal
  import opened LxcNet
  import opened LxcStatus
  import opened LxcDelete
  import opened Compensation

  /**
   * `LXCLinkedCloneResourceModel`.  `sourceId` is the `source_id` attribute
   * (the container cloned), `newId` the `id` attribute (the clone).  Null
   * optional attributes are `None`; a null node or status reads as "".
   * `networks` is null (`None`) until the clone's addresses are known.
   */
  datatype CloneModel = CloneModel(
    sourceId: Option<int>, node: string, newId: Option<int>, bwlimit: Option<int>,
    description: Option<string>, hostname: Option<string>, pool: Option<string>,
    snapname: Option<string>, status: string, networks: Option<seq<Iface>>)

  const SOURCE_REQUIRED := "source_id property is required"
  const NODE_REQUIRED := "node property is required"
  const VMID_FAILED := "Unable to generate a vmid, got error: "
  const CLONE_FAILED := "Unable to clone lxc, got error: "
  const UPDATE_STATUS_FAILED := "Unable to update lxc status, got error: "
  const READ_IPS_FAILED := "Unable to read lxc ifaces ips, got error: "
  const READ_FAILED := "Unable to read node lxc, got error: "
  const IMPORT_ERROR := "Import Error"
  const IMPORT_FAILED := "Unable to import lxc linked clone, got error: "

  /** The clone request for the target id `target`; unset options keep their zero value. */
  function CloneRequestOf(plan: CloneModel, target: int): CloneRequest
  {
    CloneRequest(
      plan.node, ValueOr(plan.sourceId, 0), target, ValueOr(plan.bwlimit, 0),
      ValueOr(plan.description, ""), ValueOr(plan.hostname, ""),
      ValueOr(plan.pool, ""), ValueOr(plan.snapname, ""))
  }

  // -------------------------------------------------------------------------
  // Create.

  /**
   * `Create`: check the inputs, obtain the target id when none is
   * configured, clone, then bring the clone to its status.
   */
  function CloneCreateRun(plan: CloneModel, s: seq<Reply>): Run<Response<CloneModel>>
  {
    if ValueOr(plan.sourceId, 0) == 0 then Run(Response([ClientError(SOURCE_REQUIRED)], Unchanged), s, [])
    else if plan.node == "" then Run(Response([ClientError(NODE_REQUIRED)], Unchanged), s, [])
    else if ValueOr(plan.newId, 0) != 0 then CloneWithIdRun(plan, plan.newId.value, s)
    else
      var id := GetVMIDRun(plan.newId, s);
      if id.value.Err? then Run(Response([ClientError(VMID_FAILED + id.value.msg)], Unchanged), id.rest, id.events)
      else Extend(id.events, CloneWithIdRun(plan, id.value.value, id.rest))
  }

  /** The clone request, then the clone's status and addresses. */
  function CloneWithIdRun(plan: CloneModel, target: int, s: seq<Reply>): Run<Response<CloneModel>>
  {
    var c := Step(Clone(CloneRequestOf(plan, target)), s);
    if AckOf(c.reply).Fail? then Run(Response([ClientError(CLONE_FAILED + AckOf(c.reply).msg)], Unchanged), Tail(s), [c])
    else Extend([c], SettleRun(plan.(newId := Some(target), networks := None), target, Tail(s)))
  }

  /**
   * After the clone exists (and is written to the state with null
   * networks): converge its status, rolling it back on failure, then read
   * its addresses if it is to run; an address failure is only reported.
   */
  function SettleRun(data: CloneModel, target: int, s: seq<Reply>): Run<Response<CloneModel>>
  {
    var st := UpdateStatusRun(data.node, target, data.status, s);
    if st.value.Fail? then Extend(st.events, RollbackRun(data, data.node, target, UPDATE_STATUS_FAILED + st.value.msg, st.rest))
    else Extend(st.events, AddressesRun(data, target, st.rest))
  }

  /** The clone's addresses, read only when it is to run. */
  function AddressesRun(data: CloneModel, target: int, s: seq<Reply>): Run<Response<CloneModel>>
  {
    if data.status != STATUS_RUNNING then Run(Response([], Written(data)), s, [])
    else
      var n := Step(CloneNetIPs(data.node, target), s);
      var ifaces := IfacesOf(n.reply);
      if ifaces.Err? then Run(Response([ClientError(READ_IPS_FAILED + ifaces.msg)], Written(data)), Tail(s), [n])
      else Run(Response([], Written(data.(networks := Some(ifaces.value)))), Tail(s), [n])
  }

  method Create(gw: Cluster, plan: CloneModel) returns (resp: Response<CloneModel>)
    modifies gw
    ensures var run := CloneCreateRun(plan, old(gw.script));
      resp == run.value && gw.script == run.rest && gw.trace == old(gw.trace) + run.events
  {
    var sourceId := ValueOr(plan.sourceId, 0);
    if sourceId == 0 {
      return Response([ClientError(SOURCE_REQUIRED)], Unchanged);
    }
    if plan.node == "" {
      return Response([ClientError(NODE_REQUIRED)], Unchanged);
    }
    var targetId := ValueOr(plan.newId, 0);
    ghost var idRun := GetVMIDRun(plan.newId, gw.script);
    if targetId == 0 {
      var id := GetVMID(gw, plan.newId);
      if id.Err? {
        return Response([ClientError(VMID_FAILED + id.msg)], Unchanged);
      }
      targetId := id.value;
      resp := CloneWithId(gw, plan, targetId);
      AppendAssoc(old(gw.trace), idRun.events, CloneWithIdRun(plan, targetId, idRun.rest).events);
    } else {
      resp := CloneWithId(gw, plan, targetId);
    }
  }

  method CloneWithId(gw: Cluster, plan: CloneModel, target: int) returns (resp: Response<CloneModel>)
    modifies gw
    ensures var run := CloneWithIdRun(plan, target, old(gw.script));
      resp == run.value && gw.script == run.rest && gw.trace == old(gw.trace) + run.events
  {
    var req := CloneRequest(plan.node, ValueOr(plan.sourceId, 0), target, 0, "", "", "", "");
    if plan.bwlimit.Some? {
      req := req.(bwlimit := plan.bwlimit.value);
    }
    if plan.description.Some? {
      req := req.(description := plan.description.value);
    }
    if plan.hostname.Some? {
      req := req.(hostname := plan.hostname.value);
    }
    if plan.pool.Some? {
      req := req.(pool := plan.pool.value);
    }
    if plan.snapname.Some? {
      req := req.(snapname := plan.snapname.value);
    }
    assert req == CloneRequestOf(plan, target);
    var r := gw.Send(Clone(req));
    if AckOf(r).Fail? {
      return Response([ClientError(CLONE_FAILED + AckOf(r).msg)], Unchanged);
    }
    var data := plan.(newId := Some(target), networks := None);
    ghost var settle := SettleRun(data, target, gw.script);
    resp := Settle(gw, data, target);
    AppendAssoc(old(gw.trace), [Event(Clone(req), r)], settle.events);
  }

  method Settle(gw: Cluster, data: CloneModel, target: int) returns (resp: Response<CloneModel>)
    modifies gw
    ensures var run := SettleRun(data, target, old(gw.script));
      resp == run.value && gw.script == run.rest && gw.trace == old(gw.trace) + run.events
  {
    ghost var st := UpdateStatusRun(data.node, target, data.status, gw.script);
    var err := UpdateLXCStatus(gw, data.node, target, data.status);
    if err.Fail? {
      resp := Rollback(gw, data, data.node, target, UPDATE_STATUS_FAILED + err.msg);
      AppendAssoc(old(gw.trace), st.events, RollbackRun(data, data.node, target, UPDATE_STATUS_FAILED + err.msg, st.rest).events);
      return;
    }
    ghost var a := AddressesRun(data, target, gw.script);
    resp := ReadAddresses(gw, data, target);
    AppendAssoc(old(gw.trace), st.events, a.events);
  }

  method ReadAddresses(gw: Cluster, data: CloneModel, target: int) returns (resp: Response<CloneModel>)
    modifies gw
    ensures var run := AddressesRun(data, target, old(gw.script));
      resp == run.value && gw.script == run.rest && gw.trace == old(gw.trace) + run.events
  {
    if data.status != STATUS_RUNNING {
      return Response([], Written(data));
    }
    var r := gw.Send(CloneNetIPs(data.node, target));
    var ifaces := IfacesOf(r);
    if ifaces.Err? {
      return Response([ClientError(READ_IPS_FAILED + ifaces.msg)], Written(data));
    }
    return Response([], Written(data.(networks := Some(ifaces.value))));
  }

  // -------------------------------------------------------------------------
  // Read, Update, Delete, ImportState.

  /**
   * `Read` as written: a missing container is only logged (the call to
   * `RemoveResource` acts on the request's copy of the state), so the
   * response keeps the prior state and reports nothing.
   */
  function CloneReadRun(data: CloneModel, s: seq<Reply>): Run<Response<CloneModel>>
  {
    var id := ValueOr(data.newId, 0);
    var ev := Step(GetByID(data.node, id), s);
    var rec := RecordOf(ev.reply);
    if rec.Err? then Run(Response([ClientError(READ_FAILED + rec.msg)], Unchanged), Tail(s), [ev])
    else if rec.value.None? then Run(Response([], Unchanged), Tail(s), [ev])
    else
      var seen := data.(status := rec.value.value.status);
      if data.status != STATUS_RUNNING then Run(Response([], Written(seen.(networks := None))), Tail(s), [ev])
      else
        var n := Step(CloneNetIPs(data.node, id), Tail(s));
        var ifaces := IfacesOf(n.reply);
        if ifaces.Err? then Run(Response([ClientError(READ_IPS_FAILED + ifaces.msg)], Written(seen)), Tail(Tail(s)), [ev, n])
        else Run(Response([], Written(seen.(networks := Some(ifaces.value)))), Tail(Tail(s)), [ev, n])
  }

  /** `Read` as its log message says it behaves: a missing container leaves the state. */
  function CloneReadFixedRun(data: CloneModel, s: seq<Reply>): Run<Response<CloneModel>>
  {
    var r := CloneReadRun(data, s);
    if RecordOf(Head(s)) == Ok(None) then Run(Response([], Removed), r.rest, r.events) else r
  }

  method Read(gw: Cluster, data: CloneModel) returns (resp: Response<CloneModel>)
    modifies gw
    ensures var run := CloneReadRun(data, old(gw.script));
      resp == run.value && gw.script == run.rest && gw.trace == old(gw.trace) + run.events
  {
    var id := ValueOr(data.newId, 0);
    var r := gw.Send(GetByID(data.node, id));
    var rec := RecordOf(r);
    if rec.Err? {
      return Response([ClientError(READ_FAILED + rec.msg)], Unchanged);
    } else if rec.value.None? {
      return Response([], Unchanged);
    }
    var seen := data.(status := rec.value.value.status);
    if data.status != STATUS_RUNNING {
      return Response([], Written(seen.(networks := None)));
    }
    var n := gw.Send(CloneNetIPs(data.node, id));
    var ifaces := IfacesOf(n);
    if ifaces.Err? {
      return Response([ClientError(READ_IPS_FAILED + ifaces.msg)], Written(seen));
    }
    return Response([], Written(seen.(networks := Some(ifaces.value))));
  }

  /**
   * `Update`: converge the clone to the planned status; the state then
   * takes that status, and the clone's addresses when it is to run.
   */
  function CloneUpdateRun(plan: CloneModel, state: CloneModel, s: seq<Reply>): Run<Response<CloneModel>>
  {
    var id := ValueOr(state.newId, 0);
    var st := UpdateStatusRun(state.node, id, plan.status, s);
    if st.value.Fail? then Run(Response([ClientError(UPDATE_STATUS_FAILED + st.value.msg)], Unchanged), st.rest, st.events)
    else
      var next := state.(status := plan.status);
      if plan.status != STATUS_RUNNING then Run(Response([], Written(next)), st.rest, st.events)
      else
        var n := Step(CloneNetIPs(state.node, id), st.rest);
        var ifaces := IfacesOf(n.reply);
        if ifaces.Err? then Run(Response([ClientError(READ_IPS_FAILED + ifaces.msg)], Written(next)), Tail(st.rest), st.events + [n])
        else Run(Response([], Written(next.(networks := Some(ifaces.value)))), Tail(st.rest), st.events + [n])
  }

  method Update(gw: Cluster, plan: CloneModel, state: CloneModel) returns (resp: Response<CloneModel>)
    modifies gw
    ensures var run := CloneUpdateRun(plan, state, old(gw.script));
      resp == run.value && gw.script == run.rest && gw.trace == old(gw.trace) + run.events
  {
    var node := state.node;
    var id := ValueOr(state.newId, 0);
    var status := plan.status;
    var err := UpdateLXCStatus(gw, node, id, status);
    if err.Fail? {
      return Response([ClientError(UPDATE_STATUS_FAILED + err.msg)], Unchanged);
    }
    var next := state.(status := status);
    if status != STATUS_RUNNING {
      return Response([], Written(next));
    }
    var r := gw.Send(CloneNetIPs(node, id));
    var ifaces := IfacesOf(r);
    if ifaces.Err? {
      return Response([ClientError(READ_IPS_FAILED + ifaces.msg)], Written(next));
    }
    return Response([], Written(next.(networks := Some(ifaces.value))));
  }

  /** `Delete`: `deleteLXC` on the clone; the resource leaves the state when it succeeds. */
  function CloneDeleteRun(data: CloneModel, s: seq<Reply>): Run<Response<CloneModel>>
  {
    var d := DeleteRun(data.node, ValueOr(data.newId, 0), s);
    if d.value.Fail? then Run(Response([ClientError(DELETE_FAILED + d.value.msg)], Unchanged), d.rest, d.events)
    else Run(Response([], Removed), d.rest, d.events)
  }

  method Delete(gw: Cluster, data: CloneModel) returns (resp: Response<CloneModel>)
    modifies gw
    ensures var run := CloneDeleteRun(data, old(gw.script));
      resp == run.value && gw.script == run.rest && gw.trace == old(gw.trace) + run.events
  {
    var err := DeleteLXC(gw, data.node, ValueOr(data.newId, 0));
    if err.Fail? {
      return Response([ClientError(DELETE_FAILED + err.msg)], Unchanged);
    }
    return Response([], Removed);
  }

  /** The model with every attribute null. */
  const NullClone := CloneModel(None, "", None, None, None, None, None, None, "", None)

  /** `ImportState` as written: the imported id becomes `source_id`. */
  function ImportCloneState(id: string): Response<CloneModel>
  {
    var p := Atoi(id);
    if !p.ok then Response([Diag(IMPORT_ERROR, IMPORT_FAILED + AtoiError(id))], Unchanged)
    else Response([], Written(NullClone.(sourceId := Some(p.value))))
  }

  /** `ImportState` storing the imported id as the clone's own id. */
  function ImportCloneStateFixed(id: string): Response<CloneModel>
  {
    var p := Atoi(id);
    if !p.ok then Response([Diag(IMPORT_ERROR, IMPORT_FAILED + AtoiError(id))], Unchanged)
    else Response([], Written(NullClone.(newId := Some(p.value))))
  }

  // -------------------------------------------------------------------------
  // Properties of Create.

  /**
   * What follows a successful Clone into `target`: the clone stays in the
   * state unless it was deleted; a failed status convergence deletes it at
   * most once, right after a poll that saw it stopped, and removes it from
   * the state exactly when that deletion completed; otherwise nothing is
   * deleted and the addresses are read once, and only when the clone is to
   * run; an address failure is reported without rollback and leaves the
   * networks null.
   */
  predicate Settled(run: Run<Response<CloneModel>>, data: CloneModel, target: int, creations: int)
  {
    run.value.Response? && Count(run.events, Creations) == creations &&
    Count(run.events, Deletes) <= 1 && DeletesJustified(run.events, data.node, target) &&
    Count(run.events, IfaceQueries) <= (if data.status == STATUS_RUNNING then 1 else 0) &&
    match run.value.state
    case Unchanged => false
    case Removed =>
      |run.value.diags| == 1 && UPDATE_STATUS_FAILED <= run.value.diags[0].detail &&
      Count(run.events, Deletes) == 1 &&
      run.events != [] && Last(run.events) == Event(IsVMIDAvailable(target), Available(true))
    case Written(m) =>
      (|run.value.diags| == 2 && m == data &&
       UPDATE_STATUS_FAILED <= run.value.diags[0].detail && DELETE_FAILED <= run.value.diags[1].detail) ||
      (Count(run.events, Deletes) == 0 && m.(networks := None) == data &&
       ((run.value.diags == [] && (m.networks.Some? <==> data.status == STATUS_RUNNING) &&
         (m.networks.Some? ==>
           run.events != [] && Last(run.events) == Event(CloneNetIPs(data.node, target), Interfaces(m.networks.value)))) ||
        (|run.value.diags| == 1 && READ_IPS_FAILED <= run.value.diags[0].detail &&
         data.status == STATUS_RUNNING && m.networks.None?)))
  }

  lemma SettleShape(data: CloneModel, target: int, s: seq<Reply>)
    requires data.networks.None?
    ensures Settled(SettleRun(data, target, s), data, target, 0)
  {
    var st := UpdateStatusRun(data.node, target, data.status, s);
    StatusRunQuiet(data.node, target, data.status, s);
    if st.value.Fail? {
      var detail := UPDATE_STATUS_FAILED + st.value.msg;
      RollbackShape(data, data.node, target, detail, st.rest);
      SettledPrepend(st.events, RollbackRun(data, data.node, target, detail, st.rest), data, target, 0);
    } else {
      AddressesShape(data, target, st.rest);
      SettledPrepend(st.events, AddressesRun(data, target, st.rest), data, target, 0);
    }
  }

  lemma AddressesShape(data: CloneModel, target: int, s: seq<Reply>)
    requires data.networks.None?
    ensures Settled(AddressesRun(data, target, s), data, target, 0)
  {
    if data.status == STATUS_RUNNING {
      var n := Step(CloneNetIPs(data.node, target), s);
      CountOne(n, Deletes);
      CountOne(n, IfaceQueries);
      CountOne(n, Creations);
    }
  }

  /** Calls that neither delete nor query addresses keep a run settled. */
  lemma SettledPrepend(pre: seq<Event>, sub: Run<Response<CloneModel>>, data: CloneModel, target: int, n: int)
    requires Count(pre, Deletes) == 0 && Count(pre, IfaceQueries) == 0
    requires Settled(sub, data, target, n)
    ensures Settled(Extend(pre, sub), data, target, n + Count(pre, Creations))
  {
    var evs := pre + sub.events;
    CountConcat(pre, sub.events, Deletes);
    CountConcat(pre, sub.events, IfaceQueries);
    CountConcat(pre, sub.events, Creations);
    JustifiedAfter(pre, sub.events, data.node, target);
    if sub.events != [] {
      assert Last(evs) == Last(sub.events);
    }
  }

  /**
   * The Clone into `target` and what follows: a failed Clone is reported
   * alone, with nothing deleted; a successful one is settled.
   */
  predicate ClonedInto(run: Run<Response<CloneModel>>, plan: CloneModel, target: int)
  {
    run.value.Response? && run.events != [] &&
    run.events[0].call == Clone(CloneRequestOf(plan, target)) &&
    (AckOf(run.events[0].reply).Fail? ==>
      run.value == Response([ClientError(CLONE_FAILED + AckOf(run.events[0].reply).msg)], Unchanged) &&
      |run.events| == 1 && Count(run.events, Deletes) == 0 && Count(run.events, Creations) == 1) &&
    (AckOf(run.events[0].reply).Pass? ==>
      Settled(run, plan.(newId := Some(target), networks := None), target, 1))
  }

  lemma CloneWithIdShape(plan: CloneModel, target: int, s: seq<Reply>)
    ensures ClonedInto(CloneWithIdRun(plan, target, s), plan, target)
  {
    var c := Step(Clone(CloneRequestOf(plan, target)), s);
    CountOne(c, Deletes);
    CountOne(c, IfaceQueries);
    CountOne(c, Creations);
    if AckOf(c.reply).Pass? {
      var data := plan.(newId := Some(target), networks := None);
      SettleShape(data, target, Tail(s));
      SettledPrepend([c], SettleRun(data, target, Tail(s)), data, target, 0);
    }
  }

  /**
   * With no configured id: one id is allocated first; an allocation error
   * ends the creation with one error and nothing cloned, and an allocated
   * id is the target of the Clone.
   */
  predicate AllocatedThenCloned(run: Run<Response<CloneModel>>, plan: CloneModel, s: seq<Reply>)
  {
    run.value.Response? && run.events != [] && run.events[0] == Step(GetRandomVMID, s) &&
    (VMIDOf(Head(s)).Err? ==>
      run.value == Response([ClientError(VMID_FAILED + VMIDOf(Head(s)).msg)], Unchanged) &&
      |run.events| == 1 && Count(run.events, Creations) == 0) &&
    (VMIDOf(Head(s)).Ok? ==>
      ClonedInto(Run(run.value, run.rest, run.events[1..]), plan, VMIDOf(Head(s)).value))
  }

  lemma AllocatedShape(plan: CloneModel, s: seq<Reply>)
    requires ValueOr(plan.sourceId, 0) != 0 && plan.node != "" && plan.newId.None?
    ensures AllocatedThenCloned(CloneCreateRun(plan, s), plan, s)
  {
    var run := CloneCreateRun(plan, s);
    var id := GetVMIDRun(plan.newId, s);
    if id.value.Ok? {
      var sub := CloneWithIdRun(plan, id.value.value, id.rest);
      CloneWithIdShape(plan, id.value.value, id.rest);
      assert run.events[1..] == sub.events;
      assert Run(run.value, run.rest, run.events[1..]) == sub;
    } else {
      CountOne(id.events[0], Creations);
    }
  }

  /**
   * `Create` refuses a `source_id` of 0 or an empty node before any call,
   * with the script untouched.
   */
  lemma CloneInputsChecked(plan: CloneModel, s: seq<Reply>)
    requires ValueOr(plan.sourceId, 0) == 0 || plan.node == ""
    ensures var run := CloneCreateRun(plan, s);
      run.events == [] && run.rest == s && Count(run.events, Creations) == 0 &&
      run.value == Response([ClientError(if ValueOr(plan.sourceId, 0) == 0 then SOURCE_REQUIRED else NODE_REQUIRED)], Unchanged)
  {
    assert Kinds([]) == [];
  }

  /** With valid inputs, a configured id is the clone's target as is. */
  lemma ConfiguredTarget(plan: CloneModel, s: seq<Reply>)
    requires ValueOr(plan.sourceId, 0) != 0 && plan.node != "" && plan.newId.Some?
    ensures ClonedInto(CloneCreateRun(plan, s), plan, plan.newId.value)
  {
    var sub := CloneWithIdRun(plan, plan.newId.value, s);
    CloneWithIdShape(plan, plan.newId.value, s);
    if plan.newId.value == 0 {
      assert [] + sub.events == sub.events;
    }
    assert CloneCreateRun(plan, s) == sub;
  }

  // -------------------------------------------------------------------------
  // Properties of Read, Update, Delete, ImportState.

  /**
   * `Read` as written: a missing container is reported by nothing and the
   * resource stays in the state; for the input below, the container 100 of
   * "pve" is gone and the state keeps it.
   */
  lemma MissingCloneKept()
    ensures var data := NullClone.(node := "pve", newId := Some(100));
      var run := CloneReadRun(data, [Record(None)]);
      run.value == Response([], Unchanged) && run.events == [Event(GetByID("pve", 100), Record(None))]
  {
  }

  /**
   * `Read`, corrected: the resource leaves the state exactly when the
   * cluster has no such container, without an error; every other outcome is
   * that of the code as written.
   */
  lemma MissingCloneRemoved(data: CloneModel, s: seq<Reply>)
    ensures var run := CloneReadFixedRun(data, s);
      (run.value.Response? && run.value.state.Removed? <==> RecordOf(Head(s)) == Ok(None)) &&
      (run.value.Response? && run.value.state.Removed? ==> run.value.diags == [] && |run.events| == 1) &&
      (RecordOf(Head(s)) != Ok(None) ==> run == CloneReadRun(data, s))
  {
    CloneReadRefreshes(data, s);
  }

  /**
   * `Read` asks for the clone first and reads the addresses only when its
   * prior status is "running"; otherwise the networks become null.  A found
   * clone takes its status from the cluster and keeps every other
   * attribute but its networks; an address failure keeps the prior
   * networks and is reported once.
   */
  lemma CloneReadRefreshes(data: CloneModel, s: seq<Reply>)
    ensures var run := CloneReadRun(data, s);
      var id := ValueOr(data.newId, 0);
      var rec := RecordOf(Head(s));
      run.value.Response? && run.events != [] && run.events[0] == Step(GetByID(data.node, id), s) &&
      !run.value.state.Removed? &&
      (run.value.state.Written? <==> rec.Ok? && rec.value.Some?) &&
      (run.value.state.Unchanged? ==> |run.events| == 1 && (run.value.diags == [] <==> rec == Ok(None))) &&
      Count(run.events, IfaceQueries) <= (if data.status == STATUS_RUNNING then 1 else 0) &&
      Count(run.events, Deletes) == 0 &&
      (run.value.state.Written? ==>
        var m := run.value.state.model;
        m.status == rec.value.value.status && m.(status := data.status, networks := data.networks) == data &&
        (data.status != STATUS_RUNNING ==> m.networks.None? && run.value.diags == []) &&
        (data.status == STATUS_RUNNING ==>
          |run.events| == 2 && run.events[1].call == CloneNetIPs(data.node, id) &&
          (IfacesOf(run.events[1].reply).Ok? ==> run.value.diags == [] && m.networks == Some(IfacesOf(run.events[1].reply).value)) &&
          (IfacesOf(run.events[1].reply).Err? ==>
            m.networks == data.networks && run.value.diags == [ClientError(READ_IPS_FAILED + IfacesOf(run.events[1].reply).msg)])))
  {
    var run := CloneReadRun(data, s);
    var id := ValueOr(data.newId, 0);
    CountOne(run.events[0], IfaceQueries);
    CountOne(run.events[0], Deletes);
    if |run.events| == 2 {
      CountTwo(run.events[0], run.events[1], IfaceQueries);
      CountTwo(run.events[0], run.events[1], Deletes);
      assert run.events == [run.events[0], run.events[1]];
    } else {
      assert run.events == [run.events[0]];
    }
  }

  /**
   * `Update` converges the clone to the planned status and never creates or
   * deletes; it reads the addresses once exactly when that succeeded and
   * the planned status is "running".
   */
  lemma CloneUpdateCalls(plan: CloneModel, state: CloneModel, s: seq<Reply>)
    ensures var run := CloneUpdateRun(plan, state, s);
      var st := UpdateStatusRun(state.node, ValueOr(state.newId, 0), plan.status, s);
      Count(run.events, Deletes) == 0 && Count(run.events, Creations) == 0 &&
      Count(run.events, IfaceQueries) == (if st.value.Pass? && plan.status == STATUS_RUNNING then 1 else 0)
  {
    var id := ValueOr(state.newId, 0);
    var st := UpdateStatusRun(state.node, id, plan.status, s);
    StatusRunQuiet(state.node, id, plan.status, s);
    if st.value.Pass? && plan.status == STATUS_RUNNING {
      QueryAfter(st.events, Step(CloneNetIPs(state.node, id), st.rest));
    }
  }

  /** One address query after calls that neither delete, query nor create. */
  lemma QueryAfter(pre: seq<Event>, n: Event)
    requires Count(pre, Deletes) == 0 && Count(pre, IfaceQueries) == 0 && Count(pre, Creations) == 0
    requires n.call.CloneNetIPs?
    ensures Count(pre + [n], Deletes) == 0 && Count(pre + [n], IfaceQueries) == 1 && Count(pre + [n], Creations) == 0
  {
    CountOne(n, Deletes);
    CountOne(n, IfaceQueries);
    CountOne(n, Creations);
    CountConcat(pre, [n], Deletes);
    CountConcat(pre, [n], IfaceQueries);
    CountConcat(pre, [n], Creations);
  }

  /**
   * When the status cannot be converged the state is left alone with one
   * error; otherwise the state takes the planned status and keeps
   * everything else but its networks, which change only to the addresses
   * of the last reply; an address failure is reported and keeps the prior
   * networks.
   */
  lemma CloneUpdateWrites(plan: CloneModel, state: CloneModel, s: seq<Reply>)
    ensures var run := CloneUpdateRun(plan, state, s);
      var st := UpdateStatusRun(state.node, ValueOr(state.newId, 0), plan.status, s);
      run.value.Response? &&
      (run.value.state.Unchanged? <==> st.value.Fail?) &&
      (st.value.Fail? ==> run.value.diags == [ClientError(UPDATE_STATUS_FAILED + st.value.msg)]) &&
      (run.value.state.Written? ==>
        var m := run.value.state.model;
        m == state.(status := plan.status, networks := m.networks) &&
        (m.networks != state.networks ==>
          run.events != [] && IfacesOf(Last(run.events).reply).Ok? &&
          m.networks == Some(IfacesOf(Last(run.events).reply).value)) &&
        |run.value.diags| <= 1 &&
        (run.value.diags != [] ==> m.networks == state.networks && READ_IPS_FAILED <= run.value.diags[0].detail))
  {
  }

  /**
   * `Delete` removes the clone from the state exactly when `deleteLXC`
   * succeeded: the clone was deleted once, right after a poll that saw it
   * stopped, and its id was reported free.
   */
  lemma CloneDeleteRemoves(data: CloneModel, s: seq<Reply>)
    ensures var run := CloneDeleteRun(data, s);
      var id := ValueOr(data.newId, 0);
      run.value.Response? &&
      (run.value.state.Removed? <==> run.value.diags == []) &&
      Count(run.events, Deletes) <= 1 && DeletesJustified(run.events, data.node, id) &&
      (run.value.state.Removed? ==>
        Count(run.events, Deletes) == 1 &&
        run.events != [] && Last(run.events) == Event(IsVMIDAvailable(id), Available(true))) &&
      (!run.value.state.Removed? ==>
        run.value.state.Unchanged? && |run.value.diags| == 1 && DELETE_FAILED <= run.value.diags[0].detail)
  {
    var id := ValueOr(data.newId, 0);
    DeleteOnlyWhenStopped(data.node, id, s);
    DeleteOutcome(data.node, id, s);
  }

  /**
   * `ImportState` accepts exactly what `strconv.Atoi` accepts; any other id
   * is refused with an import error and no state.  An accepted id is the
   * only attribute set.
   */
  lemma ImportRejectsNonInteger(id: string)
    ensures var r := ImportCloneState(id);
      r.Response? &&
      (r.state.Written? <==> Atoi(id).ok) &&
      (!Atoi(id).ok ==> r.state.Unchanged? && r.diags == [Diag(IMPORT_ERROR, IMPORT_FAILED + AtoiError(id))]) &&
      (Atoi(id).ok ==>
        r.diags == [] && r.state.model.(sourceId := None) == NullClone &&
        r.state.model.sourceId == Some(Atoi(id).value))
  {
  }

  /** Every 64-bit id written in decimal imports as that id. */
  lemma ImportFormatted(n: int)
    requires MIN_INT <= n <= MAX_INT
    ensures ImportCloneState(FormatInt(n)) == Response([], Written(NullClone.(sourceId := Some(n))))
    ensures ImportCloneStateFixed(FormatInt(n)) == Response([], Written(NullClone.(newId := Some(n))))
  {
    AtoiFormatInt(n);
  }

  /**
   * As written, the imported id lands in `source_id`, so the first Read
   * after an import asks for container 0 whatever id was imported.
   */
  lemma ImportedCloneReadsZero(id: string, s: seq<Reply>)
    requires Atoi(id).ok
    ensures CloneReadRun(ImportCloneState(id).state.model, s).events[0].call == GetByID("", 0)
  {
  }

  /** Corrected, the first Read after an import asks for the imported container. */
  lemma ImportedCloneReadsItself(id: string, s: seq<Reply>)
    requires Atoi(id).ok
    ensures ImportCloneStateFixed(id).state.Written?
    ensures CloneReadRun(ImportCloneStateFixed(id).state.model, s).events[0].call == GetByID("", Atoi(id).value)
  {
  }
}
