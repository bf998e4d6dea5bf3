/**
 * The compensating deletion the `lxc` resources repeat after every failing
 * provisioning stage (`lxc_resource.go`, `lxc_linked_clone.go`,
 * `lxc_template.go`): report the stage's error, call `deleteLXC` on the same
 * node and id, and remove the resource from the state only when that
 * deletion succeeded; otherwise report the deletion's error as well and
 * keep the state last written.
 */
module Compensation {
  import opened Gateway
  import opened Plugin
  import opened LxcDelete

  const DELETE_FAILED := "Unable to delete lxc, got error: "

  /** The rollback of the container `vmid` on `node`, after the error `detail`. */
  function RollbackRun<M>(data: M, node: string, vmid: int, detail: string, s: seq<Reply>): Run<Response<M>>
  {
    var d := DeleteRun(node, vmid, s);
    if d.value.Fail? then
      Run(Response([ClientError(detail), ClientError(DELETE_FAILED + d.value.msg)], Written(data)), d.rest, d.events)
    else Run(Response([ClientError(detail)], Removed), d.rest, d.events)
  }

  method Rollback<M>(gw: Cluster, data: M, node: string, vmid: int, detail: string) returns (resp: Response<M>)
    modifies gw
    ensures var run := RollbackRun(data, node, vmid, detail, old(gw.script));
      resp == run.value && gw.script == run.rest && gw.trace == old(gw.trace) + run.events
  {
    var err := DeleteLXC(gw, node, vmid);
    if err.Fail? {
      return Response([ClientError(detail), ClientError(DELETE_FAILED + err.msg)], Written(data));
    }
    return Response([ClientError(detail)], Removed);
  }

  /**
   * A rollback: the stage's error first; removed from the state exactly
   * when the container was deleted and its id reported free; otherwise the
   * last written state stays, with the deletion's error second.  It deletes
   * at most once, after a poll that saw the container stopped, and neither
   * creates, queries interfaces nor runs commands.
   */
  predicate RolledBack<M(==)>(run: Run<Response<M>>, data: M, node: string, vmid: int, detail: string)
  {
    run.value.Response? && run.value.diags != [] && run.value.diags[0] == ClientError(detail) &&
    Count(run.events, Deletes) <= 1 && DeletesJustified(run.events, node, vmid) &&
    Count(run.events, IfaceQueries) == 0 && Count(run.events, Submissions) == 0 &&
    Count(run.events, Creations) == 0 && Count(run.events, Conversions) == 0 &&
    (run.value.state.Removed? ==>
      |run.value.diags| == 1 && Count(run.events, Deletes) == 1 &&
      run.events != [] && Last(run.events) == Event(IsVMIDAvailable(vmid), Available(true))) &&
    (!run.value.state.Removed? ==>
      |run.value.diags| == 2 && run.value.state == Written(data) && DELETE_FAILED <= run.value.diags[1].detail)
  }

  lemma RollbackShape<M>(data: M, node: string, vmid: int, detail: string, s: seq<Reply>)
    ensures RolledBack(RollbackRun(data, node, vmid, detail, s), data, node, vmid, detail)
  {
    var run := RollbackRun(data, node, vmid, detail, s);
    DeleteOnlyWhenStopped(node, vmid, s);
    DeleteOutcome(node, vmid, s);
    DeleteKinds(node, vmid, s);
    var ks := {StatusPolls, Transitions, Deletes, OtherCalls};
    KindsWithinCount(run.events, ks, IfaceQueries);
    KindsWithinCount(run.events, ks, Submissions);
    KindsWithinCount(run.events, ks, Creations);
    KindsWithinCount(run.events, ks, Conversions);
  }
}
