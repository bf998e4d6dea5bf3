/**
 * `deleteLXC` (internal/provider/lxc/helpers.go): stop a container, wait until
 * it is seen stopped, delete it, then wait until its id is free again.  Any
 * error of the cluster ends the pipeline and is returned.
 */
module LxcDelete {
  import opened Gateway
  import opened LxcStatus

  /** Poll the status until it reads "stopped". */
  function WaitStopped(node: string, vmid: int, s: seq<Reply>): Run<Outcome>
    decreases |s|
  {
    var ev := Step(GetStatus(node, vmid), s);
    match StatusOf(ev.reply)
    case Err(m) => Run(Fail(m), Tail(s), [ev])
    case Ok(status) =>
      if status != STATUS_STOPPED then Extend([ev], WaitStopped(node, vmid, Tail(s)))
      else Run(Pass, Tail(s), [ev])
  }

  /** Poll the id until the cluster reports it available. */
  function WaitFree(vmid: int, s: seq<Reply>): Run<Outcome>
    decreases |s|
  {
    var ev := Step(IsVMIDAvailable(vmid), s);
    match AvailableOf(ev.reply)
    case Err(m) => Run(Fail(m), Tail(s), [ev])
    case Ok(free) =>
      if !free then Extend([ev], WaitFree(vmid, Tail(s)))
      else Run(Pass, Tail(s), [ev])
  }

  /** What `deleteLXC` does against the script `s`. */
  function DeleteRun(node: string, vmid: int, s: seq<Reply>): Run<Outcome>
  {
    var st := UpdateStatusRun(node, vmid, STATUS_STOPPED, s);
    if st.value.Fail? then st
    else
      var w := WaitStopped(node, vmid, st.rest);
      if w.value.Fail? then Extend(st.events, w)
      else
        var d := Step(Delete(node, vmid), w.rest);
        if AckOf(d.reply).Fail? then Run(AckOf(d.reply), Tail(w.rest), st.events + w.events + [d])
        else Extend(st.events + w.events + [d], WaitFree(vmid, Tail(w.rest)))
  }

  method DeleteLXC(gw: Cluster, node: string, vmid: int) returns (err: Outcome)
    modifies gw
    ensures var run := DeleteRun(node, vmid, old(gw.script));
      err == run.value && gw.script == run.rest && gw.trace == old(gw.trace) + run.events
  {
    ghost var s0 := gw.script;
    ghost var st := UpdateStatusRun(node, vmid, STATUS_STOPPED, s0);
    err := UpdateLXCStatus(gw, node, vmid, STATUS_STOPPED);
    if err.Fail? {
      return;
    }
    ghost var w := WaitStopped(node, vmid, gw.script);
    err := WaitUntilStopped(gw, node, vmid);
    AppendAssoc(old(gw.trace), st.events, w.events);
    if err.Fail? {
      return;
    }
    var r := gw.Send(Delete(node, vmid));
    AppendAssoc(old(gw.trace), st.events + w.events, [Event(Delete(node, vmid), r)]);
    if AckOf(r).Fail? {
      return AckOf(r);
    }
    ghost var f := WaitFree(vmid, gw.script);
    err := WaitUntilFree(gw, vmid);
    AppendAssoc(old(gw.trace), st.events + w.events + [Event(Delete(node, vmid), r)], f.events);
  }

  /** The "check if stopped" loop. */
  method WaitUntilStopped(gw: Cluster, node: string, vmid: int) returns (err: Outcome)
    modifies gw
    ensures var run := WaitStopped(node, vmid, old(gw.script));
      err == run.value && gw.script == run.rest && gw.trace == old(gw.trace) + run.events
  {
    ghost var done: seq<Event> := [];
    while true
      invariant gw.trace == old(gw.trace) + done
      invariant WaitStopped(node, vmid, old(gw.script)) == Extend(done, WaitStopped(node, vmid, gw.script))
      decreases |gw.script|
    {
      var r := gw.Send(GetStatus(node, vmid));
      var remote := StatusOf(r);
      AppendAssoc(old(gw.trace), done, [Event(GetStatus(node, vmid), r)]);
      if remote.Err? {
        return Fail(remote.msg);
      }
      if remote.value != STATUS_STOPPED {
        ExtendTwice(done, [Event(GetStatus(node, vmid), r)], WaitStopped(node, vmid, gw.script));
        done := done + [Event(GetStatus(node, vmid), r)];
        continue;
      }
      return Pass;
    }
  }

  /** The "check if deleted" loop. */
  method WaitUntilFree(gw: Cluster, vmid: int) returns (err: Outcome)
    modifies gw
    ensures var run := WaitFree(vmid, old(gw.script));
      err == run.value && gw.script == run.rest && gw.trace == old(gw.trace) + run.events
  {
    ghost var done: seq<Event> := [];
    while true
      invariant gw.trace == old(gw.trace) + done
      invariant WaitFree(vmid, old(gw.script)) == Extend(done, WaitFree(vmid, gw.script))
      decreases |gw.script|
    {
      var r := gw.Send(IsVMIDAvailable(vmid));
      var available := AvailableOf(r);
      AppendAssoc(old(gw.trace), done, [Event(IsVMIDAvailable(vmid), r)]);
      if available.Err? {
        return Fail(available.msg);
      }
      if !available.value {
        ExtendTwice(done, [Event(IsVMIDAvailable(vmid), r)], WaitFree(vmid, gw.script));
        done := done + [Event(IsVMIDAvailable(vmid), r)];
        continue;
      }
      return Pass;
    }
  }

  // -------------------------------------------------------------------------
  // Properties.

  /**
   * The "check if stopped" loop: status queries of the container only, every
   * one but the last answered with a status other than "stopped"; it succeeds
   * exactly when the last one reads "stopped" and otherwise returns the last
   * query's error.
   */
  predicate StopWait(run: Run<Outcome>, node: string, vmid: int)
  {
    run.events != [] &&
    (forall i :: 0 <= i < |run.events| ==> run.events[i].call == GetStatus(node, vmid)) &&
    (forall i :: 0 <= i < |run.events| - 1 ==> run.events[i].reply.StatusIs? && run.events[i].reply.status != STATUS_STOPPED) &&
    (run.value == Pass <==> Last(run.events).reply == StatusIs(STATUS_STOPPED)) &&
    (run.value.Fail? ==> StatusOf(Last(run.events).reply) == Err(run.value.msg))
  }

  lemma {:induction false} WaitStoppedShape(node: string, vmid: int, s: seq<Reply>)
    ensures StopWait(WaitStopped(node, vmid, s), node, vmid)
    decreases |s|
  {
    var ev := Step(GetStatus(node, vmid), s);
    var run := WaitStopped(node, vmid, s);
    if StatusOf(ev.reply).Ok? && StatusOf(ev.reply).value != STATUS_STOPPED {
      var sub := WaitStopped(node, vmid, Tail(s));
      WaitStoppedShape(node, vmid, Tail(s));
      assert run == Extend([ev], sub);
      StopWaitPrepend(ev, sub, node, vmid);
    }
  }

  lemma StopWaitPrepend(ev: Event, sub: Run<Outcome>, node: string, vmid: int)
    requires ev.call == GetStatus(node, vmid) && ev.reply.StatusIs? && ev.reply.status != STATUS_STOPPED
    requires StopWait(sub, node, vmid)
    ensures StopWait(Extend([ev], sub), node, vmid)
  {
    var evs := [ev] + sub.events;
    assert Last(evs) == Last(sub.events);
    assert forall i :: 0 < i < |evs| ==> evs[i] == sub.events[i - 1];
  }

  /**
   * The "check if deleted" loop: availability queries of the id only, every
   * one but the last answered "not available"; it succeeds exactly when the
   * last one reads "available" and otherwise returns the last query's error.
   */
  predicate FreeWait(run: Run<Outcome>, vmid: int)
  {
    run.events != [] &&
    (forall i :: 0 <= i < |run.events| ==> run.events[i].call == IsVMIDAvailable(vmid)) &&
    (forall i :: 0 <= i < |run.events| - 1 ==> run.events[i].reply == Available(false)) &&
    (run.value == Pass <==> Last(run.events).reply == Available(true)) &&
    (run.value.Fail? ==> AvailableOf(Last(run.events).reply) == Err(run.value.msg))
  }

  lemma {:induction false} WaitFreeShape(vmid: int, s: seq<Reply>)
    ensures FreeWait(WaitFree(vmid, s), vmid)
    decreases |s|
  {
    var ev := Step(IsVMIDAvailable(vmid), s);
    var run := WaitFree(vmid, s);
    if AvailableOf(ev.reply) == Ok(false) {
      var sub := WaitFree(vmid, Tail(s));
      WaitFreeShape(vmid, Tail(s));
      assert run == Extend([ev], sub);
      FreeWaitPrepend(ev, sub, vmid);
    }
  }

  lemma FreeWaitPrepend(ev: Event, sub: Run<Outcome>, vmid: int)
    requires ev == Event(IsVMIDAvailable(vmid), Available(false)) && FreeWait(sub, vmid)
    ensures FreeWait(Extend([ev], sub), vmid)
  {
    var evs := [ev] + sub.events;
    assert Last(evs) == Last(sub.events);
    assert forall i :: 0 < i < |evs| ==> evs[i] == sub.events[i - 1];
  }

  predicate NoDeletes(evs: seq<Event>)
  {
    forall i :: 0 <= i < |evs| ==> !IsKind(evs[i], Deletes)
  }

  /** Every Delete is of the container and comes right after a poll that saw it stopped. */
  predicate DeletesJustified(evs: seq<Event>, node: string, vmid: int)
  {
    forall i :: 0 <= i < |evs| && IsKind(evs[i], Deletes) ==>
      i > 0 && evs[i - 1] == Event(GetStatus(node, vmid), StatusIs(STATUS_STOPPED)) && evs[i].call == Delete(node, vmid)
  }

  lemma NoDeletesConcat(a: seq<Event>, b: seq<Event>)
    requires NoDeletes(a) && NoDeletes(b)
    ensures NoDeletes(a + b) && Count(a + b, Deletes) == 0
  {
    assert forall i :: |a| <= i < |a + b| ==> (a + b)[i] == b[i - |a|];
    CountNone(a + b, Deletes);
  }

  /** The calls before the Delete: the status loop and the wait for "stopped". */
  lemma BeforeDelete(node: string, vmid: int, st: Run<Outcome>, w: Run<Outcome>)
    requires StatusCalls(st.events, node, vmid) && StopWait(w, node, vmid)
    ensures NoDeletes(st.events + w.events) && Count(st.events + w.events, Deletes) == 0
  {
    NoDeletesConcat(st.events, w.events);
  }

  /** A Delete between calls that delete nothing is the only one, and is justified. */
  lemma DeleteBetween(pre: seq<Event>, d: Event, post: seq<Event>, node: string, vmid: int)
    requires NoDeletes(pre) && NoDeletes(post) && d.call == Delete(node, vmid)
    requires pre != [] && Last(pre) == Event(GetStatus(node, vmid), StatusIs(STATUS_STOPPED))
    ensures Count(pre + [d] + post, Deletes) == 1 && DeletesJustified(pre + [d] + post, node, vmid)
  {
    var evs := pre + [d] + post;
    CountNone(pre, Deletes);
    CountNone(post, Deletes);
    CountOne(d, Deletes);
    CountConcat(pre, [d], Deletes);
    CountConcat(pre + [d], post, Deletes);
    assert forall i :: |pre| < i < |evs| ==> evs[i] == post[i - |pre| - 1];
    assert evs[|pre|] == d && evs[|pre| - 1] == Last(pre);
  }

  /**
   * `deleteLXC` deletes at most once, and only the container, right after a
   * poll that saw it stopped and after the status loop towards "stopped"
   * succeeded.
   */
  predicate DeleteGuarded(run: Run<Outcome>, st: Run<Outcome>, node: string, vmid: int)
  {
    Count(run.events, Deletes) <= 1 && DeletesJustified(run.events, node, vmid) &&
    (Count(run.events, Deletes) == 1 ==> st.value == Pass)
  }

  lemma DeleteOnlyWhenStopped(node: string, vmid: int, s: seq<Reply>)
    ensures DeleteGuarded(DeleteRun(node, vmid, s), UpdateStatusRun(node, vmid, STATUS_STOPPED, s), node, vmid)
  {
    var st := UpdateStatusRun(node, vmid, STATUS_STOPPED, s);
    StatusLoopCalls(node, vmid, STATUS_STOPPED, 1, s);
    if st.value.Fail? {
      StatusFailGuarded(node, vmid, st);
    } else {
      var w := WaitStopped(node, vmid, st.rest);
      WaitStoppedShape(node, vmid, st.rest);
      BeforeDelete(node, vmid, st, w);
      if w.value.Fail? {
        WaitFailGuarded(node, vmid, st, w);
      } else {
        DeleteAfterStopped(node, vmid, st, w);
      }
    }
  }

  /** A failed status loop ends `deleteLXC` with no Delete. */
  lemma StatusFailGuarded(node: string, vmid: int, st: Run<Outcome>)
    requires StatusCalls(st.events, node, vmid) && st.value.Fail?
    ensures DeleteGuarded(st, st, node, vmid)
  {
    NoDeletesConcat(st.events, []);
    assert st.events + [] == st.events;
  }

  /** A failed wait for "stopped" ends `deleteLXC` with no Delete. */
  lemma WaitFailGuarded(node: string, vmid: int, st: Run<Outcome>, w: Run<Outcome>)
    requires NoDeletes(st.events + w.events) && Count(st.events + w.events, Deletes) == 0
    ensures DeleteGuarded(Extend(st.events, w), st, node, vmid)
  {
  }

  /** The Delete and what follows it, once the container was seen stopped. */
  lemma DeleteAfterStopped(node: string, vmid: int, st: Run<Outcome>, w: Run<Outcome>)
    requires NoDeletes(st.events + w.events) && StopWait(w, node, vmid) && w.value == Pass && st.value == Pass
    ensures var d := Step(Delete(node, vmid), w.rest);
      var run := if AckOf(d.reply).Fail? then Run(AckOf(d.reply), Tail(w.rest), st.events + w.events + [d])
        else Extend(st.events + w.events + [d], WaitFree(vmid, Tail(w.rest)));
      DeleteGuarded(run, st, node, vmid) && DeleteSettles(run, st, vmid)
  {
    var d := Step(Delete(node, vmid), w.rest);
    assert Last(st.events + w.events) == Last(w.events);
    if AckOf(d.reply).Fail? {
      DeleteRefused(st.events + w.events, d, Tail(w.rest), st, node, vmid);
    } else {
      var f := WaitFree(vmid, Tail(w.rest));
      WaitFreeShape(vmid, Tail(w.rest));
      DeleteAccepted(st.events + w.events, d, f, st, node, vmid);
    }
  }

  lemma DeleteRefused(pre: seq<Event>, d: Event, rest: seq<Reply>, st: Run<Outcome>, node: string, vmid: int)
    requires NoDeletes(pre) && d.call == Delete(node, vmid) && AckOf(d.reply).Fail? && st.value == Pass
    requires pre != [] && Last(pre) == Event(GetStatus(node, vmid), StatusIs(STATUS_STOPPED))
    ensures var run := Run(AckOf(d.reply), rest, pre + [d]);
      DeleteGuarded(run, st, node, vmid) && DeleteSettles(run, st, vmid)
  {
    DeleteBetween(pre, d, [], node, vmid);
    assert pre + [d] + [] == pre + [d];
  }

  lemma DeleteAccepted(pre: seq<Event>, d: Event, f: Run<Outcome>, st: Run<Outcome>, node: string, vmid: int)
    requires NoDeletes(pre) && d.call == Delete(node, vmid) && st.value == Pass && FreeWait(f, vmid)
    requires pre != [] && Last(pre) == Event(GetStatus(node, vmid), StatusIs(STATUS_STOPPED))
    ensures var run := Extend(pre + [d], f);
      DeleteGuarded(run, st, node, vmid) && DeleteSettles(run, st, vmid)
  {
    assert NoDeletes(f.events);
    DeleteBetween(pre, d, f.events, node, vmid);
    assert Last(pre + [d] + f.events) == Last(f.events);
  }

  /** The error a reply of the pipeline's own calls carries, if any. */
  function ErrorOf(ev: Event): Option<string>
  {
    match ev.call
    case GetStatus(_, _) => if StatusOf(ev.reply).Err? then Some(StatusOf(ev.reply).msg) else None
    case Delete(_, _) => if AckOf(ev.reply).Fail? then Some(AckOf(ev.reply).msg) else None
    case IsVMIDAvailable(_) => if AvailableOf(ev.reply).Err? then Some(AvailableOf(ev.reply).msg) else None
    case _ => None
  }

  /**
   * `deleteLXC` succeeds only once the id was reported available, after
   * exactly one Delete; it fails either with the status loop's own error or
   * with the error of its last call, after which nothing is issued.
   */
  predicate DeleteSettles(run: Run<Outcome>, st: Run<Outcome>, vmid: int)
  {
    (run.value == Pass ==>
      run.events != [] && Last(run.events) == Event(IsVMIDAvailable(vmid), Available(true)) &&
      Count(run.events, Deletes) == 1) &&
    (run.value.Fail? ==>
      (st.value.Fail? && run == st) ||
      (run.events != [] && ErrorOf(Last(run.events)) == Some(run.value.msg)))
  }

  lemma DeleteOutcome(node: string, vmid: int, s: seq<Reply>)
    ensures DeleteSettles(DeleteRun(node, vmid, s), UpdateStatusRun(node, vmid, STATUS_STOPPED, s), vmid)
  {
    var run := DeleteRun(node, vmid, s);
    var st := UpdateStatusRun(node, vmid, STATUS_STOPPED, s);
    if st.value.Pass? {
      var w := WaitStopped(node, vmid, st.rest);
      WaitStoppedShape(node, vmid, st.rest);
      if w.value.Fail? {
        assert Last(run.events) == Last(w.events);
      } else {
        StatusLoopCalls(node, vmid, STATUS_STOPPED, 1, s);
        BeforeDelete(node, vmid, st, w);
        DeleteAfterStopped(node, vmid, st, w);
      }
    }
  }

  /** `deleteLXC` polls, stops, deletes and waits for the id; nothing else. */
  lemma DeleteKinds(node: string, vmid: int, s: seq<Reply>)
    ensures KindsWithin(DeleteRun(node, vmid, s).events, {StatusPolls, Transitions, Deletes, OtherCalls})
  {
    var ks := {StatusPolls, Transitions, Deletes, OtherCalls};
    var st := UpdateStatusRun(node, vmid, STATUS_STOPPED, s);
    StatusKinds(node, vmid, STATUS_STOPPED, s);
    KindsWithinWider(st.events, {StatusPolls, Transitions}, ks);
    if st.value.Pass? {
      var w := WaitStopped(node, vmid, st.rest);
      WaitStoppedShape(node, vmid, st.rest);
      assert KindsWithin(w.events, ks);
      KindsWithinConcat(st.events, w.events, ks);
      if w.value.Pass? {
        var d := Step(Delete(node, vmid), w.rest);
        assert KindsWithin([d], ks);
        KindsWithinConcat(st.events + w.events, [d], ks);
        if AckOf(d.reply).Pass? {
          var f := WaitFree(vmid, Tail(w.rest));
          WaitFreeShape(vmid, Tail(w.rest));
          assert KindsWithin(f.events, ks);
          KindsWithinConcat(st.events + w.events + [d], f.events, ks);
        }
      }
    }
  }

  /** Calls that delete nothing keep the Deletes that follow them justified. */
  lemma JustifiedAfter(pre: seq<Event>, post: seq<Event>, node: string, vmid: int)
    requires Count(pre, Deletes) == 0 && DeletesJustified(post, node, vmid)
    ensures DeletesJustified(pre + post, node, vmid)
  {
    CountZero(pre, Deletes);
    var evs := pre + post;
    forall i | 0 <= i < |evs| && IsKind(evs[i], Deletes)
      ensures i > 0 && evs[i - 1] == Event(GetStatus(node, vmid), StatusIs(STATUS_STOPPED)) && evs[i].call == Delete(node, vmid)
    {
      if i < |pre| {
        assert false;
      }
      assert evs[i] == post[i - |pre|];
      assert evs[i - 1] == post[i - |pre| - 1];
    }
  }
}
