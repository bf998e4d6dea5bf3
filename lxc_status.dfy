/**
 * `updateLXCStatus` (internal/provider/lxc/helpers.go): drive a container
 * towards a desired power state by polling its status and issuing Start or
 * Stop when it is in the opposite state.
 *
 * Every poll increments a counter.  A poll that issues a transition (or meets
 * an unsupported desired status) keeps polling while the counter is at most
 * five; past that, it returns the transition's own result at once, which is
 * success when the transition call succeeded, even though the new state was
 * never observed.  A failing status query returns its error immediately.
 */
module LxcStatus {
  import opened Gateway

  const STATUS_RETRIES := 5

  function UnexpectedStatus(desired: string): string
  {
    "unexpected status value, got " + desired
  }

  /** A poll that observed `current` goes straight to the next poll, issuing nothing. */
  predicate Waits(desired: string, current: string)
  {
    (desired == STATUS_RUNNING && current != STATUS_STOPPED) ||
    (desired == STATUS_STOPPED && current != STATUS_RUNNING)
  }

  /** The transition a poll issues once the container is in the opposite state. */
  function Transition(node: string, vmid: int, desired: string, s: seq<Reply>): (t: Run<Outcome>)
    ensures |t.rest| <= |s|
  {
    if desired == STATUS_RUNNING then
      var ev := Step(Start(node, vmid), s);
      Run(AckOf(ev.reply), Tail(s), [ev])
    else if desired == STATUS_STOPPED then
      var ev := Step(Stop(node, vmid, false), s);
      Run(AckOf(ev.reply), Tail(s), [ev])
    else
      Run(Fail(UnexpectedStatus(desired)), s, [])
  }

  /**
   * One iteration of the status loop, poll number `try`: `Some(err)` when the
   * iteration returns `err`, `None` when the loop goes on.
   */
  function PollStep(node: string, vmid: int, desired: string, try: int, s: seq<Reply>): (p: Run<Option<Outcome>>)
    ensures p.value.None? ==> |p.rest| < |s|
    ensures p.events != [] && p.events[0] == Step(GetStatus(node, vmid), s)
  {
    var poll := Step(GetStatus(node, vmid), s);
    match StatusOf(poll.reply)
    case Err(m) => Run(Some(Fail(m)), Tail(s), [poll])
    case Ok(current) =>
      if desired == current then Run(Some(Pass), Tail(s), [poll])
      else if Waits(desired, current) then Run(None, Tail(s), [poll])
      else
        var t := Transition(node, vmid, desired, Tail(s));
        Run(if try <= STATUS_RETRIES then None else Some(t.value), t.rest, [poll] + t.events)
  }

  /** The status loop from poll number `try` on. */
  function StatusLoop(node: string, vmid: int, desired: string, try: int, s: seq<Reply>): Run<Outcome>
    decreases |s|
  {
    var p := PollStep(node, vmid, desired, try, s);
    match p.value
    case Some(err) => Run(err, p.rest, p.events)
    case None => Extend(p.events, StatusLoop(node, vmid, desired, try + 1, p.rest))
  }

  /** What `updateLXCStatus` does against the script `s`. */
  function UpdateStatusRun(node: string, vmid: int, desired: string, s: seq<Reply>): Run<Outcome>
  {
    StatusLoop(node, vmid, desired, 1, s)
  }

  method UpdateLXCStatus(gw: Cluster, node: string, vmid: int, desired: string) returns (err: Outcome)
    modifies gw
    ensures var run := UpdateStatusRun(node, vmid, desired, old(gw.script));
      err == run.value && gw.script == run.rest && gw.trace == old(gw.trace) + run.events
  {
    var try := 0;
    ghost var done: seq<Event> := [];
    while true
      invariant gw.trace == old(gw.trace) + done
      invariant UpdateStatusRun(node, vmid, desired, old(gw.script))
        == Extend(done, StatusLoop(node, vmid, desired, try + 1, gw.script))
      decreases |gw.script|
    {
      try := try + 1;
      ghost var s := gw.script;
      ghost var p := PollStep(node, vmid, desired, try, s);
      var next := StatusIteration(gw, node, vmid, desired, try);
      AppendAssoc(old(gw.trace), done, p.events);
      if next.Some? {
        return next.value;
      }
      ExtendTwice(done, p.events, StatusLoop(node, vmid, desired, try + 1, gw.script));
      done := done + p.events;
    }
  }

  /** The body of the status loop for poll number `try`. */
  method StatusIteration(gw: Cluster, node: string, vmid: int, desired: string, try: int) returns (next: Option<Outcome>)
    modifies gw
    ensures var p := PollStep(node, vmid, desired, try, old(gw.script));
      next == p.value && gw.script == p.rest && gw.trace == old(gw.trace) + p.events
  {
    var reply := gw.Send(GetStatus(node, vmid));
    var remote := StatusOf(reply);
    if remote.Err? {
      return Some(Fail(remote.msg));
    }
    if desired == remote.value {
      return Some(Pass);
    }
    var err: Outcome := Pass;
    if desired == STATUS_RUNNING {
      if remote.value != STATUS_STOPPED {
        return None;
      }
      var r := gw.Send(Start(node, vmid));
      err := AckOf(r);
    } else if desired == STATUS_STOPPED {
      if remote.value != STATUS_RUNNING {
        return None;
      }
      var r := gw.Send(Stop(node, vmid, false));
      err := AckOf(r);
    } else {
      err := Fail(UnexpectedStatus(desired));
    }
    if try <= STATUS_RETRIES {
      return None;
    } else {
      return Some(err);
    }
  }

  // ---------------------------------------------------------------------
  // Properties of the status loop.

  /** Every call of the loop is a status query or a transition on the same container. */
  predicate StatusCalls(evs: seq<Event>, node: string, vmid: int)
  {
    forall i :: 0 <= i < |evs| ==>
      evs[i].call in {GetStatus(node, vmid), Start(node, vmid), Stop(node, vmid, false)}
  }

  /**
   * The transition `cur` is the one the loop issues towards `desired`, right
   * after the poll `prev` saw the container in the opposite state.
   */
  predicate Justifies(prev: Event, cur: Call, node: string, vmid: int, desired: string)
  {
    (desired == STATUS_RUNNING && cur == Start(node, vmid) &&
     prev == Event(GetStatus(node, vmid), StatusIs(STATUS_STOPPED))) ||
    (desired == STATUS_STOPPED && cur == Stop(node, vmid, false) &&
     prev == Event(GetStatus(node, vmid), StatusIs(STATUS_RUNNING)))
  }

  /** Start and Stop are only issued right after a poll that justifies them. */
  predicate TransitionsJustified(evs: seq<Event>, node: string, vmid: int, desired: string)
  {
    (evs != [] ==> !IsKind(evs[0], Transitions)) &&
    forall i :: 0 < i < |evs| && IsKind(evs[i], Transitions) ==>
      Justifies(evs[i - 1], evs[i].call, node, vmid, desired)
  }

  lemma StatusCallsConcat(a: seq<Event>, b: seq<Event>, node: string, vmid: int)
    requires StatusCalls(a, node, vmid) && StatusCalls(b, node, vmid)
    ensures StatusCalls(a + b, node, vmid)
  {
    forall i | 0 <= i < |a + b|
      ensures (a + b)[i].call in {GetStatus(node, vmid), Start(node, vmid), Stop(node, vmid, false)}
    {
      if i >= |a| {
        assert (a + b)[i] == b[i - |a|];
      }
    }
  }

  lemma JustifiedConcat(a: seq<Event>, b: seq<Event>, node: string, vmid: int, desired: string)
    requires TransitionsJustified(a, node, vmid, desired) && TransitionsJustified(b, node, vmid, desired)
    ensures TransitionsJustified(a + b, node, vmid, desired)
  {
    var ab := a + b;
    forall i | 0 < i < |ab| && IsKind(ab[i], Transitions)
      ensures Justifies(ab[i - 1], ab[i].call, node, vmid, desired)
    {
      if i < |a| {
        assert ab[i] == a[i] && ab[i - 1] == a[i - 1];
      } else {
        assert ab[i] == b[i - |a|];
        if i == |a| {
          assert false;
        }
        assert ab[i - 1] == b[i - 1 - |a|];
      }
    }
    if a == [] {
      assert ab == b;
    } else {
      assert ab[0] == a[0];
    }
  }

  /** One iteration only queries the status and issues justified transitions. */
  lemma PollStepCalls(node: string, vmid: int, desired: string, try: int, s: seq<Reply>)
    ensures var p := PollStep(node, vmid, desired, try, s);
      StatusCalls(p.events, node, vmid) && TransitionsJustified(p.events, node, vmid, desired)
  {
  }

  /** One iteration polls once and issues at most one transition, which ends the loop after poll five. */
  lemma PollStepCounts(node: string, vmid: int, desired: string, try: int, s: seq<Reply>)
    ensures var p := PollStep(node, vmid, desired, try, s);
      Count(p.events, StatusPolls) == 1 &&
      Count(p.events, Transitions) <= 1 &&
      (p.value.None? && Count(p.events, Transitions) == 1 ==> try <= STATUS_RETRIES)
  {
    var poll := Step(GetStatus(node, vmid), s);
    var p := PollStep(node, vmid, desired, try, s);
    CountOne(poll, StatusPolls);
    CountOne(poll, Transitions);
    if |p.events| == 2 {
      assert p.events == [poll, p.events[1]];
      CountTwo(poll, p.events[1], StatusPolls);
      CountTwo(poll, p.events[1], Transitions);
    } else {
      assert p.events == [poll];
    }
  }

  /** An iteration that returns success either saw the desired status or had a transition acknowledged after poll five. */
  lemma PollStepSuccess(node: string, vmid: int, desired: string, try: int, s: seq<Reply>)
    ensures var p := PollStep(node, vmid, desired, try, s);
      p.value == Some(Pass) ==>
        Last(p.events) == Event(GetStatus(node, vmid), StatusIs(desired)) ||
        (IsKind(Last(p.events), Transitions) && Last(p.events).reply == Ack && try > STATUS_RETRIES)
  {
  }

  lemma {:induction false} StatusLoopCalls(node: string, vmid: int, desired: string, try: int, s: seq<Reply>)
    ensures var evs := StatusLoop(node, vmid, desired, try, s).events;
      StatusCalls(evs, node, vmid) && TransitionsJustified(evs, node, vmid, desired)
    decreases |s|
  {
    var p := PollStep(node, vmid, desired, try, s);
    PollStepCalls(node, vmid, desired, try, s);
    if p.value.None? {
      var sub := StatusLoop(node, vmid, desired, try + 1, p.rest);
      StatusLoopCalls(node, vmid, desired, try + 1, p.rest);
      StatusCallsConcat(p.events, sub.events, node, vmid);
      JustifiedConcat(p.events, sub.events, node, vmid, desired);
    }
  }

  /** The number of transitions the loop may still issue from poll number `try` on. */
  function TransitionBudget(try: int): int
  {
    if try <= STATUS_RETRIES + 1 then STATUS_RETRIES + 2 - try else 1
  }

  /** A run that issues no more transitions than the budget of poll number `try`. */
  predicate WithinBudget(run: Run<Outcome>, try: int)
  {
    Count(run.events, Transitions) <= TransitionBudget(try)
  }

  /** From the first poll on, `updateLXCStatus` issues at most six Start/Stop calls. */
  lemma {:induction false} TransitionsBounded(node: string, vmid: int, desired: string, try: int, s: seq<Reply>)
    ensures WithinBudget(StatusLoop(node, vmid, desired, try, s), try)
    decreases |s|
  {
    var p := PollStep(node, vmid, desired, try, s);
    BudgetStepLoop(node, vmid, desired, try, s);
    if p.value.None? {
      TransitionsBounded(node, vmid, desired, try + 1, p.rest);
    }
  }

  /** One iteration keeps the loop within its budget. */
  lemma BudgetStepLoop(node: string, vmid: int, desired: string, try: int, s: seq<Reply>)
    ensures var p := PollStep(node, vmid, desired, try, s);
      if p.value.None? then
        WithinBudget(StatusLoop(node, vmid, desired, try + 1, p.rest), try + 1) ==>
        WithinBudget(StatusLoop(node, vmid, desired, try, s), try)
      else WithinBudget(StatusLoop(node, vmid, desired, try, s), try)
  {
    var p := PollStep(node, vmid, desired, try, s);
    var run := StatusLoop(node, vmid, desired, try, s);
    PollStepCounts(node, vmid, desired, try, s);
    if p.value.None? {
      var sub := StatusLoop(node, vmid, desired, try + 1, p.rest);
      CountConcat(p.events, sub.events, Transitions);
      assert run.events == p.events + sub.events;
    } else {
      assert run.events == p.events;
    }
  }

  /**
   * A successful run either ends with a poll that saw the desired status, or
   * with an acknowledged transition issued at poll six or later: the loop
   * then reports success without observing the new state.
   */
  predicate SuccessExplained(run: Run<Outcome>, node: string, vmid: int, desired: string, try: int)
  {
    run.value == Pass ==>
      run.events != [] &&
      (Last(run.events) == Event(GetStatus(node, vmid), StatusIs(desired)) ||
       (IsKind(Last(run.events), Transitions) && Last(run.events).reply == Ack &&
        Count(run.events, StatusPolls) + try > STATUS_RETRIES + 1))
  }

  lemma {:induction false} StatusSuccessMeans(node: string, vmid: int, desired: string, try: int, s: seq<Reply>)
    ensures SuccessExplained(StatusLoop(node, vmid, desired, try, s), node, vmid, desired, try)
    decreases |s|
  {
    var p := PollStep(node, vmid, desired, try, s);
    SuccessStepLoop(node, vmid, desired, try, s);
    if p.value.None? {
      StatusSuccessMeans(node, vmid, desired, try + 1, p.rest);
    }
  }

  /** One iteration keeps success explained. */
  lemma SuccessStepLoop(node: string, vmid: int, desired: string, try: int, s: seq<Reply>)
    ensures var p := PollStep(node, vmid, desired, try, s);
      if p.value.None? then
        SuccessExplained(StatusLoop(node, vmid, desired, try + 1, p.rest), node, vmid, desired, try + 1) ==>
        SuccessExplained(StatusLoop(node, vmid, desired, try, s), node, vmid, desired, try)
      else SuccessExplained(StatusLoop(node, vmid, desired, try, s), node, vmid, desired, try)
  {
    var p := PollStep(node, vmid, desired, try, s);
    var run := StatusLoop(node, vmid, desired, try, s);
    PollStepCounts(node, vmid, desired, try, s);
    if p.value.None? {
      var sub := StatusLoop(node, vmid, desired, try + 1, p.rest);
      assert run == Extend(p.events, sub);
      SuccessExtends(p.events, sub, node, vmid, desired, try);
    } else {
      PollStepSuccess(node, vmid, desired, try, s);
      assert run == Run(p.value.value, p.rest, p.events);
    }
  }

  /** Success explained from poll `try + 1` on stays explained behind a prefix holding one poll. */
  lemma SuccessExtends(pre: seq<Event>, sub: Run<Outcome>, node: string, vmid: int, desired: string, try: int)
    ensures Count(pre, StatusPolls) == 1 && SuccessExplained(sub, node, vmid, desired, try + 1) ==>
      SuccessExplained(Extend(pre, sub), node, vmid, desired, try)
  {
    CountConcat(pre, sub.events, StatusPolls);
    if sub.events != [] {
      assert Last(pre + sub.events) == Last(sub.events);
    }
  }

  /** A first poll that already sees the desired status ends the loop with success and nothing else. */
  lemma AlreadyInDesiredStatus(node: string, vmid: int, desired: string, s: seq<Reply>)
    requires s != [] && s[0] == StatusIs(desired)
    ensures UpdateStatusRun(node, vmid, desired, s) == Run(Pass, s[1..], [Event(GetStatus(node, vmid), StatusIs(desired))])
  {
  }

  /**
   * A status query that fails is the last call of the loop, and its error is
   * what the loop returns.
   */
  predicate QueryErrorsFinal(run: Run<Outcome>, node: string, vmid: int)
  {
    forall i :: 0 <= i < |run.events| && run.events[i].call == GetStatus(node, vmid) && StatusOf(run.events[i].reply).Err? ==>
      i == |run.events| - 1 && run.value == Fail(StatusOf(run.events[i].reply).msg)
  }

  lemma {:induction false} StatusQueryErrorIsReturned(node: string, vmid: int, desired: string, try: int, s: seq<Reply>)
    ensures QueryErrorsFinal(StatusLoop(node, vmid, desired, try, s), node, vmid)
    decreases |s|
  {
    var p := PollStep(node, vmid, desired, try, s);
    QueryErrorStepLoop(node, vmid, desired, try, s);
    if p.value.None? {
      StatusQueryErrorIsReturned(node, vmid, desired, try + 1, p.rest);
    }
  }

  /** One iteration keeps failed queries final. */
  lemma QueryErrorStepLoop(node: string, vmid: int, desired: string, try: int, s: seq<Reply>)
    ensures var p := PollStep(node, vmid, desired, try, s);
      if p.value.None? then
        QueryErrorsFinal(StatusLoop(node, vmid, desired, try + 1, p.rest), node, vmid) ==>
        QueryErrorsFinal(StatusLoop(node, vmid, desired, try, s), node, vmid)
      else QueryErrorsFinal(StatusLoop(node, vmid, desired, try, s), node, vmid)
  {
    var p := PollStep(node, vmid, desired, try, s);
    var run := StatusLoop(node, vmid, desired, try, s);
    if p.value.None? {
      var sub := StatusLoop(node, vmid, desired, try + 1, p.rest);
      assert run == Extend(p.events, sub);
      QueryErrorsExtend(p.events, sub, node, vmid);
    } else {
      assert run == Run(p.value.value, p.rest, p.events);
    }
  }

  lemma QueryErrorsExtend(pre: seq<Event>, sub: Run<Outcome>, node: string, vmid: int)
    ensures ((forall i :: 0 <= i < |pre| ==> pre[i].call != GetStatus(node, vmid) || StatusOf(pre[i].reply).Ok?) &&
      QueryErrorsFinal(sub, node, vmid)) ==> QueryErrorsFinal(Extend(pre, sub), node, vmid)
  {
    var evs := pre + sub.events;
    forall i | 0 <= i < |evs| && i >= |pre|
      ensures evs[i] == sub.events[i - |pre|]
    {
    }
  }

  /**
   * With a desired status other than "running" and "stopped" the loop never
   * calls Start or Stop, and only succeeds when a poll sees that very status.
   */
  lemma UnsupportedStatusNeverTransitions(node: string, vmid: int, desired: string, s: seq<Reply>)
    requires desired != STATUS_RUNNING && desired != STATUS_STOPPED
    ensures var run := UpdateStatusRun(node, vmid, desired, s);
      Count(run.events, Transitions) == 0 &&
      (run.value == Pass ==> Last(run.events) == Event(GetStatus(node, vmid), StatusIs(desired)))
  {
    var run := UpdateStatusRun(node, vmid, desired, s);
    StatusLoopCalls(node, vmid, desired, 1, s);
    forall i | 0 <= i < |run.events|
      ensures !IsKind(run.events[i], Transitions)
    {
      if i > 0 {
        assert !Justifies(run.events[i - 1], run.events[i].call, node, vmid, desired);
      }
    }
    CountNone(run.events, Transitions);
    StatusSuccessMeans(node, vmid, desired, 1, s);
  }

  /** `n` copies of `x`, one after the other. */
  function Repeat<T>(x: seq<T>, n: nat): seq<T>
  {
    if n == 0 then [] else x + Repeat(x, n - 1)
  }

  /** One poll that sees "stopped" and an acknowledged Start. */
  function StartedAfterStopped(node: string, vmid: int): seq<Event>
  {
    [Event(GetStatus(node, vmid), StatusIs(STATUS_STOPPED)), Event(Start(node, vmid), Ack)]
  }

  /**
   * Polls that each see "stopped", each followed by an acknowledged Start,
   * end the loop with success at poll six, although "running" was never
   * observed.
   */
  lemma {:induction false} StartWithoutConfirmation(node: string, vmid: int, try: int)
    requires 1 <= try <= STATUS_RETRIES + 1
    ensures StatusLoop(node, vmid, STATUS_RUNNING, try, Repeat([StatusIs(STATUS_STOPPED), Ack], STATUS_RETRIES + 2 - try))
      == Run(Pass, [], Repeat(StartedAfterStopped(node, vmid), STATUS_RETRIES + 2 - try))
    decreases STATUS_RETRIES + 2 - try
  {
    var n := STATUS_RETRIES + 2 - try;
    var rest := Repeat([StatusIs(STATUS_STOPPED), Ack], n - 1);
    var evs := Repeat(StartedAfterStopped(node, vmid), n - 1);
    assert Repeat([StatusIs(STATUS_STOPPED), Ack], n) == [StatusIs(STATUS_STOPPED), Ack] + rest;
    assert Repeat(StartedAfterStopped(node, vmid), n) == StartedAfterStopped(node, vmid) + evs;
    StartAfterStopped(node, vmid, try, rest);
    if try <= STATUS_RETRIES {
      StartWithoutConfirmation(node, vmid, try + 1);
    } else {
      assert rest == [] && evs == [];
    }
  }

  /** A poll that sees "stopped" towards "running", then an acknowledged Start. */
  lemma StartAfterStopped(node: string, vmid: int, try: int, rest: seq<Reply>)
    ensures StatusLoop(node, vmid, STATUS_RUNNING, try, [StatusIs(STATUS_STOPPED), Ack] + rest) ==
      if try <= STATUS_RETRIES then Extend(StartedAfterStopped(node, vmid), StatusLoop(node, vmid, STATUS_RUNNING, try + 1, rest))
      else Run(Pass, rest, StartedAfterStopped(node, vmid))
  {
    var s := [StatusIs(STATUS_STOPPED), Ack] + rest;
    assert Tail(s) == [Ack] + rest;
    assert Tail(Tail(s)) == rest;
    var p := PollStep(node, vmid, STATUS_RUNNING, try, s);
    assert p.events == StartedAfterStopped(node, vmid) && p.rest == rest;
  }

  /** A status run neither creates, deletes, converts, submits commands nor queries interfaces. */
  lemma StatusRunQuiet(node: string, vmid: int, desired: string, s: seq<Reply>)
    ensures var evs := UpdateStatusRun(node, vmid, desired, s).events;
      Count(evs, Deletes) == 0 && Count(evs, IfaceQueries) == 0 && Count(evs, Submissions) == 0 &&
      Count(evs, Creations) == 0 && Count(evs, Conversions) == 0
  {
    var evs := UpdateStatusRun(node, vmid, desired, s).events;
    var ks := {StatusPolls, Transitions};
    StatusKinds(node, vmid, desired, s);
    KindsWithinCount(evs, ks, Deletes);
    KindsWithinCount(evs, ks, IfaceQueries);
    KindsWithinCount(evs, ks, Submissions);
    KindsWithinCount(evs, ks, Creations);
    KindsWithinCount(evs, ks, Conversions);
  }

  /** The status loop only polls and issues transitions. */
  lemma StatusKinds(node: string, vmid: int, desired: string, s: seq<Reply>)
    ensures KindsWithin(UpdateStatusRun(node, vmid, desired, s).events, {StatusPolls, Transitions})
  {
    StatusLoopCalls(node, vmid, desired, 1, s);
    StatusCallKinds(UpdateStatusRun(node, vmid, desired, s).events, node, vmid);
  }

  /** Status queries, Starts and Stops are polls and transitions. */
  lemma StatusCallKinds(evs: seq<Event>, node: string, vmid: int)
    requires StatusCalls(evs, node, vmid)
    ensures KindsWithin(evs, {StatusPolls, Transitions})
  {
    forall i | 0 <= i < |evs|
      ensures KindOf(evs[i]) in {StatusPolls, Transitions}
    {
      assert evs[i].call in {GetStatus(node, vmid), Start(node, vmid), Stop(node, vmid, false)};
    }
  }
}
