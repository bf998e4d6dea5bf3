/**
 * `runLXCCommands` (internal/provider/lxc/helpers.go): run a list of shell
 * commands inside a container, one after the other.
 *
 * Each command is submitted with `ExecAsync(vmid, "bash", cmd)`, up to three
 * times while submission fails.  Its result is then polled with
 * `GetCMDResult` until three polls have settled; a "RUNNING" record does not
 * count (the loop decrements its counter), and the `break` of the
 * "SUCCEEDED" case only leaves the `switch`, so the outcome of a command is
 * the verdict of its last poll.  The first failing command ends the run.
 */
module LxcCommands {
  import opened Gateway

  const SUBMIT_RETRIES := 3
  const POLL_RETRIES := 3
  const SHELL := "bash"

  /** A record that is still running: the poll does not count. */
  predicate Running(r: Reply)
  {
    r.CmdResult? && r.rec.status == CMD_RUNNING
  }

  /** The error value one settled poll leaves behind. */
  function Verdict(r: Reply): Outcome
  {
    match CmdResultOf(r)
    case Err(m) => Fail(m)
    case Ok(rec) =>
      if rec.status == CMD_FAILED then (if rec.error.Some? then Fail(rec.error.value) else Pass)
      else if rec.status == CMD_SUCCEEDED && rec.exitCode != 0 then Fail(rec.output)
      else Pass
  }

  /** The submission loop from attempt `retry` (counting from 0) on. */
  function SubmitLoop(vmid: int, cmd: string, retry: int, s: seq<Reply>): Run<Result<string>>
    decreases SUBMIT_RETRIES - retry
  {
    var ev := Step(ExecAsync(vmid, SHELL, cmd), s);
    match ExecIdOf(ev.reply)
    case Ok(id) => Run(Ok(id), Tail(s), [ev])
    case Err(m) =>
      if retry + 1 >= SUBMIT_RETRIES then Run(Err(m), Tail(s), [ev])
      else Extend([ev], SubmitLoop(vmid, cmd, retry + 1, Tail(s)))
  }

  /**
   * The polling loop after `settled` settled polls, `last` being the error
   * value left by the previous poll.
   */
  function PollLoop(execId: string, settled: int, last: Outcome, s: seq<Reply>): Run<Outcome>
    decreases |s|, POLL_RETRIES - settled
  {
    if settled >= POLL_RETRIES then Run(last, s, [])
    else
      var ev := Step(GetCMDResult(execId), s);
      if Running(ev.reply) then Extend([ev], PollLoop(execId, settled, Pass, Tail(s)))
      else Extend([ev], PollLoop(execId, settled + 1, Verdict(ev.reply), Tail(s)))
  }

  /** One command: submission, then three settled polls. */
  function CommandRun(vmid: int, cmd: string, s: seq<Reply>): Run<Outcome>
  {
    var sub := SubmitLoop(vmid, cmd, 0, s);
    match sub.value
    case Err(m) => Run(Fail(m), sub.rest, sub.events)
    case Ok(id) => Extend(sub.events, PollLoop(id, 0, Pass, sub.rest))
  }

  /** What `runLXCCommands` does against the script `s`. */
  function CommandsRun(vmid: int, cmds: seq<string>, s: seq<Reply>): Run<Outcome>
    decreases |cmds|
  {
    if cmds == [] then Run(Pass, s, [])
    else
      var c := CommandRun(vmid, cmds[0], s);
      if c.value.Fail? then c
      else Extend(c.events, CommandsRun(vmid, cmds[1..], c.rest))
  }

  method RunLXCCommands(gw: Cluster, vmid: int, cmds: seq<string>) returns (err: Outcome)
    modifies gw
    ensures var run := CommandsRun(vmid, cmds, old(gw.script));
      err == run.value && gw.script == run.rest && gw.trace == old(gw.trace) + run.events
  {
    ghost var done: seq<Event> := [];
    for i := 0 to |cmds|
      invariant gw.trace == old(gw.trace) + done
      invariant CommandsRun(vmid, cmds, old(gw.script)) == Extend(done, CommandsRun(vmid, cmds[i..], gw.script))
    {
      ghost var c := CommandRun(vmid, cmds[i], gw.script);
      var execErr := RunCommand(gw, vmid, cmds[i]);
      AppendAssoc(old(gw.trace), done, c.events);
      if execErr.Fail? {
        return execErr;
      }
      assert cmds[i..][1..] == cmds[i + 1..];
      ExtendTwice(done, c.events, CommandsRun(vmid, cmds[i + 1..], gw.script));
      done := done + c.events;
    }
    return Pass;
  }

  /** The loop body of `runLXCCommands` for one command. */
  method RunCommand(gw: Cluster, vmid: int, cmd: string) returns (execErr: Outcome)
    modifies gw
    ensures var run := CommandRun(vmid, cmd, old(gw.script));
      execErr == run.value && gw.script == run.rest && gw.trace == old(gw.trace) + run.events
  {
    var execId := SubmitCommand(gw, vmid, cmd);
    if execId.Err? {
      return Fail(execId.msg);
    }
    ghost var sub := SubmitLoop(vmid, cmd, 0, old(gw.script));
    execErr := PollCommand(gw, execId.value);
    AppendAssoc(old(gw.trace), sub.events, PollLoop(execId.value, 0, Pass, sub.rest).events);
  }

  /** The submission loop of one command. */
  method SubmitCommand(gw: Cluster, vmid: int, cmd: string) returns (execId: Result<string>)
    modifies gw
    ensures var run := SubmitLoop(vmid, cmd, 0, old(gw.script));
      execId == run.value && gw.script == run.rest && gw.trace == old(gw.trace) + run.events
  {
    ghost var done: seq<Event> := [];
    var retry := 0;
    while retry < SUBMIT_RETRIES
      invariant 0 <= retry <= SUBMIT_RETRIES - 1
      invariant gw.trace == old(gw.trace) + done
      invariant SubmitLoop(vmid, cmd, 0, old(gw.script)) == Extend(done, SubmitLoop(vmid, cmd, retry, gw.script))
      decreases SUBMIT_RETRIES - retry
    {
      var r := gw.Send(ExecAsync(vmid, SHELL, cmd));
      execId := ExecIdOf(r);
      AppendAssoc(old(gw.trace), done, [Event(ExecAsync(vmid, SHELL, cmd), r)]);
      if execId.Err? && retry + 1 < SUBMIT_RETRIES {
        ExtendTwice(done, [Event(ExecAsync(vmid, SHELL, cmd), r)], SubmitLoop(vmid, cmd, retry + 1, gw.script));
        done := done + [Event(ExecAsync(vmid, SHELL, cmd), r)];
        retry := retry + 1;
        continue;
      }
      return;
    }
  }

  /** The polling loop of one command, with Go's `retry = retry - 1` for a running record. */
  method PollCommand(gw: Cluster, execId: string) returns (execErr: Outcome)
    modifies gw
    ensures var run := PollLoop(execId, 0, Pass, old(gw.script));
      execErr == run.value && gw.script == run.rest && gw.trace == old(gw.trace) + run.events
  {
    ghost var done: seq<Event> := [];
    execErr := Pass;
    var retry := 0;
    while retry < POLL_RETRIES
      invariant 0 <= retry <= POLL_RETRIES
      invariant gw.trace == old(gw.trace) + done
      invariant PollLoop(execId, 0, Pass, old(gw.script)) == Extend(done, PollLoop(execId, retry, execErr, gw.script))
      decreases |gw.script|, POLL_RETRIES - retry
    {
      ghost var s := gw.script;
      var running: bool;
      execErr, running := PollOnce(gw, execId);
      ghost var ev := Step(GetCMDResult(execId), s);
      AppendAssoc(old(gw.trace), done, [ev]);
      if running {
        retry := retry - 1;
      }
      ExtendTwice(done, [ev], PollLoop(execId, retry + 1, execErr, gw.script));
      done := done + [ev];
      retry := retry + 1;
    }
  }

  /** One poll: the error value it leaves and whether the record was still running. */
  method PollOnce(gw: Cluster, execId: string) returns (execErr: Outcome, running: bool)
    modifies gw
    ensures running == Running(Head(old(gw.script)))
    ensures execErr == (if running then Pass else Verdict(Head(old(gw.script))))
    ensures gw.script == Tail(old(gw.script)) && gw.trace == old(gw.trace) + [Step(GetCMDResult(execId), old(gw.script))]
  {
    var r := gw.Send(GetCMDResult(execId));
    var result := CmdResultOf(r);
    running := false;
    if result.Err? {
      return Fail(result.msg), running;
    }
    execErr := Pass;
    var rec := result.value;
    if rec.status == CMD_FAILED {
      if rec.error.Some? {
        execErr := Fail(rec.error.value);
      }
    } else if rec.status == CMD_RUNNING {
      running := true;
    } else if rec.status == CMD_SUCCEEDED {
      if rec.exitCode != 0 {
        execErr := Fail(rec.output);
      }
    }
  }

  // -------------------------------------------------------------------------
  // Properties.

  /** The verdict of a settled poll, case by case. */
  lemma VerdictCases(r: Reply)
    ensures r.Failure? ==> Verdict(r) == Fail(r.msg)
    ensures r.CmdResult? && r.rec.status == CMD_FAILED ==>
      Verdict(r) == (if r.rec.error.None? then Pass else Fail(r.rec.error.value))
    ensures r.CmdResult? && r.rec.status == CMD_SUCCEEDED ==>
      Verdict(r) == (if r.rec.exitCode != 0 then Fail(r.rec.output) else Pass)
    ensures r.CmdResult? && r.rec.status !in {CMD_FAILED, CMD_SUCCEEDED} ==> Verdict(r) == Pass
  {
  }

  /**
   * The shape of a submission run from attempt `retry` on: between one and
   * the remaining number of `ExecAsync` calls for the command, every one but
   * the last refused, the result decided by the last reply, and a refusal
   * only once every attempt was used.
   */
  predicate SubmitShape(run: Run<Result<string>>, vmid: int, cmd: string, retry: int)
  {
    1 <= |run.events| <= SUBMIT_RETRIES - retry &&
    (forall i :: 0 <= i < |run.events| ==> run.events[i].call == ExecAsync(vmid, SHELL, cmd)) &&
    (forall i :: 0 <= i < |run.events| - 1 ==> ExecIdOf(run.events[i].reply).Err?) &&
    run.value == ExecIdOf(Last(run.events).reply) &&
    (run.value.Err? ==> |run.events| == SUBMIT_RETRIES - retry)
  }

  lemma {:induction false} SubmitAttempts(vmid: int, cmd: string, retry: int, s: seq<Reply>)
    requires 0 <= retry < SUBMIT_RETRIES
    ensures SubmitShape(SubmitLoop(vmid, cmd, retry, s), vmid, cmd, retry)
    decreases SUBMIT_RETRIES - retry
  {
    var run := SubmitLoop(vmid, cmd, retry, s);
    var ev := Step(ExecAsync(vmid, SHELL, cmd), s);
    if ExecIdOf(ev.reply).Err? && retry + 1 < SUBMIT_RETRIES {
      var sub := SubmitLoop(vmid, cmd, retry + 1, Tail(s));
      SubmitAttempts(vmid, cmd, retry + 1, Tail(s));
      assert run == Extend([ev], sub);
      SubmitPrepend(ev, sub, vmid, cmd, retry);
    }
  }

  lemma SubmitPrepend(ev: Event, sub: Run<Result<string>>, vmid: int, cmd: string, retry: int)
    requires ev.call == ExecAsync(vmid, SHELL, cmd) && ExecIdOf(ev.reply).Err?
    requires SubmitShape(sub, vmid, cmd, retry + 1)
    ensures SubmitShape(Extend([ev], sub), vmid, cmd, retry)
  {
    var evs := [ev] + sub.events;
    assert Last(evs) == Last(sub.events);
    assert forall i :: 0 < i < |evs| ==> evs[i] == sub.events[i - 1];
  }

  /**
   * The shape of a polling run after `settled` settled polls: only
   * `GetCMDResult` calls for the execution, exactly the missing settled polls
   * (running records come on top), the last poll settled, and the outcome is
   * the verdict of that last poll.
   */
  predicate PollShape(run: Run<Outcome>, execId: string, settled: int)
  {
    (forall i :: 0 <= i < |run.events| ==> run.events[i].call == GetCMDResult(execId)) &&
    Count(run.events, SettledPolls) == POLL_RETRIES - settled &&
    run.events != [] && !Running(Last(run.events).reply) && run.value == Verdict(Last(run.events).reply)
  }

  lemma {:induction false} PollOutcome(execId: string, settled: int, last: Outcome, s: seq<Reply>)
    requires 0 <= settled < POLL_RETRIES
    ensures PollShape(PollLoop(execId, settled, last, s), execId, settled)
    decreases |s|, POLL_RETRIES - settled
  {
    var r := Head(s);
    PollStep(execId, settled, last, s);
    if Running(r) {
      PollOutcome(execId, settled, Pass, Tail(s));
    } else if settled + 1 < POLL_RETRIES {
      PollOutcome(execId, settled + 1, Verdict(r), Tail(s));
    }
  }

  /** One poll reduces the shape of the loop to that of the rest. */
  lemma PollStep(execId: string, settled: int, last: Outcome, s: seq<Reply>)
    requires 0 <= settled < POLL_RETRIES
    ensures var r := Head(s);
      var run := PollLoop(execId, settled, last, s);
      if Running(r) then
        PollShape(PollLoop(execId, settled, Pass, Tail(s)), execId, settled) ==> PollShape(run, execId, settled)
      else if settled + 1 < POLL_RETRIES then
        PollShape(PollLoop(execId, settled + 1, Verdict(r), Tail(s)), execId, settled + 1) ==> PollShape(run, execId, settled)
      else PollShape(run, execId, settled)
  {
    var run := PollLoop(execId, settled, last, s);
    var ev := Step(GetCMDResult(execId), s);
    if Running(ev.reply) {
      var sub := PollLoop(execId, settled, Pass, Tail(s));
      assert run == Extend([ev], sub);
      if PollShape(sub, execId, settled) {
        PollPrepend(ev, sub, execId, settled);
      }
    } else if settled + 1 < POLL_RETRIES {
      var sub := PollLoop(execId, settled + 1, Verdict(ev.reply), Tail(s));
      assert run == Extend([ev], sub);
      if PollShape(sub, execId, settled + 1) {
        PollPrepend(ev, sub, execId, settled + 1);
      }
    } else {
      assert run.events == [ev];
      CountOne(ev, SettledPolls);
    }
  }

  lemma PollPrepend(ev: Event, sub: Run<Outcome>, execId: string, settled: int)
    requires ev.call == GetCMDResult(execId)
    requires PollShape(sub, execId, settled)
    ensures PollShape(Extend([ev], sub), execId, if Running(ev.reply) then settled else settled - 1)
  {
    CountOne(ev, SettledPolls);
    CountConcat([ev], sub.events, SettledPolls);
    var evs := [ev] + sub.events;
    assert Last(evs) == Last(sub.events);
    assert forall i :: 0 < i < |evs| ==> evs[i] == sub.events[i - 1];
  }

  /** The submission calls and the polls of one command's run, in that order. */
  lemma CommandSplit(vmid: int, cmd: string, s: seq<Reply>)
    ensures var sub := SubmitLoop(vmid, cmd, 0, s);
      SubmitShape(sub, vmid, cmd, 0) &&
      (sub.value.Err? ==> CommandRun(vmid, cmd, s) == Run(Fail(sub.value.msg), sub.rest, sub.events)) &&
      (sub.value.Ok? ==>
        CommandRun(vmid, cmd, s) == Extend(sub.events, PollLoop(sub.value.value, 0, Pass, sub.rest)) &&
        PollShape(PollLoop(sub.value.value, 0, Pass, sub.rest), sub.value.value, 0))
  {
    var sub := SubmitLoop(vmid, cmd, 0, s);
    SubmitAttempts(vmid, cmd, 0, s);
    if sub.value.Ok? {
      PollOutcome(sub.value.value, 0, Pass, sub.rest);
    }
  }

  /**
   * One command: at most three submissions.  A command refused three times
   * fails with the last refusal and is never polled; an accepted one is
   * polled until three polls settled, and its outcome is the last verdict.
   */
  predicate CommandShape(run: Run<Outcome>)
  {
    run.events != [] &&
    Count(run.events, Submissions) <= SUBMIT_RETRIES &&
    ((Count(run.events, Submissions) == SUBMIT_RETRIES && Count(run.events, SettledPolls) == 0 &&
      ExecIdOf(Last(run.events).reply).Err? && run.value == Fail(ExecIdOf(Last(run.events).reply).msg)) ||
     (Count(run.events, SettledPolls) == POLL_RETRIES && run.value == Verdict(Last(run.events).reply)))
  }

  lemma CommandOutcome(vmid: int, cmd: string, s: seq<Reply>)
    ensures CommandShape(CommandRun(vmid, cmd, s))
  {
    var sub := SubmitLoop(vmid, cmd, 0, s);
    CommandSplit(vmid, cmd, s);
    SubmitCounts(sub, vmid, cmd);
    if sub.value.Ok? {
      AcceptedCommand(sub, PollLoop(sub.value.value, 0, Pass, sub.rest));
    }
  }

  lemma SubmitCounts(sub: Run<Result<string>>, vmid: int, cmd: string)
    requires SubmitShape(sub, vmid, cmd, 0)
    ensures Count(sub.events, Submissions) == |sub.events| && Count(sub.events, SettledPolls) == 0
  {
    assert forall i :: 0 <= i < |sub.events| ==> IsKind(sub.events[i], Submissions);
    CountAll(sub.events, Submissions);
    CountNone(sub.events, SettledPolls);
  }

  lemma AcceptedCommand(sub: Run<Result<string>>, poll: Run<Outcome>)
    requires sub.events != [] && Count(sub.events, Submissions) <= SUBMIT_RETRIES && Count(sub.events, SettledPolls) == 0
    requires sub.value.Ok? && PollShape(poll, sub.value.value, 0)
    ensures CommandShape(Extend(sub.events, poll))
  {
    assert forall i :: 0 <= i < |poll.events| ==> !IsKind(poll.events[i], Submissions);
    CountNone(poll.events, Submissions);
    CountConcat(sub.events, poll.events, Submissions);
    CountConcat(sub.events, poll.events, SettledPolls);
    assert Last(sub.events + poll.events) == Last(poll.events);
  }

  /**
   * The run of `cmds` fails at command `k`: the commands before it ran as a
   * list of their own would and passed, command `k` failed, and nothing was
   * issued after it.
   */
  predicate FailsAt(vmid: int, cmds: seq<string>, s: seq<Reply>, k: int)
    requires 0 <= k < |cmds|
  {
    var p := CommandsRun(vmid, cmds[..k], s);
    var c := CommandRun(vmid, cmds[k], p.rest);
    p.value == Pass && c.value.Fail? && CommandsRun(vmid, cmds, s) == Extend(p.events, c)
  }

  /** The first failing command ends the run: no later command is submitted. */
  lemma {:induction false} FirstFailureStops(vmid: int, cmds: seq<string>, s: seq<Reply>)
    ensures CommandsRun(vmid, cmds, s).value.Fail? ==> exists k :: 0 <= k < |cmds| && FailsAt(vmid, cmds, s, k)
    decreases |cmds|
  {
    if cmds != [] && CommandsRun(vmid, cmds, s).value.Fail? {
      var c0 := CommandRun(vmid, cmds[0], s);
      if c0.value.Fail? {
        FailsAtFirst(vmid, cmds, s);
      } else {
        FirstFailureStops(vmid, cmds[1..], c0.rest);
        var k :| 0 <= k < |cmds[1..]| && FailsAt(vmid, cmds[1..], c0.rest, k);
        FailsAtLater(vmid, cmds, s, k);
      }
    }
  }

  lemma FailsAtFirst(vmid: int, cmds: seq<string>, s: seq<Reply>)
    requires cmds != [] && CommandRun(vmid, cmds[0], s).value.Fail?
    ensures FailsAt(vmid, cmds, s, 0)
  {
    var c0 := CommandRun(vmid, cmds[0], s);
    assert cmds[..0] == [];
    assert [] + c0.events == c0.events;
  }

  lemma FailsAtLater(vmid: int, cmds: seq<string>, s: seq<Reply>, k: int)
    requires cmds != [] && CommandRun(vmid, cmds[0], s).value.Pass?
    requires 0 <= k < |cmds| - 1 && FailsAt(vmid, cmds[1..], CommandRun(vmid, cmds[0], s).rest, k)
    ensures FailsAt(vmid, cmds, s, k + 1)
  {
    var c0 := CommandRun(vmid, cmds[0], s);
    var p' := CommandsRun(vmid, cmds[1..][..k], c0.rest);
    assert cmds[..k + 1][1..] == cmds[1..][..k];
    assert cmds[1..][k] == cmds[k + 1];
    assert CommandsRun(vmid, cmds[..k + 1], s) == Extend(c0.events, p');
    ExtendTwice(c0.events, p'.events, CommandRun(vmid, cmds[k + 1], p'.rest));
  }

  /**
   * At most three submissions per command, and a run that succeeds has had
   * exactly three settled polls for every command.
   */
  lemma {:induction false} CommandsCounts(vmid: int, cmds: seq<string>, s: seq<Reply>)
    ensures var run := CommandsRun(vmid, cmds, s);
      Count(run.events, Submissions) <= SUBMIT_RETRIES * |cmds| &&
      (run.value == Pass ==> Count(run.events, SettledPolls) == POLL_RETRIES * |cmds|)
    decreases |cmds|
  {
    if cmds != [] {
      var c := CommandRun(vmid, cmds[0], s);
      CommandOutcome(vmid, cmds[0], s);
      if c.value.Pass? {
        var rest := CommandsRun(vmid, cmds[1..], c.rest);
        CommandsCounts(vmid, cmds[1..], c.rest);
        CountConcat(c.events, rest.events, Submissions);
        CountConcat(c.events, rest.events, SettledPolls);
      }
    }
  }

  /** Running commands only submits and polls executions. */
  lemma {:induction false} CommandsKinds(vmid: int, cmds: seq<string>, s: seq<Reply>)
    ensures KindsWithin(CommandsRun(vmid, cmds, s).events, {Submissions, SettledPolls, RunningPolls})
    decreases |cmds|
  {
    if cmds != [] {
      var c := CommandRun(vmid, cmds[0], s);
      CommandKinds(vmid, cmds[0], s);
      if c.value.Pass? {
        CommandsKinds(vmid, cmds[1..], c.rest);
        KindsWithinConcat(c.events, CommandsRun(vmid, cmds[1..], c.rest).events, {Submissions, SettledPolls, RunningPolls});
      }
    }
  }

  lemma CommandKinds(vmid: int, cmd: string, s: seq<Reply>)
    ensures KindsWithin(CommandRun(vmid, cmd, s).events, {Submissions, SettledPolls, RunningPolls})
  {
    var sub := SubmitLoop(vmid, cmd, 0, s);
    CommandSplit(vmid, cmd, s);
    SubmitKinds(sub, vmid, cmd);
    if sub.value.Ok? {
      var poll := PollLoop(sub.value.value, 0, Pass, sub.rest);
      PollKinds(poll, sub.value.value);
      KindsWithinConcat(sub.events, poll.events, {Submissions, SettledPolls, RunningPolls});
    }
  }

  lemma SubmitKinds(sub: Run<Result<string>>, vmid: int, cmd: string)
    requires SubmitShape(sub, vmid, cmd, 0)
    ensures KindsWithin(sub.events, {Submissions, SettledPolls, RunningPolls})
  {
    assert forall i :: 0 <= i < |sub.events| ==> KindOf(sub.events[i]) == Submissions;
  }

  lemma PollKinds(poll: Run<Outcome>, execId: string)
    requires PollShape(poll, execId, 0)
    ensures KindsWithin(poll.events, {Submissions, SettledPolls, RunningPolls})
  {
    assert forall i :: 0 <= i < |poll.events| ==> KindOf(poll.events[i]) in {SettledPolls, RunningPolls};
  }
}
