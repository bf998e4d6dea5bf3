/**
 * The node firewall (`node_firewall/`): a single rule as a resource, an
 * ordered list of rules as a resource, and the rules the cluster reports as
 * a data source.  Rules are submitted with their enable flag encoded as 0 or
 * 1, and read back with the bracketed prefix the cluster puts in front of a
 * comment stripped.
 */
module NodeFirewall {
  import opened Gateway
  import opened Plugin
  import opened Decimal

  /**
   * `ruleModel`: one rule as Terraform sees it.  The destination port is
   * carried as it is given, and the position is neither submitted nor read
   * back by the resources.
   */
  datatype RuleModel = RuleModel(
    id: string, action: string, comment: string, dest: string, dport: string,
    enable: bool, icmpType: string, iface: string, ipVersion: int, log: string,
    macro: string, pos: Option<int>, proto: string, source: string, sport: string,
    ruleType: string)

  /** `RuleResourceModel`: one rule of the node `node`. */
  datatype NodeRule = NodeRule(node: string, rule: RuleModel)

  /** `RulesResourceModel` and `rulesDataSourceModel`: the rules of the node `node`, in order. */
  datatype NodeRules = NodeRules(node: string, rules: seq<RuleModel>)

  const RULE_CREATE_FAILED := "Unable to create node firewall rule, got error: "
  const RULES_FAILED := "Unable to create node firewall rules, got error: "
  const READ_RULES_SUMMARY := "Unable to Read Proxmox Rules"
  const PARSE_RULE_SUMMARY := "Unable to parse proxmox node firewall rule"
  const SLICE_OUT_OF_RANGE := "slice bounds out of range"

  // -------------------------------------------------------------------------
  // Field conversions.

  /** The enable flag as submitted: 1 for true, 0 for false. */
  function EnableFlag(enable: bool): int
  {
    if enable then 1 else 0
  }

  /** The enable flag as the resources read it back: true exactly for 1. */
  function EnableOf(n: int): bool
  {
    n == 1
  }

  /** `strings.IndexRune(s, c)`: the first position of `c` in `s`, or -1 when there is none. */
  function IndexRune(s: string, c: char): (i: int)
    ensures -1 <= i < |s|
    ensures i == -1 <==> c !in s
    ensures i >= 0 ==> s[i] == c && c !in s[..i]
    decreases |s|
  {
    if s == [] then -1
    else if s[0] == c then 0
    else
      var j := IndexRune(s[1..], c);
      if j == -1 then -1
      else
        assert s[..j + 1] == [s[0]] + s[1..][..j];
        j + 1
  }

  /**
   * The comment the single rule's `Read` keeps: what follows the first ']'
   * and one more character when the comment is that long, otherwise "".
   * Without a ']' this drops the first character.
   */
  function StripComment(c: string): (r: string)
    ensures |r| <= |c| && r == c[|c| - |r|..]
  {
    var idx := IndexRune(c, ']');
    if |c| >= idx + 2 then c[idx + 2..] else ""
  }

  /** The list resource's unchecked `Comment[idx+2:]`: `None` where Go's slice expression panics. */
  function SliceComment(c: string): Option<string>
  {
    var idx := IndexRune(c, ']');
    if idx + 2 <= |c| then Some(c[idx + 2..]) else None
  }

  /** The request submitted for `rule` on `node`: every field but the id and the position, enable encoded. */
  function RuleRequestOf(node: string, rule: RuleModel): RuleRequest
  {
    RuleRequest(
      node, rule.action, rule.ruleType, rule.comment, rule.dest, rule.dport,
      EnableFlag(rule.enable), rule.icmpType, rule.iface, rule.log, rule.macro,
      rule.proto, rule.source, rule.sport)
  }

  /** `rule` refreshed from the cluster's `remote` with the comment `comment`; the position stays. */
  function FromRemote(rule: RuleModel, remote: RemoteRule, comment: string): RuleModel
  {
    RuleModel(
      remote.id, remote.action, comment, remote.dest, remote.dport,
      EnableOf(remote.enable), remote.icmpType, remote.iface, remote.ipVersion,
      remote.log, remote.macro, rule.pos, remote.proto, remote.source,
      remote.sport, remote.ruleType)
  }

  /**
   * The rule the cluster reports for a submitted request: the request's
   * fields, the id, IP version and position the cluster assigned, and the
   * comment behind the bracketed prefix `tag`.
   */
  function Echo(req: RuleRequest, id: string, tag: string, ipVersion: int, pos: int): RemoteRule
  {
    RemoteRule(
      id, req.action, "[" + tag + "] " + req.comment, req.dest, req.dport,
      req.enable, req.icmpType, req.iface, ipVersion, req.log, req.macro, pos,
      req.proto, req.source, req.sport, req.ruleType)
  }

  // -------------------------------------------------------------------------
  // The single rule resource.

  /** `Create`: submit the rule; the state takes the id the cluster returned. */
  function RuleCreateRun(data: NodeRule, s: seq<Reply>): Run<Response<NodeRule>>
  {
    var ev := Step(NewRule(RuleRequestOf(data.node, data.rule)), s);
    var id := RuleIdOf(ev.reply);
    Run(if id.Err? then Response([ClientError(RULE_CREATE_FAILED + id.msg)], Unchanged)
        else Response([], Written(data.(rule := data.rule.(id := id.value)))),
        Tail(s), [ev])
  }

  /** `Read`: every field from the cluster's rule, the comment stripped of its prefix. */
  function RuleReadRun(data: NodeRule, s: seq<Reply>): Run<Response<NodeRule>>
  {
    var ev := Step(GetRule(data.node, data.rule.id), s);
    var remote := RuleOf(ev.reply);
    Run(if remote.Err? then Response([ClientError(RULES_FAILED + remote.msg)], Unchanged)
        else Response([], Written(data.(rule := FromRemote(data.rule, remote.value, StripComment(remote.value.comment))))),
        Tail(s), [ev])
  }

  /** `Update`: delete the rule with the planned id, then submit the plan as `Create` does. */
  function RuleUpdateRun(plan: NodeRule, s: seq<Reply>): Run<Response<NodeRule>>
  {
    var del := Step(DeleteRule(plan.node, plan.rule.id), s);
    var deleted := AckOf(del.reply);
    if deleted.Fail? then Run(Response([ClientError(RULES_FAILED + deleted.msg)], Unchanged), Tail(s), [del])
    else Extend([del], RuleCreateRun(plan, Tail(s)))
  }

  /** `Delete`: the resource leaves the state once the rule is deleted. */
  function RuleDeleteRun(data: NodeRule, s: seq<Reply>): Run<Response<NodeRule>>
  {
    var del := Step(DeleteRule(data.node, data.rule.id), s);
    var deleted := AckOf(del.reply);
    Run(if deleted.Fail? then Response([ClientError(RULES_FAILED + deleted.msg)], Unchanged) else Response([], Removed),
        Tail(s), [del])
  }

  method CreateRule(gw: Cluster, data: NodeRule) returns (resp: Response<NodeRule>)
    modifies gw
    ensures var run := RuleCreateRun(data, old(gw.script));
      resp == run.value && gw.script == run.rest && gw.trace == old(gw.trace) + run.events
  {
    var r := gw.Send(NewRule(RuleRequestOf(data.node, data.rule)));
    var id := RuleIdOf(r);
    if id.Err? {
      return Response([ClientError(RULE_CREATE_FAILED + id.msg)], Unchanged);
    }
    var written := data.(rule := data.rule.(id := id.value));
    return Response([], Written(written));
  }

  method ReadRule(gw: Cluster, data: NodeRule) returns (resp: Response<NodeRule>)
    modifies gw
    ensures var run := RuleReadRun(data, old(gw.script));
      resp == run.value && gw.script == run.rest && gw.trace == old(gw.trace) + run.events
  {
    var r := gw.Send(GetRule(data.node, data.rule.id));
    var remote := RuleOf(r);
    if remote.Err? {
      return Response([ClientError(RULES_FAILED + remote.msg)], Unchanged);
    }
    var comment := StripComment(remote.value.comment);
    return Response([], Written(data.(rule := FromRemote(data.rule, remote.value, comment))));
  }

  method UpdateRule(gw: Cluster, plan: NodeRule) returns (resp: Response<NodeRule>)
    modifies gw
    ensures var run := RuleUpdateRun(plan, old(gw.script));
      resp == run.value && gw.script == run.rest && gw.trace == old(gw.trace) + run.events
  {
    var r := gw.Send(DeleteRule(plan.node, plan.rule.id));
    var del := Event(DeleteRule(plan.node, plan.rule.id), r);
    if AckOf(r).Fail? {
      return Response([ClientError(RULES_FAILED + AckOf(r).msg)], Unchanged);
    }
    ghost var c := RuleCreateRun(plan, gw.script);
    resp := CreateRule(gw, plan);
    AppendAssoc(old(gw.trace), [del], c.events);
  }

  method DeleteOneRule(gw: Cluster, data: NodeRule) returns (resp: Response<NodeRule>)
    modifies gw
    ensures var run := RuleDeleteRun(data, old(gw.script));
      resp == run.value && gw.script == run.rest && gw.trace == old(gw.trace) + run.events
  {
    var r := gw.Send(DeleteRule(data.node, data.rule.id));
    if AckOf(r).Fail? {
      return Response([ClientError(RULES_FAILED + AckOf(r).msg)], Unchanged);
    }
    return Response([], Removed);
  }

  // -------------------------------------------------------------------------
  // The rule list resource.

  /**
   * `Create`'s loop from position `i` on: submit `rules[i]`, store the id
   * returned for it at position `i`, and go on; the first error ends the loop.
   */
  function SubmitFrom(node: string, rules: seq<RuleModel>, i: nat, s: seq<Reply>): Run<Result<seq<RuleModel>>>
    requires i <= |rules|
    decreases |rules| - i
  {
    if i == |rules| then Run(Ok(rules), s, [])
    else
      var ev := Step(NewRule(RuleRequestOf(node, rules[i])), s);
      var id := RuleIdOf(ev.reply);
      if id.Err? then Run(Err(id.msg), Tail(s), [ev])
      else Extend([ev], SubmitFrom(node, rules[i := rules[i].(id := id.value)], i + 1, Tail(s)))
  }

  /** What ends the list resource's `Read` loop. */
  datatype Refreshed = Refreshed(rules: seq<RuleModel>) | ReadFailed(msg: string) | SlicePanic

  /**
   * `Read`'s loop from position `i` on: fetch the rule with the id at
   * position `i` and overwrite the fields there; a failed fetch ends the loop
   * with its error, a comment too short for the slice with a panic.
   */
  function RefreshFrom(node: string, rules: seq<RuleModel>, i: nat, s: seq<Reply>): Run<Refreshed>
    requires i <= |rules|
    decreases |rules| - i
  {
    if i == |rules| then Run(Refreshed(rules), s, [])
    else
      var ev := Step(GetRule(node, rules[i].id), s);
      var remote := RuleOf(ev.reply);
      if remote.Err? then Run(ReadFailed(remote.msg), Tail(s), [ev])
      else
        var comment := SliceComment(remote.value.comment);
        if comment.None? then Run(SlicePanic, Tail(s), [ev])
        else Extend([ev], RefreshFrom(node, rules[i := FromRemote(rules[i], remote.value, comment.value)], i + 1, Tail(s)))
  }

  /** The delete loop of `Update` and `Delete` from position `i` on: delete each rule in order until one fails. */
  function DeleteFrom(node: string, rules: seq<RuleModel>, i: nat, s: seq<Reply>): Run<Outcome>
    requires i <= |rules|
    decreases |rules| - i
  {
    if i == |rules| then Run(Pass, s, [])
    else
      var ev := Step(DeleteRule(node, rules[i].id), s);
      var deleted := AckOf(ev.reply);
      if deleted.Fail? then Run(deleted, Tail(s), [ev])
      else Extend([ev], DeleteFrom(node, rules, i + 1, Tail(s)))
  }

  /** `Create`: submit the rules in order; the state is written only when all were created. */
  function RulesCreateRun(data: NodeRules, s: seq<Reply>): Run<Response<NodeRules>>
  {
    var c := SubmitFrom(data.node, data.rules, 0, s);
    Run(if c.value.Err? then Response([ClientError(RULES_FAILED + c.value.msg)], Unchanged)
        else Response([], Written(data.(rules := c.value.value))),
        c.rest, c.events)
  }

  /** `Read`: refresh every rule in order. */
  function RulesReadRun(data: NodeRules, s: seq<Reply>): Run<Response<NodeRules>>
  {
    var r := RefreshFrom(data.node, data.rules, 0, s);
    Run(match r.value
        case Refreshed(rules) => Response([], Written(data.(rules := rules)))
        case ReadFailed(m) => Response([ClientError(RULES_FAILED + m)], Unchanged)
        case SlicePanic => Panic(SLICE_OUT_OF_RANGE),
        r.rest, r.events)
  }

  /** `Update`: delete every rule of the prior state in order, then create the planned ones as `Create` does. */
  function RulesUpdateRun(plan: NodeRules, state: NodeRules, s: seq<Reply>): Run<Response<NodeRules>>
  {
    var d := DeleteFrom(plan.node, state.rules, 0, s);
    if d.value.Fail? then Run(Response([ClientError(RULES_FAILED + d.value.msg)], Unchanged), d.rest, d.events)
    else Extend(d.events, RulesCreateRun(plan, d.rest))
  }

  /** `Delete`: delete every rule in order; the resource leaves the state once all are deleted. */
  function RulesDeleteRun(data: NodeRules, s: seq<Reply>): Run<Response<NodeRules>>
  {
    var d := DeleteFrom(data.node, data.rules, 0, s);
    Run(if d.value.Fail? then Response([ClientError(RULES_FAILED + d.value.msg)], Unchanged) else Response([], Removed),
        d.rest, d.events)
  }

  method SubmitRules(gw: Cluster, node: string, rules: seq<RuleModel>) returns (out: Result<seq<RuleModel>>)
    modifies gw
    ensures var run := SubmitFrom(node, rules, 0, old(gw.script));
      out == run.value && gw.script == run.rest && gw.trace == old(gw.trace) + run.events
  {
    var current := rules;
    ghost var done: seq<Event> := [];
    for i := 0 to |rules|
      invariant |current| == |rules|
      invariant gw.trace == old(gw.trace) + done
      invariant SubmitFrom(node, rules, 0, old(gw.script)) == Extend(done, SubmitFrom(node, current, i, gw.script))
    {
      var r := gw.Send(NewRule(RuleRequestOf(node, current[i])));
      var ev := Event(NewRule(RuleRequestOf(node, current[i])), r);
      AppendAssoc(old(gw.trace), done, [ev]);
      var id := RuleIdOf(r);
      if id.Err? {
        return Err(id.msg);
      }
      current := current[i := current[i].(id := id.value)];
      ExtendTwice(done, [ev], SubmitFrom(node, current, i + 1, gw.script));
      done := done + [ev];
    }
    return Ok(current);
  }

  method RefreshRules(gw: Cluster, node: string, rules: seq<RuleModel>) returns (out: Refreshed)
    modifies gw
    ensures var run := RefreshFrom(node, rules, 0, old(gw.script));
      out == run.value && gw.script == run.rest && gw.trace == old(gw.trace) + run.events
  {
    var current := rules;
    ghost var done: seq<Event> := [];
    for i := 0 to |rules|
      invariant |current| == |rules|
      invariant gw.trace == old(gw.trace) + done
      invariant RefreshFrom(node, rules, 0, old(gw.script)) == Extend(done, RefreshFrom(node, current, i, gw.script))
    {
      RefreshStep(node, current, i, gw.script);
      var r := gw.Send(GetRule(node, current[i].id));
      var ev := Event(GetRule(node, current[i].id), r);
      AppendAssoc(old(gw.trace), done, [ev]);
      var remote := RuleOf(r);
      if remote.Err? {
        return ReadFailed(remote.msg);
      }
      var comment := SliceComment(remote.value.comment);
      if comment.None? {
        return SlicePanic;
      }
      current := current[i := FromRemote(current[i], remote.value, comment.value)];
      ExtendTwice(done, [ev], RefreshFrom(node, current, i + 1, gw.script));
      done := done + [ev];
    }
    return Refreshed(current);
  }

  /** One fetch of the refresh loop: a failed fetch or a short comment ends it, otherwise it goes on with that rule refreshed. */
  lemma RefreshStep(node: string, rules: seq<RuleModel>, i: nat, s: seq<Reply>)
    requires i < |rules|
    ensures var ev := Step(GetRule(node, rules[i].id), s);
      var remote := RuleOf(Head(s));
      RefreshFrom(node, rules, i, s) ==
        if remote.Err? then Run(ReadFailed(remote.msg), Tail(s), [ev])
        else if SliceComment(remote.value.comment).None? then Run(SlicePanic, Tail(s), [ev])
        else Extend([ev], RefreshFrom(node, rules[i := FromRemote(rules[i], remote.value, SliceComment(remote.value.comment).value)], i + 1, Tail(s)))
  {
  }

  method DeleteRules(gw: Cluster, node: string, rules: seq<RuleModel>) returns (err: Outcome)
    modifies gw
    ensures var run := DeleteFrom(node, rules, 0, old(gw.script));
      err == run.value && gw.script == run.rest && gw.trace == old(gw.trace) + run.events
  {
    ghost var done: seq<Event> := [];
    for i := 0 to |rules|
      invariant gw.trace == old(gw.trace) + done
      invariant DeleteFrom(node, rules, 0, old(gw.script)) == Extend(done, DeleteFrom(node, rules, i, gw.script))
    {
      var r := gw.Send(DeleteRule(node, rules[i].id));
      var ev := Event(DeleteRule(node, rules[i].id), r);
      AppendAssoc(old(gw.trace), done, [ev]);
      if AckOf(r).Fail? {
        return AckOf(r);
      }
      ExtendTwice(done, [ev], DeleteFrom(node, rules, i + 1, gw.script));
      done := done + [ev];
    }
    return Pass;
  }

  method CreateRules(gw: Cluster, data: NodeRules) returns (resp: Response<NodeRules>)
    modifies gw
    ensures var run := RulesCreateRun(data, old(gw.script));
      resp == run.value && gw.script == run.rest && gw.trace == old(gw.trace) + run.events
  {
    var out := SubmitRules(gw, data.node, data.rules);
    if out.Err? {
      return Response([ClientError(RULES_FAILED + out.msg)], Unchanged);
    }
    return Response([], Written(data.(rules := out.value)));
  }

  method ReadRules(gw: Cluster, data: NodeRules) returns (resp: Response<NodeRules>)
    modifies gw
    ensures var run := RulesReadRun(data, old(gw.script));
      resp == run.value && gw.script == run.rest && gw.trace == old(gw.trace) + run.events
  {
    var out := RefreshRules(gw, data.node, data.rules);
    match out
    case Refreshed(rules) => resp := Response([], Written(data.(rules := rules)));
    case ReadFailed(m) => resp := Response([ClientError(RULES_FAILED + m)], Unchanged);
    case SlicePanic => resp := Panic(SLICE_OUT_OF_RANGE);
  }

  method UpdateRules(gw: Cluster, plan: NodeRules, state: NodeRules) returns (resp: Response<NodeRules>)
    modifies gw
    ensures var run := RulesUpdateRun(plan, state, old(gw.script));
      resp == run.value && gw.script == run.rest && gw.trace == old(gw.trace) + run.events
  {
    ghost var d := DeleteFrom(plan.node, state.rules, 0, gw.script);
    var err := DeleteRules(gw, plan.node, state.rules);
    if err.Fail? {
      return Response([ClientError(RULES_FAILED + err.msg)], Unchanged);
    }
    ghost var c := RulesCreateRun(plan, gw.script);
    resp := CreateRules(gw, plan);
    AppendAssoc(old(gw.trace), d.events, c.events);
  }

  method DeleteAllRules(gw: Cluster, data: NodeRules) returns (resp: Response<NodeRules>)
    modifies gw
    ensures var run := RulesDeleteRun(data, old(gw.script));
      resp == run.value && gw.script == run.rest && gw.trace == old(gw.trace) + run.events
  {
    var err := DeleteRules(gw, data.node, data.rules);
    if err.Fail? {
      return Response([ClientError(RULES_FAILED + err.msg)], Unchanged);
    }
    return Response([], Removed);
  }

  // -------------------------------------------------------------------------
  // The rules data source.

  /** The error for a remote enable value other than 0 or 1. */
  function EnableError(n: int): string
  {
    "Expected Enabled property value to be 1 or 0, but got " + FormatInt(n)
  }

  /** A remote rule as the data source reports it: comment and position as they are. */
  function Decoded(r: RemoteRule): RuleModel
  {
    RuleModel(
      r.id, r.action, r.comment, r.dest, r.dport, r.enable == 1, r.icmpType,
      r.iface, r.ipVersion, r.log, r.macro, Some(r.pos), r.proto, r.source,
      r.sport, r.ruleType)
  }

  /** The remote rules in order, or the error for the first enable value other than 0 or 1. */
  function DecodeRules(remote: seq<RemoteRule>): Result<seq<RuleModel>>
    decreases |remote|
  {
    if remote == [] then Ok([])
    else if remote[0].enable != 0 && remote[0].enable != 1 then Err(EnableError(remote[0].enable))
    else
      var rest := DecodeRules(remote[1..]);
      if rest.Err? then rest else Ok([Decoded(remote[0])] + rest.value)
  }

  /** The data source's `Read`: the node's rules, or the error that stopped the read. */
  function RulesSourceReadRun(data: NodeRules, s: seq<Reply>): Run<Response<NodeRules>>
  {
    var ev := Step(GetRules(data.node), s);
    var listed := RulesOf(ev.reply);
    Run(if listed.Err? then Response([Diag(READ_RULES_SUMMARY, listed.msg)], Unchanged)
        else
          var decoded := DecodeRules(listed.value);
          if decoded.Err? then Response([Diag(PARSE_RULE_SUMMARY, decoded.msg)], Unchanged)
          else Response([], Written(NodeRules(data.node, decoded.value))),
        Tail(s), [ev])
  }

  /** The data source's loop: append each decoded rule, stopping at an invalid enable value. */
  method DecodeAll(remote: seq<RemoteRule>) returns (out: Result<seq<RuleModel>>)
    ensures out == DecodeRules(remote)
  {
    var rules: seq<RuleModel> := [];
    assert remote[0..] == remote;
    assert DecodeRules(remote).Ok? ==> [] + DecodeRules(remote).value == DecodeRules(remote).value;
    for i := 0 to |remote|
      invariant DecodeRules(remote) == Prefixed(rules, DecodeRules(remote[i..]))
    {
      assert remote[i..][0] == remote[i] && remote[i..][1..] == remote[i + 1..];
      if remote[i].enable != 0 && remote[i].enable != 1 {
        return Err(EnableError(remote[i].enable));
      }
      PrefixedTwice(rules, Decoded(remote[i]), DecodeRules(remote[i + 1..]));
      rules := rules + [Decoded(remote[i])];
    }
    assert remote[|remote|..] == [];
    assert rules + [] == rules;
    return Ok(rules);
  }

  /** `r` with `pre` in front of its rules when it succeeded. */
  function Prefixed(pre: seq<RuleModel>, r: Result<seq<RuleModel>>): Result<seq<RuleModel>>
  {
    if r.Err? then r else Ok(pre + r.value)
  }

  lemma PrefixedTwice(pre: seq<RuleModel>, x: RuleModel, r: Result<seq<RuleModel>>)
    ensures Prefixed(pre, Prefixed([x], r)) == Prefixed(pre + [x], r)
  {
    if r.Ok? {
      AppendAssoc(pre, [x], r.value);
    }
  }

  method ReadRulesSource(gw: Cluster, data: NodeRules) returns (resp: Response<NodeRules>)
    modifies gw
    ensures var run := RulesSourceReadRun(data, old(gw.script));
      resp == run.value && gw.script == run.rest && gw.trace == old(gw.trace) + run.events
  {
    var r := gw.Send(GetRules(data.node));
    var listed := RulesOf(r);
    if listed.Err? {
      return Response([Diag(READ_RULES_SUMMARY, listed.msg)], Unchanged);
    }
    var decoded := DecodeAll(listed.value);
    if decoded.Err? {
      return Response([Diag(PARSE_RULE_SUMMARY, decoded.msg)], Unchanged);
    }
    return Response([], Written(NodeRules(data.node, decoded.value)));
  }

  // -------------------------------------------------------------------------
  // Properties of the conversions.

  /** An enable flag survives submission and reading back; so do the values 0 and 1 read and resubmitted. */
  lemma EnableRoundTrip(enable: bool, n: int)
    ensures EnableOf(EnableFlag(enable)) == enable
    ensures n == 0 || n == 1 ==> EnableFlag(EnableOf(n)) == n
  {
  }

  /** A comment behind a bracketed prefix free of ']' reads back as it was, in both resources. */
  lemma StripTagged(tag: string, body: string)
    requires ']' !in tag
    ensures StripComment("[" + tag + "] " + body) == body
    ensures SliceComment("[" + tag + "] " + body) == Some(body)
  {
    var c := "[" + tag + "] " + body;
    assert c[|tag| + 1] == ']';
    assert c[..|tag| + 1] == "[" + tag;
    assert IndexRune(c, ']') == |tag| + 1;
    assert c[|tag| + 3..] == body;
  }

  /** A comment without ']' loses its first character; an empty one makes the list resource's slice panic. */
  lemma StripUntagged(c: string)
    requires ']' !in c
    ensures c != [] ==> StripComment(c) == c[1..] && SliceComment(c) == Some(c[1..])
    ensures c == [] ==> StripComment(c) == [] && SliceComment(c) == None
  {
  }

  /** Where the list resource's slice succeeds it keeps what the single rule's `Read` keeps; where it panics that keeps "". */
  lemma SliceAgrees(c: string)
    ensures SliceComment(c).Some? ==> SliceComment(c).value == StripComment(c)
    ensures SliceComment(c).None? ==> StripComment(c) == []
  {
  }

  /**
   * Reading back a submitted rule: when the cluster reports the submitted
   * fields under the id `id`, with the comment behind a bracketed prefix,
   * the rule read is the submitted one with that id and the IP version the
   * cluster chose; the position is the one held before.
   */
  lemma ReadBack(node: string, rule: RuleModel, id: string, tag: string, ipVersion: int, pos: int)
    requires ']' !in tag
    ensures var remote := Echo(RuleRequestOf(node, rule), id, tag, ipVersion, pos);
      FromRemote(rule, remote, StripComment(remote.comment)) == rule.(id := id, ipVersion := ipVersion)
  {
    StripTagged(tag, rule.comment);
  }

  // -------------------------------------------------------------------------
  // Properties of the single rule resource.

  /** `Create` submits the rule with enable as 1 or 0 and without its position; the state takes the returned id and nothing else changes. */
  lemma RuleCreateShape(data: NodeRule, p: Option<int>, s: seq<Reply>)
    ensures var run := RuleCreateRun(data, s);
      var id := RuleIdOf(run.events[0].reply);
      |run.events| == 1 &&
      run.events[0].call == NewRule(RuleRequestOf(data.node, data.rule.(pos := p))) &&
      run.events[0].call.rreq.enable == (if data.rule.enable then 1 else 0) &&
      (run.value.Response? && run.value.state.Written? <==> id.Ok?) &&
      (id.Ok? ==> run.value.state.model == data.(rule := data.rule.(id := id.value))) &&
      (id.Err? ==> run.value == Response([ClientError(RULE_CREATE_FAILED + id.msg)], Unchanged))
  {
  }

  /** `Create` answered with the id `id` writes the planned rule carrying that id. */
  lemma CreateAnswered(data: NodeRule, id: string, s: seq<Reply>)
    ensures RuleCreateRun(data, [RuleId(id)] + s).value == Response([], Written(data.(rule := data.rule.(id := id))))
  {
    assert Head([RuleId(id)] + s) == RuleId(id);
  }

  /**
   * A rule created and then read back, with the cluster reporting the
   * submitted fields behind a bracketed comment prefix, is the planned rule
   * with the returned id and the cluster's IP version.
   */
  lemma CreateThenRead(data: NodeRule, id: string, tag: string, ipVersion: int, pos: int, t: seq<Reply>)
    requires ']' !in tag
    ensures var stored := data.(rule := data.rule.(id := id));
      var echo := Echo(RuleRequestOf(data.node, data.rule), id, tag, ipVersion, pos);
      var read := RuleReadRun(stored, [RuleIs(echo)] + t);
      read.events[0].call == GetRule(data.node, id) &&
      read.value == Response([], Written(data.(rule := data.rule.(id := id, ipVersion := ipVersion))))
  {
    var stored := data.(rule := data.rule.(id := id));
    var echo := Echo(RuleRequestOf(data.node, data.rule), id, tag, ipVersion, pos);
    assert Head([RuleIs(echo)] + t) == RuleIs(echo);
    assert RuleRequestOf(data.node, stored.rule) == RuleRequestOf(data.node, data.rule);
    ReadBack(data.node, stored.rule, id, tag, ipVersion, pos);
  }

  /** `Read` fetches the rule by its id, keeps the position held before, and sets enable exactly for a remote 1. */
  lemma RuleReadShape(data: NodeRule, s: seq<Reply>)
    ensures var run := RuleReadRun(data, s);
      var remote := RuleOf(run.events[0].reply);
      |run.events| == 1 && run.events[0].call == GetRule(data.node, data.rule.id) &&
      (run.value.Response? && run.value.state.Written? <==> remote.Ok?) &&
      (remote.Ok? ==>
        var rule := run.value.state.model.rule;
        rule.pos == data.rule.pos && rule.id == remote.value.id &&
        (rule.enable <==> remote.value.enable == 1) &&
        |rule.comment| <= |remote.value.comment| &&
        rule.comment == remote.value.comment[|remote.value.comment| - |rule.comment|..])
  {
  }

  /**
   * `Update` first deletes the rule with the planned id; it submits the plan
   * only once that delete succeeded, and a written state carries the id
   * returned for the new rule.
   */
  lemma RuleUpdateShape(plan: NodeRule, s: seq<Reply>)
    ensures var run := RuleUpdateRun(plan, s);
      1 <= |run.events| <= 2 &&
      run.events[0].call == DeleteRule(plan.node, plan.rule.id) &&
      (|run.events| == 2 <==> AckOf(run.events[0].reply).Pass?) &&
      (|run.events| == 2 ==> run.events[1].call == NewRule(RuleRequestOf(plan.node, plan.rule))) &&
      (run.value.Response? && run.value.state.Written? <==> |run.events| == 2 && RuleIdOf(run.events[1].reply).Ok?) &&
      (run.value.Response? && run.value.state.Written? ==>
        run.value.state.model == plan.(rule := plan.rule.(id := RuleIdOf(run.events[1].reply).value))) &&
      Count(run.events, RuleCreations) <= 1
  {
    var del := Step(DeleteRule(plan.node, plan.rule.id), s);
    if AckOf(del.reply).Pass? {
      var c := RuleCreateRun(plan, Tail(s));
      CountTwo(del, c.events[0], RuleCreations);
      assert [del] + c.events == [del, c.events[0]];
    } else {
      CountOne(del, RuleCreations);
    }
  }

  /** `Delete` removes the resource exactly when the cluster acknowledged the delete, and reports its error otherwise. */
  lemma RuleDeleteShape(data: NodeRule, s: seq<Reply>)
    ensures var run := RuleDeleteRun(data, s);
      var ack := AckOf(run.events[0].reply);
      |run.events| == 1 && run.events[0].call == DeleteRule(data.node, data.rule.id) &&
      (run.value == Response([], Removed) <==> ack.Pass?) &&
      (ack.Fail? ==> run.value == Response([ClientError(RULES_FAILED + ack.msg)], Unchanged))
  {
  }

  // -------------------------------------------------------------------------
  // Properties of the rule list resource.

  /**
   * What `SubmitFrom(node, rules, i, _)` did in `run`: it submitted the
   * rules from position `i` on, in order, one each, and stopped at the first
   * failed submission; on success it holds every rule, those before `i` as
   * they were and each later one with only its id replaced by the id
   * returned for it.
   */
  predicate Submitted(node: string, rules: seq<RuleModel>, i: nat, run: Run<Result<seq<RuleModel>>>)
    requires i <= |rules|
  {
    SubmittedInOrder(node, rules, i, run.events) && SubmitEnds(rules, i, run)
  }

  /** The submissions of `evs`: the rules from position `i` on, in order, all but the last one answered with an id. */
  predicate SubmittedInOrder(node: string, rules: seq<RuleModel>, i: nat, evs: seq<Event>)
    requires i <= |rules|
  {
    |evs| <= |rules| - i &&
    (forall k :: 0 <= k < |evs| ==> evs[k].call == NewRule(RuleRequestOf(node, rules[i + k]))) &&
    (forall k :: 0 <= k < |evs| - 1 ==> RuleIdOf(evs[k].reply).Ok?)
  }

  /** How the submission loop from position `i` ended. */
  predicate SubmitEnds(rules: seq<RuleModel>, i: nat, run: Run<Result<seq<RuleModel>>>)
    requires i <= |rules|
  {
    var evs := run.events;
    (run.value.Err? ==> evs != [] && RuleIdOf(Last(evs).reply) == Err(run.value.msg)) &&
    (run.value.Ok? ==>
      |evs| == |rules| - i && |run.value.value| == |rules| &&
      (forall k :: 0 <= k < i ==> run.value.value[k] == rules[k]) &&
      (forall k :: i <= k < |rules| ==>
        RuleIdOf(evs[k - i].reply) == Ok(run.value.value[k].id) &&
        run.value.value[k] == rules[k].(id := run.value.value[k].id)))
  }

  lemma SubmittedInOrderPrepend(node: string, rules: seq<RuleModel>, i: nat, ev: Event, id: string, evs: seq<Event>)
    requires i < |rules|
    requires ev.call == NewRule(RuleRequestOf(node, rules[i])) && RuleIdOf(ev.reply).Ok?
    requires SubmittedInOrder(node, rules[i := rules[i].(id := id)], i + 1, evs)
    ensures SubmittedInOrder(node, rules, i, [ev] + evs)
  {
    assert forall k :: 0 < k < |[ev] + evs| ==> ([ev] + evs)[k] == evs[k - 1];
    assert forall k :: i < k < |rules| ==> rules[i := rules[i].(id := id)][k] == rules[k];
  }

  lemma SubmitEndsPrepend(rules: seq<RuleModel>, i: nat, ev: Event, id: string, run: Run<Result<seq<RuleModel>>>)
    requires i < |rules|
    requires RuleIdOf(ev.reply) == Ok(id)
    requires SubmitEnds(rules[i := rules[i].(id := id)], i + 1, run)
    ensures SubmitEnds(rules, i, Extend([ev], run))
  {
    var next := rules[i := rules[i].(id := id)];
    var evs := [ev] + run.events;
    if run.value.Ok? {
      assert forall k :: 0 < k < |evs| ==> evs[k] == run.events[k - 1];
      assert forall k :: i < k < |rules| ==> next[k] == rules[k];
    } else {
      assert Last(evs) == Last(run.events);
    }
  }

  lemma SubmittedPrepend(node: string, rules: seq<RuleModel>, i: nat, ev: Event, id: string, run: Run<Result<seq<RuleModel>>>)
    requires i < |rules|
    requires ev.call == NewRule(RuleRequestOf(node, rules[i])) && RuleIdOf(ev.reply) == Ok(id)
    requires Submitted(node, rules[i := rules[i].(id := id)], i + 1, run)
    ensures Submitted(node, rules, i, Extend([ev], run))
  {
    SubmittedInOrderPrepend(node, rules, i, ev, id, run.events);
    SubmitEndsPrepend(rules, i, ev, id, run);
  }

  lemma {:induction false} SubmitShape(node: string, rules: seq<RuleModel>, i: nat, s: seq<Reply>)
    requires i <= |rules|
    ensures Submitted(node, rules, i, SubmitFrom(node, rules, i, s))
    decreases |rules| - i
  {
    if i < |rules| {
      var ev := Step(NewRule(RuleRequestOf(node, rules[i])), s);
      var id := RuleIdOf(ev.reply);
      if id.Ok? {
        var next := rules[i := rules[i].(id := id.value)];
        SubmitShape(node, next, i + 1, Tail(s));
        SubmittedPrepend(node, rules, i, ev, id.value, SubmitFrom(node, next, i + 1, Tail(s)));
      }
    }
  }

  /**
   * The list resource's `Create` submits the planned rules in list order,
   * one each, and stops at the first error, leaving the rules submitted
   * before it on the cluster but out of the state; a written state holds the
   * planned rules in the same order, each carrying the id returned for it.
   */
  lemma RulesCreateShape(data: NodeRules, s: seq<Reply>)
    ensures var run := RulesCreateRun(data, s);
      run.value.Response? &&
      |run.events| <= |data.rules| &&
      (forall k :: 0 <= k < |run.events| ==> run.events[k].call == NewRule(RuleRequestOf(data.node, data.rules[k]))) &&
      (run.value.state.Written? ==>
        var out := run.value.state.model;
        out.node == data.node && |out.rules| == |data.rules| == |run.events| &&
        forall k :: 0 <= k < |data.rules| ==>
          RuleIdOf(run.events[k].reply) == Ok(out.rules[k].id) &&
          out.rules[k] == data.rules[k].(id := out.rules[k].id)) &&
      (run.value.state.Unchanged? ==>
        run.events != [] && RuleIdOf(Last(run.events).reply).Err? &&
        forall k :: 0 <= k < |run.events| - 1 ==> RuleIdOf(run.events[k].reply).Ok?)
  {
    SubmitShape(data.node, data.rules, 0, s);
  }

  /**
   * What `RefreshFrom(node, rules, i, _)` did in `run`: it fetched the rules
   * from position `i` on by their ids, in order, and stopped at the first
   * failed fetch or too short comment; on success it holds as many rules in
   * the same order, each from `i` on overwritten from the rule fetched for
   * it, with the comment the single rule's `Read` keeps.
   */
  predicate Refreshes(node: string, rules: seq<RuleModel>, i: nat, run: Run<Refreshed>)
    requires i <= |rules|
  {
    FetchedInOrder(node, rules, i, run.events) && RefreshEnds(rules, i, run)
  }

  /** The fetches of `evs`: by the ids from position `i` on, in order, all but the last one answered. */
  predicate FetchedInOrder(node: string, rules: seq<RuleModel>, i: nat, evs: seq<Event>)
    requires i <= |rules|
  {
    |evs| <= |rules| - i &&
    (forall k :: 0 <= k < |evs| ==> evs[k].call == GetRule(node, rules[i + k].id)) &&
    (forall k :: 0 <= k < |evs| - 1 ==> RuleOf(evs[k].reply).Ok?)
  }

  /** `rule` overwritten from the rule `ev` fetched, with the comment the single rule's `Read` keeps. */
  function Refetched(rule: RuleModel, ev: Event): RuleModel
  {
    var remote := RuleOf(ev.reply);
    if remote.Ok? then FromRemote(rule, remote.value, StripComment(remote.value.comment)) else rule
  }

  /** How the refresh loop from position `i` ended. */
  predicate RefreshEnds(rules: seq<RuleModel>, i: nat, run: Run<Refreshed>)
    requires i <= |rules|
  {
    var evs := run.events;
    (run.value.ReadFailed? ==> evs != [] && RuleOf(Last(evs).reply) == Err(run.value.msg)) &&
    (run.value.SlicePanic? ==>
      evs != [] && RuleOf(Last(evs).reply).Ok? && SliceComment(RuleOf(Last(evs).reply).value.comment) == None) &&
    (run.value.Refreshed? ==>
      |evs| == |rules| - i && |run.value.rules| == |rules| &&
      (forall k :: 0 <= k < i ==> run.value.rules[k] == rules[k]) &&
      (forall j :: 0 <= j < |evs| ==> RefetchedAt(rules, i, evs, run.value.rules, j)))
  }

  /** Rule `i + j` of `out` is rule `i + j` of `rules` overwritten from the answered fetch `evs[j]`. */
  predicate RefetchedAt(rules: seq<RuleModel>, i: nat, evs: seq<Event>, out: seq<RuleModel>, j: int)
  {
    0 <= j < |evs| && i + j < |rules| && i + j < |out| &&
    RuleOf(evs[j].reply).Ok? && out[i + j] == Refetched(rules[i + j], evs[j])
  }

  lemma FetchedPrepend(node: string, rules: seq<RuleModel>, i: nat, ev: Event, rule: RuleModel, evs: seq<Event>)
    requires i < |rules|
    requires ev.call == GetRule(node, rules[i].id) && RuleOf(ev.reply).Ok?
    requires FetchedInOrder(node, rules[i := rule], i + 1, evs)
    ensures FetchedInOrder(node, rules, i, [ev] + evs)
  {
    assert forall k :: 0 < k < |[ev] + evs| ==> ([ev] + evs)[k] == evs[k - 1];
    assert forall k :: i < k < |rules| ==> rules[i := rule][k] == rules[k];
  }

  lemma RefreshEndsPrepend(rules: seq<RuleModel>, i: nat, ev: Event, remote: RemoteRule, comment: string, run: Run<Refreshed>)
    requires i < |rules|
    requires RuleOf(ev.reply) == Ok(remote)
    requires SliceComment(remote.comment) == Some(comment)
    requires RefreshEnds(rules[i := FromRemote(rules[i], remote, comment)], i + 1, run)
    requires |run.events| <= |rules| - (i + 1)
    ensures RefreshEnds(rules, i, Extend([ev], run))
  {
    if run.value.Refreshed? {
      RefreshedPrepend(rules, i, ev, remote, comment, run);
    } else {
      assert run.events != [] ==> Last([ev] + run.events) == Last(run.events);
    }
  }

  lemma RefreshedPrepend(rules: seq<RuleModel>, i: nat, ev: Event, remote: RemoteRule, comment: string, run: Run<Refreshed>)
    requires i < |rules|
    requires RuleOf(ev.reply) == Ok(remote)
    requires SliceComment(remote.comment) == Some(comment)
    requires run.value.Refreshed?
    requires RefreshEnds(rules[i := FromRemote(rules[i], remote, comment)], i + 1, run)
    ensures RefreshEnds(rules, i, Extend([ev], run))
  {
    var next := rules[i := FromRemote(rules[i], remote, comment)];
    var evs := [ev] + run.events;
    var out := run.value.rules;
    forall k | 0 <= k < i
      ensures out[k] == rules[k]
    {
      assert out[k] == next[k];
    }
    SliceAgrees(remote.comment);
    forall j | 0 <= j < |evs|
      ensures RefetchedAt(rules, i, evs, out, j)
    {
      if j == 0 {
        assert evs[0] == ev && out[i] == next[i];
      } else {
        RefetchedShift(rules, i, ev, FromRemote(rules[i], remote, comment), run.events, out, j);
      }
    }
  }

  lemma RefetchedShift(rules: seq<RuleModel>, i: nat, ev: Event, rule: RuleModel, evs: seq<Event>, out: seq<RuleModel>, j: int)
    requires i < |rules| && 0 < j
    requires RefetchedAt(rules[i := rule], i + 1, evs, out, j - 1)
    ensures RefetchedAt(rules, i, [ev] + evs, out, j)
  {
    assert ([ev] + evs)[j] == evs[j - 1];
    assert rules[i := rule][i + j] == rules[i + j];
  }

  lemma RefreshesPrepend(node: string, rules: seq<RuleModel>, i: nat, ev: Event, remote: RemoteRule, comment: string, run: Run<Refreshed>)
    requires i < |rules|
    requires ev.call == GetRule(node, rules[i].id) && RuleOf(ev.reply) == Ok(remote)
    requires SliceComment(remote.comment) == Some(comment)
    requires Refreshes(node, rules[i := FromRemote(rules[i], remote, comment)], i + 1, run)
    ensures Refreshes(node, rules, i, Extend([ev], run))
  {
    FetchedPrepend(node, rules, i, ev, FromRemote(rules[i], remote, comment), run.events);
    RefreshEndsPrepend(rules, i, ev, remote, comment, run);
  }

  lemma {:induction false} RefreshShape(node: string, rules: seq<RuleModel>, i: nat, s: seq<Reply>)
    requires i <= |rules|
    ensures Refreshes(node, rules, i, RefreshFrom(node, rules, i, s))
    decreases |rules| - i
  {
    if i == |rules| {
      RefreshDone(node, rules, s);
    } else {
      var ev := Step(GetRule(node, rules[i].id), s);
      var remote := RuleOf(ev.reply);
      if remote.Ok? && SliceComment(remote.value.comment).Some? {
        var comment := SliceComment(remote.value.comment).value;
        var next := rules[i := FromRemote(rules[i], remote.value, comment)];
        RefreshShape(node, next, i + 1, Tail(s));
        RefreshesPrepend(node, rules, i, ev, remote.value, comment, RefreshFrom(node, next, i + 1, Tail(s)));
      } else {
        RefreshStops(node, rules, i, s);
      }
    }
  }

  lemma RefreshDone(node: string, rules: seq<RuleModel>, s: seq<Reply>)
    ensures Refreshes(node, rules, |rules|, RefreshFrom(node, rules, |rules|, s))
  {
  }

  /** A fetch that fails, or a comment too short to slice, ends the loop at that rule. */
  lemma RefreshStops(node: string, rules: seq<RuleModel>, i: nat, s: seq<Reply>)
    requires i < |rules|
    requires var remote := RuleOf(Step(GetRule(node, rules[i].id), s).reply);
      remote.Err? || SliceComment(remote.value.comment).None?
    ensures Refreshes(node, rules, i, RefreshFrom(node, rules, i, s))
  {
    var ev := Step(GetRule(node, rules[i].id), s);
    assert RefreshFrom(node, rules, i, s).events == [ev];
  }

  /**
   * The list resource's `Read` fetches every rule by the id held for it, in
   * order; a written state keeps the list's length and order, overwrites
   * each rule from the one fetched for it (enable exactly for a remote 1,
   * the position kept), and a comment too short for the slice panics.
   */
  lemma RulesReadShape(data: NodeRules, s: seq<Reply>)
    ensures var run := RulesReadRun(data, s);
      |run.events| <= |data.rules| &&
      (forall k :: 0 <= k < |run.events| ==> run.events[k].call == GetRule(data.node, data.rules[k].id)) &&
      (run.value.Response? && run.value.state.Written? ==>
        var out := run.value.state.model;
        out.node == data.node && |out.rules| == |data.rules| == |run.events| &&
        forall k :: 0 <= k < |data.rules| ==>
          var remote := RuleOf(run.events[k].reply);
          remote.Ok? && out.rules[k].id == remote.value.id && out.rules[k].pos == data.rules[k].pos &&
          (out.rules[k].enable <==> remote.value.enable == 1) &&
          out.rules[k] == FromRemote(data.rules[k], remote.value, StripComment(remote.value.comment))) &&
      (run.value.Panic? ==>
        run.events != [] && RuleOf(Last(run.events).reply).Ok? &&
        |RuleOf(Last(run.events).reply).value.comment| < IndexRune(RuleOf(Last(run.events).reply).value.comment, ']') + 2)
  {
    RefreshShape(data.node, data.rules, 0, s);
    var r := RefreshFrom(data.node, data.rules, 0, s);
    if r.value.Refreshed? {
      forall k | 0 <= k < |data.rules|
        ensures RuleOf(r.events[k].reply).Ok? &&
          r.value.rules[k] == FromRemote(data.rules[k], RuleOf(r.events[k].reply).value, StripComment(RuleOf(r.events[k].reply).value.comment))
      {
        assert RefetchedAt(data.rules, 0, r.events, r.value.rules, k);
      }
    }
  }

  /**
   * What `DeleteFrom(node, rules, i, _)` did in `run`: it deleted the rules
   * from position `i` on by their ids, in order, and stopped at the first
   * failed delete; it passes exactly when it deleted all of them.
   */
  predicate DeletesInOrder(node: string, rules: seq<RuleModel>, i: nat, run: Run<Outcome>)
    requires i <= |rules|
  {
    var evs := run.events;
    |evs| <= |rules| - i &&
    (forall k :: 0 <= k < |evs| ==> evs[k].call == DeleteRule(node, rules[i + k].id)) &&
    (forall k :: 0 <= k < |evs| - 1 ==> AckOf(evs[k].reply).Pass?) &&
    (run.value.Fail? ==> evs != [] && AckOf(Last(evs).reply) == run.value) &&
    (run.value.Pass? ==> |evs| == |rules| - i && forall k :: 0 <= k < |evs| ==> AckOf(evs[k].reply).Pass?)
  }

  lemma DeletesPrepend(node: string, rules: seq<RuleModel>, i: nat, ev: Event, run: Run<Outcome>)
    requires i < |rules|
    requires ev.call == DeleteRule(node, rules[i].id) && AckOf(ev.reply).Pass?
    requires DeletesInOrder(node, rules, i + 1, run)
    ensures DeletesInOrder(node, rules, i, Extend([ev], run))
  {
    var evs := [ev] + run.events;
    assert forall k :: 0 < k < |evs| ==> evs[k] == run.events[k - 1];
    if run.value.Fail? {
      assert Last(evs) == Last(run.events);
    }
  }

  lemma {:induction false} DeleteShape(node: string, rules: seq<RuleModel>, i: nat, s: seq<Reply>)
    requires i <= |rules|
    ensures DeletesInOrder(node, rules, i, DeleteFrom(node, rules, i, s))
    decreases |rules| - i
  {
    if i < |rules| {
      var ev := Step(DeleteRule(node, rules[i].id), s);
      if AckOf(ev.reply).Pass? {
        DeleteShape(node, rules, i + 1, Tail(s));
        DeletesPrepend(node, rules, i, ev, DeleteFrom(node, rules, i + 1, Tail(s)));
      }
    }
  }

  /**
   * The list resource's `Delete` deletes the rules in order and stops at the
   * first error; the resource leaves the state exactly when every rule was
   * deleted.
   */
  lemma RulesDeleteShape(data: NodeRules, s: seq<Reply>)
    ensures var run := RulesDeleteRun(data, s);
      run.value.Response? &&
      |run.events| <= |data.rules| &&
      (forall k :: 0 <= k < |run.events| ==> run.events[k].call == DeleteRule(data.node, data.rules[k].id)) &&
      (run.value.state.Removed? <==>
        |run.events| == |data.rules| && forall k :: 0 <= k < |run.events| ==> AckOf(run.events[k].reply).Pass?) &&
      (run.value.state.Unchanged? ==> run.events != [] && AckOf(Last(run.events).reply).Fail?)
  {
    DeleteShape(data.node, data.rules, 0, s);
  }

  /** Every call of a delete loop is a rule deletion. */
  lemma DeleteKinds(node: string, rules: seq<RuleModel>, s: seq<Reply>)
    ensures var d := DeleteFrom(node, rules, 0, s);
      KindsWithin(d.events, {RuleDeletions}) && Count(d.events, RuleDeletions) <= |rules|
  {
    var d := DeleteFrom(node, rules, 0, s);
    DeleteShape(node, rules, 0, s);
    assert forall k :: 0 <= k < |d.events| ==> d.events[k].call.DeleteRule?;
    DeleteRuleKinds(d.events);
  }

  lemma DeleteRuleKinds(evs: seq<Event>)
    requires forall k :: 0 <= k < |evs| ==> evs[k].call.DeleteRule?
    ensures KindsWithin(evs, {RuleDeletions}) && Count(evs, RuleDeletions) == |evs|
  {
    CountAll(evs, RuleDeletions);
  }

  /** Every call of a submission loop is a rule creation. */
  lemma SubmitKinds(node: string, rules: seq<RuleModel>, s: seq<Reply>)
    ensures KindsWithin(SubmitFrom(node, rules, 0, s).events, {RuleCreations})
  {
    var c := SubmitFrom(node, rules, 0, s);
    SubmitShape(node, rules, 0, s);
    assert SubmittedInOrder(node, rules, 0, c.events);
    assert forall k :: 0 <= k < |c.events| ==> c.events[k].call.NewRule?;
    NewRuleKinds(c.events);
  }

  lemma NewRuleKinds(evs: seq<Event>)
    requires forall k :: 0 <= k < |evs| ==> evs[k].call.NewRule?
    ensures KindsWithin(evs, {RuleCreations})
  {
  }

  /**
   * The list resource's `Update` deletes the rules of the prior state in
   * order before it submits any planned rule: no deletion follows a
   * creation, and a creation happens only once every prior rule was deleted
   * and acknowledged.
   */
  lemma RulesUpdateShape(plan: NodeRules, state: NodeRules, s: seq<Reply>)
    ensures var run := RulesUpdateRun(plan, state, s);
      Count(run.events, RuleDeletions) <= |state.rules| &&
      (forall j, k :: 0 <= j < k < |run.events| && IsKind(run.events[j], RuleCreations) ==> !IsKind(run.events[k], RuleDeletions)) &&
      (Count(run.events, RuleCreations) > 0 ==>
        |state.rules| < |run.events| &&
        forall k :: 0 <= k < |state.rules| ==>
          run.events[k].call == DeleteRule(plan.node, state.rules[k].id) && AckOf(run.events[k].reply).Pass?)
  {
    var d := DeleteFrom(plan.node, state.rules, 0, s);
    DeleteShape(plan.node, state.rules, 0, s);
    DeleteKinds(plan.node, state.rules, s);
    KindsWithinCount(d.events, {RuleDeletions}, RuleCreations);
    if d.value.Pass? {
      var c := SubmitFrom(plan.node, plan.rules, 0, d.rest);
      var evs := d.events + c.events;
      SubmitKinds(plan.node, plan.rules, d.rest);
      KindsWithinCount(c.events, {RuleCreations}, RuleDeletions);
      CountConcat(d.events, c.events, RuleDeletions);
      CountConcat(d.events, c.events, RuleCreations);
      assert forall k :: 0 <= k < |d.events| ==> evs[k] == d.events[k];
      assert forall k :: |d.events| <= k < |evs| ==> evs[k] == c.events[k - |d.events|];
    }
  }

  // -------------------------------------------------------------------------
  // Properties of the rules data source.

  /** The enable values the data source accepts. */
  predicate ValidEnable(n: int)
  {
    n == 0 || n == 1
  }

  /**
   * The data source's decoding succeeds exactly when every remote enable
   * value is 0 or 1; it then keeps length and order, copies comment and
   * position unchanged and sets enable exactly for 1; otherwise it names the
   * first value that is neither.
   */
  lemma {:induction false} DecodeMeans(remote: seq<RemoteRule>)
    ensures DecodeRules(remote).Ok? <==> forall k :: 0 <= k < |remote| ==> ValidEnable(remote[k].enable)
    ensures DecodeRules(remote).Ok? ==>
      var out := DecodeRules(remote).value;
      |out| == |remote| &&
      forall k :: 0 <= k < |remote| ==>
        out[k] == Decoded(remote[k]) && out[k].comment == remote[k].comment &&
        out[k].pos == Some(remote[k].pos) && (out[k].enable <==> remote[k].enable == 1)
    ensures DecodeRules(remote).Err? ==>
      exists j :: 0 <= j < |remote| && !ValidEnable(remote[j].enable) &&
        (forall k :: 0 <= k < j ==> ValidEnable(remote[k].enable)) &&
        DecodeRules(remote).msg == EnableError(remote[j].enable)
    decreases |remote|
  {
    if remote != [] && ValidEnable(remote[0].enable) {
      var tail := remote[1..];
      DecodeMeans(tail);
      assert forall k :: 0 < k < |remote| ==> remote[k] == tail[k - 1];
      if DecodeRules(tail).Err? {
        var j :| 0 <= j < |tail| && !ValidEnable(tail[j].enable) &&
          (forall k :: 0 <= k < j ==> ValidEnable(tail[k].enable)) &&
          DecodeRules(tail).msg == EnableError(tail[j].enable);
        assert remote[j + 1] == tail[j];
      }
    } else if remote != [] {
      assert !ValidEnable(remote[0].enable);
    }
  }

  /**
   * The data source's `Read` lists the node's rules once; a listing error
   * gives its diagnostic and no rules, and a written state holds exactly the
   * listed rules, decoded in order, which requires every enable value to be
   * 0 or 1.
   */
  lemma RulesSourceShape(data: NodeRules, s: seq<Reply>)
    ensures var run := RulesSourceReadRun(data, s);
      var listed := RulesOf(run.events[0].reply);
      |run.events| == 1 && run.events[0].call == GetRules(data.node) &&
      (listed.Err? ==> run.value == Response([Diag(READ_RULES_SUMMARY, listed.msg)], Unchanged)) &&
      (run.value.Response? && run.value.state.Written? <==>
        listed.Ok? && forall k :: 0 <= k < |listed.value| ==> ValidEnable(listed.value[k].enable)) &&
      (run.value.Response? && run.value.state.Written? ==>
        var out := run.value.state.model;
        out.node == data.node && |out.rules| == |listed.value| &&
        forall k :: 0 <= k < |out.rules| ==> out.rules[k] == Decoded(listed.value[k]))
  {
    var listed := RulesOf(Step(GetRules(data.node), s).reply);
    if listed.Ok? {
      DecodeMeans(listed.value);
    }
  }
}
