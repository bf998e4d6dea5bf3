/**
 * The Proxmox VE client (`*pve.PVE`) as seen by the provider.
 *
 * Every remote operation the provider issues is a `Call`; the answer it
 * receives is a `Reply`.  The cluster is modelled as a scripted gateway: a
 * `Cluster` object holds the sequence of replies it will give, hands out the
 * next one for every call, and records each call with its reply in a ghost
 * trace.  When the script is exhausted every further call fails, so every
 * polling loop of the provider terminates in the model.
 */
module Gateway {

  datatype Option<+T> = None | Some(value: T)

  datatype Result<+T> = Ok(value: T) | Err(msg: string)

  /** Go's `error` value: nil (`Pass`) or an error carrying its message. */
  datatype Outcome = Pass | Fail(msg: string)

  const STATUS_RUNNING := "running"
  const STATUS_STOPPED := "stopped"

  /** The message of a call made after the script ran out. */
  const NO_REPLY := "no reply from the cluster"
  /** The message of a reply whose shape does not fit the call. */
  const UNEXPECTED_REPLY := "unexpected reply from the cluster"

  /** One network interface as reported by a running container. */
  datatype Iface = Iface(name: string, ipv4: string)

  /** The record of an asynchronous command execution. */
  datatype ExecRecord = ExecRecord(status: string, exitCode: int, output: string, error: Option<string>)

  /** One entry of a node's container listing. */
  datatype LxcEntry = LxcEntry(vmid: int, status: string)

  /** `pve.LxcNet`: a network device as sent to the cluster. */
  datatype PveNet = PveNet(
    name: string, bridge: string, firewall: bool, ip: string, ip6: string,
    hwAddr: string, gw: string, gw6: string, linkDown: bool,
    mtu: int, rate: int, tag: int)

  /** `pve.LXCFeatures`: unset flags stay unset. */
  datatype Features = Features(forceRWSys: Option<bool>, fuse: Option<bool>, keyCtl: Option<bool>, nesting: Option<bool>)

  /**
   * `pve.CreateLxcRequest`, reduced to the fields the provider fills in.  Its
   * plain fields hold Go's zero value when the configuration leaves them unset.
   */
  datatype CreateRequest = CreateRequest(
    node: string, osTemplate: string, vmid: int, hostname: string,
    password: string, sshPublicKeys: string, unprivileged: bool,
    onBoot: bool, nameserver: string, features: Features,
    nets: seq<PveNet>)

  /** `pve.CloneLxcRequest`: unset options keep Go's zero value. */
  datatype CloneRequest = CloneRequest(
    node: string, vmid: int, newid: int, bwlimit: int,
    description: string, hostname: string, pool: string, snapname: string)

  /** `pve.CreateNodeFirewallRuleRequest`: a firewall rule as submitted (no position). */
  datatype RuleRequest = RuleRequest(
    node: string, action: string, ruleType: string, comment: string,
    dest: string, dport: string, enable: int, icmpType: string, iface: string,
    log: string, macro: string, proto: string, source: string, sport: string)

  /** A firewall rule as the cluster reports it. */
  datatype RemoteRule = RemoteRule(
    id: string, action: string, comment: string, dest: string, dport: string,
    enable: int, icmpType: string, iface: string, ipVersion: int, log: string,
    macro: string, pos: int, proto: string, source: string, sport: string,
    ruleType: string)

  /** Every remote operation the provider issues. */
  datatype Call =
    | GetRandomVMID
    | IsVMIDAvailable(vmid: int)
    | Create(req: CreateRequest)
    | Clone(creq: CloneRequest)
    | CreateTemplate(node: string, vmid: int)
    | UpdateNets(node: string, vmid: int, nets: seq<PveNet>)
    | GetByID(node: string, vmid: int)
    | GetAll(node: string)
    | GetStatus(node: string, vmid: int)
    | Start(node: string, vmid: int)
    | Stop(node: string, vmid: int, overrule: bool)
    | Delete(node: string, vmid: int)
    | GetInterfaces(node: string, vmid: int)
    | CloneNetIPs(node: string, vmid: int)
    | ExecAsync(vmid: int, shell: string, cmd: string)
    | GetCMDResult(execId: string)
    | Exec(vmid: int, shell: string, cmd: string)
    | NewRule(rreq: RuleRequest)
    | GetRule(node: string, id: string)
    | DeleteRule(node: string, id: string)
    | GetRules(node: string)

  /** Every answer the cluster can give. */
  datatype Reply =
    | Failure(msg: string)
    | Ack
    | Created(newVMID: int)
    | NewVMID(vmid: int)
    | Available(free: bool)
    | StatusIs(status: string)
    | Record(entry: Option<LxcEntry>)
    | Listing(entries: seq<LxcEntry>)
    | Interfaces(ifaces: seq<Iface>)
    | Started(execId: string)
    | CmdResult(rec: ExecRecord)
    | ExecDone(output: string, exitCode: int, error: Option<string>)
    | RuleId(id: string)
    | RuleIs(rule: RemoteRule)
    | RuleList(rules: seq<RemoteRule>)

  datatype Event = Event(call: Call, reply: Reply)

  /** The reply the next call receives. */
  function Head(script: seq<Reply>): Reply
  {
    if script == [] then Failure(NO_REPLY) else script[0]
  }

  /** The script left after the next call. */
  function Tail(script: seq<Reply>): (rest: seq<Reply>)
    ensures script != [] ==> |rest| == |script| - 1
    ensures script == [] ==> rest == []
  {
    if script == [] then [] else script[1..]
  }

  /** The event the next call `c` produces. */
  function Step(c: Call, script: seq<Reply>): Event
  {
    Event(c, Head(script))
  }

  /**
   * What a run of provider code against a script produces: the value it
   * returns, the script left over and the events it added to the trace.
   */
  datatype Run<+T> = Run(value: T, rest: seq<Reply>, events: seq<Event>)

  /** `r` preceded by the events `pre`. */
  function Extend<T>(pre: seq<Event>, r: Run<T>): Run<T>
  {
    Run(r.value, r.rest, pre + r.events)
  }

  lemma AppendAssoc<T>(a: seq<T>, b: seq<T>, c: seq<T>)
    ensures (a + b) + c == a + (b + c)
  {
  }

  lemma ExtendTwice<T>(a: seq<Event>, b: seq<Event>, r: Run<T>)
    ensures Extend(a, Extend(b, r)) == Extend(a + b, r)
  {
    AppendAssoc(a, b, r.events);
  }

  // Decoding of replies, one function per kind of call.  A `Failure` gives
  // its message; a reply of the wrong shape gives UNEXPECTED_REPLY.

  function AckOf(r: Reply): Outcome
  {
    match r
    case Failure(m) => Fail(m)
    case Ack => Pass
    case _ => Fail(UNEXPECTED_REPLY)
  }

  function CreatedOf(r: Reply): Result<int>
  {
    match r
    case Failure(m) => Err(m)
    case Created(id) => Ok(id)
    case _ => Err(UNEXPECTED_REPLY)
  }

  function VMIDOf(r: Reply): Result<int>
  {
    match r
    case Failure(m) => Err(m)
    case NewVMID(id) => Ok(id)
    case _ => Err(UNEXPECTED_REPLY)
  }

  function AvailableOf(r: Reply): Result<bool>
  {
    match r
    case Failure(m) => Err(m)
    case Available(b) => Ok(b)
    case _ => Err(UNEXPECTED_REPLY)
  }

  function StatusOf(r: Reply): Result<string>
  {
    match r
    case Failure(m) => Err(m)
    case StatusIs(s) => Ok(s)
    case _ => Err(UNEXPECTED_REPLY)
  }

  function RecordOf(r: Reply): Result<Option<LxcEntry>>
  {
    match r
    case Failure(m) => Err(m)
    case Record(e) => Ok(e)
    case _ => Err(UNEXPECTED_REPLY)
  }

  function ListingOf(r: Reply): Result<seq<LxcEntry>>
  {
    match r
    case Failure(m) => Err(m)
    case Listing(es) => Ok(es)
    case _ => Err(UNEXPECTED_REPLY)
  }

  function IfacesOf(r: Reply): Result<seq<Iface>>
  {
    match r
    case Failure(m) => Err(m)
    case Interfaces(fs) => Ok(fs)
    case _ => Err(UNEXPECTED_REPLY)
  }

  function ExecIdOf(r: Reply): Result<string>
  {
    match r
    case Failure(m) => Err(m)
    case Started(id) => Ok(id)
    case _ => Err(UNEXPECTED_REPLY)
  }

  function CmdResultOf(r: Reply): Result<ExecRecord>
  {
    match r
    case Failure(m) => Err(m)
    case CmdResult(rec) => Ok(rec)
    case _ => Err(UNEXPECTED_REPLY)
  }

  function RuleIdOf(r: Reply): Result<string>
  {
    match r
    case Failure(m) => Err(m)
    case RuleId(id) => Ok(id)
    case _ => Err(UNEXPECTED_REPLY)
  }

  function RuleOf(r: Reply): Result<RemoteRule>
  {
    match r
    case Failure(m) => Err(m)
    case RuleIs(rule) => Ok(rule)
    case _ => Err(UNEXPECTED_REPLY)
  }

  function RulesOf(r: Reply): Result<seq<RemoteRule>>
  {
    match r
    case Failure(m) => Err(m)
    case RuleList(rules) => Ok(rules)
    case _ => Err(UNEXPECTED_REPLY)
  }

  function Last(evs: seq<Event>): Event
    requires evs != []
  {
    evs[|evs| - 1]
  }

  // Counting calls in a trace.

  /** Kinds of events worth counting. */
  datatype Kind =
    | Transitions   // Start or Stop
    | Deletes       // Delete of a container
    | StatusPolls   // GetStatus
    | Submissions   // ExecAsync
    | SettledPolls  // GetCMDResult whose reply is not a "RUNNING" record
    | RunningPolls  // GetCMDResult answered by a "RUNNING" record
    | IfaceQueries  // GetInterfaces, or the linked clone's address query
    | Creations     // Create or Clone
    | Conversions   // CreateTemplate
    | RuleCreations // NewRule
    | RuleDeletions // DeleteRule
    | OtherCalls

  const CMD_RUNNING := "RUNNING"
  const CMD_FAILED := "FAILED"
  const CMD_SUCCEEDED := "SUCCEEDED"

  function KindOf(ev: Event): Kind
  {
    match ev.call
    case Start(_, _) => Transitions
    case Stop(_, _, _) => Transitions
    case Delete(_, _) => Deletes
    case GetStatus(_, _) => StatusPolls
    case ExecAsync(_, _, _) => Submissions
    case GetCMDResult(_) =>
      if ev.reply.CmdResult? && ev.reply.rec.status == CMD_RUNNING then RunningPolls else SettledPolls
    case GetInterfaces(_, _) => IfaceQueries
    case CloneNetIPs(_, _) => IfaceQueries
    case Create(_) => Creations
    case Clone(_) => Creations
    case CreateTemplate(_, _) => Conversions
    case NewRule(_) => RuleCreations
    case DeleteRule(_, _) => RuleDeletions
    case _ => OtherCalls
  }

  predicate IsKind(ev: Event, k: Kind)
  {
    KindOf(ev) == k
  }

  /** The kind of every event's call, in order. */
  function Kinds(evs: seq<Event>): (ks: seq<Kind>)
    ensures |ks| == |evs|
  {
    seq(|evs|, i requires 0 <= i < |evs| => KindOf(evs[i]))
  }

  /** The number of events of `evs` whose call is of kind `k`. */
  function Count(evs: seq<Event>, k: Kind): nat
  {
    multiset(Kinds(evs))[k]
  }

  lemma CountConcat(a: seq<Event>, b: seq<Event>, k: Kind)
    ensures Count(a + b, k) == Count(a, k) + Count(b, k)
  {
    assert Kinds(a + b) == Kinds(a) + Kinds(b);
  }

  lemma CountOne(ev: Event, k: Kind)
    ensures Count([ev], k) == if IsKind(ev, k) then 1 else 0
  {
    assert Kinds([ev]) == [KindOf(ev)];
  }

  lemma CountTwo(ev1: Event, ev2: Event, k: Kind)
    ensures Count([ev1, ev2], k) == (if IsKind(ev1, k) then 1 else 0) + (if IsKind(ev2, k) then 1 else 0)
  {
    assert Kinds([ev1, ev2]) == [KindOf(ev1), KindOf(ev2)];
  }

  lemma CountNone(evs: seq<Event>, k: Kind)
    requires forall i :: 0 <= i < |evs| ==> !IsKind(evs[i], k)
    ensures Count(evs, k) == 0
  {
    assert k !in Kinds(evs);
  }

  lemma CountAll(evs: seq<Event>, k: Kind)
    requires forall i :: 0 <= i < |evs| ==> IsKind(evs[i], k)
    ensures Count(evs, k) == |evs|
  {
    assert Kinds(evs) == seq(|evs|, i => k);
    assert multiset(Kinds(evs))[k] == |evs| by {
      CountAllKinds(|evs|, k);
    }
  }

  lemma {:induction false} CountAllKinds(n: nat, k: Kind)
    ensures multiset(seq(n, i => k))[k] == n
  {
    if n > 0 {
      assert seq(n, i => k) == seq(n - 1, i => k) + [k];
      CountAllKinds(n - 1, k);
    }
  }

  lemma CountZero(evs: seq<Event>, k: Kind)
    requires Count(evs, k) == 0
    ensures forall i :: 0 <= i < |evs| ==> !IsKind(evs[i], k)
  {
    forall i | 0 <= i < |evs|
      ensures !IsKind(evs[i], k)
    {
      assert Kinds(evs)[i] in multiset(Kinds(evs));
    }
  }

  /** Every event of `evs` is of one of the kinds `ks`. */
  predicate KindsWithin(evs: seq<Event>, ks: set<Kind>)
  {
    forall i :: 0 <= i < |evs| ==> KindOf(evs[i]) in ks
  }

  lemma KindsWithinConcat(a: seq<Event>, b: seq<Event>, ks: set<Kind>)
    requires KindsWithin(a, ks) && KindsWithin(b, ks)
    ensures KindsWithin(a + b, ks)
  {
    assert forall i :: |a| <= i < |a + b| ==> (a + b)[i] == b[i - |a|];
  }

  lemma KindsWithinWider(evs: seq<Event>, ks: set<Kind>, wider: set<Kind>)
    requires KindsWithin(evs, ks) && ks <= wider
    ensures KindsWithin(evs, wider)
  {
  }

  /** A kind outside `ks` does not occur. */
  lemma KindsWithinCount(evs: seq<Event>, ks: set<Kind>, k: Kind)
    requires KindsWithin(evs, ks) && k !in ks
    ensures Count(evs, k) == 0
  {
    CountNone(evs, k);
  }

  /** The scripted cluster. */
  class Cluster {
    /** The replies still to be given, in order. */
    var script: seq<Reply>
    /** Every call issued so far, with the reply it received. */
    ghost var trace: seq<Event>

    constructor (script: seq<Reply>)
      ensures this.script == script && trace == []
    {
      this.script := script;
      trace := [];
    }

    /** Issue one call and receive the next scripted reply. */
    method Send(c: Call) returns (r: Reply)
      modifies this
      ensures r == Head(old(script))
      ensures script == Tail(old(script))
      ensures trace == old(trace) + [Event(c, r)]
    {
      if script == [] {
        r := Failure(NO_REPLY);
      } else {
        r := script[0];
        script := script[1..];
      }
      trace := trace + [Event(c, r)];
    }
  }
}
