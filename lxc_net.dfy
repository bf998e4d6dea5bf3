/**
 * The pure and accumulating helpers of internal/provider/lxc: the network
 * model and its conversion to the cluster's `LxcNet`, the formatting of SSH
 * public keys, and the choice of a container id.
 */
module LxcNet {
  import opened Gateway

  /**
   * `LXCNetResourceModel`: a configured network device.  Every attribute but
   * the name is optional; `computedIP` is filled in by the provider.
   */
  datatype NetModel = NetModel(
    name: string, bridge: Option<string>, firewall: Option<bool>,
    gw: Option<string>, gw6: Option<string>, hwAddr: Option<string>,
    ip: Option<string>, ip6: Option<string>, linkDown: Option<bool>,
    mtu: Option<int>, rate: Option<int>, tag: Option<int>,
    computedIP: Option<string>)

  /** `LXCTplNetResourceModel`: the template's network device, without a computed address. */
  datatype TplNetModel = TplNetModel(
    name: string, bridge: Option<string>, firewall: Option<bool>,
    gw: Option<string>, gw6: Option<string>, hwAddr: Option<string>,
    ip: Option<string>, ip6: Option<string>, linkDown: Option<bool>,
    mtu: Option<int>, rate: Option<int>, tag: Option<int>)

  /** The value behind an optional attribute, or Go's zero value `zero` when it is absent. */
  function ValueOr<T>(o: Option<T>, zero: T): T
  {
    if o.Some? then o.value else zero
  }

  /** `field` carries the attribute `o`: its value when present, the zero value otherwise. */
  predicate Carries<T(==)>(field: T, o: Option<T>, zero: T)
  {
    (o.Some? && field == o.value) || (o.None? && field == zero)
  }

  /** Every attribute of `m` is carried over to `n`, with zero values for absent ones. */
  predicate Converts(m: NetModel, n: PveNet)
  {
    n.name == m.name &&
    Carries(n.bridge, m.bridge, "") && Carries(n.firewall, m.firewall, false) &&
    Carries(n.gw, m.gw, "") && Carries(n.gw6, m.gw6, "") &&
    Carries(n.hwAddr, m.hwAddr, "") && Carries(n.ip, m.ip, "") &&
    Carries(n.ip6, m.ip6, "") && Carries(n.linkDown, m.linkDown, false) &&
    Carries(n.mtu, m.mtu, 0) && Carries(n.rate, m.rate, 0) && Carries(n.tag, m.tag, 0)
  }

  /** `LXCNetResourceModel.ToPVELXCNet`. */
  function ToPVELXCNet(m: NetModel): (n: PveNet)
    ensures Converts(m, n)
  {
    PveNet(
      m.name, ValueOr(m.bridge, ""), ValueOr(m.firewall, false),
      ValueOr(m.ip, ""), ValueOr(m.ip6, ""), ValueOr(m.hwAddr, ""),
      ValueOr(m.gw, ""), ValueOr(m.gw6, ""), ValueOr(m.linkDown, false),
      ValueOr(m.mtu, 0), ValueOr(m.rate, 0), ValueOr(m.tag, 0))
  }

  /** `LXCTplNetResourceModel.ToPVELXCNet`. */
  function TplToPVELXCNet(m: TplNetModel): (n: PveNet)
    ensures Converts(FromTpl(m, None), n)
  {
    PveNet(
      m.name, ValueOr(m.bridge, ""), ValueOr(m.firewall, false),
      ValueOr(m.ip, ""), ValueOr(m.ip6, ""), ValueOr(m.hwAddr, ""),
      ValueOr(m.gw, ""), ValueOr(m.gw6, ""), ValueOr(m.linkDown, false),
      ValueOr(m.mtu, 0), ValueOr(m.rate, 0), ValueOr(m.tag, 0))
  }

  /** The container's network model holding the template's attributes. */
  function FromTpl(m: TplNetModel, computedIP: Option<string>): NetModel
  {
    NetModel(m.name, m.bridge, m.firewall, m.gw, m.gw6, m.hwAddr, m.ip, m.ip6,
             m.linkDown, m.mtu, m.rate, m.tag, computedIP)
  }

  /** A model with every attribute of `n` present. */
  function FromPVE(n: PveNet): NetModel
  {
    NetModel(n.name, Some(n.bridge), Some(n.firewall), Some(n.gw), Some(n.gw6),
             Some(n.hwAddr), Some(n.ip), Some(n.ip6), Some(n.linkDown),
             Some(n.mtu), Some(n.rate), Some(n.tag), None)
  }

  /** The conversion is determined by `Converts`: it is the only device `Converts` allows. */
  lemma ConversionUnique(m: NetModel, n: PveNet)
    ensures Converts(m, n) <==> n == ToPVELXCNet(m)
  {
  }

  /** Converting a model that has every attribute present gives back the device. */
  lemma ToPVEFromPVE(n: PveNet)
    ensures ToPVELXCNet(FromPVE(n)) == n
  {
  }

  /** The computed address never reaches the cluster. */
  lemma ComputedIPNotSent(m: NetModel, ip: Option<string>)
    ensures ToPVELXCNet(m.(computedIP := ip)) == ToPVELXCNet(m)
  {
  }

  /** The template's conversion agrees with the container's. */
  lemma TplConversionAgrees(m: TplNetModel, ip: Option<string>)
    ensures TplToPVELXCNet(m) == ToPVELXCNet(FromTpl(m, ip))
  {
  }

  /** The devices sent for the configured networks: each one converted, in order. */
  function PveNets(nets: seq<NetModel>): seq<PveNet>
  {
    seq(|nets|, i requires 0 <= i < |nets| => ToPVELXCNet(nets[i]))
  }

  /** `newPVELXCNets`: convert every configured network, in order. */
  method NewPVELXCNets(nets: seq<NetModel>) returns (out: seq<PveNet>)
    ensures |out| == |nets|
    ensures forall i :: 0 <= i < |nets| ==> Converts(nets[i], out[i])
    ensures out == PveNets(nets)
  {
    out := [];
    for i := 0 to |nets|
      invariant |out| == i
      invariant forall j :: 0 <= j < i ==> Converts(nets[j], out[j])
    {
      out := out + [ToPVELXCNet(nets[i])];
    }
    forall i | 0 <= i < |nets|
      ensures out[i] == PveNets(nets)[i]
    {
      ConversionUnique(nets[i], out[i]);
    }
  }

  // -------------------------------------------------------------------------
  // SSH public keys.

  /**
   * The string `formatSSHPublicKey` builds: every key preceded by a newline,
   * in order (so "" for no keys).
   */
  function JoinKeys(keys: seq<string>): string
  {
    if keys == [] then "" else JoinKeys(keys[..|keys| - 1]) + "\n" + keys[|keys| - 1]
  }

  /** `formatSSHPublicKey`. */
  method FormatSSHPublicKey(keys: seq<string>) returns (result: string)
    ensures keys == [] ==> result == ""
    ensures result == JoinKeys(keys)
  {
    if |keys| == 0 {
      return "";
    }
    result := "";
    for i := 0 to |keys|
      invariant result == JoinKeys(keys[..i])
    {
      assert keys[..i + 1][..i] == keys[..i];
      result := result + "\n" + keys[i];
    }
    assert keys[..|keys|] == keys;
  }

  /** The position of the last newline of `s`, or -1. */
  function LastNewline(s: string): (j: int)
    ensures -1 <= j < |s|
    ensures j >= 0 ==> s[j] == '\n'
    ensures forall k :: j < k < |s| ==> s[k] != '\n'
  {
    if s == [] then -1
    else if s[|s| - 1] == '\n' then |s| - 1
    else LastNewline(s[..|s| - 1])
  }

  /**
   * Reads the key list back from the formatted string: the text after each
   * newline.  `None` when the string is not empty and does not start with one.
   */
  function SplitKeys(s: string): Option<seq<string>>
    decreases |s|
  {
    if s == [] then Some([])
    else
      var j := LastNewline(s);
      if j < 0 then None
      else match SplitKeys(s[..j])
        case None => None
        case Some(ks) => Some(ks + [s[j + 1..]])
  }

  predicate OneLine(key: string)
  {
    forall k :: 0 <= k < |key| ==> key[k] != '\n'
  }

  lemma {:induction false} LastNewlineBefore(p: string, key: string)
    requires OneLine(key)
    ensures LastNewline(p + "\n" + key) == |p|
    decreases |key|
  {
    var s := p + "\n" + key;
    if key != [] {
      var init := key[..|key| - 1];
      assert s[|s| - 1] == key[|key| - 1];
      assert s[..|s| - 1] == p + "\n" + init;
      LastNewlineBefore(p, init);
    }
  }

  /** Keys without newlines survive formatting and splitting. */
  lemma {:induction false} SplitJoin(keys: seq<string>)
    requires forall i :: 0 <= i < |keys| ==> OneLine(keys[i])
    ensures SplitKeys(JoinKeys(keys)) == Some(keys)
  {
    if keys != [] {
      var init := keys[..|keys| - 1];
      var s := JoinKeys(keys);
      LastNewlineBefore(JoinKeys(init), keys[|keys| - 1]);
      assert s[..|JoinKeys(init)|] == JoinKeys(init);
      assert s[|JoinKeys(init)| + 1..] == keys[|keys| - 1];
      SplitJoin(init);
      assert init + [keys[|keys| - 1]] == keys;
    }
  }

  /** Whatever splits into keys is their formatting. */
  lemma {:induction false} JoinSplit(s: string)
    requires SplitKeys(s).Some?
    ensures JoinKeys(SplitKeys(s).value) == s
    decreases |s|
  {
    if s != [] {
      var j := LastNewline(s);
      var ks := SplitKeys(s[..j]).value;
      JoinSplit(s[..j]);
      assert (ks + [s[j + 1..]])[..|ks|] == ks;
      assert s == s[..j] + "\n" + s[j + 1..];
    }
  }

  // -------------------------------------------------------------------------
  // Container ids.

  /**
   * `getVMID`: the configured id, or one allocated by the cluster when the
   * attribute is null or unknown (`None`).
   */
  function GetVMIDRun(data: Option<int>, s: seq<Reply>): (run: Run<Result<int>>)
    ensures data.Some? ==> run == Run(Ok(data.value), s, [])
    ensures data.None? ==>
      run.events == [Step(GetRandomVMID, s)] && run.rest == Tail(s) && run.value == VMIDOf(Head(s))
  {
    if data.Some? then Run(Ok(data.value), s, [])
    else
      var ev := Step(GetRandomVMID, s);
      Run(VMIDOf(ev.reply), Tail(s), [ev])
  }

  method GetVMID(gw: Cluster, data: Option<int>) returns (vmid: Result<int>)
    modifies gw
    ensures var run := GetVMIDRun(data, old(gw.script));
      vmid == run.value && gw.script == run.rest && gw.trace == old(gw.trace) + run.events
  {
    if data.None? {
      var r := gw.Send(GetRandomVMID);
      return VMIDOf(r);
    }
    return Ok(data.value);
  }

  /** A configured id is used as is; otherwise exactly one id is allocated. */
  lemma GetVMIDAllocates(data: Option<int>, s: seq<Reply>)
    ensures var run := GetVMIDRun(data, s);
      Count(run.events, OtherCalls) == (if data.None? then 1 else 0) &&
      (data.Some? ==> run.value == Ok(data.value)) &&
      (data.None? && Head(s).NewVMID? ==> run.value == Ok(Head(s).vmid))
  {
    var run := GetVMIDRun(data, s);
    if data.None? {
      CountOne(run.events[0], OtherCalls);
    }
  }
}
