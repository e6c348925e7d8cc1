/** The exact command lines traffic-runner issues: the seven provisioning
    commands per host (`set_up`), the namespace deletion (`clean_up`) and the
    smbclient invocation (`spawn_task`), and the plan of each phase. */
module Commands {
  import opened Format
  import opened Planner

  /** One subprocess invocation: the program and its argument vector. */
  datatype Cmd = Cmd(program: string, args: seq<string>)

  const IpTool: string := "/usr/sbin/ip"

  /** The seven commands that provision host `h`, in the order `set_up` awaits them. */
  function ProvisionCommands(config: LocalConfig, h: Host): (cmds: seq<Cmd>)
    ensures |cmds| == 7
  {
    var ns := NamespaceName(config.baseNamespace, h.index);
    var mv := InterfaceName(h.index);
    var cidr := Cidr(h.address, config.cidrSuffix);
    [ Cmd(IpTool, ["netns", "add", ns]),
      Cmd(IpTool, ["link", "add", mv, "link", config.interface, "type", "macvlan", "mode", "bridge"]),
      Cmd(IpTool, ["link", "set", mv, "netns", ns]),
      Cmd(IpTool, ["netns", "exec", ns, "ip", "addr", "add", cidr, "dev", mv]),
      Cmd(IpTool, ["netns", "exec", ns, "ip", "link", "set", mv, "up"]),
      Cmd(IpTool, ["netns", "exec", ns, "ip", "link", "set", "lo", "up"]),
      Cmd(IpTool, ["netns", "exec", ns, "ip", "route", "add", "default", "dev", mv]) ]
  }

  /** The command `clean_up` issues for host `h`: it deletes the namespace that
      the first provisioning command of the same host added. */
  function DeleteCommand(config: LocalConfig, h: Host): (c: Cmd)
    ensures c.program == IpTool && |c.args| == 3 && c.args[..2] == ["netns", "del"]
    ensures c.args[2] == NamespaceName(config.baseNamespace, h.index) == ProvisionCommands(config, h)[0].args[2]
  {
    Cmd(IpTool, ["netns", "del", NamespaceName(config.baseNamespace, h.index)])
  }

  /** The command the worker for host `h` runs in `spawn_task`: smbclient inside
      the namespace of `h`, fetching `filename` from the share
      `public` of the server. */
  function ClientCommand(config: LocalConfig, h: Host, smbAddress: Ipv4Addr, filename: string): (c: Cmd)
    ensures c.program == IpTool && |c.args| == 10 && c.args[..2] == ["netns", "exec"]
    ensures c.args[2] == NamespaceName(config.baseNamespace, h.index)
    ensures c.args[3] == "smbclient" && c.args[4..6] == ["-Uguest", "-N"] && c.args[8] == "-c"
    ensures c.args[6] == "//" + c.args[7] + "/public/" && c.args[7] == Dotted(smbAddress)
    ensures |c.args[9]| >= 4 && c.args[9][..4] == "get " && c.args[9][4..] == filename
  {
    Cmd(IpTool, ["netns", "exec", NamespaceName(config.baseNamespace, h.index), "smbclient",
                 "-Uguest", "-N", "//" + Dotted(smbAddress) + "/public/", Dotted(smbAddress),
                 "-c", "get " + filename])
  }

  /** The commands of several hosts, one block after another. */
  function Concat(blocks: seq<seq<Cmd>>): seq<Cmd> {
    if blocks == [] then [] else Concat(blocks[..|blocks| - 1]) + blocks[|blocks| - 1]
  }

  /** The provisioning commands of the hosts `hs`, host after host. */
  function ProvisionPlan(config: LocalConfig, hs: seq<Host>): seq<Cmd> {
    Concat(seq(|hs|, i requires 0 <= i < |hs| => ProvisionCommands(config, hs[i])))
  }

  /** Every command `set_up` would issue if no spawn failed. */
  function SetUpPlan(config: LocalConfig): seq<Cmd> {
    ProvisionPlan(config, Hosts(config))
  }

  /** Every command `clean_up` would issue if no spawn failed. */
  function CleanUpPlan(config: LocalConfig): seq<Cmd> {
    var hs := Hosts(config);
    seq(|hs|, i requires 0 <= i < |hs| => DeleteCommand(config, hs[i]))
  }

  /** The commands of the `spawn_task` workers, in spawning order. */
  function DispatchPlan(config: LocalConfig, smbAddress: Ipv4Addr, filename: string): seq<Cmd> {
    var hs := Hosts(config);
    seq(|hs|, i requires 0 <= i < |hs| => ClientCommand(config, hs[i], smbAddress, filename))
  }

  lemma {:induction false} ConcatLength(blocks: seq<seq<Cmd>>)
    requires forall i :: 0 <= i < |blocks| ==> |blocks[i]| == 7
    ensures |Concat(blocks)| == 7 * |blocks|
  {
    if blocks != [] {
      ConcatLength(blocks[..|blocks| - 1]);
    }
  }

  /** Block `k` occupies positions `7k` to `7k + 6` of the concatenation. */
  lemma {:induction false} ConcatBlocks(blocks: seq<seq<Cmd>>, k: nat)
    requires forall i :: 0 <= i < |blocks| ==> |blocks[i]| == 7
    requires k < |blocks|
    ensures |Concat(blocks)| == 7 * |blocks|
    ensures Concat(blocks)[7 * k .. 7 * k + 7] == blocks[k]
  {
    var init := blocks[..|blocks| - 1];
    ConcatLength(blocks);
    ConcatLength(init);
    if k < |init| {
      ConcatBlocks(init, k);
      assert Concat(blocks)[7 * k .. 7 * k + 7] == Concat(init)[7 * k .. 7 * k + 7];
    }
  }

  lemma ProvisionPlanLength(config: LocalConfig, hs: seq<Host>)
    ensures |ProvisionPlan(config, hs)| == 7 * |hs|
  {
    ConcatLength(seq(|hs|, i requires 0 <= i < |hs| => ProvisionCommands(config, hs[i])));
  }

  /** Command `j` of host `i` stands at position `7i + j` of the provisioning plan. */
  lemma SetUpPlanAt(config: LocalConfig, i: nat, j: nat)
    requires i < |Hosts(config)| && j < 7
    ensures |SetUpPlan(config)| == 7 * |Hosts(config)|
    ensures SetUpPlan(config)[7 * i + j] == ProvisionCommands(config, Hosts(config)[i])[j]
  {
    SetUpPlanOrder(config, i);
    assert SetUpPlan(config)[7 * i + j] == SetUpPlan(config)[7 * i .. 7 * i + 7][j];
  }

  /** `set_up` provisions the hosts in ascending index order, seven commands per
      host, and never starts a host before the previous one's seventh command. */
  lemma SetUpPlanOrder(config: LocalConfig, k: nat)
    requires k < |Hosts(config)|
    ensures |SetUpPlan(config)| == 7 * |Hosts(config)|
    ensures SetUpPlan(config)[7 * k .. 7 * k + 7] == ProvisionCommands(config, Hosts(config)[k])
  {
    var hs := Hosts(config);
    ConcatBlocks(seq(|hs|, i requires 0 <= i < |hs| => ProvisionCommands(config, hs[i])), k);
  }

  lemma SetUpPlanEmpty(config: LocalConfig)
    requires Hosts(config) == []
    ensures SetUpPlan(config) == []
  {
  }

  /** Command `c` carries `name` as its argument number `pos`. */
  predicate NamesAt(c: Cmd, pos: nat, name: string) {
    pos < |c.args| && c.args[pos] == name
  }

  /** The three phases derive the same namespace for host `k`, and `set_up`'s
      `link add` and `link set` commands name the interface `macvlan` ++ k and
      move it into that namespace. */
  lemma PhasesAgreeOnNames(config: LocalConfig, smbAddress: Ipv4Addr, filename: string, k: nat)
    requires k < |Hosts(config)|
    ensures |SetUpPlan(config)| == 7 * |Hosts(config)|
    ensures NamesAt(SetUpPlan(config)[7 * k], 2, NamespaceName(config.baseNamespace, k))
    ensures NamesAt(SetUpPlan(config)[7 * k + 1], 2, InterfaceName(k))
    ensures NamesAt(SetUpPlan(config)[7 * k + 2], 2, InterfaceName(k))
    ensures NamesAt(SetUpPlan(config)[7 * k + 2], 4, NamespaceName(config.baseNamespace, k))
    ensures NamesAt(DispatchPlan(config, smbAddress, filename)[k], 2, NamespaceName(config.baseNamespace, k))
    ensures NamesAt(CleanUpPlan(config)[k], 2, NamespaceName(config.baseNamespace, k))
  {
    var cmds := ProvisionCommands(config, Hosts(config)[k]);
    SetUpPlanOrder(config, k);
    assert SetUpPlan(config)[7 * k] == cmds[0];
    assert SetUpPlan(config)[7 * k + 1] == cmds[1];
    assert SetUpPlan(config)[7 * k + 2] == cmds[2];
  }

  /** Two different hosts never share a provisioning command: each command names
      its own host's namespace or interface at argument 2. */
  lemma ProvisionCommandsDisjoint(config: LocalConfig, h1: Host, h2: Host, j1: nat, j2: nat)
    requires h1.index != h2.index && j1 < 7 && j2 < 7
    ensures ProvisionCommands(config, h1)[j1] != ProvisionCommands(config, h2)[j2]
  {
    var ns1, ns2 := NamespaceName(config.baseNamespace, h1.index), NamespaceName(config.baseNamespace, h2.index);
    var mv1, mv2 := InterfaceName(h1.index), InterfaceName(h2.index);
    if ns1 == ns2 {
      NamespaceNameInjective(config.baseNamespace, h1.index, h2.index);
    }
    if mv1 == mv2 {
      InterfaceNameInjective(h1.index, h2.index);
    }
  }

  /** The seven commands of one host are pairwise different. */
  lemma ProvisionCommandsDistinct(config: LocalConfig, h: Host, j1: nat, j2: nat)
    requires j1 < j2 < 7
    ensures ProvisionCommands(config, h)[j1] != ProvisionCommands(config, h)[j2]
  {
    var mv := InterfaceName(h.index);
    assert mv[0] == 'm';
  }

  /** Commands at different places of the per-host layout differ: a different
      host, or a different step of the same host. */
  lemma ProvisionCommandsDiffer(config: LocalConfig, h1: Host, h2: Host, j1: nat, j2: nat)
    requires j1 < 7 && j2 < 7 && (h1.index != h2.index || (h1 == h2 && j1 != j2))
    ensures ProvisionCommands(config, h1)[j1] != ProvisionCommands(config, h2)[j2]
  {
    if h1.index != h2.index {
      ProvisionCommandsDisjoint(config, h1, h2, j1, j2);
    } else if j1 < j2 {
      ProvisionCommandsDistinct(config, h1, j1, j2);
    } else {
      ProvisionCommandsDistinct(config, h1, j2, j1);
    }
  }

  /** Position `p` of the provisioning plan holds step `p % 7` of host `p / 7`. */
  lemma SetUpPlanAtPosition(config: LocalConfig, p: nat)
    requires p < 7 * |Hosts(config)|
    ensures |SetUpPlan(config)| == 7 * |Hosts(config)|
    ensures SetUpPlan(config)[p] == ProvisionCommands(config, Hosts(config)[p / 7])[p % 7]
  {
    SetUpPlanAt(config, p / 7, p % 7);
    assert 7 * (p / 7) + p % 7 == p;
  }

  /** No command appears twice in the provisioning plan, so each one is issued
      at most once by `set_up`. */
  lemma SetUpPlanDistinct(config: LocalConfig, p: nat, q: nat)
    requires p < q < |SetUpPlan(config)|
    ensures SetUpPlan(config)[p] != SetUpPlan(config)[q]
  {
    var hs := Hosts(config);
    ProvisionPlanLength(config, hs);
    SetUpPlanAtPosition(config, p);
    SetUpPlanAtPosition(config, q);
    assert p / 7 != q / 7 || p % 7 != q % 7;
    ProvisionCommandsDiffer(config, hs[p / 7], hs[q / 7], p % 7, q % 7);
  }

  /** Different hosts get different deletion commands, so `clean_up` deletes
      each namespace once. */
  lemma DeleteCommandsDistinct(config: LocalConfig, h1: Host, h2: Host)
    requires h1.index != h2.index
    ensures DeleteCommand(config, h1) != DeleteCommand(config, h2)
  {
    if DeleteCommand(config, h1) == DeleteCommand(config, h2) {
      NamespaceNameInjective(config.baseNamespace, h1.index, h2.index);
    }
  }

  /** Different hosts' workers run in different namespaces. */
  lemma ClientCommandsDistinct(config: LocalConfig, h1: Host, h2: Host, smbAddress: Ipv4Addr, filename: string)
    requires h1.index != h2.index
    ensures ClientCommand(config, h1, smbAddress, filename).args[2] != ClientCommand(config, h2, smbAddress, filename).args[2]
    ensures ClientCommand(config, h1, smbAddress, filename) != ClientCommand(config, h2, smbAddress, filename)
  {
    if ClientCommand(config, h1, smbAddress, filename).args[2] == ClientCommand(config, h2, smbAddress, filename).args[2] {
      NamespaceNameInjective(config.baseNamespace, h1.index, h2.index);
    }
  }
}
