/** What one invocation of the plugin does to the host, as functions of its
    inputs and of the oracle `answer`, which says whether the k-th `ip`
    command executed on the host succeeds. `k` is always the number of
    commands executed before the part being described.

    - HostArgv, ContainerArgv: the argument vectors of ipHost and ipContainer.
    - BridgeRun: the commands, log lines and error of setupBridge.
    - VethRun: the interfaces, commands, log lines and error of setupVeth.
    - AddRun: the commands, log lines, IPAM calls and result of cmdAdd. */
module Orchestration {
  import opened Cni
  import opened Text
  import opened Util

  // ---------------------------------------------------------------------
  // Command lines
  // ---------------------------------------------------------------------

  /** One `ip` command as the plugin issues it: ipHost(args...) when
      `netns` is None, ipContainer(path, args...) when it is Some(path). */
  datatype Command = Command(netns: Option<string>, args: seq<string>)

  /** The argument vector `run` executes for the command. */
  function Argv(c: Command): seq<string>
  {
    match c.netns
    case None => HostArgv(c.args)
    case Some(path) => ContainerArgv(path, c.args)
  }

  /** The argument vectors of these commands, in order. */
  function Argvs(cmds: seq<Command>): (argvs: seq<seq<string>>)
    ensures |argvs| == |cmds|
  {
    if |cmds| == 0 then [] else Argvs(cmds[..|cmds| - 1]) + [Argv(cmds[|cmds| - 1])]
  }

  /** The i-th argument vector is that of the i-th command. */
  lemma {:induction false} ArgvsElements(cmds: seq<Command>)
    ensures forall i :: 0 <= i < |cmds| ==> Argvs(cmds)[i] == Argv(cmds[i])
    decreases |cmds|
  {
    if |cmds| > 0 {
      ArgvsElements(cmds[..|cmds| - 1]);
    }
  }

  /** The words before a command's own arguments: "ip" on the host,
      "ip netns exec <name> ip" in a namespace. */
  function Prefix(c: Command): seq<string>
  {
    match c.netns
    case None => ["ip"]
    case Some(path) => NetnsPrefix(path)
  }

  /** The line `run` logs for the command: its words as written, joined
      by spaces. */
  function Line(c: Command): string
  {
    Join(Prefix(c) + c.args)
  }

  /** Joining the argument vector gives the command's line: splitting the
      arguments changes nothing in the log. */
  lemma ArgvLine(c: Command)
    ensures Join(Argv(c)) == Line(c)
  {
    match c.netns
    case None => HostArgvLine(c.args);
    case Some(path) => ContainerArgvLine(path, c.args);
  }

  /** The log lines `run` writes for these commands, in order. */
  function LogOf(cmds: seq<Command>): (lines: seq<string>)
    ensures |lines| == |cmds|
  {
    if |cmds| == 0 then [] else LogOf(cmds[..|cmds| - 1]) + [Line(cmds[|cmds| - 1])]
  }

  /** The i-th log line is the line of the i-th command. */
  lemma {:induction false} LogOfElements(cmds: seq<Command>)
    ensures forall i :: 0 <= i < |cmds| ==> LogOf(cmds)[i] == Line(cmds[i])
    decreases |cmds|
  {
    if |cmds| > 0 {
      LogOfElements(cmds[..|cmds| - 1]);
    }
  }

  /** The i-th log line is the i-th argument vector joined by spaces: the
      log records exactly what is executed. */
  lemma LogOfArgvs(cmds: seq<Command>, i: nat)
    requires i < |cmds|
    ensures LogOf(cmds)[i] == Join(Argvs(cmds)[i])
  {
    LogOfElements(cmds);
    ArgvsElements(cmds);
    ArgvLine(cmds[i]);
  }

  lemma LogOfAppend(a: seq<Command>, b: seq<Command>)
    ensures LogOf(a + b) == LogOf(a) + LogOf(b)
  {
    LogOfElements(a);
    LogOfElements(b);
    LogOfElements(a + b);
  }

  lemma ArgvsAppend(a: seq<Command>, b: seq<Command>)
    ensures Argvs(a + b) == Argvs(a) + Argvs(b)
  {
    ArgvsElements(a);
    ArgvsElements(b);
    ArgvsElements(a + b);
  }

  /** ipHost(args...): "ip" followed by every argument split on single spaces. */
  function HostArgv(args: seq<string>): seq<string>
  {
    ["ip"] + SplitAll(args)
  }

  /** The prefix under which ipContainer runs `ip` inside a namespace. */
  function NetnsPrefix(netnsPath: string): seq<string>
  {
    ["ip", "netns", "exec", Base(netnsPath), "ip"]
  }

  /** ipContainer(netnsPath, args...): `ip` run through "ip netns exec" in
      the namespace named by the last element of the path. */
  function ContainerArgv(netnsPath: string, args: seq<string>): seq<string>
  {
    NetnsPrefix(netnsPath) + SplitAll(args)
  }

  /** The line logged for ipHost(args...) is "ip" and the arguments as
      given, joined by spaces; the argument vector starts with "ip" and no
      element of it holds a space. */
  lemma HostArgvLine(args: seq<string>)
    ensures Join(HostArgv(args)) == Join(["ip"] + args)
    ensures HostArgv(args)[0] == "ip"
    ensures forall i :: 0 <= i < |HostArgv(args)| ==> ' ' !in HostArgv(args)[i]
  {
    SplitAllPieces(args);
    JoinSplitAll(args);
    if |args| > 0 {
      JoinAppend(["ip"], SplitAll(args));
      JoinAppend(["ip"], args);
    } else {
      assert HostArgv(args) == ["ip"] + args == ["ip"];
    }
  }

  /** The line logged for ipContainer(p, args...) is
      "ip netns exec <Base(p)> ip" and the arguments as given; the argument
      vector starts with that prefix. */
  lemma ContainerArgvLine(netnsPath: string, args: seq<string>)
    ensures Join(ContainerArgv(netnsPath, args)) == Join(NetnsPrefix(netnsPath) + args)
    ensures ContainerArgv(netnsPath, args)[..5] == ["ip", "netns", "exec", Base(netnsPath), "ip"]
  {
    var prefix := NetnsPrefix(netnsPath);
    JoinSplitAll(args);
    SplitAllPieces(args);
    if |args| > 0 {
      JoinAppend(prefix, SplitAll(args));
      JoinAppend(prefix, args);
    } else {
      assert ContainerArgv(netnsPath, args) == prefix == prefix + args;
    }
  }

  // ---------------------------------------------------------------------
  // setupBridge
  // ---------------------------------------------------------------------

  const BridgeExistsNote: string := "bridge already exists"

  function ShowLink(name: string): Command { Command(None, ["link show", name]) }
  function AddBridge(name: string): Command { Command(None, ["link add name", name, "type bridge"]) }
  function AddBridgeAddr(name: string, cidr: string): Command { Command(None, ["addr add", cidr, "dev", name]) }
  function SetBridgeMac(name: string, mac: string): Command { Command(None, ["link set dev", name, "address", mac]) }
  function BridgeUp(name: string): Command { Command(None, ["link set", name, "up"]) }

  /** What setupBridge leaves behind: the commands executed, the lines
      logged and the error returned (None for success). */
  datatype BridgeOutcome = BridgeOutcome(cmds: seq<Command>, log: seq<string>, err: Option<Error>)

  /** setupBridge(name, cidr) where `mac` is what generateMac yields (see
      Util.MacOutcome): the hardware address in text, or the error of the
      random read. The existence probe is command k; create, address,
      hardware address and up follow as k+1 .. k+4. */
  function BridgeRun(name: string, cidr: string, mac: Result<string>, answer: nat -> bool, k: nat): BridgeOutcome
  {
    var show := ShowLink(name);
    if answer(k) then
      BridgeOutcome([show], [Line(show)] + [BridgeExistsNote], None)
    else
      var created := [show] + [AddBridge(name)];
      var createdLog := [Line(show)] + [Line(AddBridge(name))];
      if !answer(k + 1) then BridgeOutcome(created, createdLog, Some(Plugin(BridgeCreateFailed)))
      else
        var addressed := created + [AddBridgeAddr(name, cidr)];
        var addressedLog := createdLog + [Line(AddBridgeAddr(name, cidr))];
        match mac
        case Failure(e) => BridgeOutcome(addressed, addressedLog, Some(e))
        case Success(address) =>
          var cmds := addressed + [SetBridgeMac(name, address)] + [BridgeUp(name)];
          var log := addressedLog + [Line(SetBridgeMac(name, address))] + [Line(BridgeUp(name))];
          BridgeOutcome(cmds, log, if answer(k + 4) then None else Some(Plugin(BridgeUpFailed)))
  }

  /** Every command setupBridge runs is logged, in order; the only other
      line is the note that the bridge already exists. */
  lemma BridgeLogRecordsCommands(name: string, cidr: string, mac: Result<string>, answer: nat -> bool, k: nat)
    ensures var b := BridgeRun(name, cidr, mac, answer, k);
      b.log == LogOf(b.cmds) + (if answer(k) then [BridgeExistsNote] else [])
  {
    var show := ShowLink(name);
    OneLine(show);
    if !answer(k) {
      var created := [show] + [AddBridge(name)];
      LogOfAppend([show], [AddBridge(name)]);
      OneLine(AddBridge(name));
      if answer(k + 1) {
        var addressed := created + [AddBridgeAddr(name, cidr)];
        LogOfAppend(created, [AddBridgeAddr(name, cidr)]);
        OneLine(AddBridgeAddr(name, cidr));
        if mac.Success? {
          var address := mac.value;
          LogOfAppend(addressed, [SetBridgeMac(name, address)]);
          OneLine(SetBridgeMac(name, address));
          LogOfAppend(addressed + [SetBridgeMac(name, address)], [BridgeUp(name)]);
          OneLine(BridgeUp(name));
        }
      }
    }
  }

  /** An existing bridge is taken as configured: only the probe runs, and
      setupBridge succeeds. */
  lemma BridgeExistingShortCircuits(name: string, cidr: string, mac: Result<string>, answer: nat -> bool, k: nat)
    requires answer(k)
    ensures BridgeRun(name, cidr, mac, answer, k).cmds == [ShowLink(name)]
    ensures BridgeRun(name, cidr, mac, answer, k).err == None
  {
  }

  /** A failed create is fatal and nothing runs after it. */
  lemma BridgeCreateFailureStops(name: string, cidr: string, mac: Result<string>, answer: nat -> bool, k: nat)
    requires !answer(k) && !answer(k + 1)
    ensures BridgeRun(name, cidr, mac, answer, k).cmds == [ShowLink(name), AddBridge(name)]
    ensures BridgeRun(name, cidr, mac, answer, k).err == Some(Plugin(BridgeCreateFailed))
  {
  }

  /** A new bridge is created, addressed, given the generated hardware
      address and brought up, in that order. */
  lemma BridgeNewSequence(name: string, cidr: string, address: string, answer: nat -> bool, k: nat)
    requires !answer(k) && answer(k + 1)
    ensures BridgeRun(name, cidr, Success(address), answer, k).cmds ==
      [ShowLink(name), AddBridge(name), AddBridgeAddr(name, cidr), SetBridgeMac(name, address), BridgeUp(name)]
  {
  }

  /** setupBridge succeeds exactly when the bridge exists, or when it is
      created, the random read succeeds and it is brought up. */
  lemma BridgeSucceedsIff(name: string, cidr: string, mac: Result<string>, answer: nat -> bool, k: nat)
    ensures BridgeRun(name, cidr, mac, answer, k).err == None <==>
      answer(k) || (answer(k + 1) && mac.Success? && answer(k + 4))
  {
  }

  /** The outcomes of the address and hardware-address commands (k+2 and
      k+3) are ignored: two hosts that differ only there give the same
      commands, log and result. */
  lemma BridgeIgnoresAddressAndMacOutcomes(
    name: string, cidr: string, mac: Result<string>, a1: nat -> bool, a2: nat -> bool, k: nat)
    requires a1(k) == a2(k) && a1(k + 1) == a2(k + 1) && a1(k + 4) == a2(k + 4)
    ensures BridgeRun(name, cidr, mac, a1, k) == BridgeRun(name, cidr, mac, a2, k)
  {
  }

  // ---------------------------------------------------------------------
  // setupVeth
  // ---------------------------------------------------------------------

  function CreateVethPair(netns: string, ifName: string, hostName: string): Command
  { Command(Some(netns), ["link add", ifName, "type veth peer name", hostName]) }
  function MoveHostEnd(netns: string, hostName: string): Command
  { Command(Some(netns), ["link set", hostName, "netns 1"]) }
  function HostEndUp(hostName: string): Command
  { Command(None, ["link set", hostName, "up"]) }
  function AttachHostEnd(hostName: string, bridge: string): Command
  { Command(None, ["link set", hostName, "master", bridge]) }
  function ContainerEndUp(netns: string, ifName: string): Command
  { Command(Some(netns), ["link set", ifName, "up"]) }
  function AddContainerAddr(netns: string, ifName: string, ip: string): Command
  { Command(Some(netns), ["addr add", ip, "dev", ifName]) }
  function AddDefaultRoute(netns: string, ifName: string, gw: string): Command
  { Command(Some(netns), ["route add default via", gw, "dev", ifName]) }

  /** The seven commands of setupVeth, in order: create the pair in the
      container, move the host end to the root namespace, bring it up,
      attach it to the bridge, bring the container end up, address it and
      add the default route. */
  function VethPlan(netns: string, ifName: string, hostName: string, bridge: string, containerIp: string, gwIp: string): (plan: seq<Command>)
    ensures |plan| == 7
  {
    [ CreateVethPair(netns, ifName, hostName), MoveHostEnd(netns, hostName), HostEndUp(hostName),
      AttachHostEnd(hostName, bridge), ContainerEndUp(netns, ifName), AddContainerAddr(netns, ifName, containerIp),
      AddDefaultRoute(netns, ifName, gwIp) ]
  }

  /** The error setupVeth returns when step `i` of the plan fails. Steps 4
      and 5 hand back the command's own error. */
  function VethStepError(i: nat): Error
    requires i < 7
  {
    if i == 0 then Plugin(VethCreateFailed)
    else if i == 1 then Plugin(VethMoveFailed)
    else if i == 2 then Plugin(HostUpFailed)
    else if i == 3 then Plugin(HostAttachFailed)
    else if i == 6 then Plugin(DefaultRouteFailed)
    else CommandFailed
  }

  /** What setupVeth leaves behind: the two interface descriptors it built,
      the commands executed and the error returned. */
  datatype VethOutcome = VethOutcome(hostIf: Interface, contIf: Interface, cmds: seq<Command>, log: seq<string>, err: Option<Error>)

  /** Five indices into the alphabet of random names: the draws of the
      five calls rand.Intn(62) in randStringBytes(5). */
  predicate ValidDraws(draws: seq<nat>)
  {
    |draws| == 5 && forall i :: 0 <= i < 5 ==> draws[i] < |LetterBytes|
  }

  /** Five letters or digits: what randStringBytes(5) can return. */
  predicate ValidSuffix(suffix: string)
  {
    |suffix| == 5 && forall i :: 0 <= i < 5 ==> IsLetter(suffix[i])
  }

  /** The random part of the host-side name is a valid suffix. */
  lemma RandomSuffix(draws: seq<nat>)
    requires ValidDraws(draws)
    ensures ValidSuffix(RandomLetters(draws))
  {
    LetterBytesAlphabet();
  }

  /** The plan setupVeth follows for these inputs. */
  function VethPlanFor(conf: NetConf, args: CmdArgs, containerIp: string, gwIp: string, suffix: string): seq<Command>
  {
    VethPlan(args.netns, args.ifName, "veth" + suffix, conf.bridgeName, containerIp, gwIp)
  }

  /** The commands run by one part of setupVeth, the lines it logged and
      the error it ends with. */
  datatype StepsOutcome = StepsOutcome(cmds: seq<Command>, log: seq<string>, err: Option<Error>)

  /** The first part of setupVeth: create the pair inside the container
      (command k), then move the host end to the root namespace (k+1). */
  function CreatePairRun(netns: string, ifName: string, hostName: string, answer: nat -> bool, k: nat): StepsOutcome
  {
    var create := CreateVethPair(netns, ifName, hostName);
    var move := MoveHostEnd(netns, hostName);
    if !answer(k) then StepsOutcome([create], [Line(create)], Some(VethStepError(0)))
    else StepsOutcome([create] + [move], [Line(create)] + [Line(move)], if answer(k + 1) then None else Some(VethStepError(1)))
  }

  /** The second part: bring the host end up (command k) and attach it to
      the bridge (k+1). */
  function HostEndRun(hostName: string, bridge: string, answer: nat -> bool, k: nat): StepsOutcome
  {
    var up := HostEndUp(hostName);
    var attach := AttachHostEnd(hostName, bridge);
    if !answer(k) then StepsOutcome([up], [Line(up)], Some(VethStepError(2)))
    else StepsOutcome([up] + [attach], [Line(up)] + [Line(attach)], if answer(k + 1) then None else Some(VethStepError(3)))
  }

  /** The third part: bring the container end up (command k), address it
      (k+1) and route through the gateway (k+2). */
  function ContainerEndRun(netns: string, ifName: string, containerIp: string, gwIp: string, answer: nat -> bool, k: nat): StepsOutcome
  {
    var up := ContainerEndUp(netns, ifName);
    var addr := AddContainerAddr(netns, ifName, containerIp);
    var route := AddDefaultRoute(netns, ifName, gwIp);
    if !answer(k) then StepsOutcome([up], [Line(up)], Some(VethStepError(4)))
    else if !answer(k + 1) then StepsOutcome([up] + [addr], [Line(up)] + [Line(addr)], Some(VethStepError(5)))
    else StepsOutcome([up] + [addr] + [route], [Line(up)] + [Line(addr)] + [Line(route)], if answer(k + 2) then None else Some(VethStepError(6)))
  }

  /** setupVeth(conf, args, containerIp, gwIp) with `suffix` the five random
      characters of the host-side name and command k the first it runs: its
      three parts in order, the first that fails ending it. */
  function VethRun(conf: NetConf, args: CmdArgs, containerIp: string, gwIp: string, suffix: string, answer: nat -> bool, k: nat): VethOutcome
  {
    var hostIf := Interface("veth" + suffix, "", "");
    var contIf := Interface(args.ifName, "", args.netns);
    var pair := CreatePairRun(args.netns, contIf.name, hostIf.name, answer, k);
    if pair.err.Some? then VethOutcome(hostIf, contIf, pair.cmds, pair.log, pair.err)
    else
      var host := HostEndRun(hostIf.name, conf.bridgeName, answer, k + 2);
      if host.err.Some? then VethOutcome(hostIf, contIf, pair.cmds + host.cmds, pair.log + host.log, host.err)
      else
        var cont := ContainerEndRun(args.netns, contIf.name, containerIp, gwIp, answer, k + 4);
        VethOutcome(hostIf, contIf, pair.cmds + host.cmds + cont.cmds, pair.log + host.log + cont.log, cont.err)
  }

  /** The commands setupVeth runs are the plan up to and including the
      first failing one: when step i is the first to fail, steps 0..i ran
      and nothing after. */
  lemma VethStopsAtFirstFailure(
    conf: NetConf, args: CmdArgs, containerIp: string, gwIp: string, suffix: string, answer: nat -> bool, k: nat, i: nat)
    requires i < 7
    requires forall m :: k <= m < k + i ==> answer(m)
    requires !answer(k + i)
    ensures VethRun(conf, args, containerIp, gwIp, suffix, answer, k).cmds ==
      VethPlanFor(conf, args, containerIp, gwIp, suffix)[..i + 1]
  {
    var netns, ifName, hostName := args.netns, args.ifName, "veth" + suffix;
    PrefixesOfSeven(CreateVethPair(netns, ifName, hostName), MoveHostEnd(netns, hostName), HostEndUp(hostName),
      AttachHostEnd(hostName, conf.bridgeName), ContainerEndUp(netns, ifName), AddContainerAddr(netns, ifName, containerIp),
      AddDefaultRoute(netns, ifName, gwIp));
    if i > 0 { assert answer(k); }
    if i > 1 { assert answer(k + 1); }
    if i > 2 { assert answer(k + 2); }
    if i > 3 { assert answer(k + 3); }
    if i > 4 { assert answer(k + 4); }
    if i > 5 { assert answer(k + 5); }
  }

  /** When step i is the first to fail, setupVeth returns step i's error. */
  lemma VethFirstFailureError(
    conf: NetConf, args: CmdArgs, containerIp: string, gwIp: string, suffix: string, answer: nat -> bool, k: nat, i: nat)
    requires i < 7
    requires forall m :: k <= m < k + i ==> answer(m)
    requires !answer(k + i)
    ensures VethRun(conf, args, containerIp, gwIp, suffix, answer, k).err == Some(VethStepError(i))
  {
    if i == 1 {
      assert answer(k);
    } else if i == 2 {
      assert answer(k) && answer(k + 1);
    } else if i == 3 {
      assert answer(k) && answer(k + 1) && answer(k + 2);
    } else if i == 4 {
      assert answer(k) && answer(k + 1) && answer(k + 2) && answer(k + 3);
    } else if i == 5 {
      assert answer(k) && answer(k + 1) && answer(k + 2) && answer(k + 3) && answer(k + 4);
    } else if i == 6 {
      assert answer(k) && answer(k + 1) && answer(k + 2) && answer(k + 3) && answer(k + 4) && answer(k + 5);
    }
  }

  /** setupVeth succeeds exactly when all seven commands succeed. */
  lemma VethSucceedsIff(
    conf: NetConf, args: CmdArgs, containerIp: string, gwIp: string, suffix: string, answer: nat -> bool, k: nat)
    ensures VethRun(conf, args, containerIp, gwIp, suffix, answer, k).err == None <==>
      forall m :: k <= m < k + 7 ==> answer(m)
  {
  }

  /** A successful setupVeth has run the whole plan. */
  lemma VethSuccessRunsPlan(
    conf: NetConf, args: CmdArgs, containerIp: string, gwIp: string, suffix: string, answer: nat -> bool, k: nat)
    requires VethRun(conf, args, containerIp, gwIp, suffix, answer, k).err == None
    ensures VethRun(conf, args, containerIp, gwIp, suffix, answer, k).cmds == VethPlanFor(conf, args, containerIp, gwIp, suffix)
  {
    var netns, ifName, hostName := args.netns, args.ifName, "veth" + suffix;
    PrefixesOfSeven(CreateVethPair(netns, ifName, hostName), MoveHostEnd(netns, hostName), HostEndUp(hostName),
      AttachHostEnd(hostName, conf.bridgeName), ContainerEndUp(netns, ifName), AddContainerAddr(netns, ifName, containerIp),
      AddDefaultRoute(netns, ifName, gwIp));
  }

  /** On every path, success or error, setupVeth returns a host interface
      named "veth" and five letters or digits with no sandbox, and the
      container interface under the requested name in the namespace. */
  lemma VethDescriptors(
    conf: NetConf, args: CmdArgs, containerIp: string, gwIp: string, suffix: string, answer: nat -> bool, k: nat)
    requires ValidSuffix(suffix)
    ensures var v := VethRun(conf, args, containerIp, gwIp, suffix, answer, k);
      |v.hostIf.name| == 9 && v.hostIf.name[..4] == "veth" &&
      (forall i :: 4 <= i < 9 ==> IsLetter(v.hostIf.name[i])) &&
      v.hostIf.sandbox == "" && v.hostIf.mac == "" &&
      v.contIf == Interface(args.ifName, "", args.netns)
  {
  }

  /** Each part of setupVeth logs the commands it runs, in order. */
  lemma CreatePairLog(netns: string, ifName: string, hostName: string, answer: nat -> bool, k: nat)
    ensures var p := CreatePairRun(netns, ifName, hostName, answer, k); p.log == LogOf(p.cmds)
  {
    OneLine(CreateVethPair(netns, ifName, hostName));
    LinesOfTwo(CreateVethPair(netns, ifName, hostName), MoveHostEnd(netns, hostName));
  }

  lemma HostEndLog(hostName: string, bridge: string, answer: nat -> bool, k: nat)
    ensures var h := HostEndRun(hostName, bridge, answer, k); h.log == LogOf(h.cmds)
  {
    OneLine(HostEndUp(hostName));
    LinesOfTwo(HostEndUp(hostName), AttachHostEnd(hostName, bridge));
  }

  lemma ContainerEndLog(netns: string, ifName: string, containerIp: string, gwIp: string, answer: nat -> bool, k: nat)
    ensures var c := ContainerEndRun(netns, ifName, containerIp, gwIp, answer, k); c.log == LogOf(c.cmds)
  {
    OneLine(ContainerEndUp(netns, ifName));
    LinesOfTwo(ContainerEndUp(netns, ifName), AddContainerAddr(netns, ifName, containerIp));
    LinesOfThree(ContainerEndUp(netns, ifName), AddContainerAddr(netns, ifName, containerIp), AddDefaultRoute(netns, ifName, gwIp));
  }

  /** Every command setupVeth runs is logged, in order, and nothing else is. */
  lemma VethLogRecordsCommands(
    conf: NetConf, args: CmdArgs, containerIp: string, gwIp: string, suffix: string, answer: nat -> bool, k: nat)
    ensures var v := VethRun(conf, args, containerIp, gwIp, suffix, answer, k);
      v.log == LogOf(v.cmds)
  {
    var netns, ifName, hostName := args.netns, args.ifName, "veth" + suffix;
    var pair := CreatePairRun(netns, ifName, hostName, answer, k);
    var host := HostEndRun(hostName, conf.bridgeName, answer, k + 2);
    var cont := ContainerEndRun(netns, ifName, containerIp, gwIp, answer, k + 4);
    CreatePairLog(netns, ifName, hostName, answer, k);
    HostEndLog(hostName, conf.bridgeName, answer, k + 2);
    ContainerEndLog(netns, ifName, containerIp, gwIp, answer, k + 4);
    LogOfAppend(pair.cmds, host.cmds);
    LogOfAppend(pair.cmds + host.cmds, cont.cmds);
  }

  /** The host-side name differs from the requested container-side name
      unless that name itself looks like "veth" and five characters. */
  lemma HostNameDistinct(suffix: string, ifName: string)
    requires |suffix| == 5
    requires |ifName| != 9 || ifName[..4] != "veth"
    ensures "veth" + suffix != ifName
  {
    var name := "veth" + suffix;
    assert name[..4] == "veth";
  }

  // ---------------------------------------------------------------------
  // cmdAdd
  // ---------------------------------------------------------------------

  /** What cmdAdd leaves behind: commands, log lines, IPAM invocations and
      the result or error it returns. */
  datatype AddOutcome = AddOutcome(cmds: seq<Command>, log: seq<string>, ipam: seq<IpamCall>, res: Result<AddResult>)

  /** cmdAdd, with the outcome of parsing the configuration, the hardware
      address generateMac yields, the random name indices and the answer of
      the IPAM plugin given. A failed parse is
      reported as an error (see AddRunAsWritten for the code as written). */
  function AddRun(
    parsed: Result<NetConf>, args: CmdArgs, mac: Result<string>, suffix: string,
    alloc: Allocation, answer: nat -> bool, k: nat): AddOutcome
  {
    match parsed
    case Failure(e) => AddOutcome([], [], [], Failure(e))
    case Success(conf) =>
      AddAfterBridge(conf, args, BridgeRun(conf.bridgeName, conf.bridgeCidr, mac, answer, k), suffix, alloc, answer, k)
  }

  /** The rest of cmdAdd once setupBridge, started at command k, has given
      `bridge`: nothing more when it failed, else the steps of
      AllocationRun after the bridge's commands and log lines. */
  function AddAfterBridge(
    conf: NetConf, args: CmdArgs, bridge: BridgeOutcome, suffix: string,
    alloc: Allocation, answer: nat -> bool, k: nat): AddOutcome
  {
    if bridge.err.Some? then AddOutcome(bridge.cmds, bridge.log, [], Failure(bridge.err.value))
    else
      var a := AllocationRun(conf, args, suffix, alloc, answer, k + |bridge.cmds|);
      AddOutcome(bridge.cmds + a.cmds, bridge.log + a.log, a.ipam, a.res)
  }

  /** The steps of cmdAdd after a successful setupBridge, their commands
      starting at command k: allocate, wire the veth pair for the first
      address, and release the allocation when a later step fails. */
  function AllocationRun(
    conf: NetConf, args: CmdArgs, suffix: string, alloc: Allocation, answer: nat -> bool, k: nat): AddOutcome
  {
    var add := IpamAdd(conf.ipamType, args.stdinData);
    var release := IpamDel(conf.ipamType, args.stdinData);
    match alloc
    case ExecFailed(e) => AddOutcome([], [], [add], Failure(e))
    case ConvertFailed(e) => AddOutcome([], [], [add, release], Failure(e))
    case Allocated(ips, routes) =>
      if |ips| == 0 then AddOutcome([], [], [add, release], Failure(Plugin(MissingIpConfig)))
      else
        var veth := VethRun(conf, args, ips[0].address, ips[0].gateway, suffix, answer, k);
        if veth.err.Some? then AddOutcome(veth.cmds, veth.log, [add, release], Failure(veth.err.value))
        else AddOutcome(veth.cmds, veth.log, [add], Success(AddResult(ImplementedSpecVersion, [veth.hostIf, veth.contIf], ips, routes, conf.dns)))
  }

  /** The number of IPAM releases among these calls. */
  function Releases(calls: seq<IpamCall>): nat
  {
    if |calls| == 0 then 0 else Releases(calls[..|calls| - 1]) + (if calls[|calls| - 1].IpamDel? then 1 else 0)
  }

  /** The compensation of cmdAdd: whatever setupBridge gave, the
      allocation is released exactly once when cmdAdd fails after the IPAM
      plugin allocated, and never otherwise; nothing is asked of IPAM when
      the bridge failed; every IPAM call names the configured plugin and
      forwards the invocation's stdin. */
  lemma AddReleasesExactlyOnceAfterAllocation(
    conf: NetConf, args: CmdArgs, bridge: BridgeOutcome, suffix: string,
    alloc: Allocation, answer: nat -> bool, k: nat)
    ensures var o := AddAfterBridge(conf, args, bridge, suffix, alloc, answer, k);
      Releases(o.ipam) == (if bridge.err.None? && !alloc.ExecFailed? && o.res.Failure? then 1 else 0)
    ensures var o := AddAfterBridge(conf, args, bridge, suffix, alloc, answer, k);
      (bridge.err.Some? ==> o.ipam == []) &&
      forall i :: 0 <= i < |o.ipam| ==> o.ipam[i].plugin == conf.ipamType && o.ipam[i].stdin == args.stdinData
  {
    var add := IpamAdd(conf.ipamType, args.stdinData);
    var release := IpamDel(conf.ipamType, args.stdinData);
    assert Releases([add]) == 0 by {
      assert [add][..0] == [];
    }
    assert Releases([add, release]) == 1 by {
      assert [add, release][..1] == [add];
    }
  }

  /** A failure before allocation (setupBridge, or the IPAM plugin itself)
      returns that error, runs nothing after the bridge commands and
      releases nothing. */
  lemma AddEarlyFailureNoRelease(
    conf: NetConf, args: CmdArgs, bridge: BridgeOutcome, suffix: string,
    alloc: Allocation, answer: nat -> bool, k: nat)
    requires bridge.err.Some? || alloc.ExecFailed?
    ensures var o := AddAfterBridge(conf, args, bridge, suffix, alloc, answer, k);
      o.res.Failure? && o.cmds == bridge.cmds && o.log == bridge.log &&
      o.ipam == (if bridge.err.Some? then [] else [IpamAdd(conf.ipamType, args.stdinData)]) &&
      o.res.error == (if bridge.err.Some? then bridge.err.value else alloc.execError)
  {
  }

  /** An IPAM answer without addresses fails the invocation, runs no veth
      command and releases the allocation. */
  lemma AddZeroIpsNoVeth(
    conf: NetConf, args: CmdArgs, bridge: BridgeOutcome, suffix: string,
    routes: seq<Route>, answer: nat -> bool, k: nat)
    requires bridge.err.None?
    ensures var o := AddAfterBridge(conf, args, bridge, suffix, Allocated([], routes), answer, k);
      o.cmds == bridge.cmds && o.res == Failure(Plugin(MissingIpConfig)) &&
      o.ipam == [IpamAdd(conf.ipamType, args.stdinData), IpamDel(conf.ipamType, args.stdinData)]
  {
  }

  /** ADD succeeds exactly when the bridge is ready, the IPAM plugin
      allocated at least one address, and the veth pair is wired for the
      first of them. */
  lemma AddSucceedsIff(
    conf: NetConf, args: CmdArgs, bridge: BridgeOutcome, suffix: string,
    alloc: Allocation, answer: nat -> bool, k: nat)
    ensures AddAfterBridge(conf, args, bridge, suffix, alloc, answer, k).res.Success? <==>
      bridge.err.None? && alloc.Allocated? && |alloc.ips| > 0 &&
      VethRun(conf, args, alloc.ips[0].address, alloc.ips[0].gateway, suffix, answer, k + |bridge.cmds|).err.None?
  {
  }

  /** Once addresses are allocated, the veth commands follow the bridge
      commands. */
  lemma AddVethCommands(
    conf: NetConf, args: CmdArgs, bridge: BridgeOutcome, suffix: string,
    ips: seq<IPConfig>, routes: seq<Route>, answer: nat -> bool, k: nat)
    requires |ips| > 0 && bridge.err.None?
    ensures var veth := VethRun(conf, args, ips[0].address, ips[0].gateway, suffix, answer, k + |bridge.cmds|);
      AddAfterBridge(conf, args, bridge, suffix, Allocated(ips, routes), answer, k).cmds == bridge.cmds + veth.cmds
  {
  }

  /** After setupBridge, every command ADD runs is logged, in order, and
      nothing else is. */
  lemma AllocationLogRecordsCommands(
    conf: NetConf, args: CmdArgs, suffix: string, alloc: Allocation, answer: nat -> bool, k: nat)
    ensures var a := AllocationRun(conf, args, suffix, alloc, answer, k);
      a.log == LogOf(a.cmds)
  {
    if alloc.Allocated? && |alloc.ips| > 0 {
      VethLogRecordsCommands(conf, args, alloc.ips[0].address, alloc.ips[0].gateway, suffix, answer, k);
    }
  }

  /** A successful ADD ran the whole veth plan for the first address
      after the bridge commands. */
  lemma AddSuccessCommands(
    conf: NetConf, args: CmdArgs, bridge: BridgeOutcome, suffix: string,
    ips: seq<IPConfig>, routes: seq<Route>, answer: nat -> bool, k: nat)
    requires |ips| > 0 && bridge.err.None?
    requires VethRun(conf, args, ips[0].address, ips[0].gateway, suffix, answer, k + |bridge.cmds|).err.None?
    ensures AddAfterBridge(conf, args, bridge, suffix, Allocated(ips, routes), answer, k).cmds ==
      bridge.cmds + VethPlanFor(conf, args, ips[0].address, ips[0].gateway, suffix)
  {
    var veth := VethRun(conf, args, ips[0].address, ips[0].gateway, suffix, answer, k + |bridge.cmds|);
    AddVethCommands(conf, args, bridge, suffix, ips, routes, answer, k);
    VethSuccessRunsPlan(conf, args, ips[0].address, ips[0].gateway, suffix, answer, k + |bridge.cmds|);
  }

  /** A successful ADD released nothing and reports the host and
      container interfaces, the IPAM addresses and routes and the
      configured DNS under the implemented specification version. */
  lemma AddSuccessReport(
    conf: NetConf, args: CmdArgs, bridge: BridgeOutcome, suffix: string,
    ips: seq<IPConfig>, routes: seq<Route>, answer: nat -> bool, k: nat)
    requires |ips| > 0 && bridge.err.None?
    requires VethRun(conf, args, ips[0].address, ips[0].gateway, suffix, answer, k + |bridge.cmds|).err.None?
    ensures var o := AddAfterBridge(conf, args, bridge, suffix, Allocated(ips, routes), answer, k);
      o.ipam == [IpamAdd(conf.ipamType, args.stdinData)] &&
      o.res == Success(AddResult(ImplementedSpecVersion,
        [Interface("veth" + suffix, "", ""), Interface(args.ifName, "", args.netns)], ips, routes, conf.dns))
  {
  }

  /** A veth failure after allocation fails ADD with setupVeth's error
      and releases the allocation; with AddVethCommands and
      VethStopsAtFirstFailure, the commands are the bridge's followed by
      the veth plan up to the failing step. */
  lemma AddVethFailureReleases(
    conf: NetConf, args: CmdArgs, bridge: BridgeOutcome, suffix: string,
    ips: seq<IPConfig>, routes: seq<Route>, answer: nat -> bool, k: nat)
    requires |ips| > 0 && bridge.err.None?
    requires VethRun(conf, args, ips[0].address, ips[0].gateway, suffix, answer, k + |bridge.cmds|).err.Some?
    ensures var o := AddAfterBridge(conf, args, bridge, suffix, Allocated(ips, routes), answer, k);
      o.res == Failure(VethRun(conf, args, ips[0].address, ips[0].gateway, suffix, answer, k + |bridge.cmds|).err.value) &&
      o.ipam == [IpamAdd(conf.ipamType, args.stdinData), IpamDel(conf.ipamType, args.stdinData)]
  {
  }

  // ---------------------------------------------------------------------
  // The configuration parse in cmdAdd, as written
  // ---------------------------------------------------------------------

  /** How cmdAdd as written ends: it panics, or it returns with the
      outcome it leaves behind. */
  datatype AddAsWritten = Panics | Returns(o: AddOutcome)

  /** cmdAdd as written. The error of parseNetConf is overwritten without
      being read; a failed parse leaves the configuration nil, and building
      the result reads its DNS field, which panics before any command or
      IPAM call. A parsed configuration goes on as AddRun describes. */
  function AddRunAsWritten(
    parsed: Result<NetConf>, args: CmdArgs, mac: Result<string>, suffix: string,
    alloc: Allocation, answer: nat -> bool, k: nat): AddAsWritten
  {
    match parsed
    case Failure(_) => Panics
    case Success(conf) =>
      Returns(AddAfterBridge(conf, args, BridgeRun(conf.bridgeName, conf.bridgeCidr, mac, answer, k), suffix, alloc, answer, k))
  }

  /** ADD as written and ADD as modelled differ only on a configuration
      that does not parse: the code as written crashes where the model
      returns the parse error, the way DEL and CHECK do. */
  lemma AddAsWrittenDiffersOnlyOnParseFailure(
    parsed: Result<NetConf>, args: CmdArgs, mac: Result<string>, suffix: string,
    alloc: Allocation, answer: nat -> bool, k: nat)
    ensures parsed.Failure? ==>
      AddRunAsWritten(parsed, args, mac, suffix, alloc, answer, k).Panics? &&
      AddRun(parsed, args, mac, suffix, alloc, answer, k).res == Failure(parsed.error)
    ensures parsed.Success? ==>
      AddRunAsWritten(parsed, args, mac, suffix, alloc, answer, k) == Returns(AddRun(parsed, args, mac, suffix, alloc, answer, k))
  {
  }

  /** Corrected: a configuration that does not parse is reported as the
      parse error, before any command or IPAM call. */
  lemma AddParseFailureReported(
    e: Error, args: CmdArgs, mac: Result<string>, suffix: string,
    alloc: Allocation, answer: nat -> bool, k: nat)
    ensures AddRun(Failure(e), args, mac, suffix, alloc, answer, k) == AddOutcome([], [], [], Failure(e))
  {
  }

  // ---------------------------------------------------------------------
  // Sequence facts the proofs above use
  // ---------------------------------------------------------------------

  /** Rewrites the trace and the log after one more command `c`, run when
      `done` had run since `trace` and had added `doneLog` to `log`, into
      the form the specification functions use. */
  lemma Step(trace: seq<seq<string>>, log: seq<string>, done: seq<Command>, doneLog: seq<string>, c: Command)
    ensures (trace + Argvs(done)) + [Argv(c)] == trace + Argvs(done + [c])
    ensures (log + doneLog) + [Line(c)] == log + (doneLog + [Line(c)])
  {
    assert (done + [c])[..|done|] == done;
  }

  /** The trace of a single command. */
  lemma One(c: Command)
    ensures Argvs([c]) == [Argv(c)]
  {
    assert [c][..0] == [];
  }

  /** The log of a single command. */
  lemma OneLine(c: Command)
    ensures LogOf([c]) == [Line(c)]
  {
    assert [c][..0] == [];
  }

  /** The prefixes of a seven-element display, grouped two, two and three
      as setupVeth runs them. */
  lemma PrefixesOfSeven<T>(a: T, b: T, c: T, d: T, e: T, f: T, g: T)
    ensures [a, b, c, d, e, f, g][..1] == [a]
    ensures [a, b, c, d, e, f, g][..2] == [a] + [b]
    ensures [a, b, c, d, e, f, g][..3] == [a] + [b] + [c]
    ensures [a, b, c, d, e, f, g][..4] == ([a] + [b]) + ([c] + [d])
    ensures [a, b, c, d, e, f, g][..5] == ([a] + [b]) + ([c] + [d]) + [e]
    ensures [a, b, c, d, e, f, g][..6] == ([a] + [b]) + ([c] + [d]) + ([e] + [f])
    ensures [a, b, c, d, e, f, g][..7] == ([a] + [b]) + ([c] + [d]) + ([e] + [f] + [g])
    ensures [a, b, c, d, e, f, g] == ([a] + [b]) + ([c] + [d]) + ([e] + [f] + [g])
  {
  }

  /** The log of two and of three commands run in order. */
  lemma LinesOfTwo(a: Command, b: Command)
    ensures LogOf([a] + [b]) == [Line(a)] + [Line(b)]
  {
    OneLine(a);
    assert ([a] + [b])[..1] == [a];
  }

  lemma LinesOfThree(a: Command, b: Command, c: Command)
    ensures LogOf([a] + [b] + [c]) == [Line(a)] + [Line(b)] + [Line(c)]
  {
    LinesOfTwo(a, b);
    assert ([a] + [b] + [c])[..2] == [a] + [b];
  }

  /** Running `b` and then `c` extends a trace by the argument vectors of
      `b + c` and a log by the lines of both parts. */
  lemma AppendEffects(trace: seq<seq<string>>, log: seq<string>, b: seq<Command>, bLog: seq<string>, c: seq<Command>, cLog: seq<string>)
    ensures (trace + Argvs(b)) + Argvs(c) == trace + Argvs(b + c)
    ensures (log + bLog) + cLog == log + (bLog + cLog)
  {
    ArgvsAppend(b, c);
  }
}
