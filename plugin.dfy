/** The plugin's commands as they run on a host. The host is the plugin's
    log, the trace of `ip` commands it has executed, and the invocations of
    the IPAM plugin; whether the k-th command succeeds is the oracle
    `answer`. Each method is proved against its specification function in
    Orchestration. */
module Plugin {
  import opened Cni
  import opened Text
  import opened Util
  import opened Orchestration

  /** Builds an argument vector: `prefix` followed by every argument split
      on single spaces, argument by argument (the loop of ipHost and
      ipContainer). */
  method ArgSlice(prefix: seq<string>, args: seq<string>) returns (argSlice: seq<string>)
    ensures argSlice == prefix + SplitAll(args)
  {
    argSlice := prefix;
    for i := 0 to |args|
      invariant argSlice == prefix + SplitAll(args[..i])
    {
      assert args[..i + 1][..i] == args[..i];
      argSlice := argSlice + Split(args[i]);
    }
    assert args[..|args|] == args;
  }

  class Host {
    /** The lines written to the plugin's log file, in order. */
    var log: seq<string>
    /** The argument vector of every command executed, in order. */
    var trace: seq<seq<string>>
    /** The invocations of the IPAM plugin, in order. */
    var ipamCalls: seq<IpamCall>
    /** Whether the k-th command executed on this host succeeds. */
    const answer: nat -> bool

    constructor (answer: nat -> bool)
      ensures this.answer == answer
      ensures log == [] && trace == [] && ipamCalls == []
    {
      this.answer := answer;
      log, trace, ipamCalls := [], [], [];
    }

    /** run(args...): logs the command line (the arguments joined by one
        space), then executes the command. */
    method Run(args: seq<string>) returns (ok: bool)
      requires |args| > 0
      modifies this
      ensures log == old(log) + [Join(args)]
      ensures trace == old(trace) + [args]
      ensures ok == answer(|old(trace)|)
      ensures ipamCalls == old(ipamCalls)
    {
      log := log + [Join(args)];
      ok := answer(|trace|);
      trace := trace + [args];
    }

    /** ipHost(args...): runs `ip` in the root namespace. The argument
        vector is HostArgv(args) and the line logged is "ip" and the
        arguments joined by spaces (HostArgvLine). */
    method IpHost(args: seq<string>) returns (ok: bool)
      modifies this
      ensures trace == old(trace) + [Argv(Command(None, args))]
      ensures log == old(log) + [Line(Command(None, args))]
      ensures ok == answer(|old(trace)|)
      ensures ipamCalls == old(ipamCalls)
    {
      var argSlice := ArgSlice(["ip"], args);
      ok := Run(argSlice);
      HostArgvLine(args);
    }

    /** ipContainer(netnsPath, args...): runs `ip` inside the network
        namespace named by the last element of the path. The argument
        vector is ContainerArgv(netnsPath, args) and the line logged is
        "ip netns exec <name> ip" and the arguments joined by spaces
        (ContainerArgvLine). */
    method IpContainer(netnsPath: string, args: seq<string>) returns (ok: bool)
      modifies this
      ensures trace == old(trace) + [Argv(Command(Some(netnsPath), args))]
      ensures log == old(log) + [Line(Command(Some(netnsPath), args))]
      ensures ok == answer(|old(trace)|)
      ensures ipamCalls == old(ipamCalls)
    {
      var netnsName := Base(netnsPath);
      var argSlice := ArgSlice(["ip", "netns", "exec", netnsName, "ip"], args);
      ok := Run(argSlice);
      ContainerArgvLine(netnsPath, args);
    }

    /** bridgeExists(name): the bridge is taken to exist when
        "ip link show <name>" succeeds. */
    method BridgeExists(bridgeName: string) returns (found: bool)
      modifies this
      ensures trace == old(trace) + [Argv(ShowLink(bridgeName))]
      ensures log == old(log) + [Line(ShowLink(bridgeName))]
      ensures found == answer(|old(trace)|)
      ensures ipamCalls == old(ipamCalls)
    {
      found := IpHost(["link show", bridgeName]);
    }

    /** setupBridge(name, cidr), with `read` the outcome of reading the
        random bytes of the bridge's hardware address. */
    method SetupBridge(bridgeName: string, bridgeCidr: string, read: Result<seq<byte>>) returns (err: Option<Error>)
      requires read.Success? ==> |read.value| == 6
      modifies this
      ensures var b := BridgeRun(bridgeName, bridgeCidr, MacOutcome(read), answer, |old(trace)|);
        trace == old(trace) + Argvs(b.cmds) && log == old(log) + b.log && err == b.err
      ensures ipamCalls == old(ipamCalls)
    {
      ghost var done, doneLog := [ShowLink(bridgeName)], [Line(ShowLink(bridgeName))];
      var found := BridgeExists(bridgeName);
      One(ShowLink(bridgeName));
      if found {
        log := log + [BridgeExistsNote];
        assert (old(log) + doneLog) + [BridgeExistsNote] == old(log) + (doneLog + [BridgeExistsNote]);
        return None;
      }
      var ok := IpHost(["link add name", bridgeName, "type bridge"]);
      Step(old(trace), old(log), done, doneLog, AddBridge(bridgeName));
      done, doneLog := done + [AddBridge(bridgeName)], doneLog + [Line(AddBridge(bridgeName))];
      if !ok {
        return Some(Plugin(BridgeCreateFailed));
      }
      // The outcome is ignored: a concurrent invocation may have done it.
      ok := IpHost(["addr add", bridgeCidr, "dev", bridgeName]);
      Step(old(trace), old(log), done, doneLog, AddBridgeAddr(bridgeName, bridgeCidr));
      done, doneLog := done + [AddBridgeAddr(bridgeName, bridgeCidr)], doneLog + [Line(AddBridgeAddr(bridgeName, bridgeCidr))];
      var mac, macErr := GenerateMac(read);
      if macErr.Some? {
        return macErr;
      }
      // The outcome is ignored, as for the address.
      ok := IpHost(["link set dev", bridgeName, "address", mac]);
      Step(old(trace), old(log), done, doneLog, SetBridgeMac(bridgeName, mac));
      done, doneLog := done + [SetBridgeMac(bridgeName, mac)], doneLog + [Line(SetBridgeMac(bridgeName, mac))];
      ok := IpHost(["link set", bridgeName, "up"]);
      Step(old(trace), old(log), done, doneLog, BridgeUp(bridgeName));
      if !ok {
        return Some(Plugin(BridgeUpFailed));
      }
      return None;
    }

    /** The first part of setupVeth: create the pair inside the container
        and move its host end to the root namespace. */
    method CreatePair(netns: string, ifName: string, hostName: string) returns (err: Option<Error>)
      modifies this
      ensures var p := CreatePairRun(netns, ifName, hostName, answer, |old(trace)|);
        trace == old(trace) + Argvs(p.cmds) && log == old(log) + p.log && err == p.err
      ensures ipamCalls == old(ipamCalls)
    {
      var ok := IpContainer(netns, ["link add", ifName, "type veth peer name", hostName]);
      One(CreateVethPair(netns, ifName, hostName));
      if !ok {
        return Some(Plugin(VethCreateFailed));
      }
      ok := IpContainer(netns, ["link set", hostName, "netns 1"]);
      Step(old(trace), old(log), [CreateVethPair(netns, ifName, hostName)], [Line(CreateVethPair(netns, ifName, hostName))], MoveHostEnd(netns, hostName));
      if !ok {
        return Some(Plugin(VethMoveFailed));
      }
      return None;
    }

    /** The second part of setupVeth: bring the host end up and attach it
        to the bridge. */
    method ConfigureHostEnd(hostName: string, bridge: string) returns (err: Option<Error>)
      modifies this
      ensures var h := HostEndRun(hostName, bridge, answer, |old(trace)|);
        trace == old(trace) + Argvs(h.cmds) && log == old(log) + h.log && err == h.err
      ensures ipamCalls == old(ipamCalls)
    {
      var ok := IpHost(["link set", hostName, "up"]);
      One(HostEndUp(hostName));
      if !ok {
        return Some(Plugin(HostUpFailed));
      }
      ok := IpHost(["link set", hostName, "master", bridge]);
      Step(old(trace), old(log), [HostEndUp(hostName)], [Line(HostEndUp(hostName))], AttachHostEnd(hostName, bridge));
      if !ok {
        return Some(Plugin(HostAttachFailed));
      }
      return None;
    }

    /** The third part of setupVeth: bring the container end up, address
        it and route through the gateway. The first two hand back the
        command's own error. */
    method ConfigureContainerEnd(netns: string, ifName: string, containerIp: string, gwIp: string)
      returns (err: Option<Error>)
      modifies this
      ensures var c := ContainerEndRun(netns, ifName, containerIp, gwIp, answer, |old(trace)|);
        trace == old(trace) + Argvs(c.cmds) && log == old(log) + c.log && err == c.err
      ensures ipamCalls == old(ipamCalls)
    {
      var ok := IpContainer(netns, ["link set", ifName, "up"]);
      One(ContainerEndUp(netns, ifName));
      if !ok {
        return Some(CommandFailed);
      }
      ok := IpContainer(netns, ["addr add", containerIp, "dev", ifName]);
      Step(old(trace), old(log), [ContainerEndUp(netns, ifName)], [Line(ContainerEndUp(netns, ifName))], AddContainerAddr(netns, ifName, containerIp));
      if !ok {
        return Some(CommandFailed);
      }
      ghost var done := [ContainerEndUp(netns, ifName)] + [AddContainerAddr(netns, ifName, containerIp)];
      ghost var doneLog := [Line(ContainerEndUp(netns, ifName))] + [Line(AddContainerAddr(netns, ifName, containerIp))];
      ok := IpContainer(netns, ["route add default via", gwIp, "dev", ifName]);
      Step(old(trace), old(log), done, doneLog, AddDefaultRoute(netns, ifName, gwIp));
      if !ok {
        return Some(Plugin(DefaultRouteFailed));
      }
      return None;
    }

    /** setupVeth(conf, args, containerIp, gwIp), with `draws` the random
        indices of the host-side name. The first failing command ends it;
        the two descriptors are returned on every path. */
    method SetupVeth(conf: NetConf, args: CmdArgs, containerIp: string, gwIp: string, draws: seq<nat>)
      returns (hostIf: Interface, contIf: Interface, err: Option<Error>)
      requires ValidDraws(draws)
      modifies this
      ensures var v := VethRun(conf, args, containerIp, gwIp, RandomLetters(draws), answer, |old(trace)|);
        hostIf == v.hostIf && contIf == v.contIf && err == v.err &&
        trace == old(trace) + Argvs(v.cmds) && log == old(log) + v.log
      ensures ipamCalls == old(ipamCalls)
    {
      var suffix := RandStringBytes(5, draws);
      ghost var v := VethRun(conf, args, containerIp, gwIp, suffix, answer, |old(trace)|);
      hostIf := Interface("veth" + suffix, "", "");
      contIf := Interface(args.ifName, "", args.netns);

      ghost var pair := CreatePairRun(args.netns, contIf.name, hostIf.name, answer, |trace|);
      err := CreatePair(args.netns, contIf.name, hostIf.name);
      if err.Some? {
        assert v == VethOutcome(hostIf, contIf, pair.cmds, pair.log, pair.err);
        return;
      }
      ghost var host := HostEndRun(hostIf.name, conf.bridgeName, answer, |trace|);
      err := ConfigureHostEnd(hostIf.name, conf.bridgeName);
      AppendEffects(old(trace), old(log), pair.cmds, pair.log, host.cmds, host.log);
      if err.Some? {
        assert v == VethOutcome(hostIf, contIf, pair.cmds + host.cmds, pair.log + host.log, host.err);
        return;
      }
      ghost var cont := ContainerEndRun(args.netns, contIf.name, containerIp, gwIp, answer, |trace|);
      err := ConfigureContainerEnd(args.netns, contIf.name, containerIp, gwIp);
      AppendEffects(old(trace), old(log), pair.cmds + host.cmds, pair.log + host.log, cont.cmds, cont.log);
      assert v == VethOutcome(hostIf, contIf, pair.cmds + host.cmds + cont.cmds, pair.log + host.log + cont.log, cont.err);
    }

    /** ipam.ExecAdd: delegates the allocation to the configured IPAM plugin. */
    method IpamExecAdd(plugin: string, stdin: string)
      modifies this
      ensures ipamCalls == old(ipamCalls) + [IpamAdd(plugin, stdin)]
      ensures trace == old(trace) && log == old(log)
    {
      ipamCalls := ipamCalls + [IpamAdd(plugin, stdin)];
    }

    /** ipam.ExecDel: asks the configured IPAM plugin to release the allocation. */
    method IpamExecDel(plugin: string, stdin: string)
      modifies this
      ensures ipamCalls == old(ipamCalls) + [IpamDel(plugin, stdin)]
      ensures trace == old(trace) && log == old(log)
    {
      ipamCalls := ipamCalls + [IpamDel(plugin, stdin)];
    }

    /** cmdAdd: ensures the bridge, then allocates an address and wires
        the veth pair with AllocateAndWire. A failed parse is returned
        (see AddRunAsWritten for the code as written). `parsed` is the
        outcome of parsing the configuration, `read` the random bytes for
        the bridge's hardware address, `draws` the random indices of the
        host-side name and `alloc` the answer of the IPAM plugin. */
    method CmdAdd(parsed: Result<NetConf>, args: CmdArgs, read: Result<seq<byte>>, draws: seq<nat>, alloc: Allocation)
      returns (res: Result<AddResult>)
      requires read.Success? ==> |read.value| == 6
      requires ValidDraws(draws)
      modifies this
      ensures var o := AddRun(parsed, args, MacOutcome(read), RandomLetters(draws), alloc, answer, |old(trace)|);
        res == o.res && trace == old(trace) + Argvs(o.cmds) && log == old(log) + o.log && ipamCalls == old(ipamCalls) + o.ipam
    {
      if parsed.Failure? {
        return Failure(parsed.error);
      }
      var conf := parsed.value;
      var result := AddResult(ImplementedSpecVersion, [], [], [], conf.dns);

      var bridgeErr := SetupBridge(conf.bridgeName, conf.bridgeCidr, read);
      if bridgeErr.Some? {
        return Failure(bridgeErr.value);
      }
      ghost var bridge := BridgeRun(conf.bridgeName, conf.bridgeCidr, MacOutcome(read), answer, |old(trace)|);
      ghost var a := AllocationRun(conf, args, RandomLetters(draws), alloc, answer, |trace|);
      assert AddRun(parsed, args, MacOutcome(read), RandomLetters(draws), alloc, answer, |old(trace)|)
        == AddOutcome(bridge.cmds + a.cmds, bridge.log + a.log, a.ipam, a.res);
      AppendEffects(old(trace), old(log), bridge.cmds, bridge.log, a.cmds, a.log);
      res := AllocateAndWire(conf, args, draws, alloc, result);
    }

    /** The steps of cmdAdd after setupBridge: runs the IPAM plugin, and
        once it has allocated, a `success` flag decides whether the
        deferred release runs on the way out. `result` is the result under
        construction, holding the configured DNS. */
    method AllocateAndWire(conf: NetConf, args: CmdArgs, draws: seq<nat>, alloc: Allocation, result: AddResult)
      returns (res: Result<AddResult>)
      requires ValidDraws(draws)
      requires result == AddResult(ImplementedSpecVersion, [], [], [], conf.dns)
      modifies this
      ensures var a := AllocationRun(conf, args, RandomLetters(draws), alloc, answer, |old(trace)|);
        res == a.res && trace == old(trace) + Argvs(a.cmds) && log == old(log) + a.log &&
        ipamCalls == old(ipamCalls) + a.ipam
    {
      var result := result;
      IpamExecAdd(conf.ipamType, args.stdinData);
      if alloc.ExecFailed? {
        return Failure(alloc.execError);
      }

      var success := true;
      label afterAllocation: {
        if alloc.ConvertFailed? {
          success := false;
          res := Failure(alloc.convertError);
          break afterAllocation;
        }
        result := result.(ips := alloc.ips, routes := alloc.routes);
        if |result.ips| == 0 {
          success := false;
          res := Failure(Plugin(MissingIpConfig));
          break afterAllocation;
        }
        var containerIp := result.ips[0].address;
        var gatewayIp := result.ips[0].gateway;

        var hostIf, contIf, vethErr := SetupVeth(conf, args, containerIp, gatewayIp, draws);
        result := result.(interfaces := [hostIf, contIf]);
        if vethErr.Some? {
          success := false;
          res := Failure(vethErr.value);
          break afterAllocation;
        }
        res := Success(result);
      }
      // The deferred release.
      if !success {
        IpamExecDel(conf.ipamType, args.stdinData);
      }
    }

    /** cmdDel: forwards the release to the IPAM plugin and returns its
        outcome (`release`) unchanged; no command runs on the host. */
    method CmdDel(parsed: Result<NetConf>, args: CmdArgs, release: Option<Error>) returns (err: Option<Error>)
      modifies this
      ensures parsed.Failure? ==> err == Some(parsed.error) && ipamCalls == old(ipamCalls)
      ensures parsed.Success? ==>
        err == release && ipamCalls == old(ipamCalls) + [IpamDel(parsed.value.ipamType, args.stdinData)]
      ensures trace == old(trace) && log == old(log)
    {
      if parsed.Failure? {
        return Some(parsed.error);
      }
      IpamExecDel(parsed.value.ipamType, args.stdinData);
      return release;
    }
  }

  /** cmdCheck: a configuration that does not parse gives its parse error;
      any other fails as not implemented. CHECK never succeeds. */
  function CmdCheck(parsed: Result<NetConf>): (err: Option<Error>)
    ensures err.Some?
    ensures parsed.Success? ==> err == Some(Plugin(NotImplemented))
    ensures parsed.Failure? ==> err == Some(parsed.error)
  {
    match parsed
    case Failure(e) => Some(e)
    case Success(_) => Some(Plugin(NotImplemented))
  }
}
