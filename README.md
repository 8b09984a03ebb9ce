# toycni in Dafny

A model of the core of toycni, a minimal CNI (Container Network Interface)
plugin written in Go. On ADD the plugin makes sure a Linux bridge exists and
is up. It then asks an IPAM plugin for an address and creates a veth pair
between the container's network namespace and the bridge. It addresses the
container end, routes the container through the gateway, and reports a CNI
0.4.0 result. On DEL it only asks the IPAM plugin to release the address.
CHECK is not implemented.

Every change the plugin makes to the host goes through one `ip` command
line. The command is built by `ipHost` or `ipContainer`, logged by `run`,
then executed. The model keeps that shape:

- `Cni` (cni.dfy): the configuration, invocation arguments, result
  records, IPAM answers and the plugin's errors. An error the plugin makes
  with `errors.New` is `Plugin(reason)`, and `ReasonText` holds its message.
- `Text` (text.dfy): `strings.Split` and `strings.Join` on one space, and
  `filepath.Base`, with the round trips between split and join.
- `Util` (util.go → util.dfy):
  - `GenerateMac` fills a six-byte buffer, sets bit 0x02 of the first byte
    in place and prints the buffer as `%02x` groups.
  - `RandStringBytes` fills a buffer from the 62-character alphabet.
  - The random source is an input: the outcome of `rand.Read` and the
    values of `rand.Intn`.
- `Orchestration` (main.go → orchestration.dfy): specification functions
  for what each operation does to the host, given an oracle `answer`.
  `answer(k)` says whether the k-th command executed on the host succeeds.
  - `BridgeRun` and `VethRun` give the commands run, the lines logged and
    the error returned.
  - `AddRun` gives the same for cmdAdd, plus the IPAM calls made and the
    result.
  - The lemmas about these functions state what the plugin promises:
    ordering, stopping at the first fatal failure, if-and-only-if success
    conditions, and that a failure after allocation releases the address
    exactly once.
- `Plugin` (main.go, util.go → plugin.dfy): the operations as imperative
  methods of a `Host` class.
  - The class holds the log, the trace of executed argument vectors and the
    IPAM calls, all of which the methods update.
  - Each method's `ensures` ties the new state and its result to the
    specification function, for instance `trace == old(trace) +
    Argvs(o.cmds)`.

Two behaviours of the code worth knowing, both modelled as written:

- With an IPAM answer that holds no address, cmdAdd still releases the
  allocation: `success` is cleared before the return at main.go:74-77
  (`AddZeroIpsNoVeth`).
- The container-end up and address steps of setupVeth return the `ip`
  command's own error, main.go:196-202 (`CommandFailed`, see
  `VethStepError`).

## Model

| member | source | states |
|---|---|---|
| Text.SplitNoSpaces | main.go:113 | no piece of `strings.Split(v, " ")` contains a space |
| Text.JoinSplit | main.go:113 | joining the pieces of a split with single spaces gives the original argument back |
| Text.SplitJoin | main.go:113 | splitting the join of space-free pieces gives those pieces back |
| Text.JoinSplitAll | main.go:112-114 | splitting every argument and joining all the pieces gives the arguments joined by spaces |
| Text.Base | main.go:119 | the namespace name is never empty and holds no '/' unless it is "/" |
| Text.BaseOfPath | main.go:119 | the base of "dir/name" is `name` when `name` is non-empty and has no '/' |
| Text.BaseOfName | main.go:119 | a non-empty name without '/' is its own base |
| Text.BaseIgnoresTrailingSlash | main.go:119 | a trailing '/' does not change the base of a non-empty path |
| Plugin.ArgSlice | main.go:111-114 | the loop leaves the prefix followed by the split pieces of every argument, in argument order |
| Orchestration.HostArgvLine | main.go:110-116 | the argument vector of ipHost starts with "ip" and has no element with a space; its join equals "ip" and the arguments as given |
| Orchestration.ContainerArgvLine | main.go:118-125 | the vector of ipContainer starts with `ip netns exec <Base(path)> ip`; its join equals that prefix and the arguments as given |
| Orchestration.ArgvLine | util.go:37 | the logged line of a command is its executed argument vector joined by spaces |
| Orchestration.LogOfArgvs | util.go:36-41 | the i-th log line is the i-th executed argument vector joined by spaces: the log records exactly what runs |
| Plugin.Host.Run | util.go:36-41 | run logs the joined arguments, then executes them; it succeeds as the oracle says and changes nothing else |
| Plugin.Host.IpHost | main.go:110-116 | one command runs, with argument vector `ip` plus the split arguments, and its line is logged |
| Plugin.Host.IpContainer | main.go:118-125 | one command runs through `ip netns exec` in the namespace named by the path's last element, and its line is logged |
| Plugin.Host.BridgeExists | main.go:127-132 | runs `ip link show <bridge>`; the bridge exists exactly when that command succeeds |
| Plugin.Host.SetupBridge | main.go:134-165 | commands, log and error are those of BridgeRun; IPAM is untouched |
| Orchestration.BridgeLogRecordsCommands | main.go:134-165 | every command setupBridge runs is logged in order; the only other line is the "bridge already exists" note |
| Orchestration.BridgeExistingShortCircuits | main.go:135-139 | an existing bridge is taken as configured: only the probe runs and setupBridge succeeds |
| Orchestration.BridgeCreateFailureStops | main.go:141-144 | a failed create runs nothing more and fails with "failed to create bridge" |
| Orchestration.BridgeNewSequence | main.go:141-162 | a new bridge is created, addressed, given the generated hardware address and brought up, in that order |
| Orchestration.BridgeSucceedsIff | main.go:134-165 | setupBridge succeeds if and only if the bridge exists, or its creation, the random read and bringing it up all succeed |
| Orchestration.BridgeIgnoresAddressAndMacOutcomes | main.go:146-158 | the outcomes of the address and hardware-address commands do not change anything setupBridge does or returns |
| Plugin.Host.CreatePair | main.go:179-185 | creates the pair in the container and moves the host end out, stopping at the first failure with its error |
| Plugin.Host.ConfigureHostEnd | main.go:187-193 | brings the host end up and attaches it to the bridge, stopping at the first failure with its error |
| Plugin.Host.ConfigureContainerEnd | main.go:195-206 | brings the container end up, addresses it and adds the default route, stopping at the first failure with its error |
| Plugin.Host.SetupVeth | main.go:167-208 | interfaces, commands, log and error are those of VethRun for the drawn suffix |
| Orchestration.VethLogRecordsCommands | main.go:167-208 | every command setupVeth runs is logged, in order, and nothing else is |
| Orchestration.VethStopsAtFirstFailure | main.go:179-207 | when step i is the first to fail, exactly the first i+1 commands of the seven-step plan ran |
| Orchestration.VethFirstFailureError | main.go:179-206 | when step i is the first to fail, setupVeth returns step i's error |
| Orchestration.VethSucceedsIff | main.go:179-207 | setupVeth succeeds if and only if all seven commands succeed |
| Orchestration.VethSuccessRunsPlan | main.go:179-207 | a successful setupVeth ran the whole plan in order |
| Orchestration.VethDescriptors | main.go:169-178 | on every path the host interface is "veth" plus five letters or digits with no sandbox, and the container interface carries the requested name and the namespace |
| Orchestration.HostNameDistinct | main.go:169-178 | the host-side name differs from the container-side name unless that name itself has the shape "veth" plus five characters |
| Orchestration.RandomSuffix | main.go:170 | five draws below 62 give five letters or digits |
| Plugin.Host.CmdAdd | main.go:33-90 | result, commands, log and IPAM calls are those of AddRun |
| Plugin.Host.AllocateAndWire | main.go:50-89 | after setupBridge: result, commands, log and IPAM calls are those of AllocationRun, including the deferred release |
| Orchestration.AllocationLogRecordsCommands | main.go:50-89 | after setupBridge, ADD logs every command it runs, in order, and nothing else |
| Orchestration.AddReleasesExactlyOnceAfterAllocation | main.go:56-87 | the allocation is released exactly once when ADD fails after IPAM allocated, and never otherwise; every IPAM call names the configured plugin and forwards stdin |
| Orchestration.AddEarlyFailureNoRelease | main.go:47-54 | a failure of setupBridge or of the IPAM call returns that error, runs nothing more and releases nothing |
| Orchestration.AddZeroIpsNoVeth | main.go:74-77 | an IPAM answer with no address fails with "IPAM plugin returned missing IP config", runs no veth command and releases the allocation |
| Orchestration.AddSucceedsIff | main.go:47-89 | ADD succeeds if and only if the bridge is ready, IPAM allocated at least one address and setupVeth succeeds for the first one |
| Orchestration.AddVethCommands | main.go:78-82 | once addresses are allocated, the veth commands for the first address follow the bridge commands |
| Orchestration.AddSuccessCommands | main.go:78-89 | a successful ADD ran the bridge commands followed by the whole veth plan |
| Orchestration.AddSuccessReport | main.go:36-89 | a successful ADD releases nothing and reports version 0.4.0, the host and container interfaces, the IPAM addresses and routes, and the configured DNS |
| Orchestration.AddVethFailureReleases | main.go:56-86 | a veth failure fails ADD with setupVeth's error and releases the allocation once |
| Orchestration.AddAsWrittenDiffersOnlyOnParseFailure | main.go:33-48 | ADD as written (AddRunAsWritten) crashes on a configuration that does not parse, where the model returns the parse error; on a parsed configuration the two give the same outcome |
| Orchestration.AddParseFailureReported | main.go:34-43 | corrected: a configuration that does not parse is returned as the error, before any command or IPAM call |
| Plugin.Host.CmdDel | main.go:92-100 | DEL returns the parse error, or else calls the IPAM release once and returns its outcome unchanged; no command runs |
| Plugin.CmdCheck | main.go:102-108 | CHECK never succeeds: the parse error, or else "not implemented" |
| Util.LetterBytesAlphabet | util.go:23 | the alphabet has 62 characters, each an ASCII letter or decimal digit |
| Util.RandStringBytes | util.go:27-33 | the buffer loop yields RandomLetters(draws): the alphabet character at each draw, in draw order, n of them; each is a letter or digit |
| Util.GenerateMac | util.go:11-21 | a failed read gives "" and its error; otherwise the text is six hex groups whose bytes are the read bytes with bit 0x02 of the first set |
| Util.SetBit1Bits | util.go:19 | setting bit 0x02 of a byte turns that bit on and keeps bit 0x01 and the bits above 0x02 |
| Util.LocallyAdministeredBits | util.go:18-19 | the buffer after setting bit 0x02 of its first byte has the local bit on, the multicast bit and the other bits as drawn, and bytes 1-5 unchanged |
| Util.HexByteRoundTrip | util.go:20 | a byte printed with `%02x` reads back as the same byte |
| Util.PairValueRoundTrip | util.go:20 | two lower-case hex digits read as a byte print back as the same digits |
| Util.HexGroupsRoundTrip | util.go:20 | bytes printed as colon-separated `%02x` groups are well-formed and parse back to the bytes |
| Util.ParseHexGroupsRoundTrip | util.go:20 | well-formed groups are the printing of what they parse to |
| Util.FormatMacRoundTrip | util.go:20 | the address text is 17 characters of hex groups and parses back to the six bytes |
| Util.ParseMacRoundTrip | util.go:20 | every well-formed address text is the printing of its six bytes |

## Left out

- Command execution: whether each `ip` command succeeds is the oracle `answer`, indexed by command number. Process creation and exit codes are not modelled. The effect on the kernel's links, addresses and routes is not modelled either; only the trace of argument vectors is.
- Command errors: an `ip` command's error is `CommandFailed`. The exec error's text is not modelled.
- IPAM: `ipam.ExecAdd`, `ipam.ExecDel` and `current.NewResultFromResult` are external. Their outcomes are inputs (`Allocation` for ADD, the release outcome for DEL), and the calls are recorded in `ipamCalls`.
- Configuration: parseNetConf (conf.go) is not part of this model. Its outcome is an input `Result<NetConf>`.
- Output and startup: `types.PrintResult`, `skel.PluginMain`, opening the log file and seeding the random source are not modelled. CmdAdd returns the result it would print.
- IP text: containerIp and gwIP enter as the text that `String()` prints.
- Concurrency: several plugin invocations running at once are not modelled. The ignored outcomes of the bridge address and hardware-address commands are modelled; the race they tolerate is not.
- Randomness: GenerateMac and RandStringBytes take the outcome of `rand.Read` and the values of `rand.Intn` as inputs.
- Plugin.Host.CmdAdd: the part after setupBridge (the IPAM call, the `success` flag and the deferred release) is the method AllocateAndWire, specified by AllocationRun. The Go code has it inline in cmdAdd.
- Plugin.Host.SetupVeth: its three phases are the methods CreatePair, ConfigureHostEnd and ConfigureContainerEnd. The Go code has one body.
- Util.SetBit1Bits: the byte `|` is stated on the byte's value (bit 0x02 on, the rest unchanged) rather than on bit vectors.

## Findings

| source | as written | input that shows it | evidently intended | confidence | as-written member | corrected member |
|---|---|---|---|---|---|---|
| main.go:34-43 | cmdAdd assigns parseNetConf's error to `err` and never reads it; on failure `conf` is nil (conf.go:19), and building the result reads `conf.DNS` | stdin that is not valid JSON, such as `{` | return the parse error, as cmdDel and cmdCheck do | not executed | Orchestration.AddAsWrittenDiffersOnlyOnParseFailure | Orchestration.AddParseFailureReported |
