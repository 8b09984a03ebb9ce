/** The values a CNI plugin invocation works with: the parsed network
    configuration, the invocation arguments, the interface, address and
    route records of a CNI 0.4.0 result, and the errors the plugin returns. */
module Cni {

  datatype Option<+T> = None | Some(value: T)

  /** The failures the plugin reports with an error of its own making. */
  datatype Reason =
    | BridgeCreateFailed
    | BridgeUpFailed
    | VethCreateFailed
    | VethMoveFailed
    | HostUpFailed
    | HostAttachFailed
    | DefaultRouteFailed
    | MissingIpConfig
    | NotImplemented

  /** The message the plugin gives each of its own errors. */
  function ReasonText(r: Reason): (text: string)
  {
    match r
    case BridgeCreateFailed => "failed to create bridge"
    case BridgeUpFailed => "failed to bring bridge up"
    case VethCreateFailed => "failed to create veth pair in container"
    case VethMoveFailed => "failed to move host interface to root network namespace"
    case HostUpFailed => "failed to bring host interface of veth pair up"
    case HostAttachFailed => "failed to connect host interface of veth pair to bridge"
    case DefaultRouteFailed => "failed to set bridge as default gateway in container"
    case MissingIpConfig => "IPAM plugin returned missing IP config"
    case NotImplemented => "not implemented"
  }

  /** An error value. `Plugin` is an error the plugin makes itself with
      errors.New, its message being ReasonText(reason); `CommandFailed` is
      the error of an `ip` command that exited unsuccessfully; `External`
      is an error handed back by a collaborator (the configuration parser,
      the random source, IPAM). */
  datatype Error = Plugin(reason: Reason) | CommandFailed | External(text: string)

  datatype Result<+T> = Success(value: T) | Failure(error: Error)

  /** The DNS block passed through from the configuration to the result. */
  datatype Dns = Dns(nameservers: seq<string>, domain: string, search: seq<string>, options: seq<string>)

  /** The network configuration read from standard input: the fields of the
      CNI network configuration the plugin uses (the IPAM plugin type and the
      DNS block) and its own three fields. */
  datatype NetConf = NetConf(
    ipamType: string,
    dns: Dns,
    bridgeName: string,
    bridgeCidr: string,
    externalInterface: string)

  /** The arguments of one invocation: the network namespace path, the name
      the runtime wants for the container's interface, and the raw
      configuration bytes (kept as text) that are forwarded to IPAM. */
  datatype CmdArgs = CmdArgs(netns: string, ifName: string, stdinData: string)

  /** An interface of a CNI result. `sandbox` is the namespace path, empty
      for an interface on the host. */
  datatype Interface = Interface(name: string, mac: string, sandbox: string)

  /** An allocated address in CIDR text and its gateway, as IPAM reports them. */
  datatype IPConfig = IPConfig(address: string, gateway: string)

  datatype Route = Route(dst: string, gw: string)

  /** The CNI result printed by a successful ADD. */
  datatype AddResult = AddResult(
    cniVersion: string,
    interfaces: seq<Interface>,
    ips: seq<IPConfig>,
    routes: seq<Route>,
    dns: Dns)

  /** The CNI specification version of the result type the plugin builds. */
  const ImplementedSpecVersion: string := "0.4.0"

  /** What the IPAM plugin and the conversion of its answer to the current
      result type yield on ADD: the delegated call fails, or its answer
      cannot be converted, or it allocated these addresses and routes. */
  datatype Allocation =
    | ExecFailed(execError: Error)
    | ConvertFailed(convertError: Error)
    | Allocated(ips: seq<IPConfig>, routes: seq<Route>)

  /** One invocation of the IPAM plugin: its type and the stdin it was given. */
  datatype IpamCall = IpamAdd(plugin: string, stdin: string) | IpamDel(plugin: string, stdin: string)
}
