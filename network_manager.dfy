/**
 * The network attachment table (network_manager.py): one TAP interface per
 * VM, addressed from an IPv4 network, with NAT rules that give the guest a
 * route out through the host's default interface. Every `ip`, `iptables` and
 * `sysctl` invocation goes through the host machine, so the model records
 * which commands were issued and what each operation concluded from their
 * outcomes.
 */
module NetworkManager {
  import opened Wrappers
  import opened Text
  import opened Host
  import opened Ipv4
  import opened DefaultRoute
  import opened OrderedDict

  /** The record kept per VM in `active_interfaces`. */
  datatype InterfaceInfo = InterfaceInfo(tapName: string, cidr: string, gatewayIp: string, vmIp: string)

  /** Why construction refuses a configured network. */
  datatype ConfigError =
    | InvalidCidr     // `ValueError("Invalid network CIDR: ...")`, from an AddressValueError
    | InvalidNetmask  // the NetmaskValueError itself, which is not caught
    | NotPrivate      // `ValueError("Network must be private: ...")`

  /** Exceptions that escape an operation instead of being turned into a result. */
  datatype Raised = AddressValueErrorRaised | NetmaskValueErrorRaised | OsErrorRaised

  /** `_validate_network_config`: the configured network must parse and be private. */
  function ValidateNetworkConfig(cidr: string): (r: Result<Network, ConfigError>)
    ensures r.Ok? <==> ParseNetwork(cidr).Ok? && IsPrivate(ParseNetwork(cidr).value)
    ensures r.Ok? ==> r.value == ParseNetwork(cidr).value
    ensures r == Err(NotPrivate) <==> ParseNetwork(cidr).Ok? && !IsPrivate(ParseNetwork(cidr).value)
    ensures r == Err(InvalidNetmask) <==> ParseNetwork(cidr) == Err(NetmaskValueError)
  {
    match ParseNetwork(cidr)
    case Err(AddressValueError) => Err(InvalidCidr)
    case Err(NetmaskValueError) => Err(InvalidNetmask)
    case Ok(n) => if IsPrivate(n) then Ok(n) else Err(NotPrivate)
  }

  /** The shipped default network, 172.50.0.0/24, is refused: it is not private. */
  lemma DefaultNetworkRefused()
    ensures ValidateNetworkConfig("172.50.0.0/24") == Err(NotPrivate)
  {
    DefaultNetworkParses();
    DefaultNetworkNotPrivate();
  }

  function TapName(vmId: string): string {
    "tap" + vmId
  }

  datatype RuleOp = Append | Delete  // iptables -A / -D

  /** The commands the network manager runs. */
  datatype NetCommand =
    | TunTapAdd(tap: string)
    | AddrAdd(address: string, tap: string)
    | SetMtu(tap: string)
    | LinkUp(tap: string)
    | SetForwarding(on: bool)
    | ShowDefaultRoute
    | Masquerade(op: RuleOp, network: string, iface: string)
    | ForwardOut(op: RuleOp, tap: string, iface: string)
    | ForwardIn(op: RuleOp, iface: string, tap: string)
    | LinkDelete(tap: string)
    | LinkShow(tap: string)
    | AddrShow(tap: string)
    | ReadForwarding

  /** The argument vector each command stands for. */
  function Argv(c: NetCommand): seq<string> {
    match c
    case TunTapAdd(tap) => ["sudo", "ip", "tuntap", "add", "dev", tap, "mode", "tap"]
    case AddrAdd(address, tap) => ["sudo", "ip", "addr", "add", address, "dev", tap]
    case SetMtu(tap) => ["sudo", "ip", "link", "set", "dev", tap, "mtu", "1500"]
    case LinkUp(tap) => ["sudo", "ip", "link", "set", "dev", tap, "up"]
    case SetForwarding(on) => ["sudo", "sysctl", "-w", if on then "net.ipv4.ip_forward=1" else "net.ipv4.ip_forward=0"]
    case ShowDefaultRoute => ["ip", "route", "show", "default"]
    case Masquerade(op, network, iface) =>
      ["sudo", "iptables", "-t", "nat", OpFlag(op), "POSTROUTING", "-s", network, "-o", iface, "-j", "MASQUERADE"]
    case ForwardOut(op, tap, iface) => ["sudo", "iptables", OpFlag(op), "FORWARD", "-i", tap, "-o", iface, "-j", "ACCEPT"]
    case ForwardIn(op, iface, tap) =>
      ["sudo", "iptables", OpFlag(op), "FORWARD", "-i", iface, "-o", tap, "-m", "state", "--state", "RELATED,ESTABLISHED", "-j", "ACCEPT"]
    case LinkDelete(tap) => ["sudo", "ip", "link", "delete", tap]
    case LinkShow(tap) => ["ip", "link", "show", tap]
    case AddrShow(tap) => ["ip", "addr", "show", tap]
    case ReadForwarding => ["sysctl", "net.ipv4.ip_forward"]
  }

  function OpFlag(op: RuleOp): string {
    if op == Append then "-A" else "-D"
  }

  /** The four interface commands of `setup_tap_interface`, in order. */
  function TapCommands(tap: string, address: string): seq<NetCommand> {
    [TunTapAdd(tap), AddrAdd(address, tap), SetMtu(tap), LinkUp(tap)]
  }

  /**
   * The three NAT rules for a TAP interface: MASQUERADE for the network's
   * outbound traffic, and a FORWARD rule each way.
   */
  function NatRules(op: RuleOp, network: string, tap: string, iface: string): seq<NetCommand> {
    [Masquerade(op, network, iface), ForwardOut(op, tap, iface), ForwardIn(op, iface, tap)]
  }

  /** What `setup_tap_interface` does: its result, the commands it issued and the record it stores. */
  datatype TapSetup = TapSetup(result: Result<Option<string>, Raised>, issued: seq<NetCommand>, entry: Option<InterfaceInfo>)

  /**
   * `setup_tap_interface` for the network text `cidr`, which `ipaddress`
   * parsed as `parsed`. A bad address and an address past 255.255.255.255
   * give None; a bad mask raises; a failing command gives None; a command
   * that cannot start raises.
   */
  function PlanTapSetup(vmId: string, cidr: string, parsed: Result<Network, IpError>, host: Machine<NetCommand>): (r: TapSetup)
    ensures r.entry.Some? <==> r.result.Ok? && r.result.value.Some?
    ensures r.entry.Some? ==> r.result.value.value == TapName(vmId) && r.entry.value.tapName == TapName(vmId) && r.entry.value.cidr == cidr
    ensures r.result == Err(NetmaskValueErrorRaised) <==> parsed == Err(NetmaskValueError)
    ensures parsed.Err? ==> r.issued == [] && r.entry.None?
    ensures |r.issued| <= 4 && (r.issued != [] ==> r.issued[0] == TunTapAdd(TapName(vmId)))
  {
    var tap := TapName(vmId);
    match parsed
    case Err(AddressValueError) => TapSetup(Ok(None), [], None)
    case Err(NetmaskValueError) => TapSetup(Err(NetmaskValueErrorRaised), [], None)
    case Ok(n) =>
      match AddOffset(n.address, 1)
      case Err(_) => TapSetup(Ok(None), [], None)
      case Ok(gateway) =>
        var run := RunChecked(TapCommands(tap, GatewayText(n)), host);
        if run.status == OsError then TapSetup(Err(OsErrorRaised), run.issued, None)
        else if run.status == CalledProcessError then TapSetup(Ok(None), run.issued, None)
        else
          match AddOffset(n.address, 2)
          case Err(_) => TapSetup(Ok(None), run.issued, None)
          case Ok(guest) =>
            TapSetup(Ok(Some(tap)), run.issued, Some(InterfaceInfo(tap, cidr, FormatAddress(gateway), FormatAddress(guest))))
  }

  /** The address given to the TAP interface: the network address + 1, with the network's prefix length. */
  function GatewayText(n: Network): string
    requires n.address + 1 < AddressSpace
  {
    FormatAddress(n.address + 1) + "/" + NatToString(n.prefixLen)
  }

  /** A record is stored exactly when the TAP name is returned. */
  lemma TapSetupStoresOnlyOnSuccess(vmId: string, cidr: string, parsed: Result<Network, IpError>, host: Machine<NetCommand>)
    ensures var plan := PlanTapSetup(vmId, cidr, parsed, host);
      plan.entry.Some? <==> (plan.result.Ok? && plan.result.value.Some?)
  {
  }

  /**
   * On success the interface is "tap" + vm id, all four commands ran, and
   * the record holds the network text as given, the gateway (network
   * address + 1) and the guest (network address + 2), whose texts read
   * back as those addresses.
   */
  lemma TapSetupSuccess(vmId: string, cidr: string, parsed: Result<Network, IpError>, host: Machine<NetCommand>)
    requires PlanTapSetup(vmId, cidr, parsed, host).result.Ok? && PlanTapSetup(vmId, cidr, parsed, host).result.value.Some?
    ensures parsed.Ok? && parsed.value.address + 2 < AddressSpace
    ensures var n := parsed.value;
      var plan := PlanTapSetup(vmId, cidr, parsed, host);
      var e := plan.entry.value;
      && plan.result.value.value == TapName(vmId)
      && plan.issued == TapCommands(TapName(vmId), GatewayText(n))
      && e == InterfaceInfo(TapName(vmId), cidr, FormatAddress(n.address + 1), FormatAddress(n.address + 2))
  {
  }

  /**
   * Both addresses lie inside networks of four or more addresses; on a /31
   * or /32 network the guest address lies outside the network.
   */
  lemma StoredAddressesPlacement(n: Network)
    requires ValidNetwork(n) && n.address + 2 < AddressSpace
    ensures n.prefixLen <= 30 ==> InNetwork(n.address + 1, n) && InNetwork(n.address + 2, n)
    ensures n.prefixLen > 30 ==> !InNetwork(n.address + 2, n)
  {
    if n.prefixLen <= 30 {
      GatewayAndGuestInside(n);
    } else {
      Pow2Table();
      assert HostCount(n.prefixLen) <= 2;
    }
  }

  /** For every network of four or more addresses, a host that runs every command makes setup succeed. */
  lemma TapSetupSucceedsOnWorkingHost(vmId: string, cidr: string, n: Network, host: Machine<NetCommand>)
    requires ValidNetwork(n) && n.prefixLen <= 30
    requires forall c :: Succeeds(host, c)
    ensures PlanTapSetup(vmId, cidr, Ok(n), host).result == Ok(Some(TapName(vmId)))
  {
    GatewayAndGuestInside(n);
  }

  /**
   * A TAP interface on 255.255.255.254/31 is created and brought up, but the
   * guest address overflows afterwards: None is returned, nothing is
   * recorded, and the interface is left behind.
   */
  lemma TapLeakedOnLastPair(vmId: string, cidr: string, host: Machine<NetCommand>)
    requires forall c :: Succeeds(host, c)
    ensures var plan := PlanTapSetup(vmId, cidr, Ok(Network(4294967294, 31)), host);
      && plan.result == Ok(None)
      && plan.entry.None?
      && plan.issued == TapCommands(TapName(vmId), GatewayText(Network(4294967294, 31)))
  {
  }

  /** What `setup_nat_routing` does: its result and the commands it issued. */
  datatype NatSetup = NatSetup(result: Result<bool, Raised>, issued: seq<NetCommand>)

  /**
   * `setup_nat_routing` with the configured network `n`: forwarding is
   * switched on, the default interface looked up, and the three rules added
   * for `n`. False when a command fails or no default interface is found; a
   * command that cannot start raises.
   */
  function PlanNatSetup(tap: string, n: Network, host: Machine<NetCommand>): (r: NatSetup)
    requires n.prefixLen <= 32
    ensures 1 <= |r.issued| <= 5 && r.issued[0] == SetForwarding(true)
    ensures r.result == Ok(true) ==> |r.issued| == 5 && r.issued[1] == ShowDefaultRoute
    ensures SetForwarding(false) !in r.issued
  {
    var on := RunChecked([SetForwarding(true)], host);
    if on.status == OsError then NatSetup(Err(OsErrorRaised), on.issued)
    else if on.status == CalledProcessError then NatSetup(Ok(false), on.issued)
    else
      match DefaultInterfaceFrom(host(ShowDefaultRoute))
      case Err(_) => NatSetup(Err(OsErrorRaised), [SetForwarding(true), ShowDefaultRoute])
      case Ok(None) => NatSetup(Ok(false), [SetForwarding(true), ShowDefaultRoute])
      case Ok(Some(iface)) =>
        var rules := RunChecked(NatRules(Append, FormatNetwork(n), tap, iface), host);
        NatSetup(if rules.status == AllSucceeded then Ok(true) else if rules.status == OsError then Err(OsErrorRaised) else Ok(false),
                 [SetForwarding(true), ShowDefaultRoute] + rules.issued)
  }

  /**
   * NAT set-up reports True exactly when forwarding was switched on, a
   * default interface was found and all three rules for the configured
   * network were added, in that order.
   */
  lemma NatSetupTrueIff(tap: string, n: Network, host: Machine<NetCommand>)
    requires n.prefixLen <= 32
    ensures var plan := PlanNatSetup(tap, n, host);
      var q := DefaultInterfaceFrom(host(ShowDefaultRoute));
      plan.result == Ok(true) <==>
        && Succeeds(host, SetForwarding(true))
        && q.Ok? && q.value.Some?
        && (forall k :: 0 <= k < 3 ==> Succeeds(host, NatRules(Append, FormatNetwork(n), tap, q.value.value)[k]))
    ensures var plan := PlanNatSetup(tap, n, host);
      var q := DefaultInterfaceFrom(host(ShowDefaultRoute));
      plan.result == Ok(true) ==>
        plan.issued == [SetForwarding(true), ShowDefaultRoute] + NatRules(Append, FormatNetwork(n), tap, q.value.value)
  {
  }

  /** Without a default route, forwarding stays switched on and no rule is added. */
  lemma NatSetupWithoutDefaultRoute(tap: string, n: Network, host: Machine<NetCommand>)
    requires n.prefixLen <= 32
    requires Succeeds(host, SetForwarding(true)) && DefaultInterfaceFrom(host(ShowDefaultRoute)) == Ok(None)
    ensures PlanNatSetup(tap, n, host) == NatSetup(Ok(false), [SetForwarding(true), ShowDefaultRoute])
  {
  }

  /**
   * The clean-up half of `cleanup_networking`: the commands issued for a
   * stored record and whether the record is then dropped (false when an
   * exception was swallowed on the way).
   */
  datatype Cleanup = Cleanup(issued: seq<NetCommand>, removed: bool)

  /**
   * `cleanup_networking` for a stored record whose network text `ipaddress`
   * parsed as `stored`: the NAT rules are rebuilt from that network (not
   * from the configuration) and deleted ignoring exit statuses, then the
   * TAP interface is deleted the same way, and the record is dropped. An
   * exception on the way (a command that cannot start, a network text that
   * does not parse) is logged and the record kept.
   */
  function PlanCleanup(info: InterfaceInfo, stored: Result<Network, IpError>, host: Machine<NetCommand>): (r: Cleanup)
    requires stored.Ok? ==> stored.value.prefixLen <= 32
    ensures SetForwarding(false) !in r.issued
  {
    match DefaultInterfaceFrom(host(ShowDefaultRoute))
    case Err(_) => Cleanup([ShowDefaultRoute], false)
    case Ok(iface) =>
      if iface.Some? && stored.Err? then Cleanup([ShowDefaultRoute], false)
      else
        var rules :=
          if iface.None? then Run([], AllSucceeded)
          else RunUnchecked(NatRules(Delete, FormatNetwork(stored.value), info.tapName, iface.value), host);
        if rules.status == OsError then Cleanup([ShowDefaultRoute] + rules.issued, false)
        else
          var del := RunUnchecked([LinkDelete(info.tapName)], host);
          Cleanup([ShowDefaultRoute] + rules.issued + del.issued, del.status == AllSucceeded)
  }

  /**
   * On a host where every command starts, clean-up of a record whose network
   * text parses deletes the rules, deletes the interface and drops the record.
   */
  lemma CleanupCompletes(info: InterfaceInfo, n: Network, host: Machine<NetCommand>)
    requires n.prefixLen <= 32
    requires forall c :: host(c).Completed?
    ensures PlanCleanup(info, Ok(n), host).removed
    ensures var q := DefaultInterfaceFrom(host(ShowDefaultRoute));
      && q.Ok?
      && PlanCleanup(info, Ok(n), host).issued ==
        [ShowDefaultRoute]
        + (if q.value.Some? then NatRules(Delete, FormatNetwork(n), info.tapName, q.value.value) else [])
        + [LinkDelete(info.tapName)]
  {
  }

  /**
   * Set-up and clean-up are partners: the interface that a successful
   * set-up created is the one its record's clean-up deletes, last.
   */
  lemma CleanupDeletesCreatedTap(vmId: string, cidr: string, n: Network, host: Machine<NetCommand>)
    requires ValidNetwork(n)
    requires PlanTapSetup(vmId, cidr, Ok(n), host).entry.Some?
    requires forall c :: host(c).Completed?
    ensures var setup := PlanTapSetup(vmId, cidr, Ok(n), host);
      var cleanup := PlanCleanup(setup.entry.value, Ok(n), host);
      && setup.issued[0] == TunTapAdd(TapName(vmId))
      && cleanup.removed
      && cleanup.issued[|cleanup.issued| - 1] == LinkDelete(TapName(vmId))
  {
    TapSetupStoresOnlyOnSuccess(vmId, cidr, Ok(n), host);
    TapSetupSuccess(vmId, cidr, Ok(n), host);
    CleanupCompletes(PlanTapSetup(vmId, cidr, Ok(n), host).entry.value, n, host);
  }

  /**
   * The MASQUERADE rule deleted is the one `setup_nat_routing` added exactly
   * when the record's network is the configured network.
   */
  lemma CleanupRulesMatchSetup(stored: Network, configured: Network, tap: string, iface: string)
    requires ValidNetwork(stored) && ValidNetwork(configured)
    ensures (NatRules(Delete, FormatNetwork(stored), tap, iface)[0].network
             == NatRules(Append, FormatNetwork(configured), tap, iface)[0].network) <==> stored == configured
  {
    if FormatNetwork(stored) == FormatNetwork(configured) {
      ParseFormatNetwork(stored);
      ParseFormatNetwork(configured);
    }
  }

  /** The report `validate_network_connectivity` returns: the vm id and its flags. */
  datatype Connectivity = Connectivity(
    vmId: string,
    tapInterfaceExists: bool,
    tapInterfaceUp: bool,
    gatewayIpAssigned: bool,
    ipForwardingEnabled: bool,
    defaultRouteAvailable: bool)

  /** The report for `vm_id` before any check has run: every flag false. */
  function NoConnectivity(vmId: string): Connectivity {
    Connectivity(vmId, false, false, false, false, false)
  }

  /**
   * `validate_network_connectivity` for a stored record: each check fills in
   * its flags; a command that cannot start stops the checks and the flags
   * found so far are returned.
   */
  function ProbeConnectivity(vmId: string, info: InterfaceInfo, host: Machine<NetCommand>): (r: Connectivity)
    ensures r.vmId == vmId
    ensures r.tapInterfaceUp ==> r.tapInterfaceExists
    ensures r.gatewayIpAssigned ==>
      host(AddrShow(info.tapName)).Completed? && Contains(host(AddrShow(info.tapName)).stdout, info.gatewayIp)
  {
    match host(LinkShow(info.tapName))
    case Unstartable => NoConnectivity(vmId)
    case Completed(code, out) =>
      var r1 := if code == 0 then NoConnectivity(vmId).(tapInterfaceExists := true, tapInterfaceUp := Contains(out, "UP")) else NoConnectivity(vmId);
      match host(AddrShow(info.tapName))
      case Unstartable => r1
      case Completed(code2, out2) =>
        var r2 := r1.(gatewayIpAssigned := code2 == 0 && Contains(out2, info.gatewayIp));
        match host(ReadForwarding)
        case Unstartable => r2
        case Completed(code3, out3) =>
          var r3 := r2.(ipForwardingEnabled := code3 == 0 && Contains(out3, "net.ipv4.ip_forward = 1"));
          match DefaultInterfaceFrom(host(ShowDefaultRoute))
          case Err(_) => r3
          case Ok(iface) => r3.(defaultRouteAvailable := iface.Some?)
  }

  class NetworkManager {
    /** `config.vm.network_cidr`, fixed for the manager's lifetime. */
    const networkCidr: string
    /** The configured network, as `ipaddress` parsed it when the manager was made. */
    const network: Network
    /** `active_interfaces`: vm id to its TAP record, in attachment order. */
    var activeInterfaces: Dict<InterfaceInfo>

    /** Every record names "tap" + its vm id. */
    predicate Valid()
      reads this
    {
      && ValidNetwork(network)
      && activeInterfaces.Valid()
      && forall k :: k in activeInterfaces.entries ==> activeInterfaces.entries[k].tapName == TapName(k)
    }

    /** `NetworkManager(config)` once `_validate_network_config` has accepted the network. */
    constructor (cidr: string)
      requires ValidateNetworkConfig(cidr).Ok?
      ensures Valid()
      ensures networkCidr == cidr && Ok(network) == ParseNetwork(cidr) && IsPrivate(network)
      ensures activeInterfaces == Empty()
    {
      networkCidr := cidr;
      network := ParseNetwork(cidr).value;
      activeInterfaces := Empty();
    }

    /**
     * `setup_tap_interface`: the configured network is used when none is
     * given; on success the record is stored under the vm id (replacing any
     * earlier one) and the TAP name returned; otherwise the table is left
     * as it was.
     */
    method SetupTapInterface(vmId: string, cidr: Option<string>, host: Machine<NetCommand>)
      returns (result: Result<Option<string>, Raised>, issued: seq<NetCommand>)
      requires Valid()
      modifies this
      ensures Valid()
      ensures var text := cidr.GetOr(networkCidr);
        var plan := PlanTapSetup(vmId, text, ParseNetwork(text), host);
        && result == plan.result && issued == plan.issued
        && activeInterfaces == (if plan.entry.Some? then old(activeInterfaces).Put(vmId, plan.entry.value) else old(activeInterfaces))
    {
      var text := if cidr.None? then networkCidr else cidr.value;
      var tap := TapName(vmId);
      issued := [];
      var parsed := ParseNetwork(text);
      if parsed.Err? {
        result := if parsed.error == AddressValueError then Ok(None) else Err(NetmaskValueErrorRaised);
        return;
      }
      var n := parsed.value;
      var gateway := AddOffset(n.address, 1);
      if gateway.Err? {
        result := Ok(None);
        return;
      }
      var run := RunChecked(TapCommands(tap, GatewayText(n)), host);
      issued := run.issued;
      if run.status == OsError {
        result := Err(OsErrorRaised);
        return;
      } else if run.status == CalledProcessError {
        result := Ok(None);
        return;
      }
      var guest := AddOffset(n.address, 2);
      if guest.Err? {
        result := Ok(None);
        return;
      }
      activeInterfaces := activeInterfaces.Put(vmId, InterfaceInfo(tap, text, FormatAddress(gateway.value), FormatAddress(guest.value)));
      result := Ok(Some(tap));
    }

    /** `setup_nat_routing`, for the configured network; the table is not touched. */
    function SetupNatRouting(tap: string, host: Machine<NetCommand>): (r: NatSetup)
      requires Valid()
      reads this
      ensures r == PlanNatSetup(tap, network, host)
      ensures r.result == Ok(true) ==> r.issued[2].network == FormatNetwork(network)
    {
      PlanNatSetup(tap, network, host)
    }

    /**
     * `_get_default_interface`: runs the route query and scans its output
     * line by line for the first line that yields a device.
     */
    method GetDefaultInterface(host: Machine<NetCommand>) returns (r: Result<Option<string>, Status>)
      ensures r == DefaultInterfaceFrom(host(ShowDefaultRoute))
    {
      var outcome := host(ShowDefaultRoute);
      if outcome.Unstartable? {
        return Err(OsError);
      }
      if outcome.code != 0 {
        return Ok(None);
      }
      var lines := Split(outcome.stdout, '\n');
      var k := 0;
      while k < |lines|
        invariant 0 <= k <= |lines|
        invariant FirstDevice(lines, 0) == FirstDevice(lines, k)
      {
        var line := lines[k];
        if Contains(line, "default") && Contains(line, "dev") {
          var parts := Words(line);
          var devIndex := IndexOf(parts, "dev");
          if devIndex.Some? && devIndex.value + 1 < |parts| {
            return Ok(Some(parts[devIndex.value + 1]));
          }
        }
        k := k + 1;
      }
      return Ok(None);
    }

    /**
     * `cleanup_networking`: nothing happens for a vm id without a record;
     * otherwise the record's rules and interface are deleted and the record
     * dropped, unless an exception was raised on the way (it is logged and
     * the record kept).
     */
    method CleanupNetworking(vmId: string, host: Machine<NetCommand>) returns (issued: seq<NetCommand>)
      requires Valid()
      modifies this
      ensures Valid()
      ensures vmId !in old(activeInterfaces.entries) ==> issued == [] && activeInterfaces == old(activeInterfaces)
      ensures vmId in old(activeInterfaces.entries) ==>
        var info := old(activeInterfaces.entries[vmId]);
        var plan := PlanCleanup(info, ParseNetwork(info.cidr), host);
        && issued == plan.issued
        && activeInterfaces == (if plan.removed then old(activeInterfaces).Remove(vmId) else old(activeInterfaces))
    {
      if vmId !in activeInterfaces.entries {
        return [];
      }
      var info := activeInterfaces.entries[vmId];
      var stored := ParseNetwork(info.cidr);
      var iface := GetDefaultInterface(host);
      issued := [ShowDefaultRoute];
      if iface.Err? {
        return;
      }
      if iface.value.Some? {
        if stored.Err? {
          return;
        }
        var rules := RunUnchecked(NatRules(Delete, FormatNetwork(stored.value), info.tapName, iface.value.value), host);
        issued := issued + rules.issued;
        if rules.status == OsError {
          return;
        }
      }
      var del := RunUnchecked([LinkDelete(info.tapName)], host);
      issued := issued + del.issued;
      if del.status == OsError {
        return;
      }
      activeInterfaces := activeInterfaces.Remove(vmId);
    }

    /** `validate_network_connectivity`: all flags false for an unknown vm id; the table is only read. */
    function ValidateNetworkConnectivity(vmId: string, host: Machine<NetCommand>): (r: Connectivity)
      reads this
      ensures vmId !in activeInterfaces.entries ==> r == NoConnectivity(vmId)
      ensures vmId in activeInterfaces.entries ==> r == ProbeConnectivity(vmId, activeInterfaces.entries[vmId], host)
    {
      if vmId !in activeInterfaces.entries then NoConnectivity(vmId) else ProbeConnectivity(vmId, activeInterfaces.entries[vmId], host)
    }

    /** `get_interface_info`: the record stored for the vm id, if any. */
    function GetInterfaceInfo(vmId: string): (r: Option<InterfaceInfo>)
      reads this
      ensures r.Some? <==> vmId in activeInterfaces.entries
      ensures r.Some? ==> r.value == activeInterfaces.entries[vmId]
    {
      activeInterfaces.Get(vmId)
    }

    /**
     * `list_active_interfaces`: a copy of the table, whose entries are what
     * `get_interface_info` returns for each vm id.
     */
    function ListActiveInterfaces(): (r: map<string, InterfaceInfo>)
      reads this
      ensures forall k :: k in r <==> GetInterfaceInfo(k).Some?
      ensures forall k :: k in r ==> GetInterfaceInfo(k) == Some(r[k])
      ensures Valid() ==> forall k :: k in r ==> r[k].tapName == TapName(k)
    {
      activeInterfaces.entries
    }

    /**
     * `cleanup_all_networking`: cleans up every vm id of a snapshot of the
     * table, in table order, then switches forwarding off only if the table
     * ended up empty. Exactly the records whose clean-up fails on this host
     * stay, in their order.
     */
    method CleanupAllNetworking(host: Machine<NetCommand>) returns (issued: seq<NetCommand>)
      requires Valid()
      modifies this
      ensures Valid()
      ensures var gone := Cleaned(old(activeInterfaces.entries), host);
        && activeInterfaces.entries == KeptAfter(old(activeInterfaces.entries), old(activeInterfaces.keys), gone)
        && activeInterfaces.keys == KeptKeys(old(activeInterfaces.keys), gone)
      ensures issued == SweepCommands(old(activeInterfaces.entries), old(activeInterfaces.keys), host)
                        + (if activeInterfaces.entries == map[] then [SetForwarding(false)] else [])
    {
      var vmIds := activeInterfaces.keys;
      ghost var before := activeInterfaces.entries;
      ghost var gone := Cleaned(before, host);
      SweptStart(host);
      issued := CleanupEach(host, before, gone, vmIds);
      SweptAll(host, before, gone, vmIds, issued);
      if activeInterfaces.entries == map[] {
        issued := issued + [SetForwarding(false)];
      }
    }

    /** The loop of `cleanup_all_networking`: `cleanup_networking` for each vm id of the snapshot `ks`, in order. */
    method CleanupEach(host: Machine<NetCommand>, ghost entries: map<string, InterfaceInfo>, ghost gone: set<string>,
                       ks: seq<string>) returns (issued: seq<NetCommand>)
      requires Swept(host, entries, gone, ks, 0, [])
      modifies this
      ensures Swept(host, entries, gone, ks, |ks|, issued)
    {
      issued := [];
      var i := 0;
      while i < |ks|
        invariant 0 <= i <= |ks|
        invariant Swept(host, entries, gone, ks, i, issued)
      {
        issued := CleanupOne(host, entries, gone, ks, i, issued);
        i := i + 1;
      }
    }

    /**
     * The state of `cleanup_all_networking` once the first `i` vm ids of the
     * snapshot `ks` of the table `entries` have been cleaned up.
     */
    ghost predicate Swept(host: Machine<NetCommand>, entries: map<string, InterfaceInfo>, gone: set<string>, ks: seq<string>,
                          i: nat, issued: seq<NetCommand>)
      reads this
    {
      && i <= |ks|
      && Valid()
      && Distinct(ks)
      && (forall k :: k in entries <==> k in ks)
      && gone == Cleaned(entries, host)
      && activeInterfaces.entries == KeptAfter(entries, ks[..i], gone)
      && activeInterfaces.keys == KeptKeys(ks[..i], gone) + ks[i..]
      && issued == SweepCommands(entries, ks[..i], host)
    }

    /** Before the first turn nothing is swept yet. */
    lemma SweptStart(host: Machine<NetCommand>)
      requires Valid()
      ensures var ks := activeInterfaces.keys;
        Swept(host, activeInterfaces.entries, Cleaned(activeInterfaces.entries, host), ks, 0, [])
    {
      var ks := activeInterfaces.keys;
      assert ks[..0] == [] && ks[0..] == ks;
    }

    /** After the last turn every vm id of the snapshot is swept. */
    lemma SweptAll(host: Machine<NetCommand>, entries: map<string, InterfaceInfo>, gone: set<string>, ks: seq<string>,
                   issued: seq<NetCommand>)
      requires Swept(host, entries, gone, ks, |ks|, issued)
      ensures Valid()
      ensures activeInterfaces.entries == KeptAfter(entries, ks, gone) && activeInterfaces.keys == KeptKeys(ks, gone)
      ensures issued == SweepCommands(entries, ks, host)
    {
      assert ks[..|ks|] == ks && ks[|ks|..] == [];
    }

    /** One turn of `cleanup_all_networking`'s loop: `cleanup_networking` for `ks[i]`. */
    method CleanupOne(host: Machine<NetCommand>, ghost entries: map<string, InterfaceInfo>, ghost gone: set<string>,
                      ks: seq<string>, i: nat, issued: seq<NetCommand>) returns (issued': seq<NetCommand>)
      requires i < |ks| && Swept(host, entries, gone, ks, i, issued)
      modifies this
      ensures Swept(host, entries, gone, ks, i + 1, issued')
    {
      var k := ks[i];
      KeysStep(ks, i, gone);
      EntriesStep(entries, ks, i, gone);
      CommandsStep(entries, ks, i, host);
      ghost var keys0 := activeInterfaces.keys;
      assert k in gone <==> Cleanable(entries[k], host);
      var more := CleanupNetworking(k, host);
      assert activeInterfaces.keys == if k in gone then Without(keys0, k) else keys0;
      issued' := issued + more;
    }
  }

  /** The clean-up of `info` on `host` succeeds and drops the record. */
  predicate Cleanable(info: InterfaceInfo, host: Machine<NetCommand>) {
    PlanCleanup(info, ParseNetwork(info.cidr), host).removed
  }

  /** The vm ids whose records a clean-up on `host` drops. */
  function Cleaned(entries: map<string, InterfaceInfo>, host: Machine<NetCommand>): (r: set<string>)
    ensures forall k :: k in r <==> k in entries && Cleanable(entries[k], host)
  {
    set k | k in entries && Cleanable(entries[k], host)
  }

  /** The vm ids of `ks` not in `gone`, in their order. */
  function KeptKeys(ks: seq<string>, gone: set<string>): (r: seq<string>)
    ensures forall k :: k in r <==> k in ks && k !in gone
    ensures |r| <= |ks|
  {
    if ks == [] then []
    else
      var k := ks[|ks| - 1];
      KeptKeys(ks[..|ks| - 1], gone) + (if k !in gone then [k] else [])
  }

  /** The records left once the vm ids of `ks` have been cleaned up, those in `gone` having been dropped. */
  function KeptAfter(entries: map<string, InterfaceInfo>, ks: seq<string>, gone: set<string>): (r: map<string, InterfaceInfo>)
    ensures forall k :: k in r <==> k in entries && (k in ks ==> k !in gone)
    ensures forall k :: k in r ==> r[k] == entries[k]
  {
    map k | k in entries && (k !in ks || k !in gone) :: entries[k]
  }

  /** The commands issued by cleaning up each vm id of `ks` in turn, from its record in `entries`. */
  function SweepCommands(entries: map<string, InterfaceInfo>, ks: seq<string>, host: Machine<NetCommand>): (r: seq<NetCommand>)
    ensures SetForwarding(false) !in r
  {
    if ks == [] then []
    else
      var k := ks[|ks| - 1];
      SweepCommands(entries, ks[..|ks| - 1], host)
      + (if k in entries then PlanCleanup(entries[k], ParseNetwork(entries[k].cidr), host).issued else [])
  }

  /** One step of `cleanup_all_networking` on the key list: `ks[i]` leaves it, and stays in the kept prefix only if it is not in `gone`. */
  lemma KeysStep(ks: seq<string>, i: nat, gone: set<string>)
    requires i < |ks| && Distinct(ks)
    ensures var k := ks[i];
      var a := KeptKeys(ks[..i], gone);
      && k in a + ks[i..]
      && KeptKeys(ks[..i + 1], gone) + ks[i + 1..] == (if k in gone then Without(a + ks[i..], k) else a + ks[i..])
  {
    var k := ks[i];
    var a := KeptKeys(ks[..i], gone);
    assert ks[..i + 1][..i] == ks[..i] && ks[..i + 1][i] == k;
    assert k !in ks[..i];
    assert k !in ks[i + 1..] by {
      forall j | i + 1 <= j < |ks| ensures ks[j] != k {}
    }
    var b := ks[i + 1..];
    assert ks[i..] == [k] + b;
    assert KeptKeys(ks[..i + 1], gone) == a + (if k !in gone then [k] else []);
    WithoutMiddle(a, k, b);
    if k in gone {
      assert KeptKeys(ks[..i + 1], gone) + b == a + b;
    }
  }

  /** Dropping a key that occurs once, between two runs without it, joins the runs. */
  lemma WithoutMiddle(a: seq<string>, k: string, b: seq<string>)
    requires k !in a && k !in b
    ensures Without(a + ([k] + b), k) == a + b
    ensures a + ([k] + b) == (a + [k]) + b
  {
    var m := [k] + b;
    WithoutConcat(a, m, k);
    WithoutAbsent(a, k);
    assert m[0] == k && m[1..] == b;
    assert Without(m, k) == Without(b, k);
    WithoutAbsent(b, k);
  }

  /** One step of `cleanup_all_networking` on the records: `ks[i]`'s record goes exactly when it is in `gone`. */
  lemma EntriesStep(entries: map<string, InterfaceInfo>, ks: seq<string>, i: nat, gone: set<string>)
    requires i < |ks| && Distinct(ks) && ks[i] in entries
    ensures var k := ks[i];
      var e := KeptAfter(entries, ks[..i], gone);
      && k in e && e[k] == entries[k]
      && KeptAfter(entries, ks[..i + 1], gone) == (if k in gone then e - {k} else e)
  {
    var k := ks[i];
    assert k !in ks[..i];
    assert forall x :: x in ks[..i + 1] <==> x in ks[..i] || x == k by {
      assert ks[..i + 1] == ks[..i] + [k];
    }
  }

  /** One step of `cleanup_all_networking` on the commands: `ks[i]`'s clean-up commands follow. */
  lemma CommandsStep(entries: map<string, InterfaceInfo>, ks: seq<string>, i: nat, host: Machine<NetCommand>)
    requires i < |ks| && ks[i] in entries
    ensures SweepCommands(entries, ks[..i + 1], host) ==
      SweepCommands(entries, ks[..i], host) + PlanCleanup(entries[ks[i]], ParseNetwork(entries[ks[i]].cidr), host).issued
  {
    assert ks[..i + 1][..i] == ks[..i] && ks[..i + 1][i] == ks[i];
  }

  /**
   * What `cleanup_all_networking` leaves: a record stays exactly when its
   * clean-up fails on this host, and forwarding is switched off, last,
   * exactly when none stays.
   */
  lemma SweepLeavesUncleanable(entries: map<string, InterfaceInfo>, ks: seq<string>, host: Machine<NetCommand>)
    requires forall k :: k in entries ==> k in ks
    ensures var left := KeptAfter(entries, ks, Cleaned(entries, host));
      && (forall k :: k in left <==> k in entries && !Cleanable(entries[k], host))
      && (left == map[] <==> forall k :: k in entries ==> Cleanable(entries[k], host))
  {
    var left := KeptAfter(entries, ks, Cleaned(entries, host));
    if left != map[] {
      var k :| k in left;
    }
  }
}
