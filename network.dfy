/** Choosing the address a dev server listens on: the machine's LAN address,
    the privileged-port warning, and the host and port handed back to the
    dev command. The interface table and the port probe are inputs. */
module Network {
  import opened Wrappers
  import opened Text
  import opened Terminal

  /** One entry of `os.networkInterfaces()[name]`. */
  datatype NetInterface = NetInterface(address: string, family: string, internal: bool)

  /** `os.networkInterfaces()` in the order of `Object.keys`: one list per
      interface name, `None` where the entry is missing. */
  type Interfaces = seq<Option<seq<NetInterface>>>

  const Localhost: string := "127.0.0.1"

  /** The ports tried for the web and the Expo server, in order. */
  const WebPorts: seq<int> := [3000, 3001, 3002, 3003, 3004, 3005, 3006, 3007]
  const ExpoPorts: seq<int> := [8081, 8082, 8083, 8084, 8085, 8086, 8087, 8088]

  /** An external IPv4 interface. */
  predicate Qualifies(n: NetInterface) {
    !n.internal && n.family == "IPv4"
  }

  /** Every interface, name by name and then in list order. */
  function Candidates(nets: Interfaces): seq<NetInterface> {
    if |nets| == 0 then []
    else (if nets[0].Some? then nets[0].value else []) + Candidates(nets[1..])
  }

  /** The address of the first qualifying interface of a list. */
  function FirstAddress(cs: seq<NetInterface>): Option<string> {
    if |cs| == 0 then None
    else if Qualifies(cs[0]) then Some(cs[0].address)
    else FirstAddress(cs[1..])
  }

  /** The address `getLocalIPAddress` settles on. */
  function LocalIp(nets: Interfaces): string {
    var a := FirstAddress(Candidates(nets));
    if a.Some? then a.value else Localhost
  }

  /** `FirstAddress` finds the first qualifying interface, and finds nothing
      only when no interface qualifies. */
  lemma {:induction false} FirstAddressIsFirst(cs: seq<NetInterface>)
    ensures FirstAddress(cs).Some? ==>
      exists k | 0 <= k < |cs| :: Qualifies(cs[k]) && cs[k].address == FirstAddress(cs).value
        && forall j | 0 <= j < k :: !Qualifies(cs[j])
    ensures FirstAddress(cs).None? ==> forall j | 0 <= j < |cs| :: !Qualifies(cs[j])
  {
    if |cs| > 0 && !Qualifies(cs[0]) {
      FirstAddressIsFirst(cs[1..]);
      if FirstAddress(cs).Some? {
        var k :| 0 <= k < |cs[1..]| && Qualifies(cs[1..][k]) && cs[1..][k].address == FirstAddress(cs).value
          && forall j | 0 <= j < k :: !Qualifies(cs[1..][j]);
        assert Qualifies(cs[k + 1]);
        forall j | 0 <= j < k + 1 ensures !Qualifies(cs[j]) {
          if j > 0 { assert cs[j] == cs[1..][j - 1]; }
        }
      } else {
        forall j | 0 <= j < |cs| ensures !Qualifies(cs[j]) {
          if j > 0 { assert cs[j] == cs[1..][j - 1]; }
        }
      }
    } else if |cs| > 0 {
      assert Qualifies(cs[0]);
    }
  }

  /** The local address is the address of the first external IPv4 interface
      in iteration order, never that of an internal or IPv6 interface, and
      it is "127.0.0.1" exactly when no interface qualifies. */
  lemma LocalIpPicksFirst(nets: Interfaces)
    ensures LocalIp(nets) == Localhost || exists n | n in Candidates(nets) :: Qualifies(n) && n.address == LocalIp(nets)
    ensures (forall j | 0 <= j < |Candidates(nets)| :: !Qualifies(Candidates(nets)[j])) ==> LocalIp(nets) == Localhost
    ensures (exists j | 0 <= j < |Candidates(nets)| :: Qualifies(Candidates(nets)[j])) ==>
      exists k | 0 <= k < |Candidates(nets)| :: Qualifies(Candidates(nets)[k]) && Candidates(nets)[k].address == LocalIp(nets)
        && forall j | 0 <= j < k :: !Qualifies(Candidates(nets)[j])
  {
    FirstAddressIsFirst(Candidates(nets));
  }

  /** `getLocalIPAddress`: walk the interface names, skip a missing list,
      and return the address of the first external IPv4 interface. */
  method GetLocalIpAddress(nets: Interfaces) returns (localIp: string)
    ensures localIp == LocalIp(nets)
  {
    localIp := Localhost;
    var i := 0;
    while i < |nets|
      invariant 0 <= i <= |nets|
      invariant FirstAddress(Candidates(nets)) == FirstAddress(Candidates(nets[i..]))
    {
      assert Candidates(nets[i..]) == (if nets[i].Some? then nets[i].value else []) + Candidates(nets[i + 1..]) by {
        assert nets[i..][0] == nets[i] && nets[i..][1..] == nets[i + 1..];
      }
      if nets[i].Some? {
        var list := nets[i].value;
        var rest := Candidates(nets[i + 1..]);
        assert list[0..] + rest == Candidates(nets[i..]);
        var j := 0;
        while j < |list|
          invariant 0 <= j <= |list|
          invariant FirstAddress(Candidates(nets)) == FirstAddress(list[j..] + rest)
        {
          assert (list[j..] + rest)[0] == list[j];
          if !list[j].internal && list[j].family == "IPv4" {
            localIp := list[j].address;
            return;
          }
          assert (list[j..] + rest)[1..] == list[j + 1..] + rest;
          j := j + 1;
        }
        assert list[j..] + rest == rest;
      } else {
        assert Candidates(nets[i..]) == Candidates(nets[i + 1..]);
      }
      i := i + 1;
    }
  }

  /** What `validatePort` decides, and the warning it logs on refusal. */
  datatype PortCheck = PortCheck(ok: bool, warning: Option<LogEntry>)

  /** `validatePort`: a defined, nonzero port below 1024 needs elevated
      privileges and is refused with a warning; anything else is accepted. */
  function ValidatePort(port: Option<int>): (r: PortCheck)
    ensures r.ok <==> (port.None? || port.value == 0 || port.value >= 1024)
    ensures r.warning.Some? <==> !r.ok
    ensures r.warning.Some? ==>
      r.warning.value == LogWarning("Port " + IntToString(port.value) + " requires elevated privileges. We will use default port instead.")
  {
    if port.Some? && port.value != 0 && port.value < 1024 then
      PortCheck(false, Some(LogWarning("Port " + IntToString(port.value) + " requires elevated privileges. We will use default port instead.")))
    else PortCheck(true, None)
  }

  /** Every port of the two candidate lists passes `validatePort`. */
  lemma CandidatePortsAreUnprivileged()
    ensures forall p | p in WebPorts + ExpoPorts :: ValidatePort(Some(p)).ok
  {
  }

  /** What `getPort` is asked for: one port, or a list of ports (possibly
      none, in which case any free port will do). */
  datatype PortRequest = Exactly(port: int) | AnyOf(ports: Option<seq<int>>)

  /** `preferredPort || alternativePorts`. */
  function PortRequestFor(preferredPort: Option<int>, alternativePorts: Option<seq<int>>): (r: PortRequest)
    ensures r.Exactly? <==> preferredPort.Some? && preferredPort.value != 0
    ensures r.Exactly? ==> r.port == preferredPort.value
    ensures r.AnyOf? ==> r.ports == alternativePorts
  {
    if preferredPort.Some? && preferredPort.value != 0 then Exactly(preferredPort.value) else AnyOf(alternativePorts)
  }

  /** `preferredHost || ipAddress`. */
  function ChooseHost(preferredHost: Option<string>, localIp: string): (h: string)
    ensures preferredHost.Some? && preferredHost.value != "" ==> h == preferredHost.value
    ensures preferredHost.None? || preferredHost.value == "" ==> h == localIp
  {
    if preferredHost.Some? && preferredHost.value != "" then preferredHost.value else localIp
  }

  /** `getAvailableAddress`: the preferred host unless it is missing or
      empty, and whatever port the probe hands back for the request. The
      preferred port is not checked with `validatePort` here, but every
      web or Expo candidate the probe may be offered passes it. */
  method GetAvailableAddress(preferredHost: Option<string>, preferredPort: Option<int>,
                             alternativePorts: Option<seq<int>>, nets: Interfaces,
                             getPort: PortRequest -> nat)
    returns (host: string, port: nat)
    ensures host == ChooseHost(preferredHost, LocalIp(nets))
    ensures port == getPort(PortRequestFor(preferredPort, alternativePorts))
    ensures alternativePorts == Some(WebPorts) || alternativePorts == Some(ExpoPorts) ==>
      var r := PortRequestFor(preferredPort, alternativePorts);
      r.AnyOf? ==> forall p | p in r.ports.value :: ValidatePort(Some(p)).ok
  {
    CandidatePortsAreUnprivileged();
    var ipAddress := GetLocalIpAddress(nets);
    host := ChooseHost(preferredHost, ipAddress);
    port := getPort(PortRequestFor(preferredPort, alternativePorts));
  }
}
