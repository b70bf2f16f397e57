/**
 * The settings of a lateral (peer-to-peer) auxiliary
 * (auxiliary/lateral/LateralCacheAttributes.java). The transport is kept twice,
 * as a code and as a name, and the two setters keep them in step for the four
 * known transports.
 */
module LateralAttributes {
  import opened Wrappers

  /** Transport codes (declared by the ILateralCacheAttributes interface). */
  const HTTP: int := 1
  const UDP: int := 2
  const TCP: int := 3
  const XMLRPC: int := 4

  /** The default bound of the zombie queue (also from ILateralCacheAttributes). */
  const DEFAULT_ZOMBIE_QUEUE_MAX_SIZE: int := 1000

  /** The name of a known transport code; `None` for any other code. */
  function TransmissionTypeName(code: int): (name: Option<string>)
    ensures name.Some? <==> code in {UDP, HTTP, TCP, XMLRPC}
    ensures name.Some? ==> TransmissionTypeCode(name.value) == Some(code)
  {
    if code == UDP then Some("UDP")
    else if code == HTTP then Some("HTTP")
    else if code == TCP then Some("TCP")
    else if code == XMLRPC then Some("XMLRPC")
    else None
  }

  /** The code of a known transport name (matched exactly, case included). */
  function TransmissionTypeCode(name: string): (code: Option<int>)
    ensures code.Some? <==> name in ["UDP", "HTTP", "TCP", "XMLRPC"]
  {
    if name == "UDP" then Some(UDP)
    else if name == "HTTP" then Some(HTTP)
    else if name == "TCP" then Some(TCP)
    else if name == "XMLRPC" then Some(XMLRPC)
    else None
  }

  /** Name to code to name gives the name back. */
  lemma NameCodeNameRoundTrip(name: string)
    requires TransmissionTypeCode(name).Some?
    ensures TransmissionTypeName(TransmissionTypeCode(name).value) == Some(name)
  {
  }

  /** Every field of the settings, as one value. */
  datatype AttributeState = AttributeState(
    transmissionTypeName: string,
    transmissionType: int,
    httpServers: Option<string>,
    httpServer: Option<string>,
    udpMulticastAddr: Option<string>,
    udpMulticastPort: int,
    httpListenerPort: int,
    putOnlyMode: bool,
    receive: bool,
    zombieQueueMaxSize: int)

  /** The field initializers of a new settings object. */
  function Defaults(): (s: AttributeState)
    ensures s.transmissionTypeName == "UDP" && s.transmissionType == UDP
    ensures s.udpMulticastAddr == Some("228.5.6.7") && s.udpMulticastPort == 6789
    ensures s.httpListenerPort == 8080
    ensures s.putOnlyMode && s.receive
    ensures s.httpServers == None && s.httpServer == Some("")
    ensures s.zombieQueueMaxSize == DEFAULT_ZOMBIE_QUEUE_MAX_SIZE
  {
    AttributeState("UDP", UDP, None, Some(""), Some("228.5.6.7"), 6789, 8080, true, true,
                   DEFAULT_ZOMBIE_QUEUE_MAX_SIZE)
  }

  /** The code and the name agree. */
  predicate Consistent(s: AttributeState) {
    TransmissionTypeName(s.transmissionType) == Some(s.transmissionTypeName)
  }

  /** The effect of `setTransmissionType`: the code is stored; the name follows it
      for a known code and is left alone for any other. */
  function WithTransmissionType(s: AttributeState, code: int): (s': AttributeState)
    ensures s'.transmissionType == code
    ensures TransmissionTypeName(code).Some? ==> s'.transmissionTypeName == TransmissionTypeName(code).value
    ensures TransmissionTypeName(code).None? ==> s'.transmissionTypeName == s.transmissionTypeName
    ensures s' == s.(transmissionType := code, transmissionTypeName := s'.transmissionTypeName)
  {
    s.(transmissionType := code,
       transmissionTypeName := TransmissionTypeName(code).GetOr(s.transmissionTypeName))
  }

  /** The effect of `setTransmissionTypeName`: the name is stored; the code follows
      it for a known name and is left alone for any other. */
  function WithTransmissionTypeName(s: AttributeState, name: string): (s': AttributeState)
    ensures s'.transmissionTypeName == name
    ensures TransmissionTypeCode(name).Some? ==> s'.transmissionType == TransmissionTypeCode(name).value
    ensures TransmissionTypeCode(name).None? ==> s'.transmissionType == s.transmissionType
    ensures s' == s.(transmissionTypeName := name, transmissionType := s'.transmissionType)
  {
    s.(transmissionTypeName := name,
       transmissionType := TransmissionTypeCode(name).GetOr(s.transmissionType))
  }

  /** The defaults are consistent. */
  lemma DefaultsConsistent()
    ensures Consistent(Defaults())
  {
  }

  /** Either setter, given a known transport, leaves the code and the name in step,
      whatever they were before. */
  lemma KnownTransportMakesConsistent(s: AttributeState, code: int, name: string)
    ensures TransmissionTypeName(code).Some? ==> Consistent(WithTransmissionType(s, code))
    ensures TransmissionTypeCode(name).Some? ==> Consistent(WithTransmissionTypeName(s, name))
  {
  }

  /** Setting a known code, then setting the name to the name just read back, keeps
      that code; the second call changes nothing at all. */
  lemma TypeThenNameRoundTrip(s: AttributeState, code: int)
    requires TransmissionTypeName(code).Some?
    ensures var s1 := WithTransmissionType(s, code);
            WithTransmissionTypeName(s1, s1.transmissionTypeName).transmissionType == code
            && WithTransmissionTypeName(s1, s1.transmissionTypeName) == s1
  {
  }

  /** Setting a known name, then setting the code to the code just read back, keeps
      that name; the second call changes nothing at all. */
  lemma NameThenTypeRoundTrip(s: AttributeState, name: string)
    requires TransmissionTypeCode(name).Some?
    ensures var s1 := WithTransmissionTypeName(s, name);
            WithTransmissionType(s1, s1.transmissionType).transmissionTypeName == name
            && WithTransmissionType(s1, s1.transmissionType) == s1
  {
  }

  /** An unknown code is stored but breaks the agreement with the name: the code no
      longer has a name at all. */
  lemma UnknownTypeLeavesNameStale(s: AttributeState, code: int)
    requires TransmissionTypeName(code).None?
    ensures WithTransmissionType(s, code).transmissionTypeName == s.transmissionTypeName
    ensures !Consistent(WithTransmissionType(s, code))
  {
  }

  class LateralCacheAttributes {
    var transmissionTypeName: string
    var transmissionType: int
    var httpServers: Option<string>
    var httpServer: Option<string>
    var udpMulticastAddr: Option<string>
    var udpMulticastPort: int
    var httpListenerPort: int
    var putOnlyMode: bool
    var receive: bool
    var zombieQueueMaxSize: int

    /** All fields, as one value. */
    function State(): AttributeState
      reads this
    {
      AttributeState(transmissionTypeName, transmissionType, httpServers, httpServer,
                     udpMulticastAddr, udpMulticastPort, httpListenerPort, putOnlyMode,
                     receive, zombieQueueMaxSize)
    }

    /** A new settings object holds the defaults, and its transport code and name agree. */
    constructor ()
      ensures State() == Defaults() && Consistent(State())
    {
      transmissionTypeName := "UDP";
      transmissionType := UDP;
      httpServers := None;
      httpServer := Some("");
      udpMulticastAddr := Some("228.5.6.7");
      udpMulticastPort := 6789;
      httpListenerPort := 8080;
      putOnlyMode := true;
      receive := true;
      zombieQueueMaxSize := DEFAULT_ZOMBIE_QUEUE_MAX_SIZE;
    }

    method SetTransmissionType(val: int)
      modifies this
      ensures State() == WithTransmissionType(old(State()), val)
      ensures GetTransmissionType() == val
    {
      transmissionType := val;
      if val == UDP {
        transmissionTypeName := "UDP";
      } else if val == HTTP {
        transmissionTypeName := "HTTP";
      } else if val == TCP {
        transmissionTypeName := "TCP";
      } else if val == XMLRPC {
        transmissionTypeName := "XMLRPC";
      }
    }

    function GetTransmissionType(): int
      reads this
    {
      transmissionType
    }

    method SetTransmissionTypeName(val: string)
      modifies this
      ensures State() == WithTransmissionTypeName(old(State()), val)
      ensures GetTransmissionTypeName() == val
    {
      transmissionTypeName := val;
      if val == "UDP" {
        transmissionType := UDP;
      } else if val == "HTTP" {
        transmissionType := HTTP;
      } else if val == "TCP" {
        transmissionType := TCP;
      } else if val == "XMLRPC" {
        transmissionType := XMLRPC;
      }
    }

    function GetTransmissionTypeName(): string
      reads this
    {
      transmissionTypeName
    }

    method SetHttpServer(val: Option<string>)
      modifies this
      ensures State() == old(State()).(httpServer := val) && GetHttpServer() == val
    {
      httpServer := val;
    }

    function GetHttpServer(): Option<string>
      reads this
    {
      httpServer
    }

    method SetHttpServers(val: Option<string>)
      modifies this
      ensures State() == old(State()).(httpServers := val) && GetHttpServers() == val
    {
      httpServers := val;
    }

    function GetHttpServers(): Option<string>
      reads this
    {
      httpServers
    }

    method SetHttpListenerPort(val: int)
      modifies this
      ensures State() == old(State()).(httpListenerPort := val) && GetHttpListenerPort() == val
    {
      httpListenerPort := val;
    }

    function GetHttpListenerPort(): int
      reads this
    {
      httpListenerPort
    }

    method SetUdpMulticastAddr(val: Option<string>)
      modifies this
      ensures State() == old(State()).(udpMulticastAddr := val) && GetUdpMulticastAddr() == val
    {
      udpMulticastAddr := val;
    }

    function GetUdpMulticastAddr(): Option<string>
      reads this
    {
      udpMulticastAddr
    }

    method SetUdpMulticastPort(val: int)
      modifies this
      ensures State() == old(State()).(udpMulticastPort := val) && GetUdpMulticastPort() == val
    {
      udpMulticastPort := val;
    }

    function GetUdpMulticastPort(): int
      reads this
    {
      udpMulticastPort
    }

    method SetPutOnlyMode(val: bool)
      modifies this
      ensures State() == old(State()).(putOnlyMode := val) && GetPutOnlyMode() == val
    {
      putOnlyMode := val;
    }

    function GetPutOnlyMode(): bool
      reads this
    {
      putOnlyMode
    }

    method SetReceive(val: bool)
      modifies this
      ensures State() == old(State()).(receive := val) && IsReceive() == val
    {
      receive := val;
    }

    function IsReceive(): bool
      reads this
    {
      receive
    }

    method SetZombieQueueMaxSize(val: int)
      modifies this
      ensures State() == old(State()).(zombieQueueMaxSize := val) && GetZombieQueueMaxSize() == val
    {
      zombieQueueMaxSize := val;
    }

    function GetZombieQueueMaxSize(): int
      reads this
    {
      zombieQueueMaxSize
    }
  }
}
