/**
 * The API container's conversions between the ports of its RPC API and the
 * port specs of the container backend, the one-to-one check between a
 * service's private and public ports, and two request handlers with a
 * decision of their own: the service listing filter and the size limit on
 * `exec` output.
 */
module Ports {
  import opened Wrappers

  newtype Uint16 = x: int | 0 <= x < 0x1_0000
  newtype Uint32 = x: int | 0 <= x < 0x1_0000_0000

  /** The largest port number a port spec can hold. */
  const MaxUint16: int := 0xFFFF

  /** The largest `exec` log output, in bytes, that is passed back to the client. */
  const MaxLogOutputSizeBytes: int := 10 * 1024 * 1024

  /** The API's port protocol. Protobuf enums are open: any other value arrives as `ApiUnknown`. */
  datatype ApiProtocol = ApiTCP | ApiSCTP | ApiUDP | ApiUnknown(code: int)

  /** The backend's port protocol; values other than the three known ones are `SpecUnknown`. */
  datatype SpecProtocol = SpecTCP | SpecSCTP | SpecUDP | SpecUnknown(code: int)

  datatype ApiPort = ApiPort(number: Uint32, protocol: ApiProtocol)

  datatype PortSpec = PortSpec(number: Uint16, protocol: SpecProtocol)

  datatype PortError =
    | PortNumberTooBig(apiNumber: Uint32)                                   // "API port num '%v' is bigger than ..."
    | NoSpecProtocol(apiProtocol: ApiProtocol)                           // "Couldn't find a port spec proto ..."
    | SpecRejected(specNumber: Uint16, specProtocol: SpecProtocol, cause: string) // "An error occurred creating port spec ..."
    | NoApiProtocol(specProtocol: SpecProtocol)                          // "Couldn't find an API port proto ..."

  /**
   * The protocol table from API protocols to port spec protocols. It is
   * one to one (see `ProtocolTableIsOneToOne`).
   */
  const ApiToSpec: map<ApiProtocol, SpecProtocol> := map[ApiTCP := SpecTCP, ApiSCTP := SpecSCTP, ApiUDP := SpecUDP]

  /**
   * The backend's port spec constructor, which is not part of this model, is
   * a parameter: `None` when it accepts a number and protocol, `Some(cause)`
   * when it refuses them. When it accepts, the spec holds exactly what it was given.
   */
  type PortSpecCheck = (Uint16, SpecProtocol) -> Option<string>

  // ---------------------------------------------------------------------------
  // Single ports
  // ---------------------------------------------------------------------------

  /** Converts an API port into a port spec. */
  function TransformApiPortToPortSpec(port: ApiPort, check: PortSpecCheck): (r: Result<PortSpec, PortError>)
    ensures port.number as int > MaxUint16 ==> r == Err(PortNumberTooBig(port.number))
    ensures port.number as int <= MaxUint16 && port.protocol !in ApiToSpec ==> r == Err(NoSpecProtocol(port.protocol))
    ensures r.Ok? <==>
      port.number as int <= MaxUint16 && port.protocol in ApiToSpec &&
      check(port.number as int as Uint16, ApiToSpec[port.protocol]).None?
    ensures r.Ok? ==>
      r.value.number as int == port.number as int && r.value.protocol == ApiToSpec[port.protocol]
  {
    if port.number as int > MaxUint16 then Err(PortNumberTooBig(port.number))
    else if port.protocol !in ApiToSpec then Err(NoSpecProtocol(port.protocol))
    else
      var number := port.number as int as Uint16;
      var protocol := ApiToSpec[port.protocol];
      match check(number, protocol)
      case Some(cause) => Err(SpecRejected(number, protocol, cause))
      case None => Ok(PortSpec(number, protocol))
  }

  /**
   * The API port for a port spec, by the inverse of the protocol table
   * written out case by case.
   */
  function ApiPortOf(spec: PortSpec): Result<ApiPort, PortError>
  {
    var number := spec.number as int as Uint32;
    match spec.protocol
    case SpecTCP => Ok(ApiPort(number, ApiTCP))
    case SpecSCTP => Ok(ApiPort(number, ApiSCTP))
    case SpecUDP => Ok(ApiPort(number, ApiUDP))
    case SpecUnknown(_) => Err(NoApiProtocol(spec.protocol))
  }

  /**
   * Converts a port spec back into an API port by searching the protocol
   * table for an entry that maps to the spec's protocol.
   */
  method TransformPortSpecToApiPort(port: PortSpec) returns (r: Result<ApiPort, PortError>)
    ensures r == ApiPortOf(port)
    ensures r.Ok? <==> exists a :: a in ApiToSpec && ApiToSpec[a] == port.protocol
    ensures r.Ok? ==>
      r.value.number as int == port.number as int &&
      r.value.protocol in ApiToSpec && ApiToSpec[r.value.protocol] == port.protocol
  {
    var apiProto := ApiTCP;
    var found := false;
    var remaining := ApiToSpec.Keys;
    while !found && remaining != {}
      invariant remaining <= ApiToSpec.Keys
      invariant found ==> apiProto in ApiToSpec && ApiToSpec[apiProto] == port.protocol
      invariant !found ==> forall a :: a in ApiToSpec && a !in remaining ==> ApiToSpec[a] != port.protocol
      decreases |remaining|, if found then 0 else 1
    {
      var mapped :| mapped in remaining;
      if ApiToSpec[mapped] == port.protocol {
        apiProto := mapped;
        found := true;
      } else {
        remaining := remaining - {mapped};
      }
    }
    if !found {
      assert ApiToSpec[ApiTCP] == SpecTCP && ApiToSpec[ApiSCTP] == SpecSCTP && ApiToSpec[ApiUDP] == SpecUDP;
      return Err(NoApiProtocol(port.protocol));
    }
    return Ok(ApiPort(port.number as int as Uint32, apiProto));
  }

  /** The table is one to one and its range is exactly the three known backend protocols. */
  lemma ProtocolTableIsOneToOne()
    ensures forall a, b :: a in ApiToSpec && b in ApiToSpec && ApiToSpec[a] == ApiToSpec[b] ==> a == b
    ensures forall s :: s in ApiToSpec.Values <==> !s.SpecUnknown?
  {
    assert ApiToSpec[ApiTCP] == SpecTCP && ApiToSpec[ApiSCTP] == SpecSCTP && ApiToSpec[ApiUDP] == SpecUDP;
  }

  /** Converting an API port to a port spec and back gives the same number and protocol. */
  lemma ApiPortRoundTrip(port: ApiPort, check: PortSpecCheck)
    requires TransformApiPortToPortSpec(port, check).Ok?
    ensures ApiPortOf(TransformApiPortToPortSpec(port, check).value) == Ok(port)
  {
  }

  /** Converting a known port spec to an API port and back gives it again, when the constructor accepts it. */
  lemma PortSpecRoundTrip(spec: PortSpec, check: PortSpecCheck)
    requires !spec.protocol.SpecUnknown? && check(spec.number, spec.protocol).None?
    ensures ApiPortOf(spec).Ok?
    ensures TransformApiPortToPortSpec(ApiPortOf(spec).value, check) == Ok(spec)
  {
  }

  // ---------------------------------------------------------------------------
  // The one-to-one check
  // ---------------------------------------------------------------------------

  datatype OneToOneError =
    | LengthsDiffer(privateCount: nat, publicCount: nat)        // "The received private ports length and ..."
    | PublicPortMissing(portId: string, privateNumber: Uint32)   // "Expected to receive public port with ID ..."

  /** Private and public ports are one to one: as many of each, and a public port for every private id. */
  predicate OneToOne(privatePorts: map<string, ApiPort>, publicPorts: map<string, ApiPort>)
  {
    |privatePorts| == |publicPorts| && privatePorts.Keys <= publicPorts.Keys
  }

  /**
   * Checks that the two port maps are one to one. Which missing id is
   * reported, when several are missing, follows the map's iteration order,
   * which is not specified.
   */
  method CheckPrivateAndPublicPortsAreOneToOne(privatePorts: map<string, ApiPort>, publicPorts: map<string, ApiPort>)
    returns (err: Option<OneToOneError>)
    ensures err.None? <==> OneToOne(privatePorts, publicPorts)
    ensures |privatePorts| != |publicPorts| ==> err == Some(LengthsDiffer(|privatePorts|, |publicPorts|))
    ensures err.Some? && |privatePorts| == |publicPorts| ==>
      err.value.PublicPortMissing? && err.value.portId in privatePorts && err.value.portId !in publicPorts &&
      err.value.privateNumber == privatePorts[err.value.portId].number
  {
    if |privatePorts| != |publicPorts| {
      return Some(LengthsDiffer(|privatePorts|, |publicPorts|));
    }
    var remaining := privatePorts.Keys;
    err := None;
    while err.None? && remaining != {}
      invariant remaining <= privatePorts.Keys
      invariant privatePorts.Keys - remaining <= publicPorts.Keys
      invariant err.Some? ==>
        err.value.PublicPortMissing? && err.value.portId in privatePorts && err.value.portId !in publicPorts &&
        err.value.privateNumber == privatePorts[err.value.portId].number
      decreases |remaining|, if err.None? then 1 else 0
    {
      var portId :| portId in remaining;
      if portId !in publicPorts {
        err := Some(PublicPortMissing(portId, privatePorts[portId].number));
      } else {
        remaining := remaining - {portId};
      }
    }
  }

  /** Being one to one is the same as having the same port ids. */
  lemma {:induction false} OneToOneIffSameIds(privatePorts: map<string, ApiPort>, publicPorts: map<string, ApiPort>)
    ensures OneToOne(privatePorts, publicPorts) <==> privatePorts.Keys == publicPorts.Keys
  {
    if OneToOne(privatePorts, publicPorts) {
      SubsetOfSameSize(privatePorts.Keys, publicPorts.Keys);
    }
  }

  lemma {:induction false} SubsetOfSameSize<T>(a: set<T>, b: set<T>)
    requires a <= b && |a| == |b|
    ensures a == b
  {
    if a != b {
      var x :| x in b && x !in a;
      assert a <= b - {x};
      SubsetSize(a, b - {x});
    }
  }

  lemma {:induction false} SubsetSize<T>(a: set<T>, b: set<T>)
    requires a <= b
    ensures |a| <= |b|
    decreases |a|
  {
    if a != {} {
      var x :| x in a;
      SubsetSize(a - {x}, b - {x});
    }
  }

  // ---------------------------------------------------------------------------
  // Port maps
  // ---------------------------------------------------------------------------

  /** Every port of the map converts to a port spec. */
  predicate AllConvertible(ports: map<string, ApiPort>, check: PortSpecCheck)
  {
    forall id :: id in ports ==> TransformApiPortToPortSpec(ports[id], check).Ok?
  }

  /** The port specs of a map whose ports all convert, under the same ids. */
  function SpecsOf(ports: map<string, ApiPort>, check: PortSpecCheck): (specs: map<string, PortSpec>)
    requires AllConvertible(ports, check)
  {
    map id | id in ports :: TransformApiPortToPortSpec(ports[id], check).value
  }

  /**
   * Converts every port of a map, stopping at the first that fails (in the
   * map's unspecified iteration order) and reporting its id.
   */
  method TransformApiPortsMap(ports: map<string, ApiPort>, check: PortSpecCheck) returns (r: Result<map<string, PortSpec>, string>)
    ensures r.Ok? <==> AllConvertible(ports, check)
    ensures r.Ok? ==> r.value == SpecsOf(ports, check)
    ensures r.Err? ==> r.error in ports && TransformApiPortToPortSpec(ports[r.error], check).Err?
  {
    var specs: map<string, PortSpec> := map[];
    var remaining := ports.Keys;
    while remaining != {}
      invariant remaining <= ports.Keys
      invariant specs.Keys == ports.Keys - remaining
      invariant forall id :: id in specs ==> TransformApiPortToPortSpec(ports[id], check) == Ok(specs[id])
      decreases |remaining|
    {
      var portId :| portId in remaining;
      var converted := TransformApiPortToPortSpec(ports[portId], check);
      if converted.Err? {
        return Err(portId);
      }
      specs := specs[portId := converted.value];
      remaining := remaining - {portId};
    }
    return Ok(specs);
  }

  datatype ConvertError =
    | PrivatePortInvalid(portId: string)      // "... for private port '%v' into a port spec port"
    | NotOneToOne(cause: OneToOneError)       // "Provided public and private ports are not one to one."
    | PublicPortInvalid(portId: string)       // "... for public port '%v' into a port spec port"

  /**
   * Converts a service's private and public API ports into port specs. The
   * one-to-one check applies only when there are public ports. Any failure
   * returns no maps at all.
   */
  method ConvertAPIPortsToPortSpecs(privatePorts: map<string, ApiPort>, publicPorts: map<string, ApiPort>, check: PortSpecCheck)
    returns (r: Result<(map<string, PortSpec>, map<string, PortSpec>), ConvertError>)
    ensures r.Ok? <==>
      AllConvertible(privatePorts, check) &&
      (|publicPorts| > 0 ==> OneToOne(privatePorts, publicPorts)) &&
      AllConvertible(publicPorts, check)
    ensures r.Ok? ==> r.value.0 == SpecsOf(privatePorts, check) && r.value.1 == SpecsOf(publicPorts, check)
    // the private ports are converted first, then checked against the public ones, then the public ones converted
    ensures !AllConvertible(privatePorts, check) ==>
      r.Err? && r.error.PrivatePortInvalid? && r.error.portId in privatePorts &&
      TransformApiPortToPortSpec(privatePorts[r.error.portId], check).Err?
    ensures AllConvertible(privatePorts, check) && |publicPorts| > 0 && !OneToOne(privatePorts, publicPorts) ==>
      r.Err? && r.error.NotOneToOne?
    ensures r.Err? && r.error.PublicPortInvalid? ==>
      r.error.portId in publicPorts && TransformApiPortToPortSpec(publicPorts[r.error.portId], check).Err?
  {
    var privateSpecs := TransformApiPortsMap(privatePorts, check);
    if privateSpecs.Err? {
      return Err(PrivatePortInvalid(privateSpecs.error));
    }
    if |publicPorts| > 0 {
      var err := CheckPrivateAndPublicPortsAreOneToOne(privatePorts, publicPorts);
      if err.Some? {
        return Err(NotOneToOne(err.value));
      }
    }
    var publicSpecs := TransformApiPortsMap(publicPorts, check);
    if publicSpecs.Err? {
      return Err(PublicPortInvalid(publicSpecs.error));
    }
    return Ok((privateSpecs.value, publicSpecs.value));
  }

  /**
   * Converts a map of port specs into API ports under the same ids, or fails
   * as a whole, naming a port whose protocol has no API counterpart.
   */
  method TransformPortSpecMapToApiPortsMap(specs: map<string, PortSpec>) returns (r: Result<map<string, ApiPort>, string>)
    ensures r.Ok? <==> forall id :: id in specs ==> ApiPortOf(specs[id]).Ok?
    ensures r.Ok? ==> r.value.Keys == specs.Keys
    ensures r.Ok? ==> forall id :: id in specs ==> ApiPortOf(specs[id]) == Ok(r.value[id])
    ensures r.Err? ==> r.error in specs && ApiPortOf(specs[r.error]).Err?
  {
    var result: map<string, ApiPort> := map[];
    var remaining := specs.Keys;
    while remaining != {}
      invariant remaining <= specs.Keys
      invariant result.Keys == specs.Keys - remaining
      invariant forall id :: id in result ==> ApiPortOf(specs[id]) == Ok(result[id])
      decreases |remaining|
    {
      var portId :| portId in remaining;
      var converted := TransformPortSpecToApiPort(specs[portId]);
      if converted.Err? {
        return Err(portId);
      }
      result := result[portId := converted.value];
      remaining := remaining - {portId};
    }
    return Ok(result);
  }

  /** Converting a port map into specs and back gives every port again. */
  lemma PortMapRoundTrip(ports: map<string, ApiPort>, check: PortSpecCheck)
    requires AllConvertible(ports, check)
    ensures SpecsOf(ports, check).Keys == ports.Keys
    ensures forall id :: id in ports ==> ApiPortOf(SpecsOf(ports, check)[id]) == Ok(ports[id])
  {
    forall id | id in ports
      ensures ApiPortOf(SpecsOf(ports, check)[id]) == Ok(ports[id])
    {
      ApiPortRoundTrip(ports[id], check);
    }
  }

  // ---------------------------------------------------------------------------
  // Request handlers
  // ---------------------------------------------------------------------------

  datatype ServiceInfo = ServiceInfo(
    serviceGuid: string,
    privateIpAddr: string,
    privatePorts: map<string, ApiPort>,
    maybePublicIpAddr: string,
    maybePublicPorts: map<string, ApiPort>)

  /** The services a listing returns: all of them without a filter or with an empty one, else those filtered. */
  function SelectedServices(serviceIds: set<string>, filter: Option<set<string>>): (selected: set<string>)
  {
    if filter.None? || filter.value == {} then serviceIds else set id | id in serviceIds && id in filter.value
  }

  /**
   * Lists the services of the network, restricted to the filter when it is
   * present and non-empty. The first service (in the map's unspecified
   * order) whose information cannot be read fails the whole listing.
   */
  method GetServices(serviceIds: set<string>, filter: Option<set<string>>, getServiceInfo: string -> Result<ServiceInfo, string>)
    returns (r: Result<map<string, ServiceInfo>, string>)
    ensures r.Ok? <==> forall id :: id in SelectedServices(serviceIds, filter) ==> getServiceInfo(id).Ok?
    ensures r.Ok? ==> r.value.Keys == SelectedServices(serviceIds, filter)
    ensures r.Ok? ==> forall id :: id in r.value ==> getServiceInfo(id) == Ok(r.value[id])
    ensures r.Err? ==> r.error in SelectedServices(serviceIds, filter) && getServiceInfo(r.error).Err?
  {
    var serviceInfos: map<string, ServiceInfo> := map[];
    var remaining := serviceIds;
    ghost var selected := SelectedServices(serviceIds, filter);
    while remaining != {}
      invariant remaining <= serviceIds
      invariant serviceInfos.Keys == selected - remaining
      invariant forall id :: id in serviceInfos ==> getServiceInfo(id) == Ok(serviceInfos[id])
      decreases |remaining|
    {
      var serviceId :| serviceId in remaining;
      remaining := remaining - {serviceId};
      if filter.Some? && |filter.value| > 0 && serviceId !in filter.value {
        continue;
      }
      var serviceInfo := getServiceInfo(serviceId);
      if serviceInfo.Err? {
        return Err(serviceId);
      }
      serviceInfos := serviceInfos[serviceId := serviceInfo.value];
    }
    return Ok(serviceInfos);
  }

  /** Without a filter, or with an empty one, every service is listed; with one, only filtered services are. */
  lemma SelectedServicesFilter(serviceIds: set<string>, filter: Option<set<string>>)
    ensures filter.None? ==> SelectedServices(serviceIds, filter) == serviceIds
    ensures filter == Some({}) ==> SelectedServices(serviceIds, filter) == serviceIds
    ensures filter.Some? && filter.value != {} ==>
      SelectedServices(serviceIds, filter) == serviceIds * filter.value
  {
  }

  datatype ExecCommandResponse = ExecCommandResponse(exitCode: int, logOutput: seq<bv8>)

  datatype ExecError =
    | ExecFailed(command: seq<string>, serviceId: string, cause: string)   // "An error occurred running exec command ..."
    | LogOutputTooLarge(command: seq<string>, size: nat, limit: nat)      // "Log output from docker exec command ..."

  /**
   * Runs a command in a service and passes its exit code and output back,
   * unless running it fails or its output is larger than the limit. The
   * service network's outcome is a parameter: the exit code and the bytes of
   * the output, or the cause of the failure.
   */
  function ExecCommand(serviceId: string, command: seq<string>, outcome: Result<(int, seq<bv8>), string>): (r: Result<ExecCommandResponse, ExecError>)
    ensures r.Ok? <==> outcome.Ok? && |outcome.value.1| <= MaxLogOutputSizeBytes
    ensures r.Ok? ==> r.value == ExecCommandResponse(outcome.value.0, outcome.value.1)
    ensures outcome.Err? ==> r == Err(ExecFailed(command, serviceId, outcome.error))
    ensures outcome.Ok? && |outcome.value.1| > MaxLogOutputSizeBytes ==>
      r == Err(LogOutputTooLarge(command, |outcome.value.1|, MaxLogOutputSizeBytes))
  {
    match outcome
    case Err(cause) => Err(ExecFailed(command, serviceId, cause))
    case Ok((exitCode, logOutput)) =>
      if |logOutput| > MaxLogOutputSizeBytes then Err(LogOutputTooLarge(command, |logOutput|, MaxLogOutputSizeBytes))
      else Ok(ExecCommandResponse(exitCode, logOutput))
  }

  /** Output of exactly the limit is passed back; one byte more is refused. */
  lemma ExecCommandLimitIsInclusive(serviceId: string, command: seq<string>, exitCode: int, logOutput: seq<bv8>)
    ensures |logOutput| == 10485760 ==> ExecCommand(serviceId, command, Ok((exitCode, logOutput))).Ok?
    ensures |logOutput| == 10485761 ==> ExecCommand(serviceId, command, Ok((exitCode, logOutput))).Err?
  {
  }
}
