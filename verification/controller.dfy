/**
 * The attach/detach orchestration of the controller service:
 * `ControllerPublishVolume` maps a volume to the host behind a node and
 * returns how the node reaches it; `ControllerUnpublishVolume` removes the
 * mapping. The array mediator is given as data (`ArrayView`): the host its
 * lookup resolves to, the volume's current mappings, the answers of
 * successive `map_volume` calls, the answer of `unmap_volume`, the array's
 * target lists and its retry bound.
 */
module Controller {
  import opened Wrappers
  import opened Strings
  import opened Identifiers
  import opened Errors
  import opened LunAllocation
  import Status

  datatype Connectivity = Iscsi | Fc

  /** A host as the array resolves it from a node's initiators. */
  datatype Host = Host(name: string, connectivity: set<Connectivity>)

  datatype ArrayView = ArrayView(
    host: Result<Host, MediatorError>,
    mappings: map<string, Lun>,
    mapOracle: MapOracle,
    unmapResult: Result<(), MediatorError>,
    iscsiTargets: seq<string>,
    fcTargets: seq<string>,
    maxLunRetries: nat)

  /**
   * The fields of a request the orchestration reads; `validation` is the
   * verdict of the request-shape check: `None` when the request is
   * acceptable, `Some(message)` when it is rejected.
   */
  datatype Request = Request(volumeId: string, nodeId: string, validation: Option<string>)

  datatype Response = Response(code: Status.Code, details: string, context: map<string, string>)

  /** A publish response and the number of `map_volume` calls made for it. */
  datatype PublishOutcome = PublishOutcome(response: Response, mapCalls: nat)

  datatype Rpc = PublishVolume | UnpublishVolume

  const LunKey := "PUBLISH_CONTEXT_LUN"
  const ConnectivityKey := "PUBLISH_CONTEXT_CONNECTIVITY"
  const ArrayIqnKey := "PUBLISH_CONTEXT_ARRAY_IQN"
  const ArrayFcInitiatorsKey := "PUBLISH_CONTEXT_ARRAY_FC_INITIATORS"
  const TargetDelimiter: char := ','
  const AlreadyMappedPhrase := "Volume is already mapped"

  function Failure(code: Status.Code, details: string): Response
  {
    Response(code, details, map[])
  }

  // ---- request checks ------------------------------------------------------

  /**
   * Status for a malformed identifier. A malformed node id is NOT_FOUND on
   * both calls; a malformed volume id is NOT_FOUND on publish but
   * INVALID_ARGUMENT on unpublish.
   */
  function IdentifierCode(rpc: Rpc, e: IdentifierError): (c: Status.Code)
    ensures e == MalformedNodeId ==> c == Status.NotFound
    ensures e == MalformedVolumeId ==> (c == Status.NotFound <==> rpc == PublishVolume)
    ensures e == MalformedVolumeId ==> (c == Status.InvalidArgument <==> rpc == UnpublishVolume)
  {
    match e
    case MalformedNodeId => Status.NotFound
    case MalformedVolumeId => if rpc.PublishVolume? then Status.NotFound else Status.InvalidArgument
  }

  function IdentifierDetails(e: IdentifierError): string
  {
    match e
    case MalformedVolumeId => "Wrong volume id format"
    case MalformedNodeId => "Wrong node id format"
  }

  /**
   * The checks made before the array is contacted, in order: request shape,
   * volume id, node id. A rejection is a failure response with no context.
   */
  function CheckRequest(rpc: Rpc, req: Request): (r: Result<(VolumeId, NodeId), Response>)
    ensures r.Ok? <==> req.validation.None? && DecodeVolumeId(req.volumeId).Ok? && DecodeNodeId(req.nodeId).Ok?
    ensures r.Ok? ==> r.value == (DecodeVolumeId(req.volumeId).value, DecodeNodeId(req.nodeId).value)
    ensures r.Err? ==> r.error.code != Status.OK && r.error.context == map[]
  {
    if req.validation.Some? then Err(Failure(Status.InvalidArgument, req.validation.value))
    else
      match DecodeVolumeId(req.volumeId)
      case Err(e) => Err(Failure(IdentifierCode(rpc, e), IdentifierDetails(e)))
      case Ok(volume) =>
        match DecodeNodeId(req.nodeId)
        case Err(e) => Err(Failure(IdentifierCode(rpc, e), IdentifierDetails(e)))
        case Ok(node) => Ok((volume, node))
  }

  /** A mediator failure translated at the orchestrator boundary. */
  function MediatorFailure(op: Operation, e: MediatorError): Response
  {
    Failure(TranslateCode(op, e), Details(e))
  }

  // ---- mapping reconciliation ---------------------------------------------

  datatype Reconciliation = NeedsAllocation | AlreadyMapped(lun: Lun) | MappedElsewhere

  lemma SingletonKeys(keys: set<string>, k: string)
    requires |keys| == 1 && k in keys
    ensures keys == {k}
  {
    assert |keys - {k}| == 0;
  }

  /**
   * Classifies the volume's current mappings against the resolved host: no
   * mapping means allocate; exactly one mapping, to this host, means the
   * volume is already attached and its LUN is reused; anything else
   * (another host, or several hosts) is a conflict.
   */
  function Reconcile(mappings: map<string, Lun>, hostname: string): (r: Reconciliation)
    ensures r == NeedsAllocation <==> mappings == map[]
    ensures r.AlreadyMapped? <==> mappings.Keys == {hostname}
    ensures r.AlreadyMapped? ==> mappings == map[hostname := r.lun]
    ensures r == MappedElsewhere <==> mappings != map[] && mappings.Keys != {hostname}
  {
    if |mappings| >= 2 then
      assert mappings.Keys != {hostname} by {
        assert |mappings.Keys| == |mappings|;
      }
      MappedElsewhere
    else if |mappings| == 1 then
      if hostname in mappings then
        SingletonKeys(mappings.Keys, hostname);
        AlreadyMapped(mappings[hostname])
      else
        MappedElsewhere
    else
      assert mappings.Keys == {};
      NeedsAllocation
  }

  // ---- connectivity and publish context -----------------------------------

  /** Fibre Channel is preferred whenever the host supports it. */
  function ChooseConnectivity(supported: set<Connectivity>): (c: Connectivity)
    ensures c == Fc <==> Fc in supported
  {
    if Fc in supported then Fc else Iscsi
  }

  function ConnectivityName(c: Connectivity): string
  {
    match c
    case Fc => "fc"
    case Iscsi => "iscsi"
  }

  /** The context key that carries the array's targets for a connectivity. */
  function TargetsKey(c: Connectivity): string
  {
    match c
    case Fc => ArrayFcInitiatorsKey
    case Iscsi => ArrayIqnKey
  }

  /**
   * The publish context: the LUN in decimal, the connectivity, and the
   * array's targets for that connectivity joined by ','. Only the targets of
   * the chosen connectivity appear.
   */
  function PublishContext(lun: Lun, c: Connectivity, iscsiTargets: seq<string>, fcTargets: seq<string>)
    : (ctx: map<string, string>)
    ensures ctx.Keys == {LunKey, ConnectivityKey, TargetsKey(c)}
    ensures ArrayIqnKey in ctx <==> c == Iscsi
    ensures ArrayFcInitiatorsKey in ctx <==> c == Fc
  {
    var base := map[LunKey := IntToDecimal(lun), ConnectivityKey := ConnectivityName(c)];
    match c
    case Fc => base[ArrayFcInitiatorsKey := Join(fcTargets, TargetDelimiter)]
    case Iscsi => base[ArrayIqnKey := Join(iscsiTargets, TargetDelimiter)]
  }

  function Published(lun: Lun, host: Host, storage: ArrayView): Response
  {
    Response(Status.OK, "", PublishContext(lun, ChooseConnectivity(host.connectivity), storage.iscsiTargets, storage.fcTargets))
  }

  function AlreadyMappedDetails(): (msg: string)
    ensures Contains(msg, AlreadyMappedPhrase)
  {
    var rest := " to another host";
    ContainsPrefix(AlreadyMappedPhrase, rest);
    AlreadyMappedPhrase + rest
  }

  // ---- publish -------------------------------------------------------------

  /**
   * ControllerPublishVolume as a function of the request and the array's
   * answers. A response is OK exactly when it carries a context; failures
   * carry none; at most `maxLunRetries + 1` `map_volume` calls are made.
   */
  function Publish(req: Request, storage: ArrayView): (o: PublishOutcome)
    ensures o.mapCalls <= storage.maxLunRetries + 1
    ensures o.response.code == Status.OK <==> o.response.context != map[]
    ensures o.response.code == Status.OK ==> LunKey in o.response.context
  {
    match CheckRequest(PublishVolume, req)
    case Err(response) => PublishOutcome(response, 0)
    case Ok(_) =>
      match storage.host
      case Err(e) => PublishOutcome(MediatorFailure(ResolveHost, e), 0)
      case Ok(host) =>
        match Reconcile(storage.mappings, host.name)
        case MappedElsewhere => PublishOutcome(Failure(Status.FailedPrecondition, AlreadyMappedDetails()), 0)
        case AlreadyMapped(lun) => PublishOutcome(Published(lun, host, storage), 0)
        case NeedsAllocation =>
          var a := Allocate(storage.mapOracle, storage.maxLunRetries);
          match a.result
          case Err(e) => PublishOutcome(MediatorFailure(MapVolume, e), a.calls)
          case Ok(lun) => PublishOutcome(Published(lun, host, storage), a.calls)
  }

  /** The publish call itself, running the allocation loop against the array. */
  method ControllerPublishVolume(req: Request, storage: ArrayView) returns (response: Response, mapCalls: nat)
    ensures PublishOutcome(response, mapCalls) == Publish(req, storage)
  {
    mapCalls := 0;
    var checked := CheckRequest(PublishVolume, req);
    if checked.Err? {
      response := checked.error;
      return;
    }
    if storage.host.Err? {
      response := MediatorFailure(ResolveHost, storage.host.error);
      return;
    }
    var host := storage.host.value;
    var lun: Lun;
    match Reconcile(storage.mappings, host.name) {
      case MappedElsewhere =>
        response := Failure(Status.FailedPrecondition, AlreadyMappedDetails());
        return;
      case AlreadyMapped(existing) =>
        lun := existing;
      case NeedsAllocation =>
        var result;
        result, mapCalls := AllocateLun(storage.mapOracle, storage.maxLunRetries);
        if result.Err? {
          response := MediatorFailure(MapVolume, result.error);
          return;
        }
        lun := result.value;
    }
    response := Published(lun, host, storage);
  }

  // ---- unpublish -----------------------------------------------------------

  /**
   * ControllerUnpublishVolume. It never returns a context, and it succeeds
   * exactly when the request passes its checks, the host resolves, and the
   * unmap succeeds or finds the volume already unmapped.
   */
  function Unpublish(req: Request, storage: ArrayView): (r: Response)
    ensures r.context == map[]
    ensures r.code == Status.OK <==>
      && CheckRequest(UnpublishVolume, req).Ok?
      && storage.host.Ok?
      && (storage.unmapResult.Ok? || storage.unmapResult == Err(VolumeAlreadyUnmapped))
  {
    match CheckRequest(UnpublishVolume, req)
    case Err(response) => response
    case Ok(_) =>
      match storage.host
      case Err(e) => MediatorFailure(ResolveHost, e)
      case Ok(_) =>
        match storage.unmapResult
        case Ok(_) => Response(Status.OK, "", map[])
        case Err(e) => MediatorFailure(UnmapVolume, e)
  }
}
