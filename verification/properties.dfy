/**
 * What the attach/detach orchestration promises, stated over all requests
 * and all answers of the array.
 */
module ControllerProperties {
  import opened Wrappers
  import opened Strings
  import opened Identifiers
  import opened Errors
  import opened LunAllocation
  import opened Controller
  import Status

  /**
   * A request that passes the checks made before the array is contacted
   * (the same on both calls: see `CheckRequest`).
   */
  predicate WellFormedRequest(req: Request)
  {
    CheckRequest(PublishVolume, req).Ok?
  }

  // ---- request checks ------------------------------------------------------

  /** A rejected request shape is INVALID_ARGUMENT on both calls, carrying the rejection message. */
  lemma ValidationFailure(req: Request, storage: ArrayView, msg: string)
    requires req.validation == Some(msg)
    ensures Publish(req, storage) == PublishOutcome(Response(Status.InvalidArgument, msg, map[]), 0)
    ensures Unpublish(req, storage) == Response(Status.InvalidArgument, msg, map[])
  {
  }

  /**
   * A volume id without exactly one ':' is NOT_FOUND on publish but
   * INVALID_ARGUMENT on unpublish, whatever the node id and the array.
   */
  lemma MalformedVolumeIdAsymmetry(req: Request, storage: ArrayView)
    requires req.validation.None? && Occurrences(req.volumeId, VolumeIdDelimiter) != 1
    ensures Publish(req, storage).response.code == Status.NotFound
    ensures Unpublish(req, storage).code == Status.InvalidArgument
    ensures Publish(req, storage).mapCalls == 0
  {
  }

  /** A node id without exactly three ';'-separated fields is NOT_FOUND on both calls. */
  lemma MalformedNodeId(req: Request, storage: ArrayView)
    requires req.validation.None? && DecodeVolumeId(req.volumeId).Ok?
    requires Occurrences(req.nodeId, NodeIdDelimiter) != 2
    ensures Publish(req, storage).response.code == Status.NotFound
    ensures Unpublish(req, storage).code == Status.NotFound
    ensures Publish(req, storage).mapCalls == 0
  {
  }

  /** A node id whose IQN field is empty decodes to a node with no IQNs. */
  lemma EmptyIqnFieldAccepted(hostname: string, wwns: seq<string>)
    requires NodeIdDelimiter !in hostname && WellFormedList(wwns, WwnDelimiter)
    ensures DecodeNodeId(hostname + ";;" + Join(wwns, WwnDelimiter)) == Ok(NodeId(hostname, [], wwns))
  {
    var n := NodeId(hostname, [], wwns);
    DecodeEncodeNodeId(n);
    assert EncodeNodeId(n) == hostname + ";;" + Join(wwns, WwnDelimiter);
  }

  /** A node id whose WWN field is empty decodes to a node with no WWNs. */
  lemma EmptyWwnFieldAccepted(hostname: string, iqns: seq<string>)
    requires NodeIdDelimiter !in hostname && WellFormedList(iqns, IqnDelimiter)
    ensures DecodeNodeId(hostname + ";" + Join(iqns, IqnDelimiter) + ";") == Ok(NodeId(hostname, iqns, []))
  {
    var n := NodeId(hostname, iqns, []);
    DecodeEncodeNodeId(n);
    assert EncodeNodeId(n) == hostname + ";" + Join(iqns, IqnDelimiter) + ";";
  }

  // ---- host resolution -----------------------------------------------------

  /**
   * A failed host lookup gives the same status on both calls, before any
   * mapping call: several matching hosts is INTERNAL with details naming the
   * ambiguity, no matching host is NOT_FOUND.
   */
  lemma HostResolutionFailure(req: Request, storage: ArrayView, e: MediatorError)
    requires WellFormedRequest(req) && storage.host == Err(e)
    ensures Publish(req, storage) == PublishOutcome(MediatorFailure(ResolveHost, e), 0)
    ensures Unpublish(req, storage) == MediatorFailure(ResolveHost, e)
    ensures e == MultipleHostsFound ==>
      && Publish(req, storage).response.code == Status.Internal
      && Contains(Publish(req, storage).response.details, MultipleHostsPhrase)
      && Unpublish(req, storage).code == Status.Internal
      && Contains(Unpublish(req, storage).details, MultipleHostsPhrase)
    ensures e == HostNotFound ==>
      Publish(req, storage).response.code == Status.NotFound && Unpublish(req, storage).code == Status.NotFound
  {
  }

  // ---- reconciliation --------------------------------------------------------

  /** A volume mapped to exactly this host keeps its LUN: OK, no `map_volume` call. */
  lemma AdoptExistingMapping(req: Request, storage: ArrayView, host: Host, lun: Lun)
    requires WellFormedRequest(req) && storage.host == Ok(host)
    requires storage.mappings == map[host.name := lun]
    ensures Publish(req, storage).response.code == Status.OK
    ensures Publish(req, storage).response.context[LunKey] == IntToDecimal(lun)
    ensures Publish(req, storage).mapCalls == 0
  {
    assert storage.mappings.Keys == {host.name};
  }

  /**
   * A volume mapped to another host, or to several hosts (even if this host
   * is one of them), is FAILED_PRECONDITION, before any `map_volume` call.
   */
  lemma ConflictingMapping(req: Request, storage: ArrayView, host: Host)
    requires WellFormedRequest(req) && storage.host == Ok(host)
    requires storage.mappings != map[] && storage.mappings.Keys != {host.name}
    ensures Publish(req, storage).response.code == Status.FailedPrecondition
    ensures Contains(Publish(req, storage).response.details, AlreadyMappedPhrase)
    ensures Publish(req, storage).response.context == map[]
    ensures Publish(req, storage).mapCalls == 0
  {
  }

  /** Two mappings are a conflict even when one of them is to this host. */
  lemma TwoMappingsConflict(hostname: string, other: string, a: Lun, b: Lun)
    requires hostname != other
    ensures Reconcile(map[other := a, hostname := b], hostname) == MappedElsewhere
  {
    var m := map[other := a, hostname := b];
    assert other in m.Keys && other !in {hostname};
  }

  // ---- allocation ------------------------------------------------------------

  /**
   * With no mapping, k collisions (k at most `maxLunRetries`) and then a LUN
   * give OK with that LUN after k + 1 calls.
   */
  lemma RetryThenSucceed(req: Request, storage: ArrayView, host: Host, k: nat, lun: Lun)
    requires WellFormedRequest(req) && storage.host == Ok(host) && storage.mappings == map[]
    requires k <= storage.maxLunRetries
    requires forall j :: 0 <= j < k ==> Collision(storage.mapOracle.Answer(j))
    requires storage.mapOracle.Answer(k) == Ok(lun)
    ensures Publish(req, storage).response.code == Status.OK
    ensures Publish(req, storage).response.context[LunKey] == IntToDecimal(lun)
    ensures Publish(req, storage).mapCalls == k + 1
  {
    AllocateAfterCollisions(storage.mapOracle, storage.maxLunRetries, k, lun);
  }

  /** `maxLunRetries + 1` collisions in a row give RESOURCE_EXHAUSTED. */
  lemma RetryExhausted(req: Request, storage: ArrayView, host: Host)
    requires WellFormedRequest(req) && storage.host == Ok(host) && storage.mappings == map[]
    requires forall j :: 0 <= j <= storage.maxLunRetries ==> Collision(storage.mapOracle.Answer(j))
    ensures Publish(req, storage).response.code == Status.ResourceExhausted
    ensures Publish(req, storage).mapCalls == storage.maxLunRetries + 1
  {
    AllocateExhausted(storage.mapOracle, storage.maxLunRetries);
  }

  /**
   * Any other `map_volume` failure ends the call at once, without a retry:
   * permission denied is PERMISSION_DENIED, a missing volume or host is
   * NOT_FOUND, a mapping error is INTERNAL.
   */
  lemma MapFailureNotRetried(req: Request, storage: ArrayView, host: Host, e: MediatorError)
    requires WellFormedRequest(req) && storage.host == Ok(host) && storage.mappings == map[]
    requires storage.mapOracle.Answer(0) == Err(e) && e != LunAlreadyInUse
    ensures Publish(req, storage) == PublishOutcome(MediatorFailure(MapVolume, e), 1)
    ensures e == PermissionDenied ==> Publish(req, storage).response.code == Status.PermissionDenied
    ensures e == VolumeNotFound ==> Publish(req, storage).response.code == Status.NotFound
    ensures e == HostNotFound ==> Publish(req, storage).response.code == Status.NotFound
    ensures e == MappingError ==> Publish(req, storage).response.code == Status.Internal
  {
    AllocateStopsOnOtherFailure(storage.mapOracle, storage.maxLunRetries, 0, e);
  }

  // ---- publish context -------------------------------------------------------

  /**
   * An OK publish chose its connectivity by preference for Fibre Channel and
   * carries exactly the targets of that connectivity, joined by ','.
   */
  lemma PublishConnectivity(req: Request, storage: ArrayView)
    requires Publish(req, storage).response.code == Status.OK
    ensures storage.host.Ok?
    ensures var ctx := Publish(req, storage).response.context;
      if Fc in storage.host.value.connectivity then
        && ctx[ConnectivityKey] == "fc"
        && ctx[ArrayFcInitiatorsKey] == Join(storage.fcTargets, TargetDelimiter)
        && ArrayIqnKey !in ctx
      else
        && ctx[ConnectivityKey] == "iscsi"
        && ctx[ArrayIqnKey] == Join(storage.iscsiTargets, TargetDelimiter)
        && ArrayFcInitiatorsKey !in ctx
  {
  }

  /**
   * The targets a node reads from the context split back into the array's
   * own list; a single target is passed as it is.
   */
  lemma TargetsRecoverable(targets: seq<string>)
    requires |targets| >= 1 && Free(targets, TargetDelimiter)
    ensures Split(Join(targets, TargetDelimiter), TargetDelimiter) == targets
    ensures |targets| == 1 ==> Join(targets, TargetDelimiter) == targets[0]
  {
    SplitJoin(targets, TargetDelimiter);
  }

  /**
   * The LUN an OK publish reports is the host's existing LUN when the volume
   * was already mapped to it, and otherwise the LUN the allocation returned.
   */
  lemma PublishedLun(req: Request, storage: ArrayView)
    requires Publish(req, storage).response.code == Status.OK
    ensures storage.host.Ok?
    ensures var s := Publish(req, storage).response.context[LunKey];
      && |s| >= 1
      && (if s[0] == '-' then AllDigits(s[1..]) else AllDigits(s))
      && var lun := DecimalToInt(s);
      if storage.mappings == map[] then
        && Allocate(storage.mapOracle, storage.maxLunRetries).result == Ok(lun)
        && Publish(req, storage).mapCalls == Allocate(storage.mapOracle, storage.maxLunRetries).calls
      else
        storage.mappings == map[storage.host.value.name := lun] && Publish(req, storage).mapCalls == 0
  {
    var host := storage.host.value;
    match Reconcile(storage.mappings, host.name)
    case MappedElsewhere =>
    case AlreadyMapped(lun) =>
      IntDecimalRoundTrip(lun);
    case NeedsAllocation =>
      IntDecimalRoundTrip(Allocate(storage.mapOracle, storage.maxLunRetries).result.value);
  }

  // ---- unpublish ---------------------------------------------------------------

  /**
   * Once the host resolves, the unmap answer decides: success and an already
   * unmapped volume are OK (detach is idempotent); permission denied is
   * PERMISSION_DENIED, a missing volume or host NOT_FOUND, an unmapping error
   * INTERNAL.
   */
  lemma UnpublishUnmapOutcome(req: Request, storage: ArrayView, host: Host)
    requires WellFormedRequest(req) && storage.host == Ok(host)
    ensures storage.unmapResult.Ok? ==> Unpublish(req, storage) == Response(Status.OK, "", map[])
    ensures storage.unmapResult.Err? ==> Unpublish(req, storage) == MediatorFailure(UnmapVolume, storage.unmapResult.error)
    ensures storage.unmapResult == Err(VolumeAlreadyUnmapped) ==> Unpublish(req, storage).code == Status.OK
    ensures storage.unmapResult == Err(PermissionDenied) ==> Unpublish(req, storage).code == Status.PermissionDenied
    ensures storage.unmapResult == Err(VolumeNotFound) ==> Unpublish(req, storage).code == Status.NotFound
    ensures storage.unmapResult == Err(HostNotFound) ==> Unpublish(req, storage).code == Status.NotFound
    ensures storage.unmapResult == Err(UnMappingError) ==> Unpublish(req, storage).code == Status.Internal
  {
  }
}
