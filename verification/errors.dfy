/** The gRPC status codes the controller answers with. */
module Status {

  datatype Code =
    | OK
    | InvalidArgument
    | NotFound
    | FailedPrecondition
    | PermissionDenied
    | ResourceExhausted
    | Internal
}

/**
 * The closed taxonomy of failures the array mediator reports, and their
 * translation to status codes, contextualised by the mediator call that
 * raised them.
 */
module Errors {
  import Status
  import opened Strings

  datatype MediatorError =
    | HostNotFound
    | MultipleHostsFound
    | PermissionDenied
    | VolumeNotFound
    | LunAlreadyInUse
    | MappingError
    | UnMappingError
    | VolumeAlreadyUnmapped

  /** The mediator calls whose failures the controller translates. */
  datatype Operation = ResolveHost | MapVolume | UnmapVolume

  /**
   * Status code for a failure of `op`. A colliding LUN only escapes the
   * allocation loop once every attempt collided, so for `MapVolume` it
   * means the LUN range is exhausted; an already-unmapped volume is the
   * goal of an unmap, so it is success. Every kind not named for an
   * operation falls to the catch-all `INTERNAL`.
   */
  function TranslateCode(op: Operation, e: MediatorError): (c: Status.Code)
    ensures c == Status.OK <==> op == UnmapVolume && e == VolumeAlreadyUnmapped
    ensures c == Status.ResourceExhausted <==> op == MapVolume && e == LunAlreadyInUse
    ensures c == Status.PermissionDenied <==> e == PermissionDenied
    ensures c == Status.NotFound <==> e == HostNotFound || e == VolumeNotFound
    ensures c != Status.InvalidArgument && c != Status.FailedPrecondition
  {
    match e
    case HostNotFound => Status.NotFound
    case VolumeNotFound => Status.NotFound
    case PermissionDenied => Status.PermissionDenied
    case LunAlreadyInUse => if op == MapVolume then Status.ResourceExhausted else Status.Internal
    case VolumeAlreadyUnmapped => if op == UnmapVolume then Status.OK else Status.Internal
    case MultipleHostsFound => Status.Internal
    case MappingError => Status.Internal
    case UnMappingError => Status.Internal
  }

  const MultipleHostsPhrase := "Multiple hosts"

  /** Human-readable details for a failure; an ambiguous host lookup says so. */
  function Details(e: MediatorError): (msg: string)
    ensures e == MultipleHostsFound ==> Contains(msg, MultipleHostsPhrase)
  {
    match e
    case HostNotFound => "Host not found for the given initiators"
    case MultipleHostsFound =>
      var rest := " found for the given initiators";
      ContainsPrefix(MultipleHostsPhrase, rest);
      MultipleHostsPhrase + rest
    case PermissionDenied => "Permission denied by the storage array"
    case VolumeNotFound => "Volume not found on the storage array"
    case LunAlreadyInUse => "No free LUN left for the volume"
    case MappingError => "Mapping the volume failed"
    case UnMappingError => "Unmapping the volume failed"
    case VolumeAlreadyUnmapped => ""
  }
}
