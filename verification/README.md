# Attach/detach orchestration of the IBM block CSI controller

This project models how the controller service of the IBM block storage CSI
driver handles `ControllerPublishVolume` (attach a volume to a node) and
`ControllerUnpublishVolume` (detach it). Here is what the model covers:

- how the two identifiers are decoded. A volume id is
  `<array type>:<volume>`. A node id is `<host>;<iqns>;<wwns>`: IQNs are
  separated by `,`, WWNs by `:`, and either list may be empty.
- the order of the checks before the array is contacted: request shape,
  then volume id, then node id.
- host resolution.
- reconciliation of the volume's existing mappings against the resolved host.
- the bounded retry loop around `map_volume`. A LUN collision
  (`LunAlreadyInUse`) is retried; any other failure ends the call at once.
- the choice of connectivity and the publish context it returns. Fibre
  Channel is preferred over iSCSI, and the context holds the LUN in decimal,
  the connectivity name and the array's targets joined by `,`.
- the closed translation of array failures into gRPC status codes.

The array mediator is given as data (`Controller.ArrayView`):

- the host its lookup resolves to, or the failure of that lookup;
- the volume's current mappings;
- the answers of successive `map_volume` calls (`LunAllocation.MapOracle`);
- the answer of `unmap_volume`;
- the array's iSCSI and FC target lists;
- its retry bound.

The retry loop is a method (`LunAllocation.AllocateLun`) proved equal to a
function (`LunAllocation.Allocate`). That function is characterised
uniquely by `LunAllocation.IsAllocation`. The rest of the orchestration is
pure:

- `Controller.Publish` and `Controller.Unpublish` are functions.
- `Controller.ControllerPublishVolume` runs the loop and is proved equal to
  `Publish`.
- `ControllerProperties` states the promises over all requests and all array
  answers.
- `ControllerScenarios` replays the publish and unpublish test cases of the
  controller's test suite on their own fixtures; every outcome those tests
  assert is stated by one of its lemmas.

Modules:

- `Wrappers`: `Option`, `Result`.
- `Strings`: split and join with Python's semantics, occurrence counts and
  decimal rendering, with their round trips.
- `Identifiers`: identifier decoding and encoding.
- `Status`, `Errors`: status codes and the failure taxonomy.
- `LunAllocation`: the retry loop.
- `Controller`: the two calls.
- `ControllerProperties`, `ControllerScenarios`: as above.

The implementation file of the controller service is not part of this
model; only its test suite is. The behaviour the tests leave open follows
the design of the service:

- the decoding order;
- the encoding of IQN and WWN lists;
- the retry bound counting *additional* attempts.

## Model

| member | source | states |
|---|---|---|
| Identifiers.DecodeVolumeId | controller/tests/controller_server/csi_controller_server_test.py:72-77 | a volume id decodes exactly when it holds exactly one ':'; otherwise it is a malformed-volume-id error |
| Identifiers.EncodeDecodeVolumeId | controller/tests/controller_server/csi_controller_server_test.py:42 | every decodable volume id is the encoding of what it decodes to |
| Identifiers.DecodeEncodeVolumeId | controller/tests/controller_server/csi_controller_server_test.py:42 | encoding an array type without ':' and a volume name without ':' decodes back to both |
| Identifiers.DecodeNodeId | controller/tests/controller_server/csi_controller_server_test.py:79-84 | a node id decodes exactly when it holds exactly two ';'; otherwise it is a malformed-node-id error |
| Identifiers.DecodeList | controller/tests/controller_server/csi_controller_server_test.py:155-192 | an initiator list is empty exactly when its field is empty |
| Identifiers.DecodeEncodeNodeId | controller/tests/controller_server/csi_controller_server_test.py:155-209 | a node with well-formed host, IQN and WWN lists survives encoding and decoding |
| Identifiers.EncodeDecodeNodeId | controller/tests/controller_server/csi_controller_server_test.py:194 | every decodable node id is the encoding of what it decodes to |
| Strings.Split | controller/tests/controller_server/csi_controller_server_test.py:194 | splitting gives one more part than there are delimiters, and no part holds the delimiter |
| Strings.JoinSplit | controller/tests/controller_server/csi_controller_server_test.py:194 | joining the parts of a split gives back the original text |
| Strings.SplitJoin | controller/tests/controller_server/csi_controller_server_test.py:197-209 | splitting a join of delimiter-free parts gives back the parts |
| Strings.IntDecimalRoundTrip | controller/tests/controller_server/csi_controller_server_test.py:264-269 | the decimal rendering of a LUN reads back to the same LUN |
| Errors.TranslateCode | controller/tests/controller_server/csi_controller_server_test.py:233-256 | translation is total. OK exactly for an already-unmapped volume on unmap. RESOURCE_EXHAUSTED exactly for a LUN collision on map. PERMISSION_DENIED exactly for permission denied. NOT_FOUND exactly for a missing host or volume. Never INVALID_ARGUMENT or FAILED_PRECONDITION. Everything else is INTERNAL |
| Errors.Details | controller/tests/controller_server/csi_controller_server_test.py:86-96 | the details of an ambiguous host lookup contain "Multiple hosts" |
| Controller.IdentifierCode | controller/tests/controller_server/csi_controller_server_test.py:340-352 | a malformed node id is NOT_FOUND on both calls. A malformed volume id is NOT_FOUND on publish and INVALID_ARGUMENT on unpublish |
| Controller.CheckRequest | controller/tests/controller_server/csi_controller_server_test.py:64-84 | a request passes exactly when its shape is accepted and both ids decode, and it yields their decodings. A rejection is a non-OK response with no context |
| Controller.Reconcile | controller/tests/controller_server/csi_controller_server_test.py:104-231 | no mapping means allocate. A mapping set of exactly this host means adopt its LUN. Any other non-empty mapping set is a conflict |
| Controller.ChooseConnectivity | controller/tests/controller_server/csi_controller_server_test.py:117-153 | Fibre Channel is chosen exactly when the host supports it |
| Controller.PublishContext | controller/tests/controller_server/csi_controller_server_test.py:117-153 | the context holds the LUN, the connectivity and the targets key of that connectivity, and no other key |
| Controller.AlreadyMappedDetails | controller/tests/controller_server/csi_controller_server_test.py:211-231 | the conflict message contains "Volume is already mapped" |
| Controller.Publish | controller/tests/controller_server/csi_controller_server_test.py:56-298 | at most `maxLunRetries + 1` map calls. The response is OK exactly when it carries a context. An OK context carries the LUN |
| Controller.ControllerPublishVolume | controller/tests/controller_server/csi_controller_server_test.py:56-298 | the publish call, running the allocation loop, gives the response and map-call count of `Publish` |
| Controller.Unpublish | controller/tests/controller_server/csi_controller_server_test.py:325-403 | no context. OK exactly when the request passes its checks, the host resolves, and the unmap succeeds or finds the volume already unmapped |
| LunAllocation.AllocationUnique | controller/tests/controller_server/csi_controller_server_test.py:258-298 | at most one allocation fits the description of the retry loop |
| LunAllocation.AllocateFrom | controller/tests/controller_server/csi_controller_server_test.py:258-298 | from attempt `from`, the loop keeps the first answer that is not a collision, or the last permitted one, and every skipped answer collided |
| LunAllocation.Allocate | controller/tests/controller_server/csi_controller_server_test.py:258-298 | the allocation is between 1 and `maxLunRetries + 1` calls, keeps the last answer, and skipped only collisions. It ends on a collision only at the bound |
| LunAllocation.AllocateLun | controller/tests/controller_server/csi_controller_server_test.py:258-298 | the retry loop makes exactly the allocation of `Allocate` |
| LunAllocation.AllocateAfterCollisions | controller/tests/controller_server/csi_controller_server_test.py:264-291 | k collisions within the bound and then a LUN give that LUN after k + 1 calls |
| LunAllocation.AllocateStopsOnOtherFailure | controller/tests/controller_server/csi_controller_server_test.py:233-256 | k collisions and then any other failure give that failure after k + 1 calls, with no retry |
| LunAllocation.AllocateExhausted | controller/tests/controller_server/csi_controller_server_test.py:293-298 | collisions on all `maxLunRetries + 1` calls end in a collision after exactly that many calls |
| LunAllocation.ExhaustedOnlyWhenAllCollide | controller/tests/controller_server/csi_controller_server_test.py:293-298 | the allocation ends in a collision if and only if every permitted call collided |
| ControllerProperties.ValidationFailure | controller/tests/controller_server/csi_controller_server_test.py:64-70 | a rejected request shape is INVALID_ARGUMENT on both calls, carrying the rejection message, with no map call |
| ControllerProperties.MalformedVolumeIdAsymmetry | controller/tests/controller_server/csi_controller_server_test.py:72-77 | a volume id without exactly one ':' is NOT_FOUND on publish and INVALID_ARGUMENT on unpublish, whatever the rest, with no map call |
| ControllerProperties.MalformedNodeId | controller/tests/controller_server/csi_controller_server_test.py:79-84 | a node id without exactly two ';' is NOT_FOUND on both calls, with no map call |
| ControllerProperties.EmptyIqnFieldAccepted | controller/tests/controller_server/csi_controller_server_test.py:176-209 | a node id with an empty IQN field decodes to a node with no IQNs and its WWNs |
| ControllerProperties.EmptyWwnFieldAccepted | controller/tests/controller_server/csi_controller_server_test.py:155-173 | a node id with an empty WWN field decodes to a node with its IQNs and no WWNs |
| ControllerProperties.HostResolutionFailure | controller/tests/controller_server/csi_controller_server_test.py:86-102 | a failed host lookup gives the same translated failure on both calls. Several hosts is INTERNAL mentioning "Multiple hosts"; no host is NOT_FOUND |
| ControllerProperties.AdoptExistingMapping | controller/tests/controller_server/csi_controller_server_test.py:104-115 | a volume mapped to exactly this host is OK with that LUN, without a map call |
| ControllerProperties.ConflictingMapping | controller/tests/controller_server/csi_controller_server_test.py:211-231 | any other non-empty mapping set is FAILED_PRECONDITION saying "Volume is already mapped", with no context and no map call |
| ControllerProperties.TwoMappingsConflict | controller/tests/controller_server/csi_controller_server_test.py:222-231 | two mappings conflict even when one of them is to this host |
| ControllerProperties.RetryThenSucceed | controller/tests/controller_server/csi_controller_server_test.py:258-291 | with no mapping, k collisions within the bound and then a LUN give OK with that LUN after k + 1 calls |
| ControllerProperties.RetryExhausted | controller/tests/controller_server/csi_controller_server_test.py:293-298 | `maxLunRetries + 1` collisions give RESOURCE_EXHAUSTED after that many calls |
| ControllerProperties.MapFailureNotRetried | controller/tests/controller_server/csi_controller_server_test.py:233-256 | any other first map failure ends the call after one call. Permission denied is PERMISSION_DENIED, a missing volume or host is NOT_FOUND, a mapping error is INTERNAL |
| ControllerProperties.PublishConnectivity | controller/tests/controller_server/csi_controller_server_test.py:117-209 | an OK publish carries "fc" and the joined FC targets when the host supports FC; otherwise it carries "iscsi" and the joined iSCSI targets. It never carries the other connectivity's targets |
| ControllerProperties.TargetsRecoverable | controller/tests/controller_server/csi_controller_server_test.py:194-209 | the joined targets split back into the array's list, and a single target is passed as it is |
| ControllerProperties.PublishedLun | controller/tests/controller_server/csi_controller_server_test.py:258-291 | the LUN an OK publish reports reads back as a decimal. It is the host's existing LUN when mapped, and otherwise the allocated LUN |
| ControllerProperties.UnpublishUnmapOutcome | controller/tests/controller_server/csi_controller_server_test.py:372-403 | once the host resolves, success and an already-unmapped volume are OK. Permission denied is PERMISSION_DENIED, a missing volume or host is NOT_FOUND, an unmapping error is INTERNAL |
| ControllerScenarios.PublishSucceeds | controller/tests/controller_server/csi_controller_server_test.py:19-62 | the default request against the default array is OK after one map call |
| ControllerScenarios.WrongVolumeId | controller/tests/controller_server/csi_controller_server_test.py:72-77 | "some-wrong-id-format" as volume id is NOT_FOUND on publish and INVALID_ARGUMENT on unpublish (:340-345) |
| ControllerScenarios.WrongNodeId | controller/tests/controller_server/csi_controller_server_test.py:79-84 | "some-wrong-id-format" as node id is NOT_FOUND on publish and on unpublish (:347-352) |
| ControllerScenarios.AdoptsLunTwo | controller/tests/controller_server/csi_controller_server_test.py:104-115 | an existing mapping of this host at LUN 2 gives "2" over "iscsi" |
| ControllerScenarios.PrefersFibreChannel | controller/tests/controller_server/csi_controller_server_test.py:117-133 | an iSCSI and FC host gets exactly LUN "1", "fc" and the FC target |
| ControllerScenarios.IscsiOnlyHost | controller/tests/controller_server/csi_controller_server_test.py:135-153 | an iSCSI-only host gets exactly LUN "1", "iscsi" and the IQN target |
| ControllerScenarios.NodeIdWithIqnsOnly | controller/tests/controller_server/csi_controller_server_test.py:155-173 | a node id with an empty WWN field publishes exactly LUN "1", "iscsi" and the IQN target |
| ControllerScenarios.SingleFibreChannelTarget | controller/tests/controller_server/csi_controller_server_test.py:175-192 | a node id with one WWN only, on an FC host with one target, publishes exactly LUN "1", "fc" and that target |
| ControllerScenarios.TwoFibreChannelTargets | controller/tests/controller_server/csi_controller_server_test.py:194-209 | a node id with two WWNs only, on an FC host with two targets, publishes exactly LUN "1", "fc" and both targets joined by ',' |
| ControllerScenarios.MappedToOtherHost | controller/tests/controller_server/csi_controller_server_test.py:211-220 | a mapping to "other-hostname" is FAILED_PRECONDITION saying "Volume is already mapped" |
| ControllerScenarios.MappedToTwoHosts | controller/tests/controller_server/csi_controller_server_test.py:222-231 | mappings to "other-hostname" and this host are FAILED_PRECONDITION saying "Volume is already mapped" |
| ControllerScenarios.LunAlreadyInUseRetried | controller/tests/controller_server/csi_controller_server_test.py:261-270 | one collision then LUN 2, on the iSCSI host, gives "2" over "iscsi" |
| ControllerScenarios.LunAlreadyInUseRetriedOverFc | controller/tests/controller_server/csi_controller_server_test.py:272-291 | on the FC-only host, one collision then LUN 2 gives "2" over "fc", and so do two collisions then LUN 2 |
| ControllerScenarios.LunRangeExhausted | controller/tests/controller_server/csi_controller_server_test.py:293-298 | `maxLunRetries + 1` collisions on the FC-only host give RESOURCE_EXHAUSTED |
| ControllerScenarios.MapVolumeFailure | controller/tests/controller_server/csi_controller_server_test.py:233-256 | a first `map_volume` failure ends the call after one call: permission denied is PERMISSION_DENIED, a missing volume or host NOT_FOUND, a mapping error INTERNAL |
| ControllerScenarios.ValidationRejected | controller/tests/controller_server/csi_controller_server_test.py:64-70 | a request rejected with "msg" by the shape check is INVALID_ARGUMENT with "msg" in its details, on publish and on unpublish (:332-338) |
| ControllerScenarios.HostLookupFailure | controller/tests/controller_server/csi_controller_server_test.py:86-102 | several matching hosts give INTERNAL mentioning "Multiple hosts" and no matching host gives NOT_FOUND, on publish and on unpublish (:354-370) |
| ControllerScenarios.UnmapVolumeFailure | controller/tests/controller_server/csi_controller_server_test.py:372-403 | an unmap failure gives PERMISSION_DENIED, NOT_FOUND, NOT_FOUND or INTERNAL as the test expects, and an already unmapped volume gives OK |
| ControllerScenarios.UnpublishSucceeds | controller/tests/controller_server/csi_controller_server_test.py:301-330 | the default unpublish request is OK |

## Left out

- The gRPC server, request and response messages, and the status-setting context are not modelled. A response is a code, a details string and a context map.
- The array mediator and the connection manager are left out. This covers connecting with credentials, the array-type registry, and releasing the mediator. The mediator's answers are plain data in `ArrayView`.
- `ArrayView` answers do not depend on the decoded identifiers. The host lookup, the mapping query and the target lists are taken as given for the request.
- The mapping query and the target-list fetch cannot fail in the model; the tests never make them fail.
- The request-shape validation rules (capabilities, access modes, secrets) are not modelled. Their verdict is an input, `Request.validation`, whose message is carried through.
- Identity RPCs (`GetPluginInfo`, `GetPluginCapabilities`, `Probe`) and `ControllerGetCapabilities` are outside the attach/detach core.
- Message wording is not modelled beyond the two phrases the tests check: "Multiple hosts" and "Volume is already mapped".
- Test :290-291 checks the previous call's response object again, not the two-collision call's. The model does not reproduce that stale read; `LunAlreadyInUseRetriedOverFc` states the two-collision call's own outcome.
- ControllerScenarios.LunAlreadyInUseRetried: requires `maxLunRetries >= 1`. The array's default bound is not part of this model, and a retry needs a bound of at least one.
- ControllerScenarios.LunAlreadyInUseRetriedOverFc: requires `maxLunRetries >= 2`, for the same reason; the two-collision case needs at least two retries.
- The publish fixture's `get_array_iqns` returns the plain string "array-iqn" (:35-36). Joining a Python string with ',' would separate its characters. The model treats it as a one-element target list; the tests never read the iSCSI targets in that case. Line :265 sets an attribute on the `map_volume` mock that nothing reads, so it has no counterpart in the model.
- LunAllocation.AllocateLun: the retry bound is read as `maxLunRetries + 1` attempts in total. The tests at :293-298 cannot tell this from `maxLunRetries` attempts in total: their list of `maxLunRetries + 1` collisions gives only collisions either way.
- Integer width is not modelled: a LUN is an unbounded `int`, rendered in decimal with a leading '-' when negative.
