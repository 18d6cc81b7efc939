/**
 * The controller's test cases, replayed against the model: the fixtures'
 * default requests and array answers; every outcome the publish and
 * unpublish tests assert is stated by one of the lemmas below.
 * The array type prefix of the volume id is a parameter (any text without
 * ':'), as is the array's retry bound where a case does not depend on it.
 */
module ControllerScenarios {
  import opened Wrappers
  import opened Strings
  import opened Identifiers
  import opened Errors
  import opened LunAllocation
  import opened Controller
  import opened ControllerProperties
  import Status

  const FixtureWwn := "500143802426baf4"
  const SecondWwn := "500143806626bae2"
  const FixtureIqn := "iqn.1994-05.com.redhat:686358c930fe"
  /** "hostname;iqn.1994-05.com.redhat:686358c930fe;500143802426baf4" */
  const FixtureNodeId := "hostname" + ";" + FixtureIqn + ";" + FixtureWwn

  function FixtureVolumeId(arrayType: string): string
  {
    arrayType + ":wwn1"
  }

  function FixtureRequest(arrayType: string): Request
  {
    Request(FixtureVolumeId(arrayType), FixtureNodeId, None)
  }

  lemma FixtureVolumeIdDecodes(arrayType: string)
    requires VolumeIdDelimiter !in arrayType
    ensures DecodeVolumeId(FixtureVolumeId(arrayType)) == Ok(VolumeId(arrayType, "wwn1"))
  {
    DecodeEncodeVolumeId(VolumeId(arrayType, "wwn1"));
    assert EncodeVolumeId(VolumeId(arrayType, "wwn1")) == FixtureVolumeId(arrayType);
  }

  /** The fixture's array: host "hostname" over iSCSI, no mapping, `map_volume` answers 1. */
  function FixtureStorage(maxLunRetries: nat): ArrayView
  {
    ArrayView(Ok(Host("hostname", {Iscsi})), map[], MapOracle([], Ok(1)), Ok(()), ["array-iqn"], [], maxLunRetries)
  }

  /** A node id with one IQN and one WWN decodes to them. */
  lemma DecodeSingleInitiators(hostname: string, iqn: string, wwn: string)
    requires WellFormedNodeId(NodeId(hostname, [iqn], [wwn]))
    ensures DecodeNodeId(hostname + ";" + iqn + ";" + wwn) == Ok(NodeId(hostname, [iqn], [wwn]))
  {
    var node := NodeId(hostname, [iqn], [wwn]);
    DecodeEncodeNodeId(node);
    assert EncodeNodeId(node) == hostname + ";" + iqn + ";" + wwn;
  }

  lemma FixtureRequestWellFormed(arrayType: string)
    requires VolumeIdDelimiter !in arrayType
    ensures WellFormedRequest(FixtureRequest(arrayType))
  {
    FixtureVolumeIdDecodes(arrayType);
    assert WellFormedNodeId(NodeId("hostname", [FixtureIqn], [FixtureWwn]));
    DecodeSingleInitiators("hostname", FixtureIqn, FixtureWwn);
  }

  lemma PublishSucceeds(arrayType: string, maxLunRetries: nat)
    requires VolumeIdDelimiter !in arrayType
    ensures Publish(FixtureRequest(arrayType), FixtureStorage(maxLunRetries)).response.code == Status.OK
    ensures Publish(FixtureRequest(arrayType), FixtureStorage(maxLunRetries)).mapCalls == 1
  {
    FixtureRequestWellFormed(arrayType);
    RetryThenSucceed(FixtureRequest(arrayType), FixtureStorage(maxLunRetries), Host("hostname", {Iscsi}), 0, 1);
  }

  lemma WrongVolumeId(maxLunRetries: nat)
    ensures Publish(Request("some-wrong-id-format", FixtureNodeId, None), FixtureStorage(maxLunRetries)).response.code
      == Status.NotFound
    ensures Unpublish(Request("some-wrong-id-format", FixtureNodeId, None), FixtureStorage(maxLunRetries)).code
      == Status.InvalidArgument
  {
    assert VolumeIdDelimiter !in "some-wrong-id-format";
  }

  lemma WrongNodeId(arrayType: string, maxLunRetries: nat)
    requires VolumeIdDelimiter !in arrayType
    ensures Publish(Request(FixtureVolumeId(arrayType), "some-wrong-id-format", None), FixtureStorage(maxLunRetries)).response.code
      == Status.NotFound
    ensures Unpublish(Request(FixtureVolumeId(arrayType), "some-wrong-id-format", None), FixtureStorage(maxLunRetries)).code
      == Status.NotFound
  {
    FixtureVolumeIdDecodes(arrayType);
    assert NodeIdDelimiter !in "some-wrong-id-format";
  }

  lemma AdoptsLunTwo(arrayType: string, maxLunRetries: nat)
    requires VolumeIdDelimiter !in arrayType
    ensures var o := Publish(FixtureRequest(arrayType), FixtureStorage(maxLunRetries).(mappings := map["hostname" := 2]));
      && o.response.code == Status.OK
      && o.response.context[LunKey] == "2"
      && o.response.context[ConnectivityKey] == "iscsi"
  {
    FixtureRequestWellFormed(arrayType);
    AdoptExistingMapping(FixtureRequest(arrayType), FixtureStorage(maxLunRetries).(mappings := map["hostname" := 2]),
      Host("hostname", {Iscsi}), 2);
  }

  lemma PrefersFibreChannel(arrayType: string, maxLunRetries: nat)
    requires VolumeIdDelimiter !in arrayType
    ensures var storage := FixtureStorage(maxLunRetries).(
        host := Ok(Host("hostname", {Iscsi, Fc})), iscsiTargets := [FixtureIqn], fcTargets := [FixtureWwn]);
      Publish(FixtureRequest(arrayType), storage).response.context
        == map[LunKey := "1", ConnectivityKey := "fc", ArrayFcInitiatorsKey := FixtureWwn]
  {
    FixtureRequestWellFormed(arrayType);
  }

  lemma IscsiOnlyHost(arrayType: string, maxLunRetries: nat)
    requires VolumeIdDelimiter !in arrayType
    ensures var storage := FixtureStorage(maxLunRetries).(iscsiTargets := [FixtureIqn], fcTargets := [FixtureWwn]);
      Publish(FixtureRequest(arrayType), storage).response.context
        == map[LunKey := "1", ConnectivityKey := "iscsi", ArrayIqnKey := FixtureIqn]
  {
    FixtureRequestWellFormed(arrayType);
  }

  /** "hostname;;500143802426baf4:500143806626bae2" */
  const WwnOnlyNodeId := "hostname" + ";;" + (FixtureWwn + ":" + SecondWwn)
  /** "hostname;iqn.1994-05.com.redhat:686358c930fe;" */
  const IqnOnlyNodeId := "hostname" + ";" + FixtureIqn + ";"

  lemma WwnOnlyNodeIdDecodes()
    ensures DecodeNodeId(WwnOnlyNodeId) == Ok(NodeId("hostname", [], [FixtureWwn, SecondWwn]))
  {
    EmptyIqnFieldAccepted("hostname", [FixtureWwn, SecondWwn]);
    assert Join([FixtureWwn, SecondWwn], WwnDelimiter) == FixtureWwn + ":" + SecondWwn;
  }

  lemma IqnOnlyNodeIdDecodes()
    ensures DecodeNodeId(IqnOnlyNodeId) == Ok(NodeId("hostname", [FixtureIqn], []))
  {
    EmptyWwnFieldAccepted("hostname", [FixtureIqn]);
    assert Join([FixtureIqn], IqnDelimiter) == FixtureIqn;
  }

  /** "hostname;;500143802426baf4" */
  const SingleWwnNodeId := "hostname" + ";;" + FixtureWwn

  /** A node id with a single WWN and no IQN, and an FC-only host with one array target. */
  lemma SingleFibreChannelTarget(arrayType: string, maxLunRetries: nat)
    requires VolumeIdDelimiter !in arrayType
    ensures var req := FixtureRequest(arrayType).(nodeId := SingleWwnNodeId);
      var storage := FixtureStorage(maxLunRetries).(host := Ok(Host("hostname", {Fc})), fcTargets := [FixtureWwn]);
      && Publish(req, storage).response.code == Status.OK
      && Publish(req, storage).response.context
        == map[LunKey := "1", ConnectivityKey := "fc", ArrayFcInitiatorsKey := FixtureWwn]
  {
    FixtureVolumeIdDecodes(arrayType);
    EmptyIqnFieldAccepted("hostname", [FixtureWwn]);
    assert Join([FixtureWwn], WwnDelimiter) == FixtureWwn;
  }

  /** A node id with WWNs only, two of them, and an FC-only host with two array targets. */
  lemma TwoFibreChannelTargets(arrayType: string, maxLunRetries: nat)
    requires VolumeIdDelimiter !in arrayType
    ensures var req := FixtureRequest(arrayType).(nodeId := WwnOnlyNodeId);
      var storage := FixtureStorage(maxLunRetries).(host := Ok(Host("hostname", {Fc})), fcTargets := [FixtureWwn, SecondWwn]);
      && Publish(req, storage).response.code == Status.OK
      && Publish(req, storage).response.context
        == map[LunKey := "1", ConnectivityKey := "fc", ArrayFcInitiatorsKey := FixtureWwn + "," + SecondWwn]
  {
    FixtureVolumeIdDecodes(arrayType);
    WwnOnlyNodeIdDecodes();
    assert Join([FixtureWwn, SecondWwn], TargetDelimiter) == FixtureWwn + "," + SecondWwn;
  }

  lemma NodeIdWithIqnsOnly(arrayType: string, maxLunRetries: nat)
    requires VolumeIdDelimiter !in arrayType
    ensures var req := FixtureRequest(arrayType).(nodeId := IqnOnlyNodeId);
      var storage := FixtureStorage(maxLunRetries).(iscsiTargets := [FixtureIqn]);
      && Publish(req, storage).response.code == Status.OK
      && Publish(req, storage).response.context
        == map[LunKey := "1", ConnectivityKey := "iscsi", ArrayIqnKey := FixtureIqn]
  {
    FixtureVolumeIdDecodes(arrayType);
    IqnOnlyNodeIdDecodes();
  }

  lemma MappedToOtherHost(arrayType: string, maxLunRetries: nat)
    requires VolumeIdDelimiter !in arrayType
    ensures var o := Publish(FixtureRequest(arrayType), FixtureStorage(maxLunRetries).(mappings := map["other-hostname" := 3]));
      o.response.code == Status.FailedPrecondition && Contains(o.response.details, AlreadyMappedPhrase)
  {
    FixtureRequestWellFormed(arrayType);
    var m := map["other-hostname" := 3];
    assert "other-hostname" in m.Keys && "other-hostname" !in {"hostname"};
    ConflictingMapping(FixtureRequest(arrayType), FixtureStorage(maxLunRetries).(mappings := map["other-hostname" := 3]),
      Host("hostname", {Iscsi}));
  }

  lemma MappedToTwoHosts(arrayType: string, maxLunRetries: nat)
    requires VolumeIdDelimiter !in arrayType
    ensures var storage := FixtureStorage(maxLunRetries).(mappings := map["other-hostname" := 3, "hostname" := 4]);
      var o := Publish(FixtureRequest(arrayType), storage);
      o.response.code == Status.FailedPrecondition && Contains(o.response.details, AlreadyMappedPhrase)
  {
    FixtureRequestWellFormed(arrayType);
    TwoMappingsConflict("hostname", "other-hostname", 3, 4);
  }

  /** The fixture's array with its host resolved as FC-only, offering one FC target. */
  function FcStorage(maxLunRetries: nat): ArrayView
  {
    FixtureStorage(maxLunRetries).(host := Ok(Host("hostname", {Fc})), fcTargets := [FixtureWwn])
  }

  /** `map_volume` answers the given outcomes in turn; a call past them fails. */
  function Answers(outcomes: seq<MapOutcome>): MapOracle
  {
    MapOracle(outcomes, Err(MappingError))
  }

  /** One collision, then LUN 2, over iSCSI. */
  lemma LunAlreadyInUseRetried(arrayType: string, maxLunRetries: nat)
    requires VolumeIdDelimiter !in arrayType && maxLunRetries >= 1
    ensures var o := Publish(FixtureRequest(arrayType),
        FixtureStorage(maxLunRetries).(mapOracle := Answers([Err(LunAlreadyInUse), Ok(2)])));
      o.response.code == Status.OK && o.response.context[LunKey] == "2" && o.response.context[ConnectivityKey] == "iscsi"
  {
    FixtureRequestWellFormed(arrayType);
    RetryThenSucceed(FixtureRequest(arrayType),
      FixtureStorage(maxLunRetries).(mapOracle := Answers([Err(LunAlreadyInUse), Ok(2)])), Host("hostname", {Iscsi}), 1, 2);
  }

  /** On the FC-only host: one collision then LUN 2, and two collisions then LUN 2. */
  lemma LunAlreadyInUseRetriedOverFc(arrayType: string, maxLunRetries: nat)
    requires VolumeIdDelimiter !in arrayType && maxLunRetries >= 2
    ensures var o := Publish(FixtureRequest(arrayType),
        FcStorage(maxLunRetries).(mapOracle := Answers([Err(LunAlreadyInUse), Ok(2)])));
      o.response.code == Status.OK && o.response.context[LunKey] == "2" && o.response.context[ConnectivityKey] == "fc"
    ensures var o := Publish(FixtureRequest(arrayType),
        FcStorage(maxLunRetries).(mapOracle := Answers([Err(LunAlreadyInUse), Err(LunAlreadyInUse), Ok(2)])));
      o.response.code == Status.OK && o.response.context[LunKey] == "2" && o.response.context[ConnectivityKey] == "fc"
  {
    FixtureRequestWellFormed(arrayType);
    RetryThenSucceed(FixtureRequest(arrayType),
      FcStorage(maxLunRetries).(mapOracle := Answers([Err(LunAlreadyInUse), Ok(2)])), Host("hostname", {Fc}), 1, 2);
    RetryThenSucceed(FixtureRequest(arrayType),
      FcStorage(maxLunRetries).(mapOracle := Answers([Err(LunAlreadyInUse), Err(LunAlreadyInUse), Ok(2)])),
      Host("hostname", {Fc}), 2, 2);
  }

  /** `maxLunRetries + 1` collisions on the FC-only host exhaust the LUN range. */
  lemma LunRangeExhausted(arrayType: string, maxLunRetries: nat)
    requires VolumeIdDelimiter !in arrayType
    ensures Publish(FixtureRequest(arrayType),
        FcStorage(maxLunRetries).(mapOracle := Answers(seq(maxLunRetries + 1, _ => Err(LunAlreadyInUse)))))
      .response.code == Status.ResourceExhausted
  {
    FixtureRequestWellFormed(arrayType);
    RetryExhausted(FixtureRequest(arrayType),
      FcStorage(maxLunRetries).(mapOracle := Answers(seq(maxLunRetries + 1, _ => Err(LunAlreadyInUse)))),
      Host("hostname", {Fc}));
  }

  /** The first `map_volume` call fails with `e`; there is no second call. */
  lemma MapVolumeFailure(arrayType: string, maxLunRetries: nat, e: MediatorError)
    requires VolumeIdDelimiter !in arrayType && e != LunAlreadyInUse
    ensures var o := Publish(FixtureRequest(arrayType), FixtureStorage(maxLunRetries).(mapOracle := Answers([Err(e)])));
      && o.mapCalls == 1
      && (e == PermissionDenied ==> o.response.code == Status.PermissionDenied)
      && (e == VolumeNotFound ==> o.response.code == Status.NotFound)
      && (e == HostNotFound ==> o.response.code == Status.NotFound)
      && (e == MappingError ==> o.response.code == Status.Internal)
  {
    FixtureRequestWellFormed(arrayType);
    MapFailureNotRetried(FixtureRequest(arrayType), FixtureStorage(maxLunRetries).(mapOracle := Answers([Err(e)])),
      Host("hostname", {Iscsi}), e);
  }

  /** The request-shape check rejects the request with "msg", on both calls. */
  lemma ValidationRejected(arrayType: string, maxLunRetries: nat)
    ensures var o := Publish(FixtureRequest(arrayType).(validation := Some("msg")), FixtureStorage(maxLunRetries));
      o.response.code == Status.InvalidArgument && Contains(o.response.details, "msg")
    ensures var r := Unpublish(UnpublishRequest(arrayType).(validation := Some("msg")), FixtureStorage(maxLunRetries));
      r.code == Status.InvalidArgument && Contains(r.details, "msg")
  {
    ValidationFailure(FixtureRequest(arrayType).(validation := Some("msg")), FixtureStorage(maxLunRetries), "msg");
    ValidationFailure(UnpublishRequest(arrayType).(validation := Some("msg")), FixtureStorage(maxLunRetries), "msg");
    ContainsPrefix("msg", "");
    assert "msg" + "" == "msg";
  }

  /** The host lookup finds several hosts, then none; the same on both calls. */
  lemma HostLookupFailure(arrayType: string, maxLunRetries: nat)
    requires VolumeIdDelimiter !in arrayType
    ensures var storage := FixtureStorage(maxLunRetries).(host := Err(MultipleHostsFound));
      && Publish(FixtureRequest(arrayType), storage).response.code == Status.Internal
      && Contains(Publish(FixtureRequest(arrayType), storage).response.details, MultipleHostsPhrase)
      && Unpublish(UnpublishRequest(arrayType), storage).code == Status.Internal
      && Contains(Unpublish(UnpublishRequest(arrayType), storage).details, MultipleHostsPhrase)
    ensures var storage := FixtureStorage(maxLunRetries).(host := Err(HostNotFound));
      && Publish(FixtureRequest(arrayType), storage).response.code == Status.NotFound
      && Unpublish(UnpublishRequest(arrayType), storage).code == Status.NotFound
  {
    FixtureRequestWellFormed(arrayType);
    UnpublishRequestWellFormed(arrayType);
    HostResolutionFailure(FixtureRequest(arrayType), FixtureStorage(maxLunRetries).(host := Err(MultipleHostsFound)), MultipleHostsFound);
    HostResolutionFailure(UnpublishRequest(arrayType), FixtureStorage(maxLunRetries).(host := Err(MultipleHostsFound)), MultipleHostsFound);
    HostResolutionFailure(FixtureRequest(arrayType), FixtureStorage(maxLunRetries).(host := Err(HostNotFound)), HostNotFound);
    HostResolutionFailure(UnpublishRequest(arrayType), FixtureStorage(maxLunRetries).(host := Err(HostNotFound)), HostNotFound);
  }

  /** The unpublish fixture's request: node "hostname;iqn1;500143802426baf4". */
  function UnpublishRequest(arrayType: string): Request
  {
    Request(FixtureVolumeId(arrayType), "hostname;iqn1;" + FixtureWwn, None)
  }

  lemma UnpublishRequestWellFormed(arrayType: string)
    requires VolumeIdDelimiter !in arrayType
    ensures WellFormedRequest(UnpublishRequest(arrayType))
  {
    FixtureVolumeIdDecodes(arrayType);
    var node := NodeId("hostname", ["iqn1"], [FixtureWwn]);
    DecodeEncodeNodeId(node);
    assert EncodeNodeId(node) == "hostname;iqn1;" + FixtureWwn;
  }

  lemma UnpublishSucceeds(arrayType: string, maxLunRetries: nat)
    requires VolumeIdDelimiter !in arrayType
    ensures Unpublish(UnpublishRequest(arrayType), FixtureStorage(maxLunRetries)).code == Status.OK
  {
    UnpublishRequestWellFormed(arrayType);
  }

  /** `unmap_volume` fails with `e`: an already unmapped volume is still OK. */
  lemma UnmapVolumeFailure(arrayType: string, maxLunRetries: nat, e: MediatorError)
    requires VolumeIdDelimiter !in arrayType
    ensures var r := Unpublish(UnpublishRequest(arrayType), FixtureStorage(maxLunRetries).(unmapResult := Err(e)));
      && (e == PermissionDenied ==> r.code == Status.PermissionDenied)
      && (e == VolumeNotFound ==> r.code == Status.NotFound)
      && (e == HostNotFound ==> r.code == Status.NotFound)
      && (e == UnMappingError ==> r.code == Status.Internal)
      && (e == VolumeAlreadyUnmapped ==> r.code == Status.OK)
  {
    UnpublishRequestWellFormed(arrayType);
    UnpublishUnmapOutcome(UnpublishRequest(arrayType), FixtureStorage(maxLunRetries).(unmapResult := Err(e)),
      Host("hostname", {Iscsi}));
  }
}
