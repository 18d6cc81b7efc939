/**
 * The two compound identifiers carried by attach/detach requests.
 *
 *   volume id:  "<arrayType>:<volumeName>"            exactly one ':'
 *   node id:    "<hostname>;<iqn>,<iqn>...;<wwn>:<wwn>..."   exactly two ';'
 *
 * The IQN and WWN fields may be empty (they decode to empty sequences),
 * but both ';' are mandatory. Decoding has no side effects and fails with
 * an identifier-format error naming which identifier was malformed.
 */
module Identifiers {
  import opened Wrappers
  import opened Strings

  const VolumeIdDelimiter: char := ':'
  const NodeIdDelimiter: char := ';'
  const IqnDelimiter: char := ','
  const WwnDelimiter: char := ':'

  datatype VolumeId = VolumeId(arrayType: string, volumeName: string)

  datatype NodeId = NodeId(hostname: string, iqns: seq<string>, wwns: seq<string>)

  datatype IdentifierError = MalformedVolumeId | MalformedNodeId

  // ---- volume id ---------------------------------------------------------

  /** A volume id decodes exactly when it holds a single ':' separator. */
  function DecodeVolumeId(raw: string): (r: Result<VolumeId, IdentifierError>)
    ensures r.Ok? <==> Occurrences(raw, VolumeIdDelimiter) == 1
    ensures r.Err? ==> r.error == MalformedVolumeId
  {
    var fields := Split(raw, VolumeIdDelimiter);
    if |fields| != 2 then Err(MalformedVolumeId) else Ok(VolumeId(fields[0], fields[1]))
  }

  function EncodeVolumeId(v: VolumeId): string
  {
    v.arrayType + [VolumeIdDelimiter] + v.volumeName
  }

  /** Neither field contains the separator, so the wire form is unambiguous. */
  predicate WellFormedVolumeId(v: VolumeId)
  {
    VolumeIdDelimiter !in v.arrayType && VolumeIdDelimiter !in v.volumeName
  }

  lemma DecodeEncodeVolumeId(v: VolumeId)
    requires WellFormedVolumeId(v)
    ensures DecodeVolumeId(EncodeVolumeId(v)) == Ok(v)
  {
    SplitAfterPart(v.arrayType, v.volumeName, VolumeIdDelimiter);
    SplitWithoutDelimiter(v.volumeName, VolumeIdDelimiter);
  }

  lemma EncodeDecodeVolumeId(raw: string)
    requires DecodeVolumeId(raw).Ok?
    ensures WellFormedVolumeId(DecodeVolumeId(raw).value)
    ensures EncodeVolumeId(DecodeVolumeId(raw).value) == raw
  {
    var fields := Split(raw, VolumeIdDelimiter);
    JoinSplit(raw, VolumeIdDelimiter);
    assert fields[1..] == [fields[1]];
  }

  // ---- node id -----------------------------------------------------------

  /** An empty field is an empty list; otherwise the field is split on `d`. */
  function DecodeList(field: string, d: char): (xs: seq<string>)
    ensures xs == [] <==> field == ""
  {
    if field == "" then [] else Split(field, d)
  }

  /** A node id decodes exactly when it holds two ';' separators (three fields). */
  function DecodeNodeId(raw: string): (r: Result<NodeId, IdentifierError>)
    ensures r.Ok? <==> Occurrences(raw, NodeIdDelimiter) == 2
    ensures r.Err? ==> r.error == MalformedNodeId
  {
    var fields := Split(raw, NodeIdDelimiter);
    if |fields| != 3 then Err(MalformedNodeId)
    else Ok(NodeId(fields[0], DecodeList(fields[1], IqnDelimiter), DecodeList(fields[2], WwnDelimiter)))
  }

  function EncodeNodeId(n: NodeId): string
  {
    n.hostname + [NodeIdDelimiter] + Join(n.iqns, IqnDelimiter) + [NodeIdDelimiter] + Join(n.wwns, WwnDelimiter)
  }

  /** Nonempty list elements that contain neither their own delimiter nor ';'. */
  predicate WellFormedList(xs: seq<string>, d: char)
  {
    Free(xs, d) && Free(xs, NodeIdDelimiter) && forall i :: 0 <= i < |xs| ==> xs[i] != ""
  }

  predicate WellFormedNodeId(n: NodeId)
  {
    NodeIdDelimiter !in n.hostname && WellFormedList(n.iqns, IqnDelimiter) && WellFormedList(n.wwns, WwnDelimiter)
  }

  lemma DecodeEncodeList(xs: seq<string>, d: char)
    requires WellFormedList(xs, d)
    ensures NodeIdDelimiter !in Join(xs, d) || d == NodeIdDelimiter
    ensures DecodeList(Join(xs, d), d) == xs
  {
    JoinEmpty(xs, d);
    if d != NodeIdDelimiter {
      NotInJoin(xs, d, NodeIdDelimiter);
    }
    if xs != [] {
      SplitJoin(xs, d);
    }
  }

  lemma DecodeEncodeNodeId(n: NodeId)
    requires WellFormedNodeId(n)
    ensures DecodeNodeId(EncodeNodeId(n)) == Ok(n)
  {
    var iqnField := Join(n.iqns, IqnDelimiter);
    var wwnField := Join(n.wwns, WwnDelimiter);
    DecodeEncodeList(n.iqns, IqnDelimiter);
    DecodeEncodeList(n.wwns, WwnDelimiter);
    var raw := EncodeNodeId(n);
    assert raw == n.hostname + [NodeIdDelimiter] + (iqnField + [NodeIdDelimiter] + wwnField);
    SplitAfterPart(n.hostname, iqnField + [NodeIdDelimiter] + wwnField, NodeIdDelimiter);
    SplitAfterPart(iqnField, wwnField, NodeIdDelimiter);
    SplitWithoutDelimiter(wwnField, NodeIdDelimiter);
    assert Split(raw, NodeIdDelimiter) == [n.hostname, iqnField, wwnField];
  }

  lemma EncodeDecodeNodeId(raw: string)
    requires DecodeNodeId(raw).Ok?
    ensures EncodeNodeId(DecodeNodeId(raw).value) == raw
  {
    var fields := Split(raw, NodeIdDelimiter);
    var h, i, w := fields[0], fields[1], fields[2];
    assert fields == [h, i, w];
    JoinSplit(raw, NodeIdDelimiter);
    assert fields[1..] == [i, w] && [i, w][1..] == [w];
    assert Join([i, w], NodeIdDelimiter) == i + [NodeIdDelimiter] + w;
    assert Join(fields, NodeIdDelimiter) == h + [NodeIdDelimiter] + (i + [NodeIdDelimiter] + w);
    JoinSplit(i, IqnDelimiter);
    JoinSplit(w, WwnDelimiter);
    assert Join(DecodeList(i, IqnDelimiter), IqnDelimiter) == i;
    assert Join(DecodeList(w, WwnDelimiter), WwnDelimiter) == w;
  }
}
