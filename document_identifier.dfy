/**
 * The Elasticsearch document identifier value object: a content stream
 * identifier, a node aggregate identifier and a dimension-space point, and
 * its string form, the SHA-1 of the JSON encoding of the three. SHA-1 and
 * JSON encoding are parameters: the model does not know their values.
 */
module DocumentIdentifiers {
  import opened DimensionSpace

  /** The fields are set once, by the private constructor. */
  datatype DocumentIdentifier = DocumentIdentifier(
    contentStreamIdentifier: string,
    nodeAggregateIdentifier: string,
    coveredDimensionSpacePoint: Point)

  /** What `fromTraversableNode` reads of a traversable node. */
  datatype TraversableNode = TraversableNode(contentStreamIdentifier: string, nodeAggregateIdentifier: string, dimensionSpacePoint: Point)

  /** What `fromLegacyNode` reads of a legacy node: its workspace name, identifier and dimension values. */
  datatype LegacyNode = LegacyNode(workspaceName: string, identifier: string, dimensionValues: map<string, seq<string>>)

  /** The JSON value handed to `json_encode`; a point is serialized by its own class. */
  datatype Json = JString(s: string) | JPoint(p: Point) | JObject(members: seq<(string, Json)>)

  /** `fromTraversableNode`: the node's three identifying values, unchanged. */
  function FromTraversableNode(n: TraversableNode): (id: DocumentIdentifier)
    ensures id.contentStreamIdentifier == n.contentStreamIdentifier
    ensures id.nodeAggregateIdentifier == n.nodeAggregateIdentifier
    ensures id.coveredDimensionSpacePoint == n.dimensionSpacePoint
  {
    DocumentIdentifier(n.contentStreamIdentifier, n.nodeAggregateIdentifier, n.dimensionSpacePoint)
  }

  /**
   * `fromLegacyNode`: the workspace name stands in as the content stream
   * identifier and the node identifier as the aggregate identifier; the
   * point comes from `DimensionSpacePoint::fromLegacyDimensionArray`.
   */
  function FromLegacyNode(n: LegacyNode, fromLegacyDimensionArray: map<string, seq<string>> -> Point): (id: DocumentIdentifier)
    ensures id.contentStreamIdentifier == n.workspaceName
    ensures id.nodeAggregateIdentifier == n.identifier
    ensures id.coveredDimensionSpacePoint == fromLegacyDimensionArray(n.dimensionValues)
  {
    DocumentIdentifier(n.workspaceName, n.identifier, fromLegacyDimensionArray(n.dimensionValues))
  }

  /** The payload `__toString` hashes: three keys in a fixed order. */
  function HashPayload(id: DocumentIdentifier): (j: Json)
    ensures j.JObject? && |j.members| == 3
    ensures j.members[0] == ("nodeAggregateIdentifier", JString(id.nodeAggregateIdentifier))
    ensures j.members[1] == ("contentStreamIdentifier", JString(id.contentStreamIdentifier))
    ensures j.members[2] == ("dimensionSpacePoint", JPoint(id.coveredDimensionSpacePoint))
  {
    JObject([
      ("nodeAggregateIdentifier", JString(id.nodeAggregateIdentifier)),
      ("contentStreamIdentifier", JString(id.contentStreamIdentifier)),
      ("dimensionSpacePoint", JPoint(id.coveredDimensionSpacePoint))])
  }

  /** `__toString`: `sha1(json_encode(payload))`. */
  function ToString(id: DocumentIdentifier, sha1: string -> string, jsonEncode: Json -> string): string {
    sha1(jsonEncode(HashPayload(id)))
  }

  /**
   * The payload loses nothing: two identifiers with the same payload are
   * the same identifier, so the string form distinguishes identifiers as
   * far as the hash and the encoding do.
   */
  lemma PayloadDeterminesIdentifier(a: DocumentIdentifier, b: DocumentIdentifier)
    ensures HashPayload(a) == HashPayload(b) <==> a == b
  {
    if HashPayload(a) == HashPayload(b) {
      assert HashPayload(a).members[0] == HashPayload(b).members[0];
      assert HashPayload(a).members[1] == HashPayload(b).members[1];
      assert HashPayload(a).members[2] == HashPayload(b).members[2];
    }
  }

  /**
   * The string form depends on the triple alone: equal triples give equal
   * strings, so indexing the same node twice yields the same identifier.
   */
  lemma EqualTriplesEqualStrings(a: DocumentIdentifier, b: DocumentIdentifier, sha1: string -> string, jsonEncode: Json -> string)
    requires a.contentStreamIdentifier == b.contentStreamIdentifier
    requires a.nodeAggregateIdentifier == b.nodeAggregateIdentifier
    requires a.coveredDimensionSpacePoint == b.coveredDimensionSpacePoint
    ensures ToString(a, sha1, jsonEncode) == ToString(b, sha1, jsonEncode)
  {
  }
}
