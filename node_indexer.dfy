/**
 * The graph-to-document projection: for each point a node occupies, the
 * document with its hierarchy and reference relations, and the bulk
 * request parts appended for fulltext roots.
 */
module Indexer {
  import opened Values
  import opened DimensionSpace
  import opened ContentGraph
  import opened FulltextRoot
  import opened OccupiedPoints

  // ---------------------------------------------------------------------
  // Values produced by collaborators outside this model. Each is kept
  // symbolic: it records what it was computed from, nothing more.

  /** `getIndexName()`: built by the base indexer from the postfix and the dimensions. */
  datatype IndexName = IndexName(postfix: string, dimensions: Value)

  /** The node seen in one subgraph: `new LegacyNodeAdapter(new TraversableNode($dataNode, $subgraph))`. */
  datatype NodeAdapter = NodeAdapter(node: nat, subgraph: Subgraph)

  /** What `extractPropertiesAndFulltext` returns for an adapter. */
  datatype ExtractedProperties = ExtractedPropertiesOf(adapter: NodeAdapter)

  /** The fulltext index `extractPropertiesAndFulltext` fills in for an adapter. */
  datatype FulltextIndex = FulltextIndexOf(adapter: NodeAdapter)

  /** `sha1($nodeAdapter->getContextPath())` */
  datatype DocumentId = Sha1OfContextPath(adapter: NodeAdapter)

  /** `$dimensionSpacePoint->getHash()` */
  datatype PointHash = HashOf(point: Point)

  /** `$dateTime->format('Y-m-d\TH:i:sP')` */
  datatype DateString = FormattedDateTime(instant: DateTime)

  /** `getIndex()->findType($nodeTypeName)` */
  datatype MappingType = MappingType(index: IndexName, nodeTypeName: string)

  // ---------------------------------------------------------------------
  // Documents

  /** One entry of `__hierarchyRelations`. */
  datatype HierarchyRelationEntry = HierarchyRelationEntry(
    subgraph: string,
    sortIndex: int,
    accessRoles: Value,
    hidden: Value,
    hiddenBeforeDateTime: Option<DateString>,
    hiddenAfterDateTime: Option<DateString>,
    hiddenInIndex: Value)

  /** One entry of `__incomingReferenceRelations`. */
  datatype IncomingReferenceEntry = IncomingReferenceEntry(source: string, name: string)

  /** One entry of `__outgoingReferenceRelations`. */
  datatype OutgoingReferenceEntry = OutgoingReferenceEntry(target: string, name: string, sortIndex: int)

  /** The Elasticsearch document: its mapping type, extracted properties and id. */
  datatype Document = Document(mappingType: MappingType, properties: ExtractedProperties, id: DocumentId)

  /**
   * The document data sent with it. The reference arrays are only created
   * by their first append, so a node without such relations has no key
   * (`None`), while `__sortIndex` and `__hierarchyRelations` always exist.
   */
  datatype DocumentData = DocumentData(
    properties: ExtractedProperties,
    sortIndex: seq<Value>,
    hierarchyRelations: seq<HierarchyRelationEntry>,
    incomingReferenceRelations: Option<seq<IncomingReferenceEntry>>,
    outgoingReferenceRelations: Option<seq<OutgoingReferenceEntry>>)

  /** What a bulk request part carries: the driver's document or fulltext request. */
  datatype BulkPayload =
    | IndexDocument(indexName: IndexName, adapter: NodeAdapter, document: Document, data: DocumentData)
    | IndexFulltext(adapter: NodeAdapter, fulltext: FulltextIndex)

  /** `new BulkRequestPart($dimensionsHash, $payload)` */
  datatype BulkRequestPart = BulkRequestPart(dimensionsHash: PointHash, payload: BulkPayload)

  /** The date property of an edge rendered for the document: `null` when the edge has none. */
  function RenderDate(d: Option<DateTime>): (r: Option<DateString>)
    ensures r.None? <==> d.None?
    ensures d.Some? ==> r == Some(FormattedDateTime(d.value))
  {
    match d
    case None => None
    case Some(t) => Some(FormattedDateTime(t))
  }

  /** The `__hierarchyRelations` entry for one incoming hierarchy relation. */
  function HierarchyEntry(e: HierarchyRelation): (r: HierarchyRelationEntry)
    ensures r.subgraph == e.subgraph.hash && r.sortIndex == e.position
    ensures r.accessRoles == e.properties.accessRoles && r.hidden == e.properties.hidden
    ensures r.hiddenInIndex == e.properties.hiddenInIndex
    ensures r.hiddenBeforeDateTime.None? <==> e.properties.hiddenBeforeDateTime.None?
    ensures e.properties.hiddenBeforeDateTime.Some? ==>
      r.hiddenBeforeDateTime == Some(FormattedDateTime(e.properties.hiddenBeforeDateTime.value))
    ensures r.hiddenAfterDateTime.None? <==> e.properties.hiddenAfterDateTime.None?
    ensures e.properties.hiddenAfterDateTime.Some? ==>
      r.hiddenAfterDateTime == Some(FormattedDateTime(e.properties.hiddenAfterDateTime.value))
  {
    HierarchyRelationEntry(
      e.subgraph.hash,
      e.position,
      e.properties.accessRoles,
      e.properties.hidden,
      RenderDate(e.properties.hiddenBeforeDateTime),
      RenderDate(e.properties.hiddenAfterDateTime),
      e.properties.hiddenInIndex)
  }

  /** The incoming relations' entries: the source's aggregate identifier and the name. */
  function IncomingEntry(g: Graph, rel: ReferenceRelation): (r: IncomingReferenceEntry)
    requires rel.source < |g.nodes|
    ensures r.source == g.nodes[rel.source].aggregateId && r.name == rel.name
  {
    IncomingReferenceEntry(g.nodes[rel.source].aggregateId, rel.name)
  }

  /** The outgoing relations' entries: the target's identifier, the name and the position. */
  function OutgoingEntry(g: Graph, rel: ReferenceRelation): (r: OutgoingReferenceEntry)
    requires rel.target < |g.nodes|
    ensures r.target == g.nodes[rel.target].identifier && r.name == rel.name && r.sortIndex == rel.position
  {
    OutgoingReferenceEntry(g.nodes[rel.target].identifier, rel.name, rel.position)
  }

  /** `__hierarchyRelations`: one entry per incoming hierarchy relation, in order. */
  function HierarchyEntries(rels: seq<HierarchyRelation>): (r: seq<HierarchyRelationEntry>)
    ensures |r| == |rels|
    ensures forall i :: 0 <= i < |rels| ==> r[i] == HierarchyEntry(rels[i])
  {
    seq(|rels|, i requires 0 <= i < |rels| => HierarchyEntry(rels[i]))
  }

  /** `__incomingReferenceRelations`: absent without relations, else one entry per relation, in order. */
  function IncomingEntries(g: Graph, rels: seq<ReferenceRelation>): (r: Option<seq<IncomingReferenceEntry>>)
    requires SourcesWithin(g, rels)
    ensures r.None? <==> rels == []
    ensures r.Some? ==> |r.value| == |rels| && forall i :: 0 <= i < |rels| ==> r.value[i] == IncomingEntry(g, rels[i])
  {
    if rels == [] then None
    else Some(seq(|rels|, i requires 0 <= i < |rels| => IncomingEntry(g, rels[i])))
  }

  /** `__outgoingReferenceRelations`: absent without relations, else one entry per relation, in order. */
  function OutgoingEntries(g: Graph, rels: seq<ReferenceRelation>): (r: Option<seq<OutgoingReferenceEntry>>)
    requires TargetsWithin(g, rels)
    ensures r.None? <==> rels == []
    ensures r.Some? ==> |r.value| == |rels| && forall i :: 0 <= i < |rels| ==> r.value[i] == OutgoingEntry(g, rels[i])
  {
    if rels == [] then None
    else Some(seq(|rels|, i requires 0 <= i < |rels| => OutgoingEntry(g, rels[i])))
  }

  /**
   * The document data built for node `n` seen through `adapter`. Every
   * incoming hierarchy relation of the node is listed, whatever its
   * subgraph, and so is every reference relation.
   */
  function DocumentDataFor(g: Graph, n: nat, adapter: NodeAdapter): DocumentData
    requires Valid(g) && n < |g.nodes|
  {
    var node := g.nodes[n];
    DocumentData(
      ExtractedPropertiesOf(adapter),
      [],
      HierarchyEntries(node.incomingHierarchy),
      IncomingEntries(g, node.incomingReferences),
      OutgoingEntries(g, node.outgoingReferences))
  }

  // ---------------------------------------------------------------------
  // The bulk parts one call of indexGraphNode appends

  /**
   * The parts appended for occupied point `p`: none when no subgraph
   * matches it or when the node is not a fulltext root; otherwise the
   * document request and the fulltext request, both tagged with the hash of
   * the TARGET point.
   */
  function PartsForPoint(g: Graph, n: nat, target: Point, name: IndexName, p: Point): seq<BulkRequestPart>
    requires Valid(g) && n < |g.nodes|
  {
    match MatchingSubgraph(g, p)
    case None => []
    case Some(subgraph) =>
      var adapter := NodeAdapter(n, subgraph);
      if !IsFulltextRootNode(g.nodes[n]) then []
      else
        var document := Document(MappingType(name, g.nodes[n].nodeType.name), ExtractedPropertiesOf(adapter), Sha1OfContextPath(adapter));
        [ BulkRequestPart(HashOf(target), IndexDocument(name, adapter, document, DocumentDataFor(g, n, adapter))),
          BulkRequestPart(HashOf(target), IndexFulltext(adapter, FulltextIndexOf(adapter))) ]
  }

  /** The parts appended for the points `ps`, handled in order. */
  function PartsForPoints(g: Graph, n: nat, target: Point, name: IndexName, ps: seq<Point>): seq<BulkRequestPart>
    requires Valid(g) && n < |g.nodes|
  {
    if ps == [] then []
    else PartsForPoints(g, n, target, name, ps[..|ps| - 1]) + PartsForPoint(g, n, target, name, ps[|ps| - 1])
  }

  /** One more point appends its parts. */
  lemma PartsForPointsSnoc(g: Graph, n: nat, target: Point, name: IndexName, ps: seq<Point>, i: nat)
    requires Valid(g) && n < |g.nodes| && i < |ps|
    ensures PartsForPoints(g, n, target, name, ps[..i + 1]) == PartsForPoints(g, n, target, name, ps[..i]) + PartsForPoint(g, n, target, name, ps[i])
  {
    assert ps[..i + 1][..i] == ps[..i];
  }

  /** The parts one call of `indexGraphNode` for node `n` and target point `target` appends. */
  function BulkPartsFor(g: Graph, n: nat, target: Point, name: IndexName): seq<BulkRequestPart>
    requires Valid(g) && n < |g.nodes|
  {
    PartsForPoints(g, n, target, name, Occupied(g, n))
  }

  /** How many of `ps` have a matching subgraph. */
  function CountMatched(g: Graph, ps: seq<Point>): (c: nat)
    ensures c <= |ps|
  {
    if ps == [] then 0
    else CountMatched(g, ps[..|ps| - 1]) + (if MatchingSubgraph(g, ps[|ps| - 1]).Some? then 1 else 0)
  }

  /**
   * Per point, two parts if the node is a fulltext root and a subgraph
   * matches, none otherwise; the first carries the document built for the
   * matching subgraph.
   */
  lemma PartsForPointShape(g: Graph, n: nat, target: Point, name: IndexName, p: Point)
    requires Valid(g) && n < |g.nodes|
    ensures var parts := PartsForPoint(g, n, target, name, p);
      && |parts| == (if IsFulltextRootNode(g.nodes[n]) && MatchingSubgraph(g, p).Some? then 2 else 0)
      && (|parts| == 2 ==>
            var adapter := NodeAdapter(n, MatchingSubgraph(g, p).value);
            && parts[0].payload == IndexDocument(name, adapter,
                 Document(MappingType(name, g.nodes[n].nodeType.name), ExtractedPropertiesOf(adapter), Sha1OfContextPath(adapter)),
                 DocumentDataFor(g, n, adapter))
            && parts[1].payload == IndexFulltext(adapter, FulltextIndexOf(adapter)))
  {
  }

  /**
   * Per call, the bulk request grows by two parts for every occupied point
   * with a matching subgraph if the node is a fulltext root, and by nothing
   * otherwise; every part is tagged with the target point's hash.
   */
  lemma {:induction false} PartsForPointsShape(g: Graph, n: nat, target: Point, name: IndexName, ps: seq<Point>)
    requires Valid(g) && n < |g.nodes|
    ensures var parts := PartsForPoints(g, n, target, name, ps);
      && |parts| == (if IsFulltextRootNode(g.nodes[n]) then 2 * CountMatched(g, ps) else 0)
      && forall i :: 0 <= i < |parts| ==> parts[i].dimensionsHash == HashOf(target)
    decreases |ps|
  {
    if ps != [] {
      var front := ps[..|ps| - 1];
      PartsForPointsShape(g, n, target, name, front);
      var a := PartsForPoints(g, n, target, name, front);
      var b := PartsForPoint(g, n, target, name, ps[|ps| - 1]);
      var parts := a + b;
      forall i | 0 <= i < |parts| ensures parts[i].dimensionsHash == HashOf(target) {
        if i < |a| {
          assert parts[i] == a[i];
        } else {
          assert parts[i] == b[i - |a|];
        }
      }
    }
  }

  /**
   * What one call of `indexGraphNode` appends: twice as many parts as
   * occupied points with a matching subgraph for a fulltext root, nothing
   * for any other node, every part tagged with the target point's hash.
   */
  lemma BulkPartsForShape(g: Graph, n: nat, target: Point, name: IndexName)
    requires Valid(g) && n < |g.nodes|
    ensures IsFulltextRootNode(g.nodes[n]) ==> |BulkPartsFor(g, n, target, name)| == 2 * CountMatched(g, Occupied(g, n))
    ensures !IsFulltextRootNode(g.nodes[n]) ==> BulkPartsFor(g, n, target, name) == []
    ensures forall i :: 0 <= i < |BulkPartsFor(g, n, target, name)| ==> BulkPartsFor(g, n, target, name)[i].dimensionsHash == HashOf(target)
  {
    PartsForPointsShape(g, n, target, name, Occupied(g, n));
  }

  /** The parts for a sequence of nodes, indexed one after the other. */
  function PartsForNodes(g: Graph, ns: seq<nat>, target: Point, name: IndexName): seq<BulkRequestPart>
    requires Valid(g) && forall i :: 0 <= i < |ns| ==> ns[i] < |g.nodes|
  {
    if ns == [] then []
    else PartsForNodes(g, ns[..|ns| - 1], target, name) + BulkPartsFor(g, ns[|ns| - 1], target, name)
  }

  // ---------------------------------------------------------------------
  // The document-building loops

  /** Lists every incoming hierarchy relation, in order, whatever its subgraph. */
  method BuildHierarchyRelations(rels: seq<HierarchyRelation>) returns (entries: seq<HierarchyRelationEntry>)
    ensures entries == HierarchyEntries(rels)
  {
    entries := [];
    var i := 0;
    while i < |rels|
      invariant 0 <= i <= |rels|
      invariant entries == HierarchyEntries(rels[..i])
    {
      entries := entries + [HierarchyEntry(rels[i])];
      i := i + 1;
    }
    assert rels[..i] == rels;
  }

  /** Lists every incoming reference relation, in order; the array exists only after its first append. */
  method BuildIncomingReferenceRelations(g: Graph, rels: seq<ReferenceRelation>) returns (entries: Option<seq<IncomingReferenceEntry>>)
    requires SourcesWithin(g, rels)
    ensures entries == IncomingEntries(g, rels)
  {
    entries := None;
    var i := 0;
    while i < |rels|
      invariant 0 <= i <= |rels|
      invariant entries == IncomingEntries(g, rels[..i])
    {
      var sofar := if entries.Some? then entries.value else [];
      entries := Some(sofar + [IncomingEntry(g, rels[i])]);
      assert entries.value == IncomingEntries(g, rels[..i + 1]).value;
      i := i + 1;
    }
    assert rels[..i] == rels;
  }

  /** Lists every outgoing reference relation, in order; the array exists only after its first append. */
  method BuildOutgoingReferenceRelations(g: Graph, rels: seq<ReferenceRelation>) returns (entries: Option<seq<OutgoingReferenceEntry>>)
    requires TargetsWithin(g, rels)
    ensures entries == OutgoingEntries(g, rels)
  {
    entries := None;
    var i := 0;
    while i < |rels|
      invariant 0 <= i <= |rels|
      invariant entries == OutgoingEntries(g, rels[..i])
    {
      var sofar := if entries.Some? then entries.value else [];
      entries := Some(sofar + [OutgoingEntry(g, rels[i])]);
      assert entries.value == OutgoingEntries(g, rels[..i + 1]).value;
      i := i + 1;
    }
    assert rels[..i] == rels;
  }

  // ---------------------------------------------------------------------
  // The indexer

  class NodeIndexer {
    var contentGraph: Graph
    var indexNamePostfix: string
    var dimensions: Value
    /** The parts waiting for the next flush. */
    var currentBulkRequest: seq<BulkRequestPart>
    /** What each `flush()` call so far found pending, in call order. */
    var flushedBulkRequests: seq<seq<BulkRequestPart>>

    constructor (graph: Graph)
      ensures contentGraph == graph && indexNamePostfix == "" && dimensions == VMap(map[])
      ensures currentBulkRequest == [] && flushedBulkRequests == []
    {
      contentGraph := graph;
      indexNamePostfix := "";
      dimensions := VMap(map[]);
      currentBulkRequest := [];
      flushedBulkRequests := [];
    }

    /** The name of the index the indexer writes to. */
    function IndexNameOf(): IndexName
      reads this`indexNamePostfix, this`dimensions
    {
      IndexName(indexNamePostfix, dimensions)
    }

    /** `indexNode`: the legacy entry point does nothing. */
    method IndexNode()
      ensures unchanged(this)
    {
    }

    method SetContentGraph(graph: Graph)
      modifies this`contentGraph
      ensures contentGraph == graph
    {
      contentGraph := graph;
    }

    method SetIndexNamePostfix(postfix: string)
      modifies this`indexNamePostfix
      ensures indexNamePostfix == postfix
    {
      indexNamePostfix := postfix;
    }

    method SetDimensions(values: Value)
      modifies this`dimensions
      ensures dimensions == values
    {
      dimensions := values;
    }

    /** `flush()`: sends what is pending and starts a new bulk request. */
    method Flush()
      modifies this`currentBulkRequest, this`flushedBulkRequests
      ensures flushedBulkRequests == old(flushedBulkRequests) + [old(currentBulkRequest)]
      ensures currentBulkRequest == []
    {
      flushedBulkRequests := flushedBulkRequests + [currentBulkRequest];
      currentBulkRequest := [];
    }

    /**
     * `indexGraphNode`: for every point node `n` occupies, in order, looks up
     * the matching subgraph (skipping the point when there is none), builds
     * the document and its data, and, only for a fulltext root, appends the
     * document and fulltext parts tagged with the target point's hash.
     */
    method IndexGraphNode(n: nat, target: Point)
      requires Valid(contentGraph) && n < |contentGraph.nodes|
      modifies this`currentBulkRequest
      ensures currentBulkRequest == old(currentBulkRequest) + BulkPartsFor(contentGraph, n, target, IndexNameOf())
    {
      var g := contentGraph;
      var name := IndexNameOf();
      var node := g.nodes[n];
      var occupied := [node.origin];
      var isFulltextRoot := IsSatisfiedBy(node.nodeType);
      if isFulltextRoot {
        occupied := Collect(g, n, occupied);
      }
      assert occupied == Occupied(g, n);
      IndexOccupiedPoints(g, n, target, name, occupied);
    }

    /** The loop of `indexGraphNode` over the occupied points, in order. */
    method IndexOccupiedPoints(g: Graph, n: nat, target: Point, name: IndexName, occupied: seq<Point>)
      requires Valid(g) && n < |g.nodes|
      modifies this`currentBulkRequest
      ensures currentBulkRequest == old(currentBulkRequest) + PartsForPoints(g, n, target, name, occupied)
    {
      var isFulltextRoot := IsSatisfiedBy(g.nodes[n].nodeType);
      var i := 0;
      while i < |occupied|
        invariant 0 <= i <= |occupied|
        invariant currentBulkRequest == old(currentBulkRequest) + PartsForPoints(g, n, target, name, occupied[..i])
      {
        PartsForPointsSnoc(g, n, target, name, occupied, i);
        AppendAssoc(old(currentBulkRequest), PartsForPoints(g, n, target, name, occupied[..i]), PartsForPoint(g, n, target, name, occupied[i]));
        IndexOccupiedPoint(g, n, target, name, occupied[i], isFulltextRoot);
        i := i + 1;
      }
      assert occupied[..i] == occupied;
    }

    /**
     * The body of `indexGraphNode`'s loop for one occupied point: nothing
     * without a matching subgraph; otherwise the document and its data are
     * built and, for a fulltext root, both requests are appended.
     */
    method IndexOccupiedPoint(g: Graph, n: nat, target: Point, name: IndexName, p: Point, isFulltextRoot: bool)
      requires Valid(g) && n < |g.nodes| && isFulltextRoot == IsFulltextRootNode(g.nodes[n])
      modifies this`currentBulkRequest
      ensures currentBulkRequest == old(currentBulkRequest) + PartsForPoint(g, n, target, name, p)
    {
      var node := g.nodes[n];
      var matchingSubgraph := MatchingSubgraph(g, p);
      if matchingSubgraph.None? {
        return;
      }
      var mappingType := MappingType(name, node.nodeType.name);
      var adapter := NodeAdapter(n, matchingSubgraph.value);
      var properties := ExtractedPropertiesOf(adapter);
      var fulltextIndexOfNode := FulltextIndexOf(adapter);
      var document := Document(mappingType, properties, Sha1OfContextPath(adapter));
      var hierarchyRelations := BuildHierarchyRelations(node.incomingHierarchy);
      assert SourcesWithin(g, node.incomingReferences) && TargetsWithin(g, node.outgoingReferences);
      var incoming := BuildIncomingReferenceRelations(g, node.incomingReferences);
      var outgoing := BuildOutgoingReferenceRelations(g, node.outgoingReferences);
      var documentData := DocumentData(properties, [], hierarchyRelations, incoming, outgoing);
      if isFulltextRoot {
        currentBulkRequest := currentBulkRequest + [BulkRequestPart(HashOf(target), IndexDocument(name, adapter, document, documentData))];
        currentBulkRequest := currentBulkRequest + [BulkRequestPart(HashOf(target), IndexFulltext(adapter, fulltextIndexOfNode))];
      }
    }
  }
}
