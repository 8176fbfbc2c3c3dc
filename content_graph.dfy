/**
 * The in-memory content graph the indexer reads: nodes, subgraphs,
 * hierarchy relations and reference relations. Nodes refer to
 * each other by their position in `Graph.nodes`.
 */
module ContentGraph {
  import opened Values
  import opened DimensionSpace
  import opened NodeTypes
  import opened FulltextRoot

  /** A subgraph: the content stream it belongs to, its point (with `_workspace`) and its hash. */
  datatype Subgraph = Subgraph(contentStream: string, point: Point, hash: string)

  /** The key `getSubgraphByIdentifier` looks subgraphs up by. */
  datatype SubgraphKey = SubgraphKey(contentStream: string, point: Point)

  /** A point in time, as the hidden-before/after edge properties carry it. */
  type DateTime = int

  /**
   * The properties a hierarchy relation carries; `VNull` and `None` stand
   * for a property the edge does not have.
   */
  datatype EdgeProperties = EdgeProperties(
    accessRoles: Value,
    hidden: Value,
    hiddenBeforeDateTime: Option<DateTime>,
    hiddenAfterDateTime: Option<DateTime>,
    hiddenInIndex: Value)

  /** A parent-to-child edge inside one subgraph. */
  datatype HierarchyRelation = HierarchyRelation(
    parent: nat,
    child: nat,
    subgraph: Subgraph,
    position: int,
    properties: EdgeProperties)

  /** A named, non-hierarchical edge between two nodes. */
  datatype ReferenceRelation = ReferenceRelation(source: nat, target: nat, name: string, position: int)

  /**
   * A node: its (node data) identifier, its aggregate identifier, its origin
   * point, its type, and its relations in the order the graph yields them.
   */
  datatype Node = Node(
    identifier: string,
    aggregateId: string,
    origin: Point,
    nodeType: NodeType,
    incomingHierarchy: seq<HierarchyRelation>,
    outgoingHierarchy: seq<HierarchyRelation>,
    incomingReferences: seq<ReferenceRelation>,
    outgoingReferences: seq<ReferenceRelation>)

  /**
   * The graph. `rank` witnesses that the hierarchy has no cycle avoiding
   * fulltext roots: every outgoing hierarchy relation whose child is not a
   * fulltext root leads to a node of smaller rank.
   */
  datatype Graph = Graph(nodes: seq<Node>, subgraphs: map<SubgraphKey, Subgraph>, rank: seq<nat>)

  /** Every relation's source is a node of the graph. */
  predicate SourcesWithin(g: Graph, rels: seq<ReferenceRelation>) {
    forall k :: 0 <= k < |rels| ==> rels[k].source < |g.nodes|
  }

  /** Every relation's target is a node of the graph. */
  predicate TargetsWithin(g: Graph, rels: seq<ReferenceRelation>) {
    forall k :: 0 <= k < |rels| ==> rels[k].target < |g.nodes|
  }

  /** A node is a fulltext root when its type is. */
  predicate IsFulltextRootNode(n: Node) {
    IsSatisfiedBy(n.nodeType)
  }

  /** Two nodes of the same type get the same answer. */
  lemma SameTypeSameAnswer(a: Node, b: Node)
    requires a.nodeType == b.nodeType
    ensures IsFulltextRootNode(a) == IsFulltextRootNode(b)
  {
  }

  /**
   * Every relation points into the graph, and a hierarchy relation whose
   * child is not a fulltext root descends in rank. Relations into fulltext
   * roots are unconstrained: the occupied-points recursion never follows
   * them, so hierarchy cycles through fulltext roots are allowed.
   */
  predicate Valid(g: Graph) {
    && |g.rank| == |g.nodes|
    && (forall n, k :: 0 <= n < |g.nodes| && 0 <= k < |g.nodes[n].outgoingHierarchy| ==>
          var c := g.nodes[n].outgoingHierarchy[k].child;
          c < |g.nodes| && (!IsFulltextRootNode(g.nodes[c]) ==> g.rank[c] < g.rank[n]))
    && (forall n :: 0 <= n < |g.nodes| ==> SourcesWithin(g, g.nodes[n].incomingReferences))
    && (forall n :: 0 <= n < |g.nodes| ==> TargetsWithin(g, g.nodes[n].outgoingReferences))
  }

  /**
   * `getSubgraphByIdentifier(ContentStreamIdentifier::fromString(p['_workspace']), p)`:
   * the subgraph of the content stream named by the point's workspace
   * coordinate at that point, if the graph has one.
   */
  function MatchingSubgraph(g: Graph, p: Point): (r: Option<Subgraph>)
    ensures r.Some? ==> WorkspaceDimension in p && SubgraphKey(p[WorkspaceDimension], p) in g.subgraphs
    ensures r.Some? ==> r.value == g.subgraphs[SubgraphKey(p[WorkspaceDimension], p)]
    ensures r.None? ==> WorkspaceDimension !in p || SubgraphKey(p[WorkspaceDimension], p) !in g.subgraphs
  {
    match Coordinate(p, WorkspaceDimension)
    case None => None
    case Some(cs) =>
      var key := SubgraphKey(cs, p);
      if key in g.subgraphs then Some(g.subgraphs[key]) else None
  }
}
