/**
 * The query builder's `query` step: it restricts a search to the context
 * node's descendants and to documents related to the context node's
 * subgraph by a visible hierarchy relation.
 */
module QueryBuilding {
  import opened Values
  import opened DimensionSpace

  /** What `query` reads of the context node and its context. */
  datatype ContextNode = ContextNode(
    path: string,
    workspaceName: string,
    dimensionValues: seq<(string, seq<string>)>,
    invisibleContentShown: bool)

  /**
   * The identifier of the subgraph the context node lives in; its string
   * form is produced by the content repository and is not part of this
   * model.
   */
  datatype SubgraphIdentifier = SubgraphIdentifier(workspaceName: string, coordinates: map<string, Value>)

  /** One clause of a boolean query. */
  datatype Clause =
    | MatchSubgraph(field: string, subgraph: SubgraphIdentifier)
    | MatchBool(field: string, flag: bool)
    | RangeGreaterThan(field: string, bound: string)
    | RangeLessThan(field: string, bound: string)

  datatype BoolQuery = BoolQuery(must: seq<Clause>, should: seq<Clause>, mustNot: seq<Clause>)

  /** A filter added to the search request with `queryFilter`. */
  datatype Filter =
    | TermFilter(field: string, term: string)
    | NestedFilter(path: string, query: BoolQuery)

  const ParentPathField: string := "__parentPath"
  const HierarchyRelationsPath: string := "__hierarchyRelations"

  /** The clauses that exclude hidden edges: hidden, not yet visible, no longer visible. */
  const HiddenEdgeClauses: seq<Clause> := [
    MatchBool("__hierarchyRelations.hidden", true),
    RangeGreaterThan("__hierarchyRelations.hiddenBeforeDateTime", "now"),
    RangeLessThan("__hierarchyRelations.hiddenAfterDateTime", "now")]

  /** `reset($values)`: the first value, or `false` for an empty list. */
  function FirstValue(values: seq<string>): (r: Value)
    ensures values != [] ==> r == VString(values[0])
    ensures values == [] ==> r == VBool(false)
  {
    if values == [] then VBool(false) else VString(values[0])
  }

  /** The coordinates taken from `dimensionValues`, one entry after the other. */
  function DimensionCoordinates(dimensionValues: seq<(string, seq<string>)>): map<string, Value> {
    if dimensionValues == [] then map[]
    else
      var last := dimensionValues[|dimensionValues| - 1];
      DimensionCoordinates(dimensionValues[..|dimensionValues| - 1])[last.0 := FirstValue(last.1)]
  }

  /** The coordinates of the context subgraph: the dimension coordinates and the workspace. */
  function QueryCoordinates(node: ContextNode): map<string, Value> {
    DimensionCoordinates(node.dimensionValues)[WorkspaceDimension := VString(node.workspaceName)]
  }

  /** Dimension names are keys of an array, so no two entries share one. */
  predicate DistinctDimensions(dimensionValues: seq<(string, seq<string>)>) {
    forall i, j :: 0 <= i < j < |dimensionValues| ==> dimensionValues[i].0 != dimensionValues[j].0
  }

  /**
   * Every dimension has a coordinate, the first of its raw values, and
   * nothing else has one.
   */
  lemma {:induction false} DimensionCoordinatesShape(dimensionValues: seq<(string, seq<string>)>)
    requires DistinctDimensions(dimensionValues)
    ensures var c := DimensionCoordinates(dimensionValues);
      && (forall d :: d in c <==> exists i :: 0 <= i < |dimensionValues| && dimensionValues[i].0 == d)
      && (forall i :: 0 <= i < |dimensionValues| ==> c[dimensionValues[i].0] == FirstValue(dimensionValues[i].1))
  {
    if dimensionValues != [] {
      var front := dimensionValues[..|dimensionValues| - 1];
      var last := dimensionValues[|dimensionValues| - 1];
      DimensionCoordinatesShape(front);
      var c := DimensionCoordinates(dimensionValues);
      forall d ensures d in c <==> exists i :: 0 <= i < |dimensionValues| && dimensionValues[i].0 == d {
        if d in DimensionCoordinates(front) {
          var i :| 0 <= i < |front| && front[i].0 == d;
          assert dimensionValues[i] == front[i];
        }
        if exists i :: 0 <= i < |dimensionValues| && dimensionValues[i].0 == d {
          var i :| 0 <= i < |dimensionValues| && dimensionValues[i].0 == d;
          if i < |front| {
            assert front[i] == dimensionValues[i];
          }
        }
      }
      forall i | 0 <= i < |dimensionValues| ensures c[dimensionValues[i].0] == FirstValue(dimensionValues[i].1) {
        if i < |front| {
          assert front[i] == dimensionValues[i];
        }
      }
    }
  }

  /**
   * The context subgraph's coordinates: the first raw value of every
   * dimension other than `_workspace`, and the context's workspace name as
   * `_workspace`, whatever the dimension values say about it.
   */
  lemma QueryCoordinatesShape(node: ContextNode)
    requires DistinctDimensions(node.dimensionValues)
    ensures var c := QueryCoordinates(node);
      && c[WorkspaceDimension] == VString(node.workspaceName)
      && (forall d :: d in c <==> d == WorkspaceDimension || exists i :: 0 <= i < |node.dimensionValues| && node.dimensionValues[i].0 == d)
      && (forall i :: 0 <= i < |node.dimensionValues| && node.dimensionValues[i].0 != WorkspaceDimension ==>
            c[node.dimensionValues[i].0] == FirstValue(node.dimensionValues[i].1))
  {
    DimensionCoordinatesShape(node.dimensionValues);
  }

  /** The loop over the context node's dimension values. */
  method BuildCoordinates(node: ContextNode) returns (coordinates: map<string, Value>)
    ensures coordinates == QueryCoordinates(node)
  {
    var dimensionValues := node.dimensionValues;
    coordinates := map[];
    var i := 0;
    while i < |dimensionValues|
      invariant 0 <= i <= |dimensionValues|
      invariant coordinates == DimensionCoordinates(dimensionValues[..i])
    {
      assert dimensionValues[..i + 1][..i] == dimensionValues[..i];
      coordinates := coordinates[dimensionValues[i].0 := FirstValue(dimensionValues[i].1)];
      i := i + 1;
    }
    assert dimensionValues[..i] == dimensionValues;
    coordinates := coordinates[WorkspaceDimension := VString(node.workspaceName)];
  }

  class ElasticSearchQueryBuilder {
    /** The filters `queryFilter` has added to the request, in order. */
    var filters: seq<Filter>
    /** The node the last `query` call started from. */
    var contextNode: Option<ContextNode>

    constructor ()
      ensures filters == [] && contextNode == None
    {
      filters := [];
      contextNode := None;
    }

    /** `queryFilter`: adds one filter to the request. */
    method QueryFilter(filter: Filter)
      modifies this`filters
      ensures filters == old(filters) + [filter]
    {
      filters := filters + [filter];
    }

    /**
     * `query`: adds a term filter on the parent path and a nested filter on
     * the hierarchy relations that must match the context subgraph and,
     * unless invisible content is shown, must not be hidden, not yet visible
     * or no longer visible; records the context node and returns the
     * builder itself.
     */
    method Query(node: ContextNode) returns (self: ElasticSearchQueryBuilder)
      modifies this`filters, this`contextNode
      ensures self == this
      ensures contextNode == Some(node)
      ensures |filters| == |old(filters)| + 2 && filters[..|old(filters)|] == old(filters)
      ensures filters[|old(filters)|] == TermFilter(ParentPathField, node.path)
      ensures var nested := filters[|old(filters)| + 1];
        && nested.NestedFilter? && nested.path == HierarchyRelationsPath
        && nested.query.must == [MatchSubgraph("__hierarchyRelations.subgraph", SubgraphIdentifier(node.workspaceName, QueryCoordinates(node)))]
        && nested.query.should == []
        && nested.query.mustNot == (if node.invisibleContentShown then [] else HiddenEdgeClauses)
    {
      QueryFilter(TermFilter(ParentPathField, node.path));
      var workspaceName := node.workspaceName;
      var coordinates := BuildCoordinates(node);
      var subgraphIdentifier := SubgraphIdentifier(workspaceName, coordinates);
      var edgeQuery := BoolQuery([MatchSubgraph("__hierarchyRelations.subgraph", subgraphIdentifier)], [], []);
      if !node.invisibleContentShown {
        edgeQuery := edgeQuery.(mustNot := edgeQuery.mustNot + [MatchBool("__hierarchyRelations.hidden", true)]);
        edgeQuery := edgeQuery.(mustNot := edgeQuery.mustNot + [RangeGreaterThan("__hierarchyRelations.hiddenBeforeDateTime", "now")]);
        edgeQuery := edgeQuery.(mustNot := edgeQuery.mustNot + [RangeLessThan("__hierarchyRelations.hiddenAfterDateTime", "now")]);
      }
      QueryFilter(NestedFilter(HierarchyRelationsPath, edgeQuery));
      contextNode := Some(node);
      self := this;
    }
  }
}
