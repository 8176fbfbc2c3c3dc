/**
 * The dimension-space points a node occupies: its own origin point and,
 * for a fulltext root, the origin points of every node reachable through
 * outgoing hierarchy relations whose child is not itself a fulltext root.
 */
module OccupiedPoints {
  import opened DimensionSpace
  import opened ContentGraph
  import opened Values
  import opened NodeTypes
  import opened FulltextRoot

  function Children(g: Graph, n: nat): seq<HierarchyRelation>
    requires n < |g.nodes|
  {
    g.nodes[n].outgoingHierarchy
  }

  /**
   * `collectOccupiedDimensionSpacePointsForFulltextRoot`: adds the node's
   * origin point unless the set holds it already, then folds over the
   * outgoing hierarchy relations in order, descending into every child that
   * is not a fulltext root. It does not stop at a point it has seen: it
   * terminates because relations into such children descend in rank.
   */
  function Collect(g: Graph, n: nat, acc: seq<Point>): (r: seq<Point>)
    requires Valid(g) && n < |g.nodes|
    ensures acc <= r
    ensures g.nodes[n].origin in r
    ensures NoDuplicates(acc) ==> NoDuplicates(r)
    decreases g.rank[n], 1, 0
  {
    var withOrigin := AddPoint(acc, g.nodes[n].origin);
    var r := CollectChildren(g, n, 0, withOrigin);
    assert withOrigin <= r;
    r
  }

  /** The loop over outgoing hierarchy relations from the `k`-th on. */
  function CollectChildren(g: Graph, n: nat, k: nat, acc: seq<Point>): (r: seq<Point>)
    requires Valid(g) && n < |g.nodes| && k <= |Children(g, n)|
    ensures acc <= r
    ensures NoDuplicates(acc) ==> NoDuplicates(r)
    decreases g.rank[n], 0, |Children(g, n)| - k
  {
    if k == |Children(g, n)| then acc
    else
      var c := Children(g, n)[k].child;
      var next := if IsFulltextRootNode(g.nodes[c]) then acc else Collect(g, c, acc);
      CollectChildren(g, n, k + 1, next)
  }

  /**
   * The points `indexGraphNode` handles for a node: its origin point alone,
   * and for a fulltext root the result of `Collect` started from it.
   */
  function Occupied(g: Graph, n: nat): (r: seq<Point>)
    requires Valid(g) && n < |g.nodes|
    ensures NoDuplicates(r)
    ensures |r| >= 1 && r[0] == g.nodes[n].origin
    ensures !IsFulltextRootNode(g.nodes[n]) ==> r == [g.nodes[n].origin]
  {
    var start := [g.nodes[n].origin];
    if IsFulltextRootNode(g.nodes[n]) then Collect(g, n, start) else start
  }

  // ---------------------------------------------------------------------
  // Reference definition: descent paths

  /** `m` is the child of some outgoing hierarchy relation of `n`. */
  ghost predicate IsChildOf(g: Graph, n: nat, m: nat)
    requires n < |g.nodes|
  {
    exists k :: 0 <= k < |Children(g, n)| && Children(g, n)[k].child == m
  }

  /** One step down: `m` is a child of `n` and not a fulltext root. */
  ghost predicate DescentStep(g: Graph, n: nat, m: nat) {
    n < |g.nodes| && m < |g.nodes| && IsChildOf(g, n, m) && !IsFulltextRootNode(g.nodes[m])
  }

  /**
   * A path down the hierarchy that never enters a fulltext root: each node
   * is a child of the one before it and is not a fulltext root itself (the
   * first node may be anything).
   */
  ghost predicate IsDescentPath(g: Graph, path: seq<nat>)
    decreases |path|
  {
    && |path| >= 1
    && path[0] < |g.nodes|
    && (|path| > 1 ==> DescentStep(g, path[0], path[1]) && IsDescentPath(g, path[1..]))
  }

  /** `m` is reached from `n` without entering a fulltext root. */
  ghost predicate Reachable(g: Graph, n: nat, m: nat) {
    exists path :: IsDescentPath(g, path) && path[0] == n && path[|path| - 1] == m
  }

  /** The origin points of every node reachable from `n`. */
  ghost function ReachableOrigins(g: Graph, n: nat): set<Point>
    requires Valid(g)
  {
    set m | 0 <= m < |g.nodes| && Reachable(g, n, m) :: g.nodes[m].origin
  }

  // ---------------------------------------------------------------------
  // Intermediate definition: the reachable nodes, following Collect's shape

  ghost function ReachSet(g: Graph, n: nat): (r: set<nat>)
    requires Valid(g) && n < |g.nodes|
    ensures n in r
    ensures forall m :: m in r ==> m < |g.nodes|
    decreases g.rank[n], 1, 0
  {
    {n} + ReachChildren(g, n, 0)
  }

  ghost function ReachChildren(g: Graph, n: nat, k: nat): (r: set<nat>)
    requires Valid(g) && n < |g.nodes| && k <= |Children(g, n)|
    ensures forall m :: m in r ==> m < |g.nodes|
    decreases g.rank[n], 0, |Children(g, n)| - k
  {
    if k == |Children(g, n)| then {}
    else
      var c := Children(g, n)[k].child;
      (if IsFulltextRootNode(g.nodes[c]) then {} else ReachSet(g, c)) + ReachChildren(g, n, k + 1)
  }

  ghost function Origins(g: Graph, s: set<nat>): set<Point>
    requires forall m :: m in s ==> m < |g.nodes|
  {
    set m | m in s :: g.nodes[m].origin
  }

  lemma OriginsUnion(g: Graph, a: set<nat>, b: set<nat>)
    requires forall m :: m in a ==> m < |g.nodes|
    requires forall m :: m in b ==> m < |g.nodes|
    ensures Origins(g, a + b) == Origins(g, a) + Origins(g, b)
  {
  }

  lemma OriginsSingleton(g: Graph, n: nat)
    requires n < |g.nodes|
    ensures Origins(g, {n}) == {g.nodes[n].origin}
  {
    assert g.nodes[n].origin in Origins(g, {n});
  }

  /** The fold over children adds exactly the origins of the nodes it reaches. */
  lemma {:induction false} CollectChildrenElems(g: Graph, n: nat, k: nat, acc: seq<Point>)
    requires Valid(g) && n < |g.nodes| && k <= |Children(g, n)|
    ensures Elems(CollectChildren(g, n, k, acc)) == Elems(acc) + Origins(g, ReachChildren(g, n, k))
    decreases g.rank[n], 0, |Children(g, n)| - k
  {
    if k < |Children(g, n)| {
      var c := Children(g, n)[k].child;
      var next := if IsFulltextRootNode(g.nodes[c]) then acc else Collect(g, c, acc);
      CollectChildrenElems(g, n, k + 1, next);
      var here: set<nat> := if IsFulltextRootNode(g.nodes[c]) then {} else ReachSet(g, c);
      if !IsFulltextRootNode(g.nodes[c]) {
        CollectElems(g, c, acc);
      }
      assert Elems(next) == Elems(acc) + Origins(g, here);
      OriginsUnion(g, here, ReachChildren(g, n, k + 1));
    }
  }

  /** `Collect` adds exactly the origins of the nodes in `ReachSet`. */
  lemma {:induction false} CollectElems(g: Graph, n: nat, acc: seq<Point>)
    requires Valid(g) && n < |g.nodes|
    ensures Elems(Collect(g, n, acc)) == Elems(acc) + Origins(g, ReachSet(g, n))
    decreases g.rank[n], 1, 0
  {
    var withOrigin := AddPoint(acc, g.nodes[n].origin);
    assert Collect(g, n, acc) == CollectChildren(g, n, 0, withOrigin);
    CollectChildrenElems(g, n, 0, withOrigin);
    assert ReachSet(g, n) == {n} + ReachChildren(g, n, 0);
    OriginsUnion(g, {n}, ReachChildren(g, n, 0));
    OriginsSingleton(g, n);
  }

  // ---------------------------------------------------------------------
  // ReachSet and descent paths agree

  lemma ReachChildrenMember(g: Graph, n: nat, k: nat, m: nat)
    requires Valid(g) && n < |g.nodes| && k <= |Children(g, n)|
    requires m in ReachChildren(g, n, k)
    ensures exists j :: k <= j < |Children(g, n)| && !IsFulltextRootNode(g.nodes[Children(g, n)[j].child])
                        && m in ReachSet(g, Children(g, n)[j].child)
    decreases |Children(g, n)| - k
  {
    var c := Children(g, n)[k].child;
    if !(!IsFulltextRootNode(g.nodes[c]) && m in ReachSet(g, c)) {
      ReachChildrenMember(g, n, k + 1, m);
    }
  }

  lemma ReachChildrenIncludes(g: Graph, n: nat, k: nat, j: nat)
    requires Valid(g) && n < |g.nodes| && k <= j < |Children(g, n)|
    requires !IsFulltextRootNode(g.nodes[Children(g, n)[j].child])
    ensures ReachSet(g, Children(g, n)[j].child) <= ReachChildren(g, n, k)
    decreases j - k
  {
    if k < j {
      ReachChildrenIncludes(g, n, k + 1, j);
    }
  }

  /** Every node of `ReachSet` is the end of a descent path from `n`. */
  lemma {:induction false} ReachSetHasPath(g: Graph, n: nat, m: nat)
    requires Valid(g) && n < |g.nodes|
    requires m in ReachSet(g, n)
    ensures Reachable(g, n, m)
    decreases g.rank[n]
  {
    if m == n {
      assert IsDescentPath(g, [n]);
    } else {
      ReachChildrenMember(g, n, 0, m);
      var j :| 0 <= j < |Children(g, n)| && !IsFulltextRootNode(g.nodes[Children(g, n)[j].child])
               && m in ReachSet(g, Children(g, n)[j].child);
      var c := Children(g, n)[j].child;
      ReachSetHasPath(g, c, m);
      var tail :| IsDescentPath(g, tail) && tail[0] == c && tail[|tail| - 1] == m;
      assert IsChildOf(g, n, c);
      PrependStep(g, n, tail);
    }
  }

  /** A step down from `n` followed by a descent path is a descent path. */
  lemma PrependStep(g: Graph, n: nat, tail: seq<nat>)
    requires IsDescentPath(g, tail) && DescentStep(g, n, tail[0])
    ensures var path := [n] + tail;
      IsDescentPath(g, path) && path[0] == n && path[|path| - 1] == tail[|tail| - 1]
  {
    var path := [n] + tail;
    assert path[1..] == tail;
  }

  /** The end of every descent path from `n` is in `ReachSet`. */
  lemma {:induction false} PathInReachSet(g: Graph, path: seq<nat>)
    requires Valid(g) && IsDescentPath(g, path)
    ensures path[|path| - 1] in ReachSet(g, path[0])
    decreases |path|
  {
    if |path| > 1 {
      var n, c := path[0], path[1];
      var tail := path[1..];
      PathInReachSet(g, tail);
      assert IsChildOf(g, n, c);
      var j :| 0 <= j < |Children(g, n)| && Children(g, n)[j].child == c;
      ReachChildrenIncludes(g, n, 0, j);
    }
  }

  lemma ReachSetIsReachable(g: Graph, n: nat)
    requires Valid(g) && n < |g.nodes|
    ensures Origins(g, ReachSet(g, n)) == ReachableOrigins(g, n)
  {
    forall p | p in Origins(g, ReachSet(g, n)) ensures p in ReachableOrigins(g, n) {
      var m :| m in ReachSet(g, n) && g.nodes[m].origin == p;
      ReachSetHasPath(g, n, m);
    }
    forall p | p in ReachableOrigins(g, n) ensures p in Origins(g, ReachSet(g, n)) {
      var m :| 0 <= m < |g.nodes| && Reachable(g, n, m) && g.nodes[m].origin == p;
      var path :| IsDescentPath(g, path) && path[0] == n && path[|path| - 1] == m;
      PathInReachSet(g, path);
    }
  }

  // ---------------------------------------------------------------------
  // The properties of the occupied points

  /**
   * For a fulltext root, the occupied points are exactly the origin points
   * of the nodes reachable from it without entering another fulltext root
   * (the node itself included); for any other node, its origin point.
   */
  lemma {:induction false} OccupiedCharacterization(g: Graph, n: nat)
    requires Valid(g) && n < |g.nodes|
    ensures IsFulltextRootNode(g.nodes[n]) ==> Elems(Occupied(g, n)) == ReachableOrigins(g, n)
    ensures !IsFulltextRootNode(g.nodes[n]) ==> Elems(Occupied(g, n)) == {g.nodes[n].origin}
  {
    if IsFulltextRootNode(g.nodes[n]) {
      CollectElems(g, n, [g.nodes[n].origin]);
      ReachSetIsReachable(g, n);
      assert Elems([g.nodes[n].origin]) <= Origins(g, ReachSet(g, n));
    }
  }

  /**
   * `Collect` never removes or reorders: the given set is a prefix of the
   * result, and the result adds exactly the reachable origin points.
   */
  lemma CollectIsMonotone(g: Graph, n: nat, acc: seq<Point>)
    requires Valid(g) && n < |g.nodes|
    ensures acc <= Collect(g, n, acc)
    ensures Elems(Collect(g, n, acc)) == Elems(acc) + ReachableOrigins(g, n)
  {
    CollectElems(g, n, acc);
    ReachSetIsReachable(g, n);
  }

  lemma {:induction false} LastOfPathIsNotRoot(g: Graph, path: seq<nat>)
    requires IsDescentPath(g, path) && |path| > 1
    ensures path[|path| - 1] < |g.nodes| && !IsFulltextRootNode(g.nodes[path[|path| - 1]])
    decreases |path|
  {
    if |path| > 2 {
      LastOfPathIsNotRoot(g, path[1..]);
    }
  }

  /**
   * Fulltext roots below a fulltext root and their subtrees contribute
   * nothing: every node reached other than the start is not a fulltext root,
   * and no descent path passes through one.
   */
  lemma {:induction false} ReachedNodesAreNotFulltextRoots(g: Graph, n: nat, m: nat)
    requires Valid(g) && n < |g.nodes|
    requires Reachable(g, n, m) && m != n
    ensures m < |g.nodes| && !IsFulltextRootNode(g.nodes[m])
  {
    var path :| IsDescentPath(g, path) && path[0] == n && path[|path| - 1] == m;
    LastOfPathIsNotRoot(g, path);
  }

  // ---------------------------------------------------------------------
  // Hierarchy cycles through fulltext roots

  /** A node type whose `search.fulltext.enable` is `true`. */
  const RootType := NodeType("Root", false,
    VMap(map["search" := VMap(map["fulltext" := VMap(map["enable" := VBool(true)])])]), [])

  /** Two fulltext roots, each the child of the other in its own subgraph. */
  function RootCycle(a: Point, b: Point): Graph {
    var sa := Subgraph("live", a, "a");
    var sb := Subgraph("live", b, "b");
    var noProperties := EdgeProperties(VNull, VNull, None, None, VNull);
    var down := HierarchyRelation(0, 1, sa, 0, noProperties);
    var up := HierarchyRelation(1, 0, sb, 0, noProperties);
    Graph([Node("n0", "a0", a, RootType, [up], [down], [], []),
           Node("n1", "a1", b, RootType, [down], [up], [], [])], map[], [0, 0])
  }

  /**
   * The recursion never descends into a fulltext-root child, so a hierarchy
   * cycle through fulltext roots is a valid graph, and each root occupies
   * only its own origin point.
   */
  lemma RootCycleOccupiesOwnOrigin(a: Point, b: Point)
    ensures Valid(RootCycle(a, b))
    ensures Occupied(RootCycle(a, b), 0) == [a]
    ensures Occupied(RootCycle(a, b), 1) == [b]
  {
    var g := RootCycle(a, b);
    assert IsFulltextRootNode(g.nodes[0]) && IsFulltextRootNode(g.nodes[1]);
    assert Valid(g);
    assert AddPoint([a], a) == [a] && AddPoint([b], b) == [b];
    assert Children(g, 0)[0].child == 1 && Children(g, 1)[0].child == 0;
    assert CollectChildren(g, 0, 0, [a]) == CollectChildren(g, 0, 1, [a]) == [a];
    assert CollectChildren(g, 1, 0, [b]) == CollectChildren(g, 1, 1, [b]) == [b];
    assert Collect(g, 0, [a]) == [a] && Collect(g, 1, [b]) == [b];
  }
}
