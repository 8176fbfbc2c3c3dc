/**
 * What the `graphIndexNew` command controller causes, as values: the
 * Elasticsearch operations and log lines of every command and of each pass
 * of `buildCommand`, the nodes a build indexes and the parts it sends, and
 * the properties of these sequences.
 */
module CommandEffects {
  import opened Values
  import opened DimensionSpace
  import opened NodeTypes
  import opened ContentGraph
  import opened Indexer
  import opened Mappings

  // ---------------------------------------------------------------------
  // Elasticsearch responses and the command's outcome

  /** The decoded body of an error response: its status, and the error as an object with type and reason or as a plain value. */
  datatype ErrorBody = ErrorBody(status: string, errorType: Option<string>, reason: string, error: string)

  /** `ApiException`: the HTTP status code and the response body. */
  datatype ApiException = ApiException(statusCode: int, body: ErrorBody)

  /** What `getIndexNamesByAlias` gives: the index names, or an exception. */
  datatype AliasLookup = IndexNamesFound(names: seq<string>) | AliasLookupFailed(exception: ApiException)

  /** What `removeOldIndices` gives: the removed index names, or an exception. */
  datatype RemovalResult = OldIndicesRemoved(names: seq<string>) | RemovalFailed(exception: ApiException)

  /** How the error of a failed cleanup is reported. */
  datatype ErrorDetail = TypedError(errorType: string, reason: string) | UntypedError(error: string)

  /** How `buildCommand` ends: normally, by `quit`, or by an exception it does not catch. */
  datatype BuildOutcome = Completed | Quit(exitCode: int) | Aborted(exception: ApiException)

  /** An Elasticsearch operation or a log or console line, in the order the controller causes them. */
  datatype Effect =
    | IndexCreated(index: IndexName)
    | IndexDeleted(index: IndexName)
    | MappingApplied(mapping: Mapping)
    | IndexRefreshed(index: IndexName)
    | IndexAliasUpdated(index: IndexName)
    | MainAliasUpdated(postfix: string)
    | WorkspaceMissing(workspace: string)
    | UpdateModeActive
    | DeletedSamePostfix(postfix: string)
    | CreatedIndex(index: IndexName, dimensionsValues: Value)
    | RefreshingIndex(index: IndexName)
    | UpdatingAlias(index: IndexName)
    | BuildStarted(target: Point)
    | BuildDone(nodesIndexed: nat)
    | RemovingOldIndex(indexName: string)
    | NothingRemoved(status: string, detail: ErrorDetail)
    | NothingToRemove

  /** The HTTP status `aliasesExist` tolerates. */
  const NotFound: int := 404

  // ---------------------------------------------------------------------
  // Counting effects

  datatype EffectKind = Creation | Deletion | AliasUpdate | CleanupFailure | Removal

  predicate IsKind(e: Effect, k: EffectKind) {
    match k
    case Creation => e.IndexCreated?
    case Deletion => e.IndexDeleted?
    case AliasUpdate => e.IndexAliasUpdated?
    case CleanupFailure => e.NothingRemoved?
    case Removal => e.RemovingOldIndex?
  }

  /** How many effects of kind `k` `effs` holds. */
  function Count(effs: seq<Effect>, k: EffectKind): (c: nat)
    ensures c <= |effs|
  {
    if effs == [] then 0
    else Count(effs[..|effs| - 1], k) + (if IsKind(effs[|effs| - 1], k) then 1 else 0)
  }

  /** The target points whose build was started, in order. */
  function Started(effs: seq<Effect>): seq<Point> {
    if effs == [] then []
    else Started(effs[..|effs| - 1]) + (if effs[|effs| - 1].BuildStarted? then [effs[|effs| - 1].target] else [])
  }

  /** Counting distributes over concatenation. */
  lemma {:induction false} CountAppend(a: seq<Effect>, b: seq<Effect>, k: EffectKind)
    ensures Count(a + b, k) == Count(a, k) + Count(b, k)
    decreases |b|
  {
    if b != [] {
      var front := b[..|b| - 1];
      CountAppend(a, front, k);
      var ab := a + b;
      assert ab[..|ab| - 1] == a + front;
      assert ab[|ab| - 1] == b[|b| - 1];
    } else {
      assert a + b == a;
    }
  }

  /** A single effect counts once for its own kind and not at all for the others. */
  lemma CountSingle(e: Effect, k: EffectKind)
    ensures Count([e], k) == if IsKind(e, k) then 1 else 0
  {
    assert [e][..0] == [];
  }

  /** Collecting started targets distributes over concatenation. */
  lemma {:induction false} StartedAppend(a: seq<Effect>, b: seq<Effect>)
    ensures Started(a + b) == Started(a) + Started(b)
    decreases |b|
  {
    if b != [] {
      var front := b[..|b| - 1];
      StartedAppend(a, front);
      var ab := a + b;
      assert ab[..|ab| - 1] == a + front;
      assert ab[|ab| - 1] == b[|b| - 1];
    } else {
      assert a + b == a;
    }
  }

  /** One `MappingApplied` effect per mapping, in order. */
  function Applied(mappings: seq<Mapping>): (r: seq<Effect>)
    ensures |r| == |mappings|
    ensures forall i :: 0 <= i < |mappings| ==> r[i] == MappingApplied(mappings[i])
  {
    if mappings == [] then [] else Applied(mappings[..|mappings| - 1]) + [MappingApplied(mappings[|mappings| - 1])]
  }

  /** Applying one more mapping appends its effect. */
  lemma AppliedSnoc(mappings: seq<Mapping>, i: nat)
    requires i < |mappings|
    ensures Applied(mappings[..i + 1]) == Applied(mappings[..i]) + [MappingApplied(mappings[i])]
  {
    assert mappings[..i + 1][..i] == mappings[..i];
  }

  /** The loop over the mappings, one `putMapping` request per mapping, in order. */
  method PutMappings(mappings: seq<Mapping>) returns (applied: seq<Effect>)
    ensures applied == Applied(mappings)
  {
    applied := [];
    var i := 0;
    while i < |mappings|
      invariant 0 <= i <= |mappings|
      invariant applied == Applied(mappings[..i])
    {
      AppliedSnoc(mappings, i);
      applied := applied + [MappingApplied(mappings[i])];
      i := i + 1;
    }
    assert mappings[..i] == mappings;
  }

  /** Applying mappings creates, deletes, aliases and builds nothing. */
  lemma AppliedIsInert(mappings: seq<Mapping>)
    ensures forall k :: Count(Applied(mappings), k) == 0
    ensures Started(Applied(mappings)) == []
  {
    StartedOfInert(Applied(mappings));
  }

  /** Effects that start no build collect no target. */
  lemma {:induction false} StartedOfInert(effs: seq<Effect>)
    requires forall i :: 0 <= i < |effs| ==> !effs[i].BuildStarted?
    ensures Started(effs) == []
    decreases |effs|
  {
    if effs != [] {
      StartedOfInert(effs[..|effs| - 1]);
    }
  }

  // ---------------------------------------------------------------------
  // The postfix

  function DigitChar(d: nat): char
    requires d < 10
  {
    "0123456789"[d]
  }

  /** The decimal form of `n`, as `(string)` renders an integer. */
  function DecimalString(n: nat): (r: string)
    ensures |r| >= 1
    ensures forall i :: 0 <= i < |r| ==> '0' <= r[i] <= '9'
    ensures r[0] == '0' ==> n == 0
    decreases n
  {
    if n < 10 then [DigitChar(n)] else DecimalString(n / 10) + [DigitChar(n % 10)]
  }

  /** The value of one decimal digit; other characters read as 0. */
  function DigitValue(c: char): (r: nat)
    ensures '0' <= c <= '9' ==> r == c as int - '0' as int
    ensures r < 10
  {
    if '0' <= c <= '9' then c as int - '0' as int else 0
  }

  /** The number a string of decimal digits denotes, read most significant digit first. */
  function DigitsValue(s: string): nat
    decreases |s|
  {
    if s == [] then 0 else DigitsValue(s[..|s| - 1]) * 10 + DigitValue(s[|s| - 1])
  }

  /** Each digit character reads back as its digit. */
  lemma DigitCharValue(d: nat)
    requires d < 10
    ensures DigitValue(DigitChar(d)) == d
  {
    assert "0123456789"[d] as int == '0' as int + d by {
      if d == 0 {} else if d == 1 {} else if d == 2 {} else if d == 3 {} else if d == 4 {}
      else if d == 5 {} else if d == 6 {} else if d == 7 {} else if d == 8 {} else {}
    }
  }

  /** Reading the decimal form of `n` gives back `n`. */
  lemma {:induction false} DecimalStringValue(n: nat)
    ensures DigitsValue(DecimalString(n)) == n
    decreases n
  {
    var s := DecimalString(n);
    if n < 10 {
      DigitCharValue(n);
      assert s[..|s| - 1] == [];
    } else {
      DecimalStringValue(n / 10);
      DigitCharValue(n % 10);
      assert s[..|s| - 1] == DecimalString(n / 10);
    }
  }

  /** Different times give different decimal forms. */
  lemma DecimalStringInjective(m: nat, n: nat)
    ensures DecimalString(m) == DecimalString(n) <==> m == n
  {
    DecimalStringValue(m);
    DecimalStringValue(n);
  }

  /** PHP's truthiness of a string: all strings but `""` and `"0"`. */
  predicate IsTruthy(s: string) {
    s != "" && s != "0"
  }

  /**
   * `(string)($postfix ?: time())`: the given postfix when it is truthy,
   * otherwise the current time in decimal.
   */
  function EffectivePostfix(postfix: Option<string>, now: nat): (r: string)
    ensures postfix.Some? && IsTruthy(postfix.value) ==> r == postfix.value
    ensures !(postfix.Some? && IsTruthy(postfix.value)) ==> r == DecimalString(now)
  {
    if postfix.Some? && IsTruthy(postfix.value) then postfix.value else DecimalString(now)
  }

  /** The postfix is never empty, and it is `"0"` only when the clock says 0. */
  lemma EffectivePostfixIsNeverEmpty(postfix: Option<string>, now: nat)
    ensures EffectivePostfix(postfix, now) != ""
    ensures EffectivePostfix(postfix, now) == "0" ==> now == 0
  {
  }

  // ---------------------------------------------------------------------
  // aliasesExist

  /**
   * `aliasesExist`: whether the alias resolves to at least one index; a
   * 404 counts as no alias, any other error is passed on.
   */
  function AliasesExist(lookup: AliasLookup): (r: Result<bool, ApiException>)
    ensures r == Ok(true) <==> lookup.IndexNamesFound? && lookup.names != []
    ensures r == Ok(false) <==>
      (lookup.IndexNamesFound? && lookup.names == []) || (lookup.AliasLookupFailed? && lookup.exception.statusCode == NotFound)
    ensures r.Err? <==> lookup.AliasLookupFailed? && lookup.exception.statusCode != NotFound
    ensures r.Err? ==> r.error == lookup.exception
  {
    match lookup
    case IndexNamesFound(names) => Ok(names != [])
    case AliasLookupFailed(e) => if e.statusCode != NotFound then Err(e) else Ok(false)
  }

  // ---------------------------------------------------------------------
  // The live points of the allowed dimension subspace

  /** The allowed points in the live workspace, in order, with `_workspace` removed. */
  function LiveTargets(subspace: seq<Point>): seq<Point> {
    if subspace == [] then []
    else
      var p := subspace[|subspace| - 1];
      LiveTargets(subspace[..|subspace| - 1]) + (if Coordinate(p, WorkspaceDimension) == Some(LiveWorkspace) then [WithoutWorkspace(p)] else [])
  }

  /**
   * A point is built exactly when it is an allowed point of the live
   * workspace without its `_workspace` coordinate, and never carries one.
   */
  lemma {:induction false} LiveTargetsExact(subspace: seq<Point>)
    ensures |LiveTargets(subspace)| <= |subspace|
    ensures forall t :: t in LiveTargets(subspace) <==>
      exists i :: 0 <= i < |subspace| && Coordinate(subspace[i], WorkspaceDimension) == Some(LiveWorkspace) && t == WithoutWorkspace(subspace[i])
    ensures forall t :: t in LiveTargets(subspace) ==> WorkspaceDimension !in t
  {
    if subspace != [] {
      var front := subspace[..|subspace| - 1];
      LiveTargetsExact(front);
      forall t ensures t in LiveTargets(subspace) <==>
        exists i :: 0 <= i < |subspace| && Coordinate(subspace[i], WorkspaceDimension) == Some(LiveWorkspace) && t == WithoutWorkspace(subspace[i])
      {
        if t in LiveTargets(front) {
          var i :| 0 <= i < |front| && Coordinate(front[i], WorkspaceDimension) == Some(LiveWorkspace) && t == WithoutWorkspace(front[i]);
          assert subspace[i] == front[i];
        }
        if exists i :: 0 <= i < |subspace| && Coordinate(subspace[i], WorkspaceDimension) == Some(LiveWorkspace) && t == WithoutWorkspace(subspace[i]) {
          var i :| 0 <= i < |subspace| && Coordinate(subspace[i], WorkspaceDimension) == Some(LiveWorkspace) && t == WithoutWorkspace(subspace[i]);
          if i < |front| {
            assert front[i] == subspace[i];
          }
        }
      }
    }
  }

  // ---------------------------------------------------------------------
  // Which nodes are indexed for a target point

  /** Some incoming hierarchy relation of `node` lies in a subgraph at `target`, workspace aside. */
  predicate IsIncluded(node: Node, target: Point) {
    exists k :: 0 <= k < |node.incomingHierarchy| && WithoutWorkspace(node.incomingHierarchy[k].subgraph.point) == target
  }

  /** The nodes among the first `upTo` that are indexed for `target`, in graph order. */
  function IncludedUpTo(g: Graph, target: Point, upTo: nat): (r: seq<nat>)
    requires upTo <= |g.nodes|
    ensures forall i :: 0 <= i < |r| ==> r[i] < upTo
  {
    if upTo == 0 then []
    else IncludedUpTo(g, target, upTo - 1) + (if IsIncluded(g.nodes[upTo - 1], target) then [upTo - 1] else [])
  }

  /** The nodes of the graph that are indexed for `target`. */
  function IncludedNodes(g: Graph, target: Point): seq<nat> {
    IncludedUpTo(g, target, |g.nodes|)
  }

  /**
   * Exactly the nodes with an incoming hierarchy relation in a subgraph at
   * the target point are indexed, each once, in graph order.
   */
  lemma {:induction false} IncludedUpToExact(g: Graph, target: Point, upTo: nat)
    requires upTo <= |g.nodes|
    ensures forall m: nat :: m in IncludedUpTo(g, target, upTo) <==> m < upTo && IsIncluded(g.nodes[m], target)
    ensures forall i, j :: 0 <= i < j < |IncludedUpTo(g, target, upTo)| ==> IncludedUpTo(g, target, upTo)[i] < IncludedUpTo(g, target, upTo)[j]
  {
    if upTo > 0 {
      IncludedUpToExact(g, target, upTo - 1);
      var before := IncludedUpTo(g, target, upTo - 1);
      assert IncludedUpTo(g, target, upTo) == before + (if IsIncluded(g.nodes[upTo - 1], target) then [upTo - 1] else []);
    }
  }

  /** The inner loop: whether some incoming hierarchy relation lies at `target`, workspace aside. */
  method IncludeNode(node: Node, target: Point) returns (included: bool)
    ensures included <==> IsIncluded(node, target)
  {
    included := false;
    var k := 0;
    while k < |node.incomingHierarchy|
      invariant 0 <= k <= |node.incomingHierarchy|
      invariant included <==> exists j :: 0 <= j < k && WithoutWorkspace(node.incomingHierarchy[j].subgraph.point) == target
    {
      var relationDimensionsValues := WithoutWorkspace(node.incomingHierarchy[k].subgraph.point);
      if target == relationDimensionsValues {
        included := true;
      }
      k := k + 1;
    }
  }

  /** The bulk request parts of all flushes, in order. */
  function Flatten(batches: seq<seq<BulkRequestPart>>): seq<BulkRequestPart> {
    if batches == [] then [] else Flatten(batches[..|batches| - 1]) + batches[|batches| - 1]
  }

  /** A flush adds its batch at the end of the flattened parts. */
  lemma FlattenSnoc(batches: seq<seq<BulkRequestPart>>, batch: seq<BulkRequestPart>)
    ensures Flatten(batches + [batch]) == Flatten(batches) + batch
  {
    assert (batches + [batch])[..|batches|] == batches;
  }

  /** Indexing one more node appends its parts. */
  lemma PartsForNodesSnoc(g: Graph, ns: seq<nat>, n: nat, target: Point, name: IndexName)
    requires Valid(g) && n < |g.nodes| && forall i :: 0 <= i < |ns| ==> ns[i] < |g.nodes|
    ensures PartsForNodes(g, ns + [n], target, name) == PartsForNodes(g, ns, target, name) + BulkPartsFor(g, n, target, name)
  {
    assert (ns + [n])[..|ns|] == ns;
  }

  /** The parts one node adds for `target`: its bulk parts if it is included, nothing otherwise. */
  function StepParts(g: Graph, n: nat, target: Point, name: IndexName): seq<BulkRequestPart>
    requires Valid(g) && n < |g.nodes|
  {
    if IsIncluded(g.nodes[n], target) then BulkPartsFor(g, n, target, name) else []
  }

  /** The parts of the included nodes among the first `upTo`, in graph order. */
  function PartsUpTo(g: Graph, target: Point, upTo: nat, name: IndexName): seq<BulkRequestPart>
    requires Valid(g) && upTo <= |g.nodes|
  {
    PartsForNodes(g, IncludedUpTo(g, target, upTo), target, name)
  }

  /** Looking at one more node appends its parts if it is included, and nothing otherwise. */
  lemma SentUpToSnoc(g: Graph, sent: seq<BulkRequestPart>, target: Point, i: nat, name: IndexName)
    requires Valid(g) && i < |g.nodes|
    ensures |IncludedUpTo(g, target, i + 1)| == |IncludedUpTo(g, target, i)| + if IsIncluded(g.nodes[i], target) then 1 else 0
    ensures sent + PartsUpTo(g, target, i + 1, name) == sent + PartsUpTo(g, target, i, name) + StepParts(g, i, target, name)
  {
    var before := IncludedUpTo(g, target, i);
    var parts := PartsForNodes(g, before, target, name);
    if IsIncluded(g.nodes[i], target) {
      assert IncludedUpTo(g, target, i + 1) == before + [i];
      var more := BulkPartsFor(g, i, target, name);
      PartsForNodesSnoc(g, before, i, target, name);
      AppendAssoc(sent, parts, more);
    } else {
      assert IncludedUpTo(g, target, i + 1) == before;
      assert parts + [] == parts;
    }
  }

  /** The controller's `$batchSize`: the indexer is flushed after this many indexed nodes. */
  const BatchSize: nat := 100

  /**
   * The state of the node loop after the first `i` nodes: `nodesIndexed`
   * of them were included, `sinceFlush` of those since the last flush, one
   * flush happened per full batch, and what was sent grew by the parts of
   * the included nodes in graph order.
   */
  predicate Progress(g: Graph, target: Point, name: IndexName, sent0: seq<BulkRequestPart>, flushes0: nat,
                     i: nat, nodesIndexed: nat, sinceFlush: nat, sent: seq<BulkRequestPart>, flushes: nat)
  {
    && Valid(g) && i <= |g.nodes|
    && nodesIndexed == |IncludedUpTo(g, target, i)|
    && sinceFlush < BatchSize && flushes0 <= flushes
    && nodesIndexed == BatchSize * (flushes - flushes0) + sinceFlush
    && sent == sent0 + PartsUpTo(g, target, i, name)
  }

  /**
   * One iteration keeps `Progress`: an included node is counted, completes
   * a batch when the count since the last flush reaches `BatchSize` and adds its
   * parts; any other node changes nothing.
   */
  lemma ProgressStep(g: Graph, target: Point, name: IndexName, sent0: seq<BulkRequestPart>, flushes0: nat,
                     i: nat, nodesIndexed: nat, sinceFlush: nat, sent: seq<BulkRequestPart>, flushes: nat,
                     included: bool, sinceFlush': nat, sent': seq<BulkRequestPart>, flushes': nat)
    requires Progress(g, target, name, sent0, flushes0, i, nodesIndexed, sinceFlush, sent, flushes) && i < |g.nodes|
    requires included <==> IsIncluded(g.nodes[i], target)
    requires !included ==> sinceFlush' == sinceFlush
    requires included ==> sinceFlush' == if sinceFlush + 1 == BatchSize then 0 else sinceFlush + 1
    requires flushes' == flushes + if included && sinceFlush' == 0 then 1 else 0
    requires sent' == sent + StepParts(g, i, target, name)
    ensures Progress(g, target, name, sent0, flushes0, i + 1, nodesIndexed + (if included then 1 else 0), sinceFlush', sent', flushes')
  {
    SentUpToSnoc(g, sent0, target, i, name);
  }

  /** After the last node, `Progress` is the outcome of the whole loop. */
  lemma ProgressDone(g: Graph, target: Point, name: IndexName, sent0: seq<BulkRequestPart>, flushes0: nat,
                     nodesIndexed: nat, sinceFlush: nat, sent: seq<BulkRequestPart>, flushes: nat)
    requires Progress(g, target, name, sent0, flushes0, |g.nodes|, nodesIndexed, sinceFlush, sent, flushes)
    ensures nodesIndexed == |IncludedNodes(g, target)|
    ensures flushes == flushes0 + nodesIndexed / BatchSize
    ensures sent == sent0 + PartsForNodes(g, IncludedNodes(g, target), target, name)
  {
    assert nodesIndexed / BatchSize == flushes - flushes0;
  }

  // ---------------------------------------------------------------------
  // cleanupCommand

  /** How the error of a failed removal is reported: type and reason when the error has a type. */
  function DetailOf(body: ErrorBody): ErrorDetail {
    match body.errorType
    case Some(t) => TypedError(t, body.reason)
    case None => UntypedError(body.error)
  }

  /** The log lines for the removed indices, in order. */
  function RemovalLines(names: seq<string>): (r: seq<Effect>)
    ensures |r| == |names|
    ensures forall i :: 0 <= i < |names| ==> r[i] == RemovingOldIndex(names[i])
  {
    if names == [] then [] else RemovalLines(names[..|names| - 1]) + [RemovingOldIndex(names[|names| - 1])]
  }

  /** The log lines for one dimension combination. */
  function CombinationLines(result: RemovalResult): seq<Effect> {
    match result
    case OldIndicesRemoved(names) => RemovalLines(names)
    case RemovalFailed(e) => [NothingRemoved(e.body.status, DetailOf(e.body))]
  }

  /** The log lines for the combinations, one after the other. */
  function CleanupLines(combinations: seq<Value>, removeOldIndices: Value -> RemovalResult): seq<Effect> {
    if combinations == [] then []
    else CleanupLines(combinations[..|combinations| - 1], removeOldIndices) + CombinationLines(removeOldIndices(combinations[|combinations| - 1]))
  }

  /** Some combination had at least one index removed. */
  predicate RemovedAny(combinations: seq<Value>, removeOldIndices: Value -> RemovalResult) {
    exists i :: 0 <= i < |combinations| && removeOldIndices(combinations[i]).OldIndicesRemoved? && removeOldIndices(combinations[i]).names != []
  }

  /** What `cleanupCommand` logs: every combination's lines, then "nothing to remove" if nothing was. */
  function CleanupEffects(combinations: seq<Value>, removeOldIndices: Value -> RemovalResult): seq<Effect> {
    CleanupLines(combinations, removeOldIndices) + (if RemovedAny(combinations, removeOldIndices) then [] else [NothingToRemove])
  }

  /** The number of combinations whose removal failed. */
  function FailedCount(combinations: seq<Value>, removeOldIndices: Value -> RemovalResult): nat {
    if combinations == [] then 0
    else FailedCount(combinations[..|combinations| - 1], removeOldIndices) + (if removeOldIndices(combinations[|combinations| - 1]).RemovalFailed? then 1 else 0)
  }

  /** The number of indices removed over all combinations. */
  function RemovedCount(combinations: seq<Value>, removeOldIndices: Value -> RemovalResult): nat {
    if combinations == [] then 0
    else
      var r := removeOldIndices(combinations[|combinations| - 1]);
      RemovedCount(combinations[..|combinations| - 1], removeOldIndices) + (if r.OldIndicesRemoved? then |r.names| else 0)
  }

  lemma {:induction false} RemovalLinesCount(names: seq<string>)
    ensures Count(RemovalLines(names), Removal) == |names|
    ensures Count(RemovalLines(names), CleanupFailure) == 0
    decreases |names|
  {
    if names != [] {
      RemovalLinesCount(names[..|names| - 1]);
      var front := RemovalLines(names[..|names| - 1]);
      var line := [RemovingOldIndex(names[|names| - 1])];
      assert RemovalLines(names) == front + line;
      CountAppend(front, line, Removal);
      CountAppend(front, line, CleanupFailure);
      CountSingle(RemovingOldIndex(names[|names| - 1]), Removal);
      CountSingle(RemovingOldIndex(names[|names| - 1]), CleanupFailure);
    }
  }

  /**
   * An `ApiException` for one combination does not stop the others: every
   * combination whose removal failed with one is logged once and every removed index once; and the
   * lines hold no "nothing to remove".
   */
  lemma {:induction false} CleanupLinesCount(combinations: seq<Value>, removeOldIndices: Value -> RemovalResult)
    ensures Count(CleanupLines(combinations, removeOldIndices), CleanupFailure) == FailedCount(combinations, removeOldIndices)
    ensures Count(CleanupLines(combinations, removeOldIndices), Removal) == RemovedCount(combinations, removeOldIndices)
    ensures NothingToRemove !in CleanupLines(combinations, removeOldIndices)
    decreases |combinations|
  {
    if combinations != [] {
      var front := combinations[..|combinations| - 1];
      var last := removeOldIndices(combinations[|combinations| - 1]);
      var before := CleanupLines(front, removeOldIndices);
      var lines := CombinationLines(last);
      assert CleanupLines(combinations, removeOldIndices) == before + lines;
      CleanupLinesCount(front, removeOldIndices);
      CountAppend(before, lines, Removal);
      CountAppend(before, lines, CleanupFailure);
      CombinationLinesCount(last);
    }
  }

  /** One combination logs one failure line, or one line per removed index. */
  lemma CombinationLinesCount(result: RemovalResult)
    ensures Count(CombinationLines(result), CleanupFailure) == if result.RemovalFailed? then 1 else 0
    ensures Count(CombinationLines(result), Removal) == if result.OldIndicesRemoved? then |result.names| else 0
    ensures NothingToRemove !in CombinationLines(result)
  {
    if result.OldIndicesRemoved? {
      RemovalLinesCount(result.names);
    } else {
      var line := NothingRemoved(result.exception.body.status, DetailOf(result.exception.body));
      CountSingle(line, CleanupFailure);
      CountSingle(line, Removal);
    }
  }

  /** An index was removed for some combination exactly when the removed count is positive. */
  lemma {:induction false} RemovedAnyIffCount(combinations: seq<Value>, removeOldIndices: Value -> RemovalResult)
    ensures RemovedAny(combinations, removeOldIndices) <==> RemovedCount(combinations, removeOldIndices) > 0
    decreases |combinations|
  {
    if combinations != [] {
      var front := combinations[..|combinations| - 1];
      RemovedAnyIffCount(front, removeOldIndices);
      if RemovedAny(front, removeOldIndices) {
        var i :| 0 <= i < |front| && removeOldIndices(front[i]).OldIndicesRemoved? && removeOldIndices(front[i]).names != [];
        assert combinations[i] == front[i];
      }
      if RemovedAny(combinations, removeOldIndices) {
        var i :| 0 <= i < |combinations| && removeOldIndices(combinations[i]).OldIndicesRemoved? && removeOldIndices(combinations[i]).names != [];
        if i < |front| {
          assert front[i] == combinations[i];
        }
      }
    }
  }

  /** "Nothing to remove." is logged exactly when no index was removed for any combination. */
  lemma NothingToRemoveIffNoneRemoved(combinations: seq<Value>, removeOldIndices: Value -> RemovalResult)
    ensures NothingToRemove in CleanupEffects(combinations, removeOldIndices) <==> Count(CleanupEffects(combinations, removeOldIndices), Removal) == 0
    ensures Count(CleanupEffects(combinations, removeOldIndices), CleanupFailure) == FailedCount(combinations, removeOldIndices)
  {
    var lines := CleanupLines(combinations, removeOldIndices);
    CleanupLinesCount(combinations, removeOldIndices);
    RemovedAnyIffCount(combinations, removeOldIndices);
    if RemovedAny(combinations, removeOldIndices) {
      assert CleanupEffects(combinations, removeOldIndices) == lines;
    } else {
      var tail := [NothingToRemove];
      assert CleanupEffects(combinations, removeOldIndices) == lines + tail;
      CountAppend(lines, tail, Removal);
      CountAppend(lines, tail, CleanupFailure);
      CountSingle(NothingToRemove, Removal);
      CountSingle(NothingToRemove, CleanupFailure);
      assert (lines + tail)[|lines|] == NothingToRemove;
    }
  }

  // ---------------------------------------------------------------------
  // createInternalCommand

  /**
   * What creating an index outside update mode causes: the deletion of an
   * existing index of the same name, announced first, then the creation.
   */
  function RecreationEffects(name: IndexName, postfix: string, dimensionsValues: Value, existing: set<IndexName>): seq<Effect> {
    (if name in existing then [DeletedSamePostfix(postfix), IndexDeleted(name)] else [])
      + [IndexCreated(name), CreatedIndex(name, dimensionsValues)]
  }

  /**
   * Outside update mode exactly one index is created, one is deleted only
   * when an index of that name exists, and the creation comes after the
   * deletion; no alias is updated and no build started.
   */
  lemma RecreationEffectsCounts(name: IndexName, postfix: string, dimensionsValues: Value, existing: set<IndexName>)
    ensures var r := RecreationEffects(name, postfix, dimensionsValues, existing);
      && Count(r, Creation) == 1
      && Count(r, Deletion) == (if name in existing then 1 else 0)
      && Count(r, AliasUpdate) == 0 && Count(r, CleanupFailure) == 0 && Count(r, Removal) == 0 && Started(r) == []
      && |r| >= 2 && r[|r| - 2] == IndexCreated(name)
  {
    var deletion := if name in existing then [DeletedSamePostfix(postfix), IndexDeleted(name)] else [];
    var creation := [IndexCreated(name), CreatedIndex(name, dimensionsValues)];
    CountAppend(deletion, creation, Creation);
    CountAppend(deletion, creation, Deletion);
    CountAppend(deletion, creation, AliasUpdate);
    CountAppend(deletion, creation, CleanupFailure);
    CountAppend(deletion, creation, Removal);
    StartedAppend(deletion, creation);
    assert creation[..1][..0] == [] && creation[..1] == [IndexCreated(name)];
    assert Started(creation[..1]) == [] by {
      assert creation[..1][..0] == [];
    }
    assert Started(creation) == [];
    if deletion != [] {
      assert deletion[..1][..0] == [] && deletion[..1] == [DeletedSamePostfix(postfix)];
      assert Started(deletion) == [];
    }
  }

  // ---------------------------------------------------------------------
  // The passes of buildCommand

  /** Effects none of which is of kind `k` count zero of it. */
  lemma {:induction false} CountOfNone(effs: seq<Effect>, k: EffectKind)
    requires forall i :: 0 <= i < |effs| ==> !IsKind(effs[i], k)
    ensures Count(effs, k) == 0
    decreases |effs|
  {
    if effs != [] {
      CountOfNone(effs[..|effs| - 1], k);
    }
  }

  /** The index `postfix` gives each combination, as a set. */
  function CombinationIndexNames(postfix: string, combinations: seq<Value>): set<IndexName> {
    set c | c in combinations :: IndexName(postfix, c)
  }

  lemma CombinationIndexNamesSnoc(postfix: string, combinations: seq<Value>, i: nat)
    requires i < |combinations|
    ensures CombinationIndexNames(postfix, combinations[..i + 1])
      == CombinationIndexNames(postfix, combinations[..i]) + {IndexName(postfix, combinations[i])}
  {
    assert combinations[..i + 1] == combinations[..i] + [combinations[i]];
  }

  /**
   * What `createInternalCommand` causes for one combination: in update mode
   * the warning and the mappings of the index the indexer already names;
   * otherwise the recreation of the combination's index and its mappings.
   */
  function CreationStepEffects(c: Value, update: bool, postfix: string, existing: set<IndexName>, current: IndexName,
                               nodeTypes: seq<NodeType>, s: BuilderSettings): seq<Effect> {
    if update then [UpdateModeActive] + Applied(MappingsFor(current, nodeTypes, s))
    else RecreationEffects(IndexName(postfix, c), postfix, c, existing) + Applied(MappingsFor(IndexName(postfix, c), nodeTypes, s))
  }

  /** The indices that exist before the `i`-th combination is created. */
  function ExistingBefore(combinations: seq<Value>, i: nat, update: bool, postfix: string, existing: set<IndexName>): set<IndexName>
    requires i <= |combinations|
  {
    if update then existing else existing + CombinationIndexNames(postfix, combinations[..i])
  }

  /** The creation pass: `createInternalCommand` for every combination, in order. */
  function CreationPassEffects(combinations: seq<Value>, update: bool, postfix: string, existing: set<IndexName>, current: IndexName,
                               nodeTypes: seq<NodeType>, s: BuilderSettings): seq<Effect>
    decreases |combinations|
  {
    if combinations == [] then []
    else
      var i := |combinations| - 1;
      CreationPassEffects(combinations[..i], update, postfix, existing, current, nodeTypes, s)
        + CreationStepEffects(combinations[i], update, postfix, ExistingBefore(combinations, i, update, postfix, existing), current, nodeTypes, s)
  }

  lemma CreationPassSnoc(combinations: seq<Value>, i: nat, update: bool, postfix: string, existing: set<IndexName>, current: IndexName,
                         nodeTypes: seq<NodeType>, s: BuilderSettings)
    requires i < |combinations|
    ensures CreationPassEffects(combinations[..i + 1], update, postfix, existing, current, nodeTypes, s)
      == CreationPassEffects(combinations[..i], update, postfix, existing, current, nodeTypes, s)
        + CreationStepEffects(combinations[i], update, postfix, ExistingBefore(combinations, i, update, postfix, existing), current, nodeTypes, s)
  {
    var prefix := combinations[..i + 1];
    assert prefix[..i] == combinations[..i];
    assert ExistingBefore(prefix, i, update, postfix, existing) == ExistingBefore(combinations, i, update, postfix, existing);
  }

  /**
   * One combination creates its index and deletes it first only when it
   * exists, outside update mode; in update mode it creates and deletes
   * nothing. No alias is updated, nothing removed and no build started.
   */
  lemma CreationStepCounts(c: Value, update: bool, postfix: string, existing: set<IndexName>, current: IndexName,
                           nodeTypes: seq<NodeType>, s: BuilderSettings)
    ensures var r := CreationStepEffects(c, update, postfix, existing, current, nodeTypes, s);
      && Count(r, Creation) == (if update then 0 else 1)
      && Count(r, Deletion) == (if !update && IndexName(postfix, c) in existing then 1 else 0)
      && Count(r, AliasUpdate) == 0 && Count(r, CleanupFailure) == 0 && Count(r, Removal) == 0
      && Started(r) == []
  {
    if update {
      UpdateStepCounts(current, nodeTypes, s);
    } else {
      RecreationStepCounts(IndexName(postfix, c), postfix, c, existing, nodeTypes, s);
    }
  }

  lemma UpdateStepCounts(current: IndexName, nodeTypes: seq<NodeType>, s: BuilderSettings)
    ensures var r := [UpdateModeActive] + Applied(MappingsFor(current, nodeTypes, s));
      && Count(r, Creation) == 0 && Count(r, Deletion) == 0
      && Count(r, AliasUpdate) == 0 && Count(r, CleanupFailure) == 0 && Count(r, Removal) == 0
      && Started(r) == []
  {
    var ap := Applied(MappingsFor(current, nodeTypes, s));
    assert Count(ap, Creation) == 0 && Count(ap, Deletion) == 0 && Count(ap, AliasUpdate) == 0
      && Count(ap, CleanupFailure) == 0 && Count(ap, Removal) == 0 && Started(ap) == [] by {
      AppliedIsInert(MappingsFor(current, nodeTypes, s));
    }
    assert [UpdateModeActive][..0] == [];
    CountOfTwo([UpdateModeActive], ap);
    StartedAppend([UpdateModeActive], ap);
  }

  lemma RecreationStepCounts(name: IndexName, postfix: string, c: Value, existing: set<IndexName>, nodeTypes: seq<NodeType>, s: BuilderSettings)
    ensures var r := RecreationEffects(name, postfix, c, existing) + Applied(MappingsFor(name, nodeTypes, s));
      && Count(r, Creation) == 1 && Count(r, Deletion) == (if name in existing then 1 else 0)
      && Count(r, AliasUpdate) == 0 && Count(r, CleanupFailure) == 0 && Count(r, Removal) == 0
      && Started(r) == []
  {
    var ap := Applied(MappingsFor(name, nodeTypes, s));
    var recreation := RecreationEffects(name, postfix, c, existing);
    assert Count(ap, Creation) == 0 && Count(ap, Deletion) == 0 && Count(ap, AliasUpdate) == 0
      && Count(ap, CleanupFailure) == 0 && Count(ap, Removal) == 0 && Started(ap) == [] by {
      AppliedIsInert(MappingsFor(name, nodeTypes, s));
    }
    RecreationEffectsCounts(name, postfix, c, existing);
    CountOfTwo(recreation, ap);
    StartedAppend(recreation, ap);
  }

  /** No two combinations are the same. */
  predicate DistinctCombinations(combinations: seq<Value>) {
    forall i, j :: 0 <= i < j < |combinations| ==> combinations[i] != combinations[j]
  }

  /**
   * The creation pass creates one index per combination outside update
   * mode and none in update mode; it deletes at most one per combination
   * and none in update mode. It updates no alias, removes nothing and
   * starts no build.
   */
  lemma {:induction false} CreationPassCounts(combinations: seq<Value>, update: bool, postfix: string, existing: set<IndexName>,
                                              current: IndexName, nodeTypes: seq<NodeType>, s: BuilderSettings)
    ensures var r := CreationPassEffects(combinations, update, postfix, existing, current, nodeTypes, s);
      && Count(r, Creation) == (if update then 0 else |combinations|)
      && Count(r, Deletion) <= (if update then 0 else |combinations|)
      && Count(r, AliasUpdate) == 0 && Count(r, CleanupFailure) == 0 && Count(r, Removal) == 0
      && Started(r) == []
    decreases |combinations|
  {
    if combinations != [] {
      var i := |combinations| - 1;
      var front := combinations[..i];
      var before := ExistingBefore(combinations, i, update, postfix, existing);
      var prior := CreationPassEffects(front, update, postfix, existing, current, nodeTypes, s);
      var step := CreationStepEffects(combinations[i], update, postfix, before, current, nodeTypes, s);
      CreationPassCounts(front, update, postfix, existing, current, nodeTypes, s);
      CreationStepCounts(combinations[i], update, postfix, before, current, nodeTypes, s);
      CountOfTwo(prior, step);
      StartedAppend(prior, step);
    }
  }

  /**
   * When the postfix names no existing index and the combinations are
   * distinct, the creation pass deletes nothing: every index it creates is
   * new.
   */
  lemma {:induction false} CreationPassFresh(combinations: seq<Value>, update: bool, postfix: string, existing: set<IndexName>,
                                             current: IndexName, nodeTypes: seq<NodeType>, s: BuilderSettings)
    requires forall c :: c in combinations ==> IndexName(postfix, c) !in existing
    requires DistinctCombinations(combinations)
    ensures Count(CreationPassEffects(combinations, update, postfix, existing, current, nodeTypes, s), Deletion) == 0
    decreases |combinations|
  {
    if combinations != [] {
      var i := |combinations| - 1;
      var front := combinations[..i];
      var before := ExistingBefore(combinations, i, update, postfix, existing);
      var prior := CreationPassEffects(front, update, postfix, existing, current, nodeTypes, s);
      var step := CreationStepEffects(combinations[i], update, postfix, before, current, nodeTypes, s);
      FreshPrefix(combinations, postfix, existing);
      CreationPassFresh(front, update, postfix, existing, current, nodeTypes, s);
      assert Count(step, Deletion) == 0 by {
        CreationStepCounts(combinations[i], update, postfix, before, current, nodeTypes, s);
      }
      CountAppend(prior, step, Deletion);
    }
  }

  /** Distinct combinations with fresh names stay so without the last, whose name none of the others has. */
  lemma FreshPrefix(combinations: seq<Value>, postfix: string, existing: set<IndexName>)
    requires combinations != []
    requires forall c :: c in combinations ==> IndexName(postfix, c) !in existing
    requires DistinctCombinations(combinations)
    ensures var front := combinations[..|combinations| - 1];
      && (forall c :: c in front ==> IndexName(postfix, c) !in existing)
      && DistinctCombinations(front)
      && IndexName(postfix, combinations[|combinations| - 1]) !in existing + CombinationIndexNames(postfix, front)
  {
    var i := |combinations| - 1;
    var front := combinations[..i];
    assert forall c :: c in front ==> c in combinations;
    forall j | 0 <= j < |front| ensures front[j] != combinations[i] {
      assert front[j] == combinations[j];
    }
    assert combinations[i] in combinations;
  }

  /** The five counts of a concatenation of two parts. */
  lemma CountOfTwo(a: seq<Effect>, b: seq<Effect>)
    ensures Count(a + b, Creation) == Count(a, Creation) + Count(b, Creation)
    ensures Count(a + b, Deletion) == Count(a, Deletion) + Count(b, Deletion)
    ensures Count(a + b, AliasUpdate) == Count(a, AliasUpdate) + Count(b, AliasUpdate)
    ensures Count(a + b, CleanupFailure) == Count(a, CleanupFailure) + Count(b, CleanupFailure)
    ensures Count(a + b, Removal) == Count(a, Removal) + Count(b, Removal)
  {
    CountAppend(a, b, Creation);
    CountAppend(a, b, Deletion);
    CountAppend(a, b, AliasUpdate);
    CountAppend(a, b, CleanupFailure);
    CountAppend(a, b, Removal);
  }

  /** The alias pass: nothing in update mode; otherwise the alias of every combination's index is updated, in order. */
  function AliasPassEffects(combinations: seq<Value>, postfix: string, update: bool): seq<Effect>
    decreases |combinations|
  {
    if update || combinations == [] then []
    else
      var name := IndexName(postfix, combinations[|combinations| - 1]);
      AliasPassEffects(combinations[..|combinations| - 1], postfix, update) + [UpdatingAlias(name), IndexAliasUpdated(name)]
  }

  lemma AliasPassSnoc(combinations: seq<Value>, i: nat, postfix: string, update: bool)
    requires i < |combinations|
    ensures AliasPassEffects(combinations[..i + 1], postfix, update) == AliasPassEffects(combinations[..i], postfix, update)
      + (if update then [] else [UpdatingAlias(IndexName(postfix, combinations[i])), IndexAliasUpdated(IndexName(postfix, combinations[i]))])
  {
    assert combinations[..i + 1][..i] == combinations[..i];
  }

  /** The refresh pass: the index of every combination is refreshed, in order. */
  function RefreshPassEffects(combinations: seq<Value>, postfix: string): seq<Effect>
    decreases |combinations|
  {
    if combinations == [] then []
    else
      var name := IndexName(postfix, combinations[|combinations| - 1]);
      RefreshPassEffects(combinations[..|combinations| - 1], postfix) + [RefreshingIndex(name), IndexRefreshed(name)]
  }

  lemma RefreshPassSnoc(combinations: seq<Value>, i: nat, postfix: string)
    requires i < |combinations|
    ensures RefreshPassEffects(combinations[..i + 1], postfix) == RefreshPassEffects(combinations[..i], postfix)
      + [RefreshingIndex(IndexName(postfix, combinations[i])), IndexRefreshed(IndexName(postfix, combinations[i]))]
  {
    assert combinations[..i + 1][..i] == combinations[..i];
  }

  /** The counts of two effects of the passes: only an alias update is counted, and neither starts a build. */
  lemma PairCounts(a: Effect, b: Effect)
    requires a.UpdatingAlias? || a.RefreshingIndex?
    requires b.IndexAliasUpdated? || b.IndexRefreshed?
    ensures Count([a, b], AliasUpdate) == (if b.IndexAliasUpdated? then 1 else 0)
    ensures Count([a, b], Creation) == 0 && Count([a, b], Deletion) == 0
    ensures Count([a, b], CleanupFailure) == 0 && Count([a, b], Removal) == 0
    ensures Started([a, b]) == []
  {
    assert [a, b][..1] == [a];
    assert [a][..0] == [];
    assert Started([a]) == [];
  }

  /** No effect of any counted kind. */
  predicate CountsNothing(effs: seq<Effect>) {
    && Count(effs, Creation) == 0 && Count(effs, Deletion) == 0 && Count(effs, AliasUpdate) == 0
    && Count(effs, CleanupFailure) == 0 && Count(effs, Removal) == 0
  }

  /**
   * Outside update mode the alias pass handles every combination's index
   * once, in order, announcing it before updating its alias; in update
   * mode it does nothing.
   */
  lemma {:induction false} AliasPassExact(combinations: seq<Value>, postfix: string, update: bool)
    ensures var r := AliasPassEffects(combinations, postfix, update);
      && |r| == (if update then 0 else 2 * |combinations|)
      && (!update ==> forall i :: 0 <= i < |combinations| ==>
            r[2 * i] == UpdatingAlias(IndexName(postfix, combinations[i])) && r[2 * i + 1] == IndexAliasUpdated(IndexName(postfix, combinations[i])))
    decreases |combinations|
  {
    if !update && combinations != [] {
      var front := combinations[..|combinations| - 1];
      AliasPassExact(front, postfix, update);
      forall i | 0 <= i < |front| ensures combinations[i] == front[i] { }
    }
  }

  /** The alias pass updates one alias per combination, none in update mode, and causes nothing else that is counted. */
  lemma {:induction false} AliasPassCounts(combinations: seq<Value>, postfix: string, update: bool)
    ensures var r := AliasPassEffects(combinations, postfix, update);
      && Count(r, AliasUpdate) == (if update then 0 else |combinations|)
      && Count(r, Creation) == 0 && Count(r, Deletion) == 0 && Count(r, CleanupFailure) == 0 && Count(r, Removal) == 0
      && Started(r) == []
    decreases |combinations|
  {
    if !update && combinations != [] {
      var front := combinations[..|combinations| - 1];
      var name := IndexName(postfix, combinations[|combinations| - 1]);
      var prior := AliasPassEffects(front, postfix, update);
      AliasPassCounts(front, postfix, update);
      var pair := [UpdatingAlias(name), IndexAliasUpdated(name)];
      PairCounts(UpdatingAlias(name), IndexAliasUpdated(name));
      CountOfTwo(prior, pair);
      StartedAppend(prior, pair);
    }
  }

  /** The refresh pass refreshes every combination's index once, in order, after announcing it. */
  lemma {:induction false} RefreshPassExact(combinations: seq<Value>, postfix: string)
    ensures var r := RefreshPassEffects(combinations, postfix);
      && |r| == 2 * |combinations|
      && (forall i :: 0 <= i < |combinations| ==>
            r[2 * i] == RefreshingIndex(IndexName(postfix, combinations[i])) && r[2 * i + 1] == IndexRefreshed(IndexName(postfix, combinations[i])))
    decreases |combinations|
  {
    if combinations != [] {
      var front := combinations[..|combinations| - 1];
      RefreshPassExact(front, postfix);
      forall i | 0 <= i < |front| ensures combinations[i] == front[i] { }
    }
  }

  /** The refresh pass causes nothing that is counted and starts no build. */
  lemma {:induction false} RefreshPassCounts(combinations: seq<Value>, postfix: string)
    ensures CountsNothing(RefreshPassEffects(combinations, postfix)) && Started(RefreshPassEffects(combinations, postfix)) == []
    decreases |combinations|
  {
    if combinations != [] {
      var front := combinations[..|combinations| - 1];
      var name := IndexName(postfix, combinations[|combinations| - 1]);
      var pair := [RefreshingIndex(name), IndexRefreshed(name)];
      var prior := RefreshPassEffects(front, postfix);
      RefreshPassCounts(front, postfix);
      PairCounts(RefreshingIndex(name), IndexRefreshed(name));
      CountOfTwo(prior, pair);
      StartedAppend(prior, pair);
    }
  }

  /**
   * A build is started for exactly the live targets, in order, and the
   * builds cause nothing that is counted.
   */
  lemma {:induction false} LiveBuildExact(g: Graph, subspace: seq<Point>, postfix: string)
    ensures var r := LiveBuildEffects(g, subspace, postfix);
      Started(r) == LiveTargets(subspace) && CountsNothing(r)
    decreases |subspace|
  {
    if subspace != [] {
      var p := subspace[|subspace| - 1];
      var front := subspace[..|subspace| - 1];
      var prior := LiveBuildEffects(g, front, postfix);
      LiveBuildExact(g, front, postfix);
      if Coordinate(p, WorkspaceDimension) == Some(LiveWorkspace) {
        var b := BuildEffects(g, WithoutWorkspace(p), postfix);
        BuildEffectsExact(g, WithoutWorkspace(p), postfix);
        CountOfTwo(prior, b);
        StartedAppend(prior, b);
      } else {
        assert prior + [] == prior;
        assert LiveBuildEffects(g, subspace, postfix) == prior;
        assert LiveTargets(subspace) == LiveTargets(front) + [];
      }
    }
  }

  /** One build starts the build of its target and causes nothing that is counted. */
  lemma BuildEffectsExact(g: Graph, target: Point, postfix: string)
    ensures Started(BuildEffects(g, target, postfix)) == [target]
    ensures CountsNothing(BuildEffects(g, target, postfix))
  {
    var b := BuildEffects(g, target, postfix);
    CountOfNone(b, Creation);
    CountOfNone(b, Deletion);
    CountOfNone(b, AliasUpdate);
    CountOfNone(b, CleanupFailure);
    CountOfNone(b, Removal);
    StartedAppend([b[0]], b[1..]);
    assert [b[0]] + b[1..] == b;
    StartedOfInert(b[1..]);
    assert [b[0]][..0] == [];
  }

  /**
   * What `buildIndexForDimensionSpacePoint` logs and does besides indexing:
   * the start, the number of nodes indexed, and the refresh of the index.
   */
  function BuildEffects(g: Graph, target: Point, postfix: string): seq<Effect> {
    [BuildStarted(target), BuildDone(|IncludedNodes(g, target)|), IndexRefreshed(IndexName(postfix, CoordinatesValue(target)))]
  }

  /**
   * The index a build refreshes, which is the index the indexer is
   * configured with for the target, is one of the indices the passes create
   * and alias exactly when the target's coordinates are one of the
   * combinations.
   */
  lemma BuildIndexIsCombinationIndex(g: Graph, target: Point, postfix: string, combinations: seq<Value>)
    ensures exists e :: e in BuildEffects(g, target, postfix) && e.IndexRefreshed?
    ensures forall e :: e in BuildEffects(g, target, postfix) && e.IndexRefreshed? ==>
      (e.index in CombinationIndexNames(postfix, combinations) <==> CoordinatesValue(target) in combinations)
  {
    var b := BuildEffects(g, target, postfix);
    assert b[2] in b && b[2].IndexRefreshed?;
  }

  /** The build of every live point of the subspace, in order. */
  function LiveBuildEffects(g: Graph, subspace: seq<Point>, postfix: string): seq<Effect>
    decreases |subspace|
  {
    if subspace == [] then []
    else
      var p := subspace[|subspace| - 1];
      LiveBuildEffects(g, subspace[..|subspace| - 1], postfix)
        + (if Coordinate(p, WorkspaceDimension) == Some(LiveWorkspace) then BuildEffects(g, WithoutWorkspace(p), postfix) else [])
  }

  /** The parts sent for every live point of the subspace, in order. */
  function LiveParts(g: Graph, subspace: seq<Point>, postfix: string): seq<BulkRequestPart>
    requires Valid(g)
    decreases |subspace|
  {
    if subspace == [] then []
    else
      var p := subspace[|subspace| - 1];
      var target := WithoutWorkspace(p);
      LiveParts(g, subspace[..|subspace| - 1], postfix)
        + (if Coordinate(p, WorkspaceDimension) == Some(LiveWorkspace)
           then PartsForNodes(g, IncludedNodes(g, target), target, IndexName(postfix, CoordinatesValue(target)))
           else [])
  }

  lemma LiveSnoc(g: Graph, subspace: seq<Point>, i: nat, postfix: string)
    requires Valid(g) && i < |subspace|
    ensures var p, target := subspace[i], WithoutWorkspace(subspace[i]);
      var live := Coordinate(p, WorkspaceDimension) == Some(LiveWorkspace);
      && LiveBuildEffects(g, subspace[..i + 1], postfix) == LiveBuildEffects(g, subspace[..i], postfix) + (if live then BuildEffects(g, target, postfix) else [])
      && LiveParts(g, subspace[..i + 1], postfix) == LiveParts(g, subspace[..i], postfix)
           + (if live then PartsForNodes(g, IncludedNodes(g, target), target, IndexName(postfix, CoordinatesValue(target))) else [])
      && LiveTargets(subspace[..i + 1]) == LiveTargets(subspace[..i]) + (if live then [target] else [])
  {
    assert subspace[..i + 1][..i] == subspace[..i];
  }

  /**
   * Everything a completed `buildCommand` causes, pass after pass: the
   * creation pass, the alias pass when no alias existed, the build of every
   * live point, the refresh pass, the alias pass, and the main alias.
   */
  function CompletedBuildEffects(update: bool, postfix: string, existing: set<IndexName>, current: IndexName,
                                 nodeTypes: seq<NodeType>, s: BuilderSettings, combinations: seq<Value>,
                                 aliasesExisted: bool, g: Graph, subspace: seq<Point>): seq<Effect> {
    CreationPassEffects(combinations, update, postfix, existing, current, nodeTypes, s)
      + FinishingEffects(update, postfix, combinations, aliasesExisted, g, subspace)
  }

  /** What follows the creation pass once the alias lookup succeeded. */
  function FinishingEffects(update: bool, postfix: string, combinations: seq<Value>, aliasesExisted: bool, g: Graph, subspace: seq<Point>): seq<Effect> {
    (if aliasesExisted then [] else AliasPassEffects(combinations, postfix, update))
      + LiveBuildEffects(g, subspace, postfix)
      + RefreshPassEffects(combinations, postfix)
      + AliasPassEffects(combinations, postfix, update)
      + [MainAliasUpdated(postfix)]
  }

  /** After the creation pass, builds are started for exactly the live points, in order, and the main alias is updated last. */
  lemma FinishingStarts(update: bool, postfix: string, combinations: seq<Value>, aliasesExisted: bool, g: Graph, subspace: seq<Point>)
    ensures var f := FinishingEffects(update, postfix, combinations, aliasesExisted, g, subspace);
      Started(f) == LiveTargets(subspace) && f[|f| - 1] == MainAliasUpdated(postfix)
  {
    var b := if aliasesExisted then [] else AliasPassEffects(combinations, postfix, update);
    var c := LiveBuildEffects(g, subspace, postfix);
    var d := RefreshPassEffects(combinations, postfix);
    var e := AliasPassEffects(combinations, postfix, update);
    AliasPassCounts(combinations, postfix, update);
    LiveBuildExact(g, subspace, postfix);
    RefreshPassCounts(combinations, postfix);
    StartedOfParts(b, c, d, e, postfix);
  }

  /** After the creation pass no index is created or deleted, nothing is removed, and the aliases are updated once or twice per combination. */
  lemma FinishingCounts(update: bool, postfix: string, combinations: seq<Value>, aliasesExisted: bool, g: Graph, subspace: seq<Point>)
    ensures var f := FinishingEffects(update, postfix, combinations, aliasesExisted, g, subspace);
      && Count(f, Creation) == 0 && Count(f, Deletion) == 0
      && Count(f, AliasUpdate) == (if update then 0 else if aliasesExisted then |combinations| else 2 * |combinations|)
      && Count(f, Removal) == 0 && Count(f, CleanupFailure) == 0
  {
    var b := if aliasesExisted then [] else AliasPassEffects(combinations, postfix, update);
    var c := LiveBuildEffects(g, subspace, postfix);
    var d := RefreshPassEffects(combinations, postfix);
    var e := AliasPassEffects(combinations, postfix, update);
    AliasPassCounts(combinations, postfix, update);
    LiveBuildExact(g, subspace, postfix);
    RefreshPassCounts(combinations, postfix);
    CountOfParts(b, c, d, e, postfix, Creation);
    CountOfParts(b, c, d, e, postfix, Deletion);
    CountOfParts(b, c, d, e, postfix, AliasUpdate);
    CountOfParts(b, c, d, e, postfix, Removal);
    CountOfParts(b, c, d, e, postfix, CleanupFailure);
  }

  /**
   * A completed build starts a build for exactly the live points, in
   * order, and updates the main alias last.
   */
  lemma CompletedBuildStarts(update: bool, postfix: string, existing: set<IndexName>, current: IndexName,
                             nodeTypes: seq<NodeType>, s: BuilderSettings, combinations: seq<Value>,
                             aliasesExisted: bool, g: Graph, subspace: seq<Point>)
    ensures var r := CompletedBuildEffects(update, postfix, existing, current, nodeTypes, s, combinations, aliasesExisted, g, subspace);
      Started(r) == LiveTargets(subspace) && r[|r| - 1] == MainAliasUpdated(postfix)
  {
    var a := CreationPassEffects(combinations, update, postfix, existing, current, nodeTypes, s);
    var f := FinishingEffects(update, postfix, combinations, aliasesExisted, g, subspace);
    CreationPassCounts(combinations, update, postfix, existing, current, nodeTypes, s);
    FinishingStarts(update, postfix, combinations, aliasesExisted, g, subspace);
    StartedAppend(a, f);
  }

  /**
   * A completed build creates one index per combination outside update
   * mode, and in update mode creates and deletes none.
   */
  lemma CompletedBuildIndices(update: bool, postfix: string, existing: set<IndexName>, current: IndexName,
                             nodeTypes: seq<NodeType>, s: BuilderSettings, combinations: seq<Value>,
                             aliasesExisted: bool, g: Graph, subspace: seq<Point>)
    ensures var r := CompletedBuildEffects(update, postfix, existing, current, nodeTypes, s, combinations, aliasesExisted, g, subspace);
      && Count(r, Creation) == (if update then 0 else |combinations|)
      && (update ==> Count(r, Deletion) == 0)
  {
    var a := CreationPassEffects(combinations, update, postfix, existing, current, nodeTypes, s);
    var f := FinishingEffects(update, postfix, combinations, aliasesExisted, g, subspace);
    CreationPassCounts(combinations, update, postfix, existing, current, nodeTypes, s);
    FinishingCounts(update, postfix, combinations, aliasesExisted, g, subspace);
    CountAppend(a, f, Creation);
    CountAppend(a, f, Deletion);
  }

  /**
   * A completed build updates every combination's alias twice when no
   * alias existed and once otherwise, none in update mode, and removes
   * nothing.
   */
  lemma CompletedBuildAliases(update: bool, postfix: string, existing: set<IndexName>, current: IndexName,
                             nodeTypes: seq<NodeType>, s: BuilderSettings, combinations: seq<Value>,
                             aliasesExisted: bool, g: Graph, subspace: seq<Point>)
    ensures var r := CompletedBuildEffects(update, postfix, existing, current, nodeTypes, s, combinations, aliasesExisted, g, subspace);
      && Count(r, AliasUpdate) == (if update then 0 else if aliasesExisted then |combinations| else 2 * |combinations|)
      && Count(r, Removal) == 0 && Count(r, CleanupFailure) == 0
  {
    var a := CreationPassEffects(combinations, update, postfix, existing, current, nodeTypes, s);
    var f := FinishingEffects(update, postfix, combinations, aliasesExisted, g, subspace);
    CreationPassCounts(combinations, update, postfix, existing, current, nodeTypes, s);
    FinishingCounts(update, postfix, combinations, aliasesExisted, g, subspace);
    CountAppend(a, f, AliasUpdate);
    CountAppend(a, f, Removal);
    CountAppend(a, f, CleanupFailure);
  }

  /** Counting over four parts followed by the main alias update. */
  lemma CountOfParts(b: seq<Effect>, c: seq<Effect>, d: seq<Effect>, e: seq<Effect>, postfix: string, k: EffectKind)
    ensures Count(b + c + d + e + [MainAliasUpdated(postfix)], k) == Count(b, k) + Count(c, k) + Count(d, k) + Count(e, k)
  {
    var m := MainAliasUpdated(postfix);
    CountAppend(b, c, k);
    CountAppend(b + c, d, k);
    CountAppend(b + c + d, e, k);
    CountAppend(b + c + d + e, [m], k);
    CountSingle(m, k);
  }

  /** Collecting started targets over four parts followed by the main alias update. */
  lemma StartedOfParts(b: seq<Effect>, c: seq<Effect>, d: seq<Effect>, e: seq<Effect>, postfix: string)
    ensures Started(b + c + d + e + [MainAliasUpdated(postfix)]) == Started(b) + Started(c) + Started(d) + Started(e)
  {
    var m := MainAliasUpdated(postfix);
    StartedAppend(b, c);
    StartedAppend(b + c, d);
    StartedAppend(b + c + d, e);
    StartedAppend(b + c + d + e, [m]);
    StartedOfInert([m]);
  }

  /** Six consecutive parts, grouped as the command appends them and as its specification lists them. */
  lemma ConcatParts<T>(e0: seq<T>, b: seq<T>, c: seq<T>, d: seq<T>, e: seq<T>, m: seq<T>)
    ensures e0 + b + c + (d + e + m) == e0 + (b + c + d + e + m)
  {
    AppendAssoc(e0, b, c);
    AppendAssoc(e0 + b + c, d + e, m);
    AppendAssoc(e0 + b + c, d, e);
    AppendAssoc(e0, b + c, d);
    AppendAssoc(e0, b + c + d, e);
    AppendAssoc(e0, b + c + d + e, m);
  }

  /** One more combination appends its lines, and counts towards "something was removed" when it removed an index. */
  lemma CleanupSnoc(combinations: seq<Value>, i: nat, removeOldIndices: Value -> RemovalResult)
    requires i < |combinations|
    ensures CleanupLines(combinations[..i + 1], removeOldIndices)
      == CleanupLines(combinations[..i], removeOldIndices) + CombinationLines(removeOldIndices(combinations[i]))
    ensures var r := removeOldIndices(combinations[i]);
      RemovedAny(combinations[..i + 1], removeOldIndices) <==> RemovedAny(combinations[..i], removeOldIndices) || (r.OldIndicesRemoved? && r.names != [])
  {
    var prefix := combinations[..i + 1];
    assert prefix[..i] == combinations[..i];
    if RemovedAny(prefix, removeOldIndices) {
      var j :| 0 <= j < |prefix| && removeOldIndices(prefix[j]).OldIndicesRemoved? && removeOldIndices(prefix[j]).names != [];
      if j < i {
        assert combinations[..i][j] == prefix[j];
      }
    }
    if RemovedAny(combinations[..i], removeOldIndices) {
      var j :| 0 <= j < i && removeOldIndices(combinations[..i][j]).OldIndicesRemoved? && removeOldIndices(combinations[..i][j]).names != [];
      assert prefix[j] == combinations[..i][j];
    }
  }
}
