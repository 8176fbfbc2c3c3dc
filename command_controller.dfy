/**
 * The `graphIndexNew` command controller: creating the indices and their
 * mappings, building the index of every live dimension-space point from the
 * content graph in batches, refreshing, switching aliases, and cleaning up
 * old indices. Elasticsearch operations and log lines are recorded, in
 * order, in `effects`; the cluster's indices are the set `existingIndices`.
 */
module Command {
  import opened Values
  import opened DimensionSpace
  import opened NodeTypes
  import opened ContentGraph
  import opened Indexer
  import opened Mappings
  import opened CommandEffects

  // ---------------------------------------------------------------------
  // The controller

  class GraphIndexNewCommandController {
    const nodeIndexer: NodeIndexer
    const nodeTypeMappingBuilder: NodeTypeMappingBuilder
    /** The indices that exist in the cluster. */
    var existingIndices: set<IndexName>
    /** What the controller has caused so far, in order. */
    var effects: seq<Effect>

    constructor (nodeIndexer: NodeIndexer, nodeTypeMappingBuilder: NodeTypeMappingBuilder, existingIndices: set<IndexName>)
      ensures this.nodeIndexer == nodeIndexer && this.nodeTypeMappingBuilder == nodeTypeMappingBuilder
      ensures this.existingIndices == existingIndices && effects == []
    {
      this.nodeIndexer := nodeIndexer;
      this.nodeTypeMappingBuilder := nodeTypeMappingBuilder;
      this.existingIndices := existingIndices;
      effects := [];
    }

    /** `configureNodeIndexer`: sets the indexer's postfix and dimensions and hands the dimensions back. */
    method ConfigureNodeIndexer(dimensionsValues: Value, postfix: string) returns (r: Value)
      modifies nodeIndexer`indexNamePostfix, nodeIndexer`dimensions
      ensures nodeIndexer.indexNamePostfix == postfix && nodeIndexer.dimensions == dimensionsValues
      ensures r == dimensionsValues
    {
      nodeIndexer.SetIndexNamePostfix(postfix);
      nodeIndexer.SetDimensions(dimensionsValues);
      r := dimensionsValues;
    }

    /** `applyMapping`: builds the mappings for the current index and applies each, in order. */
    method ApplyMapping()
      modifies nodeTypeMappingBuilder`lastMappingErrors, this`effects
      ensures effects == old(effects) + Applied(MappingsFor(nodeIndexer.IndexNameOf(), nodeTypeMappingBuilder.nodeTypes, nodeTypeMappingBuilder.settings))
      ensures nodeTypeMappingBuilder.lastMappingErrors == WarningsFor(nodeTypeMappingBuilder.nodeTypes, nodeTypeMappingBuilder.settings)
    {
      var mappings := nodeTypeMappingBuilder.BuildMappingInformation(nodeIndexer.IndexNameOf());
      var applied := PutMappings(mappings);
      effects := effects + applied;
    }

    /**
     * `createInternalCommand`: in update mode only a warning; otherwise the
     * indexer is configured, an index of the same name is deleted first,
     * and the index is created. The mapping is applied in both modes.
     */
    method CreateInternalCommand(dimensionsValues: Value, update: bool, postfix: string)
      modifies nodeIndexer`indexNamePostfix, nodeIndexer`dimensions, nodeTypeMappingBuilder`lastMappingErrors, this`effects, this`existingIndices
      ensures update ==> nodeIndexer.indexNamePostfix == old(nodeIndexer.indexNamePostfix) && nodeIndexer.dimensions == old(nodeIndexer.dimensions)
      ensures update ==> existingIndices == old(existingIndices)
      ensures !update ==> nodeIndexer.indexNamePostfix == postfix && nodeIndexer.dimensions == dimensionsValues
      ensures !update ==> existingIndices == old(existingIndices) + {IndexName(postfix, dimensionsValues)}
      ensures effects == old(effects) + CreationStepEffects(dimensionsValues, update, postfix, old(existingIndices), old(nodeIndexer.IndexNameOf()),
        nodeTypeMappingBuilder.nodeTypes, nodeTypeMappingBuilder.settings)
      ensures nodeTypeMappingBuilder.lastMappingErrors == WarningsFor(nodeTypeMappingBuilder.nodeTypes, nodeTypeMappingBuilder.settings)
    {
      ghost var e0 := effects;
      if update {
        effects := effects + [UpdateModeActive];
      } else {
        RecreateIndex(dimensionsValues, postfix);
      }
      ApplyMapping();
      if update {
        AppendAssoc(e0, [UpdateModeActive], Applied(MappingsFor(nodeIndexer.IndexNameOf(), nodeTypeMappingBuilder.nodeTypes, nodeTypeMappingBuilder.settings)));
      } else {
        var name := IndexName(postfix, dimensionsValues);
        AppendAssoc(e0, RecreationEffects(name, postfix, dimensionsValues, old(existingIndices)),
          Applied(MappingsFor(name, nodeTypeMappingBuilder.nodeTypes, nodeTypeMappingBuilder.settings)));
      }
    }

    /** The non-update part of `createInternalCommand`: configure, delete an index of the same name, create. */
    method RecreateIndex(dimensionsValues: Value, postfix: string)
      modifies nodeIndexer`indexNamePostfix, nodeIndexer`dimensions, this`effects, this`existingIndices
      ensures nodeIndexer.indexNamePostfix == postfix && nodeIndexer.dimensions == dimensionsValues
      ensures existingIndices == old(existingIndices) + {IndexName(postfix, dimensionsValues)}
      ensures effects == old(effects) + RecreationEffects(IndexName(postfix, dimensionsValues), postfix, dimensionsValues, old(existingIndices))
    {
      var dimensionsValuesArray := ConfigureNodeIndexer(dimensionsValues, postfix);
      var name := nodeIndexer.IndexNameOf();
      if name in existingIndices {
        effects := effects + [DeletedSamePostfix(postfix)];
        existingIndices := existingIndices - {name};
        effects := effects + [IndexDeleted(name)];
      }
      existingIndices := existingIndices + {name};
      effects := effects + [IndexCreated(name)];
      effects := effects + [CreatedIndex(name, dimensionsValuesArray)];
    }

    /** `refreshInternalCommand`: configures the indexer and refreshes its index. */
    method RefreshInternalCommand(dimensionsValues: Value, postfix: string)
      modifies nodeIndexer`indexNamePostfix, nodeIndexer`dimensions, this`effects
      ensures nodeIndexer.indexNamePostfix == postfix && nodeIndexer.dimensions == dimensionsValues
      ensures effects == old(effects) + [RefreshingIndex(IndexName(postfix, dimensionsValues)), IndexRefreshed(IndexName(postfix, dimensionsValues))]
    {
      var _ := ConfigureNodeIndexer(dimensionsValues, postfix);
      effects := effects + [RefreshingIndex(nodeIndexer.IndexNameOf())];
      effects := effects + [IndexRefreshed(nodeIndexer.IndexNameOf())];
    }

    /** `aliasInternalCommand`: nothing in update mode; otherwise configures the indexer and updates its alias. */
    method AliasInternalCommand(dimensionsValues: Value, postfix: string, update: bool)
      modifies nodeIndexer`indexNamePostfix, nodeIndexer`dimensions, this`effects
      ensures update ==> nodeIndexer.indexNamePostfix == old(nodeIndexer.indexNamePostfix) && nodeIndexer.dimensions == old(nodeIndexer.dimensions)
      ensures update ==> effects == old(effects)
      ensures !update ==> nodeIndexer.indexNamePostfix == postfix && nodeIndexer.dimensions == dimensionsValues
      ensures !update ==> effects == old(effects) + [UpdatingAlias(IndexName(postfix, dimensionsValues)), IndexAliasUpdated(IndexName(postfix, dimensionsValues))]
    {
      if update {
        return;
      }
      var _ := ConfigureNodeIndexer(dimensionsValues, postfix);
      effects := effects + [UpdatingAlias(nodeIndexer.IndexNameOf())];
      effects := effects + [IndexAliasUpdated(nodeIndexer.IndexNameOf())];
    }

    /**
     * `buildIndexForDimensionSpacePoint`: configures the indexer for the
     * target point, indexes the nodes with an incoming hierarchy relation at
     * that point in batches, flushes once more at the end and refreshes the
     * index. The flushes carry, in order, what was pending and the bulk
     * parts of every included node; there is one flush per full batch and
     * the final one.
     */
    method BuildIndexForDimensionSpacePoint(graph: Graph, target: Point, postfix: string) returns (nodesIndexed: nat)
      requires Valid(graph) && nodeIndexer.contentGraph == graph
      modifies nodeIndexer`indexNamePostfix, nodeIndexer`dimensions, nodeIndexer`currentBulkRequest, nodeIndexer`flushedBulkRequests, this`effects
      ensures nodeIndexer.indexNamePostfix == postfix && nodeIndexer.dimensions == CoordinatesValue(target)
      ensures nodesIndexed == |IncludedNodes(graph, target)|
      ensures |nodeIndexer.flushedBulkRequests| == |old(nodeIndexer.flushedBulkRequests)| + nodesIndexed / BatchSize + 1
      ensures Flatten(nodeIndexer.flushedBulkRequests) == Flatten(old(nodeIndexer.flushedBulkRequests)) + old(nodeIndexer.currentBulkRequest)
        + PartsForNodes(graph, IncludedNodes(graph, target), target, IndexName(postfix, CoordinatesValue(target)))
      ensures nodeIndexer.currentBulkRequest == []
      ensures effects == old(effects) + [BuildStarted(target), BuildDone(nodesIndexed), IndexRefreshed(IndexName(postfix, CoordinatesValue(target)))]
    {
      var dimensionsValues := ConfigureNodeIndexer(CoordinatesValue(target), postfix);
      effects := effects + [BuildStarted(target)];
      nodesIndexed := IndexIncludedNodes(graph, target);
      FlattenSnoc(nodeIndexer.flushedBulkRequests, nodeIndexer.currentBulkRequest);
      nodeIndexer.Flush();
      effects := effects + [BuildDone(nodesIndexed)];
      effects := effects + [IndexRefreshed(nodeIndexer.IndexNameOf())];
    }

    /**
     * The node loop of `buildIndexForDimensionSpacePoint`: every node with
     * an incoming hierarchy relation at the target point is indexed, and
     * the indexer is flushed whenever `BatchSize` nodes were indexed since
     * the last flush; skipped nodes advance neither counter.
     */
    method IndexIncludedNodes(graph: Graph, target: Point) returns (nodesIndexed: nat)
      requires Valid(graph) && nodeIndexer.contentGraph == graph
      modifies nodeIndexer`currentBulkRequest, nodeIndexer`flushedBulkRequests
      ensures nodesIndexed == |IncludedNodes(graph, target)|
      ensures |nodeIndexer.flushedBulkRequests| == |old(nodeIndexer.flushedBulkRequests)| + nodesIndexed / BatchSize
      ensures Sent() == old(Sent()) + PartsForNodes(graph, IncludedNodes(graph, target), target, nodeIndexer.IndexNameOf())
    {
      var name := nodeIndexer.IndexNameOf();
      ghost var flushes0 := |nodeIndexer.flushedBulkRequests|;
      ghost var sent0 := Sent();
      nodesIndexed := 0;
      var nodesSinceLastFlush := 0;
      var i := 0;
      while i < |graph.nodes|
        invariant nodeIndexer.contentGraph == graph && nodeIndexer.IndexNameOf() == name
        invariant Progress(graph, target, name, sent0, flushes0, i, nodesIndexed, nodesSinceLastFlush, Sent(), |nodeIndexer.flushedBulkRequests|)
        decreases |graph.nodes| - i
      {
        nodesIndexed, nodesSinceLastFlush := IndexStep(graph, name, target, sent0, flushes0, i, nodesIndexed, nodesSinceLastFlush);
        i := i + 1;
      }
      ProgressDone(graph, target, name, sent0, flushes0, nodesIndexed, nodesSinceLastFlush, Sent(), |nodeIndexer.flushedBulkRequests|);
    }

    /** One iteration of the node loop, which keeps `Progress`. */
    method IndexStep(graph: Graph, name: IndexName, target: Point, ghost sent0: seq<BulkRequestPart>, ghost flushes0: nat,
                     i: nat, nodesIndexed: nat, nodesSinceLastFlush: nat)
      returns (nodesIndexed': nat, nodesSinceLastFlush': nat)
      requires i < |graph.nodes| && nodeIndexer.contentGraph == graph && nodeIndexer.IndexNameOf() == name
      requires Progress(graph, target, name, sent0, flushes0, i, nodesIndexed, nodesSinceLastFlush, Sent(), |nodeIndexer.flushedBulkRequests|)
      modifies nodeIndexer`currentBulkRequest, nodeIndexer`flushedBulkRequests
      ensures Progress(graph, target, name, sent0, flushes0, i + 1, nodesIndexed', nodesSinceLastFlush', Sent(), |nodeIndexer.flushedBulkRequests|)
    {
      ghost var sent := Sent();
      ghost var flushes := |nodeIndexer.flushedBulkRequests|;
      var included;
      included, nodesSinceLastFlush' := IndexNodeIfIncluded(graph, name, i, target, nodesSinceLastFlush);
      ProgressStep(graph, target, name, sent0, flushes0, i, nodesIndexed, nodesSinceLastFlush, sent, flushes,
        included, nodesSinceLastFlush', Sent(), |nodeIndexer.flushedBulkRequests|);
      nodesIndexed' := if included then nodesIndexed + 1 else nodesIndexed;
    }

    /** What the indexer has sent or holds pending: every flushed batch, then the pending parts. */
    ghost function Sent(): seq<BulkRequestPart>
      reads nodeIndexer`flushedBulkRequests, nodeIndexer`currentBulkRequest
    {
      Flatten(nodeIndexer.flushedBulkRequests) + nodeIndexer.currentBulkRequest
    }

    /**
     * The body of the node loop: a node with an incoming hierarchy
     * relation at the target point is indexed and counted towards the
     * batch; any other node is skipped.
     */
    method IndexNodeIfIncluded(graph: Graph, name: IndexName, n: nat, target: Point, nodesSinceLastFlush: nat) returns (included: bool, sinceFlush: nat)
      requires Valid(graph) && n < |graph.nodes| && nodesSinceLastFlush < BatchSize
      requires nodeIndexer.contentGraph == graph && nodeIndexer.IndexNameOf() == name
      modifies nodeIndexer`currentBulkRequest, nodeIndexer`flushedBulkRequests
      ensures included <==> IsIncluded(graph.nodes[n], target)
      ensures !included ==> sinceFlush == nodesSinceLastFlush
      ensures included ==> sinceFlush == if nodesSinceLastFlush + 1 == BatchSize then 0 else nodesSinceLastFlush + 1
      ensures |nodeIndexer.flushedBulkRequests| == |old(nodeIndexer.flushedBulkRequests)| + (if included && sinceFlush == 0 then 1 else 0)
      ensures Sent() == old(Sent()) + StepParts(graph, n, target, name)
    {
      included := IncludeNode(graph.nodes[n], target);
      if !included {
        sinceFlush := nodesSinceLastFlush;
        assert Sent() == old(Sent()) + [];
        return;
      }
      sinceFlush := IndexAndMaybeFlush(n, target, nodesSinceLastFlush);
    }

    /**
     * One included node: its bulk parts are added to the pending request,
     * and the indexer is flushed when this completes a batch.
     */
    method IndexAndMaybeFlush(n: nat, target: Point, nodesSinceLastFlush: nat) returns (sinceFlush: nat)
      requires Valid(nodeIndexer.contentGraph) && n < |nodeIndexer.contentGraph.nodes| && nodesSinceLastFlush < BatchSize
      modifies nodeIndexer`currentBulkRequest, nodeIndexer`flushedBulkRequests
      ensures sinceFlush == if nodesSinceLastFlush + 1 == BatchSize then 0 else nodesSinceLastFlush + 1
      ensures |nodeIndexer.flushedBulkRequests| == |old(nodeIndexer.flushedBulkRequests)| + (if sinceFlush == 0 then 1 else 0)
      ensures Sent() == old(Sent()) + BulkPartsFor(nodeIndexer.contentGraph, n, target, nodeIndexer.IndexNameOf())
    {
      ghost var flat := Flatten(nodeIndexer.flushedBulkRequests);
      ghost var pending := nodeIndexer.currentBulkRequest;
      nodeIndexer.IndexGraphNode(n, target);
      AppendAssoc(flat, pending, BulkPartsFor(nodeIndexer.contentGraph, n, target, nodeIndexer.IndexNameOf()));
      sinceFlush := nodesSinceLastFlush + 1;
      if sinceFlush >= BatchSize {
        FlattenSnoc(nodeIndexer.flushedBulkRequests, nodeIndexer.currentBulkRequest);
        nodeIndexer.Flush();
        sinceFlush := 0;
      }
    }

    // -------------------------------------------------------------------
    // buildCommand

    /**
     * `buildCommand`: quits with status 1 when the named workspace does not
     * exist; otherwise fixes the postfix (the given one, or the current
     * time), runs the creation pass, sets up the aliases when none exist
     * (an Elasticsearch error other than 404 while looking them up ends the
     * command), builds the index of every live dimension-space point from
     * the content graph, refreshes every index, updates every alias and
     * finally the main alias.
     */
    method BuildCommand(update: bool, workspace: Option<string>, postfix: Option<string>, existingWorkspaces: set<string>, now: nat,
                        combinations: seq<Value>, aliasLookup: AliasLookup, graph: Graph, subspace: seq<Point>)
      returns (outcome: BuildOutcome)
      requires Valid(graph)
      modifies nodeIndexer`indexNamePostfix, nodeIndexer`dimensions, nodeIndexer`contentGraph, nodeIndexer`currentBulkRequest,
        nodeIndexer`flushedBulkRequests, nodeTypeMappingBuilder`lastMappingErrors, this`effects, this`existingIndices
      ensures outcome.Quit? <==> workspace.Some? && workspace.value !in existingWorkspaces
      ensures outcome.Quit? ==> outcome.exitCode == 1 && effects == old(effects) + [WorkspaceMissing(workspace.value)]
      ensures outcome.Quit? ==> nodeIndexer.indexNamePostfix == old(nodeIndexer.indexNamePostfix) && existingIndices == old(existingIndices)
      ensures outcome.Aborted? <==> !outcome.Quit? && AliasesExist(aliasLookup).Err?
      ensures outcome.Aborted? ==> outcome.exception == AliasesExist(aliasLookup).error
      ensures !outcome.Quit? ==> nodeIndexer.indexNamePostfix == EffectivePostfix(postfix, now)
      ensures !outcome.Quit? ==> existingIndices == ExistingBefore(combinations, |combinations|, update, EffectivePostfix(postfix, now), old(existingIndices))
      ensures outcome.Aborted? ==>
        effects == old(effects) + CreationPassEffects(combinations, update, EffectivePostfix(postfix, now), old(existingIndices),
          IndexName(EffectivePostfix(postfix, now), old(nodeIndexer.dimensions)), nodeTypeMappingBuilder.nodeTypes, nodeTypeMappingBuilder.settings)
      ensures outcome.Completed? ==>
        effects == old(effects) + CompletedBuildEffects(update, EffectivePostfix(postfix, now), old(existingIndices),
          IndexName(EffectivePostfix(postfix, now), old(nodeIndexer.dimensions)), nodeTypeMappingBuilder.nodeTypes, nodeTypeMappingBuilder.settings,
          combinations, AliasesExist(aliasLookup) == Ok(true), graph, subspace)
      ensures outcome.Completed? ==> nodeIndexer.contentGraph == graph && Sent() == old(Sent()) + LiveParts(graph, subspace, EffectivePostfix(postfix, now))
    {
      if workspace.Some? && workspace.value !in existingWorkspaces {
        effects := effects + [WorkspaceMissing(workspace.value)];
        return Quit(1);
      }
      var effectivePostfix := EffectivePostfix(postfix, now);
      nodeIndexer.SetIndexNamePostfix(effectivePostfix);
      outcome := RunPasses(update, effectivePostfix, combinations, aliasLookup, graph, subspace);
    }

    /** `buildCommand` once the postfix is set: the passes, in order. */
    method RunPasses(update: bool, postfix: string, combinations: seq<Value>, aliasLookup: AliasLookup, graph: Graph, subspace: seq<Point>)
      returns (outcome: BuildOutcome)
      requires Valid(graph) && nodeIndexer.indexNamePostfix == postfix
      modifies nodeIndexer`indexNamePostfix, nodeIndexer`dimensions, nodeIndexer`contentGraph, nodeIndexer`currentBulkRequest,
        nodeIndexer`flushedBulkRequests, nodeTypeMappingBuilder`lastMappingErrors, this`effects, this`existingIndices
      ensures !outcome.Quit?
      ensures outcome.Aborted? <==> AliasesExist(aliasLookup).Err?
      ensures outcome.Aborted? ==> outcome.exception == AliasesExist(aliasLookup).error
      ensures nodeIndexer.indexNamePostfix == postfix
      ensures existingIndices == ExistingBefore(combinations, |combinations|, update, postfix, old(existingIndices))
      ensures outcome.Aborted? ==>
        effects == old(effects) + CreationPassEffects(combinations, update, postfix, old(existingIndices), old(nodeIndexer.IndexNameOf()),
          nodeTypeMappingBuilder.nodeTypes, nodeTypeMappingBuilder.settings)
      ensures outcome.Completed? ==>
        effects == old(effects) + CompletedBuildEffects(update, postfix, old(existingIndices), old(nodeIndexer.IndexNameOf()),
          nodeTypeMappingBuilder.nodeTypes, nodeTypeMappingBuilder.settings, combinations, AliasesExist(aliasLookup) == Ok(true), graph, subspace)
      ensures outcome.Completed? ==> nodeIndexer.contentGraph == graph && Sent() == old(Sent()) + LiveParts(graph, subspace, postfix)
    {
      ghost var e0 := effects;
      CreateIndicesAndApplyMapping(combinations, update, postfix);
      var aliasesExist := AliasesExist(aliasLookup);
      if aliasesExist.Err? {
        return Aborted(aliasesExist.error);
      }
      FinishBuild(update, postfix, combinations, aliasesExist.value, graph, subspace);
      AppendAssoc(e0, CreationPassEffects(combinations, update, postfix, old(existingIndices), old(nodeIndexer.IndexNameOf()),
          nodeTypeMappingBuilder.nodeTypes, nodeTypeMappingBuilder.settings),
        FinishingEffects(update, postfix, combinations, aliasesExist.value, graph, subspace));
      outcome := Completed;
    }

    /**
     * The rest of `buildCommand` once the aliases were looked up: set them
     * up when none existed, build every live point from the content graph,
     * refresh, update the aliases and the main alias.
     */
    method FinishBuild(update: bool, postfix: string, combinations: seq<Value>, aliasesExisted: bool, graph: Graph, subspace: seq<Point>)
      requires Valid(graph) && nodeIndexer.indexNamePostfix == postfix
      modifies nodeIndexer`indexNamePostfix, nodeIndexer`dimensions, nodeIndexer`contentGraph, nodeIndexer`currentBulkRequest,
        nodeIndexer`flushedBulkRequests, this`effects
      ensures effects == old(effects) + FinishingEffects(update, postfix, combinations, aliasesExisted, graph, subspace)
      ensures nodeIndexer.indexNamePostfix == postfix
      ensures nodeIndexer.contentGraph == graph && Sent() == old(Sent()) + LiveParts(graph, subspace, postfix)
    {
      ghost var e0 := effects;
      if !aliasesExisted {
        UpdateAliases(combinations, postfix, update);
      }
      nodeIndexer.SetContentGraph(graph);
      BuildLivePoints(graph, subspace, postfix);
      SwitchAliases(combinations, postfix, update);
      ConcatParts(e0, if aliasesExisted then [] else AliasPassEffects(combinations, postfix, update), LiveBuildEffects(graph, subspace, postfix),
        RefreshPassEffects(combinations, postfix), AliasPassEffects(combinations, postfix, update), [MainAliasUpdated(postfix)]);
    }

    /** The last steps of `buildCommand`: refresh every index, update every alias, then the main alias. */
    method SwitchAliases(combinations: seq<Value>, postfix: string, update: bool)
      requires nodeIndexer.indexNamePostfix == postfix
      modifies nodeIndexer`indexNamePostfix, nodeIndexer`dimensions, this`effects
      ensures effects == old(effects) + (RefreshPassEffects(combinations, postfix) + AliasPassEffects(combinations, postfix, update) + [MainAliasUpdated(postfix)])
      ensures nodeIndexer.indexNamePostfix == postfix
    {
      ghost var e0 := effects;
      RefreshIndices(combinations, postfix);
      UpdateAliases(combinations, postfix, update);
      effects := effects + [MainAliasUpdated(postfix)];
      AppendAssoc(e0, RefreshPassEffects(combinations, postfix), AliasPassEffects(combinations, postfix, update));
      AppendAssoc(e0, RefreshPassEffects(combinations, postfix) + AliasPassEffects(combinations, postfix, update), [MainAliasUpdated(postfix)]);
    }

    /** The creation pass: `createInternalCommand` for every dimension combination, in order. */
    method CreateIndicesAndApplyMapping(combinations: seq<Value>, update: bool, postfix: string)
      modifies nodeIndexer`indexNamePostfix, nodeIndexer`dimensions, nodeTypeMappingBuilder`lastMappingErrors, this`effects, this`existingIndices
      ensures effects == old(effects) + CreationPassEffects(combinations, update, postfix, old(existingIndices), old(nodeIndexer.IndexNameOf()),
        nodeTypeMappingBuilder.nodeTypes, nodeTypeMappingBuilder.settings)
      ensures existingIndices == ExistingBefore(combinations, |combinations|, update, postfix, old(existingIndices))
      ensures nodeIndexer.indexNamePostfix == if update || combinations == [] then old(nodeIndexer.indexNamePostfix) else postfix
      ensures nodeIndexer.dimensions == if update || combinations == [] then old(nodeIndexer.dimensions) else combinations[|combinations| - 1]
      ensures combinations != [] ==> nodeTypeMappingBuilder.lastMappingErrors == WarningsFor(nodeTypeMappingBuilder.nodeTypes, nodeTypeMappingBuilder.settings)
    {
      ghost var e0, x0, current := effects, existingIndices, nodeIndexer.IndexNameOf();
      var i := 0;
      while i < |combinations|
        invariant 0 <= i <= |combinations|
        invariant effects == e0 + CreationPassEffects(combinations[..i], update, postfix, x0, current, nodeTypeMappingBuilder.nodeTypes, nodeTypeMappingBuilder.settings)
        invariant existingIndices == ExistingBefore(combinations, i, update, postfix, x0)
        invariant nodeIndexer.indexNamePostfix == if update || i == 0 then old(nodeIndexer.indexNamePostfix) else postfix
        invariant nodeIndexer.dimensions == if update || i == 0 then old(nodeIndexer.dimensions) else combinations[i - 1]
        invariant i > 0 ==> nodeTypeMappingBuilder.lastMappingErrors == WarningsFor(nodeTypeMappingBuilder.nodeTypes, nodeTypeMappingBuilder.settings)
      {
        CreationStep(combinations, i, update, postfix, e0, x0, current);
        i := i + 1;
      }
      assert combinations[..i] == combinations;
    }

    /** One iteration of the creation pass. */
    method CreationStep(combinations: seq<Value>, i: nat, update: bool, postfix: string,
                        ghost e0: seq<Effect>, ghost x0: set<IndexName>, ghost current: IndexName)
      requires i < |combinations|
      requires effects == e0 + CreationPassEffects(combinations[..i], update, postfix, x0, current, nodeTypeMappingBuilder.nodeTypes, nodeTypeMappingBuilder.settings)
      requires existingIndices == ExistingBefore(combinations, i, update, postfix, x0)
      requires update ==> nodeIndexer.IndexNameOf() == current
      modifies nodeIndexer`indexNamePostfix, nodeIndexer`dimensions, nodeTypeMappingBuilder`lastMappingErrors, this`effects, this`existingIndices
      ensures effects == e0 + CreationPassEffects(combinations[..i + 1], update, postfix, x0, current, nodeTypeMappingBuilder.nodeTypes, nodeTypeMappingBuilder.settings)
      ensures existingIndices == ExistingBefore(combinations, i + 1, update, postfix, x0)
      ensures update ==> nodeIndexer.indexNamePostfix == old(nodeIndexer.indexNamePostfix) && nodeIndexer.dimensions == old(nodeIndexer.dimensions)
      ensures !update ==> nodeIndexer.indexNamePostfix == postfix && nodeIndexer.dimensions == combinations[i]
      ensures nodeTypeMappingBuilder.lastMappingErrors == WarningsFor(nodeTypeMappingBuilder.nodeTypes, nodeTypeMappingBuilder.settings)
    {
      CreationPassSnoc(combinations, i, update, postfix, x0, current, nodeTypeMappingBuilder.nodeTypes, nodeTypeMappingBuilder.settings);
      AppendAssoc(e0, CreationPassEffects(combinations[..i], update, postfix, x0, current, nodeTypeMappingBuilder.nodeTypes, nodeTypeMappingBuilder.settings),
        CreationStepEffects(combinations[i], update, postfix, existingIndices, current, nodeTypeMappingBuilder.nodeTypes, nodeTypeMappingBuilder.settings));
      if !update {
        CombinationIndexNamesSnoc(postfix, combinations, i);
      }
      CreateInternalCommand(combinations[i], update, postfix);
    }

    /** The alias pass: `aliasInternalCommand` for every dimension combination, in order. */
    method UpdateAliases(combinations: seq<Value>, postfix: string, update: bool)
      modifies nodeIndexer`indexNamePostfix, nodeIndexer`dimensions, this`effects
      ensures effects == old(effects) + AliasPassEffects(combinations, postfix, update)
      ensures nodeIndexer.indexNamePostfix == if update || combinations == [] then old(nodeIndexer.indexNamePostfix) else postfix
      ensures nodeIndexer.dimensions == if update || combinations == [] then old(nodeIndexer.dimensions) else combinations[|combinations| - 1]
    {
      ghost var e0 := effects;
      var i := 0;
      while i < |combinations|
        invariant 0 <= i <= |combinations|
        invariant effects == e0 + AliasPassEffects(combinations[..i], postfix, update)
        invariant nodeIndexer.indexNamePostfix == if update || i == 0 then old(nodeIndexer.indexNamePostfix) else postfix
        invariant nodeIndexer.dimensions == if update || i == 0 then old(nodeIndexer.dimensions) else combinations[i - 1]
      {
        AliasPassSnoc(combinations, i, postfix, update);
        if !update {
          AppendAssoc(e0, AliasPassEffects(combinations[..i], postfix, update),
            [UpdatingAlias(IndexName(postfix, combinations[i])), IndexAliasUpdated(IndexName(postfix, combinations[i]))]);
        }
        AliasInternalCommand(combinations[i], postfix, update);
        i := i + 1;
      }
      assert combinations[..i] == combinations;
    }

    /** The refresh pass: `refreshInternalCommand` for every dimension combination, in order. */
    method RefreshIndices(combinations: seq<Value>, postfix: string)
      modifies nodeIndexer`indexNamePostfix, nodeIndexer`dimensions, this`effects
      ensures effects == old(effects) + RefreshPassEffects(combinations, postfix)
      ensures nodeIndexer.indexNamePostfix == if combinations == [] then old(nodeIndexer.indexNamePostfix) else postfix
      ensures nodeIndexer.dimensions == if combinations == [] then old(nodeIndexer.dimensions) else combinations[|combinations| - 1]
    {
      ghost var e0 := effects;
      var i := 0;
      while i < |combinations|
        invariant 0 <= i <= |combinations|
        invariant effects == e0 + RefreshPassEffects(combinations[..i], postfix)
        invariant nodeIndexer.indexNamePostfix == if i == 0 then old(nodeIndexer.indexNamePostfix) else postfix
        invariant nodeIndexer.dimensions == if i == 0 then old(nodeIndexer.dimensions) else combinations[i - 1]
      {
        RefreshPassSnoc(combinations, i, postfix);
        AppendAssoc(e0, RefreshPassEffects(combinations[..i], postfix),
          [RefreshingIndex(IndexName(postfix, combinations[i])), IndexRefreshed(IndexName(postfix, combinations[i]))]);
        RefreshInternalCommand(combinations[i], postfix);
        i := i + 1;
      }
      assert combinations[..i] == combinations;
    }

    /**
     * The loop over the allowed dimension subspace: every point in the live
     * workspace is built without its `_workspace` coordinate; points of
     * other workspaces are skipped.
     */
    method BuildLivePoints(graph: Graph, subspace: seq<Point>, postfix: string)
      requires Valid(graph) && nodeIndexer.contentGraph == graph
      modifies nodeIndexer`indexNamePostfix, nodeIndexer`dimensions, nodeIndexer`currentBulkRequest, nodeIndexer`flushedBulkRequests, this`effects
      ensures effects == old(effects) + LiveBuildEffects(graph, subspace, postfix)
      ensures Sent() == old(Sent()) + LiveParts(graph, subspace, postfix)
      ensures LiveTargets(subspace) != [] ==> nodeIndexer.indexNamePostfix == postfix && nodeIndexer.currentBulkRequest == []
      ensures LiveTargets(subspace) == [] ==> nodeIndexer.indexNamePostfix == old(nodeIndexer.indexNamePostfix)
    {
      ghost var e0, s0, p0 := effects, Sent(), nodeIndexer.indexNamePostfix;
      var i := 0;
      while i < |subspace|
        invariant 0 <= i <= |subspace|
        invariant nodeIndexer.contentGraph == graph
        invariant effects == e0 + LiveBuildEffects(graph, subspace[..i], postfix)
        invariant Sent() == s0 + LiveParts(graph, subspace[..i], postfix)
        invariant LiveTargets(subspace[..i]) != [] ==> nodeIndexer.indexNamePostfix == postfix && nodeIndexer.currentBulkRequest == []
        invariant LiveTargets(subspace[..i]) == [] ==> nodeIndexer.indexNamePostfix == p0
      {
        LivePointStep(graph, subspace, i, postfix, e0, s0, p0);
        i := i + 1;
      }
      assert subspace[..i] == subspace;
    }

    /** One iteration of the subspace loop: a live point is built, any other skipped. */
    method LivePointStep(graph: Graph, subspace: seq<Point>, i: nat, postfix: string, ghost e0: seq<Effect>, ghost s0: seq<BulkRequestPart>, ghost p0: string)
      requires Valid(graph) && i < |subspace| && nodeIndexer.contentGraph == graph
      requires effects == e0 + LiveBuildEffects(graph, subspace[..i], postfix)
      requires Sent() == s0 + LiveParts(graph, subspace[..i], postfix)
      requires LiveTargets(subspace[..i]) != [] ==> nodeIndexer.indexNamePostfix == postfix && nodeIndexer.currentBulkRequest == []
      requires LiveTargets(subspace[..i]) == [] ==> nodeIndexer.indexNamePostfix == p0
      modifies nodeIndexer`indexNamePostfix, nodeIndexer`dimensions, nodeIndexer`currentBulkRequest, nodeIndexer`flushedBulkRequests, this`effects
      ensures effects == e0 + LiveBuildEffects(graph, subspace[..i + 1], postfix)
      ensures Sent() == s0 + LiveParts(graph, subspace[..i + 1], postfix)
      ensures LiveTargets(subspace[..i + 1]) != [] ==> nodeIndexer.indexNamePostfix == postfix && nodeIndexer.currentBulkRequest == []
      ensures LiveTargets(subspace[..i + 1]) == [] ==> nodeIndexer.indexNamePostfix == p0
    {
      LiveSnoc(graph, subspace, i, postfix);
      var point := subspace[i];
      if Coordinate(point, WorkspaceDimension) == Some(LiveWorkspace) {
        var target := WithoutWorkspace(point);
        BuildLivePoint(graph, target, postfix, effects, Sent());
        AppendAssoc(e0, LiveBuildEffects(graph, subspace[..i], postfix), BuildEffects(graph, target, postfix));
        AppendAssoc(s0, LiveParts(graph, subspace[..i], postfix),
          PartsForNodes(graph, IncludedNodes(graph, target), target, IndexName(postfix, CoordinatesValue(target))));
      } else {
        assert effects == e0 + LiveBuildEffects(graph, subspace[..i + 1], postfix);
      }
    }

    /** One live point of the subspace loop. */
    method BuildLivePoint(graph: Graph, target: Point, postfix: string, ghost effects0: seq<Effect>, ghost sent0: seq<BulkRequestPart>)
      requires Valid(graph) && nodeIndexer.contentGraph == graph && effects == effects0 && Sent() == sent0
      modifies nodeIndexer`indexNamePostfix, nodeIndexer`dimensions, nodeIndexer`currentBulkRequest, nodeIndexer`flushedBulkRequests, this`effects
      ensures effects == effects0 + BuildEffects(graph, target, postfix)
      ensures Sent() == sent0 + PartsForNodes(graph, IncludedNodes(graph, target), target, IndexName(postfix, CoordinatesValue(target)))
      ensures nodeIndexer.indexNamePostfix == postfix && nodeIndexer.currentBulkRequest == []
    {
      var _ := BuildIndexForDimensionSpacePoint(graph, target, postfix);
      AppendAssoc(Flatten(old(nodeIndexer.flushedBulkRequests)), old(nodeIndexer.currentBulkRequest),
        PartsForNodes(graph, IncludedNodes(graph, target), target, IndexName(postfix, CoordinatesValue(target))));
    }

    // -------------------------------------------------------------------
    // cleanupCommand

    /**
     * `cleanupCommand`: for every dimension combination the indexer's
     * dimensions are set and its old indices removed, each removed index
     * logged; an Elasticsearch error is logged with its status and error
     * and does not stop the loop. When nothing was removed at all, that is
     * logged last.
     */
    method CleanupCommand(combinations: seq<Value>, removeOldIndices: Value -> RemovalResult)
      modifies nodeIndexer`dimensions, this`effects
      ensures effects == old(effects) + CleanupEffects(combinations, removeOldIndices)
      ensures nodeIndexer.dimensions == if combinations == [] then old(nodeIndexer.dimensions) else combinations[|combinations| - 1]
    {
      ghost var e0 := effects;
      var removed := false;
      var i := 0;
      while i < |combinations|
        invariant 0 <= i <= |combinations|
        invariant effects == e0 + CleanupLines(combinations[..i], removeOldIndices)
        invariant removed <==> RemovedAny(combinations[..i], removeOldIndices)
        invariant nodeIndexer.dimensions == if i == 0 then old(nodeIndexer.dimensions) else combinations[i - 1]
      {
        removed := CleanupStep(combinations, i, removeOldIndices, removed, e0);
        i := i + 1;
      }
      assert combinations[..i] == combinations;
      if !removed {
        effects := effects + [NothingToRemove];
      }
    }

    /** One iteration of the combination loop of `cleanupCommand`. */
    method CleanupStep(combinations: seq<Value>, i: nat, removeOldIndices: Value -> RemovalResult, removed: bool, ghost e0: seq<Effect>)
      returns (removed': bool)
      requires i < |combinations|
      requires effects == e0 + CleanupLines(combinations[..i], removeOldIndices)
      requires removed <==> RemovedAny(combinations[..i], removeOldIndices)
      modifies nodeIndexer`dimensions, this`effects
      ensures effects == e0 + CleanupLines(combinations[..i + 1], removeOldIndices)
      ensures removed' <==> RemovedAny(combinations[..i + 1], removeOldIndices)
      ensures nodeIndexer.dimensions == combinations[i]
    {
      CleanupSnoc(combinations, i, removeOldIndices);
      AppendAssoc(e0, CleanupLines(combinations[..i], removeOldIndices), CombinationLines(removeOldIndices(combinations[i])));
      nodeIndexer.SetDimensions(combinations[i]);
      match removeOldIndices(combinations[i]) {
        case OldIndicesRemoved(removedIndices) =>
          removed' := LogRemovedIndices(removedIndices, removed);
        case RemovalFailed(exception) =>
          removed' := removed;
          effects := effects + [NothingRemoved(exception.body.status, DetailOf(exception.body))];
      }
    }

    /** The inner loop of `cleanupCommand`: one log line per removed index, each marking that something was removed. */
    method LogRemovedIndices(removedIndices: seq<string>, removed: bool) returns (removed': bool)
      modifies this`effects
      ensures effects == old(effects) + RemovalLines(removedIndices)
      ensures removed' <==> removed || removedIndices != []
    {
      ghost var e0 := effects;
      removed' := removed;
      var j := 0;
      while j < |removedIndices|
        invariant 0 <= j <= |removedIndices|
        invariant effects == e0 + RemovalLines(removedIndices[..j])
        invariant removed' <==> removed || j > 0
      {
        assert removedIndices[..j + 1][..j] == removedIndices[..j];
        removed' := true;
        effects := effects + [RemovingOldIndex(removedIndices[j])];
        j := j + 1;
      }
      assert removedIndices[..j] == removedIndices;
    }
  }
}
