# Content graph indexing for Elasticsearch, modelled in Dafny

This project models the core of the Flowpack Elasticsearch content graph
adapter for the Neos content repository. The adapter indexes the nodes of an
in-memory content graph into Elasticsearch, one index per combination of
content dimensions, and answers context queries against those indices.

The model covers these parts:

- **Command controller.** `GraphIndexNewCommandController` is modelled as a
  class that mutates the node indexer and records, in order, every
  Elasticsearch operation and log line it causes. Its commands are:
  - `buildCommand`: the creation pass, the alias set-up, the batched build of
    every live dimension-space point, refresh, alias and main-alias switch;
  - `cleanupCommand`;
  - the internal `create`, `refresh` and `alias` commands.
- **Node indexer.** `NodeIndexer.indexGraphNode` projects a node onto
  documents, one per occupied dimension-space point. A fulltext root occupies
  the points of the nodes reachable below it without entering another
  fulltext root.
- **Mapping builder.** `NodeTypeMappingBuilder` builds one mapping per
  concrete node type: fixed system fields plus per-property mappings, with a
  warning for every property without one.
- **Query builder.** `ElasticSearchQueryBuilder.query` adds the parent-path
  filter and the nested hierarchy-relation filter for the context subgraph.
- **Value objects and helpers.** `IsFulltextRoot`, `DocumentIdentifier`,
  `WorkspaceIndexingMode`, and the Eel `IndexingHelper`
  (`convertArrayOfNodesToArrayOfNodeIdentifiers`, `indexAsset`).

Each part follows the form of its source:

- Imperative code with loops and fields becomes classes and methods. Each
  method is proved against a specification function over the old state,
  such as `effects == old(effects) + CreationPassEffects(...)`.
- Pure code becomes functions and lemmas.

How outside behaviour is represented:

- **Elasticsearch.** Requests become `Effect` values in
  `GraphIndexNewCommandController.effects`. The cluster's indices are the set
  `existingIndices`. Bulk requests are the indexer's `currentBulkRequest` and
  its `flushedBulkRequests`.
- **Clock.** The clock (`time()`) is the input `now`.
- **Hashing and formatting.** sha1, JSON encoding, date formatting and
  base64 are function parameters or symbolic constructors that record their
  input.

The files, one module each:

| file | module | models |
|---|---|---|
| `values.dfy` | `Values` | PHP values, `isset` lookups, Option/Result |
| `dimension_space.dfy` | `DimensionSpace` | points, the `_workspace` dimension, ordered point sets |
| `node_type.dfy` | `NodeTypes` | node types and their declared properties |
| `content_graph.dfy` | `ContentGraph` | nodes, subgraphs, relations, subgraph lookup, well-formed graphs |
| `is_fulltext_root.dfy` | `FulltextRoot` | `IsFulltextRoot` |
| `document_identifier.dfy` | `DocumentIdentifiers` | `DocumentIdentifier` |
| `workspace_indexing_mode.dfy` | `WorkspaceIndexing` | `WorkspaceIndexingMode` |
| `occupied_points.dfy` | `OccupiedPoints` | `collectOccupiedDimensionSpacePointsForFulltextRoot` and reachability |
| `node_indexer.dfy` | `Indexer` | `NodeIndexer` and the document data it builds |
| `mapping_builder.dfy` | `Mappings` | `NodeTypeMappingBuilder` |
| `query_builder.dfy` | `QueryBuilding` | `ElasticSearchQueryBuilder.query` |
| `indexing_helper.dfy` | `Indexing` | `IndexingHelper` |
| `controller_effects.dfy` | `CommandEffects` | what the controller's commands and passes cause, as functions, and their properties |
| `command_controller.dfy` | `Command` | `GraphIndexNewCommandController` |

## Model

| member | source | states |
|---|---|---|
| Values.Lookup | Classes/Indexer/IsFulltextRoot.php:24 | `isset($v[$k])` finds an entry exactly when `v` is a dictionary with a non-null value under `k`, and then yields that value |
| Values.LookupPath | Classes/Mapping/NodeTypeMappingBuilder.php:50 | a two-level `isset` succeeds exactly when both levels are set, and never yields null |
| DimensionSpace.Coordinate | Classes/Indexer/NodeIndexer.php:67 | `getCoordinate` yields a coordinate exactly for the dimensions the point has |
| DimensionSpace.WithoutWorkspace | Classes/Command/GraphIndexNewCommandController.php:266-269 | removing `_workspace` keeps every other coordinate unchanged and drops exactly that one |
| DimensionSpace.CoordinatesValue | Classes/Command/GraphIndexNewCommandController.php:320-321 | the array handed to `setDimensions` has one string entry per coordinate of the point |
| DimensionSpace.AddPoint | Classes/Indexer/NodeIndexer.php:142-144 | adding a point only when it is not contained extends the set, keeps the old points in front and keeps it duplicate-free |
| ContentGraph.MatchingSubgraph | Classes/Indexer/NodeIndexer.php:66-72 | a subgraph is found exactly when the point has a `_workspace` coordinate and the graph holds a subgraph for that content stream at that point |
| FulltextRoot.IsSatisfiedBy | Classes/Indexer/IsFulltextRoot.php:20-28 | a node type is a fulltext root exactly when its configuration holds `search.fulltext.enable` equal to the boolean `true` |
| FulltextRoot.OnlyStrictTrueEnables | Classes/Indexer/IsFulltextRoot.php:22-27 | `1`, `"true"` and `false`, a missing `search` and a missing `fulltext` entry all give false |
| ContentGraph.SameTypeSameAnswer | Classes/Indexer/IsFulltextRoot.php:22-24 | two nodes of the same type get the same answer |
| DocumentIdentifiers.FromTraversableNode | Classes/Indexer/DocumentIdentifier.php:48-55 | the identifier keeps the node's content stream, aggregate identifier and point unchanged |
| DocumentIdentifiers.FromLegacyNode | Classes/Indexer/DocumentIdentifier.php:57-64 | the workspace name becomes the content stream identifier and the node identifier the aggregate identifier |
| DocumentIdentifiers.HashPayload | Classes/Indexer/DocumentIdentifier.php:68-72 | the hashed payload has exactly three keys, in the fixed order aggregate identifier, content stream, point |
| DocumentIdentifiers.PayloadDeterminesIdentifier | Classes/Indexer/DocumentIdentifier.php:66-73 | two identifiers have the same payload exactly when they are equal |
| DocumentIdentifiers.EqualTriplesEqualStrings | Classes/Indexer/DocumentIdentifier.php:66-73 | the string form is a function of the triple: equal triples give equal strings |
| WorkspaceIndexing.GetValue | Classes/Domain/WorkspaceIndexingMode.php:75-78 | a mode's value is always one of the three constants |
| WorkspaceIndexing.FromString | Classes/Domain/WorkspaceIndexingMode.php:80-87 | succeeds exactly for `onlyLive`, `onlyOrigin` and `full`, keeping the value; otherwise fails with the invalid value |
| WorkspaceIndexing.IsNodeToBeIndexed | Classes/Domain/WorkspaceIndexingMode.php:89-97 | `onlyLive` indexes a node exactly when its workspace is `live`; the other modes index every node |
| WorkspaceIndexing.ValueRoundTrip | Classes/Domain/WorkspaceIndexingMode.php:80-102 | every mode survives the trip through its string value |
| OccupiedPoints.Collect | Classes/Indexer/NodeIndexer.php:140-153 | the result extends the given set, holds the node's origin and stays duplicate-free |
| OccupiedPoints.Occupied | Classes/Indexer/NodeIndexer.php:58-62 | the occupied points start with the node's origin and have no duplicates; for a node that is not a fulltext root they are its origin alone |
| OccupiedPoints.OccupiedCharacterization | Classes/Indexer/NodeIndexer.php:58-62 | for a fulltext root the occupied points are exactly the origins of the nodes reachable without entering another fulltext root; otherwise exactly its origin |
| OccupiedPoints.CollectIsMonotone | Classes/Indexer/NodeIndexer.php:140-153 | the given set is a prefix of the result, and the result adds exactly the reachable origin points |
| OccupiedPoints.CollectElems | Classes/Indexer/NodeIndexer.php:142-151 | the recursion adds exactly the origins of the nodes it descends into |
| OccupiedPoints.ReachSetIsReachable | Classes/Indexer/NodeIndexer.php:146-151 | the nodes the recursion descends into are exactly those reachable by a path that never enters a fulltext root |
| OccupiedPoints.ReachedNodesAreNotFulltextRoots | Classes/Indexer/NodeIndexer.php:148 | every node reached other than the start is not a fulltext root, so fulltext-root children and their subtrees contribute nothing |
| OccupiedPoints.RootCycleOccupiesOwnOrigin | Classes/Indexer/NodeIndexer.php:146-150 | two fulltext roots that are each other's child form a valid graph, since the recursion never descends into a fulltext-root child, and each occupies only its own origin point |
| Indexer.RenderDate | Classes/Indexer/NodeIndexer.php:95-96 | a date is rendered when the edge has one, and is null otherwise |
| Indexer.HierarchyEntry | Classes/Indexer/NodeIndexer.php:90-98 | an entry carries the edge's subgraph hash, position, access roles, hidden flags, and for each of `hiddenBeforeDateTime` and `hiddenAfterDateTime` the formatted date of that same edge property when it is set and null otherwise |
| Indexer.IncomingEntry | Classes/Indexer/NodeIndexer.php:102-105 | an incoming entry carries the source's aggregate identifier and the relation name |
| Indexer.OutgoingEntry | Classes/Indexer/NodeIndexer.php:109-113 | an outgoing entry carries the target's identifier, the relation name and its position |
| Indexer.HierarchyEntries | Classes/Indexer/NodeIndexer.php:87-99 | one entry per incoming hierarchy relation, in order |
| Indexer.IncomingEntries | Classes/Indexer/NodeIndexer.php:101-106 | no key without incoming references, otherwise one entry per relation, in order |
| Indexer.OutgoingEntries | Classes/Indexer/NodeIndexer.php:108-114 | no key without outgoing references, otherwise one entry per relation, in order |
| Indexer.BuildHierarchyRelations | Classes/Indexer/NodeIndexer.php:89-99 | the loop lists every incoming hierarchy relation, in order |
| Indexer.BuildIncomingReferenceRelations | Classes/Indexer/NodeIndexer.php:101-106 | the loop lists every incoming reference relation, in order, creating the array on its first append |
| Indexer.BuildOutgoingReferenceRelations | Classes/Indexer/NodeIndexer.php:108-114 | the loop lists every outgoing reference relation, in order, creating the array on its first append |
| Indexer.PartsForPointShape | Classes/Indexer/NodeIndexer.php:65-120 | per occupied point: two parts, the document and the fulltext request for the matching subgraph, when the node is a fulltext root and a subgraph matches; otherwise none, and a missing subgraph is no error |
| Indexer.PartsForPointsShape | Classes/Indexer/NodeIndexer.php:65-120 | over a sequence of points the parts number twice the points with a matching subgraph for a fulltext root, and zero otherwise; all are tagged with the target point's hash |
| Indexer.BulkPartsForShape | Classes/Indexer/NodeIndexer.php:56-138 | one `indexGraphNode` call appends twice as many parts as occupied points with a matching subgraph for a fulltext root and nothing otherwise, every part tagged with the target point's hash |
| Indexer.CountMatched | Classes/Indexer/NodeIndexer.php:70-72 | no more points match a subgraph than there are points |
| Indexer.NodeIndexer.IndexGraphNode | Classes/Indexer/NodeIndexer.php:56-138 | the pending bulk request grows by exactly the parts of the node's occupied points, in order |
| Indexer.NodeIndexer.IndexOccupiedPoints | Classes/Indexer/NodeIndexer.php:65-137 | the loop over occupied points appends each point's parts in order |
| Indexer.NodeIndexer.IndexOccupiedPoint | Classes/Indexer/NodeIndexer.php:66-120 | one point appends nothing without a matching subgraph, and its document and fulltext parts otherwise |
| Indexer.NodeIndexer.Flush | Classes/Command/GraphIndexNewCommandController.php:358 | a flush sends what is pending and leaves nothing pending |
| Indexer.NodeIndexer.IndexNode | Classes/Indexer/NodeIndexer.php:46-49 | the legacy entry point changes nothing |
| Indexer.NodeIndexer.SetContentGraph | Classes/Indexer/NodeIndexer.php:51-54 | the indexer reads the given graph from now on |
| Mappings.Nested | Classes/Mapping/NodeTypeMappingBuilder.php:69-72 | a nested field has exactly type `nested`, `include_in_all` and the given sub-fields |
| Mappings.SystemProperties | Classes/Mapping/NodeTypeMappingBuilder.php:64-138 | the system fields are exactly `__dimensionCombinationHash`, `__hierarchyRelations`, `__incomingReferenceEdges` and `__outgoingReferenceEdges` |
| Mappings.DefaultMapping | Classes/Mapping/NodeTypeMappingBuilder.php:147 | a default mapping is found only for a property whose string `type` has a default configuration, and for such a type it is exactly that default's `elasticSearchMapping` as `isset` sees it |
| Mappings.PropertyOutcomeOf | Classes/Mapping/NodeTypeMappingBuilder.php:141-153 | an explicit mapping takes precedence and is set, migrated, only when it is an array; otherwise the type default is set when it exists and is an array; a warning is recorded exactly when neither exists |
| Mappings.MappedTypes | Classes/Mapping/NodeTypeMappingBuilder.php:42-45 | the mapped types are exactly the given types other than `unstructured` and the abstract ones |
| Mappings.MappingsForExact | Classes/Mapping/NodeTypeMappingBuilder.php:42-157 | exactly one mapping per mapped node type, in iteration order |
| Mappings.ApplyPropertiesEffect | Classes/Mapping/NodeTypeMappingBuilder.php:140-154 | handling the properties keeps the type, full mapping and templates; every property with a field mapping has it under its name, and every other field keeps its value |
| Mappings.MappingForShape | Classes/Mapping/NodeTypeMappingBuilder.php:47-138 | every mapping is typed after its node type, has the type's `search.elasticSearchMapping` as full mapping and the `dimensions` template, and each system field unless a property of that name overrides it |
| Mappings.MappingForFields | Classes/Mapping/NodeTypeMappingBuilder.php:64-154 | a mapping maps exactly the system fields and the properties that got a field mapping |
| Mappings.HierarchyRelationsFieldShape | Classes/Mapping/NodeTypeMappingBuilder.php:69-101 | `__hierarchyRelations` is nested with exactly its seven sub-fields |
| Mappings.ReferenceFieldNamesDiffer | Classes/Mapping/NodeTypeMappingBuilder.php:103-138 | the mapping declares no `__incomingReferenceRelations` or `__outgoingReferenceRelations`, the names the indexer writes |
| Mappings.PropertyWarningsExact | Classes/Mapping/NodeTypeMappingBuilder.php:151-153 | exactly one warning per property without any mapping, naming the type and the property |
| Mappings.WarningsNameMappedTypes | Classes/Mapping/NodeTypeMappingBuilder.php:43-45 | types without a mapping record no warnings |
| Mappings.NodeTypeMappingBuilder.BuildMappingInformation | Classes/Mapping/NodeTypeMappingBuilder.php:35-160 | the mappings of all mapped types in order, and the warnings reset and then recorded for them |
| Mappings.NodeTypeMappingBuilder.NewMapping | Classes/Mapping/NodeTypeMappingBuilder.php:47-138 | a new mapping has the full mapping, the `dimensions` template and the system fields |
| Mappings.NodeTypeMappingBuilder.AddPropertyMappings | Classes/Mapping/NodeTypeMappingBuilder.php:140-154 | the property loop applies every property's outcome and appends its warnings, in order |
| QueryBuilding.FirstValue | Classes/Eel/ElasticSearchQueryBuilder.php:80 | `reset` yields the first raw value, or `false` for an empty list |
| QueryBuilding.DimensionCoordinatesShape | Classes/Eel/ElasticSearchQueryBuilder.php:78-81 | every dimension gets a coordinate, the first of its raw values, and nothing else does |
| QueryBuilding.QueryCoordinatesShape | Classes/Eel/ElasticSearchQueryBuilder.php:78-82 | the context coordinates are the first raw value of every dimension other than `_workspace`, and `_workspace` is the context's workspace name |
| QueryBuilding.BuildCoordinates | Classes/Eel/ElasticSearchQueryBuilder.php:78-82 | the loop builds exactly those coordinates |
| QueryBuilding.ElasticSearchQueryBuilder.QueryFilter | Classes/Eel/ElasticSearchQueryBuilder.php:74 | a filter is appended to the request |
| QueryBuilding.ElasticSearchQueryBuilder.Query | Classes/Eel/ElasticSearchQueryBuilder.php:69-145 | two filters are appended: a term filter on `__parentPath`, then a nested `__hierarchyRelations` filter whose `must` is one subgraph match, whose `should` is empty and whose `must_not` is empty when invisible content is shown and otherwise the hidden, not-yet-visible and no-longer-visible clauses in order; the context node is recorded and the builder returned |
| Indexing.IdentifierOrValue | Classes/Eel/IndexingHelper.php:42 | a node becomes its identifier, anything else stays itself |
| Indexing.ConvertArrayOfNodesToArrayOfNodeIdentifiers | Classes/Eel/IndexingHelper.php:35-46 | empty for a non-iterable argument; otherwise the same length and order, nodes replaced by their identifiers |
| Indexing.IndexSingleAsset | Classes/Eel/IndexingHelper.php:67-81 | null without a resource, above a non-zero size limit or without a stream; otherwise the base64 text of the stream |
| Indexing.IndexAsset | Classes/Eel/IndexingHelper.php:57-85 | null stays null, an asset is indexed, an array gives a list of the same length; any other object fails with `IndexingException` code 1437555909 naming its class, and a value that is not an object fails earlier, in `get_class` while the message is built (line 83) |
| Indexing.IndexAssetList | Classes/Eel/IndexingHelper.php:61-66 | without an error, a list of the same length whose every item is what `indexAsset` gives for its element |
| Indexing.IndexAssetListFailure | Classes/Eel/IndexingHelper.php:61-66 | the array fails exactly when some element fails, and then with the error of the first failing element |
| CommandEffects.Applied | Classes/Command/GraphIndexNewCommandController.php:593-600 | one applied-mapping effect per mapping, in order |
| CommandEffects.PutMappings | Classes/Command/GraphIndexNewCommandController.php:596-599 | the loop applies every mapping, in order |
| CommandEffects.AppliedIsInert | Classes/Command/GraphIndexNewCommandController.php:593-600 | applying mappings creates, deletes, aliases and builds nothing |
| CommandEffects.DecimalString | Classes/Command/GraphIndexNewCommandController.php:209 | the decimal form of the time is non-empty, all digits, without a leading zero |
| CommandEffects.DecimalStringValue | Classes/Command/GraphIndexNewCommandController.php:209 | reading the postfix made from the time as a decimal number gives back the time |
| CommandEffects.DecimalStringInjective | Classes/Command/GraphIndexNewCommandController.php:209 | two times give the same postfix exactly when they are equal |
| CommandEffects.EffectivePostfix | Classes/Command/GraphIndexNewCommandController.php:209 | the postfix is the given one when it is truthy, and the current time in decimal otherwise |
| CommandEffects.EffectivePostfixIsNeverEmpty | Classes/Command/GraphIndexNewCommandController.php:209 | the postfix is never empty, and is `"0"` only when the clock says 0 |
| CommandEffects.AliasesExist | Classes/Command/GraphIndexNewCommandController.php:290-304 | true exactly when the alias resolves to a non-empty index list; false for an empty list or a 404; any other exception is passed on |
| CommandEffects.LiveTargetsExact | Classes/Command/GraphIndexNewCommandController.php:263-272 | a point is built exactly when it is an allowed point of the live workspace, with `_workspace` removed |
| CommandEffects.IncludedUpTo | Classes/Command/GraphIndexNewCommandController.php:333-351 | the included nodes are nodes of the graph |
| CommandEffects.IncludedUpToExact | Classes/Command/GraphIndexNewCommandController.php:340-351 | a node is indexed for a point exactly when one of its incoming hierarchy relations lies in a subgraph at that point, `_workspace` aside; each once, in graph order |
| CommandEffects.IncludeNode | Classes/Command/GraphIndexNewCommandController.php:340-347 | the inner loop decides inclusion exactly as `IsIncluded` states |
| CommandEffects.ProgressStep | Classes/Command/GraphIndexNewCommandController.php:349-360 | one iteration counts an included node, flushes exactly when the count since the last flush reaches `BatchSize` (100, line 183) and resets it; a skipped node advances no counter |
| CommandEffects.ProgressDone | Classes/Command/GraphIndexNewCommandController.php:331-361 | after the loop, `nodesIndexed` is the number of included nodes, there was one flush per full batch, and their parts were sent in graph order |
| CommandEffects.RemovalLines | Classes/Command/GraphIndexNewCommandController.php:502-505 | one log line per removed index, in order |
| CommandEffects.CleanupLinesCount | Classes/Command/GraphIndexNewCommandController.php:497-517 | a combination whose removal fails with an `ApiException` is logged once and does not stop the others; every removed index is logged once |
| CommandEffects.CombinationLinesCount | Classes/Command/GraphIndexNewCommandController.php:498-516 | one combination logs one failure line, or one line per removed index |
| CommandEffects.RemovedAnyIffCount | Classes/Command/GraphIndexNewCommandController.php:502-503 | the removed flag is set exactly when some index was removed |
| CommandEffects.NothingToRemoveIffNoneRemoved | Classes/Command/GraphIndexNewCommandController.php:518-520 | "Nothing to remove." is logged exactly when no index was removed for any combination |
| CommandEffects.RecreationEffectsCounts | Classes/Command/GraphIndexNewCommandController.php:392-398 | outside update mode one index is created, one deleted first only when an index of that name exists; no alias or build |
| CommandEffects.CreationStepCounts | Classes/Command/GraphIndexNewCommandController.php:387-403 | in update mode no index is created or deleted; otherwise the combination's index is created, after deleting it only if it existed |
| CommandEffects.CreationPassCounts | Classes/Command/GraphIndexNewCommandController.php:212-248 | the creation pass creates one index per combination, none in update mode, and deletes at most one per combination |
| CommandEffects.CreationPassFresh | Classes/Command/GraphIndexNewCommandController.php:387-403 | with a postfix naming no existing index and distinct combinations, the creation pass deletes nothing |
| CommandEffects.AliasPassExact | Classes/Command/GraphIndexNewCommandController.php:462-472 | outside update mode the alias of every combination's index is updated once, in order, after being announced; in update mode nothing happens |
| CommandEffects.AliasPassCounts | Classes/Command/GraphIndexNewCommandController.php:462-472 | one alias update per combination, none in update mode, and nothing else counted |
| CommandEffects.RefreshPassExact | Classes/Command/GraphIndexNewCommandController.php:442-450 | every combination's index is refreshed once, in order, after being announced |
| CommandEffects.RefreshPassCounts | Classes/Command/GraphIndexNewCommandController.php:442-450 | refreshing creates, deletes, aliases and builds nothing |
| CommandEffects.LiveBuildExact | Classes/Command/GraphIndexNewCommandController.php:263-272 | builds are started for exactly the live targets, in order |
| CommandEffects.BuildEffectsExact | Classes/Command/GraphIndexNewCommandController.php:318-373 | one build starts the build of its target only |
| CommandEffects.BuildIndexIsCombinationIndex | Classes/Command/GraphIndexNewCommandController.php:318-321 | the index a build fills and refreshes, named from the target's coordinates, is one of the indices the passes create and alias exactly when those coordinates are one of the combinations |
| CommandEffects.FinishingStarts | Classes/Command/GraphIndexNewCommandController.php:250-278 | after the creation pass builds are started for exactly the live points, and the main alias is updated last |
| CommandEffects.FinishingCounts | Classes/Command/GraphIndexNewCommandController.php:250-278 | after the creation pass nothing is created or deleted, and aliases are updated twice per combination when none existed and once otherwise |
| CommandEffects.CompletedBuildStarts | Classes/Command/GraphIndexNewCommandController.php:200-282 | a completed build starts a build for exactly the live points, in order, and updates the main alias last |
| CommandEffects.CompletedBuildIndices | Classes/Command/GraphIndexNewCommandController.php:200-282 | a completed build creates one index per combination, and in update mode creates and deletes none |
| CommandEffects.CompletedBuildAliases | Classes/Command/GraphIndexNewCommandController.php:250-275 | a completed build updates each alias twice when none existed and once otherwise, none in update mode, and removes nothing |
| Command.GraphIndexNewCommandController.ConfigureNodeIndexer | Classes/Command/GraphIndexNewCommandController.php:479-484 | sets the indexer's postfix and dimensions and hands the dimensions back |
| Command.GraphIndexNewCommandController.ApplyMapping | Classes/Command/GraphIndexNewCommandController.php:593-600 | the mappings built for the current index are applied in order, and the builder's warnings are those of the node types |
| Command.GraphIndexNewCommandController.CreateInternalCommand | Classes/Command/GraphIndexNewCommandController.php:387-403 | update mode only warns and keeps the indexer and the indices; otherwise the indexer is configured, an index of that name is deleted first and the index created; the mapping is applied in both modes |
| Command.GraphIndexNewCommandController.RecreateIndex | Classes/Command/GraphIndexNewCommandController.php:392-398 | configures the indexer, deletes an existing index of that name after announcing it, creates the index |
| Command.GraphIndexNewCommandController.RefreshInternalCommand | Classes/Command/GraphIndexNewCommandController.php:442-450 | configures the indexer and refreshes its index |
| Command.GraphIndexNewCommandController.AliasInternalCommand | Classes/Command/GraphIndexNewCommandController.php:462-472 | nothing in update mode; otherwise configures the indexer and updates its alias |
| Command.GraphIndexNewCommandController.BuildIndexForDimensionSpacePoint | Classes/Command/GraphIndexNewCommandController.php:318-373 | the indexer is configured for the target; the included nodes are counted and their parts sent in graph order; there is one flush per full batch plus the final one; the index is refreshed |
| Command.GraphIndexNewCommandController.IndexIncludedNodes | Classes/Command/GraphIndexNewCommandController.php:331-361 | `nodesIndexed` is the number of included nodes, flushes number `nodesIndexed / BatchSize`, and the parts of the included nodes are sent in graph order |
| Command.GraphIndexNewCommandController.IndexNodeIfIncluded | Classes/Command/GraphIndexNewCommandController.php:333-360 | an included node is indexed and counted, with a flush exactly when the batch is full; any other node changes nothing |
| Command.GraphIndexNewCommandController.IndexAndMaybeFlush | Classes/Command/GraphIndexNewCommandController.php:353-360 | the node's parts are sent, and the indexer is flushed and the counter reset exactly when the batch is full |
| Command.GraphIndexNewCommandController.BuildCommand | Classes/Command/GraphIndexNewCommandController.php:200-282 | quits with status 1 exactly when the named workspace is missing; otherwise the postfix is the given one or the time; a failed alias lookup (not 404) ends the command after the creation pass; a completed run causes exactly the creation pass, the alias set-up when none existed, the live builds, refresh, alias and main-alias switch, and sends the parts of every live build |
| Command.GraphIndexNewCommandController.RunPasses | Classes/Command/GraphIndexNewCommandController.php:212-278 | the passes after the postfix is fixed, ending early exactly when the alias lookup fails |
| Command.GraphIndexNewCommandController.FinishBuild | Classes/Command/GraphIndexNewCommandController.php:250-278 | alias set-up only when none existed, then the content graph, the live builds and the switch |
| Command.GraphIndexNewCommandController.SwitchAliases | Classes/Command/GraphIndexNewCommandController.php:274-278 | refresh every index, update every alias, then the main alias |
| Command.GraphIndexNewCommandController.CreateIndicesAndApplyMapping | Classes/Command/GraphIndexNewCommandController.php:212-248 | `createInternalCommand` for every combination, in order; the indices created so far exist afterwards |
| Command.GraphIndexNewCommandController.UpdateAliases | Classes/Command/GraphIndexNewCommandController.php:231-237 | `aliasInternalCommand` for every combination, in order |
| Command.GraphIndexNewCommandController.RefreshIndices | Classes/Command/GraphIndexNewCommandController.php:224-229 | `refreshInternalCommand` for every combination, in order |
| Command.GraphIndexNewCommandController.BuildLivePoints | Classes/Command/GraphIndexNewCommandController.php:263-272 | every live point of the subspace is built without `_workspace`, in order; others are skipped |
| Command.GraphIndexNewCommandController.BuildLivePoint | Classes/Command/GraphIndexNewCommandController.php:266-271 | one live point is built and leaves nothing pending |
| Command.GraphIndexNewCommandController.CleanupCommand | Classes/Command/GraphIndexNewCommandController.php:493-521 | for every combination the dimensions are set and its old indices removed, each logged, an `ApiException` logged and passed over; "Nothing to remove." comes last exactly when nothing was removed |
| Command.GraphIndexNewCommandController.CleanupStep | Classes/Command/GraphIndexNewCommandController.php:498-516 | one combination: its removals or its failure are logged, and the removed flag is updated |
| Command.GraphIndexNewCommandController.LogRemovedIndices | Classes/Command/GraphIndexNewCommandController.php:502-505 | one line per removed index; the flag is set exactly when there was one |

## Left out

- Elasticsearch itself is not modelled. Index creation, deletion, refresh, alias updates, `putMapping`, bulk sending and `removeOldIndices` live in the base indexer and driver, which are not part of this model. They appear as `Effect` values and as the set `existingIndices`.
- `removeOldIndices` is a parameter of `CleanupCommand`, so removals do not shrink `existingIndices`.
- `updateMainAlias` is recorded as `MainAliasUpdated` with the postfix only; the base indexer's choice of indices behind the main alias is not modelled.
- `executeInternalCommand` (Classes/Command/GraphIndexNewCommandController.php:540-557) is not modelled as written. The model assumes that the internal commands are this controller's `*InternalCommand` methods and that they run in-process on the same controller. Neither branch does that as written. By default (`useSubProcesses`, line 76) it runs `flowpack.elasticsearch.contentrepositoryadaptor:nodeindex:<command>` in a sub-process, which is another package's command. The other branch calls `[self::class, ...]` statically (line 553), although the methods use `$this`.
- The JSON round trip of `dimensionsValues` between the passes is not modelled; the internal commands receive the value itself.
- A separate process would start with a fresh indexer. In update mode the model's `createInternalCommand` applies the mapping for the index the shared indexer names at that point.
- `CreationPassCounts`: bounds deletions by one per combination rather than stating which ones; `CreationPassFresh` gives zero deletions when the postfix names no existing index.
- Console output, progress bars, timings (`microtime`), `outputMemoryUsage` and the error count of `outputErrorHandling` are left out. The first `info` log line of `buildCommand` is also left out.
- `$limit` is accepted by `buildCommand` and `buildIndexForDimensionSpacePoint` but never used by them, so the model has no such parameter.
- `buildWorkspaceInternalCommand` and `createContentContext` are left out. Nothing in `buildCommand` reaches them (the call is commented out), and the first only delegates to the workspace indexer, which is not part of this model.
- `extractPropertiesAndFulltext`, `indexerDriver->document/fulltext`, `getContextPath`, the point hash, `sha1`, `json_encode`, `DateTime::format` and the base64 stream filter are symbolic values that record their inputs; their results are not computed.
- The debug log lines of `indexGraphNode` and the "not indexed" property callback are left out.
- `LegacyNodeAdapter` is not part of this model: it only delegates to the wrapped node. `GraphIndexCommandController` is not part of this model either: it is an older controller whose calls do not match the current indexer.
- Only two exceptions are modelled, as error values: the `ApiException` of the alias lookup in `aliasesExist` (`BuildOutcome.Aborted`) and the `ApiException` of `removeOldIndices` in `cleanupCommand` (`RemovalResult.RemovalFailed`). `quit` is `BuildOutcome.Quit`.
- Every other Elasticsearch operation is assumed to succeed: index creation, deletion and refresh, `putMapping`, the bulk flush, `setDimensions`, `updateIndexAlias` and `updateMainAlias`. In the code, an exception from any of them ends `buildCommand` part-way through. In `cleanupCommand` (Classes/Command/GraphIndexNewCommandController.php:490-491, 506), any exception other than an `ApiException` ends the command. The model captures neither.
- `QueryBuilding.FirstValue`: a dimension with no raw values gets `false`, as PHP's `reset` gives; the subgraph identifier's string form is not computed.
- `ContentGraph.MatchingSubgraph`: a point without a `_workspace` coordinate is treated as having no subgraph, and `indexGraphNode` skips it. The code hands the null coordinate to `ContentStreamIdentifier::fromString` (Classes/Indexer/NodeIndexer.php:67), which is not part of this model. The model therefore does not capture the error that call may raise for such a point.
- `Mappings.DefaultMapping`: a property whose `type` is not a string gets no default. PHP would use an integer `type` as an array key, which the model does not follow.
- `Indexing.IndexAsset`: a non-object value fails with `GetClassFailed`, which stands for whatever `get_class` raises on it (a `TypeError` under PHP 8, a warning turned into an exception by the framework under PHP 7); the message text is not modelled.
- `setPropertyByPath` is modelled for plain field names; dotted paths are stored as one key.
- `collectOccupiedDimensionSpacePointsForFulltextRoot` descends into every non-fulltext-root child even when its origin point is already in the set (Classes/Indexer/NodeIndexer.php:142-150). Line 142 only avoids adding a duplicate point; the recursion still descends, and the model does the same.
- The mapping declares `__incomingReferenceEdges` and `__outgoingReferenceEdges`, while the indexer writes `__incomingReferenceRelations` and `__outgoingReferenceRelations`. The model keeps both names as written; `Mappings.ReferenceFieldNamesDiffer` states the difference.
- `ContentGraph.Valid`: graphs must have no hierarchy cycle that avoids fulltext roots, because the occupied-points recursion would not end on such a cycle. Cycles through fulltext roots are allowed, as the code handles them; `OccupiedPoints.RootCycleOccupiesOwnOrigin` shows one.
- The live points a build runs for come from the dimension subspace, while the created indices come from the allowed combinations. The model does not relate the two services; `CommandEffects.BuildIndexIsCombinationIndex` states when a build fills a created index.
- Node types, node graphs and subspaces are inputs; the services that produce them (node type manager, graph service, dimension zookeeper) are not part of this model.
- Concurrency is absent from the code and from the model.
