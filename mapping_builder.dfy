/**
 * The Elasticsearch mapping built for every concrete node type: the fixed
 * system fields every document carries, a full mapping taken from the type
 * configuration, and one field mapping per property, chosen from the
 * property's own mapping or the default for its type, with a warning when
 * neither exists.
 */
module Mappings {
  import opened Values
  import opened NodeTypes
  import opened ContentGraph
  import opened Indexer

  /** The node type that never gets a mapping. */
  const UnstructuredNodeTypeName: string := "unstructured"

  // ---------------------------------------------------------------------
  // The fixed parts of every mapping

  const KeywordNotAnalyzed: Value :=
    VMap(map["type" := VString("keyword"), "index" := VString("not_analyzed")])

  const KeywordNotInAll: Value :=
    VMap(map["type" := VString("keyword"), "include_in_all" := VBool(false), "index" := VString("not_analyzed")])

  const IntegerField: Value := VMap(map["type" := VString("integer")])

  const BooleanField: Value := VMap(map["type" := VString("boolean")])

  const DateTimeField: Value := VMap(map["type" := VString("date"), "format" := VString("date_time_no_millis")])

  /** A `nested` field left out of `_all`, with the given sub-fields. */
  function Nested(fields: map<string, Value>): (r: Value)
    ensures r.VMap? && r.entries.Keys == {"type", "include_in_all", "properties"}
    ensures r.entries["type"] == VString("nested") && r.entries["properties"] == VMap(fields)
  {
    VMap(map["type" := VString("nested"), "include_in_all" := VBool(false), "properties" := VMap(fields)])
  }

  const DimensionsTemplateName: string := "dimensions"

  /** Every `__dimensionCombinations.*` keyword is stored unanalyzed. */
  const DimensionsTemplate: Value :=
    VMap(map[
      "path_match" := VString("__dimensionCombinations.*"),
      "match_mapping_type" := VString("keyword"),
      "mapping" := KeywordNotAnalyzed])

  const DimensionCombinationHashField: string := "__dimensionCombinationHash"
  const HierarchyRelationsField: string := "__hierarchyRelations"
  const IncomingReferenceEdgesField: string := "__incomingReferenceEdges"
  const OutgoingReferenceEdgesField: string := "__outgoingReferenceEdges"

  /** The seven sub-fields of a hierarchy relation entry. */
  const HierarchyRelationFields: map<string, Value> :=
    map[
      "subgraph" := KeywordNotInAll,
      "sortIndex" := IntegerField,
      "accessRoles" := KeywordNotInAll,
      "hidden" := BooleanField,
      "hiddenBeforeDateTime" := DateTimeField,
      "hiddenAfterDateTime" := DateTimeField,
      "hiddenInIndex" := BooleanField]

  const IncomingReferenceEdgeFields: map<string, Value> :=
    map["source" := KeywordNotInAll, "name" := KeywordNotInAll]

  const OutgoingReferenceEdgeFields: map<string, Value> :=
    map["target" := KeywordNotInAll, "name" := KeywordNotInAll, "sortIndex" := IntegerField]

  /** The system fields set on every mapping before the node type's properties. */
  function SystemProperties(): (r: map<string, Value>)
    ensures r.Keys == {DimensionCombinationHashField, HierarchyRelationsField, IncomingReferenceEdgesField, OutgoingReferenceEdgesField}
  {
    map[
      DimensionCombinationHashField := KeywordNotAnalyzed,
      HierarchyRelationsField := Nested(HierarchyRelationFields),
      IncomingReferenceEdgesField := Nested(IncomingReferenceEdgeFields),
      OutgoingReferenceEdgesField := Nested(OutgoingReferenceEdgeFields)]
  }

  // ---------------------------------------------------------------------
  // Mappings and warnings

  /**
   * A mapping for one Elasticsearch type: the type, the full mapping if the
   * node type configures one, the dynamic templates and the field mappings
   * by field name.
   */
  datatype Mapping = Mapping(
    mappingType: MappingType,
    fullMapping: Option<Value>,
    dynamicTemplates: map<string, Value>,
    properties: map<string, Value>)

  /** The warning recorded for a property no mapping could be found for. */
  datatype MappingWarning = NoMappingFound(nodeTypeName: string, propertyName: string)

  /**
   * What the builder is configured with: the default mapping per property
   * type (`defaultConfigurationPerType`), the rewrite applied to explicit
   * property mappings for Elasticsearch 5 and the node-type-to-type-name
   * conversion, both of which belong to the base builder.
   */
  datatype BuilderSettings = BuilderSettings(
    defaultConfigurationPerType: map<string, Value>,
    migrate: Value -> Value,
    toMappingName: string -> string)

  /** Node types other than `unstructured` that are not abstract get a mapping. */
  predicate IsMapped(t: NodeType) {
    t.name != UnstructuredNodeTypeName && !t.isAbstract
  }

  /** `search.elasticSearchMapping` of a configuration array, as `isset` sees it. */
  function ExplicitMapping(configuration: Value): Option<Value> {
    LookupPath(configuration, "search", "elasticSearchMapping")
  }

  /** `elasticSearchMapping` of the default configuration for the property's `type`, as `isset` sees it. */
  function DefaultMapping(configuration: Value, defaults: map<string, Value>): (r: Option<Value>)
    ensures r.Some? ==> exists t :: Lookup(configuration, "type") == Some(VString(t)) && t in defaults
    ensures var ty := Lookup(configuration, "type");
      ty.Some? && ty.value.VString? && ty.value.s in defaults ==>
        r == Lookup(defaults[ty.value.s], "elasticSearchMapping")
  {
    match Lookup(configuration, "type")
    case Some(VString(t)) => if t in defaults then Lookup(defaults[t], "elasticSearchMapping") else None
    case _ => None
  }

  /** What happens for one property: a field mapping is set, nothing is set, or a warning is recorded. */
  datatype PropertyOutcome = SetMapping(fieldMapping: Value) | SetNothing | Warn

  /**
   * The per-property decision. An explicit mapping takes precedence and is
   * used, migrated, only when it is an array; a non-array one sets nothing
   * and warns of nothing. Without one, the default for the property's type
   * is used when present and an array. With neither, a warning.
   */
  function PropertyOutcomeOf(configuration: Value, s: BuilderSettings): (r: PropertyOutcome)
    ensures ExplicitMapping(configuration).Some? && IsArray(ExplicitMapping(configuration).value)
      ==> r == SetMapping(s.migrate(ExplicitMapping(configuration).value))
    ensures ExplicitMapping(configuration).Some? && !IsArray(ExplicitMapping(configuration).value) ==> r == SetNothing
    ensures ExplicitMapping(configuration).None? && DefaultMapping(configuration, s.defaultConfigurationPerType).Some? ==>
      var d := DefaultMapping(configuration, s.defaultConfigurationPerType).value;
      r == if IsArray(d) then SetMapping(d) else SetNothing
    ensures r == Warn <==> ExplicitMapping(configuration).None? && DefaultMapping(configuration, s.defaultConfigurationPerType).None?
  {
    match ExplicitMapping(configuration)
    case Some(explicit) => if IsArray(explicit) then SetMapping(s.migrate(explicit)) else SetNothing
    case None =>
      match DefaultMapping(configuration, s.defaultConfigurationPerType)
      case Some(default) => if IsArray(default) then SetMapping(default) else SetNothing
      case None => Warn
  }

  /** The mapping of node type `t` before its properties are applied. */
  function BaseMapping(index: IndexName, t: NodeType, s: BuilderSettings): Mapping {
    Mapping(
      MappingType(index, s.toMappingName(t.name)),
      ExplicitMapping(t.fullConfiguration),
      map[DimensionsTemplateName := DimensionsTemplate],
      SystemProperties())
  }

  /** `m` after the properties `props` are handled in order. */
  function ApplyProperties(m: Mapping, props: seq<PropertyDeclaration>, s: BuilderSettings): Mapping {
    if props == [] then m
    else
      var before := ApplyProperties(m, props[..|props| - 1], s);
      var p := props[|props| - 1];
      match PropertyOutcomeOf(p.configuration, s)
      case SetMapping(v) => before.(properties := before.properties[p.name := v])
      case _ => before
  }

  /** The warnings recorded for the properties `props` of the type named `typeName`, in order. */
  function PropertyWarnings(typeName: string, props: seq<PropertyDeclaration>, s: BuilderSettings): seq<MappingWarning> {
    if props == [] then []
    else
      var p := props[|props| - 1];
      PropertyWarnings(typeName, props[..|props| - 1], s)
        + (if PropertyOutcomeOf(p.configuration, s) == Warn then [NoMappingFound(typeName, p.name)] else [])
  }

  /** The mapping of node type `t`. */
  function MappingFor(index: IndexName, t: NodeType, s: BuilderSettings): Mapping {
    ApplyProperties(BaseMapping(index, t, s), t.properties, s)
  }

  /** The node types of `types` that get a mapping, in order. */
  function MappedTypes(types: seq<NodeType>): (r: seq<NodeType>)
    ensures |r| <= |types|
    ensures forall t :: t in r <==> t in types && IsMapped(t)
  {
    if types == [] then []
    else
      var t := types[|types| - 1];
      MappedTypes(types[..|types| - 1]) + (if IsMapped(t) then [t] else [])
  }

  /** The mappings built for `types`, one for each type that gets one. */
  function MappingsFor(index: IndexName, types: seq<NodeType>, s: BuilderSettings): seq<Mapping> {
    if types == [] then []
    else
      var t := types[|types| - 1];
      MappingsFor(index, types[..|types| - 1], s) + (if IsMapped(t) then [MappingFor(index, t, s)] else [])
  }

  /** The mappings built for `types`: exactly one per mapped type, in the order of the types. */
  lemma {:induction false} MappingsForExact(index: IndexName, types: seq<NodeType>, s: BuilderSettings)
    ensures var r := MappingsFor(index, types, s);
      && |r| == |MappedTypes(types)|
      && forall i :: 0 <= i < |r| ==> r[i] == MappingFor(index, MappedTypes(types)[i], s)
  {
    if types != [] {
      MappingsForExact(index, types[..|types| - 1], s);
    }
  }

  /** The warnings recorded for `types`: those of every mapped type, in order. */
  function WarningsFor(types: seq<NodeType>, s: BuilderSettings): seq<MappingWarning> {
    if types == [] then []
    else
      var t := types[|types| - 1];
      WarningsFor(types[..|types| - 1], s) + (if IsMapped(t) then PropertyWarnings(t.name, t.properties, s) else [])
  }

  // ---------------------------------------------------------------------
  // What the mappings and warnings hold

  /** Property names are array keys of the node type's configuration, so they are distinct. */
  predicate DistinctNames(props: seq<PropertyDeclaration>) {
    forall i, j :: 0 <= i < j < |props| ==> props[i].name != props[j].name
  }

  /** Some property of `props` named `name` gets a field mapping. */
  predicate SetsField(props: seq<PropertyDeclaration>, s: BuilderSettings, name: string) {
    exists i :: 0 <= i < |props| && props[i].name == name && PropertyOutcomeOf(props[i].configuration, s).SetMapping?
  }

  /** A field is set by `props` when it is set by all but the last property or by the last one. */
  lemma SetsFieldSnoc(props: seq<PropertyDeclaration>, s: BuilderSettings, f: string)
    requires props != []
    ensures var front, p := props[..|props| - 1], props[|props| - 1];
      SetsField(props, s, f) <==> SetsField(front, s, f) || (f == p.name && PropertyOutcomeOf(p.configuration, s).SetMapping?)
  {
    var front := props[..|props| - 1];
    if SetsField(props, s, f) {
      var i :| 0 <= i < |props| && props[i].name == f && PropertyOutcomeOf(props[i].configuration, s).SetMapping?;
      if i < |front| {
        assert front[i] == props[i];
      }
    }
    if SetsField(front, s, f) {
      var i :| 0 <= i < |front| && front[i].name == f && PropertyOutcomeOf(front[i].configuration, s).SetMapping?;
      assert props[i] == front[i];
    }
  }

  /**
   * Applying properties keeps the type, the full mapping and the templates;
   * every property with a field mapping has it under its name, and every
   * other field keeps what it had.
   */
  lemma {:induction false} ApplyPropertiesEffect(m: Mapping, props: seq<PropertyDeclaration>, s: BuilderSettings)
    requires DistinctNames(props)
    ensures var r := ApplyProperties(m, props, s);
      && r.mappingType == m.mappingType && r.fullMapping == m.fullMapping && r.dynamicTemplates == m.dynamicTemplates
      && (forall i :: 0 <= i < |props| && PropertyOutcomeOf(props[i].configuration, s).SetMapping? ==>
            props[i].name in r.properties && r.properties[props[i].name] == PropertyOutcomeOf(props[i].configuration, s).fieldMapping)
      && (forall f :: f in r.properties <==> f in m.properties || SetsField(props, s, f))
      && (forall f :: f in m.properties && !SetsField(props, s, f) ==> r.properties[f] == m.properties[f])
  {
    if props != [] {
      var front := props[..|props| - 1];
      var p := props[|props| - 1];
      ApplyPropertiesEffect(m, front, s);
      var before := ApplyProperties(m, front, s);
      var r := ApplyProperties(m, props, s);
      forall f ensures SetsField(props, s, f) <==> SetsField(front, s, f) || (f == p.name && PropertyOutcomeOf(p.configuration, s).SetMapping?) {
        SetsFieldSnoc(props, s, f);
      }
      forall i | 0 <= i < |props| && PropertyOutcomeOf(props[i].configuration, s).SetMapping?
        ensures props[i].name in r.properties && r.properties[props[i].name] == PropertyOutcomeOf(props[i].configuration, s).fieldMapping
      {
        if i < |front| {
          assert front[i] == props[i];
          assert props[i].name != p.name;
        }
      }
      forall f | f in m.properties && !SetsField(props, s, f) ensures r.properties[f] == m.properties[f] {
        assert !SetsField(front, s, f);
      }
    }
  }

  /**
   * Every mapping built has the `dimensions` dynamic template and, unless a
   * property of the same name overrides it, each system field exactly as
   * fixed; its type is named after the node type and its full mapping is the
   * type's own `search.elasticSearchMapping`.
   */
  lemma MappingForShape(index: IndexName, t: NodeType, s: BuilderSettings, field: string)
    requires DistinctNames(t.properties)
    ensures var m := MappingFor(index, t, s);
      && m.mappingType == MappingType(index, s.toMappingName(t.name))
      && m.fullMapping == ExplicitMapping(t.fullConfiguration)
      && m.dynamicTemplates == map[DimensionsTemplateName := DimensionsTemplate]
      && (field in SystemProperties() ==> field in m.properties)
      && (field in SystemProperties() && !SetsField(t.properties, s, field) ==> m.properties[field] == SystemProperties()[field])
  {
    ApplyPropertiesEffect(BaseMapping(index, t, s), t.properties, s);
  }

  /**
   * The fields a mapping maps are the system fields and the properties that
   * got a field mapping; a property that got one has it in the mapping.
   */
  lemma MappingForFields(index: IndexName, t: NodeType, s: BuilderSettings)
    requires DistinctNames(t.properties)
    ensures var m := MappingFor(index, t, s);
      && (forall f :: f in m.properties <==> f in SystemProperties() || SetsField(t.properties, s, f))
      && (forall i :: 0 <= i < |t.properties| && PropertyOutcomeOf(t.properties[i].configuration, s).SetMapping? ==>
            m.properties[t.properties[i].name] == PropertyOutcomeOf(t.properties[i].configuration, s).fieldMapping)
  {
    ApplyPropertiesEffect(BaseMapping(index, t, s), t.properties, s);
  }

  /** The hierarchy relation field is nested with exactly its seven sub-fields. */
  lemma HierarchyRelationsFieldShape()
    ensures var f := SystemProperties()[HierarchyRelationsField];
      && f.VMap? && f.entries["type"] == VString("nested")
      && f.entries["properties"].VMap?
      && f.entries["properties"].entries.Keys
         == {"subgraph", "sortIndex", "accessRoles", "hidden", "hiddenBeforeDateTime", "hiddenAfterDateTime", "hiddenInIndex"}
  {
  }

  /**
   * The reference fields the mapping declares are not the ones the indexer
   * writes (`__incomingReferenceRelations`, `__outgoingReferenceRelations`),
   * so those are left to dynamic mapping.
   */
  lemma ReferenceFieldNamesDiffer()
    ensures "__incomingReferenceRelations" !in SystemProperties()
    ensures "__outgoingReferenceRelations" !in SystemProperties()
  {
  }

  /**
   * A warning names a property without any mapping: exactly one warning per
   * such property, naming the type and the property.
   */
  lemma {:induction false} PropertyWarningsExact(typeName: string, props: seq<PropertyDeclaration>, s: BuilderSettings)
    ensures var w := PropertyWarnings(typeName, props, s);
      && |w| <= |props|
      && forall x :: x in w <==> exists i :: 0 <= i < |props| && PropertyOutcomeOf(props[i].configuration, s) == Warn && x == NoMappingFound(typeName, props[i].name)
  {
    if props != [] {
      var front := props[..|props| - 1];
      PropertyWarningsExact(typeName, front, s);
      forall x ensures x in PropertyWarnings(typeName, props, s) <==>
        exists i :: 0 <= i < |props| && PropertyOutcomeOf(props[i].configuration, s) == Warn && x == NoMappingFound(typeName, props[i].name)
      {
        if exists i :: 0 <= i < |props| && PropertyOutcomeOf(props[i].configuration, s) == Warn && x == NoMappingFound(typeName, props[i].name) {
          var i :| 0 <= i < |props| && PropertyOutcomeOf(props[i].configuration, s) == Warn && x == NoMappingFound(typeName, props[i].name);
          if i < |front| {
            assert front[i] == props[i];
          }
        }
        if x in PropertyWarnings(typeName, front, s) {
          var i :| 0 <= i < |front| && PropertyOutcomeOf(front[i].configuration, s) == Warn && x == NoMappingFound(typeName, front[i].name);
          assert props[i] == front[i];
        }
      }
    }
  }

  /** Types without a mapping record no warnings: every warning names a mapped type. */
  lemma {:induction false} WarningsNameMappedTypes(types: seq<NodeType>, s: BuilderSettings)
    ensures forall x :: x in WarningsFor(types, s) ==> exists t :: t in types && IsMapped(t) && x.nodeTypeName == t.name
  {
    if types != [] {
      var front := types[..|types| - 1];
      var t := types[|types| - 1];
      WarningsNameMappedTypes(front, s);
      forall x | x in WarningsFor(types, s) ensures exists u :: u in types && IsMapped(u) && x.nodeTypeName == u.name {
        if x in WarningsFor(front, s) {
          var u :| u in front && IsMapped(u) && x.nodeTypeName == u.name;
          assert u in types;
        } else {
          PropertyWarningsExact(t.name, t.properties, s);
          assert t in types;
        }
      }
    }
  }

  /** Handling one more property extends the mapping and the warnings by that property's outcome. */
  lemma PropertiesSnoc(typeName: string, m: Mapping, props: seq<PropertyDeclaration>, i: nat, s: BuilderSettings)
    requires i < |props|
    ensures ApplyProperties(m, props[..i + 1], s) ==
      match PropertyOutcomeOf(props[i].configuration, s)
      case SetMapping(v) => ApplyProperties(m, props[..i], s).(properties := ApplyProperties(m, props[..i], s).properties[props[i].name := v])
      case _ => ApplyProperties(m, props[..i], s)
    ensures PropertyWarnings(typeName, props[..i + 1], s) == PropertyWarnings(typeName, props[..i], s)
      + (if PropertyOutcomeOf(props[i].configuration, s) == Warn then [NoMappingFound(typeName, props[i].name)] else [])
  {
    assert props[..i + 1][..i] == props[..i];
  }

  /** Handling one more node type extends the mappings and the warnings by that type's own. */
  lemma TypesSnoc(index: IndexName, types: seq<NodeType>, i: nat, s: BuilderSettings)
    requires i < |types|
    ensures MappingsFor(index, types[..i + 1], s) ==
      MappingsFor(index, types[..i], s) + (if IsMapped(types[i]) then [MappingFor(index, types[i], s)] else [])
    ensures WarningsFor(types[..i + 1], s) ==
      WarningsFor(types[..i], s) + (if IsMapped(types[i]) then PropertyWarnings(types[i].name, types[i].properties, s) else [])
  {
    assert types[..i + 1][..i] == types[..i];
  }

  // ---------------------------------------------------------------------
  // The builder

  class NodeTypeMappingBuilder {
    /** `nodeTypeManager->getNodeTypes()`, in iteration order. */
    const nodeTypes: seq<NodeType>
    const settings: BuilderSettings
    /** The warnings of the last `buildMappingInformation` call. */
    var lastMappingErrors: seq<MappingWarning>

    constructor (nodeTypes: seq<NodeType>, settings: BuilderSettings)
      ensures this.nodeTypes == nodeTypes && this.settings == settings
      ensures lastMappingErrors == []
    {
      this.nodeTypes := nodeTypes;
      this.settings := settings;
      lastMappingErrors := [];
    }

    /**
     * `buildMappingInformation`: resets the warnings, then builds one
     * mapping per mapped node type, in order, recording the warnings of
     * every property without a mapping.
     */
    method BuildMappingInformation(index: IndexName) returns (mappings: seq<Mapping>)
      modifies this`lastMappingErrors
      ensures mappings == MappingsFor(index, nodeTypes, settings)
      ensures lastMappingErrors == WarningsFor(nodeTypes, settings)
    {
      lastMappingErrors := [];
      mappings := [];
      var i := 0;
      while i < |nodeTypes|
        invariant 0 <= i <= |nodeTypes|
        invariant mappings == MappingsFor(index, nodeTypes[..i], settings)
        invariant lastMappingErrors == WarningsFor(nodeTypes[..i], settings)
      {
        var nodeType := nodeTypes[i];
        TypesSnoc(index, nodeTypes, i, settings);
        if nodeType.name == UnstructuredNodeTypeName || nodeType.isAbstract {
          i := i + 1;
          continue;
        }
        var mapping := NewMapping(index, nodeType);
        mapping := AddPropertyMappings(nodeType, mapping);
        mappings := mappings + [mapping];
        i := i + 1;
      }
      assert nodeTypes[..i] == nodeTypes;
    }

    /** A new mapping for `nodeType` with its full mapping, the `dimensions` template and the system fields. */
    method NewMapping(index: IndexName, nodeType: NodeType) returns (mapping: Mapping)
      ensures mapping == BaseMapping(index, nodeType, settings)
    {
      mapping := Mapping(MappingType(index, settings.toMappingName(nodeType.name)), None, map[], map[]);
      var fullMapping := ExplicitMapping(nodeType.fullConfiguration);
      if fullMapping.Some? {
        mapping := mapping.(fullMapping := fullMapping);
      }
      mapping := mapping.(dynamicTemplates := mapping.dynamicTemplates[DimensionsTemplateName := DimensionsTemplate]);
      mapping := mapping.(properties := mapping.properties[DimensionCombinationHashField := KeywordNotAnalyzed]);
      mapping := mapping.(properties := mapping.properties[HierarchyRelationsField := Nested(HierarchyRelationFields)]);
      mapping := mapping.(properties := mapping.properties[IncomingReferenceEdgesField := Nested(IncomingReferenceEdgeFields)]);
      mapping := mapping.(properties := mapping.properties[OutgoingReferenceEdgesField := Nested(OutgoingReferenceEdgeFields)]);
      assert mapping.properties == SystemProperties();
    }

    /** The inner loop: handles the properties of `nodeType` in order. */
    method AddPropertyMappings(nodeType: NodeType, mapping: Mapping) returns (r: Mapping)
      modifies this`lastMappingErrors
      ensures r == ApplyProperties(mapping, nodeType.properties, settings)
      ensures lastMappingErrors == old(lastMappingErrors) + PropertyWarnings(nodeType.name, nodeType.properties, settings)
    {
      var props := nodeType.properties;
      r := mapping;
      var i := 0;
      while i < |props|
        invariant 0 <= i <= |props|
        invariant r == ApplyProperties(mapping, props[..i], settings)
        invariant lastMappingErrors == old(lastMappingErrors) + PropertyWarnings(nodeType.name, props[..i], settings)
      {
        var p := props[i];
        PropertiesSnoc(nodeType.name, mapping, props, i, settings);
        var explicit := ExplicitMapping(p.configuration);
        if explicit.Some? {
          if IsArray(explicit.value) {
            r := r.(properties := r.properties[p.name := settings.migrate(explicit.value)]);
          }
        } else {
          var default := DefaultMapping(p.configuration, settings.defaultConfigurationPerType);
          if default.Some? {
            if IsArray(default.value) {
              r := r.(properties := r.properties[p.name := default.value]);
            }
          } else {
            lastMappingErrors := lastMappingErrors + [NoMappingFound(nodeType.name, p.name)];
          }
        }
        i := i + 1;
      }
      assert props[..i] == props;
    }
  }
}
