/**
 * The Eel helpers used while indexing: turning node lists into identifier
 * lists, and turning assets (or lists of them) into the base64 text the
 * Elasticsearch attachment plugin expects. Base64 encoding of a stream is a
 * parameter: the model does not compute it.
 */
module Indexing {
  import opened Values

  // ---------------------------------------------------------------------
  // convertArrayOfNodesToArrayOfNodeIdentifiers

  /** An element of a node list: a node (of which only the identifier matters) or any other value. */
  datatype ListElement = NodeElement(identifier: string) | PlainElement(value: Value)

  /** The argument: an array or `Traversable` with its elements, or anything else. */
  datatype NodeList = Iterable(elements: seq<ListElement>) | NotIterable

  /** What an element becomes: a node its identifier, anything else itself. */
  function IdentifierOrValue(e: ListElement): (r: Value)
    ensures e.NodeElement? ==> r == VString(e.identifier)
    ensures e.PlainElement? ==> r == e.value
  {
    match e
    case NodeElement(id) => VString(id)
    case PlainElement(v) => v
  }

  /**
   * `convertArrayOfNodesToArrayOfNodeIdentifiers`: an empty list for a
   * non-iterable argument; otherwise one entry per element, in order, the
   * identifier for a node and the element itself for anything else.
   */
  method ConvertArrayOfNodesToArrayOfNodeIdentifiers(nodes: NodeList) returns (nodeIdentifiers: seq<Value>)
    ensures nodes.NotIterable? ==> nodeIdentifiers == []
    ensures nodes.Iterable? ==> |nodeIdentifiers| == |nodes.elements|
    ensures nodes.Iterable? ==> forall i :: 0 <= i < |nodes.elements| ==>
      nodeIdentifiers[i] == (if nodes.elements[i].NodeElement? then VString(nodes.elements[i].identifier) else nodes.elements[i].value)
  {
    if nodes.NotIterable? {
      return [];
    }
    var elements := nodes.elements;
    nodeIdentifiers := [];
    var i := 0;
    while i < |elements|
      invariant 0 <= i <= |elements|
      invariant |nodeIdentifiers| == i
      invariant forall k :: 0 <= k < i ==> nodeIdentifiers[k] == IdentifierOrValue(elements[k])
    {
      nodeIdentifiers := nodeIdentifiers + [IdentifierOrValue(elements[i])];
      i := i + 1;
    }
  }

  // ---------------------------------------------------------------------
  // indexAsset

  /** A stored resource: its size in bytes and its stream, when one can be opened. */
  datatype Resource = Resource(fileSize: int, stream: Option<seq<bv8>>)

  /** The values `indexAsset` distinguishes. */
  datatype AssetValue =
    | NullValue
    | ArrayValue(elements: seq<AssetValue>)
    | AssetObject(resource: Option<Resource>)
    | OtherObject(className: string)
    | NonObject(typeName: string)

  /** What `indexAsset` returns: null, a list, or the base64 text of a stream. */
  datatype IndexedAsset = IndexedNull | IndexedList(items: seq<IndexedAsset>) | Base64Text(text: string)

  /** The error code `indexAsset` raises its exception with. */
  const NotAnAssetCode: int := 1437555909

  /**
   * How `indexAsset` fails. An object that is not an asset raises
   * `IndexingException` naming its class. For any other value, `get_class`
   * fails while the exception message is built, so that error is raised
   * instead and the `IndexingException` is never reached.
   */
  datatype AssetError =
    | IndexingException(className: string, code: int)
    | GetClassFailed(typeName: string)

  /**
   * A single asset: null without a resource, null when the size limit is
   * set (non-zero) and the file is larger, null when no stream can be
   * opened, and the base64 text of the stream otherwise.
   */
  function IndexSingleAsset(resource: Option<Resource>, assetSizeLimit: int, base64: seq<bv8> -> string): (r: IndexedAsset)
    ensures resource.None? ==> r == IndexedNull
    ensures resource.Some? && assetSizeLimit != 0 && resource.value.fileSize > assetSizeLimit ==> r == IndexedNull
    ensures resource.Some? && resource.value.stream.None? ==> r == IndexedNull
    ensures r != IndexedNull <==>
      && resource.Some? && !(assetSizeLimit != 0 && resource.value.fileSize > assetSizeLimit)
      && resource.value.stream.Some?
    ensures r != IndexedNull ==> r == Base64Text(base64(resource.value.stream.value))
  {
    match resource
    case None => IndexedNull
    case Some(res) =>
      if assetSizeLimit != 0 && res.fileSize > assetSizeLimit then IndexedNull
      else
        match res.stream
        case Some(bytes) => Base64Text(base64(bytes))
        case None => IndexedNull
  }

  /**
   * `indexAsset`: null stays null, arrays are handled element by element,
   * an asset is indexed; any other object fails with `IndexingException`,
   * any other value with the error of `get_class`.
   */
  function IndexAsset(value: AssetValue, assetSizeLimit: int, base64: seq<bv8> -> string): (r: Result<IndexedAsset, AssetError>)
    ensures value.NullValue? ==> r == Ok(IndexedNull)
    ensures value.AssetObject? ==> r == Ok(IndexSingleAsset(value.resource, assetSizeLimit, base64))
    ensures value.OtherObject? ==> r == Err(IndexingException(value.className, NotAnAssetCode))
    ensures value.NonObject? ==> r == Err(GetClassFailed(value.typeName))
    ensures value.ArrayValue? && r.Ok? ==> r.value.IndexedList? && |r.value.items| == |value.elements|
    decreases value
  {
    match value
    case NullValue => Ok(IndexedNull)
    case ArrayValue(elements) => IndexAssetList(elements, assetSizeLimit, base64)
    case AssetObject(resource) => Ok(IndexSingleAsset(resource, assetSizeLimit, base64))
    case OtherObject(className) => Err(IndexingException(className, NotAnAssetCode))
    case NonObject(typeName) => Err(GetClassFailed(typeName))
  }

  /**
   * The array case: the elements are handled in order and the first error
   * ends the call; without an error the result is a list of the same
   * length, each item what `indexAsset` gives for its element.
   */
  function IndexAssetList(elements: seq<AssetValue>, assetSizeLimit: int, base64: seq<bv8> -> string): (r: Result<IndexedAsset, AssetError>)
    ensures r.Ok? ==> r.value.IndexedList? && |r.value.items| == |elements|
    ensures r.Ok? ==> forall i :: 0 <= i < |elements| ==> IndexAsset(elements[i], assetSizeLimit, base64) == Ok(r.value.items[i])
    decreases elements
  {
    if elements == [] then Ok(IndexedList([]))
    else
      var front := elements[..|elements| - 1];
      var last := elements[|elements| - 1];
      match IndexAssetList(front, assetSizeLimit, base64)
      case Err(e) => Err(e)
      case Ok(sofar) =>
        match IndexAsset(last, assetSizeLimit, base64)
        case Err(e) => Err(e)
        case Ok(item) => Ok(IndexedList(sofar.items + [item]))
  }

  /**
   * The array case fails exactly when some element fails, and then with
   * the error of the first failing element.
   */
  lemma {:induction false} IndexAssetListFailure(elements: seq<AssetValue>, assetSizeLimit: int, base64: seq<bv8> -> string)
    ensures var r := IndexAssetList(elements, assetSizeLimit, base64);
      && (r.Err? <==> exists i :: 0 <= i < |elements| && IndexAsset(elements[i], assetSizeLimit, base64).Err?)
      && (r.Err? ==> exists i :: FirstFailure(elements, assetSizeLimit, base64, i) && IndexAsset(elements[i], assetSizeLimit, base64) == r)
    decreases elements
  {
    if elements != [] {
      var front := elements[..|elements| - 1];
      var last := elements[|elements| - 1];
      IndexAssetListFailure(front, assetSizeLimit, base64);
      var r := IndexAssetList(elements, assetSizeLimit, base64);
      if IndexAssetList(front, assetSizeLimit, base64).Err? {
        var i :| FirstFailure(front, assetSizeLimit, base64, i) && IndexAsset(front[i], assetSizeLimit, base64) == IndexAssetList(front, assetSizeLimit, base64);
        assert elements[i] == front[i];
        assert forall k :: 0 <= k < i ==> elements[k] == front[k];
        assert FirstFailure(elements, assetSizeLimit, base64, i);
      } else {
        assert forall k :: 0 <= k < |front| ==> elements[k] == front[k];
        if r.Err? {
          assert FirstFailure(elements, assetSizeLimit, base64, |elements| - 1);
        }
      }
    }
  }

  /** Element `i` is the first of `elements` whose conversion fails. */
  predicate FirstFailure(elements: seq<AssetValue>, assetSizeLimit: int, base64: seq<bv8> -> string, i: int) {
    && 0 <= i < |elements|
    && IndexAsset(elements[i], assetSizeLimit, base64).Err?
    && forall k :: 0 <= k < i ==> IndexAsset(elements[k], assetSizeLimit, base64).Ok?
  }
}
