/**
 * Node types as the node type manager declares them: the part of the
 * content repository's schema the indexer and the mapping builder read.
 */
module NodeTypes {
  import opened Values

  /** A declared property of a node type: its name and its configuration array. */
  datatype PropertyDeclaration = PropertyDeclaration(name: string, configuration: Value)

  /**
   * A node type: its name, whether it is abstract, its full configuration
   * (`getFullConfiguration()`, the root of `hasConfiguration`/`getConfiguration`)
   * and its properties in declaration order.
   */
  datatype NodeType = NodeType(
    name: string,
    isAbstract: bool,
    fullConfiguration: Value,
    properties: seq<PropertyDeclaration>)
}
