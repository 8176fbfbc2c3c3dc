/**
 * The specification whether a node is a fulltext root: its node type's
 * `search.fulltext.enable` setting is the boolean `true`.
 */
module FulltextRoot {
  import opened Values
  import opened NodeTypes

  /** The node type's configuration holds `search.fulltext.enable` with exactly `value`. */
  predicate EnableSettingIs(t: NodeType, value: Value) {
    var c := t.fullConfiguration;
    && c.VMap? && "search" in c.entries
    && var search := c.entries["search"];
    && search.VMap? && "fulltext" in search.entries
    && var fulltext := search.entries["fulltext"];
    && fulltext.VMap? && "enable" in fulltext.entries
    && fulltext.entries["enable"] == value
  }

  /**
   * `IsFulltextRoot::isSatisfiedBy`, which only looks at the node's type:
   * false without a `search` configuration, otherwise whether
   * `search.fulltext.enable` is set and strictly equal to `true`.
   */
  predicate IsSatisfiedBy(t: NodeType)
    ensures IsSatisfiedBy(t) <==> EnableSettingIs(t, VBool(true))
  {
    match Lookup(t.fullConfiguration, "search")
    case None => false
    case Some(search) => LookupPath(search, "fulltext", "enable") == Some(VBool(true))
  }

  /**
   * Only the boolean `true` enables fulltext: a truthy integer or string,
   * `false`, or a missing `search` or `fulltext` entry all give false.
   */
  lemma OnlyStrictTrueEnables(t: NodeType)
    ensures EnableSettingIs(t, VInt(1)) ==> !IsSatisfiedBy(t)
    ensures EnableSettingIs(t, VString("true")) ==> !IsSatisfiedBy(t)
    ensures EnableSettingIs(t, VBool(false)) ==> !IsSatisfiedBy(t)
    ensures Lookup(t.fullConfiguration, "search").None? ==> !IsSatisfiedBy(t)
    ensures LookupPath(t.fullConfiguration, "search", "fulltext").None? ==> !IsSatisfiedBy(t)
  {
  }
}
