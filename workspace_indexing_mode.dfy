/**
 * The workspace indexing mode: one of three named values, built only
 * through a validating factory, and the rule which nodes a mode indexes.
 */
module WorkspaceIndexing {
  import opened Values

  const ModeOnlyLive: string := "onlyLive"
  const ModeOnlyOrigin: string := "onlyOrigin"
  const ModeFull: string := "full"

  /** The constructor is private, so a mode is always one of the three constants. */
  datatype WorkspaceIndexingMode = OnlyLive | OnlyOrigin | Full

  /** `WorkspaceIndexingModeIsInvalid::becauseItIsNoneOfTheDefinedValues` */
  datatype WorkspaceIndexingModeIsInvalid = BecauseItIsNoneOfTheDefinedValues(attemptedValue: string)

  /** `getValue()` */
  function GetValue(m: WorkspaceIndexingMode): (v: string)
    ensures v == ModeOnlyLive || v == ModeOnlyOrigin || v == ModeFull
  {
    match m
    case OnlyLive => ModeOnlyLive
    case OnlyOrigin => ModeOnlyOrigin
    case Full => ModeFull
  }

  /** `fromString`: succeeds exactly for the three defined values and keeps the value. */
  function FromString(v: string): (r: Result<WorkspaceIndexingMode, WorkspaceIndexingModeIsInvalid>)
    ensures r.Ok? <==> v == ModeOnlyLive || v == ModeOnlyOrigin || v == ModeFull
    ensures r.Ok? ==> GetValue(r.value) == v
    ensures r.Err? ==> r.error == BecauseItIsNoneOfTheDefinedValues(v)
  {
    if v == ModeOnlyLive then Ok(OnlyLive)
    else if v == ModeOnlyOrigin then Ok(OnlyOrigin)
    else if v == ModeFull then Ok(Full)
    else Err(BecauseItIsNoneOfTheDefinedValues(v))
  }

  /**
   * `isNodeToBeIndexed`: in `onlyLive` mode only nodes of the live
   * workspace, in every other mode every node.
   */
  predicate IsNodeToBeIndexed(m: WorkspaceIndexingMode, nodeWorkspaceName: string)
    ensures m == OnlyLive ==> (IsNodeToBeIndexed(m, nodeWorkspaceName) <==> nodeWorkspaceName == "live")
    ensures m != OnlyLive ==> IsNodeToBeIndexed(m, nodeWorkspaceName)
  {
    match m
    case OnlyLive => nodeWorkspaceName == "live"
    case _ => true
  }

  /** Every mode survives the trip through its string value. */
  lemma ValueRoundTrip(m: WorkspaceIndexingMode)
    ensures FromString(GetValue(m)) == Ok(m)
  {
  }
}
