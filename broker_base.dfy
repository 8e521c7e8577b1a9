/**
 * The connector base class (backend/app/engine/broker/base.py): the read-only
 * properties every connector inherits, and the execution calls that are blocked by
 * design for any arguments.
 */
module BrokerBase {
  import opened Wrappers
  import Text

  /**
   * The optional attributes a concrete connector may have set on itself:
   * `_last_sync` (seconds) and `_confidence_status`. None means the attribute is absent.
   */
  datatype ConnectorState = ConnectorState(lastSyncAttr: Option<int>, confidenceAttr: Option<string>)

  /** A connector that has set neither attribute, such as the mock bridge. */
  const Bare: ConnectorState := ConnectorState(None, None)

  /** The `last_sync` property: the attribute when present, otherwise None. */
  function LastSync(c: ConnectorState): (r: Option<int>)
    ensures c.lastSyncAttr.None? ==> r.None?
    ensures c.lastSyncAttr.Some? ==> r == c.lastSyncAttr
  {
    c.lastSyncAttr
  }

  /** The `confidence_status` property: the attribute when present, otherwise "PAUSED". */
  function ConfidenceStatus(c: ConnectorState): (r: string)
    ensures c.confidenceAttr.None? ==> r == "PAUSED"
    ensures c.confidenceAttr.Some? ==> r == c.confidenceAttr.value
  {
    if c.confidenceAttr.Some? then c.confidenceAttr.value else "PAUSED"
  }

  /** Arguments of an execution call: positional values and keyword pairs, of any shape. */
  datatype Args = Args(positional: seq<string>, keywords: map<string, string>)

  /** What an execution call does: it never executes, it raises `NotImplementedError`. */
  datatype Execution = Executed | NotImplementedError(message: string)

  const ReadOnlyPhrase: string := "read-only by design"

  const ReadOnlyMessage: string := "RiskLock is " + ReadOnlyPhrase + ". Execution is not supported."

  function PlaceOrder(c: ConnectorState, args: Args): (r: Execution)
    ensures r.NotImplementedError? && Text.Contains(r.message, ReadOnlyPhrase)
  {
    ReadOnlyMessageNamesDesign();
    NotImplementedError(ReadOnlyMessage)
  }

  function ModifyOrder(c: ConnectorState, args: Args): (r: Execution)
    ensures r.NotImplementedError? && Text.Contains(r.message, ReadOnlyPhrase)
  {
    ReadOnlyMessageNamesDesign();
    NotImplementedError(ReadOnlyMessage)
  }

  function ClosePosition(c: ConnectorState, args: Args): (r: Execution)
    ensures r.NotImplementedError? && Text.Contains(r.message, ReadOnlyPhrase)
  {
    ReadOnlyMessageNamesDesign();
    NotImplementedError(ReadOnlyMessage)
  }

  /** The raised message names the read-only design. */
  lemma ReadOnlyMessageNamesDesign()
    ensures Text.Contains(ReadOnlyMessage, ReadOnlyPhrase)
  {
    Text.ContainsConcat("RiskLock is ", ReadOnlyPhrase, ". Execution is not supported.");
  }

  /** The three calls raise one and the same error, whatever the connector and the arguments. */
  lemma ExecutionBlockedAlike(c1: ConnectorState, a1: Args, c2: ConnectorState, a2: Args)
    ensures PlaceOrder(c1, a1) == ModifyOrder(c2, a2) == ClosePosition(c1, a2) == PlaceOrder(c2, a1)
  {
  }

  /** A connector that has not synced reports no sync time and the paused status. */
  lemma BareConnectorIsPaused()
    ensures LastSync(Bare).None? && ConfidenceStatus(Bare) == "PAUSED"
  {
  }
}
