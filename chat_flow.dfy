/**
 * The panel's request as the handler receives it: the body the panel sends
 * through `JSON.stringify`, read back as the handler's destructured fields.
 */
module ChatFlow {
  import opened Wrappers
  import opened Text
  import opened JsValues
  import opened ChatRoute
  import opened ChatPanelModel

  /** One history entry as the JSON object `{ role, content }`. */
  function EncodeEntry(e: HistoryEntry): JsValue
  {
    RoleContent(RoleName(e.role), e.content)
  }

  function EncodeHistory(h: seq<HistoryEntry>): (items: seq<JsValue>)
    ensures |items| == |h|
    ensures forall k :: 0 <= k < |h| ==> items[k] == EncodeEntry(h[k])
  {
    if h == [] then [] else [EncodeEntry(h[0])] + EncodeHistory(h[1..])
  }

  /** The body the handler parses from what the panel posted. */
  function ReceivedBody(r: OutgoingRequest): ChatRequest
  {
    ChatRequest(Str(r.message), Arr(EncodeHistory(r.history)), r.property)
  }

  /**
   * Every request the panel sends passes the handler's checks: its message is
   * a non-empty trimmed string, and the filter keeps every history entry, in
   * order, so the provider sees the panel's whole window.
   */
  lemma PanelRequestAccepted(typed: string, r: OutgoingRequest)
    requires !AllWhitespace(typed) && r.message == Trim(typed)
    ensures ValidMessage(ReceivedBody(r).message)
    ensures FilterHistory(ReceivedBody(r).history) == EncodeHistory(r.history)
  {
    TrimEmptyIff(typed);
    ValidMessageIff(ReceivedBody(r).message);
    var items := EncodeHistory(r.history);
    forall i | 0 <= i < |items| ensures WellFormedEntry(items[i]) {
      WellFormedEntryIff(items[i]);
    }
    FilterEntriesKeepsWellFormed(items);
  }
}
