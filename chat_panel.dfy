/**
 * The chat panel on the client: a message list, the input text and the
 * streaming flag, changed by selecting a property, typing, and submitting a
 * message whose reply streams into one assistant message.
 */
module ChatPanelModel {
  import opened Wrappers
  import opened Text
  import opened Listing

  datatype Role = User | Assistant

  function RoleName(role: Role): string
  {
    match role
    case User => "user"
    case Assistant => "assistant"
  }

  /** `ChatMessage`; ids come from `crypto.randomUUID`, times from `Date.now`. */
  datatype ChatMessage = ChatMessage(id: string, role: Role, content: string, createdAt: int)

  /** The fallback reply shown when the response status is not OK. */
  const Apology: string :=
    "I'm having trouble reaching the AI services right now. " + "Please try again shortly."

  /** The fixed end of a focus announcement. */
  const AnnouncementTail: string :=
    ". Ask me anything about price, comps, neighborhood vibe, school ratings, or schedule a tour."

  /** The assistant message that announces a newly selected property. */
  function Announcement(p: Property): string
  {
    "Now focusing on " + p.title + " at " + p.address + AnnouncementTail
  }

  predicate UniqueIds(ms: seq<ChatMessage>)
  {
    forall i, j :: 0 <= i < j < |ms| ==> ms[i].id != ms[j].id
  }

  predicate IdUnused(ms: seq<ChatMessage>, id: string)
  {
    forall i :: 0 <= i < |ms| ==> ms[i].id != id
  }

  /** A message whose id is not in use keeps the ids unique when appended. */
  lemma AppendFreshId(ms: seq<ChatMessage>, m: ChatMessage)
    requires UniqueIds(ms) && IdUnused(ms, m.id)
    ensures UniqueIds(ms + [m])
  {
  }

  // ---------------------------------------------------------------------------
  // Focus announcement

  /** An assistant message that mentions the title. */
  predicate Mentions(m: ChatMessage, title: string)
  {
    m.role == Assistant && Includes(m.content, title)
  }

  /** `prev.some(...)`, scanned front to back: some assistant message already mentions the title. */
  function AlreadySummarized(prev: seq<ChatMessage>, title: string): (found: bool)
    ensures found <==> exists i | 0 <= i < |prev| :: Mentions(prev[i], title)
  {
    if prev == [] then false
    else Mentions(prev[0], title) || AlreadySummarized(prev[1..], title)
  }

  /** The updater passed to `setMessages` when a property is selected. */
  function FocusUpdate(prev: seq<ChatMessage>, p: Property, id: string, now: int): (next: seq<ChatMessage>)
    ensures AlreadySummarized(prev, p.title) ==> next == prev
    ensures !AlreadySummarized(prev, p.title) ==>
      && |next| == |prev| + 1
      && next[..|prev|] == prev
      && next[|prev|] == ChatMessage(id, Assistant, Announcement(p), now)
  {
    if AlreadySummarized(prev, p.title) then prev
    else prev + [ChatMessage(id, Assistant, Announcement(p), now)]
  }

  /** After the update the title is always mentioned by an assistant message. */
  lemma FocusUpdateMentionsTitle(prev: seq<ChatMessage>, p: Property, id: string, now: int)
    ensures AlreadySummarized(FocusUpdate(prev, p, id, now), p.title)
  {
    var next := FocusUpdate(prev, p, id, now);
    if !AlreadySummarized(prev, p.title) {
      var rest := " at " + p.address + AnnouncementTail;
      assert Announcement(p) == "Now focusing on " + p.title + rest;
      IncludesInfix("Now focusing on ", p.title, rest);
      assert Mentions(next[|prev|], p.title);
    }
  }

  /** Selecting the same property again adds nothing, whatever id and time it gets. */
  lemma FocusUpdateIdempotent(prev: seq<ChatMessage>, p: Property, id1: string, now1: int, id2: string, now2: int)
    ensures FocusUpdate(FocusUpdate(prev, p, id1, now1), p, id2, now2) == FocusUpdate(prev, p, id1, now1)
  {
    FocusUpdateMentionsTitle(prev, p, id1, now1);
  }

  // ---------------------------------------------------------------------------
  // History window

  datatype HistoryEntry = HistoryEntry(role: Role, content: string)

  /** `s.slice(start)`: a negative start counts from the end, clamped to the bounds. */
  function SliceFrom<T>(s: seq<T>, start: int): seq<T>
  {
    var from := if start < 0 then (if |s| + start < 0 then 0 else |s| + start)
                else (if start > |s| then |s| else start);
    s[from..]
  }

  /** `messages.slice(-6).map(({ role, content }) => ({ role, content }))`. */
  function HistoryWindow(ms: seq<ChatMessage>): (h: seq<HistoryEntry>)
    ensures |h| == if |ms| < 6 then |ms| else 6
    ensures forall k :: 0 <= k < |h| ==>
      h[k] == HistoryEntry(ms[|ms| - |h| + k].role, ms[|ms| - |h| + k].content)
  {
    var recent := SliceFrom(ms, -6);
    seq(|recent|, k requires 0 <= k < |recent| => HistoryEntry(recent[k].role, recent[k].content))
  }

  // ---------------------------------------------------------------------------
  // Replacing a message by id

  /** `prev.map((message) => (message.id === id ? updated : message))`. */
  function ReplaceById(ms: seq<ChatMessage>, id: string, updated: ChatMessage): (r: seq<ChatMessage>)
    ensures |r| == |ms|
    ensures forall i :: 0 <= i < |ms| ==> r[i] == if ms[i].id == id then updated else ms[i]
  {
    if ms == [] then []
    else [if ms[0].id == id then updated else ms[0]] + ReplaceById(ms[1..], id, updated)
  }

  /** An id that no message carries changes nothing. */
  lemma ReplaceAbsentId(ms: seq<ChatMessage>, id: string, updated: ChatMessage)
    requires IdUnused(ms, id)
    ensures ReplaceById(ms, id, updated) == ms
  {
    var r := ReplaceById(ms, id, updated);
    assert forall i | 0 <= i < |ms| :: r[i] == ms[i];
  }

  /**
   * With unique ids, replacing by the id of message `k` changes that message
   * only: the length and every other message stay as they were.
   */
  lemma ReplaceUniqueId(ms: seq<ChatMessage>, k: nat, updated: ChatMessage)
    requires UniqueIds(ms) && k < |ms|
    ensures ReplaceById(ms, ms[k].id, updated) == ms[k := updated]
  {
    var r := ReplaceById(ms, ms[k].id, updated);
    assert forall i | 0 <= i < |ms| :: r[i] == ms[k := updated][i];
  }

  /** Replacing by the id of a freshly appended message changes that message only. */
  lemma ReplaceAppended(ms: seq<ChatMessage>, m: ChatMessage, updated: ChatMessage)
    requires IdUnused(ms, m.id)
    ensures ReplaceById(ms + [m], m.id, updated) == ms + [updated]
  {
    var r := ReplaceById(ms + [m], m.id, updated);
    assert forall i | 0 <= i < |ms| + 1 :: r[i] == (ms + [updated])[i];
  }

  // ---------------------------------------------------------------------------
  // Submitting

  /**
   * What the network does with one submission: `fetch` rejects, the status is
   * not OK, there is no body reader, or the body yields chunks (and `read`
   * may reject after them).
   */
  datatype Reply =
    | FetchRejected
    | NotOk
    | NoReader
    | Streamed(chunks: seq<string>, readRejected: bool)

  /** The assistant messages a reply leaves behind, after the user message. */
  function ReplyMessages(reply: Reply, id: string, at: int): seq<ChatMessage>
  {
    match reply
    case NotOk => [ChatMessage(id, Assistant, Apology, at)]
    case Streamed(chunks, _) => [ChatMessage(id, Assistant, Concat(chunks), at)]
    case _ => []
  }

  /** A reply whose promise rejects never reaches `setIsStreaming(false)`. */
  predicate LeavesStreaming(reply: Reply)
  {
    reply.FetchRejected? || (reply.Streamed? && reply.readRejected)
  }

  /** The JSON body of the request: `message`, `history` and `property`. */
  datatype OutgoingRequest = OutgoingRequest(message: string, history: seq<HistoryEntry>, property: Option<Property>)

  class ChatPanel {
    var messages: seq<ChatMessage>
    var input: string
    var isStreaming: bool

    /**
     * Every message keeps its own id, so a chunk update finds exactly one
     * message (ReplaceUniqueId) even if other messages were added while the
     * reply streams. The model runs a submission to its end in one call, so
     * its own steps need only that the reply's id is fresh (ReplaceAppended).
     */
    ghost predicate Valid()
      reads this
    {
      UniqueIds(messages)
    }

    constructor ()
      ensures Valid()
      ensures messages == [] && input == "" && !isStreaming
    {
      messages := [];
      input := "";
      isStreaming := false;
    }

    /** The focus-announcement effect, run when the selected property changes. */
    method SelectProperty(selected: Option<Property>, id: string, now: int)
      requires Valid() && IdUnused(messages, id)
      modifies this
      ensures Valid()
      ensures selected.None? ==> messages == old(messages)
      ensures selected.Some? ==> messages == FocusUpdate(old(messages), selected.value, id, now)
      ensures input == old(input) && isStreaming == old(isStreaming)
    {
      if selected.None? {
        return;
      }
      messages := FocusUpdate(messages, selected.value, id, now);
    }

    /** The text area's `onChange`. */
    method ChangeInput(value: string)
      modifies this
      ensures input == value
      ensures messages == old(messages) && isStreaming == old(isStreaming)
    {
      input := value;
    }

    /** The submit button's `disabled`: streaming, or nothing but whitespace typed. */
    function SubmitDisabled(): (disabled: bool)
      reads this
      ensures disabled <==> isStreaming || AllWhitespace(input)
    {
      TrimEmptyIff(input);
      isStreaming || |Trim(input)| == 0
    }

    /**
     * The success path of `handleSubmit`: one empty assistant message is
     * appended, then each chunk is added to its content, found by its id.
     */
    method StreamReply(chunks: seq<string>, replyId: string, replyAt: int)
      requires Valid() && IdUnused(messages, replyId)
      modifies this`messages
      ensures Valid()
      ensures messages == old(messages) + [ChatMessage(replyId, Assistant, Concat(chunks), replyAt)]
    {
      var assistant := ChatMessage(replyId, Assistant, "", replyAt);
      ghost var before := messages;
      messages := messages + [assistant];
      var i := 0;
      while i < |chunks|
        invariant 0 <= i <= |chunks|
        invariant assistant == ChatMessage(replyId, Assistant, Concat(chunks[..i]), replyAt)
        invariant messages == before + [assistant]
      {
        var updated := assistant.(content := assistant.content + chunks[i]);
        ReplaceAppended(before, assistant, updated);
        messages := ReplaceById(messages, assistant.id, updated);
        ConcatSnoc(chunks[..i], chunks[i]);
        assert chunks[..i + 1] == chunks[..i] + [chunks[i]];
        assistant := updated;
        i := i + 1;
      }
      assert chunks[..|chunks|] == chunks;
      AppendFreshId(before, assistant);
    }

    /**
     * How `handleSubmit` ends once the user message is in: the reply's
     * messages are appended and streaming stops unless a promise rejected.
     */
    method SettleReply(reply: Reply, replyId: string, replyAt: int)
      requires Valid() && IdUnused(messages, replyId)
      modifies this
      ensures Valid()
      ensures messages == old(messages) + ReplyMessages(reply, replyId, replyAt)
      ensures isStreaming == (if LeavesStreaming(reply) then old(isStreaming) else false)
      ensures input == old(input)
    {
      match reply
      case FetchRejected =>
        return;
      case NotOk =>
        isStreaming := false;
        messages := messages + [ChatMessage(replyId, Assistant, Apology, replyAt)];
      case NoReader =>
        isStreaming := false;
      case Streamed(chunks, readRejected) =>
        StreamReply(chunks, replyId, replyAt);
        if readRejected {
          return;
        }
        isStreaming := false;
    }

    /**
     * `handleSubmit`, driven to its end by `reply`. `sent` is the request body
     * handed to `fetch`, None when no request is made.
     */
    method HandleSubmit(selected: Option<Property>, userId: string, userAt: int,
                        reply: Reply, replyId: string, replyAt: int)
      returns (sent: Option<OutgoingRequest>)
      requires Valid()
      requires IdUnused(messages, userId) && IdUnused(messages, replyId) && userId != replyId
      modifies this
      ensures Valid()
      ensures AllWhitespace(old(input)) ==>
        && sent == None
        && messages == old(messages) && input == old(input) && isStreaming == old(isStreaming)
      ensures !AllWhitespace(old(input)) ==>
        && sent == Some(OutgoingRequest(Trim(old(input)), HistoryWindow(old(messages)), selected))
        && messages == old(messages) + [ChatMessage(userId, User, Trim(old(input)), userAt)]
                       + ReplyMessages(reply, replyId, replyAt)
        && input == ""
        && isStreaming == LeavesStreaming(reply)
    {
      TrimEmptyIff(input);
      var trimmed := Trim(input);
      if |trimmed| == 0 {
        return None;
      }
      var userMessage := ChatMessage(userId, User, trimmed, userAt);
      // the request is built from the messages of the render that ran the handler
      var history := HistoryWindow(messages);
      messages := messages + [userMessage];
      input := "";
      isStreaming := true;
      sent := Some(OutgoingRequest(trimmed, history, selected));
      SettleReply(reply, replyId, replyAt);
    }
  }
}
