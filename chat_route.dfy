/**
 * The chat request handler: it checks the provider credential, then the
 * message, keeps the well-formed history entries, renders the selected
 * property into a context string, composes the provider message list and
 * relays the provider's non-empty deltas as the response body.
 *
 * The long fixed texts below are written as concatenations of short pieces,
 * which keeps the verifier's reasoning about their characters cheap; each
 * joins to one line of text.
 */
module ChatRoute {
  import opened Wrappers
  import opened Text
  import opened JsValues
  import opened Listing

  const NoPropertyContext: string := "No property is currently selected."

  /** The closing guidance line. */
  const Guidance: string :=
    "Provide " + "contextual " + "knowledge about " + "nearby transit, " + "school scores, "
      + "rental comps, " + "walkscore, " + "permit climate, " + "and negotiation " + "tactics."

  /** The persona system message. */
  const SystemPrompt: string :=
    "You are Atlas " + "Agent, an elite " + "real estate AI " + "strategist " + "helping buyers "
      + "evaluate San " + "Francisco " + "properties. " + "Blend macro " + "market "
      + "intelligence " + "with " + "micro-level " + "insights like " + "block-by-block "
      + "desirability, " + "proptech " + "metrics, nearby " + "development " + "pipelines, and "
      + "financing " + "angles. Offer " + "candid " + "guidance, " + "actionable " + "steps, and "
      + "always end with " + "a proactive " + "follow-up " + "suggestion."

  const ContextHeader: string := "Context for current property focus:\n"

  // ---------------------------------------------------------------------------
  // Property context

  /** Highlight `i` (from 0) rendered as `"<i + 1>. <highlight>"`. */
  function NumberedHighlights(highlights: seq<string>): seq<string>
  {
    seq(|highlights|, i requires 0 <= i < |highlights| => NatToString(i + 1) + ". " + highlights[i])
  }

  function ConfigurationLine(p: Property): string
  {
    "Configuration: " + NatToString(p.beds) + " beds | " + NatToString(p.baths) + " baths | "
      + NatToString(p.area) + " sqft"
  }

  /** The seven parts `buildPropertyContext` joins, the highlights as one numbered block. */
  function ContextParts(p: Property): seq<string>
  {
    [ "Active focus: " + p.title,
      "Address: " + p.address,
      "Status: " + StatusText(p.status),
      "List price: " + p.price,
      ConfigurationLine(p),
      "Key highlights:\n" + Join(NumberedHighlights(p.highlights), "\n"),
      Guidance ]
  }

  /**
   * `buildPropertyContext`: the fixed sentence without a property, otherwise
   * the property's ContextLines joined by line breaks.
   */
  function BuildPropertyContext(property: Option<Property>): (context: string)
    ensures property.Some? ==> context == Join(ContextLines(property.value), "\n")
  {
    match property
    case None => NoPropertyContext
    case Some(p) =>
      ContextPartsAreLines(p);
      Join(ContextParts(p), "\n")
  }

  /** The text fields of a property that end up in the context hold no line break. */
  predicate SingleLineFields(p: Property)
  {
    NoNewline(p.title) && NoNewline(p.address) && NoNewline(p.price)
    && forall i :: 0 <= i < |p.highlights| ==> NoNewline(p.highlights[i])
  }

  /**
   * The lines a reader sees in the context of a property: five description
   * lines, the highlights heading, one line per highlight (a single blank line
   * when there is none) and the guidance line.
   */
  function ContextLines(p: Property): seq<string>
  {
    [ "Active focus: " + p.title,
      "Address: " + p.address,
      "Status: " + StatusText(p.status),
      "List price: " + p.price,
      ConfigurationLine(p),
      "Key highlights:" ]
    + (if p.highlights == [] then [""] else NumberedHighlights(p.highlights))
    + [Guidance]
  }

  lemma NoPropertyContextIsFixed()
    ensures BuildPropertyContext(None) == "No property is currently selected."
  {
  }

  /** The highlight block embedded in one part reads as its own lines. */
  lemma ContextPartsAreLines(p: Property)
    ensures Join(ContextParts(p), "\n") == Join(ContextLines(p), "\n")
  {
    var head := [ "Active focus: " + p.title, "Address: " + p.address, "Status: " + StatusText(p.status),
                  "List price: " + p.price, ConfigurationLine(p) ];
    var numbered := NumberedHighlights(p.highlights);
    var block := if p.highlights == [] then [""] else numbered;
    assert Join(block, "\n") == Join(numbered, "\n");
    var rendered := "Key highlights:" + "\n" + Join(block, "\n");
    assert "Key highlights:\n" + Join(numbered, "\n") == rendered;
    JoinEmbeddedBlock(head, "Key highlights:", block, Guidance);
    assert ContextParts(p) == head + [rendered, Guidance];
    assert ContextLines(p) == head + ["Key highlights:"] + block + [Guidance];
  }

  /** The fixed parts of the context lines hold no line break. */
  lemma FixedLinePartsSingleLine(p: Property)
    ensures NoNewline("Active focus: ") && NoNewline("Address: ") && NoNewline("Status: ")
    ensures NoNewline(StatusText(p.status)) && NoNewline("List price: ") && NoNewline("Key highlights:")
    ensures NoNewline("Configuration: ") && NoNewline(" beds | ") && NoNewline(" baths | ") && NoNewline(" sqft")
  {
  }

  lemma GuidanceSingleLine()
    ensures NoNewline(Guidance)
  {
  }

  lemma ContextLinesSingleLine(p: Property)
    requires SingleLineFields(p)
    ensures forall i :: 0 <= i < |ContextLines(p)| ==> NoNewline(ContextLines(p)[i])
  {
    var lines := ContextLines(p);
    FixedLinePartsSingleLine(p);
    GuidanceSingleLine();
    NatToStringNoNewline(p.beds);
    NatToStringNoNewline(p.baths);
    NatToStringNoNewline(p.area);
    var numbered := NumberedHighlights(p.highlights);
    var block := if p.highlights == [] then [""] else numbered;
    assert lines == lines[..6] + block + [Guidance];
    forall i | 0 <= i < |block| ensures NoNewline(block[i]) {
      if p.highlights != [] {
        NatToStringNoNewline(i + 1);
        assert block[i] == NatToString(i + 1) + ". " + p.highlights[i];
      }
    }
    forall i | 0 <= i < |lines| ensures NoNewline(lines[i]) {
      if 6 <= i < |lines| - 1 {
        assert lines[i] == block[i - 6];
      }
    }
  }

  /**
   * With single-line fields, splitting the context at line breaks gives
   * exactly its ContextLines.
   */
  lemma ContextSplitsIntoLines(p: Property)
    requires SingleLineFields(p)
    ensures SplitLines(BuildPropertyContext(Some(p))) == ContextLines(p)
  {
    ContextLinesSingleLine(p);
    SplitJoin(ContextLines(p));
  }

  /**
   * The context lines open with the focus line, close with the guidance line,
   * and number the highlights from 1 in list order.
   */
  lemma ContextLinesShape(p: Property)
    ensures |ContextLines(p)| == 7 + (if p.highlights == [] then 1 else |p.highlights|)
    ensures ContextLines(p)[0] == "Active focus: " + p.title
    ensures ContextLines(p)[|ContextLines(p)| - 1] == Guidance
    ensures forall i :: 0 <= i < |p.highlights| ==>
      ContextLines(p)[6 + i] == NatToString(i + 1) + ". " + p.highlights[i]
  {
    assert |NumberedHighlights(p.highlights)| == |p.highlights|;
  }

  // ---------------------------------------------------------------------------
  // Request validation and history

  /**
   * `process.env.OPENAI_API_KEY` is truthy: an unset variable is `undefined`,
   * so only a set, non-empty key passes.
   */
  function HasApiKey(apiKey: Option<string>): (present: bool)
    ensures present <==> apiKey.Some? && |apiKey.value| > 0
  {
    apiKey.Some? && Truthy(Str(apiKey.value))
  }

  /** The negation of the handler's `!message || typeof message !== "string"`. */
  predicate ValidMessage(message: JsValue)
  {
    !(!Truthy(message) || TypeOf(message) != "string")
  }

  /** Only a non-empty string is an acceptable message. */
  lemma ValidMessageIff(message: JsValue)
    ensures ValidMessage(message) <==> message.Str? && message.s != ""
  {
    StringTypeIsStr(message);
  }

  /** A history entry the filter keeps: both `role` and `content` are strings. */
  predicate WellFormedEntry(entry: JsValue)
  {
    TypeOf(Field(entry, "role")) == "string" && TypeOf(Field(entry, "content")) == "string"
  }

  /** Any object with string `role` and `content` passes, whatever the role says. */
  lemma WellFormedEntryIff(entry: JsValue)
    ensures WellFormedEntry(entry) <==>
      entry.Obj? && "role" in entry.fields && entry.fields["role"].Str?
      && "content" in entry.fields && entry.fields["content"].Str?
  {
    StringTypeIsStr(Field(entry, "role"));
    StringTypeIsStr(Field(entry, "content"));
  }

  /** `history.filter(...)` over the items of an array. */
  function FilterEntries(items: seq<JsValue>): (kept: seq<JsValue>)
    ensures |kept| <= |items|
    ensures forall e :: e in kept <==> e in items && WellFormedEntry(e)
  {
    if items == [] then []
    else (if WellFormedEntry(items[0]) then [items[0]] else []) + FilterEntries(items[1..])
  }

  /** The conversation history the handler forwards; a non-array becomes empty. */
  function FilterHistory(history: JsValue): (kept: seq<JsValue>)
    ensures !history.Arr? ==> kept == []
    ensures forall e :: e in kept ==> WellFormedEntry(e)
  {
    if history.Arr? then FilterEntries(history.items) else []
  }

  /** Filtering is done entry by entry, so the kept entries stay in their order. */
  lemma {:induction false} FilterEntriesAppend(a: seq<JsValue>, b: seq<JsValue>)
    ensures FilterEntries(a + b) == FilterEntries(a) + FilterEntries(b)
  {
    if a == [] {
      assert a + b == b;
    } else {
      assert (a + b)[1..] == a[1..] + b;
      FilterEntriesAppend(a[1..], b);
    }
  }

  /** A history made only of well-formed entries is forwarded unchanged. */
  lemma {:induction false} FilterEntriesKeepsWellFormed(items: seq<JsValue>)
    requires forall i :: 0 <= i < |items| ==> WellFormedEntry(items[i])
    ensures FilterEntries(items) == items
  {
    if items != [] {
      FilterEntriesKeepsWellFormed(items[1..]);
    }
  }

  // ---------------------------------------------------------------------------
  // Provider messages

  /** The `messages` array sent to the provider. */
  function ComposeMessages(history: seq<JsValue>, context: string, message: string): (msgs: seq<JsValue>)
    ensures |msgs| == 2 + |history| + 1
    ensures msgs[0] == RoleContent("system", SystemPrompt)
    ensures msgs[1] == RoleContent("system", ContextHeader + context)
    ensures msgs[2..|msgs| - 1] == history
    ensures msgs[|msgs| - 1] == RoleContent("user", message)
  {
    [RoleContent("system", SystemPrompt), RoleContent("system", ContextHeader + context)]
      + history + [RoleContent("user", message)]
  }

  /** Every message the provider receives has a string role and a string content. */
  lemma ComposedMessagesWellFormed(history: JsValue, context: string, message: string)
    ensures var msgs := ComposeMessages(FilterHistory(history), context, message);
      forall i :: 0 <= i < |msgs| ==> WellFormedEntry(msgs[i])
  {
    var kept := FilterHistory(history);
    var msgs := ComposeMessages(kept, context, message);
    forall i | 0 <= i < |msgs| ensures WellFormedEntry(msgs[i]) {
      if 2 <= i < |msgs| - 1 {
        assert msgs[i] == msgs[2..|msgs| - 1][i - 2];
        assert msgs[i] in kept;
      }
    }
  }

  // ---------------------------------------------------------------------------
  // Relaying the provider stream

  /** `chunk.choices?.[0]?.delta?.content` of one provider chunk, as text. */
  function DeltaText(delta: Option<string>): string
  {
    if delta.Some? then delta.value else ""
  }

  function DeltaTexts(deltas: seq<Option<string>>): seq<string>
  {
    if deltas == [] then [] else [DeltaText(deltas[0])] + DeltaTexts(deltas[1..])
  }

  /** The chunks the handler enqueues: the truthy delta contents, in arrival order. */
  function Relayed(deltas: seq<Option<string>>): (sent: seq<string>)
    ensures |sent| <= |deltas|
    ensures forall i :: 0 <= i < |sent| ==> sent[i] != ""
  {
    if deltas == [] then []
    else (if DeltaText(deltas[0]) != "" then [DeltaText(deltas[0])] else []) + Relayed(deltas[1..])
  }

  lemma {:induction false} RelayedAppend(a: seq<Option<string>>, b: seq<Option<string>>)
    ensures Relayed(a + b) == Relayed(a) + Relayed(b)
  {
    if a == [] {
      assert a + b == b;
    } else {
      assert (a + b)[1..] == a[1..] + b;
      RelayedAppend(a[1..], b);
    }
  }

  /** Skipping empty deltas loses no text: the body is all the delta text. */
  lemma {:induction false} RelayLosesNoText(deltas: seq<Option<string>>)
    ensures Concat(Relayed(deltas)) == Concat(DeltaTexts(deltas))
  {
    if deltas != [] {
      RelayLosesNoText(deltas[1..]);
      var first := if DeltaText(deltas[0]) != "" then [DeltaText(deltas[0])] else [];
      ConcatAppend(first, Relayed(deltas[1..]));
      ConcatAppend([DeltaText(deltas[0])], DeltaTexts(deltas[1..]));
      assert Concat([DeltaText(deltas[0])]) == DeltaText(deltas[0]) + Concat([]);
    }
  }

  /** The `for await` loop inside the response stream's `start`. */
  method Relay(deltas: seq<Option<string>>) returns (sent: seq<string>)
    ensures sent == Relayed(deltas)
  {
    sent := [];
    var i := 0;
    while i < |deltas|
      invariant 0 <= i <= |deltas|
      invariant sent == Relayed(deltas[..i])
    {
      var content := DeltaText(deltas[i]);
      if content != "" {
        sent := sent + [content];
      }
      RelayedAppend(deltas[..i], [deltas[i]]);
      assert deltas[..i + 1] == deltas[..i] + [deltas[i]];
      i := i + 1;
    }
    assert deltas[..|deltas|] == deltas;
  }

  // ---------------------------------------------------------------------------
  // The handler

  /** The destructured JSON body: `message`, `history` and `property`. */
  datatype ChatRequest = ChatRequest(message: JsValue, history: JsValue, property: Option<Property>)

  /** What the provider does with the request: refuse it, or stream deltas (and maybe fail mid-way). */
  datatype ProviderReply =
    | CreateFailed
    | Completion(deltas: seq<Option<string>>, interrupted: bool)

  /**
   * The handler's response: a JSON error with a status, a plain-text stream
   * (which ends in an error when the provider failed mid-way), or an exception
   * the handler does not catch.
   */
  datatype HttpResponse =
    | JsonError(status: nat, error: string)
    | TextStream(chunks: seq<string>, errored: bool)
    | Unhandled

  /**
   * `POST`. `body` is None when the request body is not valid JSON. The second
   * result is the message list handed to the provider, None when it is never called.
   */
  method Post(apiKey: Option<string>, body: Option<ChatRequest>, provider: ProviderReply)
    returns (response: HttpResponse, providerCall: Option<seq<JsValue>>)
    ensures !HasApiKey(apiKey) ==>
      response == JsonError(500, "Missing OPENAI_API_KEY") && providerCall == None
    ensures HasApiKey(apiKey) && body.None? ==> response == Unhandled && providerCall == None
    ensures HasApiKey(apiKey) && body.Some? && !ValidMessage(body.value.message) ==>
      response == JsonError(400, "Invalid message") && providerCall == None
    ensures HasApiKey(apiKey) && body.Some? && ValidMessage(body.value.message) ==>
      && providerCall == Some(ComposeMessages(FilterHistory(body.value.history),
                                              BuildPropertyContext(body.value.property),
                                              body.value.message.s))
      && response == match provider
                     case CreateFailed => JsonError(500, "Unable to generate response")
                     case Completion(deltas, interrupted) => TextStream(Relayed(deltas), interrupted)
    ensures response.JsonError? ==> response.status in {400, 500}
  {
    if !HasApiKey(apiKey) {
      return JsonError(500, "Missing OPENAI_API_KEY"), None;
    }
    if body.None? {
      return Unhandled, None;
    }
    var request := body.value;
    if !Truthy(request.message) || TypeOf(request.message) != "string" {
      return JsonError(400, "Invalid message"), None;
    }
    var history := FilterHistory(request.history);
    var context := BuildPropertyContext(request.property);
    var messages := ComposeMessages(history, context, request.message.s);
    providerCall := Some(messages);
    match provider
    case CreateFailed =>
      response := JsonError(500, "Unable to generate response");
    case Completion(deltas, interrupted) =>
      var chunks := Relay(deltas);
      response := TextStream(chunks, interrupted);
  }
}
