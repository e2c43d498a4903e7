# Atlas Agent chat pipeline — a Dafny model

Atlas Agent is a real-estate exploration UI with a streaming AI chat assistant
scoped to the selected property. This project models the two pieces of it
that hold logic of their own:

- **The chat request handler** (`src/app/api/chat/route.ts`, module
  `ChatRoute`). It checks the provider credential first and only then the
  message. It keeps the history entries whose `role` and `content` are both
  strings. It renders the selected property into a context string with
  numbered highlights. It composes the provider message list: persona, context,
  history, then the user message. It relays the provider's non-empty deltas in
  arrival order. `Post` is a method with the handler's early returns. The
  provider is a parameter (`ProviderReply`): it either refuses the request or
  streams a sequence of deltas, and it may fail part-way.
- **The chat panel** (`src/app/components/ChatPanel.tsx`, module
  `ChatPanelModel`). It is a class `ChatPanel` with the component's three
  pieces of state: `messages`, `input` and `isStreaming`.
  - `SelectProperty` runs the focus-announcement updater.
  - `ChangeInput` is the text area's `onChange`.
  - `SubmitDisabled` is the button's `disabled` condition.
  - `HandleSubmit` runs `handleSubmit` to its end. The network outcome is a
    parameter (`Reply`): `fetch` rejects, the status is not OK, there is no
    reader, or a chunk sequence arrives (and `read` may reject after it).
    Ids and timestamps are parameters too; the ids are fresh by precondition.
  - `StreamReply` is the chunk loop. It grows one assistant message, found
    by its id, one chunk at a time.

Supporting modules:
- `Text` holds the runtime string operations the code relies on: `join`,
  `includes`, `trim` (ECMAScript whitespace and line terminators) and the
  decimal rendering of integers. It also defines `SplitLines`, a reading of
  a string back into its lines at line breaks. The code never splits; the
  model uses it only to state that the context reads back as its lines.
- `JsValues` holds JSON values with `?.`, `typeof` and truthiness.
- `Listing` holds the property record.
- `ChatFlow` connects the two sides. It shows that a request the panel sends
  passes the handler's checks with its whole history kept.

The code does the following, which a reader might not expect, and the model follows it:
- The handler checks the credential before it parses or validates the body.
- The history filter accepts any string role, not only `user` and `assistant`.
- A message made only of spaces passes the handler's check (the panel trims,
  the handler does not).
- When `fetch` or `reader.read()` rejects, `handleSubmit` never reaches
  `setIsStreaming(false)`. The submit control then stays disabled:
  `HandleSubmit` ends with `isStreaming` true for those replies
  (`LeavesStreaming`).

## Model

| member | source | states |
|---|---|---|
| ChatRoute.NoPropertyContextIsFixed | src/app/api/chat/route.ts:6 | with no property the context is exactly "No property is currently selected." |
| ChatRoute.BuildPropertyContext | src/app/api/chat/route.ts:5-19 | with a property, the context is its lines joined by "\n": five description lines, the highlights heading, one line per highlight (one blank line when there are none) and the guidance line; the highlight block, itself joined by "\n", reads as those lines |
| ChatRoute.ContextSplitsIntoLines | src/app/api/chat/route.ts:5-19 | for single-line fields, splitting the context at "\n" gives back exactly its lines, so no field spills into another line |
| ChatRoute.ContextLinesShape | src/app/api/chat/route.ts:8-18 | the context has 7 + max(1, #highlights) lines, the first "Active focus: " + title, the last the guidance line, highlight i rendered as "(i+1). h" in list order |
| Text.DecimalRoundTrip | src/app/api/chat/route.ts:8 | the decimal rendering of a number in a template literal reads back as the same number |
| ChatRoute.ValidMessageIff | src/app/api/chat/route.ts:30-32 | the message check passes exactly for a non-empty string |
| ChatRoute.WellFormedEntryIff | src/app/api/chat/route.ts:35 | an entry passes the filter exactly when it is an object whose role and content are strings, whatever the role says |
| ChatRoute.FilterEntries | src/app/api/chat/route.ts:34-36 | an entry is kept exactly when it is in the history and well formed; nothing is added |
| ChatRoute.FilterHistory | src/app/api/chat/route.ts:34-36 | a non-array history becomes empty; every forwarded entry is well formed |
| ChatRoute.FilterEntriesAppend | src/app/api/chat/route.ts:35 | filtering a concatenation is the concatenation of the filtered parts, so kept entries keep their relative order |
| ChatRoute.FilterEntriesKeepsWellFormed | src/app/api/chat/route.ts:35 | a history of well-formed entries is forwarded unchanged |
| ChatRoute.ComposeMessages | src/app/api/chat/route.ts:42-53 | the provider list has 2 + #history + 1 entries: the persona system message, the system message "Context for current property focus:\n" + context, the history unchanged, then the user message |
| ChatRoute.ComposedMessagesWellFormed | src/app/api/chat/route.ts:34-53 | every message handed to the provider has a string role and a string content |
| ChatRoute.Relayed | src/app/api/chat/route.ts:68-73 | the relayed chunks are never empty and are no more than the deltas |
| ChatRoute.RelayedAppend | src/app/api/chat/route.ts:68-73 | relaying a concatenation of delta runs relays each run in turn, so arrival order is kept |
| ChatRoute.RelayLosesNoText | src/app/api/chat/route.ts:68-73 | the concatenated body equals the concatenation of all delta contents: skipping empty deltas drops no text |
| ChatRoute.Relay | src/app/api/chat/route.ts:67-73 | the loop enqueues exactly the relayed chunks, in order |
| ChatRoute.HasApiKey | src/app/api/chat/route.ts:22 | the key check passes exactly when the variable is set and not empty, since an unset variable is `undefined` and `""` is falsy |
| ChatRoute.Post | src/app/api/chat/route.ts:21-91 | a missing key gives 500 before the body is read; unparseable JSON escapes as an exception; an invalid message gives 400; none of these calls the provider; otherwise the provider gets the composed list and a refused call gives 500 while a stream relays the non-empty deltas and errors if the provider failed mid-way |
| ChatPanelModel.AlreadySummarized | src/app/components/ChatPanel.tsx:27-29 | scanning the list front to back finds a match exactly when some message is an assistant message whose content includes the title |
| ChatPanelModel.FocusUpdate | src/app/components/ChatPanel.tsx:26-41 | if an assistant message already mentions the title the list is unchanged, otherwise exactly one announcement is appended at the end and the earlier messages are unchanged |
| ChatPanelModel.FocusUpdateMentionsTitle | src/app/components/ChatPanel.tsx:27-40 | after the update some assistant message mentions the title |
| ChatPanelModel.FocusUpdateIdempotent | src/app/components/ChatPanel.tsx:26-41 | selecting the same property again adds nothing |
| ChatPanelModel.HistoryWindow | src/app/components/ChatPanel.tsx:69 | the history sent is the last min(6, #messages) messages, oldest first, reduced to role and content |
| ChatPanelModel.ReplaceById | src/app/components/ChatPanel.tsx:110 | the update keeps the length, and each message is replaced by the updated one exactly when its id matches, every other message unchanged |
| ChatPanelModel.ReplaceAbsentId | src/app/components/ChatPanel.tsx:110 | an update for an id no message carries leaves the list unchanged |
| ChatPanelModel.ReplaceAppended | src/app/components/ChatPanel.tsx:102-110 | replacing by the id of the message appended last, whose id no earlier message carries, yields the earlier messages followed by the updated one |
| ChatPanelModel.ReplaceUniqueId | src/app/components/ChatPanel.tsx:110 | with unique ids the update by id replaces that one message; the length and every other message are unchanged |
| Text.Trim | src/app/components/ChatPanel.tsx:50 | the trimmed input is no longer than the input and, when not empty, neither starts nor ends with ECMAScript whitespace or a line terminator |
| Text.TrimEmptyIff | src/app/components/ChatPanel.tsx:50-51 | the trimmed input is empty exactly when the input is all whitespace |
| Text.TrimIsCore | src/app/components/ChatPanel.tsx:50 | the trimmed input is a contiguous slice of the input with only whitespace cut on either side, and it neither starts nor ends with whitespace |
| Text.TrimIdempotent | src/app/components/ChatPanel.tsx:50 | trimming twice is trimming once |
| ChatPanelModel.ChatPanel.constructor | src/app/components/ChatPanel.tsx:18-20 | the panel starts with no messages, empty input, not streaming |
| ChatPanelModel.ChatPanel.SelectProperty | src/app/components/ChatPanel.tsx:23-42 | with no selection nothing changes; otherwise the list becomes the focus update of the old list; ids stay unique |
| ChatPanelModel.ChatPanel.ChangeInput | src/app/components/ChatPanel.tsx:153 | typing replaces the input and nothing else |
| ChatPanelModel.ChatPanel.SubmitDisabled | src/app/components/ChatPanel.tsx:160 | the submit control is disabled exactly when streaming or the input is all whitespace |
| ChatPanelModel.ChatPanel.StreamReply | src/app/components/ChatPanel.tsx:94-113 | one empty assistant message is appended, and after the chunks its content is their concatenation while every earlier message is unchanged |
| ChatPanelModel.ChatPanel.HandleSubmit | src/app/components/ChatPanel.tsx:48-116 | all-whitespace input changes nothing and sends nothing; otherwise the trimmed user message is appended, the input cleared, the request carries the trimmed text and the history window of the list before the append, a non-OK reply adds the apology, no reader adds nothing, a stream adds one message holding all chunks, and streaming ends unless a promise rejected |
| ChatPanelModel.ChatPanel.SettleReply | src/app/components/ChatPanel.tsx:74-115 | after the user message, the reply's messages are appended (apology for a non-OK reply, none without a reader, one accumulated message for a stream), streaming ends unless a promise rejected, and the input is untouched |
| ChatFlow.PanelRequestAccepted | src/app/components/ChatPanel.tsx:64-72 | a request the panel sends passes the handler's message check and the handler's filter keeps every history entry in order |

## Left out

- The OpenAI client, `fetch` and the `ReadableStream`/reader plumbing are network I/O. They are parameters here: the provider's reply, the response status, whether a reader exists, and the chunk sequence.
- The model name, `temperature` and `top_p` are constants passed to the provider with no logic around them; they are not modelled, nor is the `console.error` logging.
- `TextEncoder`/`TextDecoder` (UTF-8 per RFC 3629, including characters split across chunks) are library code; chunks are already-decoded strings.
- `crypto.randomUUID` and `Date.now` are parameters; fresh ids are a precondition.
- React rendering, effect scheduling and `scrollIntoView` have no behaviour to state. The model runs a submission to its end in one call, so a property selection that lands while a reply is streaming is not interleaved; `ReplaceUniqueId` is what keeps such an interleaving safe in the source.
- The request body is taken as the three destructured fields with `property` already shaped like a property record. A JSON body of `null` (a destructuring exception) and a malformed property object are not modelled.
- Strings are sequences of Unicode scalar values here, while JavaScript strings are sequences of UTF-16 code units. `trim`, `includes` and `length === 0` answer the same on well-formed text; a string holding a lone surrogate cannot be represented.
- The property's `beds`, `baths` and `area` are non-negative integers here, and numbers inside request bodies are integers. Fractional bath counts, `NaN` and floating-point rendering are not modelled.
- After a provider failure mid-stream the handler calls `controller.error` and then `controller.close`. The model records only that the stream ends in an error.
- `Post`: the provider's reply is an independent parameter, so the model does not relate the reply's content to the messages sent.
- `src/app/components/MapView.tsx` (a wrapper over the Google Maps widget with floating-point bounds), `src/app/components/PropertyList.tsx` (declarative markup and style tables), `src/app/page.tsx` (layout and one `find` by id), `src/app/layout.tsx` and `tailwind.config.ts` (configuration) are not part of this model. The property data file is not part of this model either.
