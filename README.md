# Streaming chat: search route and chat page

This project models the two sequential parts of a mock streaming chat.

The first is the search route's producer. It picks a canned reply for the
query with a first-match-wins keyword rule, and otherwise uses a fallback
that quotes the query. It splits the reply into single characters and emits
one server-sent-event record `data: {"content":c,"type":"stream"}` followed
by a blank line for each character. It then emits one
`data: {"type":"complete"}` record and closes the stream.

The second is the chat page. Its state is a class with the page's state
fields. `handleSendMessage` appends the user message and an empty streaming
AI message. It reads the response chunk by chunk. Each chunk is split on
newlines on its own, and every `data: ` line that parses and carries content
extends `fullResponse`. That value is mirrored into the AI message. At the
end of the stream the message is finalised and the session is prepended to a
history capped at 50 entries. On a failure the message gets a fixed error
text instead. Bookmarks are toggled by id, and history entries can be
reopened.

Modules, one file each:

- `Base`: `Option`.
- `Strings`: `startsWith`, `includes`, `split("\n")` and `split("")`.
- `Json`: string escaping as `JSON.stringify` writes it, and its inverse as `JSON.parse` reads it.
- `Wire`: record framing and the decoding of a body.
- `SearchRoute`: the producer.
- `Consumer`: the reader's per-chunk fold.
- `Conversation`: the message and history records and their list operations.
- `Page`: the page state, the `Send` transition and the class `Home`.
- `EndToEnd`: the producer and consumer composed.

The reader keeps no state between chunks, so a record split across two
chunks is lost. This is modelled as written: `Consumer.SplitRecordIsLost`
exhibits such a split. The end-to-end properties are stated for chunks that
hold whole records only.

## Model

| member | source | states |
|---|---|---|
| Strings.ContainsIffOccurs | src/app/api/v1/search/route.ts:13 | `includes` holds exactly when the keyword occurs at some position of the query |
| Strings.Contains | src/app/api/v1/search/route.ts:13 | `includes` finds the empty string in every text and never finds a keyword longer than the text |
| Strings.Units | src/app/api/v1/search/route.ts:65 | `split("")` gives one one-character string per position, in index order |
| Strings.ConcatUnits | src/app/api/v1/search/route.ts:65 | joining the units of `split("")` gives the reply back: nothing lost, reordered or duplicated |
| Strings.Lines | src/app/page.tsx:118 | `split("\n")` always gives at least one piece, a single empty one for the empty chunk |
| Strings.LinesHaveNoNewline | src/app/page.tsx:118 | no piece produced by `split("\n")` contains a newline |
| Strings.JoinLinesOfLines | src/app/page.tsx:118 | joining the pieces of `split("\n")` with newlines gives the chunk back |
| Strings.LinesOfJoinLines | src/app/page.tsx:118 | splitting a newline-join of newline-free lines gives exactly those lines |
| Strings.LinesCons | src/app/page.tsx:118 | a text that starts with a newline-free line and a newline splits into that line followed by the pieces of the rest |
| Json.EscapeChar | src/app/api/v1/search/route.ts:73-76 | each character is written as 1 to 6 characters, none of them a control character |
| Json.Escape | src/app/api/v1/search/route.ts:73-76 | an escaped string holds no control character and in particular no newline |
| Json.UnescapeEscapeChar | src/app/page.tsx:123 | reading back one escaped character, followed by anything, yields that character then the rest's reading |
| Json.UnescapeEscape | src/app/page.tsx:123 | `JSON.parse` of what `JSON.stringify` wrote gives back every string exactly |
| Json.Unescape | src/app/page.tsx:123 | reading a string literal's contents, when it succeeds, never gives a text longer than the literal |
| Wire.Payload | src/app/api/v1/search/route.ts:73-76 | a record's JSON payload never contains a newline, so each record's data sits on one line |
| Wire.ParsePayloadOfPayload | src/app/api/v1/search/route.ts:71-90 | parsing a serialised event gives back the event, for both record shapes |
| Wire.ParseLineShapes | src/app/page.tsx:121-123 | only a `data: ` line yields an event, and it yields completion exactly when its payload is the completion object |
| Wire.Frames | src/app/api/v1/search/route.ts:71-90 | record `i` is `data: `, the JSON of event `i`, and a blank line |
| Wire.ConcatFrames | src/app/api/v1/search/route.ts:71-90 | enqueueing the records one by one writes the body that is their concatenation |
| Wire.FrameLines | src/app/api/v1/search/route.ts:76 | a record followed by anything splits into its data line, an empty line, then the pieces of the rest |
| Wire.DecodeFrameAll | src/app/api/v1/search/route.ts:71-90 | splitting a body of records on newlines and parsing each `data: ` line recovers exactly the emitted events, in order |
| SearchRoute.FirstMatch | src/app/api/v1/search/route.ts:11-62 | the rule lookup finds nothing exactly when no rule's keywords occur in the query |
| SearchRoute.GenerateReply | src/app/api/v1/search/route.ts:11-62 | the reply is never empty, so the stream carries at least one content record before completion |
| SearchRoute.GenerateReplyIsFirstMatch | src/app/api/v1/search/route.ts:11-62 | the reply is the template of the first matching rule in priority order, else the fallback |
| SearchRoute.MeetingRuleWins | src/app/api/v1/search/route.ts:13-29 | a query with "定例" or "会議" gets the meeting reply verbatim, whatever else it contains |
| SearchRoute.TechRuleApplies | src/app/api/v1/search/route.ts:31-49 | a query with "技術" or "開発" but no meeting keyword gets the technology reply verbatim |
| SearchRoute.FallbackWhenNoRuleMatches | src/app/api/v1/search/route.ts:51-61 | a query with none of the four keywords gets the fallback reply |
| SearchRoute.FallbackEchoesQuery | src/app/api/v1/search/route.ts:52 | the fallback quotes the query verbatim between 「 and 」, and its first line is that quotation when the query has no newline |
| SearchRoute.StreamEvents | src/app/api/v1/search/route.ts:65-92 | the route writes one more event than the reply has characters |
| SearchRoute.CompleteIsLastAndOnly | src/app/api/v1/search/route.ts:83-92 | exactly one `complete` event is written, and it is the last |
| SearchRoute.ContentsOfStreamEvents | src/app/api/v1/search/route.ts:65-79 | the contents of the written events, in order, are exactly the reply |
| SearchRoute.StreamResponse | src/app/api/v1/search/route.ts:66-93 | the emitter loop, with `currentIndex` rising by one per stream record and never passing the unit count, enqueues the stream records in index order, then the completion record, then stops |
| SearchRoute.Post | src/app/api/v1/search/route.ts:3-97 | the body decodes to the reply's events, there is one record more than the reply has characters, and their contents are the reply |
| Consumer.ReadLine | src/app/page.tsx:121-140 | a line yields content exactly when it is a `data: ` line that parses to an event with non-empty content; other lines, parse failures and `complete` yield nothing |
| Consumer.LineContentOfStream | src/app/page.tsx:121-126 | a line adds text only when it is a `data: ` line parsing to a stream event, and then exactly that event's content |
| Consumer.ContentlessLinesAddNothing | src/app/page.tsx:120-140 | lines that are not `data: ` lines, do not parse, or carry no content add nothing to `fullResponse` |
| Consumer.LinesTextIsContents | src/app/page.tsx:120-141 | what a chunk's lines add is the contents of the events they decode to |
| Consumer.ChunkTextOfRecords | src/app/page.tsx:117-141 | a chunk made of whole records adds exactly the records' contents |
| Consumer.AccumulatedCons | src/app/page.tsx:113-142 | reading a first chunk, then the rest, adds that chunk's text then the rest's |
| Consumer.AccumulatedAppend | src/app/page.tsx:113-142 | reading more chunks appends what they carry to what was already read |
| Consumer.AccumulatedSnoc | src/app/page.tsx:113-142 | reading one more chunk appends exactly that chunk's own text |
| Consumer.AccumulatedPrefix | src/app/page.tsx:113-142 | after one more pass of the read loop, `fullResponse` is the earlier value followed by the new chunk's text |
| Consumer.AccumulatedGrows | src/app/page.tsx:111-127 | `fullResponse` only grows: its earlier value is a prefix of every later one |
| Consumer.SplitRecordIsLost | src/app/page.tsx:113-142 | the record for any one-character content, cut after its opening quote and delivered in two chunks, adds nothing, so its character is lost |
| Conversation.Title | src/app/page.tsx:154-156 | the title is the query when it has at most 50 characters; otherwise it is the first 50 characters followed by "...", and it never exceeds 53 |
| Conversation.Committed | src/app/page.tsx:163 | the new session is at the head, the history keeps at most 50 entries, and the tail is the old history cut to 49 |
| Conversation.CommitAllKeepsNewest | src/app/page.tsx:163 | after several commits the history is the newest sessions first, then the old history, cut to 50: the oldest are evicted first |
| Conversation.WithContent | src/app/page.tsx:129-135 | the streaming update replaces the content of the messages with the AI id and leaves every other message as it was |
| Conversation.Finalized | src/app/page.tsx:144-150 | finalising sets content and `isStreaming: false` on the messages with the AI id only |
| Conversation.WithContentChangesOnlyContent | src/app/page.tsx:129-135 | any number of streaming updates change nothing but the AI message's content |
| Conversation.WithContentOverwrites | src/app/page.tsx:127-135 | each streaming update overwrites the previous one: the AI message shows exactly the latest non-empty `fullResponse` |
| Conversation.FinalizedOverwritesContent | src/app/page.tsx:144-150 | finalising after streaming updates gives the same list as finalising the list from before them |
| Conversation.Bookmarked | src/app/page.tsx:184 | `some` holds exactly when some bookmark has the id |
| Conversation.WithoutId | src/app/page.tsx:186 | `filter` keeps exactly the bookmarks with other ids, and keeps ids unique |
| Conversation.WithoutIdAppend | src/app/page.tsx:186 | `filter` keeps order: filtering a concatenation is the concatenation of the filtered parts |
| Conversation.WithoutAbsentId | src/app/page.tsx:184-186 | filtering out an id that no bookmark has changes nothing |
| Conversation.WithoutIdAppended | src/app/page.tsx:186-188 | removing the id of a message just appended to a list without it gives the list back |
| Conversation.ToggleFlipsMembership | src/app/page.tsx:182-191 | a toggle flips whether the message's id is bookmarked and keeps every other id's membership |
| Conversation.ToggleTwice | src/app/page.tsx:182-191 | toggling twice restores every id's membership, and restores the very list when the id was absent |
| Conversation.ToggleKeepsIdsUnique | src/app/page.tsx:182-191 | toggling keeps bookmark ids unique |
| Page.BlankQueryChangesNothing | src/app/page.tsx:72 | an empty or white-space-only query changes no state |
| Page.SendCommitsSession | src/app/page.tsx:144-163 | at normal end of stream the AI message holds `fullResponse` and stops streaming, other messages are untouched, and exactly one session [user message, final AI message] is prepended to the capped history |
| Page.SendFailureRecordsNothing | src/app/page.tsx:164-179 | on a failure the AI message holds the fixed error text and stops streaming, the history is unchanged, and searching stops |
| Page.Home.constructor | src/app/page.tsx:21-29 | the state fields start as the `useState` initial values |
| Page.Home.SetQuery | src/app/page.tsx:506 | typing replaces the query and nothing else |
| Page.Home.HandleSendMessage | src/app/page.tsx:71-180 | the new state is the `Send` transition of the old state for the transport |
| Page.Home.ReadStream | src/app/page.tsx:109-142 | the read loop ends with `fullResponse` equal to the text of all chunks, mirrored into `streamingMessage` and into the AI message, which is left as it was only when no text arrived; nothing but that message's content changes |
| Page.Home.ReadLines | src/app/page.tsx:118-141 | the line loop appends the text of the chunk's lines, in order, to `fullResponse`, and the AI message then shows the grown `fullResponse` |
| Page.Home.ReadOneLine | src/app/page.tsx:121-136 | a line with content appends it to `fullResponse` and writes the result into `streamingMessage` and the AI message; any other line changes nothing |
| Page.Home.ToggleBookmark | src/app/page.tsx:182-191 | only the bookmarks change, to the toggled list |
| Page.Home.IsBookmarked | src/app/page.tsx:193-195 | true exactly when some bookmark has the id |
| Page.Home.HandleHistoryClick | src/app/page.tsx:197-200 | the messages become the session's messages and the chat tab is shown; nothing else changes |
| Page.Home.StartNewChat | src/app/page.tsx:202-205 | the messages are emptied and the chat tab is shown; history and bookmarks stay |
| EndToEnd.AccumulatedOfRecordChunks | src/app/page.tsx:113-142 | chunks made of whole records deliver exactly the contents of all the records |
| EndToEnd.AccumulatedOfFrames | src/app/page.tsx:113-142 | one record per chunk delivers exactly the contents of the records |
| EndToEnd.ExchangeDeliversReply | src/app/page.tsx:71-163 | with record-aligned chunks of the route's records, the finished AI message and the session's copy hold exactly the reply the route generated |
| EndToEnd.OneChunkPerRecord | src/app/page.tsx:113-150 | when every record arrives as its own chunk, the AI message ends holding the route's reply |
| EndToEnd.Converse | src/app/page.tsx:71-180 | after the route answers and the page reads the answer, the AI message and the newest session hold the route's reply and searching has stopped |

## Left out

- JSX rendering, `MessageBubble` and the scroll effect: these are UI only.
- `fetch`, `ReadableStream`, `getReader`, `TextEncoder`/`TextDecoder`, `request.json` and the response headers are runtime calls. The page receives the chunks already decoded, together with a flag saying whether the exchange throws after them (`Transport`).
- `decode(value)` without `stream: true` can split a multi-byte UTF-8 character across chunks. This is not modelled.
- A `query` that is not a string in the request body is not modelled.
- The `setTimeout` pacing and the random delays are timing and floating point, and do not affect order. The emitter's self-rescheduling is the loop of `SearchRoute.StreamResponse`.
- The `localStorage` load and persist effects and the `Date` rehydration are browser storage.
- `Date.now()` ids and timestamps are clock readings passed in (`Clock`). The user message's reading must not be later than the AI message's, so the AI id (that reading plus one) differs from the user id.
- React state batching and async interleaving are not modelled. The `setX` calls are sequential assignments.
- `streamingMessage` is kept up to date but its rendering is not modelled.
- `JSON.parse` is modelled only as far as the two record shapes the route writes. Any other JSON on a `data: ` line is treated as a parse failure, so the reader drops it. A payload such as `{"content":"x"}` without `type` would add content in the source but is not recognised here.
- Strings are sequences of Unicode scalar values, not UTF-16 code units. `split("")`, `slice(0, 50)` and `length` on text with surrogate pairs count differently in the source.
- `isStreaming` is an optional field: `None` on user messages, `Some(true)` while streaming, `Some(false)` once finalised.
- `ChatMessage.type` is named `sender` (`User` or `Ai`), because `type` is a keyword.
