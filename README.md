# Verified model of three agent demos

This project models the checkable logic inside three small services of an
AI-demo repository. Everything around that logic is glue to external services,
and the model leaves it out.

- **`search_and_rerank`** (`rag-mcp-server/main.py`) is an MCP tool. It embeds
  the query, runs a vector search, pairs every retrieved document with the query,
  scores the pairs with a cross-encoder, sorts them by score (highest first) and
  returns the first `top_k`. Failures become one of two error strings.
  `rerank.dfy` (module `RerankServer`) models it as a pure function. The
  embedding, search and scoring results are inputs: an outcome, a search function
  and a predict function. Scores have any type with a total preorder. Python's
  `sorted(..., reverse=True)` is a stable insertion sort there. The model proves
  that the sort is sorted, a permutation and stable. It also proves that these
  three properties determine the sort's result uniquely.
- **The Cloudflare Worker `fetch` handler**
  (`cloudflare-workers-openai-agent/src/index.ts`) is covered by four files:
  - `router.dfy` (module `WorkerRouter`): the routing and validation decision chain, as a pure function.
  - `json.dfy` (module `JsonText`): JSON values, JavaScript truthiness, and `JSON.stringify` of strings with an inverse decoder.
  - `sse.dfy` (module `EventStream`): the server-sent-event stream. A `StreamController` class stands for the `ReadableStream` controller and its queue: `chunks` is everything enqueued, `delivered` what the response's reader has taken, `queue` what still waits. The `Start` method is the `start(controller)` callback, and `Pump` is its `for await` loop. `Cancel` is the client cancelling the response stream. `PumpRefused` is the same loop once the stream no longer accepts chunks. A stream reader is proved to recover every payload and the final `[DONE]` marker.
- **The triplet demo loader** (`knowledge-graph-deep-dive/demo_triplets.py`) is
  `triplets.dfy` (module `DemoTriplets`). It holds the hand-written knowledge
  graph: 15 entity nodes, 17 edges and the list that pairs each edge with its
  two nodes. Alongside are the environment check for the Neo4j connection, the
  center-node queries, the progress labels, the submission loop and the top-N
  truncation of printed results.
  - The generated ids are an input sequence `uuids` (one per `uuid.uuid4()` call, in call order).
  - The edge timestamps are an input sequence `clock`, in edge order.

`wrappers.dfy` (module `Wrappers`) holds the `Option` type.

## Model

| member | source | states |
|---|---|---|
| RerankServer.Documents | rag-mcp-server/main.py:133 | The documents are the `text` values of the rows, in retrieval order, and have the rows' length. The list is produced exactly when every row has a `text` key. Otherwise the error is the KeyError message `'text'`. |
| RerankServer.Pairs | rag-mcp-server/main.py:137 | Definition of the pair list: its contract only gives its length and contents pointwise. What the pipeline promises about the pairs is stated by `PredictSeesQueryTextPairs` and `RankedReply`. |
| RerankServer.Zip | rag-mcp-server/main.py:143-146 | Python `zip`: the length is the shorter of the two inputs, and record `i` pairs `documents[i]` with `scores[i]`. |
| RerankServer.PrefixLength | rag-mcp-server/main.py:150 | The body is Python's slice-stop rule (a negative stop counts from the end, then it is clamped into `0..n`). The contract states the resulting length by cases: `min(k, n)` for `k >= 0`, and `max(n + k, 0)` for negative `k`. |
| RerankServer.Class | rag-mcp-server/main.py:147 | The records whose score equals a given score, in list order. They are never more than the list, and each has that score. |
| RerankServer.InsertMultiset | rag-mcp-server/main.py:147 | Inserting one record adds exactly that record to the multiset. |
| RerankServer.InsertSorted | rag-mcp-server/main.py:147 | Inserting into a list sorted highest-first keeps it sorted. |
| RerankServer.InsertClass | rag-mcp-server/main.py:147 | Insertion puts a record in front of every earlier-inserted record with an equal score. Every other score class is unchanged. |
| RerankServer.SortIsStableSortDesc | rag-mcp-server/main.py:147 | The sort's result is sorted by score, highest first, and is a permutation of its input. Records with equal scores keep their input order. |
| RerankServer.HeadsEquivalent | rag-mcp-server/main.py:147 | Two sorted permutations of one list start with equally scored records. |
| RerankServer.TailClassesAgree | rag-mcp-server/main.py:147 | Removing an equal first record from two lists keeps their score classes equal. |
| RerankServer.SortedPermutationsAgree | rag-mcp-server/main.py:147 | Two lists that are sorted, permutations of each other and equal score class by score class are identical. |
| RerankServer.StableSortDescUnique | rag-mcp-server/main.py:147 | A list is a stable highest-first sort of the input if and only if it is the sort's result. |
| RerankServer.TopKSpec | rag-mcp-server/main.py:147-150 | The cut list has the slice length. It is sorted and drawn from the scored records. It is a prefix of a stable sort of them. When `top_k` covers the whole list, it is that stable sort. |
| RerankServer.PrefixFacts | rag-mcp-server/main.py:150 | A prefix of a sorted list is sorted, and its multiset is contained in the list's. |
| RerankServer.EmbeddingFailureIsRequestError | rag-mcp-server/main.py:114-116 | A failed embedding gives `Error processing request: ` followed by its message. The search and predict functions play no part. |
| RerankServer.EmptySearchIsNoMatches | rag-mcp-server/main.py:129-131 | An empty search result gives exactly `No matching documents found`. Scoring plays no part. |
| RerankServer.SearchFailureIsSearchError | rag-mcp-server/main.py:152-154 | A failed search, a row without `text` or a failed prediction gives `Error searching documents: ` followed by that error's message. |
| RerankServer.RankedReply | rag-mcp-server/main.py:133-150 | After a successful search and scoring on the pairs `[query, row['text']]`, the reply is a ranked list. For `top_k >= 0` its length is `min(top_k, n)`, and for negative `top_k` it is `max(n + top_k, 0)`, where `n` is the shorter of the document and score counts. It is sorted and drawn from `zip(documents, scores)`. It is a prefix of that list's stable sort, and the whole stable sort when `top_k >= n`. |
| RerankServer.DefaultCallReply | rag-mcp-server/main.py:84 | With the defaults `match_count = 15` and `top_k = 15`, the search is asked for 15 rows. The reply is sorted and holds `min(15, n)` records, and it is the whole stable sort when at most 15 records were scored. |
| RerankServer.PredictSeesQueryTextPairs | rag-mcp-server/main.py:133-140 | The scorer is consulted only on the list of pairs `[query, row['text']]`, one per retrieved row, in row order. Two scorers that agree on that list give the same reply. |
| RerankServer.RankedOnlyOnSuccess | rag-mcp-server/main.py:98-158 | The reply is a ranked list if and only if the embedding, the search, the `text` extraction and the scoring all succeed and the search found rows. |
| RerankServer.SearchAndRerank | rag-mcp-server/main.py:98-158 | Definition of the tool, with no contract of its own. Its behaviour is stated by `EmbeddingFailureIsRequestError`, `EmptySearchIsNoMatches`, `SearchFailureIsSearchError`, `RankedReply`, `PredictSeesQueryTextPairs` and `RankedOnlyOnSuccess`. |
| RerankServer.Insert | rag-mcp-server/main.py:147 | Definition of one insertion step, with no contract of its own. See `InsertMultiset`, `InsertSorted` and `InsertClass`. |
| RerankServer.SortByScoreDesc | rag-mcp-server/main.py:147 | Definition of `sorted(..., reverse=True)` by score, with no contract of its own. `SortIsStableSortDesc` and `StableSortDescUnique` state it is the unique stable highest-first sort. |
| RerankServer.TopK | rag-mcp-server/main.py:147-150 | Definition of the sort followed by `[:top_k]`, with no contract of its own. See `TopKSpec`. |
| JsonText.HexDigit | cloudflare-workers-openai-agent/src/index.ts:121-125 | The hex digit written in a `\u00XX` escape reads back as its value. |
| JsonText.EscapeAllPrintable | cloudflare-workers-openai-agent/src/index.ts:121-125 | An escaped string contains no control character. |
| JsonText.QuoteHasNoLineBreak | cloudflare-workers-openai-agent/src/index.ts:121-133 | A quoted JSON string contains no CR or LF, so it cannot end an event-stream frame early. |
| JsonText.UnescapeTwoChar | cloudflare-workers-openai-agent/src/index.ts:121-125 | A two-character escape (`\b`, `\t`, `\n`, `\f`, `\r`, `\"`, `\\`) decodes to its code point. |
| JsonText.UnescapeControl | cloudflare-workers-openai-agent/src/index.ts:121-125 | A `\u00XX` escape of any other control character decodes to that character. |
| JsonText.UnescapeOne | cloudflare-workers-openai-agent/src/index.ts:121-125 | Decoding undoes the escape of any single code point. |
| JsonText.UnescapeEscapeAll | cloudflare-workers-openai-agent/src/index.ts:121-125 | Decoding an escaped string up to its closing quote gives the string back, with the rest of the input untouched. |
| JsonText.UnquoteQuote | cloudflare-workers-openai-agent/src/index.ts:121-133 | Round trip: unquoting `JSON.stringify(s)` followed by any text gives `s` and that text. |
| JsonText.Truthy | cloudflare-workers-openai-agent/src/index.ts:81 | Definition of JavaScript truthiness (used at index.ts:81, 94 and 109), with no contract of its own. See `WorkerRouter.AgentChecksInOrder` and `WorkerRouter.StreamingDefaultsToFalse`. |
| JsonText.Escape | cloudflare-workers-openai-agent/src/index.ts:121-133 | Definition of the escape that `JSON.stringify` writes for one character, with no contract of its own. See `UnescapeOne`. |
| JsonText.EscapeAll | cloudflare-workers-openai-agent/src/index.ts:121-133 | Definition of escaping a whole string, with no contract of its own. See `EscapeAllPrintable` and `UnescapeEscapeAll`. |
| JsonText.Quote | cloudflare-workers-openai-agent/src/index.ts:121-133 | Definition of `JSON.stringify` of a string, with no contract of its own. See `QuoteHasNoLineBreak` and `UnquoteQuote`. |
| EventStream.FramesOf | cloudflare-workers-openai-agent/src/index.ts:126 | One frame per payload. |
| EventStream.Frames | cloudflare-workers-openai-agent/src/index.ts:117-136 | Definition of the frames the loop enqueues for a list of events, with no contract of its own. See `FramesSnoc`, `FramesSplit`, `ChunksAreFrames` and `StreamRoundTrip`. |
| EventStream.TickPayloads | cloudflare-workers-openai-agent/src/index.ts:118-135 | Definition of the payloads of one loop iteration, none or one, with no contract of its own. See `HandleEvent` and `FramesSnoc`. |
| EventStream.PayloadsAppend | cloudflare-workers-openai-agent/src/index.ts:117-136 | Payloads follow event order: the payloads of concatenated events are the concatenated payloads. |
| EventStream.FramesOfAppend | cloudflare-workers-openai-agent/src/index.ts:126-134 | Frames of concatenated payloads are the concatenated frames. |
| EventStream.FramesSnoc | cloudflare-workers-openai-agent/src/index.ts:117-136 | One more event appends exactly that event's frames. |
| EventStream.SerializeHasNoLineBreak | cloudflare-workers-openai-agent/src/index.ts:121-133 | The serialized text and handoff payloads contain no line break. |
| EventStream.ChunksAreFrames | cloudflare-workers-openai-agent/src/index.ts:126-137 | A normally ended stream carries one chunk per payload plus one more. Every chunk is `data: ` + a line-break-free text + a blank line, and the last chunk is `data: [DONE]`. |
| EventStream.FramesOfAt | cloudflare-workers-openai-agent/src/index.ts:126-134 | Frame `i` is `data: ` + the JSON of payload `i` + `\n\n`. |
| EventStream.NoLineBreakAppend | cloudflare-workers-openai-agent/src/index.ts:121-133 | Joining two texts without line breaks gives a text without line breaks. |
| EventStream.ChunkIsFrame | cloudflare-workers-openai-agent/src/index.ts:126-137 | Each chunk, the `[DONE]` chunk included, is `data: ` + a line-break-free text + a blank line. |
| EventStream.LineEnd | cloudflare-workers-openai-agent/src/index.ts:126 | The position of the first line feed never lies past the end of the text. |
| EventStream.ReadFieldsQuoted | cloudflare-workers-openai-agent/src/index.ts:121-133 | The reader recovers both string fields of a serialized payload tail. |
| EventStream.ReadTextPayload | cloudflare-workers-openai-agent/src/index.ts:121-125 | A serialized text payload reads back as the same content and timestamp. |
| EventStream.ReadHandoffPayload | cloudflare-workers-openai-agent/src/index.ts:129-133 | A serialized handoff payload reads back as the same agent name and timestamp. |
| EventStream.ReadSerialize | cloudflare-workers-openai-agent/src/index.ts:121-133 | Every payload survives serialization. |
| EventStream.LineEndOfLine | cloudflare-workers-openai-agent/src/index.ts:126 | In a frame, the first line feed is the one right after the data. |
| EventStream.ReadFrame | cloudflare-workers-openai-agent/src/index.ts:126 | The reader strips `data: `, finds the data's end, and resumes right after the blank line. |
| EventStream.DataMessages | cloudflare-workers-openai-agent/src/index.ts:126-134 | One data message per payload. |
| EventStream.ReadStreamCons | cloudflare-workers-openai-agent/src/index.ts:126-137 | Reading a frame followed by more text gives that frame's message followed by the messages of the rest. |
| EventStream.ReadMessageSerialize | cloudflare-workers-openai-agent/src/index.ts:121-134 | The data of a payload frame reads as that payload and never as the `[DONE]` marker. |
| EventStream.ReadDoneFrame | cloudflare-workers-openai-agent/src/index.ts:137 | The final chunk reads as the `[DONE]` marker alone. |
| EventStream.ConcatCons | cloudflare-workers-openai-agent/src/index.ts:126-137 | The bytes of the chunk sequence are the first chunk followed by the rest. |
| EventStream.ReadStreamChunksOf | cloudflare-workers-openai-agent/src/index.ts:126-137 | Reading the frames of any payload list plus the `[DONE]` chunk gives those payloads in order, then the marker. |
| EventStream.StreamRoundTrip | cloudflare-workers-openai-agent/src/index.ts:117-138 | A client reading the whole stream gets one message per framed event, in event order, and then `[DONE]`. |
| EventStream.StreamController.constructor | cloudflare-workers-openai-agent/src/index.ts:114-115 | A new stream is readable and consistent, with nothing enqueued, queued or delivered. |
| EventStream.StreamController.Enqueue | cloudflare-workers-openai-agent/src/index.ts:126 | On a readable stream, `enqueue` appends exactly one chunk to the history and to the queue and delivers nothing. It throws exactly when the stream is not readable, and then changes nothing. |
| EventStream.StreamController.Cancel | cloudflare-workers-openai-agent/src/index.ts:145 | The reader cancelling a readable stream (the client disconnecting) resets the queue and leaves the stream cancelled, so nothing more is delivered. Every later `enqueue` throws. On a stream that is not readable it does nothing. |
| EventStream.StreamController.Close | cloudflare-workers-openai-agent/src/index.ts:138 | `close` closes the stream and keeps the queued chunks for the reader. |
| EventStream.StreamController.Error | cloudflare-workers-openai-agent/src/index.ts:140 | `error` on a readable stream errors it and resets the queue, so the chunks not yet read are never delivered. What was delivered stays delivered. On a stream that is no longer readable it does nothing. |
| EventStream.StreamController.Read | cloudflare-workers-openai-agent/src/index.ts:145 | The response's reader takes the oldest queued chunk. What it has taken is always a prefix of what was enqueued (`Valid`). |
| EventStream.HandleEvent | cloudflare-workers-openai-agent/src/index.ts:118-135 | One loop iteration on a readable stream appends exactly the event's frames: a text frame for a run item with string content, a handoff frame for an agent update, nothing otherwise. On a stream that is not readable it changes nothing, and it throws exactly when the event has a frame. |
| EventStream.FramesStep | cloudflare-workers-openai-agent/src/index.ts:117-136 | The frames of the first `i + 1` events are those of the first `i` events followed by event `i`'s frames. |
| EventStream.FramesAfter | cloudflare-workers-openai-agent/src/index.ts:117-136 | `FramesStep` with any chunks before the frames. |
| EventStream.FramesSplit | cloudflare-workers-openai-agent/src/index.ts:117-136 | The frames of a list of events are the frames of a prefix followed by the frames of the rest. |
| EventStream.Pump | cloudflare-workers-openai-agent/src/index.ts:117-136 | The loop leaves the stream readable, holding exactly the frames of the delivered events in event order after what it held before. |
| EventStream.PumpRefused | cloudflare-workers-openai-agent/src/index.ts:117-136 | On a stream that is no longer readable, the loop changes nothing. It leaves by a thrown `enqueue` exactly when some remaining event has a frame. |
| EventStream.Start | cloudflare-workers-openai-agent/src/index.ts:115-142 | Without a cancel, a normal end leaves the stream closed, with every event's frames in order and then `[DONE]` appended to both the history and the queue. A failing iterator leaves it errored: the frames so far are in the history, but the queue is empty, so unread frames are never delivered and no `[DONE]` is sent. When the client cancels after `c` events, the history holds exactly the frames of those `c` events, the queue is empty and the stream stays cancelled: the `catch` cannot error it, and no `[DONE]` is sent. |
| EventStream.FrameIsNotDone | cloudflare-workers-openai-agent/src/index.ts:126-137 | A payload's frame is never the `[DONE]` frame: its data starts with `{`, the marker with `[`. |
| EventStream.DoneIsNoPayloadFrame | cloudflare-workers-openai-agent/src/index.ts:126-137 | No event's frame is the `[DONE]` frame, so only the normal end sends the marker. |
| EventStream.PayloadOf | cloudflare-workers-openai-agent/src/index.ts:118-135 | Definition of the per-event branch, with no contract of its own: a run item with string content gives a text payload, an agent update a handoff payload, anything else nothing. See `HandleEvent` and `StreamRoundTrip`. |
| EventStream.Payloads | cloudflare-workers-openai-agent/src/index.ts:117-136 | Definition of the payloads of an event list, with no contract of its own. See `PayloadsAppend` and `StreamRoundTrip`. |
| EventStream.Serialize | cloudflare-workers-openai-agent/src/index.ts:121-133 | Definition of `JSON.stringify` of the two payload objects, with no contract of its own. See `SerializeHasNoLineBreak` and `ReadSerialize`. |
| EventStream.Frame | cloudflare-workers-openai-agent/src/index.ts:126 | Definition of `` `data: ${data}\n\n` ``, with no contract of its own. See `ChunksAreFrames` and `ReadFrame`. |
| EventStream.StreamChunks | cloudflare-workers-openai-agent/src/index.ts:117-137 | Definition of the frames of a whole event list followed by the `[DONE]` frame (`DoneFrame`, index.ts:137), with no contract of its own. See `ChunksAreFrames` and `StreamRoundTrip`. |
| WorkerRouter.TestEndpoint | cloudflare-workers-openai-agent/src/index.ts:30-47 | `GET /api/test` returns 200 with JSON and CORS headers. The body echoes the message, timestamp, method and path. `userAgent` appears exactly when the header is present and not empty. |
| WorkerRouter.HealthEndpoint | cloudflare-workers-openai-agent/src/index.ts:50-59 | `GET /health` returns 200, `status: healthy` and the timestamp, with only a JSON content type. |
| WorkerRouter.AgentChecksInOrder | cloudflare-workers-openai-agent/src/index.ts:64-104 | The checks run in order: an unparseable body gives 400 `Invalid JSON in request body`, a falsy message then gives 400 `Message is required`, and a missing key then gives 500 `OpenAI API key not configured`. A `null` body fails the destructuring and gives the 500 failure reply. |
| WorkerRouter.AgentRunsOnlyAfterChecks | cloudflare-workers-openai-agent/src/index.ts:62-107 | Unless all checks pass on `POST /api/agent`, the response does not depend on what the agent would do. |
| WorkerRouter.NonStreamingReply | cloudflare-workers-openai-agent/src/index.ts:153-167 | Without streaming, a finished run gives 200 and `{output}`. A throwing run gives the failure reply. |
| WorkerRouter.StreamingDefaultsToFalse | cloudflare-workers-openai-agent/src/index.ts:79 | With no `streaming` field the request is not streamed. |
| WorkerRouter.OutputFallsBackToEmpty | cloudflare-workers-openai-agent/src/index.ts:158 | The output is `''` exactly when `finalOutput` is absent or empty, and `finalOutput` otherwise. |
| WorkerRouter.FailureDetails | cloudflare-workers-openai-agent/src/index.ts:168-180 | The failure reply is 500 `Failed to process agent request`. Its details are the Error's message, or `Unknown error` for a thrown non-Error. |
| WorkerRouter.StreamingReply | cloudflare-workers-openai-agent/src/index.ts:109-152 | With a truthy `streaming`, a started run gives 200 with the event-stream headers and the run's event stream. A run that throws before streaming gives the failure reply. |
| WorkerRouter.OptionsIsPreflight | cloudflare-workers-openai-agent/src/index.ts:184-192 | Any unmatched OPTIONS request gets the CORS preflight with a null body. |
| WorkerRouter.NotFoundExactlyWhenUnmatched | cloudflare-workers-openai-agent/src/index.ts:195-207 | The status is 404 if and only if no route and no OPTIONS matched. A 404 body lists the three endpoints. |
| WorkerRouter.PostToTestIsNotFound | cloudflare-workers-openai-agent/src/index.ts:195-207 | `POST /api/test` is a 404 with a JSON content type only. |
| WorkerRouter.Route | cloudflare-workers-openai-agent/src/index.ts:26-208 | Definition of `fetch`, with no contract of its own. It is stated by the `WorkerRouter` lemmas above. |
| WorkerRouter.HandleAgent | cloudflare-workers-openai-agent/src/index.ts:62-181 | Definition of the `POST /api/agent` branch, with no contract of its own. See `AgentChecksInOrder`, `AgentRunsOnlyAfterChecks`, `NonStreamingReply` and `StreamingReply`. |
| WorkerRouter.Destructure | cloudflare-workers-openai-agent/src/index.ts:79 | Definition of `const { message, streaming = false } = body`, with no contract of its own. A `null` body throws, and a missing `streaming` defaults to `false`. See `StreamingDefaultsToFalse` and `AgentChecksInOrder`. |
| WorkerRouter.KeyConfigured | cloudflare-workers-openai-agent/src/index.ts:94 | Definition of the API-key check, with no contract of its own. See `AgentChecksInOrder`. |
| WorkerRouter.ErrorReply | cloudflare-workers-openai-agent/src/index.ts:68-103 | Definition of the JSON error replies with their CORS origin header, with no contract of its own. See `AgentChecksInOrder`. |
| WorkerRouter.AgentFailure | cloudflare-workers-openai-agent/src/index.ts:168-180 | Definition of the outer `catch` reply, with no contract of its own. See `FailureDetails`. |
| WorkerRouter.Details | cloudflare-workers-openai-agent/src/index.ts:172 | Definition of `error instanceof Error ? error.message : 'Unknown error'`, with no contract of its own. See `FailureDetails`. |
| WorkerRouter.OutputText | cloudflare-workers-openai-agent/src/index.ts:158 | Definition of the `finalOutput` fallback to the empty string, with no contract of its own. See `OutputFallsBackToEmpty`. |
| WorkerRouter.TestDoc | cloudflare-workers-openai-agent/src/index.ts:31-37 | Definition of the `/api/test` document, with no contract of its own. See `TestEndpoint`. |
| DemoTriplets.Slot | knowledge-graph-deep-dive/demo_triplets.py:90-104 | Every entity takes one of the 15 generated ids. |
| DemoTriplets.Name | knowledge-graph-deep-dive/demo_triplets.py:107-213 | Definition of the fifteen node names, with no contract of its own. See `CenterQueriesNameNodes`. |
| DemoTriplets.Summary | knowledge-graph-deep-dive/demo_triplets.py:107-213 | Definition of the fifteen node summaries, with no contract of its own. |
| DemoTriplets.Node | knowledge-graph-deep-dive/demo_triplets.py:107-213 | Definition of the `EntityNode(...)` literal of an entity: its generated uuid, name, summary and group `ai_demo`, with no contract of its own. See `NodeIdsDistinct` and `TripletsWellFormed`. |
| DemoTriplets.SlotInjective | knowledge-graph-deep-dive/demo_triplets.py:90-104 | No two entities take the same `uuid4()` call. |
| DemoTriplets.Uuid | knowledge-graph-deep-dive/demo_triplets.py:90-104 | Definition of the `*_uuid` variables: an entity's id is the result of its own `uuid4()` call, with no contract of its own. See `SlotInjective` and `NodeIdsDistinct`. |
| DemoTriplets.Distinct | knowledge-graph-deep-dive/demo_triplets.py:90-104 | Definition of what the script relies on from `uuid4()`: no two calls give the same id. It is a hypothesis of `NodeIdsDistinct` and `EdgesDistinct`, not something proved. |
| DemoTriplets.Edges | knowledge-graph-deep-dive/demo_triplets.py:216-262 | Edge `i` is in group `ai_demo`. It joins the ids of row `i`'s two entities and carries the `i`-th clock reading and row `i`'s name and fact. |
| DemoTriplets.LinksInRange | knowledge-graph-deep-dive/demo_triplets.py:265-283 | Every entry of `triplets` indexes an existing edge. |
| DemoTriplets.Triplets | knowledge-graph-deep-dive/demo_triplets.py:265-283 | Entry `i` is the listed source node, the listed edge and the listed target node. |
| DemoTriplets.WellFormedTriplet | knowledge-graph-deep-dive/demo_triplets.py:216-283 | Definition of a well-formed triplet: the edge's source and target ids are the ids of its two nodes, and all three are in group `ai_demo`. It has no contract of its own. See `TripletsWellFormed`. |
| DemoTriplets.LinksMatchEdgeRows | knowledge-graph-deep-dive/demo_triplets.py:216-283 | There are 17 entries and 17 edges. Entry `i` uses `edges[i]`, and its nodes are the entities that edge was created between. |
| DemoTriplets.TripletsWellFormed | knowledge-graph-deep-dive/demo_triplets.py:107-283 | Every triplet carries the edge with its own index. The edge's source and target ids are the ids of the paired nodes, and all three carry group `ai_demo`. |
| DemoTriplets.NodeIdsDistinct | knowledge-graph-deep-dive/demo_triplets.py:90-104 | When the generated ids are distinct, two nodes share an id exactly when they are the same entity. |
| DemoTriplets.EdgeRowEndpointsDistinct | knowledge-graph-deep-dive/demo_triplets.py:216-262 | No two edges join the same ordered pair of entities. |
| DemoTriplets.EdgesDistinct | knowledge-graph-deep-dive/demo_triplets.py:216-262 | When the generated ids are distinct, two different edges differ in their source id or their target id. |
| DemoTriplets.EachEdgeInOneTriplet | knowledge-graph-deep-dive/demo_triplets.py:265-283 | Triplet `i` carries `edges[j]` if and only if `i == j`, so each edge is submitted exactly once, in index order. |
| DemoTriplets.UseOf | knowledge-graph-deep-dive/demo_triplets.py:265-283 | For each entity, an entry of `triplets` that names it as source or target. |
| DemoTriplets.EveryEntityUsed | knowledge-graph-deep-dive/demo_triplets.py:265-283 | Every one of the 15 node ids is submitted as the source or the target of some triplet. |
| DemoTriplets.Digit | knowledge-graph-deep-dive/demo_triplets.py:286 | The character of a decimal digit, which reads back as that digit. |
| DemoTriplets.Decimal | knowledge-graph-deep-dive/demo_triplets.py:286 | `str(n)` is a non-empty string of decimal digits with no leading zero. |
| DemoTriplets.DecimalValue | knowledge-graph-deep-dive/demo_triplets.py:286 | Reading `str(n)` back gives `n`. |
| DemoTriplets.ProgressLabels | knowledge-graph-deep-dive/demo_triplets.py:285-286 | One label per triplet, numbered from 1. |
| DemoTriplets.ProgressLabel | knowledge-graph-deep-dive/demo_triplets.py:286 | Definition of `Adding triplet {i+1}/17: {source.name} -> {target.name}`, with no contract of its own. See `ProgressTotalIsTripletCount`. |
| DemoTriplets.ProgressTotalIsTripletCount | knowledge-graph-deep-dive/demo_triplets.py:265-286 | The `17` written into every progress label is the length of `triplets`. |
| DemoTriplets.GraphSession.constructor | knowledge-graph-deep-dive/demo_triplets.py:68 | A new session has received no triplets and printed nothing. |
| DemoTriplets.GraphSession.Print | knowledge-graph-deep-dive/demo_triplets.py:286 | Printing appends one line and submits nothing. |
| DemoTriplets.GraphSession.AddTriplet | knowledge-graph-deep-dive/demo_triplets.py:287 | `add_triplet` records exactly one more triplet and prints nothing. |
| DemoTriplets.AddAll | knowledge-graph-deep-dive/demo_triplets.py:285-287 | The loop submits every triplet once, in list order, and prints their labels in the same order. |
| DemoTriplets.EnvGet | knowledge-graph-deep-dive/demo_triplets.py:50-52 | Definition of `os.environ.get(key, default)`: the variable's value when it is set, the default otherwise. What the script promises with it is stated by `LoadConfig`. |
| DemoTriplets.LoadConfig | knowledge-graph-deep-dive/demo_triplets.py:50-55 | ValueError `NEO4J_URI, NEO4J_USER, and NEO4J_PASSWORD must be set` is raised if and only if one of the three variables is set to the empty string. Otherwise the three values are non-empty, each the variable's value or its default. |
| DemoTriplets.DefaultConfig | knowledge-graph-deep-dive/demo_triplets.py:50-52 | With nothing set, the script connects to `bolt://localhost:7687` as `neo4j` with password `password`. |
| DemoTriplets.CenterQueries | knowledge-graph-deep-dive/demo_triplets.py:328-333 | Definition of the four center-query tuples, with no contract of its own. See `CenterQueriesNameNodes`. |
| DemoTriplets.CenterQueriesNameNodes | knowledge-graph-deep-dive/demo_triplets.py:328-333 | Each of the four center queries names the id and the name of a graph node: Claude, OpenAI, Transformer Architecture, Dario Amodei. |
| DemoTriplets.Shown | knowledge-graph-deep-dive/demo_triplets.py:310-358 | `results[:limit]` is a prefix of the results. Its length is the limit, or all results when there are fewer. |
| DemoTriplets.ShownLimits | knowledge-graph-deep-dive/demo_triplets.py:310-358 | At most 3 results are printed per basic query (line 310), at most 4 per center query (line 343) and at most 3 per multi-hop query (line 358). Fewer are printed only when the search returned fewer. |

## Left out

- The OpenAI embedding call, the Supabase `match_documents_reranking` RPC and the CrossEncoder `predict` are foreign calls. They are inputs: an outcome, a search function and a predict function.
- `float(score)` and the numeric meaning of scores are left out. Scores are any values under a total preorder, so NaN is not modelled.
- The `str()` rendering of the returned list is left out. The ranked reply is the record list itself.
- `collection_name` appears only in log lines and is never passed to the search. The model therefore has no such parameter.
- Logging, `print`, `console.error`, the `JSON.stringify(…, null, 2)` indentation and key order of response objects, and `TextEncoder` are left out. Response bodies are JSON values. Only the stream payloads are serialized as text, with fields in the order that the Worker's streaming object literals (`index.ts:121-133`) list them.
- `JsonText.UnescapeBody` refuses `\u` escapes of surrogate code points. `JSON.stringify` never writes those for the strings the model uses, and `char` cannot hold a lone surrogate.
- `new URL(request.url)` parsing is left out. The request carries its pathname.
- `new Date().toISOString()` is a `now` or `at` input.
- `setDefaultOpenAIKey` is left out.
- The agent SDK `run` is a function from message to result or thrown value.
- The streamed run is a finite list of events plus how the iteration ended.
- `new ReadableStream` calls `start` synchronously, before `new Response` is built. Its `for await` loop then continues after the response has been returned, concurrently with the client reading. The model runs `Start` to the end without interleaved reads, so `delivered` is unchanged by it. Reads happen through `StreamController.Read`, before or after `Start`. The one client action during the loop that the model does capture is a cancel: `Start`'s `cancel` parameter says after how many events it happens.
- EventStream.StreamController.Close: in the Streams standard, a close with chunks still queued leaves the stream readable until they are read. The model marks it closed at once. Nothing in `start` tells the two apart, because nothing is enqueued after `close`. A cancel that arrives in that window is not modelled.
- The MCP server lifespan, transport choice and KeyboardInterrupt task cancellation (`rag-mcp-server/main.py:160-180`) are left out. They are process lifecycle and concurrency.
- `rag-mcp-server/test.py` is not part of this model. It is a connectivity probe.
- `iteractive-agentic-applications/app/page.tsx` and `app/api/chat/route.ts` are not part of this model. They are UI and a thin wrapper over `streamText`.
- `cloudflare-workers-openai-agent/src/agents.ts` is not part of this model. It is agent configuration.
- All Graphiti behaviour is left out: `build_indices_and_constraints`, `clear_data`, how `add_triplet` stores data, `search` ranking and center-node distance reranking, and `close`. `GraphSession` only records the triplets it receives. The model assumes `add_triplet` never raises. If it did, the loop would stop after printing the failing triplet's label, and `finally` would close the session.
- The printing loops over search results (`demo_triplets.py:305-317, 335-345, 355-359`) are reduced to the truncation `Shown`.
- `uuid.uuid4()` and `datetime.now(timezone.utc)` are inputs. `Distinct` states what the script relies on from `uuid4`.
- `load_dotenv` is left out. The model reads the environment after `.env` is merged in.
- DemoTriplets.EveryEntityUsed: states that each entity's id appears in a triplet rather than that the whole node value does. Given `Distinct`, the id identifies the node (`NodeIdsDistinct`).

- EventStream.StreamController.Error: the controller's error steps reset the queue. The model captures this: `queue` becomes empty, so unread chunks are never delivered. `chunks` is the history of what was enqueued, not what the client reads. After an error, the client has read only the prefix `delivered` of `chunks`.
- EventStream.Start: on a failing iterator the frames enqueued so far stay in `chunks` but not in `queue`. A client receives only those it read before the error. How many that is depends on the timing of the concurrent reads, which the model does not capture.
