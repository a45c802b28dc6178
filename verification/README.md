# A Dafny model of the SwiftLM gateway and dashboard

This project models the stateful and stream-processing parts of the SwiftLM platform and proves what they
keep over every input and every run: the gateway that queues requests for one local engine, the pipeline that
carries server-sent events from the engine to the browser, the incremental Markdown renderer of the page, the
signed node requests with their nonce cache, and the dashboard's store and the handlers that change it.

Each module has the same shape. The source's operations are functions on values, with the branches, limits and
error answers of the code; what the source promises is proved about these functions, over whole runs where it
speaks of runs. Beside them stand methods and classes in the source's own imperative form, with its loops, its
fields and its statement order, each proved equal to the functions. Text is a sequence of characters, clocks and
random identifiers are parameters, and tables are maps from primary keys.

- `Text`: white space, trimming, splitting and joining, folding of newlines.
- `Markdown`, `MarkdownWriter`, `MarkdownStream`, `MarkdownCuts`, `MarkdownExact`, `MarkdownLimits`: the block
  renderer and the author's side of it, the splitter for growing text and the streaming renderer; exactly when
  streaming agrees with one rendering.
- `Sse`, `Events`, `ChatStream`, `Proxy`, `Upstream`, `JsonLaws`: the event reader that appears four times in the
  repository and the sender's side of it, the chat handler of the dashboard, the reader in the page, and the
  streaming proxy.
- `Scheduler`, `JobRecords`, `RecentLog`: the gateway's queue, what the record of a job says, and its request log.
- `NodeAuth`: nonce cache, signatures and their checks.
- `Store`, `StoreLaws`, `SqliteStore`: tables, constraints and operations of the dashboard's database.
- `Enrolment`, `EnrolmentHandler`, `Conversation`, `Throttle`: the dashboard's state machines. That a running
  generation only ever extends what it has written, which `Conversation` takes as a step, is what
  `ChatStream.ProgressGrows` proves of the chat handler.

## Results worth knowing

Some of what one would like to be true of the code is not, and the exact condition is proved instead.

- Streaming Markdown does not always agree with one rendering. For a fence-well-formed final text
  `MarkdownExact.StreamingExact` says exactly when it does: when a block of the whole text begins at every place
  the stream was cut. That holds whenever no frame ends in a white-space-only line outside a fence. Such a frame,
  a text that is not fence-well-formed and an opener with a bar can each spoil the result: `MarkdownLimits` gives
  a family of texts for each.
- The splitter's cut can move back under appending; `MarkdownStream.CutMovesBack` says exactly when.
- Reading events is independent of chunking exactly when no chunk boundary falls between a CR and its LF,
  since CRLF is folded chunk by chunk.
- A comment in `dashboard/src/nodeAuth.js` (lines 69-71) has it that a replay cannot outlast the timestamp window.
  The code accepts one signed request up to three times, if it first arrives a full window early: the cache and
  the timestamp check both use the same window, and both accept at its very end. `NodeAuth.ReplayAtMostThrice`
  is the bound and `NodeAuth.ThriceHappens` shows it met.
- The cache key joins node id and nonce with a colon: it tells them apart for node ids without one, which is what
  the dashboard's ids are (`NodeAuth.KeyTellsFields`, `NodeAuth.ColonsCollide`).
- The gateway's metrics event leaves no trace behind the proxy exactly when the engine's stream ends at an event
  boundary.
- Fields of the signed string are separated by newlines and not escaped: signatures determine the request
  exactly because no field holds one (`NodeAuth.SigningInjective`, `NodeAuth.NewlinesCollide`).

## Model

| member | source | states |
|---|---|---|
| Markdown.RenderMarkdown | dashboard/public/markdown-enhancer.js:60-185 | the renderer's loop over the line index yields the blocks of the document, one block after the other |
| Markdown.RenderBlock | dashboard/public/markdown-enhancer.js:68-181 | one turn of the loop takes exactly the lines of the block at its head, in the order of the branches |
| MarkdownWriter.BlockRendersToItself | dashboard/public/markdown-enhancer.js:60-185 | every kind of block, written as an author writes it in any style, renders to exactly that block: heading with its level, rule, fenced code, table, quote, plain and task items, numbered items, paragraph |
| MarkdownWriter.TextRenders | dashboard/public/markdown-enhancer.js:60-185 | a text of blocks with blank lines between them renders to these blocks, in order and no others |
| Markdown.HeadAgrees | dashboard/public/markdown-enhancer.js:60-185 | no look-ahead of a code block, table, list, quote or paragraph crosses a sealing line: the first block and its length do not depend on what follows |
| Markdown.Additive | dashboard/public/markdown-enhancer.js:60-185 | key law: at a blank line outside a fence, or at a closing fence, rendering starts afresh, so render(A) + render(B) = render(A + B) |
| MarkdownStream.SplitStableMarkdown | dashboard/public/markdown-enhancer.js:187-210 | the offset arithmetic of the splitter cuts after the last stable line of the folded text |
| MarkdownStream.SplitterLaws | dashboard/public/markdown-enhancer.js:187-210 | completed + pending is the text; completed has balanced fences and splits to itself; pending completes nothing |
| MarkdownStream.CutMonotone | dashboard/public/markdown-enhancer.js:187-210 | appending never moves the cut back, unless the shorter text ended in a blank line outside a fence, when all of it had been completed |
| MarkdownStream.CutMovesBack | dashboard/public/markdown-enhancer.js:187-210 | exactly when the cut does move back |
| MarkdownStream.StreamingRenderer.AppendCompleted | dashboard/public/markdown-enhancer.js:222-235 | a slice is rendered on its own and put behind what was rendered before; an empty one adds nothing |
| MarkdownStream.StreamingRenderer.Update | dashboard/public/markdown-enhancer.js:231-238 | only what is newly completed is rendered; a cut that moved back renders nothing |
| MarkdownStream.StreamingRenderer.Finish | dashboard/public/markdown-enhancer.js:239-243 | all that has not been rendered yet is, in one last slice |
| MarkdownStream.StreamConserves | dashboard/public/markdown-enhancer.js:212-245 | for any updates of a growing text, whatever it is, the slices rendered concatenate to the folded final text |
| MarkdownStream.PendingShown | dashboard/public/markdown-enhancer.js:231-238 | after an update, what was rendered and what is shown as pending are the whole frame exactly when the cut has not moved back |
| MarkdownLimits.BlankFrameDisagrees | dashboard/public/markdown-enhancer.js:200-201 | a frame that ends in the newline between two lines of a paragraph spoils the result |
| MarkdownLimits.IllFencedDisagrees | dashboard/public/markdown-enhancer.js:187-210 | a marked line inside an open fence that is no closer spoils the result |
| MarkdownLimits.BarredOpenerDisagrees | dashboard/public/markdown-enhancer.js:187-210 | an opener with a bar in the body of a table spoils the result |
| MarkdownLimits.FamiliesInhabited | dashboard/public/markdown-enhancer.js:187-210 | the three families have members |
| MarkdownCuts.CutExact | dashboard/public/markdown-enhancer.js:60-185 | a cut between two lines with fences closed before it is harmless exactly when a block of the whole text begins there |
| MarkdownExact.CutLaw | dashboard/public/markdown-enhancer.js:60-245 | for every cut the splitter can make: rendering the two sides gives the blocks of the whole when a block begins at the cut; when not, some block before the cut is already another one |
| MarkdownExact.StreamingExact | dashboard/public/markdown-enhancer.js:60-245 | for any updates of a fence-well-formed final text: the streamed blocks are those of one rendering of the whole exactly when a block of the whole begins at every place the stream was cut |
| MarkdownExact.StreamingAgrees | dashboard/public/markdown-enhancer.js:60-245 | they are when the frames settle: a frame ending in a white-space-only line outside a fence is continued there with white space only, or ended right after a stable line |
| MarkdownExact.StreamingAgreesUnlessBlank | dashboard/public/markdown-enhancer.js:60-245 | they are when no frame ends in a white-space-only line outside a fence |
| Sse.ParseThenUnparse | mlx-gateway/server.mjs:190-219 | events and tail hold the text that was read, and the tail holds no blank line |
| Sse.UnparseThenParse | dashboard/src/proxy.js:223-235 | events written each with a blank line after them are read back, and a tail without a boundary stays |
| Sse.ParseAppend | dashboard/src/proxy.js:223-235 | reading on from the buffer gives the events of the longer text |
| Sse.FoldChunksExact | mlx-gateway/server.mjs:191-191 | folding CRLF chunk by chunk gives the folded stream exactly when no chunk boundary falls between CR and LF |
| Sse.ChunkIndependence | mlx-gateway/server.mjs:190-219 | events handled and buffer left are those of the concatenated text exactly under that condition |
| Sse.CrFreeIndependence | dashboard/public/app.js:572-601 | a stream without CR is read the same whatever its chunks |
| Sse.TakeEvents | dashboard/src/proxy.js:223-235 | the shared chunk loop: append, cut at blank lines, keep the tail |
| Sse.StreamMeter.ParseSse | mlx-gateway/server.mjs:190-219 | the gateway's loop: the buffer keeps the tail, and the chunk counter and token usage take in the completed events in order |
| Sse.MeterNext | mlx-gateway/server.mjs:190-219 | one chunk more changes the counters of some chunks to those of one chunk more |
| Sse.MeterIndependence | mlx-gateway/server.mjs:190-219 | token counts and chunk counters are a fold over the events of the whole stream |
| Upstream.MeterTells | mlx-gateway/server.mjs:190-219 | of any stream in any chunks: the chunk counter is the number of payloads with text, the token counts are the last ones given |
| Events.SentReads | dashboard/src/proxy.js:100-114 | a message is read with the name and the data its sender wrote, of any number of lines; a comment with neither |
| Events.StreamReads | dashboard/src/proxy.js:223-235 | written events, cut into any chunks that split no CRLF, are handled one by one and the unfinished tail is kept |
| ChatStream.Generation.ConsumeEvent | dashboard/src/proxy.js:199-221 | one event: metrics taken out, everything else forwarded, deltas appended, progress stored |
| ChatStream.Generation.ReadChunk | dashboard/src/proxy.js:223-235 | the chunk loop of a generation |
| ChatStream.Generation.Run | dashboard/src/proxy.js:134-264 | a generation from its first chunk to each of its exits: end of stream, stop, failure |
| ChatStream.DisconnectNonInterference | dashboard/src/proxy.js:137-239 | wherever the client leaves, progress, saved answer, usage and report are those of a client that stayed, and what was written is a prefix of what that client got |
| ChatStream.ProgressGrows | dashboard/src/proxy.js:179-221 | recorded answers are each a proper prefix of the next; a completion saves the same text as the last of them |
| ChatStream.ReceiveEvent | dashboard/public/app.js:572-590 | one event in the page |
| ChatStream.RunMessage | dashboard/public/app.js:572-602 | the reading loop of the page; an error event leaves it |
| ChatStream.BodiesRead | dashboard/src/proxy.js:180-260 | what the server writes reads back as the events it meant |
| ChatStream.EndToEnd | dashboard/public/app.js:572-602 | for every upstream stream and any chunking on both hops, a page that stays connected ends with exactly the answer the server holds, and learns of a stop or an error just when there was one |
| Upstream.ChatTells | dashboard/src/proxy.js:134-264 | for any upstream stream of messages and comments, in any chunks, finished or not: the answer is the texts of the messages one after the other; one write for each, in order, and the closing ones; the last usage and the last metrics that can be read; saved with the flags of the ending |
| Upstream.TextsArrive | dashboard/src/proxy.js:199-221 | whatever texts an engine sends as chunks, the answer is their concatenation |
| Upstream.PageTells | dashboard/public/app.js:572-602 | and a connected page shows the same, in whatever chunks the dashboard's stream reaches it |
| Upstream.PageReads | dashboard/public/app.js:572-602 | the page, reading any stream without an error event: the texts of all but the dashboard's own events, and whether there was a stop |
| Upstream.PageFails | dashboard/public/app.js:572-602 | an error event ends the reading: what came before stays, nothing after it counts |
| JsonLaws.LawsCanBeMet | dashboard/src/proxy.js:199-221 | the laws asked of JSON in the above can be met |
| Proxy.Forward | dashboard/src/proxy.js:344-378 | the proxy writes the events it reads but for the metrics events, then the incomplete tail |
| Proxy.StandardForwarded | dashboard/src/proxy.js:344-378 | of any stream of messages and comments, in any chunks, the client gets exactly those that are not `mlx-metrics` messages of a swiftlm node, as they were written, and the unfinished tail |
| Proxy.UnnamedForwarded | dashboard/src/proxy.js:344-378 | a CR-free stream in which no line begins with `event:` comes out unchanged for either provider |
| Proxy.OthersForwarded | dashboard/src/providers.js:60-98 | for any other provider every CR-free stream does |
| Proxy.StripReads | dashboard/src/proxy.js:344-378 | what is forwarded reads as the same events without the metrics events, with the same tail |
| Proxy.StripIdentity | dashboard/src/proxy.js:344-378 | forwarding changes nothing exactly when there is no metrics event to take out |
| Proxy.MetricsTransparent | mlx-gateway/server.mjs:279-289 | the metrics event the gateway appends leaves no trace behind the proxy exactly when the engine's stream ends at an event boundary |
| Proxy.EngineStreamArrives | dashboard/src/providers.js:54-56 | composed with the gateway, the proxy is the identity on the engine's stream exactly under that condition |
| Scheduler.FifoConservation | mlx-gateway/server.mjs:153-320 | in every reachable state the arrivals in order, without the jobs cancelled while waiting, are the starts followed by the queue; no job is lost, duplicated or overtaken |
| Scheduler.SlotsWellUsed | mlx-gateway/server.mjs:303-320 | slots are never overbooked and all full while a job waits; queue and running are disjoint and hold exactly the unfinished jobs, none cancelled |
| Scheduler.ExactlyOneOutcome | mlx-gateway/server.mjs:153-188 | whichever of end, error and close come in whatever order, a job has one record when it is finished and none before |
| JobRecords.EndWritesOutcome | mlx-gateway/server.mjs:279-299 | in every reachable state an event that ends an unfinished job writes one record for it: completed exactly when the response ended with a good status, failed on a bad status or an error, cancelled when the client left; no other event writes one |
| JobRecords.RecordsTell | mlx-gateway/server.mjs:153-188 | over any run a record has the outcome of the first event that ended its job, and its queue, first-token and latency values are the times of the job's start, first content and end less its arrival |
| Scheduler.CloseCancels | mlx-gateway/server.mjs:451-458 | a client that goes away early gets its job recorded as cancelled, waiting or running, and its slot is passed on |
| Scheduler.AtMostOneStart | mlx-gateway/server.mjs:303-307 | one handler starts at most one job |
| Scheduler.ConsistentTiming | mlx-gateway/server.mjs:153-188 | under a clock that never goes back, 0 <= queue_ms <= ttft_ms <= latency_ms for the values present |
| Scheduler.DrainTwice | mlx-gateway/server.mjs:303-307 | draining twice is draining once |
| Scheduler.Gateway.StartUpstream | mlx-gateway/server.mjs:233-301 | the start of a job, and the re-entrant drain for one that is over |
| Scheduler.Gateway.DrainQueue | mlx-gateway/server.mjs:303-307 | the mutually recursive drain terminates, with the length of the queue as measure, and does what the specification says |
| Scheduler.Gateway.FinishJob | mlx-gateway/server.mjs:153-188 | the first finish records and drains; later ones do nothing |
| Scheduler.Gateway.Enqueue | mlx-gateway/server.mjs:309-320 | arrival of a job |
| Scheduler.Gateway.OnContent | mlx-gateway/server.mjs:204-209 | the first content fixes the time to the first token; every content counts |
| Scheduler.Gateway.OnEnd | mlx-gateway/server.mjs:279-289 | the engine's response has ended |
| Scheduler.Gateway.OnResponseError | mlx-gateway/server.mjs:290-290 | the engine's response broke off |
| Scheduler.Gateway.OnUpstreamError | mlx-gateway/server.mjs:292-299 | the engine failed |
| Scheduler.Gateway.OnClose | mlx-gateway/server.mjs:451-458 | the client went away |
| RecentLog.ReplayAgrees | mlx-gateway/server.mjs:49-85 | at any point of any run, after any rotations and restarts, what a restart would load is a prefix of the live list, which never exceeds fifty |
| RecentLog.ReplayExact | mlx-gateway/server.mjs:49-85 | without rotation and within the lines a restart reads, nothing at all would be lost |
| RecentLog.RecentExact | mlx-gateway/server.mjs:82-85 | a gateway that starts without a log lists the last fifty records of completed, failed and cancelled requests, newest first |
| RecentLog.ReadBack | mlx-gateway/server.mjs:60-68 | reading the file back gives the lines that were appended |
| RecentLog.RequestLog.LoadRecent | mlx-gateway/server.mjs:66-80 | the terminal entries of the last 400 lines, the last fifty of them, newest first |
| RecentLog.RequestLog.LogEvent | mlx-gateway/server.mjs:49-64 | a line is appended, after rotating a full log away |
| RecentLog.RequestLog.AddRecent | mlx-gateway/server.mjs:82-85 | the entry goes in front, and the list is cut to fifty |
| RecentLog.RequestLog.Record | mlx-gateway/server.mjs:184-186 | logging and listing a record keeps the replay a prefix of the list |
| JsonLaws.LogLawsCanBeMet | mlx-gateway/server.mjs:60-80 | the laws asked of the log's JSON can be met |
| NodeAuth.NonceCache.Claim | dashboard/src/nodeAuth.js:72-88 | prunes, then answers and records |
| NodeAuth.CacheHoldsLive | dashboard/src/nodeAuth.js:72-88 | for any clock the cache holds exactly the successful claims whose window no later claim has seen run out |
| NodeAuth.ClaimExact | dashboard/src/nodeAuth.js:72-88 | for any clock, exactly when a claim succeeds |
| NodeAuth.RefinesFullHistory | mlx-gateway/nodeAgent.mjs:55-68 | under a monotone clock the pruned cache answers like the full history |
| NodeAuth.HoldsLastWindow | dashboard/src/nodeAuth.js:72-88 | after a claim the cache holds exactly the successful claims of the last window |
| NodeAuth.Spacing | dashboard/src/nodeAuth.js:72-88 | acceptances of one key are at least a window apart |
| NodeAuth.Verify | dashboard/src/nodeAuth.js:90-109 | the checks in their order, and a nonce claimed only when all others pass |
| NodeAuth.VerifyNext | dashboard/src/nodeAuth.js:90-109 | a call on the cache a run has left continues that run |
| NodeAuth.VerifyExact | dashboard/src/nodeAuth.js:90-109 | over a run, a call is accepted exactly when it passes the checks and no call accepted within the cache window came from the same node with the same nonce |
| NodeAuth.FreshNonceAccepted | dashboard/src/nodeAuth.js:103-107 | a nonce its node has not used is never refused as a replay, whatever nonces other nodes used |
| NodeAuth.KeyTellsFields | mlx-gateway/nodeAgent.mjs:83-85 | the cache key tells node and nonce apart for node ids without a colon |
| NodeAuth.ColonsCollide | dashboard/src/nodeAuth.js:105-105 | without that premise two nodes share a key |
| NodeAuth.ReplayBound | mlx-gateway/nodeAgent.mjs:55-87 | with a timestamp window v and a cache window w, n acceptances of one signed request in any run need (n - 1) w <= 2 v |
| NodeAuth.ReplayAtMostThrice | dashboard/src/nodeAuth.js:69-109 | with equal windows: at most three, at most two when first accepted later than ts - window, one when first accepted after ts |
| NodeAuth.ThriceHappens | dashboard/src/nodeAuth.js:69-109 | any signed request can be accepted three times |
| NodeAuth.SigningInjective | dashboard/src/nodeAuth.js:39-41 | signing strings are equal exactly when the signed fields are, given that none holds a newline |
| NodeAuth.CapturedSignature | dashboard/src/nodeAuth.js:90-109 | a captured signature passes only for the request it was made for |
| NodeAuth.SignThenCheck | dashboard/src/nodeAuth.js:46-61 | a signed request passes the checks exactly within its window |
| NodeAuth.NewlinesCollide | dashboard/src/nodeAuth.js:39-41 | without that premise two different requests have one signing string |
| StoreLaws.OpenEstablishes | dashboard/src/db.js:160-201 | opening any file that obeys the constraints establishes the integrity and registers every node's primary model; it fails exactly when another node has the configured origin |
| StoreLaws.IntegrityAlways | dashboard/src/db.js:361-563 | after any operations in any order, failed ones included: references resolve, (node, model) rows are unique, every node has a model, every key and conversation its target |
| StoreLaws.DeleteNodeModelKeeps | dashboard/src/db.js:403-410 | the last model of a node is the one row a removal refuses |
| StoreLaws.DeleteNodeModelExact | dashboard/src/db.js:403-410 | a removal removes exactly that row of that node, a refusal nothing |
| StoreLaws.DeleteNodeKeeps | dashboard/src/db.js:456-472 | deleting a node never fails on a reference; without purging a node in use stays and nothing changes |
| StoreLaws.PurgeExact | dashboard/src/db.js:456-472 | purging removes exactly the node, its models, keys, conversations, messages and requests; what stays keeps its content but for references to what went |
| SqliteStore.Store.Prepare | dashboard/src/db.js:160-201 | upsert and backfills, statement by statement |
| SqliteStore.Store.CreateNode | dashboard/src/db.js:361-385 | the node and its primary model, keeping the integrity |
| SqliteStore.Store.DeleteNodeModel | dashboard/src/db.js:403-410 | the three answers, keeping the integrity |
| SqliteStore.Store.PurgeNode | dashboard/src/db.js:460-471 | four statements in a transaction, all undone when one fails |
| SqliteStore.Store.DeleteNode | dashboard/src/db.js:456-472 | refusal without purge, deletion with it, never a failure in an integral store |
| SqliteStore.Store.CreateEnrollmentToken | dashboard/src/db.js:542-547 | a token row with a new digest |
| SqliteStore.Store.DeleteEnrollmentToken | dashboard/src/db.js:351-353 | only an unused row is deleted |
| SqliteStore.Store.PruneExpiredEnrollmentTokens | dashboard/src/db.js:354-356 | exactly the unused rows that have expired go |
| SqliteStore.Store.ConsumeEnrollmentToken | dashboard/src/db.js:341-347 | the guarded update, with its foreign-key failure |
| Enrolment.StepKeeps | dashboard/src/server.js:501-557 | every store call of an attempt, and everything else that changes the store, keeps the invariant of enrolment |
| Enrolment.TokenConsumedOnce | dashboard/src/db.js:341-356 | under any interleaving a token is consumed at most once and never both consumed and revoked or pruned; its row stays and names its one winner while that exists |
| Enrolment.SurvivorsAreWinners | dashboard/src/server.js:501-557 | once all attempts have finished, of the nodes they created and nobody else deleted, exactly those whose claim succeeded are in the store |
| EnrolmentHandler.OrphanHealed | dashboard/src/server.js:546-554 | removing a freshly created node gives back the store as it was |
| EnrolmentHandler.Register | dashboard/src/server.js:536-556 | create, secret, claim, and removal when the claim is lost |
| EnrolmentHandler.Enrol | dashboard/src/server.js:501-557 | an uninterrupted request enrols exactly when the token is unused and unexpired at the latest clock reading, the request valid and the origin new; otherwise only the pruning has happened |
| EnrolmentHandler.AloneAgrees | dashboard/src/server.js:501-557 | an attempt of the interleaved model whose store calls nobody interrupts succeeds exactly when the handler enrols, and leaves the same store |
| Conversation.ConversationSafety | dashboard/src/server.js:638-749 | in every reachable state: at most one generation per conversation, its target the one it began with, rows alternating user and assistant, every request sent ending with a user's turn and still the beginning of the history |
| Conversation.HistoryGrows | dashboard/src/server.js:675-749 | from any such state on, only the last row of a conversation is ever changed, by extension |
| Conversation.SettledForGood | dashboard/src/server.js:675-749 | rows of a conversation in which nothing is generated never change again |
| Conversation.AnswerHolds | dashboard/src/server.js:693-724 | after an accepted message, whatever else happens, the user's row stays and the answer's row holds exactly the texts its generation has written, one after the other |
| Conversation.Dashboard.PostMessage | dashboard/src/server.js:675-710 | the checks in their order; the rows added, the request sent, the generation registered |
| Conversation.Dashboard.UpdateMessage | dashboard/src/server.js:719-723 | the row takes the accumulated text; a deleted one is not written |
| Conversation.Dashboard.Finally | dashboard/src/server.js:744-748 | the handler's own entry is always the one it clears |
| Conversation.Dashboard.SetTarget | dashboard/src/server.js:638-652 | no change while a generation is active |
| Conversation.Dashboard.StopGeneration | dashboard/src/server.js:666-673 | stopping reaches a running handler exactly when one is active |
| Conversation.Dashboard.DeleteConversation | dashboard/src/server.js:661-664 | deletion, also while a generation runs |
| Throttle.LoginAttempts.Login | dashboard/src/server.js:227-246 | the handler's counting and blocking |
| Throttle.VerdictExact | dashboard/src/server.js:227-246 | the table answers like the history: a try is refused exactly during the pause after the last full eight wrong passwords of its address, and otherwise the password decides |
| Throttle.AtMostEight | dashboard/src/server.js:227-246 | between successful logins no half-open window of five minutes holds more than eight compared wrong passwords of an address |
| Throttle.EightHappen | dashboard/src/server.js:227-246 | eight at one instant are all compared |

## Left out

- MarkdownWriter.TextRenders: for texts an author would write, with a blank line after each block; no line of a paragraph begins with a mark, and the columns of a table are aligned alike.
- MarkdownExact.StreamingExact: for fence-well-formed final texts; for others there are the counterexamples of `MarkdownLimits` and the laws of `MarkdownStream`, which need no premise.
- Inline Markdown: `renderInline`, `escapeHtml`, `safeHref` and the HTML around a block; a block carries its lines.
- DOM updates of the page: the streaming renderer's nodes are the list of slices it has rendered.
- UTF-8 decoding and the flush of the decoder at the end of a stream.
- JSON syntax: serialising and parsing are parameters with laws that `JsonLaws` shows can be met.
- The parts of the event-stream standard (sections 9.2.5 and 9.2.6 of the WHATWG HTML Living Standard) that the code does not implement: bare CR, `id:` and `retry:` fields.
- ChatStream.Generation.Run: does not model an upstream that refuses the request before streaming (`dashboard/src/proxy.js` lines 155-163).
- Backpressure, sockets, headers and status lines of both proxies, and their non-streaming halves.
- Metrics values other than the counters of a stream: throughput, previews and the merging in `createMetricsCollector`.
- Scheduler.Gateway.StartUpstream: does not model a synchronous exception of `http.request`, nor requests that pass the queue (`proxyUnqueued`), nor reading the request body.
- Scheduler: a handler reads the clock once for its record and once for the job it starts, which is enough since it starts at most one.
- RecentLog.RequestLog.LogEvent: does not model a write that fails, nor the file size; that the log is full is a parameter. The log a process starts on holds whole lines, each without white space at its ends.
- NodeAuth: HMAC and SHA-256 are parameters, assumed injective where a lemma says so; timestamps are real numbers. The gateway's copy of these functions in `mlx-gateway/nodeAgent.mjs` has the same bodies and is covered by the same lemmas.
- Store: columns that no constraint and no handler above depends on (names, labels, credentials, timestamps, previews, capabilities); heartbeats and credential updates change only such columns.
- SQLite itself: a statement is atomic, fails on a violated constraint and changes nothing then.
- EnrolmentHandler.Enrol: does not model the check of the token's prefix, which answers 400, nor the parsing of the other fields; whether they are valid is a parameter.
- Enrolment: a process that dies between two store calls leaves its attempt unfinished, and the statement about survivors is for finished attempts.
- Conversation: messages are kept in insertion order; the SQL orders by timestamp, which leaves rows of one millisecond unordered. Titles and request options are not modelled, and whether a node can serve is a parameter.
- Message queue of the page, provider detection, configuration, API keys' authentication and the user interface.
