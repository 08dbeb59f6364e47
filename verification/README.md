# chenniX-api: translation, billing and scheduling

chenniX-api is a multi-user gateway in front of AI providers. This project models three parts of it in Dafny and proves
what they promise. `dafny verify dfyconfig.toml` checks everything.

**Translation** between the OpenAI and Claude wire formats, streamed and whole. `ToClaude` and `ToOpenai` are the two
streaming machines: a step function on values, and a class that updates its fields in place and is proved to be that
function's run over everything fed to it. `Requests` and `Responses` are the translators for whole messages. Meaning is
fixed by readers written independently of the machines: `Meaning` (what a lenient client collects from either stream),
`Assembly` (the message a strict Claude client assembles, rejecting anything outside the grammar),
`ToClaudeGrammar.Check` (order and indices of blocks), `ToClaudeEnding.See` (place of the terminal events). The theorems
relate all of these: each machine to its readers, the machines to each other, and each machine to the whole-message
translator. `RoundTrip` and `ClaudeRoundTrip` take a stream there and back from either side, `RequestRoundTrip` and
`ClaudeRequestTrip` a request. `RequestParts` says what each single message contributes, `StreamIdentity` who speaks in
a stream. `Sse` is the incremental event parser and the printer it reads, on bytes as far as cutting can tell (`Utf8`).

**Billing.** `Ledger` holds the storage transactions and the billing manager on top of them; `Billing` interleaves any
number of sessions, one transaction at a time, together with an administrator flipping the unlimited flag. `Failover` is
the two-level retry loop with its session, for both kinds of execution, and the settling tail of a stream, while other
requests go on changing health table and books, also while an answer is awaited and inside the settlement;
`FailoverTrail` says what every run of the loop looks like, and `FailoverSessions` that a request driven by it, streamed
or not, is one session of `Billing`.

**Scheduling.** `Routing` filters, sorts and draws bindings, `RoutingOrder` says so in terms of the candidates alone
(`Sorting` says what a stable sort gives, `Text` what splitting and trimming give), `Keys` stores the drag-and-drop
order, `Health` does the backoff per (key, upstream model), `QuotaCounter` keeps a small model's counter in the cache
and in the database, and `QuotaRecordings` says what becomes of every request in it.

JSON is reduced to the fields the code reads, in `Wire`; tool inputs are the compact text of their JSON value, with
parsing as a parameter. The clock, the random picks, upstream answers, usage, the price list and the two price formulas
are parameters (prices may change between charge and reply); where other requests can act in between, what they do is a
parameter too, or an action of the run.

## What the proofs found

Each of these is a lemma below, with the exact condition where there is one.

- Arguments for a tool call that text or reasoning has interrupted are sent into the wrong Claude block
  (`ToClaudeGrammar.EveryRunIsGrammatical`, `ResumedToolIsStray`); a tool index that is returned to becomes a second
  call (`RoundTrip.ContentSurvives`).
- More content, or a second finish with usage known, after the terminal events were sent is passed on behind them, and
  the terminal events can be sent twice (`ToClaudeEnding.WellFormedIff`, `FinishedTwice`).
- A finish reason without any usage before it and without a line after it leaves the Claude stream unterminated; usage
  that arrives later than the first line after the finish is not reported (`ToClaudeTerminal.StreamEnds`,
  `UnterminatedStream`, `LateUsageIsLost`).
- A stream in which nothing is said gives an empty message where the whole-message translator gives one empty text
  block (`OpenaiAgreement.OpenaiStreamAgreesWithBatch`, `SilentStream`).
- A user message without a text part directly after a tool message does not survive the request round trip, nor does
  any content part that is not text (`RequestRoundTrip.RequestRoundTrips`, `MuteUserVanishes`).
- A Claude stream comes back from OpenAI with its text, reasoning, calls and output tokens, but never with its input
  tokens (`ClaudeRoundTrip.ClaudeContentSurvives`, `ClaudeEndSurvives`); a Claude request comes back with the texts of
  each turn joined (`ClaudeRequestTrip.ClaudeRequestRoundTrips`).
- A chunk boundary inside a character of more than one byte loses both chunks (`Sse.PrintedStreamSurvivesCuts`,
  `Utf8.TornCharacterIsLost`).
- The exhausted mark is never missing from a drained token that a limited request settled on, once all sessions are
  closed (a token nobody settled on stays unmarked); but it can be stale: set on a token that a refund has filled
  again (`Billing.MarkCanBeStale`). It is exact if and only if a token that some request found drained is drained
  still (`Billing.MarkAtRest`).
- A successful request that looks while nothing is cached, before the first load or after an invalidation, is never
  counted, in the database either (`QuotaRecordings.BlindLoses`); the stored counter holds all it should if and only
  if that never happened (`QuotaRecordings.RecordedIff`).
- Overlapping recordings lose cached usage, and with it the exhausted mark, although the database counter keeps what
  was written (`QuotaCounter.OverlapLosesTheMark`); so does a load that overlaps a recording. `QuotaCounter.ExactIff`
  and `QuotaCounter.MarkIsRightIff` say exactly when.
- Where comments and code disagree, the model follows the code: a token is marked at or below zero, not at exactly
  zero (crates/core/src/billing.rs:146-147 against line 184), and keys are sorted by priority alone, not also by quota
  and price (crates/core/src/router.rs:22 against lines 124-126).

## Model

| member | source | states |
|---|---|---|
| Wire.AsI32 | crates/translator/src/stream_state.rs:175 | a 64-bit tool index cut down to 32 bits: in range, and unchanged when it was in range |
| Wire.CutIsModular | crates/translator/src/stream_state.rs:175 | the cut index is the one number in the 32-bit range that differs from the index by a multiple of 2^32 |
| Wire.StopReasons | crates/translator/src/stream_state.rs:242-248 | the whole table to Claude: tool_use iff tool_calls, max_tokens iff length, end_turn for every other finish reason |
| Wire.FinishReasons | crates/translator/src/stream_state.rs:563-569 | the whole table to OpenAI: tool_calls iff tool_use, length iff max_tokens, stop for every other stop reason |
| Wire.FinishReasonRoundTrip | crates/translator/src/stream_state.rs:242-248 | a finish reason survives to Claude and back iff it is stop, tool_calls or length |
| Wire.StopReasonRoundTrip | crates/translator/src/stream_state.rs:568-573 | a stop reason survives to OpenAI and back iff it is end_turn, tool_use or max_tokens |
| ToClaude.OpenaiToClaudeStream.constructor | crates/translator/src/stream_state.rs:43-58 | a new machine is the empty run |
| ToClaude.OpenaiToClaudeStream.ProcessChunk | crates/translator/src/stream_state.rs:62-89 | fields and all output so far are the specification's run over all lines fed so far, however they were cut into chunks |
| ToClaude.OpenaiToClaudeStream.ProcessLine | crates/translator/src/stream_state.rs:67-85 | one line moves the whole state by the specification's step; [DONE] flushes owed terminal events |
| ToClaude.OpenaiToClaudeStream.ProcessJson | crates/translator/src/stream_state.rs:91-266 | one payload: identity and usage first, then message_start once, the delta, the finish |
| ToClaude.OpenaiToClaudeStream.NoteIdentityAndUsage | crates/translator/src/stream_state.rs:94-118 | id and model only before the start, usage always replaced |
| ToClaude.OpenaiToClaudeStream.ProcessDelta | crates/translator/src/stream_state.rs:150-230 | reasoning, then every tool delta in order, then text |
| ToClaude.OpenaiToClaudeStream.ProcessPiece | crates/translator/src/stream_state.rs:152-170 | prose closes another kind of block, opens its own, and is sent under its index; empty prose does nothing |
| ToClaude.OpenaiToClaudeStream.ProcessToolCall | crates/translator/src/stream_state.rs:172-215 | a different index closes the open block and opens a tool_use block; arguments go under the current index |
| ToClaude.OpenaiToClaudeStream.ProcessFinish | crates/translator/src/stream_state.rs:232-263 | a finish closes the block and records the mapped reason; the terminal events follow at once iff usage is known |
| ToClaude.OpenaiToClaudeStream.CloseCurrentBlock | crates/translator/src/stream_state.rs:270-279 | one content_block_stop and the next index, or nothing when no block is open |
| ToClaude.OpenaiToClaudeStream.PushTerminal | crates/translator/src/stream_state.rs:373-388 | one message_delta with reason and tokens known by now, then message_stop |
| ToClaudeGrammar.EveryRunIsGrammatical | crates/translator/src/stream_state.rs:91-279 | the grammar of blocks on every run: message_start once and first, starts and stops alternate with indices 0,1,2,…, text and thinking deltas inside an open block of their kind under its index; tool input too iff no interrupted call was resumed (terminal events: ToClaudeEnding) |
| ToClaudeGrammar.RunInGrammar | crates/translator/src/stream_state.rs:91-279 | the invariant behind it: the machine's open block and index are the grammar reader's, after every line |
| ToClaudeGrammar.ResumedToolIsStray | crates/translator/src/stream_state.rs:172-215 | the exception occurs: tool arguments after interrupting text are sent into the text block |
| ToClaudeEnding.RunStands | crates/translator/src/stream_state.rs:62-279 | after every line the machine and a reader of its input agree on what is open, finished and ended |
| ToClaudeEnding.TerminalsInPlace | crates/translator/src/stream_state.rs:62-279 | on every run the terminal events, if any, come once, last and after closed blocks iff no line comes too late: nothing said or finished with usage after them, nothing said between finish and flush |
| ToClaudeEnding.WellFormedIff | crates/translator/src/stream_state.rs:62-279 | the whole event grammar holds of a run iff no interrupted tool call was resumed and no line came too late |
| ToClaudeEnding.FinishedTwice | crates/translator/src/stream_state.rs:255-258 | a stream that finishes with usage, says more and finishes again breaks the grammar |
| ToClaudeTerminal.UsageOnRecord | crates/translator/src/stream_state.rs:104-118 | the buffered usage is always the latest one read from the lines |
| ToClaudeTerminal.NothingOwedBeforeFinish | crates/translator/src/stream_state.rs:124-133 | before any finish reason no terminal event is sent or owed |
| ToClaudeTerminal.FinishReached | crates/translator/src/stream_state.rs:232-263 | at the finish every block is closed, and the terminal events have been sent iff usage was read by then |
| ToClaudeTerminal.StreamEnds | crates/translator/src/stream_state.rs:67-263 | one message_delta and one message_stop, last, after closed blocks, with mapped reason and latest usage in time; sent iff usage came by the finish or any line follows it |
| ToClaudeTerminal.TailFinished | crates/translator/src/stream_state.rs:67-134 | the same after every line of the tail: the terminal events are sent once and nothing is added after them |
| ToClaudeTerminal.UnterminatedStream | crates/translator/src/stream_state.rs:255-263 | a stream that stops at its finish reason, without usage, is never terminated |
| ToClaudeTerminal.LateUsageIsLost | crates/translator/src/stream_state.rs:124-133 | usage in the second line after the finish is read but 0 is reported |
| StreamIdentity.RunIntroduced | crates/translator/src/stream_state.rs:94-102 | on every run message_start comes exactly when the first choice has, first, with the latest id and model read by then |
| StreamIdentity.PiecesSentOnce | crates/translator/src/stream_state.rs:150-230 | on every run exactly as many deltas are sent as pieces came that are not empty, none twice and none empty |
| ToOpenai.ClaudeToOpenaiStream.constructor | crates/translator/src/stream_state.rs:432-450 | a new machine is the empty run |
| ToOpenai.ClaudeToOpenaiStream.ProcessEvent | crates/translator/src/stream_state.rs:454-591 | fields and all output so far are the specification's run over all events fed so far |
| ToOpenai.ClaudeToOpenaiStream.ProcessMessageStart | crates/translator/src/stream_state.rs:463-477 | id, model and input tokens are kept, absent ones leave the old value |
| ToOpenai.ClaudeToOpenaiStream.ProcessBlockStart | crates/translator/src/stream_state.rs:479-503 | text sends the role once; a tool_use also sends a numbered call start; other blocks send nothing |
| ToOpenai.ClaudeToOpenaiStream.ProcessBlockDelta | crates/translator/src/stream_state.rs:505-538 | each delta kind becomes its OpenAI delta, tool input under the latest call's index, or nothing without a call |
| ToOpenai.ClaudeToOpenaiStream.ProcessMessageDelta | crates/translator/src/stream_state.rs:544-559 | stop reason and output tokens are deferred, each only when present |
| ToOpenai.ClaudeToOpenaiStream.ProcessMessageStop | crates/translator/src/stream_state.rs:561-579 | the mapped finish chunk, a usage chunk iff any token was counted, then [DONE] |
| ToOpenai.ClaudeToOpenaiStream.PushRoleOnce | crates/translator/src/stream_state.rs:486-489 | the role chunk is sent exactly once |
| ToOpenaiMeaning.HeadMatches | crates/translator/src/stream_state.rs:479-503 | a block start keeps the two readers in agreement, tool calls numbered in order |
| ToOpenaiMeaning.PieceMatches | crates/translator/src/stream_state.rs:505-538 | so does every delta |
| ToOpenaiMeaning.StopMatches | crates/translator/src/stream_state.rs:561-579 | so does the end: same finish reason, same usage |
| ToOpenaiMeaning.StreamKeepsMeaning | crates/translator/src/stream_state.rs:454-591 | for every sequence of Claude events, well formed or not, the emitted chunks read the same: text, reasoning, calls in order, finish reason, usage |
| StreamIdentity.RoleComesOnce | crates/translator/src/stream_state.rs:486-520 | on every run the assistant role is announced exactly once if any event speaks, else never, and nothing is said before it |
| StreamIdentity.LinesSigned | crates/translator/src/stream_state.rs:463-477 | on every run each chunk sent carries the latest id and model its event, or any before it, brought |
| StreamIdentity.NothingElseIsSent | crates/translator/src/stream_state.rs:479-590 | on every run each event adds exactly the lines it is worth, and the role where it is due; pings, signatures, block ends and unknown events send nothing |
| RoundTrip.RunTold | crates/translator/src/stream_state.rs:91-266 | for every sequence of lines the emitted events tell the same text and reasoning (under either of its two field names), and the same calls iff no tool index is returned to |
| RoundTrip.ContentSurvives | crates/translator/src/stream_state.rs:91-591 | OpenAI to Claude to OpenAI gives back the text and the reasoning always, and the (id, name, arguments) list iff tool indices are contiguous |
| RoundTrip.EndSurvives | crates/translator/src/stream_state.rs:62-579 | [DONE] comes back once and last; the finish reason comes back iff Claude has a name for it; usage is the completion count known in time |
| RoundTrip.TerminatedReads | crates/translator/src/stream_state.rs:544-579 | a terminated Claude stream ends in exactly one [DONE] with the mapped reason |
| ClaudeRoundTrip.RunRises | crates/translator/src/stream_state.rs:479-538 | for every sequence of Claude events the tool indices sent never fall: calls are numbered in order and none is returned to |
| ClaudeRoundTrip.ClaudeContentSurvives | crates/translator/src/stream_state.rs:91-591 | Claude to OpenAI to Claude gives back text, reasoning and the (id, name, arguments) list of every sequence of events, well formed or not |
| ClaudeRoundTrip.ClaudeEndSurvives | crates/translator/src/stream_state.rs:62-579 | the terminal events come back once and last after closed blocks: output tokens always, stop reason iff OpenAI has a name for it, input tokens never |
| Assembly.DraftAgrees | crates/translator/src/stream_state.rs:454-591 | on every stream the strict client accepts, it and the lenient reader agree, except for text that came with block starts |
| BatchAgreement.ParseableCalls | crates/translator/src/o2c.rs:277-293 | assembled tool blocks finish iff every call's collected text is empty or parses |
| BatchAgreement.ClaudeStreamAgreesWithBatch | crates/translator/src/o2c.rs:254-362 | folding the emitted chunks gives the whole translated message (always reason, usage, ids, names; everything iff blocks start empty and arguments are compact JSON) |
| StreamOrder.ChunkOrdered | crates/translator/src/stream_state.rs:150-230 | the order of the translated blocks is exactly the order of the deltas: thinking, text, tools in order iff the input was |
| OpenaiAgreement.RunUnderway | crates/translator/src/stream_state.rs:91-230 | the strict client keeps step with the machine on every run before the finish, or the input was out of order |
| OpenaiAgreement.FinishedStream | crates/translator/src/stream_state.rs:62-266 | what a terminated stream assembles to: reason, tokens, text, thinking, calls, and sortedness iff the input was in order |
| OpenaiAgreement.SortedContent | crates/translator/src/c2o.rs:264-302 | blocks in order and without empty prose are exactly the content the whole-message translator writes |
| OpenaiAgreement.SameContent | crates/translator/src/c2o.rs:264-319 | assembled content equals the translator's iff it is in its order, holds the same calls, and something was said |
| OpenaiAgreement.OpenaiStreamAgreesWithBatch | crates/translator/src/c2o.rs:256-352 | the assembled Claude message has the content of the whole translated response iff reasoning, text, tools come in order, indices are contiguous, something is said, arguments parse; stop reason always equal, output tokens iff the usage known in time says as much as the latest |
| OpenaiAgreement.SilentStream | crates/translator/src/c2o.rs:316-320 | a stream that says nothing assembles to no block where the whole-message translator writes one empty text |
| Responses.ClaudeToOpenaiResponse | crates/translator/src/o2c.rs:254-362 | the loop over content blocks computes the specified message: texts joined, thinking joined, calls in order |
| Responses.OpenaiToClaudeResponse | crates/translator/src/c2o.rs:256-352 | thinking, text, tool uses in this order without empty parts, never an empty content |
| Responses.PushToolUses | crates/translator/src/c2o.rs:283-303 | one tool_use per call, unparsable arguments as an empty object |
| Responses.ResponseRoundTrip | crates/translator/src/c2o.rs:256-352 | a whole response survives there and back: text, reasoning, usage always, finish reason iff Claude names it, calls up to re-serialised arguments |
| Responses.BlocksSay | crates/translator/src/c2o.rs:264-302 | the blocks written say exactly the text, reasoning and calls they were written from |
| Responses.ClaudeResponseSays | crates/translator/src/c2o.rs:256-352 | every field of the translated response: reasoning under either name, text, calls with {} for arguments that do not parse, order, no empty part but the lone placeholder, stop reason also when none came, usage |
| Responses.OpenaiResponseSays | crates/translator/src/o2c.rs:254-362 | every field of the response translated the other way |
| Requests.OpenaiToClaudeRequest | crates/translator/src/o2c.rs:27-148 | system texts out, one turn per message, same-role neighbours merged, a placeholder user turn if needed |
| Requests.BuildBlocks | crates/translator/src/o2c.rs:77-120 | a message's content blocks followed by one tool_use per call |
| Requests.CollectTexts | crates/translator/src/o2c.rs:46-54 | the text parts of a system message, in order |
| Requests.ClaudeToOpenaiRequest | crates/translator/src/c2o.rs:25-170 | the joined system text first, then each turn's messages |
| Requests.ConvertTurn | crates/translator/src/c2o.rs:51-169 | a turn with tool results becomes one tool message each and perhaps a text message; any other turn becomes one message |
| Requests.ConvertResults | crates/translator/src/c2o.rs:70-119 | the loop of the first branch |
| Requests.ConvertPlain | crates/translator/src/c2o.rs:121-168 | the loop of the second branch, content null when there are only tool calls |
| RequestParts.SystemIsAllInstructions | crates/translator/src/o2c.rs:39-57 | for every list of messages the system field is the texts of all system messages in order, the second and later ones included |
| RequestParts.SystemAppends | crates/translator/src/o2c.rs:39-57 | the system field of two lists in a row is that of the first followed by that of the second |
| RequestParts.SystemComesBack | crates/translator/src/c2o.rs:31-48 | for every list of messages the first message back holds all system texts joined in order, or there is none when all are empty; no other message back is a system message |
| RequestParts.MessageBecomes | crates/translator/src/o2c.rs:59-122 | what each single message becomes: nothing, one tool result, or a turn with a block for each part and then one for each call |
| RequestParts.RequestIsTold | crates/translator/src/c2o.rs:25-170 | every Claude request told to OpenAI message by message: system text, tool results as strings, texts joined, calls in order, content null when there are only calls |
| RequestRoundTrip.ClaudeRequestIsWellFormed | crates/translator/src/o2c.rs:126-141 | whatever the messages: user first, roles alternate, and no block is lost, added, moved or put under another role; the placeholder is one text "." |
| RequestRoundTrip.MergedAlternates | crates/translator/src/o2c.rs:126-136 | merging leaves no two neighbours of one role and keeps every block in order |
| RequestRoundTrip.OwnTurn | crates/translator/src/c2o.rs:121-168 | a user or assistant message with a turn of its own comes back with its text, calls and ids, arguments re-serialised, without anything that is not text |
| RequestRoundTrip.ResultsThenText | crates/translator/src/c2o.rs:65-119 | tool results and the user text merged behind them come apart again |
| RequestRoundTrip.ConversationRestores | crates/translator/src/o2c.rs:27-148 | for every conversation, translating the merged turns back gives its echo, message by message |
| RequestRoundTrip.EchoIsSaid | crates/translator/src/c2o.rs:25-170 | the echo is the conversation itself iff no user message is mute after a tool message, there is nothing but text, and arguments are compact |
| RequestRoundTrip.RequestRoundTrips | crates/translator/src/o2c.rs:27-148 | an optional system message and a conversation come back unchanged (role, text, other parts, tool calls, tool_call_id) iff the system message is text and not empty and the conversation is faithful |
| RequestRoundTrip.MuteUserVanishes | crates/translator/src/c2o.rs:110-119 | a user message without a text part right after a tool message leaves no trace |
| ClaudeRequestTrip.ResultTurnBack | crates/translator/src/c2o.rs:65-119 | a turn of tool results and texts comes back as one turn: results as strings in order, then the texts as one |
| ClaudeRequestTrip.PlainTurnBack | crates/translator/src/c2o.rs:121-168 | any other turn comes back as one turn: the texts as one, then the tool uses with their inputs re-serialised |
| ClaudeRequestTrip.ClaudeRequestRoundTrips | crates/translator/src/o2c.rs:27-148 | every request with alternating turns comes back in that normal form, behind a placeholder iff the user is not first; unchanged iff it was in that form |
| Utf8.CutsKeepText | crates/server/src/routes/mod.rs:64-67 | dropping chunks that do not decode keeps the text iff every cut is between characters; otherwise a character of more than one byte is lost |
| Utf8.TornCharacterIsLost | crates/server/src/routes/mod.rs:64-67 | a character of more than one byte, cut after its first, is lost whole |
| Sse.SseFrameParser.Feed | crates/server/src/routes/mod.rs:63-103 | all frames returned and the buffer left are those of the whole text kept so far, however it was cut; a chunk that does not decode is dropped |
| Sse.SseFrameParser.Drain | crates/server/src/routes/mod.rs:70-102 | every complete frame is taken out, the rest stays |
| Sse.SseFrameParser.FindSeparator | crates/server/src/routes/mod.rs:73 | the scan stops at two line feeds in a row with none before, or at the end when there are none |
| Sse.SseFrameParser.ParseOne | crates/server/src/routes/mod.rs:77-99 | event name and data lines of one frame; a frame without data yields nothing |
| Sse.FeedIsSplit | crates/server/src/routes/mod.rs:63-103 | feeding a and then b returns the frames and leaves the buffer of feeding a+b |
| Sse.LinesOf | crates/server/src/routes/mod.rs:79 | a text is read line by line, with CRLF as a line end |
| Sse.FrameSays | crates/server/src/routes/mod.rs:77-99 | a frame is its data lines joined by line feeds under the last event name, "message" when that is missing; comments and all other lines say nothing |
| Text.TrimDrops | crates/server/src/routes/mod.rs:80-85 | trimming takes white space off both ends and leaves none there |
| Sse.PrintedParses | crates/translator/src/stream_state.rs:390-392 | a printed one-line event parses to itself up to trimming |
| Sse.StreamParses | crates/translator/src/stream_state.rs:390-392 | printed events in a row are split where they were joined, with nothing left over |
| Sse.WideFrames | crates/server/src/routes/mod.rs:77-99 | frames hold no more characters of several bytes than the text they were parsed from |
| Sse.PrintedStreamSurvivesCuts | crates/server/src/routes/mod.rs:63-103 | printed events cut into chunks of bytes are read back one by one when cut between characters; the list is the same iff every cut is between characters, names are not empty and nothing has white space at its ends |
| Sse.ReadBackSame | crates/server/src/routes/mod.rs:80-99 | when an event is read back exactly as printed |
| Ledger.Store.PreChargeAtomic | crates/server/src/pipeline.rs:177-238 | succeeds iff quota minus used, and for a limited token its remainder, is at least the amount, and then charges both; otherwise nothing changes |
| Ledger.Store.SettleAtomic | crates/server/src/pipeline.rs:240-280 | both layers move by the difference, without a check |
| Ledger.Store.RefundAtomic | crates/server/src/pipeline.rs:282-320 | both layers move back, the exact inverse of the charge |
| Ledger.Store.UpdateTokenStatus | crates/server/src/pipeline.rs:159-163 | only the status of one row changes |
| Ledger.Store.Perform | crates/server/src/pipeline.rs:159-321 | any transaction of another request |
| Ledger.PreCharge | crates/core/src/billing.rs:98-142 | when a session is granted, what it records, and the charged books; an error leaves the books alone |
| Ledger.Settle | crates/core/src/billing.rs:152-192 | refused when already settled or negative, otherwise the difference moved and the mark set by what the look saw, whatever others do to the books before the look and before the mark |
| Ledger.MeanwhileOnBooks | crates/server/src/pipeline.rs:159-321 | other requests' transactions, in any number and order |
| Ledger.Refund | crates/core/src/billing.rs:195-210 | the whole pre-charge returned by the flag captured at pre-charge |
| Ledger.NetCharge | crates/core/src/billing.rs:98-210 | pre-charge then refund is nothing; pre-charge then settle is the actual cost, whatever the estimate |
| Billing.TurnMovesHeld | crates/core/src/billing.rs:152-210 | every transaction moves the books by exactly the change in what its session holds |
| Billing.RunConserves | crates/server/src/pipeline.rs:177-321 | in every interleaving each balance is its opening value moved by what the sessions hold, token layer by the captured flag, remain plus used constant |
| Billing.OverdraftBound | crates/server/src/pipeline.rs:193-230 | in every interleaving used and remain exceed their limits by at most the settlements' excess over their own pre-charges |
| Billing.RefusedIff | crates/server/src/pipeline.rs:193-230 | in every interleaving a request ends refused iff, when it was charged, the user's quota minus used or a limited token's remainder was less than its estimate |
| Billing.OnlyMarksAndFlags | crates/server/src/pipeline.rs:159-321 | in every interleaving a token's unlimited flag is what the administrator set last, and its status is the one it had or 3 |
| Billing.RunWatches | crates/core/src/billing.rs:169-188 | the invariant behind the mark: a drained token is marked, about to be looked at, reserved enough to refill, or never settled on |
| Billing.ExhaustedAtRest | crates/core/src/billing.rs:152-192 | once all sessions are closed, a drained token with a limited settlement carries status 3 |
| Billing.RunStaysTruthful | crates/core/src/billing.rs:180-188 | while nothing was given back, marks and sessions about to mark are right |
| Billing.RunRecords | crates/core/src/billing.rs:180-188 | in every interleaving a look that found the token drained has led to a mark or is about to, and nothing else leads to one |
| Billing.MarkAtRest | crates/core/src/billing.rs:152-210 | for every run at rest: status 3 iff it was there or some request found the token drained; it says exactly "drained and settled on" iff a token found drained is drained still |
| Billing.MarkIsExact | crates/core/src/billing.rs:152-210 | in particular it does when nothing was given back |
| Billing.MarkCanBeStale | crates/core/src/billing.rs:180-188 | a run that ends with status 3 on a token with 5 left |
| Billing.ClosedStaysClosed | crates/core/src/billing.rs:157-161 | nothing that happens later moves a closed session |
| Billing.UninterruptedSettlement | crates/core/src/billing.rs:152-192 | adjusting, looking and marking without interruption are the manager's settle |
| Billing.UninterruptedCharge | crates/core/src/billing.rs:98-142 | asking and charging without interruption are the manager's pre_charge, condition and effect |
| Billing.UninterruptedRefund | crates/core/src/billing.rs:195-210 | the refund step is the manager's refund |
| Billing.RunTransacts | crates/server/src/pipeline.rs:159-321 | the books of a run are what its storage transactions make of them one by one |
| Billing.OthersLeaveAlone | crates/core/src/billing.rs:22-30 | only its own actions move a session |
| Failover.Decide | crates/core/src/executor.rs:122-135 | each answer leads where the reference goes: next key, next binding, or out |
| Failover.Charge | crates/core/src/executor.rs:550-576 | when a request may start, the session charged at the first candidate's price, and one opening call |
| Failover.ActualPricing | crates/core/src/executor.rs:664-692 | the price the reply is charged at: as it was at the charge when the first candidate's binding serves, else looked up anew, free when that fails |
| Failover.PriceIsCurrentIff | crates/core/src/executor.rs:664-692 | that is the current price iff another binding serves or the price has not changed since the charge |
| FailoverTrail.AttemptLeads | crates/core/src/executor.rs:122-135 | for every answer: 401 and 403 disable the key; 404, and 400 for context length, go to the next binding without a mark; other 400, 422 and invalid requests end with their error and no mark; all else adds one failure to this pair alone, touches no status and goes to the next key |
| Failover.Mark | crates/core/src/executor.rs:800-814 | cooldown, disabling, or no mark at all |
| Failover.Meanwhile | crates/core/src/health.rs:236-337 | other requests' operations, in any number and order |
| Failover.TryKey | crates/core/src/executor.rs:584-816 | one pass of the loop body, others acting before the check and while the answer is awaited, is one step of the recursive reference, health table, books and audit variables included, without a billing call |
| Failover.TryAll | crates/core/src/executor.rs:583-818 | both loops refine the recursive reference: same attempts, same final health, same way out; the books change only by others, and billing is not called |
| Failover.Execute | crates/core/src/executor.rs:529-855 | reply, audit fields and health are those of the reference; billing is called exactly twice, once to open and once to settle the reply's cost or to refund, on books others have changed in between, before the close and inside the settlement (that no group of the grid is empty is Routing.GroupsAreReady) |
| Failover.ExecuteStream | crates/core/src/executor.rs:865-1122 | either an opening call and a refund, or an opening call alone and one unsettled session handed out with the serving binding's price |
| Failover.UndisturbedBill | crates/core/src/executor.rs:569-855 | when nobody else touches the books the request costs the reply's actual cost, or nothing |
| Failover.StreamTail | crates/server/src/routes/mod.rs:515-600 | however a stream ends its session is settled by exactly one call, on the usage that came through |
| Failover.Forward | crates/server/src/routes/mod.rs:518-593 | the usage of every piece up to the one that stops the stream; what stops it depends on the translation |
| FailoverTrail.MoveCovers | crates/core/src/executor.rs:583-818 | every position passed was visited unless its binding had been skipped |
| FailoverTrail.RunTrail | crates/core/src/executor.rs:583-818 | visits in order within the first three bindings, nothing after a 404 or context-length 400 in its binding, nothing after an ending; running out means every other key was looked at |
| FailoverTrail.ReplyIsCharged | crates/core/src/executor.rs:658-712 | a cost is settled iff a reply arrived, and it is that of the last attempt's reply at the price looked up for its own binding, free when that lookup failed |
| FailoverTrail.ReplyTells | crates/core/src/executor.rs:658-855 | for every run: attempted keys in order, the last of them, status and outcome of its attempt; when all keys are used up, of the last attempt made |
| FailoverTrail.ConsumedIsSum | crates/server/src/routes/mod.rs:518-593 | the tokens priced for a stream are the sums, prompt and completion, over the items up to and including the first that ends it: a broken connection, a client gone in passthrough, an untranslatable piece from OpenAI |
| FailoverTrail.RunIsLogged | crates/core/src/executor.rs:583-818 | a key is tried iff available then; the table ends as the others' operations, before each check and during each attempt, and the marks make it: the key disabled after 401 or 403, one failure of the pair after a transient failure, nothing after any other answer |
| FailoverTrail.StaysDisabled | crates/core/src/health.rs:253-264 | from a 401 or 403 on the key stays unusable unless somebody revives it |
| FailoverTrail.DisabledKeyIsDone | crates/core/src/executor.rs:802-805 | a key that answered 401 or 403 is not tried again in any binding unless somebody revives it |
| FailoverSessions.ChargeIsAction | crates/core/src/executor.rs:569-576 | the loop's charge is asking and charging in the billing protocol |
| FailoverSessions.CloseIsAction | crates/core/src/executor.rs:698-823 | its close is either the three steps of a settlement, with any actions of others in between, or the one of a refund |
| FailoverSessions.ChargedAndClosed | crates/core/src/executor.rs:529-855 | in the billing run in which a request asks, is charged and closes once, the books are what the loop's charge, the others' transactions and the close make of them, and its session ends closed |
| FailoverSessions.RequestIsASession | crates/core/src/executor.rs:529-855 | whatever others do while it tries keys and while it is being closed, the books the loop leaves are those of that run |
| FailoverSessions.StreamIsASession | crates/server/src/routes/mod.rs:515-600 | the same of a streamed request, settled after the stream on the usage that came through |
| Health.HealthManager.IsAvailable | crates/core/src/health.rs:198-226 | the availability answer for one pair, unseen keys available |
| Health.HealthManager.MarkCooldown | crates/core/src/health.rs:236-248 | one more failure (saturating) and its window, for this pair only |
| Health.HealthManager.MarkDisabled | crates/core/src/health.rs:253-264 | status disabled, cooldowns forgotten |
| Health.HealthManager.RestoreDisabled | crates/core/src/health.rs:311-320 | every listed key is as new |
| Health.HealthManager.SyncKeyFromDb | crates/core/src/health.rs:328-337 | the given status; only Active forgets the cooldowns |
| Health.HealthManager.CheckRecoveries | crates/core/src/health.rs:287-302 | exactly the expired cooldowns of every key are dropped |
| Health.TableProjects | crates/core/src/health.rs:198-337 | the table is its pairs and statuses, each evolving on its own |
| Health.OthersDoNotMatter | crates/core/src/health.rs:198-248 | the answer for a pair depends on nothing but its own failures, its key's status changes, and purges |
| Health.WindowBounds | crates/core/src/health.rs:236-248 | windows are 2 s after one failure, double up to ten failures and are 1800 s from eleven on, never decreasing |
| Health.RecordIsStreak | crates/core/src/health.rs:236-302 | in every run a record is the current failure streak's length and min(2^n, 1800) seconds from the last failure |
| Health.AvailabilityIsHistory | crates/core/src/health.rs:198-226 | available iff the key's status is Active or Cooldown and the streak's window is over; 1800 s after the last failure only the status can hold it back |
| Health.WindowsNeverShrink | crates/core/src/health.rs:236-248 | within an uncut streak windows never get shorter |
| Health.PurgeIsUnseen | crates/core/src/health.rs:287-302 | purging changes no answer, now or later, until the pair fails again |
| Health.PurgeForgives | crates/core/src/health.rs:287-302 | the next failure's window is unchanged by a purge iff the pair was cooling down or had no streak |
| Routing.Route | crates/core/src/router.rs:63-115 | filtering, expansion, dropping of empty bindings and both orders compute the specified grid |
| Routing.Expand | crates/core/src/router.rs:91-103 | the available keys of one binding, in order |
| Routing.RoutePriority | crates/core/src/router.rs:123-134 | keys sorted within bindings, bindings sorted, both stably |
| Routing.DrawOne | crates/core/src/router.rs:171-182 | the walk finds the group whose stretch holds the pick; the default index is never needed |
| Routing.DrawAll | crates/core/src/router.rs:171-185 | drawing until the pool is empty |
| Routing.RouteLoadBalance | crates/core/src/router.rs:147-186 | the weighted draw over the prepared groups |
| Routing.DrawIsFair | crates/core/src/router.rs:165-182 | exactly as many of the picks choose a given group as its first key's weight, or one if that is less |
| Routing.DrawnPermutes | crates/core/src/router.rs:171-185 | for every sequence of picks the draw is a permutation of the groups |
| Routing.EveryOrderIsPossible | crates/core/src/router.rs:171-185 | every permutation is the outcome of some picks |
| Routing.GroupList | crates/core/src/router.rs:70-73 | a comma-separated list admits exactly the users of the groups listed |
| Routing.GroupsAreBindings | crates/core/src/router.rs:63-115 | each group routed is one admitted binding's available keys, and every such binding is routed |
| Routing.KeysRouted | crates/core/src/router.rs:63-115 | a key is routed iff its binding admits the user, has quota, and the key is available on it; and it carries that binding's channel, upstream name, priority and weight |
| Routing.GroupsAreReady | crates/core/src/router.rs:104-186 | no group is empty, each is in key order, and under Priority bindings ascend |
| RoutingOrder.RoutesAreGroups | crates/core/src/router.rs:63-186 | under Priority the groups are those of the candidates, read off the list one by one, in a stable sort by binding priority; under LoadBalance they are drawn from that list |
| RoutingOrder.RoutedFields | crates/core/src/router.rs:91-134 | each group is one candidate's available keys in key order with that candidate's own fields, and under Priority the candidates' own priorities ascend |
| RoutingOrder.CandidateHasGroup | crates/core/src/router.rs:76-115 | every candidate that admits the user, has quota and an available key has its group |
| RoutingOrder.CandidateDraw | crates/core/src/router.rs:165-182 | a candidate's group is drawn by exactly max(weight, 1) of the picks, with the candidate's own weight |
| Sorting.SortSorts | crates/core/src/router.rs:124-132 | sorting ascends and is a stable permutation |
| Sorting.SortIsTheSort | crates/core/src/router.rs:124-132 | any stable ascending permutation is this one |
| Keys.KeyRepo.GetKeysForChannel | crates/storage/src/keys.rs:53-70 | the channel's rows by priority, then id |
| Keys.ListingMember | crates/storage/src/keys.rs:53-70 | a key is listed iff it is a row of the channel |
| Keys.ListingOrder | crates/storage/src/keys.rs:53-70 | the listing ascends by priority, and by id among equal priorities |
| Keys.KeyRepo.ReorderKeys | crates/storage/src/keys.rs:293-352 | accepted iff the list is a permutation of the channel's keys; then priorities are rewritten, otherwise nothing is; a wrong count, a duplicate and a foreign key are told apart, in this order |
| Keys.KeyRepo.FindRepeated | crates/storage/src/keys.rs:319-328 | a duplicate is found iff there is one |
| Keys.KeyRepo.WriteOrder | crates/storage/src/keys.rs:340-351 | the updates row by row |
| Keys.ReorderedRow | crates/storage/src/keys.rs:340-351 | each row ends with ten times its place in the list, and only listed rows change, only in priority |
| Keys.DragOrderIsListed | crates/storage/src/keys.rs:293-352 | after an accepted reordering the listing is exactly the given order |
| Keys.OthersKeepTheirOrder | crates/storage/src/keys.rs:293-352 | the listings of other channels do not change |
| Keys.DragOrderIsTryOrder | crates/core/src/router.rs:63-134 | a binding on that channel offers its available keys in that order |
| QuotaCounter.ConfigCache.Get | crates/core/src/cache.rs:226-243 | loads only when nothing is cached, and returns what is cached |
| QuotaCounter.ConfigCache.Invalidate | crates/core/src/cache.rs:219-222 | nothing is cached |
| QuotaCounter.ConfigCache.GetSmallModelQuota | crates/core/src/cache.rs:329-337 | the cached entry, if any |
| QuotaCounter.ConfigCache.UpdateSmallModelQuota | crates/core/src/cache.rs:345-362 | counter and mark of an existing entry, nothing else |
| QuotaCounter.QuotaTable.AddUsage | crates/storage/src/channels.rs:457-474 | the stored counter grows by the difference, the mark is overwritten |
| QuotaCounter.CountsWhen | crates/core/src/tracker.rs:195-213 | a success counts iff there is a limit and a unit: its tokens unless there are none, or one call |
| QuotaCounter.Accumulate | crates/core/src/tracker.rs:184-246 | uninterrupted, both counters grow by the same amount and both marks say whether the limit is reached |
| QuotaCounter.UninterruptedRecording | crates/core/src/tracker.rs:184-246 | looking, writing the cache and writing the row without interruption are that recording |
| QuotaCounter.StoredCounter | crates/storage/src/channels.rs:457-474 | in every interleaving the stored counter is its start plus all differences written, none overwritten |
| QuotaCounter.CachedCounter | crates/core/src/tracker.rs:184-246 | in every interleaving the cached counter is at most the stored one plus what is still to be written, and no mark is set before the limit is reached |
| QuotaCounter.RunLags | crates/core/src/tracker.rs:184-246 | in every interleaving every counter and mark, cached, stored or held by a task, is short by exactly what its reader missed, counted from the order of steps and the amounts alone |
| QuotaCounter.MarkIsRightIff | crates/core/src/tracker.rs:214-237 | with no write outstanding the stored mark is right iff its last writer had not missed so much that the limit lies in between; likewise the cached counter and mark |
| QuotaCounter.RunTracks | crates/core/src/cache.rs:226-243 | having missed nothing depends on the order of steps alone: who read before whose write |
| QuotaCounter.ExactIff | crates/core/src/cache.rs:226-243 | in every interleaving the cached counter is exact iff the order of steps left it up to date |
| QuotaCounter.SynchronisedWhenAlone | crates/core/src/tracker.rs:184-246 | when no two recordings or loads overlap, the cached entry is the stored row whenever none is under way |
| QuotaCounter.OverlapLosesTheMark | crates/core/src/tracker.rs:214-237 | two overlapping recordings of 6 against 10 leave 12 stored, 6 cached, and neither marked |
| QuotaRecordings.RunPays | crates/core/src/tracker.rs:184-246 | in every interleaving what is stored and still to be stored is what all requests owed, less what was owed by those that looked while nothing was cached |
| QuotaRecordings.LostIffBlind | crates/core/src/tracker.rs:189-193 | something is lost iff some request that counts looked while nothing was cached |
| QuotaRecordings.RecordedIff | crates/core/src/tracker.rs:184-246 | once no recording is under way the stored counter has grown by all that was owed iff that never happened, and otherwise by exactly what was not lost |
| QuotaRecordings.BlindLoses | crates/core/src/tracker.rs:189-193 | a request of 6 that succeeds before anything is cached leaves the stored counter at 0 |

## Left out

- OpenaiAgreement.OpenaiStreamAgreesWithBatch: says nothing about input_tokens, because message_start is sent before usage is known and always carries 0 (crates/translator/src/stream_state.rs:294), nor about id and model.
- RoundTrip.ContentSurvives: compares tool calls for indices from 0 to 2^31 - 1; -1 is the machine's own initial value and larger ones are cut down to 32 bits.
- Keys.KeyRepo.ReorderKeys: priorities are unbounded integers; the code computes them in 32 bits, which needs more than 200 million keys in one channel to matter.
- Failover.Execute: the shape of the reply body and the usage log are not modelled; storage calls succeed; the text of key labels is not built; others act before each availability check, while each answer is awaited, before the close and inside the settlement, but not between reading the token's unlimited flag and the pre-charge, which Billing interrupts.
- Requests.BuildBlocks: a content part that is itself of type tool_use or tool_result is passed on like any other part; the code passes it on too, but the way back would read it as such a block (crates/translator/src/o2c.rs:89-90, crates/translator/src/c2o.rs:60-63).
- ClaudeRoundTrip.ClaudeContentSurvives: for at most 2^31 tool calls, after which indices no longer fit in 32 bits.
- ClaudeRequestTrip.ClaudeRequestRoundTrips: for roles user and assistant, alternating, with tool results from the user only, as the Claude API has them.
- Block and tool-call indices, token sums and balances are unbounded integers; the code keeps them in 32 or 64 bits.
- Bytes of UTF-8 beyond what a cut can tell (a lead byte and how many bytes follow).
- Bytes and JSON text inside `process_chunk`, `process_event` and `extract_usage`: the machines start from parsed payloads, and a chunk that cannot be decoded is an error outside the model (`SseFrameParser` drops it, which is modelled).
- Timestamps (`created`) and the constant fields of each chunk.
- Which machine `stream_sse_response` picks (crates/server/src/routes/mod.rs:495-511): each machine is modelled by the input its own documentation names.
- Request fields that are passed through or mapped by a table: tools, tool_choice, max_tokens, temperature, reasoning effort, response_format.
- A tool_use block that starts with a non-empty `input`: the stream machine reads only id and name.
- "An exhausted small model is never routed", and window resets: the counter updated by the tracker is not the state the router's predicate reads (crates/core/src/health.rs:405-418).
- Key usage counters, persistence of key status, and loading of disabled keys at start-up.
- The optimistic answer of `try_is_available` under lock contention: the routing predicate is an arbitrary function.
- Pricing formulas and `evalexpr`: costs are arbitrary natural numbers.
- Storage errors during settle, refund and the quota update, which the code only logs.
- Administration of users, tokens and channels apart from the unlimited flag, sessions, authentication, reports, configuration and the user interface: reading and writing single rows, with no property that spans operations.
