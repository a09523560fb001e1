# Gateway cores, verified

A Dafny model of the stateful parts of the OmniSwitch gateway whose guarantees
hold only because of what every step keeps. Each part has two layers: the
operation as a function on values, with theorems about it over all inputs, runs
or interleavings, and the class the program really uses, whose methods are proved
to compute that function on their fields.

- **Budgets.** One request may cost what its key has left, and many requests run
  at once. `BudgetEntries` is the arithmetic of one scope; `BudgetProtocol` lets
  requests, the two store writes of a charge, the two store reads of a refresh,
  other writers, the clock and eviction interleave freely; `BudgetSteps` proves
  that every step keeps the invariant and `BudgetSafety` draws the theorems from
  it; `BudgetLedger` has the entries, reservations and charges as objects in a map
  and a list.
- **Streams.** `AnthropicStream` turns Anthropic events into chat chunks,
  `MessagesStream` turns chunks into Anthropic events and `ResponsesStream` into
  Responses events, whose item ids `ItemIds` follows. `ChatStream` and
  `AnthropicEvents` hold independent readers and a protocol checker; the theorems
  compare what those readers learn. `EndToEnd` composes the two translations.
  `Framing` is the writer that cuts bytes into events, `Replay` the pair that
  replays a response as chunks and aggregates chunks to a response.
- **Stored configs.** `ConfigLru` is the multi-key cache, whose order of use
  `ConfigRecency` follows exactly; `ConfigCache` has the lookups, shared reads and
  invalidations around it, under every interleaving.
- **Agent tasks.** `A2ATasks` has the states of a task and the bounded registry.
- **Login keys.** `JwksCache` has the shared fetch, the backoff and the grace for
  stale keys.
- **Fast forms.** `Accelerator` and `Guardrails` compare accelerated rules with plain
  ones, `RateLimit` a pruned sliding window with the full history.

Conventions. Money is counted in whole micro-dollars and time in whole units of a
monotone clock; a month is the number of its first day, 0 when there is none. The
store, other processes and the environment appear as parameters or as steps.
Identity that the program gets from pointers is a number: that of a config read
(`Entry.readAt`) or of a tool call's place in its list (`Calls.byIndex`).

Findings the proofs settled. Each is an exact condition, with an input at which it
fails:

- Accelerated rules are plain rules exactly when the scan can answer for every rule
  that triggers (`Guardrails.AcceleratedIsPlainWhen`). Validation reports 256 refused
  patterns at most, so the 257th is taken over by a scanner that never matches it
  (`Guardrails.MissedWhenFull`, `Guardrails.OneTooMany`); and a scan reports no more
  matches than its buffer has records, 682 at first (`Guardrails.RecordsRunOut`,
  `Guardrails.OneRecordShort`).
- Accelerated rules are not run on an empty text, so there they agree with plain
  rules exactly when none of them would trigger (`Guardrails.EmptyText`,
  `Guardrails.EmptyTextLoses`).
- The advised wait admits a refused caller exactly when fewer admissions than the
  limit came after the oldest one in the window (`RateLimit.WaitHelpsWhen`). That
  always holds while a key's limit is not lowered (`RateLimit.WaitHelps`) and can fail
  after it was (`RateLimit.LoweredLimit`).
- An upstream's stop reason reaches a Messages client unchanged only in three cases
  (`EndToEnd.StopSurvivesWhen`); `stop_sequence` arrives as `end_turn`
  (`EndToEnd.StopSequenceIsLost`).
- A tool call whose first delta has no id is shown under another id, so the two
  sides of the Messages translation agree exactly when every call opens with one
  (`MessagesStream.MessagesSayTheSame`, `MessagesStream.CallWithoutId`).
- A Responses client is given the calls of the chunks exactly when no call gets its id
  after it was opened (`ResponsesStream.ResponsesSayTheSame`,
  `ResponsesStream.CallGetsItsId`).
- While all chunks carry one response id, a complete Responses stream gives each item
  one id exactly when no delta brings a call that was opened without an id another one
  than was made up for it (`ItemIds.ItemIdsAgree`, `ItemIds.LateIdRenames`); when the
  chunks change their response id the message changes its own
  (`ItemIds.ResponseIdRenames`).
- A replayed response is aggregated to itself exactly when its choice indexes
  increase (`Replay.ReplayThenAggregate`, `Replay.SecondChoiceFirst`).

## Model

| member | source | states |
|---|---|---|
| BudgetSafety.NoJointOverspend | internal/gateway/budget_ledger.go:387-542 | in every interleaving with fixed limits, one writing process and charges no larger than their reservation, stored, pending, lost and reserved amounts together stay within each limit, for the lifetime and for every month |
| BudgetSafety.NoChargeMissed | internal/gateway/budget_ledger.go:151-175 | in every interleaving, whatever others write, the committed usage counts every charge begun since the entry exists at least once and at most twice on top of what others had stored when it was read |
| BudgetSafety.RunKeepsInv | internal/gateway/budget_ledger.go:284-617 | the ledger invariant holds after every run of admissions, loads, charges, store writes, releases, evictions and clock steps |
| BudgetSafety.StepKeepsInv | internal/gateway/budget_ledger.go:284-617 | each single step keeps it |
| BudgetSafety.CommittedIs | internal/gateway/budget_ledger.go:151-175 | the committed usage of a component is the snapshot's reading plus exactly the charges pending, stored since, or lost |
| BudgetSafety.CountedOnceOrTwice | internal/gateway/budget_ledger.go:26-30 | no charge is missed and none is counted more than twice |
| BudgetSafety.SpentIsCounted | internal/gateway/budget_ledger.go:387-479 | with one writer admission never sees less than was spent |
| BudgetSafety.LoadDropsFinished | internal/gateway/budget_ledger.go:340-378 | in every run: once a charge has finished, a load that is started and installed after that takes it out of the done buckets for as long as the entry lives, so that from then on it is counted by the snapshot alone |
| BudgetSafety.LoadEndsOvercount | internal/gateway/budget_ledger.go:340-378 | in every run: when all charges had finished before such a load and none began since, the committed usage is the snapshot plus what was lost, and with one writer exactly what was spent |
| BudgetSafety.QuietLoadIsExact | internal/gateway/budget_ledger.go:351-378 | once such a load completes with nothing pending the committed usage is what the store held plus what was lost, with no double counting |
| BudgetSafety.ReserveFits | internal/gateway/budget_ledger.go:479-514 | a request that is not denied fits under every limit beside what is committed and reserved |
| BudgetSafety.DenialIsDeserved | internal/gateway/budget_ledger.go:476-514 | with one writer and no charge in flight or freshly finished, a request whose scope is known well enough is denied exactly when what was truly spent has used up a limit that counts now, or leaves no room for it beside the running requests, and the reason names such a limit |
| BudgetEntries.PassDecides | internal/gateway/budget_ledger.go:395-514 | for every entry and time: what is not known well enough makes the pass wait, load, ask again or give up; what is known lets the request pass without limits and else denies it exactly when some limit that counts now is used up or exceeded by committed, reserved and estimated amounts together, naming the first such limit, and reserves it otherwise |
| BudgetEntries.PassChanges | internal/gateway/budget_ledger.go:395-476 | a pass starts a load exactly when its own goroutine runs it, or when the snapshot is old enough and no load runs or backs off; it notes the limits it decided by and reserves the estimate of an admitted request, and nothing else changes |
| BudgetSafety.UsablePassStep | internal/gateway/budget_ledger.go:387-476 | an admission pass on a usable entry keeps the invariant, whatever its verdict |
| BudgetSafety.RunKeepsTerms | internal/gateway/budget_ledger.go:59-75 | with fixed limits every run leaves them fixed |
| BudgetEntries.AdmissionEnds | internal/gateway/budget_ledger.go:391-437 | whatever an admission finds each time it looks at the entry, its third pass is the last |
| BudgetEntries.AddLostKeeps | internal/gateway/budget_ledger.go:590-617 | keeping a failed charge adds exactly its lifetime part, and its monthly part if it is of the current month, to what is lost; merging past months changes neither total |
| BudgetEntries.SweepKeeps | internal/gateway/budget_ledger.go:596-607 | merging the records of past months keeps the lifetime total and the current month's totals |
| BudgetEntries.AddLostIsSmall | internal/gateway/budget_ledger.go:590-617 | however many charges fail, at most two records remain once months only grow |
| BudgetEntries.TotalAddTo | internal/gateway/budget_ledger.go:572-589 | a charge added to a bucket raises each component's total by its own part |
| BudgetSteps.TickStep | internal/gateway/budget_ledger.go:279-283 | a new month leaves every count right |
| BudgetSteps.ReadKeyStep | internal/gateway/budget.go:84-91 | reading the key row sees exactly the charges whose spend is stored |
| BudgetSteps.ReadUsageStep | internal/gateway/budget.go:92-99 | reading the month later sees exactly the charges of that month whose row is stored |
| BudgetSteps.InstallStep | internal/gateway/budget_ledger.go:362-378 | installing a load and dropping old buckets loses no charge |
| BudgetSteps.AbandonStep | internal/gateway/budget_ledger.go:355-362 | a failed load changes no count |
| BudgetSteps.ReservedBegin | internal/gateway/budget_ledger.go:517-542 | a charge takes the place of its reservation without a gap in between |
| BudgetSteps.WriteLogStep | internal/gateway/gateway.go:779-793 | a charge stays counted while its log row is written |
| BudgetSteps.WriteSpendStep | internal/gateway/gateway.go:779-793 | a charge stays counted while its spend is written |
| BudgetSteps.FinishStep | internal/gateway/budget_ledger.go:544-589 | a finished charge moves to the bucket of its generation, its failed parts to the lost record, and no part is dropped or doubled |
| BudgetSteps.ReleaseStep | internal/gateway/budget_ledger.go:198-219 | returning a reservation keeps the reserved sum that of the ones still held |
| BudgetSteps.EvictStep | internal/gateway/budget_ledger.go:308-339 | an entry that is not busy may be dropped at any time |
| BudgetLedger.SumCharges | internal/gateway/budget_ledger.go:158-173 | the loops over pending, done and lost charges add up exactly the components |
| BudgetLedger.BudgetEntry.CommittedIn | internal/gateway/budget_ledger.go:153-175 | the committed usage of the entry's value |
| BudgetLedger.BudgetEntry.BusyWhen | internal/gateway/budget_ledger.go:308-333 | an entry is kept from eviction exactly while a reservation on it is live, a charge is pending or a load runs; otherwise nothing is reserved on it |
| BudgetLedger.BudgetEntry.StartLoading | internal/gateway/budget_ledger.go:340-350 | a load starts at the current generation, which then advances |
| BudgetLedger.BudgetEntry.EndLoading | internal/gateway/budget_ledger.go:353-378 | installs the snapshot and forgets older buckets, or notes the failure |
| BudgetLedger.BudgetEntry.SweepLost | internal/gateway/budget_ledger.go:596-607 | the loop merges the lost records of past months as one |
| BudgetLedger.BudgetEntry.KeepLost | internal/gateway/budget_ledger.go:590-617 | computes the lost records after one more failed charge |
| BudgetLedger.BudgetEntry.AdmitHere | internal/gateway/budget_ledger.go:395-476 | one pass of admission, with its verdict, the load it starts and the reservation it makes; the verdict is a denial exactly when a limit that counts is used up or would be exceeded |
| BudgetLedger.BudgetEntry.GiveBack | internal/gateway/budget_ledger.go:207-219 | the reserved sums stay those of the live reservations and become zero with the last one |
| BudgetLedger.BudgetEntry.FinishPending | internal/gateway/budget_ledger.go:548-589 | ends a running charge as the value function says, exactly once |
| BudgetLedger.BudgetLedger.EvictIdle | internal/gateway/budget_ledger.go:308-321 | drops exactly the idle tail of the list, up to the first recent or busy entry |
| BudgetLedger.BudgetLedger.EvictOne | internal/gateway/budget_ledger.go:323-333 | drops the least recently used entry that is not busy among the last 64, or nothing when there is none |
| BudgetLedger.BudgetLedger.EntryFor | internal/gateway/budget_ledger.go:284-306 | the scope's entry moves to the front; a new one is made unless the ledger is full of busy entries; map and list keep holding the same entries in order of use within capacity |
| BudgetLedger.BudgetLedger.Admit | internal/gateway/budget_ledger.go:387-476 | a caller that knows of no limits passes without a look at the ledger; else one pass for a scope decides as stated for `BudgetEntries.PassDecides`, touches no other entry, and a reservation is live until released |
| BudgetLedger.BudgetLedger.Release | internal/gateway/budget_ledger.go:198-219 | a second release changes nothing, and a live reservation's entry is still the registered one |
| BudgetLedger.BudgetLedger.BeginCharge | internal/gateway/budget_ledger.go:517-542 | settles a live reservation of the scope in the same step, returns others, tracks a charge without one only when the scope has an entry, and touches no entry but that of the charge and that of the reservation |
| BudgetLedger.BudgetLedger.FinishCharge | internal/gateway/budget_ledger.go:548-589 | a second finish changes nothing, and the usage returned is the committed usage afterwards |
| EndToEnd.AnswerSurvives | internal/provider/stream_native.go:16-151 | an Anthropic stream that passes through chat chunks and back says the same text and the same calls in the same order, with the same final token counts, and is complete exactly when the upstream sent message_stop |
| EndToEnd.StopSurvivesWhen | internal/provider/finish.go:15-28 | the stop reason survives exactly for max_tokens, tool_use, and end_turn without tool calls |
| EndToEnd.StopShown | internal/provider/finish.go:15-28 | the stop reason the client is shown, for every upstream stop reason with and without tool calls |
| EndToEnd.StopSequenceIsLost | internal/provider/finish.go:15-28 | a complete upstream stream that ends at a stop sequence is shown to the client as the end of a turn |
| EndToEnd.IdentitySurvives | internal/gateway/compat.go:870-907 | the client sees the id and model of the upstream's message |
| EndToEnd.OneEnding | internal/gateway/compat.go:870-976 | whatever the upstream sends, the client receives one well-formed stream that ends |
| AnthropicStream.ChunksSayTheSame | internal/provider/stream_native.go:16-151 | a client of the chunks learns the answer the events carry, on success with its input, output, total and cached token counts, and is told of success exactly when message_stop was read |
| AnthropicStream.StreamAnthropic.Handle | internal/provider/stream_native.go:49-138 | the reaction to one event: at most one chunk, and whether reading stops |
| AnthropicStream.StreamAnthropic.Run | internal/provider/stream_native.go:49-151 | the chat stream of a body, with one ending; nothing after the stopping event is read |
| AnthropicStream.FirstChunk | internal/provider/stream_native.go:84-92 | the first chunk carries the message's id and model |
| AnthropicStream.RoleComesFirst | internal/provider/stream_native.go:29-41 | every chunk before the last has one choice; the first names the speaker and no other does |
| AnthropicStream.ChunksAreNamed | internal/provider/stream_native.go:84-151 | all chunks of a message carry its id and model, or those of the request where it gives none |
| AnthropicStream.ThinkingSurvives | internal/provider/stream_native.go:113-129 | the chunks carry all thinking text that was read, in order, and no other |
| AnthropicStream.EndingIs | internal/provider/stream_native.go:80-151 | the first error, unreadable event or message_stop decides the ending and its message; a body without one ends in a read error or as truncated |
| AnthropicStream.FinishIs | internal/provider/finish.go:5-28 | a chat client is given one of four finish reasons, and which upstream reasons give `length`, `tool_calls` and `content_filter` |
| AnthropicEvents.CheckAppend | internal/gateway/compat.go:822-976 | checking a stream piece by piece is checking it whole |
| ChatStream.PiecesSay | internal/gateway/compat.go:886-945 | all text, call deltas and finish reasons of all choices of a chunk are acted on, each kind in order |
| ChatStream.ChoiceInTurn | internal/gateway/compat.go:886-945 | within a choice the text comes first and the finish reason last |
| ToolCalls.StreamToolCalls.AddDelta | internal/gateway/compat.go:583-615 | merges a delta into the call of its index, into the latest call, or into a new one at the given position |
| ToolCalls.AddAgrees | internal/gateway/compat.go:580-615 | collecting deltas tells the same calls apart as a client that follows their indexes and ids, and agrees with it on them exactly until a call that opened without an id gets one |
| MessagesStream.MessagesAreWellFormed | internal/gateway/compat.go:822-976 | for all payloads message_start comes first, blocks are numbered in order, deltas name open blocks of their kind, all blocks stop before message_stop, and nothing follows the end, which comes exactly with [DONE] or an error |
| MessagesStream.MessagesSayTheSame | internal/gateway/compat.go:870-976 | a reader of the events knows the text, calls, counts and mapped stop reason of the chunks exactly when every call opened with an id |
| MessagesStream.CallWithoutId | internal/gateway/compat.go:916-938 | a complete stream with a call that has no id reaches the client changed |
| MessagesStream.DoneChecks | internal/gateway/compat.go:948-976 | completion stops each open block once |
| MessagesStream.FirstEvent | internal/gateway/compat.go:843-851 | the first chunk that can be read opens the message, with its id and model, the prompt tokens it reports and none sent yet |
| MessagesStream.EmptyMessage | internal/gateway/compat.go:948-976 | a stream that ends before its first chunk is a message with nothing in it |
| MessagesStream.OneBlockEach | internal/gateway/compat.go:853-932 | for all payloads as many text blocks are opened as there are runs of text: one at first and one more whenever text follows a call |
| MessagesStream.FailureEnds | internal/gateway/compat.go:877-883 | an error is the last event, with its message or a default, and what was sent before stays |
| MessagesStream.ShownIdIs | internal/gateway/compat.go:922-925 | a call is shown under its id, or under one made up from the message and its place |
| MessagesStream.MessagesStreamTranslator.CloseTextBlock | internal/gateway/compat.go:853-868 | stops the open text block and removes its first place in the open list |
| MessagesStream.MessagesStreamTranslator.WriteCall | internal/gateway/compat.go:916-938 | a tool delta closes the text block, opens a block for a new call and emits its arguments |
| MessagesStream.MessagesStreamTranslator.WriteChunk | internal/gateway/compat.go:886-945 | the nested loops over choices and deltas emit what the pieces of the chunk ask for, in order |
| MessagesStream.MessagesStreamTranslator.TranslatePayload | internal/gateway/compat.go:870-946 | each call continues the stream of all payloads received so far |
| ResponsesStream.ResponsesAreWellFormed | internal/gateway/compat.go:617-820 | for all payloads items are numbered in order, every done event and the final output repeat the concatenated deltas, and nothing follows the one completed or failed outcome |
| ResponsesStream.OutputsAreShared | internal/gateway/compat.go:623-629 | the message and the calls share the outputs out without a gap or an overlap |
| ResponsesStream.PlacedAt | internal/gateway/compat.go:765-803 | the final output has the message and every call at its place |
| ResponsesStream.SequenceIsConsecutive | internal/gateway/compat.go:636-645 | sequence numbers are 0, 1, 2, ... without the final marker |
| ResponsesStream.ResponsesSayTheSame | internal/gateway/compat.go:765-820 | the completed response has the client's text and counts, and its calls in order exactly when none of them got its id after it was opened; a call that never gets one is conveyed |
| ResponsesStream.CallGetsItsId | internal/gateway/compat.go:747-752 | a call that never gets an id is conveyed; one that gets it with its arguments is not the one that was opened |
| ResponsesStream.ResponseIsNamed | internal/gateway/compat.go:653-679 | however a stream ends, its last response has the latest id and model the chunks gave; a failure carries its message, or a default, and is the only event then sent |
| ResponsesStream.CreatedFirst | internal/gateway/compat.go:677-684 | the first chunk opens the response under its id and model |
| ResponsesStream.IdsAre | internal/gateway/compat.go:741-752 | the ids of the response, of its message and of its calls are made from the response id, of a call from its own id when it has one |
| ItemIds.ItemIdsAgree | internal/gateway/compat.go:741-763 | when all chunks carry one response id, every event about an output of a complete stream and its final output list give the item the same id exactly when no delta renames its call; without such a delta they do in every stream |
| ItemIds.RenamesChanges | internal/gateway/compat.go:747-752 | a delta changes the item id of its call exactly when the call had no id and the delta brings one that is not the one made up |
| ItemIds.SettledIsNotRenamed | internal/gateway/compat.go:603-613 | no call is renamed in a stream in which none gets its id after it was opened |
| ItemIds.LateIdRenames | internal/gateway/compat.go:747-752 | a call whose id comes with its arguments has two item ids |
| ItemIds.ResponseIdRenames | internal/gateway/compat.go:741-743 | a message whose two chunks carry different response ids has two item ids |
| ResponsesStream.FinishCalls | internal/gateway/compat.go:772-801 | the closing loop fills every place of the output list |
| ResponsesStream.ResponsesStreamTranslator.TranslatePayload | internal/gateway/compat.go:636-645 | each call continues the numbered stream of all payloads received so far |
| Framing.SplitDoesNotMatter | internal/gateway/compat.go:492-545 | however the bytes are split into writes, the same events come out as from one write of all bytes |
| Framing.FramesIsTheCut | internal/gateway/compat.go:516-529 | the cut at blank lines is the only one that cuts as early as possible and joins to the input |
| Framing.FramesAppend | internal/gateway/compat.go:516-529 | later bytes do not change events already complete |
| Framing.FindBreak | internal/gateway/compat.go:519-522 | finds the first blank line |
| Framing.DataRoundTrip | internal/gateway/compat.go:516-544 | payloads without line breaks and without white space at their ends, sent as data fields with a blank line after each, reach the translator exactly as they were, and nothing stays behind |
| Framing.PayloadsArrive | internal/gateway/compat.go:516-544 | for events of any lines the translator is given exactly the payloads of their data fields, in order |
| Framing.PayloadWhen | internal/gateway/compat.go:532-537 | a line gives a payload exactly when it is, but for white space around it, `data:` and that payload, trimmed |
| Framing.NothingWithoutData | internal/gateway/compat.go:533-536 | an event without a data field gives the translator nothing |
| Framing.LinesOfText | internal/gateway/compat.go:532 | an event is read as the lines it was written as |
| Framing.TransformResponseWriter.AllTranslated | internal/gateway/compat.go:492-545 | a writer that was given whole events has translated exactly their payloads, whatever the writes were, and holds nothing back |
| Framing.ContainsWhen | internal/gateway/compat.go:483 | the content type is searched for the marker at every place |
| Framing.TransformResponseWriter.WriteHeader | internal/gateway/compat.go:477-490 | decides once whether the response is an event stream |
| Framing.TransformResponseWriter.Write | internal/gateway/compat.go:492-504 | what was sent is a function of all bytes received, namely what the translator makes of the payloads in them; other responses pass through unchanged |
| Framing.TransformResponseWriter.Flush | internal/gateway/compat.go:507-514 | a flush emits nothing new |
| Framing.TransformResponseWriter.WriteTranslatedEvent | internal/gateway/compat.go:531-544 | the payloads of the data lines are translated in order |
| Replay.ReplayThenAggregate | internal/gateway/gateway.go:1533-1650 | aggregating a replayed response gives it back up to defaults, exactly when its choice indexes increase |
| Replay.SecondChoiceFirst | internal/gateway/gateway.go:1087-1112 | a response with its second choice first does not come back |
| Replay.CutJoins | internal/gateway/gateway.go:1603-1622 | the pieces of a text join to it, none is empty and only the last may be short |
| Replay.SplitRunes | internal/gateway/gateway.go:1603-1622 | the loop cuts exactly these pieces |
| Replay.WriteStream | internal/gateway/gateway.go:1533-1596 | the replay: spoken choices, their finish reasons, the usage when asked for, then [DONE] |
| Replay.NumberedMerge | internal/gateway/gateway.go:1624-1650 | merging numbered call deltas gives the calls back with the default type |
| Replay.NormalIs | internal/gateway/gateway.go:1533-1596 | what a choice comes back as: its text, index, call ids, names and arguments unchanged, its role, call types and finish reason filled in |
| Replay.MergeToolIs | internal/gateway/gateway.go:1624-1650 | one delta changes one call, at its index or behind the last; missing calls before it are empty functions; id and type are the last given, name and arguments grow |
| Replay.BuildersAre | internal/gateway/gateway.go:1064-1080 | for all chunks, each index named has a builder, with all its text, its last role and finish reason, and its call deltas merged in order; no other index has one |
| Replay.ChoiceIs | internal/gateway/gateway.go:1100-1107 | a builder becomes a choice with nothing changed but a missing finish reason |
| Replay.MergeToolCallDelta | internal/gateway/gateway.go:1624-1650 | merges one delta at its index, padding the list |
| Replay.StreamAggregator.Add | internal/gateway/gateway.go:1057-1085 | a chunk updates the builders of its choices and the usage |
| Replay.StreamAggregator.GetResponse | internal/gateway/gateway.go:1087-1112 | the response lists the choices by index with their defaults |
| ConfigCache.NothingStale | internal/gateway/config_routers.go:85-224 | after an invalidation of a reference no lookup of it is given, cached or joined, a result whose read began before |
| ConfigCache.AllOrNothing | internal/gateway/config_routers.go:202-220 | in every reachable state each config is cached under all its keys or none, list and map agree, sizes stay within capacity |
| ConfigCache.HitIsFresh | internal/gateway/config_routers.go:141-164 | a hit has not expired and belongs to the reference |
| ConfigCache.LandedIsFound | internal/gateway/config_routers.go:187-240 | unless an invalidation came between, for five seconds after the read landed a lookup by any key of the config is given its parsed routes, or an error exactly when its body did not parse, and afterwards nothing |
| ConfigCache.MissingIsFound | internal/gateway/config_routers.go:193-205 | a missing config is remembered for two seconds under a reference of at most 256 bytes, beside a config still cached under it; a longer reference is not remembered |
| ConfigCache.OtherwiseNotCached | internal/gateway/config_routers.go:194-202 | a read that failed or began before the last invalidation leaves what is cached alone |
| ConfigCache.EntryReports | internal/gateway/config_routers.go:190-198 | what callers of a read are given: the routes of a record that parses, an error for one that does not, an unknown config, or an entry to no one, with its keys and its time |
| ConfigCache.RepliesWith | internal/gateway/config_routers.go:122-137 | the caller is given the routes exactly when the store found a record that parses, the parse error when it does not parse, and `not found` otherwise |
| ConfigCache.BeginAnswers | internal/gateway/config_routers.go:141-182 | a lookup is given an entry that has not expired, a cached config before a remembered miss, else joins the read in flight, else starts one; expired entries go as a whole and nothing else |
| ConfigCache.DropTakes | internal/gateway/config_routers.go:108-120 | an invalidation takes exactly the configs that are cached under one of the references, under all their keys, and the misses and reads in flight under them |
| ConfigCache.LandTakes | internal/gateway/config_routers.go:202-219 | a config that lands replaces exactly those that hold one of its keys; another one stays exactly when it fits behind it and what was used later |
| ConfigCache.SingleFlight | internal/gateway/config_routers.go:165-181 | two reads of one reference run together only when an invalidation came between |
| ConfigCache.SupersededLeavesNewer | internal/gateway/config_routers.go:199-202 | a superseded read changes neither the cache nor the newer registration |
| ConfigCache.ReachableInv | internal/gateway/config_routers.go:108-224 | the invariant holds in every state that lookups, landing reads and invalidations can reach |
| ConfigCache.StepKeepsInv | internal/gateway/config_routers.go:108-224 | lookups, landings and invalidations keep the invariant |
| ConfigCache.DropStep | internal/gateway/config_routers.go:108-120 | after an invalidation nothing is cached or in flight under the references |
| ConfigCache.ConfigRouterCache.BeginLookup | internal/gateway/config_routers.go:141-182 | the first critical section of a lookup |
| ConfigCache.ConfigRouterCache.EndLookup | internal/gateway/config_routers.go:187-224 | the second critical section; its result carries the routes, the error or the miss the store answered with |
| ConfigCache.ConfigRouterCache.InvalidateRefs | internal/gateway/config_routers.go:108-120 | the loop over the references drops whole entries and the reads in flight |
| ConfigLru.StoreWhole | internal/gateway/config_routers.go:206-219 | storing an entry that takes keys over keeps all others complete and the map within capacity |
| ConfigLru.EvictKeeps | internal/gateway/config_routers.go:291-305 | eviction takes whole entries, oldest first, and not the one being stored while it fits |
| ConfigLru.RemoveWhole | internal/gateway/config_routers.go:317-324 | removing an entry by one key removes it entirely and leaves the others alone |
| ConfigRecency.EvictExact | internal/gateway/config_routers.go:291-305 | eviction takes an entry exactly when its keys and those of all entries used as recently do not fit |
| ConfigRecency.StoreExact | internal/gateway/config_routers.go:206-219 | storing an entry keeps another exactly when it holds none of the keys and fits behind what was used later |
| ConfigRecency.DropExact | internal/gateway/config_routers.go:208-213 | taking keys over costs exactly the entries that hold one of them |
| ConfigRecency.RemoveExact | internal/gateway/config_routers.go:317-324 | removing an entry takes exactly its keys |
| ConfigRecency.UseExact | internal/gateway/config_routers.go:273-280 | the key used goes to the front and the others keep their order |
| ConfigLru.ConfigLRU.Get | internal/gateway/config_routers.go:273-280 | a found key moves to the front |
| ConfigLru.ConfigLRU.PutKey | internal/gateway/config_routers.go:282-306 | puts a key and evicts until the map fits |
| ConfigLru.ConfigLRU.RemoveAll | internal/gateway/config_routers.go:317-324 | removes the keys that still point at the entry |
| A2ATasks.FirstOpDecides | internal/gateway/a2a_tasks.go:125-166 | the first thing that happens to a working task decides for good what it tells: an answer its messages and artifact, a failure its note, a cancel neither; it can be stopped as long as nothing but cancels happened, and is stopped at most once |
| A2ATasks.CanceledOnce | internal/gateway/a2a_tasks.go:125-166 | the inference is stopped at most once, and exactly when the task ends canceled while it can be stopped |
| A2ATasks.A2ATask.RequestCancel | internal/gateway/a2a_tasks.go:127-138 | cancels a working task only |
| A2ATasks.A2ATask.Finish | internal/gateway/a2a_tasks.go:142-152 | an answer counts only for a working task |
| A2ATasks.A2ATask.GiveUp | internal/gateway/a2a_tasks.go:155-166 | a failure counts only for a working task |
| A2ATasks.A2ATaskStore.Put | internal/gateway/a2a_tasks.go:200-216 | after the sweep, when it is due, at most one task makes room for the new one: at its owner's cap one of that owner's tasks, else at the global cap one of an owner with the most tasks, who held its share of them, and in both cases the oldest ended task of that owner or the oldest; it leaves both indexes and is cancelled if it was working, the new task is last of its owner's, nothing else changes, and both caps hold |
| A2ATasks.PutRegisters | internal/gateway/a2a_tasks.go:200-216 | beside the new task, last of its owner's, exactly the task that made room is gone from both indexes and the others keep their order |
| A2ATasks.LiveKeeps | internal/gateway/a2a_tasks.go:221-236 | expiry keeps exactly the live tasks of an owner, in their order |
| A2ATasks.A2ATaskStore.Prune | internal/gateway/a2a_tasks.go:218-237 | exactly the expired tasks leave both indexes and the others keep their order |
| A2ATasks.A2ATaskStore.PruneOwner | internal/gateway/a2a_tasks.go:221-236 | filters one owner's list in place |
| A2ATasks.A2ATaskStore.EvictLargest | internal/gateway/a2a_tasks.go:239-273 | an owner with the most tasks, which held at least its share of all, gives one up |
| A2ATasks.A2ATaskStore.Evict | internal/gateway/a2a_tasks.go:252-273 | takes the oldest ended task, or the oldest, out of both indexes and cancels it, and changes no other task |
| A2ATasks.A2ATaskStore.Lookup | internal/gateway/a2a_tasks.go:276-287 | only the creator finds a task, and only until it expires |
| A2ATasks.LargestHoldsShare | internal/gateway/a2a_tasks.go:239-247 | the largest of n lists holds at least the n-th part of all tasks |
| A2ATasks.RemovedSound | internal/gateway/a2a_tasks.go:264-271 | taking a task out of both indexes keeps them in agreement |
| A2ATasks.InsertedSound | internal/gateway/a2a_tasks.go:214-215 | adding a task with a fresh id keeps them in agreement |
| JwksCache.AnswerIsSound | internal/gateway/jwks_cache.go:52-101 | in every reachable state a request is refused exactly when nothing usable is held and a failure backs off, with an error; usable keys are given at once unless a forced refresh is due, which waits and keeps them; without usable keys it waits exactly when nothing backs off, and always for the fetch that runs then |
| JwksCache.AskAnswers | internal/gateway/jwks_cache.go:52-101 | the same for any state of the cache |
| JwksCache.AskChanges | internal/gateway/jwks_cache.go:52-118 | a request drops keys past their grace, may start a fetch, and notes a refresh that was forced; nothing else changes |
| JwksCache.KeysAreFrom | internal/gateway/jwks_cache.go:145-155 | the keys held are those of the last fetch that succeeded, until a request comes after their grace |
| JwksCache.NoKeysYet | internal/gateway/jwks_cache.go:145-155 | before a fetch succeeded there are none |
| JwksCache.ErrorIsFrom | internal/gateway/jwks_cache.go:156-160 | while failures last the error kept is that of the last of them, and the next fetch waits for its backoff |
| JwksCache.BackoffDoubles | internal/gateway/jwks_cache.go:32-40 | the first failure waits a second, each further one twice as long as the one before, up to a minute |
| JwksCache.AwaitedIsSound | internal/gateway/jwks_cache.go:73-100 | a caller that waited is given the keys fetched, else the keys it held, and the error of the fetch exactly when it held none |
| JwksCache.FailuresAreSpaced | internal/gateway/jwks_cache.go:32-40 | k consecutive failures span at least the sum of their backoffs, 1, 2, 4, ... seconds up to a minute |
| JwksCache.NoFetchDuringBackoff | internal/gateway/jwks_cache.go:52-95 | while a failure backs off no fetch starts |
| JwksCache.FetchRunsWhen | internal/gateway/jwks_cache.go:52-101 | a decision leaves a fetch running exactly when one ran, or nothing backs off and the keys are stale or missing or a refresh is forced |
| JwksCache.OneFetch | internal/gateway/jwks_cache.go:119-133 | at most one fetch is in flight |
| JwksCache.ReachableInv | internal/gateway/jwks_cache.go:52-176 | the invariant holds after every run of requests and fetch ends |
| JwksCache.StepKeepsInv | internal/gateway/jwks_cache.go:52-176 | requests and fetch ends keep the invariant |
| JwksCache.ComputeBackoff | internal/gateway/jwks_cache.go:34-40 | the doubling loop is the closed form |
| JwksCache.FetchSucceeds | internal/gateway/jwt.go:196-230 | a successful fetch gives at least one key and exactly the document's; a failed one had none, an unreadable one or an id twice |
| JwksCache.JWTAuthenticator.CurrentKeys | internal/gateway/jwks_cache.go:52-101 | the decision of one request, with the answer `JwksCache.AskAnswers` states |
| JwksCache.JWTAuthenticator.FinishFetch | internal/gateway/jwks_cache.go:142-176 | the outcome of a fetch replaces the keys or counts the failure |
| Guardrails.AcceleratedIsPlainWhen | internal/guardrail/guardrail.go:345-387 | for a text that is not empty and a scan that works, the accelerated results are those of running every rule, in some order, exactly when every rule taken over that triggers has a pattern the accelerator accepts and fewer patterns than there are records occur before it |
| Guardrails.FailedScanIsPlain | internal/guardrail/guardrail.go:364-371 | when the scan fails they always are |
| Guardrails.MissedWhenFull | internal/guardrail/guardrail.go:243-270 | a rule whose pattern the accelerator refuses is taken over exactly when the pattern is safe and 256 refused patterns come before each line that has it |
| Guardrails.AcceleratedIsPlain | internal/guardrail/guardrail.go:222-279 | so nothing is lost while at most 256 patterns are refused and there are no more rules than records |
| Guardrails.OneTooMany | accel/src/lib.rs:79-91 | of 257 input rules whose patterns the accelerator refuses the last is never evaluated |
| Guardrails.RecordsRunOut | accel/src/lib.rs:182-199 | whenever more of the rules that were taken over with an accepted pattern trigger than there are records, in either stage and for every engine, a result is lost |
| Guardrails.OneRecordShort | internal/accel/accel.go:190-219 | with the buffers an instance starts with that happens to 683 rules |
| Guardrails.EmptyText | internal/guardrail/guardrail.go:364-385 | for an empty text they agree exactly when no rule taken over triggers on it |
| Guardrails.EmptyTextLoses | internal/guardrail/guardrail.go:364-385 | a rule that matches the empty text is lost on it once it is taken over |
| Guardrails.RetainedIsSelected | internal/guardrail/guardrail.go:315-323 | leaving out rules without a pattern for a stage changes no result |
| Guardrails.PlainLists | internal/guardrail/guardrail.go:302-313 | running every rule gives one result for each rule for the stage or for both whose pattern matches, in their order and with their fields |
| Guardrails.ListedOnce | internal/guardrail/guardrail.go:302-313 | there is only one such list |
| Guardrails.ReportedListed | internal/guardrail/guardrail.go:371-384 | the matches of a scan give one result for the first match of each rule for the stage, in the order of the matches |
| Guardrails.UsableKeeps | internal/guardrail/guardrail.go:171-192 | the rules of a config that have a name, a pattern and a pattern that compiles are kept in order, with defaults for stage, action and message and nothing else changed |
| Guardrails.KeepUsable | internal/guardrail/guardrail.go:171-192 | the loop keeps exactly these |
| Guardrails.AppendRegexMatches | internal/guardrail/guardrail.go:302-313 | appends, in order, one result for each rule for this stage or for both whose pattern matches, with its name, action, message, pattern and options |
| Guardrails.GuardrailEngine.InitAccelerator | internal/guardrail/guardrail.go:222-279 | shares the rules out, or leaves the engine plain when the accelerator is absent or fails |
| Guardrails.GuardrailEngine.Evaluate | internal/guardrail/guardrail.go:345-387 | the results of all custom rules: for a text that is not empty one for each rule for this stage or for both whose pattern matches, in some order, for an engine without accelerator or a failed scan always, otherwise exactly when the scan can answer for every rule it took over that triggers |
| Guardrails.Report | internal/guardrail/guardrail.go:371-384 | turns any list of matches into results, in its order: one for the first match of each known rule for this stage or for both, with its fields, and none for others |
| Accelerator.LinesOfJoin | internal/accel/accel.go:379-394 | patterns sent as lines arrive under the same numbers, unsafe ones as blank lines |
| Accelerator.JoinPatterns | internal/accel/accel.go:383-394 | writes the lines and notes the unsafe patterns |
| Accelerator.RejectedAre | accel/src/lib.rs:64-93 | a line is reported exactly when it is refused and fewer lines than there is room for are refused before it |
| Accelerator.ScannerValidate | accel/src/lib.rs:64-93 | the loop reports the first refused lines |
| Accelerator.ScannerNew | accel/src/lib.rs:98-124 | compiles each line, with a pattern that never matches for blank and refused ones |
| Accelerator.ScanFirst | accel/src/lib.rs:168-200 | the numbers of the patterns that occur, in order, cut off at the room for records |
| Accelerator.HitsAre | accel/src/lib.rs:168-200 | a pattern is reported exactly when it occurs and fewer patterns than there is room for occur before it |
| Accelerator.Instance.EnsureBuffers | internal/accel/accel.go:396-429 | the buffers hold the text and at least half as many bytes plus 4096 for matches |
| Accelerator.CapacityIs | internal/accel/accel.go:396-412 | buffers are whole pages of 4096 bytes, enough for the text and for half as many bytes and a page of matches, and no page too many |
| Accelerator.ValidatePatterns | internal/accel/accel.go:103-150 | the patterns the accelerator rejects |
| Texts.FirstNonEmptyIs | internal/gateway/gateway.go:1682-1689 | the first text that is not blank, trimmed |
| Texts.TrimByCuts | internal/gateway/compat.go:533-537 | trimming takes away exactly the white space before and after a text that neither starts nor ends with any |
| Texts.TrimByEmpty | internal/gateway/compat.go:533-537 | nothing is left exactly when there is nothing but white space |
| Texts.LowerIs | internal/guardrail/guardrail.go:229 | lower case changes the 26 capital letters only |
| Texts.DecimalReads | internal/gateway/compat.go:751 | a number in decimal reads as that number, without a zero in front |
| Texts.ReplaceFirstIs | internal/gateway/compat.go:669 | only the first occurrence is replaced |
| Texts.ReplaceNothing | internal/gateway/compat.go:669 | a text without an occurrence stays as it is |
| RateLimit.LocalRateLimitBackend.Allow | internal/gateway/middleware.go:430-461 | the decision and the advised wait are those of the full history, although old times and whole keys are dropped |
| RateLimit.LocalRateLimitBackend.Sweep | internal/gateway/middleware.go:466-476 | a sweep that is due drops exactly the keys whose newest time left the window, which loses nothing that still counts |
| RateLimit.NoWindowOverLimit | internal/gateway/middleware.go:430-461 | while the limit of a key is never above a number, no window of that length, wherever it starts, holds more of its admissions |
| RateLimit.RefusedOnlyAtLimit | internal/gateway/middleware.go:446-456 | a caller is refused exactly when the limit is used up in the interval before the call, and told to wait until the oldest admission in it leaves, or an interval when there is none |
| RateLimit.WaitHelpsWhen | internal/gateway/middleware.go:446-456 | after the advised wait a refused caller is admitted, if no one else was, exactly when fewer admissions than the limit came after the oldest one in the window |
| RateLimit.WaitHelps | internal/gateway/middleware.go:446-456 | in every run in which the limit of the key was not lowered, a refused caller is told a positive wait and admitted after it, if no one else was |
| RateLimit.LoweredLimit | internal/gateway/middleware.go:446-456 | after the limit was lowered from three to one, the caller is refused again after the wait |

## Left out

- HTTP, headers, JSON, logging, SQL, subprocesses, tenant checks, settings and the other provider adapters: no state of their own worth a theorem.
- Rounding of money and tokens: amounts are whole numbers.
- The router, and rebuilding a config's router when its base changes: an entry keeps its parsed routes as one opaque value.
- BudgetSteps.ReadKeyStep: leaves out a deleted key row (budget.go:88-90); the loader's answer without limits is not a step of the budget protocol.
- A charge that has no reservation and whose scope has no entry (budget_ledger.go:531-537): it is untracked by design and appears as a write by someone else.
- A store write that fails is taken as not applied; a write that was applied but reported as failed would be counted as lost as well, until the entry is dropped.
- BudgetSafety.NoJointOverspend: says nothing about several processes or limits that change, because other writers can spend what this one has reserved.
- Waiting: channels, cancellation and who wakes whom are not modelled; a wait is a pass that ends and a later one that begins (`BudgetEntries.NextAttempt`, `JwksCache.Answer`, `ConfigCache.Answer`).
- The accelerator's pool of instances, including that releasing a broken instance wakes no waiter.
- White space outside ASCII in `Trim`, and text as runes: a text is a sequence of characters, a byte stream one of bytes.
- EndToEnd.AnswerSurvives: leaves out thinking text, which the Messages translation drops, and needs tool blocks with distinct indexes and ids.
- The pointer shared by a tool call's list and index map is a position in the list.
- ResponsesStream.ResponsesAreWellFormed: does not compare item ids, which change when the chunks change their response id midway or a call gets its id late.
- ItemIds.ItemIdsAgree: is about chunks that all carry one response id, as the protocol asks; for others there is the input of `ItemIds.ResponseIdRenames`.
- Guardrails.AcceleratedIsPlain: is the case in which neither buffer runs full; `Guardrails.AcceleratedIsPlainWhen` has no such condition.
- Guardrails.AcceleratedIsPlainWhen: takes it that a pattern both engines accept matches the same texts in both.
- Framing.TransformResponseWriter.WriteHeader: leaves out the status code and the copying of headers.
- Framing.TransformResponseWriter.Write: takes every write to the client to succeed.
- Framing.TransformResponseWriter.WriteTranslatedEvent: takes every write to the client to succeed, and only ASCII white space around a payload.
- Accelerator.Instance.EnsureBuffers: takes every allocation to succeed.
- A2ATasks.A2ATaskStore.Prune: expired tasks are removed without being cancelled, as in the source.
- ConfigCache.NothingStale: is about the invalidated reference; a lookup by another reference of the same config may join an older read, as in the source.
- ConfigLru.EvictKeeps: an entry with more keys than the capacity, which the constants exclude.
- The built-in guardrail checks, tool rules, webhooks and judges.
- The clock as the program reads it: every operation is given the time, which never goes back.
