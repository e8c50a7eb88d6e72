# Maestro LLMs: verified model

A Dafny model of the parts of the maestro-llms Go repository that carry
invariants over unbounded runs, and proofs of what they promise.

- **Transcripts.** The validator that pairs tool calls with tool results, the
  reasoning filters, the compaction cut rule with its two compactors, the tool
  loop that grows a conversation and may compact it mid-run, the Anthropic
  adapter's translation of the same conversations, and the loop over that
  adapter. The environment of a run
  (model, tools, summarizer, hook, contexts) is a script of what each call
  returns, so a theorem about all scripts is one about all behaviours.
- **Limiters.** The token arithmetic shared by the bucket backends, the
  in-memory limiter with its 64-bit balance and chunked refill, the
  process-local bucket, and the bucket shared through PostgreSQL. The last is a
  transition system: the bucket row, its lease rows, the database clock, the
  transaction holding the row lock and the holders' leases, with one step per
  SQL statement and any interleaving of any number of processes, including
  crashes, lost replies and failed commits. The client code runs against it
  statement by statement, with other processes' steps between.
- **Resilience.** The circuit breaker with concurrent callers, the retry loop,
  the reservation around a call, and the three together.
- **Two small transformations.** Deep-merging provider parameters, and placing
  embedding vectors by reported index.

Code that changes things step by step is a class or a method with loops, proved
against a specification function; code made of expressions is functions. Go's
float64 values are reals and its 64-bit integers are bounded wherever overflow
matters; times are whole nanoseconds.

| file | models |
|---|---|
| `Collections.dfy`, `Messages.dfy` | sequence and set facts; roles, parts, messages, usage |
| `Validation.dfy`, `Reasoning.dfy`, `Compact.dfy`, `ToolLoop.dfy`, `Anthropic.dfy`, `AnthropicRuns.dfy` | transcripts |
| `Satint.dfy`, `Limits.dfy`, `BucketCore.dfy`, `MemoryLimiter.dfy`, `MemoryBucket.dfy`, `Backends.dfy` | limiters in one process |
| `PostgresBucket.dfy`, `PostgresRuns.dfy`, `PostgresClient.dfy` | the shared bucket: steps and invariant, whole runs, the client's code |
| `Errors.dfy`, `CircuitBreaker.dfy`, `Resilience.dfy` | errors, breaker, retry over breaker over reservation |
| `ExtraParams.dfy`, `Embeddings.dfy` | the small transformations |

`dafny verify dfyconfig.toml` checks everything.

## What the proofs found

- `KeepLast` can hand the loop a transcript it refuses: exactly when the input
  ends with an assistant message and turns are kept
  (`ToolLoop.KeepLastUsable`, `ToolLoop.KeepLastUnusable`). A run whose request
  does not end with one never gets there.
- The comment in `llms/middleware/circuit.go:173-175` calls recording into an
  open circuit normally unreachable. It is, for callers that take turns; it is
  reached exactly when the call that opens the circuit was not the only one in
  flight (`CircuitBreaker.OpeningLeavesCalls`), as when FailureThreshold + 1
  calls admitted together all fail (`CircuitBreaker.ConcurrentRecordsOpen`), and
  that last failure restarts the open timeout.
- The in-memory limiter's charge bound holds at every admission until a debt
  saturates at the smallest 64-bit integer. From then on it fails exactly when
  more debt was cut off than credit dropped and balance left
  (`MemoryLimiter.ChargeBound`), which can happen
  (`MemoryLimiter.SaturatedDebtEscapes`).
- A reply with an empty text block beside a tool use passes every check of the
  tool loop, and the Anthropic adapter rejects the transcript with it in
  (`AnthropicRuns.EmptyTextRejected`); without a hook that is so for the rest of
  the run (`AnthropicRuns.SentAcceptedExactlyWhen`).
- The process-local bucket sets its last refill back when its clock steps back,
  so that time is credited again (`BucketCore.SettleTwice` says exactly when,
  `MemoryBucket.ClockBackCreditsTwice` gives a run).
- `Overrides` is exact for every non-empty path and wrong for the empty one
  (`ExtraParams.OverridesExactly`, `ExtraParams.EmptyPath`).
- A chunked refill may fall short of the ideal one, by at most two tokens
  (`MemoryLimiter.RefillIsIdealExactlyWhen`).
- Turning a bucket's token limit off, or off and on again, forgives its debt
  (`PostgresRuns.LimitChange`).

## Model

| member | source | states |
|---|---|---|
| `Validation.ValidIsPaired` | llms/middleware/validation.go:67-96 | A transcript is accepted if and only if it is non-empty, every message is legal, and every assistant turn's calls are answered, each exactly once, by the tool turns directly after it (`Paired`, stated without the scan) |
| `Validation.ScanIsPaired` | llms/middleware/validation.go:165-220 | The one-set scan ends with nothing unanswered exactly for paired transcripts; induction over whole tool runs |
| `Validation.PairingState.AssistantTurn` | llms/middleware/validation.go:184-201 | Accepts exactly when no call is pending and the turn's call IDs are distinct; they become the pending ones; else names the first call whose ID an earlier one has |
| `Validation.PairingState.ToolTurn` | llms/middleware/validation.go:203-220 | Accepts exactly when every part is a result for a pending call, none twice; removes those; else names the first part that is no answer, a duplicate exactly when its call was answered before it, an orphan otherwise |
| `Validation.PairingState.StepMessage` | llms/middleware/validation.go:165-182 | One message of the checker refines the scan step for every role |
| `Validation.CheckNonReasoning` | llms/middleware/validation.go:99-106 | Finds a non-reasoning part if and only if there is one |
| `Validation.ValidateParts` | llms/middleware/validation.go:116-156 | Reports the first part that is illegal for the role, and none exactly when all are legal |
| `Validation.ValidateMessages` | llms/middleware/validation.go:67-96 | No error if and only if the transcript is valid; a reported index is the first message at which the scan fails |
| `ReasoningFilter.FilterPartsMeaning` | llms/reasoning.go:25-64 | What survives a filter is exactly what it lets through; calls and results are untouched, and nothing rejected means nothing changed |
| `ReasoningFilter.FilterInOrder` | llms/reasoning.go:25-53 | The survivors are the parts at increasing indices, exactly those of the parts let through |
| `ReasoningFilter.FilterKeepsValid` | llms/reasoning.go:9-53 | Removing any choice of reasoning from a valid transcript leaves it valid |
| `ReasoningFilter.FilterIdempotent` | llms/reasoning.go:9-21 | Filtering twice is filtering once, and nothing rejected survives |
| `ReasoningFilter.DropCount` | llms/reasoning.go:56-64 | Counts the parts a filter drops; zero exactly when the message is unchanged |
| `ReasoningFilter.FilterReasoning` | llms/reasoning.go:25-53 | The copy-on-write loop yields the filtered transcript whether or not it had to copy |
| `Compact.CutKeepsLastTurns` | llms/toolloop/compact/compact.go:203-240 | Exactly the last keep turns survive when more exist, all otherwise; the cut never splits a run of user messages or a tool exchange |
| `Compact.CutTurns` | llms/toolloop/compact/compact.go:216-232 | The cut point leaves exactly min(keep, turns) assistant turns behind it |
| `Compact.KeptAndDroppedPartition` | llms/toolloop/compact/compact.go:176-200 | The transcript is five slices in order; the first, third and fifth are kept and the other two dropped; nothing dropped means the same transcript |
| `Compact.PromptSurvives` | llms/toolloop/compact/compact.go:194-200 | The in-flight prompt survives whole and contiguous, pinned exactly when it lies before the cut |
| `Compact.InFlightIsLastPrompt` | llms/toolloop/compact/compact.go:246-259 | The in-flight prompt is the last run of non-summary user messages after the head |
| `Compact.Split` | llms/toolloop/compact/compact.go:203-240 | The index loops compute the span that the lemmas are about; head <= pin <= pinEnd <= cut <= len |
| `Compact.InFlightPrompt` | llms/toolloop/compact/compact.go:246-259 | The two backward loops find the in-flight prompt |
| `Compact.TurnStarts` | llms/toolloop/compact/compact.go:212-222 | The loop collects the start of every turn after the head |
| `Compact.SplitFallsOnBoundaries` | llms/toolloop/compact/compact.go:203-240 | All four indices fall between exchanges |
| `Compact.NothingPendingAtBoundary` | llms/middleware/validation.go:165-220 | At such an index of a valid transcript no call is pending, on either side |
| `Compact.CompactionKeepsValid` | llms/toolloop/compact/compact.go:192-240 | For every valid transcript and every keep, the compacted one, with or without a summary and with reasoning removed, is valid |
| `Compact.CompactionEnd` | llms/toolloop/compact/compact.go:192-240 | When something is dropped, the result ends with an assistant message exactly when the input did and turns are kept |
| `Compact.CompactionIsStable` | llms/toolloop/compact/compact.go:192-259 | Compacting a compacted transcript with the same keep drops nothing |
| `Compact.SummarizedHasOneSummary` | llms/toolloop/compact/compact.go:112-165 | A summary replaces the one before and sits right after the head |
| `Compact.SummariesRoll` | llms/toolloop/compact/compact.go:112-165 | Over any sequence of appended turns and Summarize compactions: always valid, at most one summary, right after the head |
| `Compact.SummaryIsAmongDropped` | llms/toolloop/compact/compact.go:112-120 | Whenever a later compaction drops anything, the summary in place is the first message dropped |
| `Compact.KeepLast` | llms/toolloop/compact/compact.go:51-65 | Answers exactly when due and something drops; the answer is the kept transcript without reasoning, valid if the input was |
| `Compact.Summarize` | llms/toolloop/compact/compact.go:126-165 | The same with the summary inserted after the head; a failed or empty summarizer changes nothing |
| `ToolLoop.ClassifyStop` | llms/toolloop/run.go:376-391 | The loop's own context is authoritative; otherwise a cancellation, otherwise the fallback |
| `ToolLoop.AddUsageSums` | llms/toolloop/run.go:494-512 | Adding responses one by one is the field-wise 64-bit sum of all of them, with a request ID only for a single one |
| `ToolLoop.ValidateConfig` | llms/toolloop/run.go:519-613 | Accepts exactly the fail-closed rules and returns the effective tool choice |
| `ToolLoop.ReplyExtends` | llms/toolloop/run.go:130-150 | A non-empty response may be appended where nothing is pending; its calls are then exactly what is pending |
| `ToolLoop.ResultsAnswer` | llms/toolloop/run.go:182-190 | One result per call answers the turn and ends it with a tool message |
| `ToolLoop.TurnResults` | llms/toolloop/run.go:248-326 | Results line up one to one and in order with the calls |
| `ToolLoop.ExecutedIs` | llms/toolloop/run.go:248-326 | No call before the last executed one failed or stopped, and that one did unless it is the last of all |
| `ToolLoop.RunToolsKinds` | llms/toolloop/run.go:248-326 | A stop inside tool execution is a tool error, a cancellation or a deadline; a terminal call stopped without an error; otherwise one result per call |
| `ToolLoop.ExecuteCalls` | llms/toolloop/run.go:248-326 | The two loops compute which calls run, the results, the terminal call, and the stop that the failing call's error is classified as |
| `ToolLoop.CallHook` | llms/toolloop/compact/compact.go:51-165 | The hook's answer is what its compactor computes from the transcript |
| `ToolLoop.Checked` | llms/toolloop/run.go:459-480 | A hook's transcript is adopted only if it can be sent; everything else is a compaction error or no change |
| `ToolLoop.CompactorsStaySendable` | llms/toolloop/run.go:459-480 | A built-in compactor given a transcript that can be sent hands back one that can be sent; KeepLast never errs |
| `ToolLoop.Compaction.Run` | llms/toolloop/run.go:459-480 | One hook call: its usage is summed even when it fails, and adopted transcripts are counted |
| `ToolLoop.Compaction.Send` | llms/toolloop/run.go:420-453 | The loop with one retry refines the decision tree of hook, call, overflow, hook, call |
| `ToolLoop.RetriesExactlyWhen` | llms/toolloop/run.go:431-452 | A call is retried if and only if there is a hook, the call overflowed the context and the hook then handed back a transcript; the retry sends that one |
| `ToolLoop.SendsKeeps` | llms/toolloop/run.go:420-453 | At most two attempts, one without a hook; what is sent is the loop's transcript or one that passes the validator |
| `ToolLoop.AfterReply` | llms/toolloop/run.go:120-207 | The rest of an iteration refines its specification for each way a response can go |
| `ToolLoop.RepliedStands` | llms/toolloop/run.go:120-207 | A valid transcript answered by a well-formed response goes on sendable, ends valid, or stops inside tool execution with exactly the response's calls pending |
| `ToolLoop.Iterate` | llms/toolloop/run.go:91-213 | One iteration of Run, hook totals included, refines its specification |
| `ToolLoop.IterationCounts` | llms/toolloop/run.go:91-213 | An iteration counts its answer once, adds what its send reported and adopted, goes on only after calls and below the limit, and an outcome reports where it got to |
| `ToolLoop.RunLoop` | llms/toolloop/run.go:52-213 | Run is the chain of such iterations, for any environment, and a rejected config does no work |
| `ToolLoop.TranscriptsStayValid` | llms/toolloop/run.go:91-213 | From a valid request the transcript stays valid through every append and compaction, and sendable if the request was |
| `ToolLoop.RunSendsValid` | llms/toolloop/run.go:91-213 | Every transcript handed to the client in any run from a valid request is valid |
| `ToolLoop.RunEndsValid` | llms/toolloop/run.go:91-213 | An outcome's transcript is valid if and only if the run did not stop inside tool execution, which only tool errors, cancellations and deadlines can; then exactly the last turn's calls are pending |
| `ToolLoop.OtherKindsEndValid` | llms/toolloop/run.go:91-213 | By kind alone: every outcome but those three has a valid transcript |
| `ToolLoop.KeepLastNeverFails` | llms/toolloop/run.go:420-480 | With KeepLast as the hook no run ends with a compaction error |
| `ToolLoop.RunAccounts` | llms/toolloop/run.go:91-213 | TotalUsage is the sum of all successful responses, Iterations the number that called tools, CompactionUsage and Compactions what the hook reported and had adopted over all iterations |
| `ToolLoop.SendsAccount` | llms/toolloop/run.go:420-480 | A send reports the non-zero usage of each hook call it makes, and counts one for each transcript of the hook's that it hands to the client |
| `ToolLoop.RunExplained` | llms/toolloop/run.go:91-213 | The outcome kind says how the run ended; a limit stop has exactly the limit's iterations |
| `ToolLoop.RunBounds` | llms/toolloop/run.go:91-213 | With a limit: at most that many iterations, one provider attempt each without a compactor and at most two with one |
| `ToolLoop.RunGrows` | llms/toolloop/run.go:91-213 | Without a hook each attempt sends the one before plus one assistant and one tool message |
| `ToolLoop.KeepLastUsable` | llms/toolloop/run.go:459-480 | A KeepLast result is one Run accepts if and only if the input did not end with an assistant message or no turns are kept |
| `ToolLoop.KeepLastUnusable` | llms/toolloop/run.go:470-474 | A concrete chat ending with an answer for which Run refuses KeepLast's result |
| `Anthropic.TranslationOK` | llms/providers/anthropic/convert.go:133-183 | For every valid transcript that converts: starts with a user message, no two user messages adjacent, results first, every assistant turn with calls answered at once by exactly those IDs, and the flattened wire is one block per part in order |
| `Anthropic.ConvertsExactlyWhen` | llms/providers/anthropic/convert.go:133-183 | A valid transcript converts if and only if it starts with a user message and every part left after dropping other providers' reasoning converts |
| `Anthropic.ConvertFlat` | llms/providers/anthropic/convert.go:87-183 | Nothing is lost or reordered by the buffering |
| `Anthropic.BlocksForParts` | llms/providers/anthropic/convert.go:87-128 | Splits a message's blocks into results and others, and advances the shared marker count |
| `Anthropic.AddMessage` | llms/providers/anthropic/convert.go:140-176 | One message: flush before an assistant turn, buffer user-side blocks results first, reject an assistant turn without a reply |
| `Anthropic.BuildMessages` | llms/providers/anthropic/convert.go:133-183 | The whole loop computes the translation, or rejects |
| `Anthropic.CacheBudget.Honor` | llms/providers/anthropic/convert.go:44-58 | Honors a marker exactly when more than skip were seen |
| `Anthropic.CountContentBreakpoints` | llms/providers/anthropic/convert.go:69-79 | Counts the marked text parts over all messages |
| `Anthropic.ToParams` | llms/providers/anthropic/convert.go:277-295 | For any request at most 4 markers are emitted, system included, and exactly the last min(n, budget) on content |
| `Anthropic.ConvertTexts` | llms/providers/anthropic/convert.go:133-183 | For every convertible transcript, valid or not, the text blocks built are those of its parts, in order |
| `Anthropic.HonoredAreLast` | llms/providers/anthropic/convert.go:44-183 | For every request that converts, valid or not, the text blocks on the wire are its text parts in order, and a marker is honored if and only if at most budget marked parts remain from it on |
| `AnthropicRuns.ToResponse` | llms/providers/anthropic/convert.go:345-381 | The loop over a reply's blocks builds the assistant message, with its calls mirrored beside it |
| `AnthropicRuns.WellFormedExactlyWhen` | llms/providers/anthropic/convert.go:345-381 | The message is one the tool loop can go on from if and only if the tool uses have IDs, all different |
| `AnthropicRuns.ReplyRoundTrip` | llms/providers/anthropic/convert.go:436-490 | An assistant turn goes back as it came: no part is filtered out, it converts if and only if no text is empty and every thinking block has its signature or data, and then the blocks sent are the reply's own, in order, thinking unchanged |
| `AnthropicRuns.TurnSentBack` | llms/providers/anthropic/convert.go:133-183 | Such a turn is sent as one assistant message of just those blocks |
| `AnthropicRuns.AcceptsExactlyWhen` | llms/providers/anthropic/convert.go:133-183 | The adapter accepts a valid transcript if and only if it starts with a user message and each message's parts, other providers' reasoning aside, convert |
| `AnthropicRuns.AnsweredConverts` | llms/toolloop/run.go:120-190 | Appending a reply and its tool results keeps a transcript convertible if and only if the reply's parts convert |
| `AnthropicRuns.KeptConverts` | llms/toolloop/compact/compact.go:176-200 | Compaction keeps a transcript convertible |
| `AnthropicRuns.RunAccepted` | llms/toolloop/run.go:91-213 | From a valid request that converts, with the adapter's own repeatable replies and any compaction that hands back convertible transcripts (the built-in ones do), the adapter accepts every transcript any run sends |
| `AnthropicRuns.SentAcceptedExactlyWhen` | llms/toolloop/run.go:91-213 | Without a hook the k-th transcript sent is accepted if and only if the request and every reply before it convert |
| `AnthropicRuns.EmptyTextRejected` | llms/providers/anthropic/convert.go:87-94 | A concrete reply, empty text beside a tool use, that is well formed and leaves a valid transcript the adapter rejects |
| `Satint.Add` | llms/internal/satint/satint.go:11-19 | Saturates the unbounded sum, with no step wrapping |
| `Satint.Sub` | llms/internal/satint/satint.go:22-30 | Saturates the unbounded difference, with no step wrapping |
| `Limits.Limits.Capacity` | bucket/bucket.go:108-113 | Positive exactly when tokens are limited, and fits 64 bits for valid limits |
| `BucketCore.SettleTwice` | bucket/internal/core/core.go:18-26 | Settling twice is never less than settling once, and equal if and only if the clock was monotone (either way) or the bucket ended full |
| `BucketCore.PollIndependent` | bucket/internal/core/core.go:18-26 | Any number of settles under a monotone clock is one settle over the whole interval |
| `BucketCore.FitsExactlyWhen` | bucket/internal/core/core.go:41-75 | With no other activity tokens fit, d later, if and only if d is at least the exact wait |
| `BucketCore.RetryAfterIsTight` | bucket/internal/core/core.go:41-54 | Tokens never fit before the hint and, unsaturated, always one nanosecond after it |
| `MemoryLimiter.UsageUnits.Tokens` | llms/ratelimit/ratelimit.go:37-43 | Never negative, the explicit total when given, else no less than either part |
| `MemoryLimiter.UsageUnits.Slots` | llms/ratelimit/ratelimit.go:48-50 | At least one |
| `MemoryLimiter.EffectiveTokens` | llms/ratelimit/memory.go:323-330 | Never negative and never below any count the provider reported |
| `MemoryLimiter.InMemoryLimiter.constructor` | llms/ratelimit/memory.go:68-103 | Starts full, empty of requests and valid |
| `MemoryLimiter.InMemoryLimiter.RefillLocked` | llms/ratelimit/memory.go:110-141 | No addition overflows, at most three chunks, and the state is the closed form |
| `MemoryLimiter.InMemoryLimiter.ConsumeCarry` | llms/ratelimit/memory.go:118-141 | The chunk loop against the closed form, for every balance down to MinInt and every carry |
| `MemoryLimiter.RefillIsIdealExactlyWhen` | llms/ratelimit/memory.go:108-146 | The refill equals min(capacity, balance + floor(carry)) if and only if no full chunk's token is lost short of the capacity, and is never more than two below |
| `MemoryLimiter.InMemoryLimiter.TryAcquireLocked` | llms/ratelimit/memory.go:189-208 | Admits exactly when tokens and slots fit, takes both, and otherwise takes nothing |
| `MemoryLimiter.HintSuffices` | llms/ratelimit/memory.go:257-277 | Waiting longer than an unsaturated hint is enough for the tokens, short of at most two that a carry of 2^63 or more may lose on the way, and exactly then |
| `MemoryLimiter.Reserve` | llms/ratelimit/memory.go:214-253 | The wait ends at the first poll at which the context is done, the request fits, MaxWait is over or the sleep is canceled, and for the first of these reasons in that order; capacity is taken by the attempt that fits and only then, and the hint is that of the last refusal |
| `MemoryLimiter.EndOf` | llms/ratelimit/memory.go:214-253 | A wait is refused at once if and only if the request can never fit; one that is granted ends at a poll with room, and no poll before its end has room |
| `MemoryLimiter.Reservation.Commit` | llms/ratelimit/memory.go:337-355 | Once: settles, then charges or refunds the difference, capped at capacity |
| `MemoryLimiter.Reservation.Release` | llms/ratelimit/memory.go:359-370 | Once: frees the slots |
| `MemoryLimiter.RunsKeep` | llms/ratelimit/memory.go:110-370 | In every run of attempts, commits and releases the state stays within its bounds and the tokens balance exactly: charged, available, carry and dropped credit are the capacity and all that accrued, plus the debt cut off |
| `MemoryLimiter.ChargeBound` | llms/ratelimit/memory.go:110-141 | Right after any admission the total charged is at most capacity plus rate times elapsed if and only if the debt cut off at the smallest integer is no more than the credit dropped and the balance and carry left: always while nothing was cut off, and never exceeded by more than was |
| `MemoryLimiter.SaturatedDebtEscapes` | llms/ratelimit/memory.go:345-354 | A run that exceeds it: two largest commits saturate the debt, and 65 seconds later a third request is admitted |
| `MemoryLimiter.SlotsExact` | llms/ratelimit/memory.go:189-208 | Active slots are the sum of the unreleased reservations and within the limit, so Release's floor never bites |
| `PostgresBucket.InvKept` | bucket/postgres/postgres.go:191-246 | Every statement of every process keeps the protocol's invariant |
| `PostgresBucket.GoneStays` | bucket/postgres/lease.go:111-129 | A lease without a live row is never given one again by any step |
| `PostgresBucket.BalanceKept` | bucket/postgres/postgres.go:201-226 | Charges, refunds and refills keep balance plus net charge within capacity plus accrual |
| `PostgresRuns.AdmissionFits` | bucket/postgres/postgres.go:191-246 | A committing admission leaves at most MaxConcurrency rows, whatever happened between its statements |
| `PostgresRuns.SlotsBounded` | bucket/postgres/postgres.go:191-246 | In every interleaving, with limits in force between 1 and m, there are never more than m lease rows |
| `PostgresRuns.NoResurrection` | bucket/postgres/lease.go:108-129 | An expired lease never becomes live again |
| `PostgresRuns.HeldThroughout` | bucket/postgres/lease.go:168-194 | A holder whose Release returns no error had a live row at every instant it held the lease |
| `PostgresRuns.OverlapBounded` | bucket/postgres/lease.go:168-194 | At most m such holders ever overlap |
| `PostgresRuns.LostIsFinal` | bucket/postgres/lease.go:77-129 | A lease a renewal reports lost is never live again, and its Release never reports success |
| `PostgresRuns.CrashedSlotFrees` | bucket/postgres/lease.go:61-76 | A holder that stops renewing frees its slot within one TTL, and later attempts count without it |
| `PostgresRuns.CapEnds` | bucket/postgres/lease.go:68-76 | However often renewed, no lease outlives MaxLeaseDuration |
| `PostgresRuns.LiveUntilExpiry` | bucket/postgres/lease.go:111-129 | Only its own Release ends a lease before its expiry, and no renewal moves the expiry back |
| `PostgresRuns.BalanceAlwaysOK` | bucket/postgres/ensure.go:11-60 | In every run from a created bucket the balance is within the capacity in force, 0 without a token limit, and no refill reaches back before the last change of limits |
| `PostgresRuns.AdmissionChargeBound` | bucket/postgres/postgres.go:201-226 | At each admission the net charge since the limits last changed is at most capacity plus rate times elapsed |
| `PostgresRuns.LimitChange` | bucket/postgres/ensure.go:62-74 | Debt survives a change between two token limits; a change gives tokens exactly when it turns limiting on, or off while in debt |
| `PostgresRuns.EnsureSwitches` | bucket/postgres/ensure.go:46-58 | The old limits settle up to the change, the new ones start there, and leases are untouched |
| `PostgresClient.Begin` | bucket/postgres/postgres.go:118-177 | Lock the row, then sample the clock: granted exactly when no other transaction holds it and nothing fails; a failure leaves the bucket as it was |
| `PostgresClient.Between` | bucket/postgres/postgres.go:118-137 | While others act the open transaction is left alone, and a failing statement rolls it back |
| `PostgresClient.Finish` | bucket/postgres/postgres.go:131-136 | COMMIT writes the whole transaction, heard or not, or nothing |
| `PostgresClient.TryAcquire` | bucket/postgres/postgres.go:191-246 | The attempt, with others between its statements and any statement failing, is a run of the system; what it did to balance, charge, rows and holders is determined, whether or not its COMMIT was heard; tokens that fit are refused only when MaxConcurrency leases were live at the lock |
| `PostgresClient.Create` | bucket/postgres/ensure.go:23-45 | On a missing bucket: a full one is there exactly when the limits are valid, the INSERT succeeds and the transaction commits, heard or not |
| `PostgresClient.Ensure` | bucket/postgres/ensure.go:23-60 | On an existing bucket: the limits are installed over the settled balance exactly when they are to be overwritten and the transaction commits, heard or not, and otherwise nothing changes; no error exactly when it commits and that is heard |
| `PostgresClient.Lease.RenewOnce` | bucket/postgres/lease.go:111-129 | Reports lost if and only if no live row matched; else the expiry is the lesser of now plus TTL and the cap |
| `PostgresClient.Lease.RenewTurn` | bucket/postgres/lease.go:89-105 | Stops exactly on a cancel, at the cap, or when a renewal that was heard found no live row; else it leaves the renewal |
| `PostgresClient.Lease.RenewLoop` | bucket/postgres/lease.go:77-106 | Stops at the first cycle that ends it and at no other; unless that one is a cancel, the lease is then marked lost |
| `PostgresClient.Lease.Adjust` | bucket/postgres/lease.go:138-166 | Once: no error exactly when the transaction commits and that is heard; committed, heard or not, the balance is settled and corrected by the difference; not committed, or never charged, it is unchanged |
| `PostgresClient.Lease.Release` | bucket/postgres/lease.go:172-194 | Once: no error exactly when the deleted row was live; ErrLeaseLost means it is gone for good; the slot is freed unless the database failed |
| `MemoryBucket.Limiter.TryAcquire` | bucket/memory/memory.go:129-159 | One attempt against the specification of its key; a done context charges nothing and other keys are untouched |
| `MemoryBucket.Limiter.StateLocked` | bucket/memory/memory.go:105-119 | A key's state is created full on first use and is its own; an unknown key without a default fails closed |
| `MemoryBucket.Lease.Adjust` | bucket/memory/memory.go:172-185 | Once: settle, then reconcile |
| `MemoryBucket.Lease.Release` | bucket/memory/memory.go:188-198 | Once: one live lease fewer |
| `MemoryBucket.RunsOK` | bucket/memory/memory.go:121-198 | In every run live counts the unreleased leases within the limit, and balance plus net charge stay within capacity plus credit |
| `MemoryBucket.AdmissionChargeBound` | bucket/memory/memory.go:121-159 | Under a monotone clock each admission finds the net charge within capacity plus rate times elapsed |
| `MemoryBucket.ClockBackCreditsTwice` | bucket/memory/memory.go:122-126 | With a clock that steps back and forth it does not: the same minute is credited twice |
| `Backends.AttemptSimulates` | bucket/postgres/postgres.go:191-246 | While nothing expires, the shared bucket's statements for an attempt simulate the process-local one: same verdict, balance and slots |
| `Backends.AdjustSimulates` | bucket/postgres/lease.go:138-166 | The transaction of an Adjust, or its early returns, simulates the process-local Adjust |
| `Backends.ReleaseSimulates` | bucket/postgres/lease.go:172-194 | The DELETE of a Release simulates the process-local Release |
| `Backends.BackendsAgree` | bucket/internal/core/core.go:1-3 | Over every run under a monotone clock in which no lease has expired at an attempt, both backends admit the same attempts with the same balance and slots |
| `CircuitBreaker.CountsExactlyWhen` | llms/middleware/circuit.go:126-135 | A result counts as a failure if and only if it carries a retryable provider error and no limiter rejection |
| `CircuitBreaker.CircuitConfig.Normalized` | llms/middleware/circuit.go:51-63 | Always usable, and leaves a usable config alone |
| `CircuitBreaker.Breaker.Allow` | llms/middleware/circuit.go:100-124 | Admits by state, timeout and probe, and changes state only when it admits |
| `CircuitBreaker.Breaker.Record` | llms/middleware/circuit.go:133-178 | The four-way transition on success, failure and neutral results |
| `CircuitBreaker.Breaker.Trip` | llms/middleware/circuit.go:181-187 | Opens with clean counters |
| `CircuitBreaker.StreakIs` | llms/middleware/circuit.go:133-163 | The failure counter reaches n if and only if the last n counting results are all failures |
| `CircuitBreaker.RunsOK` | llms/middleware/circuit.go:100-187 | In every concurrent run the counters are functions of the results recorded in the phase |
| `CircuitBreaker.OpensExactlyWhen` | llms/middleware/circuit.go:151-160 | A Closed circuit opens exactly on FailureThreshold failures with no success between, neutral results aside |
| `CircuitBreaker.ClosesExactlyWhen` | llms/middleware/circuit.go:161-172 | A HalfOpen circuit reopens exactly on a failure and closes exactly on the SuccessThreshold-th success |
| `CircuitBreaker.NeverWedged` | llms/middleware/circuit.go:92-124 | Probing means HalfOpen with the call that set it still in flight; with none in flight and the timeout over the next call is admitted |
| `CircuitBreaker.OneProbe` | llms/middleware/circuit.go:92-124 | A HalfOpen phase entered with nothing in flight has at most one call in flight |
| `CircuitBreaker.SequentialNeverRecordsOpen` | llms/middleware/circuit.go:173-177 | Sequential callers never record into an open circuit |
| `CircuitBreaker.OpeningLeavesCalls` | llms/middleware/circuit.go:151-187 | A step that opens the circuit leaves calls that can record into it if and only if another call was in flight |
| `CircuitBreaker.OpenRecordsOnlyWhen` | llms/middleware/circuit.go:173-177 | In every run, an Open phase entered with nothing in flight has nothing in flight |
| `CircuitBreaker.ConcurrentRecordsOpen` | llms/middleware/circuit.go:173-177 | For every configuration a run of FailureThreshold + 1 concurrent calls records into the open circuit, and restarts its timeout |
| `Resilience.RetryConfig.Normalized` | llms/middleware/retry.go:45-69 | Always usable, and leaves a usable config alone |
| `Resilience.BackoffBounds` | llms/middleware/retry.go:122-151 | Every backoff of the loop is within the jitter of the larger of its delay and the error's hint, capped, and never negative |
| `Resilience.DelayGrows` | llms/middleware/retry.go:137 | The delay stays positive and never shrinks short of the cap |
| `Resilience.Reserved` | llms/middleware/ratelimit.go:38-65 | Calls the provider exactly when the limiter grants, else fails with the error of how the wait ended; commits what was reported and always releases |
| `Resilience.Guarded` | llms/middleware/circuit.go:211-222 | A call the breaker rejects touches nothing and reports the rest of the timeout; any other reserves, calls and is recorded once |
| `Resilience.ReachedExactlyWhen` | llms/middleware/ratelimit.go:38-65 | A call the breaker admits reaches the provider if and only if the request fits at some poll and no poll before it gave up |
| `Resilience.Retry` | llms/middleware/retry.go:104-141 | At most MaxAttempts attempts, each from the state the last left, going on exactly after retryable errors, with the computed backoff between each two |
| `Resilience.SlotsRestored` | llms/middleware/ratelimit.go:50-64 | Every granted reservation is released: slots in use are what they were |
| `Resilience.FrozenCharge` | llms/middleware/ratelimit.go:38-74 | With the clock frozen the loop charges exactly the estimates of failed calls plus the reported usage, or the estimate, of the successful one |
| `Resilience.OutageBound` | llms/middleware/retry.go:104-141 | From a Closed breaker with f failures, no backoff outlasting OpenTimeout and provider errors that carry no limiter rejection, at most FailureThreshold - f attempts fail at the provider, retryably or not |
| `Resilience.CountedOutageBound` | llms/middleware/retry.go:104-141 | Whatever the errors carry, the failures the breaker counts are bounded alike |
| `ExtraParams.Merge` | llms/providers/internal/extraparams/extraparams.go:40-50 | The range over src in any key order computes the merge |
| `ExtraParams.Overrides` | llms/providers/internal/extraparams/extraparams.go:75-92 | The walk decides whether src sets the path or replaces an ancestor |
| `ExtraParams.MergedAt` | llms/providers/internal/extraparams/extraparams.go:38-92 | The value at every path after a merge, from the values before: kept, replaced, removed or merged |
| `ExtraParams.OverridesExactly` | llms/providers/internal/extraparams/extraparams.go:71-92 | A path is not overridden if and only if merging src into any object whatever leaves its value alone |
| `ExtraParams.EmptyPath` | llms/providers/internal/extraparams/extraparams.go:75-92 | For the empty path that fails |
| `ExtraParams.MergeTwice` | llms/providers/internal/extraparams/extraparams.go:38-50 | Merging the same parameters again changes nothing |
| `Embeddings.Place` | llms/providers/openai/convert.go:22-44 | Places each vector at its reported index, or stops at the first datum whose index is out of range or was reported before, and says which |
| `Embeddings.ToResponse` | llms/providers/openai/convert.go:13-62 | Succeeds if and only if the indices are a permutation; output i has input i's ID and the vector reported for i; an error names the wrong count or the first fault; the last check never fires |
| `Embeddings.Pigeonhole` | llms/providers/openai/convert.go:45-52 | n distinct indices below n are all of them |
| `Embeddings.OrderDoesNotMatter` | llms/providers/openai/convert.go:9-12 | The same data in another order is placed alike |

## Left out

- Go's slices and maps share memory; transcripts, parts and JSON objects are values here, so the defensive copies (`cloneToolCall`, the transcript copy and its headroom, `maps.Clone`) and copy-on-write are not visible.
- Observers, iteration events, metrics, logging and error texts: no state of the model depends on them.
- `render`, `truncate` and the summarizer's prompt: the summarizer is an oracle that fails or returns any text, trimming included.
- Tool schemas, tool choice and the remaining request fields in the Anthropic adapter. In `Anthropic` decoding provider data is any function; `AnthropicRuns` takes JSON encoding and decoding of a thinking block's fields as two functions that round-trip, and leaves out a reasoning part's readable text, which is never sent.
- AnthropicRuns.RunAccepted: a custom hook's transcripts are required to convert, since the loop does not check that; replies are the adapter's own, every block of which can be sent again.
- `isContextOverflow` and the other message matchers: whether an error is a context overflow is part of the script.
- The sum of input and output tokens that makes a compaction due is unbounded here; in Go it wraps at 64 bits.
- Configuration of the compactors (negative counts, a nil client) is checked by their constructors and is not part of this model.
- HTTP, JSON parsing and encoding (`For`, `MergeJSON`, `Middleware`), SDK types and the narrowing of embedding values to float32.
- Rounding of float64, NaN and infinities: balances, carries, factors and rates are reals. The one place where rounding is the point, `float64(MaxInt)` being 2^63, is kept.
- A `Duration` saturates at about 292 years and a float beyond it converts to an unspecified value (`now.Sub`, `time.Duration(float64(delay)*factor)`): durations are unbounded here.
- `core.Wait`: the polling loop with its backoff and jitter around the attempts; an attempt is modelled, how long to sleep between two is not.
- Timers, goroutines and mutexes: methods under a mutex are atomic, and the renewal goroutine is a loop over the events that wake it.
- PostgreSQL itself: a statement is atomic and reads the clock once, the clock never steps back, ids are never reused, and statements on a row that an open transaction has deleted wait. One bucket is modelled; deleting a bucket and its leases, schema checks, migrations and a raw UPDATE of limits are not.
- PostgresClient.Ensure: whether the bucket is missing is known beforehand, and Create is the call that finds it so; the empty name, several buckets, and so unknown keys, are not modelled.
- PostgresClient.Lease.RenewLoop: that a renewal found no live row is noted on the lease by the step of its statement, not by the loop after it.
- PostgresRuns.SlotsBounded: limits in force must all limit slots, since an unlimited bucket has no bound to keep; AdmissionFits says what holds at each admission under changing limits.
- Backends.BackendsAgree: leaves out runs in which a lease expires, since a process-local lease never does; callers take turns there.
- Resilience.Retry: the limiter's polls and the provider's replies are scripted per attempt, callers take turns, and the timeout middleware between retry and breaker is only the script's context.
- Resilience.OutageBound: leaves out provider errors with a limiter rejection in their chain, which are retried without counting (CountedOutageBound covers the rest); starts from a Closed breaker; from the other states the first call is a probe or is rejected.
- The example programs, `testllm`, `livetest`, the UI, model listing and family parsing, usage mapping and the reasoning-effort tables: fakes, wrappers or single branches.
