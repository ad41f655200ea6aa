# Atlas gateway: models and proofs

Atlas is a multi-tenant gateway in front of language-model providers. This project models the parts of it whose
behaviour spans several functions or a whole history, and proves what callers, operators and the platform rely on.
`dafny verify dfyconfig.toml` checks everything.

## What is here

**Streams, fallback and metering.** `OpenAiStream` and `ClaudeStream` are the two stream decoders as loops over framed,
JSON-decoded messages, each proved equal to a specification of its whole run. `OpenAiAgreement` and `ClaudeAgreement` tie
each decoder to the non-streaming normalizer of its dialect: whichever way a response is cut up, both say the same, exactly
when the normalizer drops no call and does not throw. `OpenAiLaws` and `ClaudeLaws` say of any frames at all where reading
ends, which errors are passed on, and which frame has the last word on usage, stop reason and tool calls. `ChatGateway` is the candidate loop of `chat` and `chatStream` over
those decoders, with the three accounting steps that follow an answer: consume and the request log cannot throw, and the
metering step can. `ChatLaws` composes the layers and says exactly when the shape of a stream and the ledgers survive
that, `ChatRecords` what the records say and of whom, and `BillingAgreement` compares what streaming and not streaming the same response writes. A payload that decodes to `null` makes the decoder throw, as reading a property of it does.

**Request-log partitions.** `ReqlogPartitions` is the catalogue of named monthly partitions with its maintenance functions,
row routing and readiness check; PostgreSQL's refusal to create a partition while DEFAULT holds rows of its range is part of
creation, and a refused call is rolled back whole. `ReqlogNames` is the naming scheme and its parser. `ReqlogCalendar` is the
same log as months and rows, over histories with a moving clock, where the main properties are proved; `ReqlogRefinement`
carries them to the named partitions.

**Provisioning webhook.** `ProvisioningWebhook` is one handler as four database calls, any of which may be the last before a
crash, and the service method proved equal to the four in a row. `WebhookConvergence` lets any number of handlers run,
crash and be redelivered, and states exactly when they converge.

**Grants and quota.** `Grants` is the sorted fetch of two rows shared by the gate and task-profile routing, and the listing,
with NULL placement as a parameter. `Quota` joins the grant to the platform's entitlement answer; `EntitlementCache` is the
cache under interleaved calls. `ProbeCooldown` is the pruned map that limits probes.

**Configuration and keys.** `Wire` is the lenient reader and the strict validator of wire descriptors; `WireLaws` relates
them. `ModelConfig` is the storage and display of a model's free-form config. `MasterKeys` and `KeyVault` are the provider-key
vault over an abstract cipher, and `VaultLaws` compares it with a plain notebook of secrets over every run. `Cidr` is address
matching, over the 32-bit operations of `Bits`.

`Wrappers`, `Sequences`, `Text`, `Decimal`, `Json`, `RuntimeTypes` and `Columns`, which says what the database's columns
take, are shared vocabulary.

## Where the code and its words differ

- The accounting after an answer is meant never to fail the request. Its last step trims the feature id of the request
  body, which nothing validates, and nothing catches it there: with a feature id that is no string, a stream can hold two
  `done`s and every candidate that answers is billed (`ChatLaws.TwoDones`, `ChatLaws.TwoPosts`). All posts of a request
  share its idempotency key (`ChatLaws.PostsShareTheRequest`).
- The request log is meant to lose a dimension rather than a row. A usage type outside its column's list reaches the column,
  whose check loses the row of an answer that was served and billed (`ChatRecords.BatchIsBilledAndLost`).
- A streamed answer whose upstream sends no usage leaves no record, while the same answer unstreamed is logged with zeros
  (`BillingAgreement.OpenAiBillsAlike`, `BillingAgreement.ClaudeBillsAlike`).
- `provider-key-crypto.ts` and the schema describe a stored secret as nonce, ciphertext, tag; the code writes nonce, tag,
  ciphertext. The model follows the code.
- The grant lookup's comment promises exact scope before wildcard. With PostgreSQL's default of nulls first in descending
  order, two wildcards hide an exact grant (`Grants.NullsFirstLosesExactGrant`), and an application id not spelled as it
  is stored never matches exactly, so that the listing shows models the gate refuses
  (`Grants.OtherSpellingIsListedInVain`); `Grants.TopTwoKeepsRule` and `Grants.ListingIsTheGate` are the exact conditions.
- The readiness message advises running the partition job and then relocating stray rows. For the month of the stray row
  the job is refused until the row is gone (`ReqlogCalendar.StrayRowBlocksThisMonth`), and stray error rows are never
  seen (`ReqlogCalendar.CheckSeesRequestStraysOnly`).
- Webhook ordering holds for handlers that do not overlap on one workspace; any two that overlap can move its sequence
  number backwards (`WebhookConvergence.InterleavingMovesBackwards`). A delivery id longer than its column is applied and
  never acknowledged (`ProvisioningWebhook.OverlongIdNeverSettles`; `ProvisioningWebhook.SettlesIffIdFits` is the exact
  condition).
- The wire validator promises that an unknown key is refused on write, and passes any key inside `auth`
  (`WireLaws.OtherAuthKeyIsIgnored`). It also runs after the config sanitizer, so that a header with a secret-looking name
  is accepted and dropped (`ModelConfig.SecretHeaderIsLost`); `ModelConfig.StoredWireTakesEffect` is the exact condition.
- Each rotation is meant to leave a log entry. The key row is replaced first, and the entry holds a reason that the request
  sets freely, so that one too long for its column leaves the rotation unlogged (`VaultLaws.LongReasonStillRotates`).
- An entitlement answer is dated by its arrival, and a slow older request replaces the answer of a newer one
  (`EntitlementCache.LateAnswerReplacesNewer`), exactly when answers arrive out of the order asked
  (`EntitlementCache.KeepsNewestIffInOrder`).

## Model

| member | source | states |
|---|---|---|
| OpenAiStream.ParseOpenAiCompatibleStream | service/src/providers/openai-compatible.ts:215-305 | the decoding loop emits exactly the specified run, for every frame sequence and way of breaking off |
| OpenAiStream.AbsorbFragment | service/src/providers/openai-compatible.ts:285-294 | one fragment updates its index's buffer, keeps the others, and keeps the map's iteration order |
| OpenAiStream.Flush | service/src/providers/openai-compatible.ts:227-243 | one tool call for each index seen, in order of first appearance, then done |
| OpenAiStream.DecodeWellShaped | service/src/providers/openai-compatible.ts:227-304 | done is emitted once, last, exactly when the decoder does not throw |
| OpenAiAgreement.ParseOpenAiToolCalls | service/src/providers/openai-compatible.ts:149-163 | exactly the calls with an id and a name, in order |
| OpenAiAgreement.CutSaysTheResponse | service/src/providers/openai-compatible.ts:165-305 | for every free interleaving of a response's fragments: its text; each call, in array order, with its id, its name and the object or array its text parses to, or the empty object; its counts, absent ones zero and an absent total their sum; its finish reason by its word |
| OpenAiAgreement.NormalizedSaysTheResponse | service/src/providers/openai-compatible.ts:115-193 | the normalizer throws iff there is no text and no call with an id and a name, and else gives the text, exactly those calls, the counts and the finish reason, in the same words |
| OpenAiAgreement.FirstChoiceCounts | service/src/providers/openai-compatible.ts:119-120 | only the first choice of a response counts |
| OpenAiAgreement.StreamAgreesWithResponse | service/src/providers/openai-compatible.ts:115-305 | stream and normalizer agree on every cut iff every call has an id and a name and there is some text or call |
| OpenAiAgreement.CutsAreEquivalent | service/src/providers/openai-compatible.ts:215-305 | two cuts of one response give the same text, calls and done |
| OpenAiAgreement.OneChunkCuts | service/src/providers/openai-compatible.ts:115-147 | a response sent in one chunk is a cut of itself, so the agreement law applies to every response |
| OpenAiLaws.SentinelEnds | service/src/providers/openai-compatible.ts:245-251 | what follows the sentinel, and how the transport then ends, do not matter |
| OpenAiLaws.NullAndBreakThrow | service/src/providers/openai-compatible.ts:245-276 | a null payload, or a break before the sentinel, makes the decoder throw |
| OpenAiLaws.MalformedChunksAreReported | service/src/providers/openai-compatible.ts:253-263 | each chunk that is no JSON is reported once, in order, and nothing else is an error |
| OpenAiLaws.DoneHasTheLastUsage | service/src/providers/openai-compatible.ts:265-274 | done has the counts of the last frame with usage, and none when no frame has any |
| OpenAiLaws.DoneHasTheLastFinish | service/src/providers/openai-compatible.ts:297-299 | done has the last known finish reason of a first choice |
| OpenAiLaws.CallsHaveTheLastWord | service/src/providers/openai-compatible.ts:284-295 | in any stream each index makes a call with the last id and name given for it and its texts joined in order; no index is index 0 |
| ClaudeStream.ParseClaudeStream | service/src/providers/claude.provider.ts:204-341 | the decoding loop emits exactly the specified run, for every frame sequence and way of breaking off |
| ClaudeStream.ReadMeter | service/src/providers/claude.provider.ts:246-303 | the running counters are the latest input and output reports and the latest mapped stop reason |
| ClaudeLaws.DoneHasTheLastCounts | service/src/providers/claude.provider.ts:246-341 | done has the output count of the last message_start or message_delta with usage, the input count of the last message_start, absent counts zero, and their sum |
| ClaudeLaws.DoneHasUsageIffSaid | service/src/providers/claude.provider.ts:246-341 | done has usage iff some frame carried it |
| ClaudeLaws.DoneHasTheLastStop | service/src/providers/claude.provider.ts:292-297 | done has the last known stop reason, by its word |
| ClaudeLaws.ErrorsArePassedOn | service/src/providers/claude.provider.ts:228-315 | each event that is no JSON, and each upstream error, is passed on once and in order |
| ClaudeLaws.NullAndBreakThrow | service/src/providers/claude.provider.ts:228-246 | a null payload, or a break, makes the decoder throw after what came before |
| ClaudeLaws.BlocksAreTouchedBy | service/src/providers/claude.provider.ts:258-290 | which events open, feed and close a tool block, and with what |
| ClaudeStream.Finish | service/src/providers/claude.provider.ts:321-340 | blocks still open are delivered oldest first, then done with usage exactly when some frame carried it |
| ClaudeStream.ToolBlockConservation | service/src/providers/claude.provider.ts:205-326 | the calls made are, as a multiset, one for each started block that is not overwritten, holding all text fed to it while open |
| ClaudeStream.RunConserves | service/src/providers/claude.provider.ts:205-326 | from any open blocks, calls made and drained equal calls due |
| ClaudeStream.OneCallPerBlock | service/src/providers/claude.provider.ts:258-326 | as many calls as tool_use starts iff no index is restarted while open |
| ClaudeStream.SwappingBlocksKeepsCalls | service/src/providers/claude.provider.ts:258-326 | swapping adjacent frames of different indices leaves the multiset of tool calls unchanged |
| ClaudeStream.DecodeWellShaped | service/src/providers/claude.provider.ts:319-341 | done is emitted once, last, exactly when the decoder does not throw |
| ClaudeAgreement.StreamAgreesWithResponse | service/src/providers/claude.provider.ts:75-341 | stream and normalizer agree on every block-by-block cut iff every tool block has an id and a name and there is some text or tool block |
| ClaudeAgreement.DecodeCut | service/src/providers/claude.provider.ts:204-341 | any cut of a response's blocks decodes to its text, its tool blocks' calls in order and its stop reason |
| ClaudeAgreement.WordsAreRead | service/src/providers/claude.provider.ts:343-384 | which input a text stands for, and which stop reason a word |
| ClaudeAgreement.BlocksSay | service/src/providers/claude.provider.ts:75-99 | the text and the call of a block, from its own fields |
| ClaudeAgreement.NormalizedSaysTheResponse | service/src/providers/claude.provider.ts:75-123 | when the normalizer throws, and its text, calls, counts and stop reason |
| ClaudeAgreement.BlockMakesItsCall | service/src/providers/claude.provider.ts:216-326 | the frames of one block make exactly its call and leave no block open |
| ClaudeAgreement.PlainCuts | service/src/providers/claude.provider.ts:75-123 | every response whose inputs can be written as text has a cut |
| ChatGateway.ModelRuntimeService.Chat | service/src/runtime/runtime.service.ts:65-256 | outcome and ledger of a chat are those of the specified run, and the in-flight gauge returns to its value |
| ChatGateway.ModelRuntimeService.ChatStream | service/src/runtime/runtime.service.ts:264-472 | events yielded, outcome and ledger of a stream are those of the specified run, also when the consumer leaves, and the gauge returns |
| ChatGateway.ModelRuntimeService.ResolveCandidateModels | service/src/runtime/runtime.service.ts:626-645 | the primary and then the fallbacks whose reading succeeds, or whatever reading the primary throws |
| ChatGateway.ModelRuntimeService.Consume | service/src/platform/platform-entitlement.client.ts:129-179 | total: one post, for this request and workspace and the amount without its fraction, exactly for a proven workspace, a configured platform and a positive amount; true exactly when it was accepted |
| ChatGateway.ModelRuntimeService.Record | service/src/reqlog/request-log.service.ts:20-98 | total: one attempt, and its clamped row stored exactly when the database is up, three body fields can be trimmed, the usage type is blank or one the column admits, no text written holds a NUL and every count fits a bigint |
| ChatGateway.ModelRuntimeService.RecordUsage | service/src/runtime/runtime.service.ts:778-855 | one consume at most, one success record that agrees with it, and then a metering step that throws exactly when the feature id is present, not null and no string |
| ChatGateway.ModelRuntimeService.AttemptStream | service/src/runtime/runtime.service.ts:325-438 | one candidate: its events, what is written for it, and whether the run ends with it or falls through |
| ChatGateway.ModelRuntimeService.RecordFailure | service/src/runtime/runtime.service.ts:726-776 | one request record without tokens or bill, stored as Record says, and one error record attempted |
| ChatLaws.ChatFallback | service/src/runtime/runtime.service.ts:97-255 | the first candidate that is denied, or answers a call that can be metered, decides; when all fall through, the error of the last is thrown |
| ChatLaws.ProducedWellShaped | service/src/runtime/runtime.service.ts:369-394 | every provider stream the loop may read ends in one done or throws without one |
| ChatLaws.ComposedStreamShape | service/src/runtime/runtime.service.ts:325-472 | for every call the events are the outputs of the candidates that fell through, in order, and then the winner's; a completed stream has one done, last, and a throwing one none, iff the feature id can be trimmed or no candidate comes to be metered |
| ChatLaws.WalkingAwayCutsShort | service/src/runtime/runtime.service.ts:369-419 | a consumer that leaves sees a prefix of the patient run, and the candidate it leaves is neither billed nor logged |
| ChatLaws.ChatMetering | service/src/runtime/runtime.service.ts:77-244 | one request record with the whole part of each of the answer's counts, billed for its whole total iff that was posted and accepted, and stored exactly when the log takes it, or a failure with neither, iff the feature id can be trimmed or no candidate comes to answer; nothing is written when no candidate resolves |
| ChatLaws.StreamMetering | service/src/runtime/runtime.service.ts:302-472 | at most one post, for the usage of the done that was yielded, none for a failure, and a record stored exactly when the log takes it, iff the feature id can be trimmed or no candidate comes to be metered; a done without usage leaves no record |
| ChatRecords.UnloggableStoresNothing | service/src/reqlog/request-log.service.ts:52-98 | a call that cannot be logged leaves no row in any chat or stream |
| ChatRecords.BatchIsBilledAndLost | deploy/database/ddl/00_baseline.sql:118-118 | with usage type batch every answer is attempted, billed as any other, and not stored |
| ChatRecords.LoggableCalls | service/src/reqlog/request-log.service.ts:20-98 | a usage type can be logged iff it is, trimmed, blank, normal, retry or test |
| ChatRecords.MeterableCalls | service/src/metering/metering.service.ts:18-37 | a feature id can be metered iff it is absent, null or a string |
| ChatRecords.RowsKeepRecords | service/src/reqlog/request-log.service.ts:25-98 | a row has the counts and status of its record, and its texts trimmed and cut to their columns |
| ChatRecords.RecordsNameTheirCandidate | service/src/runtime/runtime.service.ts:726-855 | a success record names a candidate that was let through, a failure record and its error the one denied, with its code, or the request's model and the provider tried last |
| ChatRecords.ErrorsSayWhatFailed | service/src/runtime/runtime.service.ts:647-717 | the caller gets the error itself if it names a request, and else its code with what is missing filled in |
| ChatRecords.CandidatesFollowTheConfig | service/src/runtime/runtime.service.ts:626-645 | the candidates are the primary and, in order, the readable other models of the trimmed codes configured; streams skip those that do not stream |
| BillingAgreement.OneCandidateLedgers | service/src/runtime/runtime.service.ts:161-170 | an answer and a stream that ends with its usage, or with none, write the same iff the usage was sent |
| BillingAgreement.OpenAiBillsAlike | service/src/providers/openai-compatible.ts:115-305 | for every cut of an OpenAI response, stream and chat write the same iff the upstream reported usage |
| BillingAgreement.ClaudeBillsAlike | service/src/providers/claude.provider.ts:75-341 | for every block-by-block cut of an Anthropic response, stream and chat write the same iff some frame carried usage |
| ChatLaws.PostsShareTheRequest | service/src/runtime/runtime.service.ts:794-801 | every post of any run carries the request id and the workspace of the call |
| ChatLaws.TwoDones | service/src/runtime/runtime.service.ts:389-437 | with a feature id that cannot be trimmed, a completed stream of two dones |
| ChatLaws.TwoPosts | service/src/runtime/runtime.service.ts:128-242 | with a feature id that cannot be trimmed, two answers billed for one chat that is then reported as failed |
| ChatLaws.AccountingIsInvisible | service/src/runtime/runtime.service.ts:778-855 | whether the platform bills and the database stores changes nothing the caller sees |
| ChatLaws.ErrorsAreTraceable | service/src/runtime/runtime.service.ts:647-717 | every error thrown carries a request id |
| ChatLaws.CandidatesAreRoutable | service/src/runtime/runtime.service.ts:626-645 | the primary is first, and every later candidate is another model that the registry serves |
| ReqlogNames.NameRoundTrip | deploy/database/ddl/incr/02_reqlog_partition_maintenance.sql:45-98 | a generated partition name matches the pattern and parses back to its month |
| ReqlogNames.NamesSpelledOut | deploy/database/ddl/incr/02_reqlog_partition_maintenance.sql:45-45 | a name is its table, four digits of the year and two of the month |
| ReqlogNames.NamesAreDistinct | deploy/database/ddl/incr/02_reqlog_partition_maintenance.sql:43-47 | different tables or months have different names, and DEFAULT never looks monthly |
| ReqlogNames.NamesAreLawful | deploy/database/ddl/incr/02_reqlog_partition_maintenance.sql:43-98 | the naming scheme meets every assumption of the refinement |
| ReqlogPartitions.ReqlogSchema.constructor | deploy/database/ddl/00_baseline.sql:148-171 | the bootstrap loop makes seven months from July 2026 for both tables and empty DEFAULT partitions |
| ReqlogPartitions.ReqlogSchema.EnsurePartitions | deploy/database/ddl/incr/02_reqlog_partition_maintenance.sql:29-57 | the nested loops are the all-or-nothing extension: refused exactly when it is None, and then nothing changes |
| ReqlogPartitions.ReqlogSchema.DropExpiredPartitions | deploy/database/ddl/incr/02_reqlog_partition_maintenance.sql:68-109 | the scan drops exactly the expired children, none in a dry run, and never DEFAULT |
| ReqlogPartitions.ReqlogSchema.Insert | deploy/database/ddl/00_baseline.sql:148-171 | a row goes to the end of the child named for its month, or of DEFAULT when that child is missing, and no other rows change |
| ReqlogCalendar.RunwayIsReal | service/src/registry/model-registry.repository.ts:627-646 | after every history from the bootstrap window on, monthsAhead is the length of the unbroken run of covered months of both tables |
| ReqlogCalendar.RunwayCountsTheRun | service/src/registry/model-registry.repository.ts:627-646 | the count is the run's length iff there is no gap |
| ReqlogCalendar.BeforeTheWindowOvercounts | deploy/database/ddl/00_baseline.sql:156-157 | before the bootstrap window seven months are reported and none is usable |
| ReqlogCalendar.BootstrapWindow | deploy/database/ddl/00_baseline.sql:156-157 | the bootstrap covers July 2026 to January 2027 |
| ReqlogCalendar.ScheduleKeepsDefaultEmpty | deploy/database/ddl/incr/02_reqlog_partition_maintenance.sql:41-56 | while each maintenance run comes before its predecessor's runway ends, every row lands in its month, DEFAULT stays empty and no run is refused |
| ReqlogCalendar.RowsAreKept | deploy/database/ddl/incr/02_reqlog_partition_maintenance.sql:83-106 | a filed row stays, in order, until a prune reaches its month |
| ReqlogCalendar.StrayRowBlocksThisMonth | service/src/runtime/health.service.ts:195-203 | after a row of this month fell into DEFAULT, every maintenance run is refused and changes nothing until the month ends, whatever else is done |
| ReqlogCalendar.DefaultIsTheStrays | deploy/database/ddl/00_baseline.sql:166-169 | DEFAULT grows by exactly the rows whose month was not covered when they were written, in order |
| ReqlogCalendar.DefaultsEmptyIffCovered | deploy/database/ddl/00_baseline.sql:148-171 | after any history from the bootstrap both DEFAULTs are empty iff every write found its month covered |
| ReqlogCalendar.CheckSeesRequestStraysOnly | service/src/runtime/health.service.ts:187-216 | after any history the check fails iff a request row has strayed, and strayed error rows never change its verdict |
| ReqlogCalendar.PassCoversNextMonth | service/src/runtime/health.service.ts:187-216 | after any history, pass iff no request row has strayed and this month and the next are covered in both tables |
| ReqlogCalendar.PassMissesErrorDefault | service/src/runtime/health.service.ts:187-216 | a concrete history that passes with an error row in DEFAULT |
| ReqlogRefinement.EnsureRefines | deploy/database/ddl/incr/02_reqlog_partition_maintenance.sql:29-57 | extension by name is extension by month |
| ReqlogRefinement.PruneRefines | deploy/database/ddl/incr/02_reqlog_partition_maintenance.sql:68-109 | pruning by parsed name is pruning by month |
| ReqlogRefinement.InsertRefines | deploy/database/ddl/incr/02_reqlog_partition_maintenance.sql:43-50 | routing by range is filing by month |
| ReqlogRefinement.RunwayRefines | service/src/registry/model-registry.repository.ts:631-642 | counting future names is counting future months |
| ReqlogRefinement.NamedRunRefines | deploy/database/ddl/incr/02_reqlog_partition_maintenance.sql:29-109 | every history of named partitions is a history of the calendar |
| ReqlogRefinement.NamedRunwayIsReal | service/src/runtime/health.service.ts:187-216 | over named histories, each of the monthsAhead months routes to exactly one partition of each table, the next to none, and pass covers next month |
| ProvisioningWebhook.ProvisioningWebhookService.Handle | service/src/provisioning/provisioning-webhook.service.ts:35-134 | store and answer are those of verify, idempotency, ordering, execute, with the payloads that the columns refuse |
| ProvisioningWebhook.AcceptancesSay | service/src/provisioning/provisioning-webhook.service.ts:51-99 | what an accepted payload does, in its own fields: a processed one leaves its workspace's row and the last delivery with its kind and its number |
| ProvisioningWebhook.RejectionsSay | service/src/provisioning/provisioning-webhook.service.ts:40-49 | exactly when the signature or the payload is turned away, and that nothing changes then |
| ProvisioningWebhook.RefusalsSay | service/src/provisioning/provisioning-webhook.service.ts:51-90 | exactly when the database or the number's conversion throws |
| ProvisioningWebhook.SettlesIffIdFits | deploy/database/ddl/00_baseline.sql:398-407 | a payload that reaches the ledger is recorded, and acknowledged, iff its id fits the column; it is applied either way |
| ProvisioningWebhook.OverlongIdNeverSettles | deploy/database/ddl/00_baseline.sql:398-407 | an id that does not fit fails at every delivery, and only the first changes anything |
| ProvisioningWebhook.ProvisioningWebhookService.FindDelivery | service/src/provisioning/provisioning-webhook.repository.ts:11-13 | found exactly when the ledger lists the id |
| ProvisioningWebhook.ProvisioningWebhookService.UpsertProvisioning | service/src/provisioning/provisioning-webhook.repository.ts:41-72 | the event's workspace takes its status and number, and every other row is as it was |
| ProvisioningWebhook.FourCallsHandle | service/src/provisioning/provisioning-webhook.service.ts:53-99 | four database calls finish every handler, and uninterrupted they are the handler |
| ProvisioningWebhook.CrashThenRedeliver | service/src/provisioning/provisioning-webhook.service.ts:63-97 | a crash between any two calls and a redelivery end as an uninterrupted run; after the upsert the redelivery is told it is stale |
| WebhookConvergence.WebhookConverges | service/src/provisioning/provisioning-webhook.service.ts:51-99 | in any order, with any repetition and crashes: every workspace is at its highest-numbered event and the ledger lists each id once iff every id fits the ledger and some handler of each event has finished |
| WebhookConvergence.PayloadsConverge | service/src/provisioning/provisioning-webhook.service.ts:51-99 | over payloads, with any spelling of a workspace's uuid: each row ends with the kind and the number of its highest-numbered payload, and each id is in the ledger |
| WebhookConvergence.HistoriesAgree | service/src/provisioning/provisioning-webhook.service.ts:51-99 | two complete histories of the same events end with the same rows and the same ledger but for its order |
| WebhookConvergence.SequenceOnlyRises | service/src/provisioning/provisioning-webhook.service.ts:61-90 | every step that touches a row strictly raises its number |
| WebhookConvergence.FinishedMeansDelivered | service/src/provisioning/provisioning-webhook.repository.ts:15-30 | a finished handler's event is in the ledger iff its id fits there, and no insert violated uniqueness |
| WebhookConvergence.LedgerGrows | service/src/provisioning/provisioning-webhook.repository.ts:15-30 | nothing leaves the ledger |
| WebhookConvergence.InterleavingMovesBackwards | service/src/provisioning/provisioning-webhook.service.ts:63-90 | any two events of one workspace handled in lockstep, the newer first, end at the older one |
| Grants.TopTwoKeepsRule | service/src/registry/model-registry.repository.ts:253-291 | the fetch of two returns the best exact grant, else the best wildcard, iff there is no exact grant, or the id is canonical and nulls sort last or at most one wildcard matches |
| Grants.SelectedRows | service/src/registry/model-registry.repository.ts:253-333 | which rows a lookup is about, field by field |
| Grants.BestIsLowestAndNewest | service/src/registry/model-registry.repository.ts:272-276 | the best of a kind has the lowest priority number, and of those is the newest |
| Grants.LookupsRefuse | service/src/registry/model-registry.repository.ts:250-251 | an id that is no uuid is refused, the tenant's first |
| Grants.SortedFetchExists | service/src/registry/model-registry.repository.ts:272-277 | the ordering can always be met, so the laws about it are never vacuous |
| Grants.NullsFirstLosesExactGrant | service/src/registry/model-registry.repository.ts:272-277 | with nulls first, one exact grant and two wildcards return a wildcard |
| Grants.GateOpensIffGranted | service/src/registry/model-registry.repository.ts:253-291 | for every spelling of the application id and both placements of nulls, exactly when a lookup succeeds |
| Grants.RoutedModelPassesGate | service/src/registry/model-registry.repository.ts:301-353 | a model chosen by task profile passes the gate of the same scope iff the id is canonical, or nulls sort first, or at most one exact grant is about the model |
| Grants.RoutingFindsACode | service/src/registry/model-registry.repository.ts:310-352 | routing finds a code iff its lookup opens, and the code is then that of an active model |
| Grants.ListingIsTheGate | service/src/registry/model-registry.repository.ts:360-402 | with explicit id and type, the listing is, each once, the active models the gate grants and those listed in vain: with an id not spelled as stored and no wildcard that the lookup reaches |
| Grants.OtherSpellingIsListedInVain | service/src/registry/model-registry.repository.ts:280-385 | for every such id, one exact grant is listed and refused by the gate |
| Grants.OtherSpellingIsRoutedInVain | service/src/registry/model-registry.repository.ts:280-352 | for every such id with nulls last, a routed model that the gate refuses |
| EntitlementCache.PlatformEntitlementClient.BeginResolve | service/src/platform/platform-entitlement.client.ts:66-76 | a request goes out iff the platform is configured and nothing unexpired is remembered |
| EntitlementCache.PlatformEntitlementClient.FinishResolve | service/src/platform/platform-entitlement.client.ts:82-110 | only an answer is remembered, dated by its arrival; a failure changes nothing, and no other workspace is touched |
| EntitlementCache.CacheIsLatestAnswer | service/src/platform/platform-entitlement.client.ts:66-110 | after any interleaving the cache holds exactly the latest answer about each workspace |
| EntitlementCache.HitIffFresh | service/src/platform/platform-entitlement.client.ts:73-76 | a lookup is answered from memory iff the latest answer is younger than the lifetime |
| EntitlementCache.BoundedStaleness | service/src/platform/platform-entitlement.client.ts:66-110 | every answer given is the caller's own reply or the latest one, younger than the lifetime; failures are never replayed |
| EntitlementCache.KeepsNewestIffInOrder | service/src/platform/platform-entitlement.client.ts:66-110 | over every legal history the cache never falls back to the answer of an older request iff answers arrive in the order asked |
| EntitlementCache.LateAnswerReplacesNewer | service/src/platform/platform-entitlement.client.ts:82-104 | a history in which an older request's late answer is served after a newer one |
| Quota.CheckEntitlement | service/src/quota/quota.service.ts:49-70 | refuses iff a workspace is named, the outcome is resolved, some pool is listed and none has anything left |
| Quota.RefusalNeedsFreshExhaustion | service/src/quota/quota.service.ts:94-117 | over every interleaving, table and spelling: throws iff an id is no uuid; denied iff the lookup does not open; refused for quota iff it opens and the answer in force, the caller's own or one younger than the lifetime, was exhausted |
| Quota.ScopeResolvesOnce | service/src/quota/quota.service.ts:120-158 | a resolved scope resolves to itself and is never blank, so gate, log and meter agree |
| Quota.ScopeSaysTheRequest | service/src/quota/quota.service.ts:120-158 | when the application id, the agent id or the service's own id is the scope, and of which type |
| ProbeCooldown.ModelProbeService.AssertNotCoolingDown | service/src/runtime/model-probe.service.ts:158-173 | verdict, retry hint and new map |
| ProbeCooldown.ModelProbeService.PruneCooldowns | service/src/runtime/model-probe.service.ts:176-182 | exactly the starts inside the window remain |
| ProbeCooldown.CooldownIsTheHistory | service/src/runtime/model-probe.service.ts:158-182 | the pruned map accepts iff the full history has no accepted start within the window; the hint, in (0, window], is the exact remaining wait |
| ProbeCooldown.StartsAreSpaced | service/src/runtime/model-probe.service.ts:162-173 | accepted starts of one model are at least the window apart |
| ProbeCooldown.MapIsTheWindow | service/src/runtime/model-probe.service.ts:171-182 | after an accept the map holds exactly the last starts inside the window |
| ProbeCooldown.ClockStepsBack | service/src/runtime/model-probe.service.ts:158-182 | a clock that steps back admits a probe too early and exceeds the window in a hint |
| Wire.ApplyOverlay | service/src/providers/wire.ts:143-177 | one overlay's effect and exactly the warnings it causes |
| Wire.MergeSupports | service/src/providers/wire.ts:179-198 | per-capability merge with one warning for each unknown key |
| Wire.MergeStringMap | service/src/providers/wire.ts:200-218 | per-key merge of the strings, with one warning for each other entry |
| Wire.ResolveWire | service/src/providers/wire.ts:124-141 | the layers applied in order, anything but an object skipped |
| Wire.ValidateWire | service/src/providers/wire.ts:227-320 | exactly the problems of every field |
| WireLaws.AcceptedIffShown | service/src/providers/wire.ts:143-320 | a descriptor is accepted and holds nothing beside style in auth iff its version is understood and every declared value takes effect over the base |
| WireLaws.FullEffectIffAuthUnderstood | service/src/providers/wire.ts:143-320 | an accepted descriptor takes full effect iff auth holds nothing beside style |
| WireLaws.OtherAuthKeyIsIgnored | service/src/providers/wire.ts:161-281 | any other key in auth is accepted without a warning and changes nothing |
| WireLaws.AcceptedIsQuiet | service/src/providers/wire.ts:147-218 | an accepted descriptor causes no warning |
| WireLaws.QuietIff | service/src/providers/wire.ts:147-218 | exactly what the reader warns about |
| WireLaws.OnlyObjectsPass | service/src/providers/wire.ts:227-232 | beside objects, only an absent or null descriptor passes |
| WireLaws.UnmentionedKeeps | service/src/providers/wire.ts:166-218 | what an overlay does not mention keeps its base value, key by key |
| WireLaws.LastWriterWins | service/src/providers/wire.ts:124-218 | layering is last-writer-wins for each scalar, header, parameter and capability |
| WireLaws.OverlaysCompose | service/src/providers/wire.ts:143-218 | any two overlays have one overlay with their joint effect over every base |
| WireLaws.RunIsOneOverlay | service/src/providers/wire.ts:124-141 | a whole run of configs is one overlay |
| WireLaws.OverlayIdempotent | service/src/providers/wire.ts:143-218 | applying an overlay again changes nothing |
| ModelConfig.MergingTouchesSlots | service/src/runtime/model-admin.service.ts:1376-1395 | merging changes no key but the two slots, leaves in those what was asked for, and never stores an empty config |
| ModelConfig.SlotsSayTheSource | service/src/runtime/model-admin.service.ts:1385-1391 | which slot holds a reference, by its source |
| ModelConfig.ReferenceSaysTheRequest | service/src/runtime/model-admin.service.ts:1453-1478 | what a request asks of the reference, for every shape of its two fields |
| ModelConfig.ReadingSaysTheSlots | service/src/runtime/model-admin.service.ts:1417-1440 | which slot is read first, and that blank ones are not |
| ModelConfig.RefusedForItsWire | service/src/runtime/model-admin.service.ts:1360-1374 | a write is refused iff the validator finds something in the sanitized descriptor |
| ModelConfig.NamesThatAreStripped | service/src/runtime/model-admin.service.ts:45-46 | the names the pattern matches, in lower case |
| ModelConfig.CaseDoesNotMatter | service/src/runtime/model-admin.service.ts:45-46 | the case of ASCII letters makes no difference to that |
| ModelConfig.SanitizingKeeps | service/src/runtime/model-admin.service.ts:1397-1415 | exactly the paths through no secret-named key survive, with sanitized values |
| ModelConfig.CleanIsFixed | service/src/runtime/model-admin.service.ts:1397-1415 | sanitizing changes nothing iff no secret-named key occurs at any depth |
| ModelConfig.SanitizedIdempotent | service/src/runtime/model-admin.service.ts:1397-1415 | sanitizing twice is sanitizing once |
| ModelConfig.NormalizedIsWellNamed | service/src/runtime/model-admin.service.ts:1453-1478 | a reference taken from any request is trimmed and not blank |
| ModelConfig.OnlyTheSlotIsSecret | service/src/runtime/model-admin.service.ts:1360-1440 | no secret-named key is stored at any depth but the one slot, and the reference written is the one read |
| ModelConfig.ReadModifyWrite | service/src/runtime/model-admin.service.ts:1354-1478 | submitting the displayed config with the displayed reference stores the same config |
| ModelConfig.PartialUpdatesReplace | service/src/runtime/model-admin.service.ts:657-662 | submitting only the config drops the reference, and only the reference drops the config |
| ModelConfig.StoredWireTakesEffect | service/src/runtime/model-admin.service.ts:1360-1415 | an accepted descriptor takes full effect from what is stored, over every base, iff no secret-named key occurs in it at any depth and its auth holds nothing beside style |
| ModelConfig.SecretHeaderIsLost | service/src/runtime/model-admin.service.ts:1363-1374 | a header with a secret-looking name is accepted and has no effect |
| MasterKeys.ProviderKeyCrypto.LoadMasterKeySet | service/src/provider-keys/provider-key-crypto.ts:76-102 | the process-lifetime cache never differs from loading afresh |
| MasterKeys.ParseMasterKeys | service/src/provider-keys/provider-key-crypto.ts:34-73 | the key set, or why it is rejected |
| MasterKeys.ProviderKeyCrypto.EncryptProviderKey | service/src/provider-keys/provider-key-crypto.ts:115-136 | the sealed secret under the active key, or the configuration error |
| MasterKeys.ProviderKeyCrypto.DecryptProviderKey | service/src/provider-keys/provider-key-crypto.ts:139-173 | the plaintext, or which of the failures |
| MasterKeys.LayoutRoundTrip | service/src/provider-keys/provider-key-crypto.ts:133-157 | splitting at the two lengths inverts the concatenation in both directions, for every length |
| MasterKeys.DecryptionInverts | service/src/provider-keys/provider-key-crypto.ts:115-173 | a secret reads back under any configuration that keeps its key, and a retired id is reported |
| MasterKeys.KeysAreAsGiven | service/src/provider-keys/provider-key-crypto.ts:34-102 | the keys load iff the environment gives an object of base64 texts of 32 bytes and names one of them, and are as given there |
| MasterKeys.StoredAsLaidOut | service/src/provider-keys/provider-key-crypto.ts:115-136 | a stored secret is twelve bytes of nonce, sixteen of tag and the ciphertext, under the active key |
| MasterKeys.UnreadableSays | service/src/provider-keys/provider-key-crypto.ts:139-173 | exactly why a stored secret is not read |
| MasterKeys.SoundCipherExists | service/src/provider-keys/provider-key-crypto.ts:124-168 | the cipher assumption can be met for every text |
| KeyVault.ProviderKeyService.CreateKey | service/src/provider-keys/provider-key.service.ts:62-126 | validation order, column widths, conflict and the one row added |
| KeyVault.ProviderKeyService.RotateKey | service/src/provider-keys/provider-key.service.ts:129-174 | the row named by any spelling of its uuid replaced and made active, and then the log entry, if its operator and reason fit |
| KeyVault.ProviderKeyService.SetKeyActive | service/src/provider-keys/provider-key.service.ts:176-192 | only the flag of the one row named by any spelling of its uuid |
| KeyVault.ProviderKeyService.Resolve | service/src/provider-keys/provider-key.service.ts:195-202 | nothing for an unknown or inactive name, else the decrypted row; no table changes |
| VaultLaws.VaultKeepsNotebook | service/src/provider-keys/provider-key.service.ts:62-202 | every operation and restart keeps the tables and the notebook of secrets in step |
| VaultLaws.VaultLifecycle | service/src/provider-keys/provider-key.service.ts:62-202 | after every allowed run, a name resolves to what was last created or rotated in iff it is active; names stay unique; the log lists, in order, the rotations made on a live database whose entry fits |
| VaultLaws.CreatedSaysTheBody | service/src/provider-keys/provider-key.service.ts:62-126 | who is turned away and for what; what is kept resolves, under the trimmed provider and alias, to the key as sent, with the scope asked for or shared |
| VaultLaws.EntriesThatFit | service/src/provider-keys/provider-key.service.ts:155-160 | which reasons and operators a log entry takes |
| VaultLaws.NotebookIsUnambiguous | deploy/database/ddl/00_baseline.sql:63-63 | a name never has two answers |
| VaultLaws.RetiredKeyIsReported | service/src/provider-keys/provider-key-crypto.ts:143-149 | a row is unreadable after a restart iff its master key id is gone, and the failure says so |
| VaultLaws.OneEntryPerRotation | service/src/provider-keys/provider-key.service.ts:155-167 | there are as many entries as rotations iff every rotation found the database live, a reason absent or fitting 512 characters and an operator absent or a uuid |
| VaultLaws.RotationIsLoggedIffItFits | service/src/provider-keys/provider-key.service.ts:129-174 | the same for one rotation, whose secret is replaced either way |
| VaultLaws.LongReasonStillRotates | deploy/database/ddl/00_baseline.sql:74-80 | a reason of 513 characters: failure reported, secret replaced, nothing logged |
| Bits.MaskClearsLowDigits | service/src/runtime/guards/internal-diagnostics.guard.ts:178-179 | conjunction with ones over zeros clears exactly the low digits |
| Bits.ShiftedOnes | service/src/runtime/guards/internal-diagnostics.guard.ts:178-178 | the signed shift made unsigned is the mask |
| Cidr.CombinedIsValue | service/src/runtime/guards/internal-diagnostics.guard.ts:196-201 | the signed shifts add up to the address in base 256 |
| Cidr.CidrIsIntegerPrefix | service/src/runtime/guards/internal-diagnostics.guard.ts:150-180 | for all texts, the check holds iff both addresses parse, the length is whole and in 0 to 32, and they agree after division by 2^(32-length) (section 3.1 of RFC 4632) |
| Cidr.LengthSaysTheNumber | service/src/runtime/guards/internal-diagnostics.guard.ts:156-179 | a length text whose number is the whole n compares n binary digits |
| Cidr.OtherLengthsMatchNothing | service/src/runtime/guards/internal-diagnostics.guard.ts:158-165 | no other number makes a length |
| Cidr.OneAddress | service/src/runtime/guards/internal-diagnostics.guard.ts:186-202 | one address, spelled out |
| Cidr.ShorterRangeAccepts | service/src/runtime/guards/internal-diagnostics.guard.ts:150-180 | a match at a longer prefix is a match at every shorter one |
| Cidr.ParsingIsInjective | service/src/runtime/guards/internal-diagnostics.guard.ts:186-202 | two texts parse alike iff they have the same octets |
| Cidr.DottedRoundTrip | service/src/runtime/guards/internal-diagnostics.guard.ts:182-202 | four octets written in one to three digits parse back |
| Cidr.EveryAddressHasText | service/src/runtime/guards/internal-diagnostics.guard.ts:182-202 | the usual text of every address parses to it |
| Cidr.SecondSlashIsIgnored | service/src/runtime/guards/internal-diagnostics.guard.ts:151-154 | what follows a second slash does not matter |

## Left out

- ClaudeAgreement.StreamAgreesWithResponse: cuts keep content blocks one after the other, as the protocol sends them; calls of interleaved blocks come in the order the blocks close (ClaudeStream.SwappingBlocksKeepsCalls).
- VaultLaws.VaultLifecycle: a restart that drops or changes a master key still referred to is not an allowed step; VaultLaws.RetiredKeyIsReported says what it does to the row.
- EntitlementCache.BoundedStaleness: age is counted from the answer's arrival, as the code dates it, not from when the platform computed it.
- HTTP, timers, abort signals, controllers, JWT and HMAC checks: transport and foreign cryptography; a signature check is a boolean.
- SSE byte framing, JSON text and UTF-8: streams start from framed messages, and parsing is an arbitrary function.
- Non-object shapes inside provider frames beyond those modelled (a `choices` that is no array, a numeric id): a field of the wrong type counts as absent.
- Request-record attribution columns and latencies: not part of any stated law.
- Text lengths in UTF-16 units: lengths count characters here, so that no cut can split one.
- Webhook numbers beyond the range of `bigint`, and years beyond 9999.
- Bodies whose other unvalidated fields have the wrong type and are rejected before any candidate is tried.
- Webhook tenant id and timestamp columns: in the code they depend on delivery order, and values they refuse make it throw.
- Order of reported problems, warnings and object keys: they are sets and maps here; stored JSON keeps no key order.
- A config key named `__proto__`, which JavaScript's assignment in the sanitizer treats specially.
- An entitlement reply that is JSON `null`, and pool fields other than `remaining`.
- Environment variables that change while a process runs: the key set and cache settings are fixed per process.
- KeyVault.ProviderKeyService.RotateKey: other texts that PostgreSQL reads as a uuid, with hyphens elsewhere, count as none.
- ProvisioningWebhook.ProvisioningWebhookService.Handle: a delivery id over 128 characters whose excess is only spaces, which PostgreSQL shortens, counts as too long.
- AES-GCM itself, and uniqueness of nonces: the cipher is abstract, with opening inverting sealing as its one law.
- Router dispatch, protocol aliases, administrative CRUD and other one-branch checks: they would only add easy members.
