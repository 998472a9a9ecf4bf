# A verified model of the COBO IAM services

Dafny models of the seven stateful parts of the service, with proofs of what they keep true over every
call, every run and every interleaving of requests.

| part | files |
|---|---|
| Transactional outbox: claim, handle, mark, retry | `OutboxModel`, `OutboxMemory`, `OutboxProtocol`, `OutboxRuns`, `OutboxStranding`, `OutboxWait`, `OutboxProcessor`, `OutboxLaws` |
| Disclosure-template upsert: sanitise, synchronise columns and blocks, validate | `TemplateModel`, `TemplateSync`, `TemplateSyncFacts`, `TemplateFixpoint`, `TemplateSchema`, `TemplateValidation`, `Sanitize`, `TemplatePipeline`, `TemplateTheorems`, `TemplateAcceptance`, `TemplateExample`, `TemplateStore`, `TemplateLaws`, `TemplateErrors` |
| Versioned catalog of disclosure types | `Catalog`, `CatalogRuns`, `CatalogCases`, `CatalogLaws` |
| Authorization decision and its snapshot cache | `Authorization`, `AuthorizationFacts`, `AuthorizationLaws`, `AccessCache`, `AccessCacheRuns` |
| Refresh-token sessions | `Sessions`, `SessionFacts`, `SessionRuns`, `SessionHistory`, `SessionAccess`, `SessionOwners`, `SessionRaces`, `SessionReuse`, `SessionLaws`, `SessionService` |
| Idempotency-Key protocol | `Idempotency`, `IdempotencyRuns` |
| Latency averages and audit pages | `Metrics`, `Audit` |

`Prelude`, `Runs` and `Text` hold the shared vocabulary: `Runs` defines finite runs of a step relation, and `Text`
defines `TrimSpace`, `ToLower`, `EqualFold`, `Split` and `Join` over ASCII and proves the facts the rest needs of
them. `dafny verify dfyconfig.toml` checks everything.

## How the models are built

Code that updates objects and maps is a class with those fields. Each method's contract equates the new state
with a function of the old one, and the theorems are about these functions. The session repository keeps its two
maps of references to shared objects; its abstract value numbers the objects, so that aliasing is visible in it.

What these functions mean is said a second time without them, in terms of the fields alone: in the `...Laws` modules and in
the contracts of the methods. There one reads which parameter ends in which column, what a logout revokes, which
text of a template wins, what each part of a scope rule grants, and which entries a page shows.

Where requests or workers run side by side there is also a state machine whose steps are the code's critical
sections (one locked section, one SQL statement, one call of an outside service). It uses the same functions as the
class contracts. Any number of workers interleave, and each of them may stop between any two steps. Runs are finite
sequences of enabled steps from any state that meets the invariant; the empty state does. Uninterrupted code is
tied back to the machine: `OutboxProcessor.TickIsRun`, `AccessCacheRuns.ResolveIsRun`,
`IdempotencyRuns.HandleIsRun`, `SessionRaces.OneRefreshUsesUpItsToken`.

Time is an integer number of nanoseconds. Clock readings, generated ids, random draws, handler answers and what
outside services return are parameters or step arguments; generated ids are never repeated.

## Where the code falls short of what one might expect

Each of these comes with a theorem that says exactly when the expected property holds, and with an input or a run on
which it fails.

- Upserting a stored template again adds a second "Format: ..." line to the channels text: the upsert is idempotent
  if and only if Format is blank (`UpsertIsIdempotentIffNoFormat`, `PassesAddLines`, `UpsertIsNotIdempotent`).
- Version numbers repeat if and only if an upsert is made while an older version is shown, and only then is a snapshot
  replaced (`NumbersRepeatIffOverwritten`, `SnapshotsChangeOnlyByOverwrite`, `NumberIsUsedTwice`). Only an activation
  of an unlisted version leaves none active, because the flags are cleared before the version is looked for
  (`ActiveAfterStep`, `UnlistedActivationLeavesNone`). An upsert does not look at the scope, so a type stays visible to
  a company if and only if no other company upserts it (`StaysVisibleIffNotTakenOver`).
- A pair of ids shares its cache key with another pair if and only if one of the ids holds an '@' (`KeyIsOwnIff`,
  `SharedKeyServesTheOther`). Such sharing can only deny (`AllowIsOnOwnSnapshot`).
- The next audit page continues if and only if its first entry is strictly older (`NextPageIsTheRestIffOlder`,
  `EqualTimesLoseAnEntry`).
- A refresh token is single use if and only if no other refresh accepted with it is under way when it is first rotated
  (`SingleUseIff`, `SecondRotationIff`, `DeadTokenMaximum`, `TwoRefreshesOneToken`).
- Revocation bounds refresh tokens (`RevocationBound`) but not access tokens, since binding a company does not look at
  it: a revoked session is issued no more of them if and only if nothing of it is under way and no token of its own can
  bind it (`AccessAfterRevocationIff`, `RevokedSessionKeepsIssuing`, `RevokedBearerIsReached`).
- The crash of a worker, or a mark whose discarded error was a failure, strands an event, and nothing else does; an event
  in processing can leave it if and only if a worker holds it (`StrandedExactlyBy`, `CanLeaveIffHeld`).
- A request that stops after its reservation, or whose completion or removal is lost, leaves its key answering conflict;
  a key in progress can answer otherwise if and only if a request owns it (`SettledInProgressExactlyBy`,
  `CanAnswerIffOwned`). The stored expiry is never read. "At most once" holds; "at least once" does not.
- Request hashes tell requests apart if and only if no id holds a '|' (`HashIsOwnIff`), and keys tell reservations
  apart only up to letter case, padding and the 191st character (`SameRowIff`).
- In memory, a finished outbox row survives inserts if and only if none of them uses its id (`InsertsKeepFinalIffOtherIds`).
- The wait of a due event is bounded by its rank and the events let in ahead of it (`BoundedWait`), and by nothing if
  these are not bounded (`CanWaitForEver`).

## What the theorems assume

- Cache: the time between a base answer and its put is bounded by a parameter; with 0 the two are one step and the
  bound on staleness is the lifetime alone.
- Outbox: one clock that does not go back. A reading may be older than the step that uses it, but a mark's reading is
  not older than its handler's return. The default collation and byte order agree on event ids, which are lower-case
  UUIDs.
- Following the cursor: matching entries strictly increase in time, without which entries are lost.
- Average: mathematical integers; `NoOverflow` gives the range in which 64 bits behave alike.

## Model

| member | source | states |
|---|---|---|
| OutboxMemory.Repository.Insert | internal/platform/outbox/inmemory/repository.go:28-33 | the row under the event's id is pending, carries each of the parameter's fields, and has retry count 0, no error and no processing time, whatever had that id before; every other row stays |
| OutboxMemory.Repository.CollectDue | internal/platform/outbox/inmemory/repository.go:38-43 | the filter loop collects exactly the pending records due at `now` or before, each once, in whatever order the map is walked |
| OutboxMemory.Repository.SortItems | internal/platform/outbox/inmemory/repository.go:44-49 | the same records, sorted by due time and then event id |
| OutboxMemory.Repository.LockPendingBatch | internal/platform/outbox/inmemory/repository.go:35-59 | returns the first `batchSize` due events in claim order and flips exactly those rows to processing |
| OutboxMemory.Repository.MarkProcessed | internal/platform/outbox/inmemory/repository.go:61-69 | sets status and time of that row, keeps its event and error, and leaves every other row; an unknown id changes nothing |
| OutboxMemory.Repository.MarkRetry | internal/platform/outbox/inmemory/repository.go:71-81 | puts the row back to pending with exactly this count, due time and error text, and leaves every other row |
| OutboxMemory.Repository.MarkFailedPermanent | internal/platform/outbox/inmemory/repository.go:83-92 | makes the row failed_permanent with exactly this time and error text, keeps its event, and leaves every other row |
| OutboxModel.RankIsPosition | internal/platform/outbox/inmemory/repository.go:44-49 | the event at place i of the claim order is the one with exactly i of the collected events sorting before it |
| OutboxModel.ListingIsUnique | internal/platform/outbox/inmemory/repository.go:35-59 | two sorted listings of the same rows are equal, so the batch does not depend on map iteration order |
| OutboxModel.ClaimedExactlyTheLeast | internal/platform/outbox/inmemory/repository.go:38-58 | a due event is claimed if and only if fewer than `n` due events sort before it |
| OutboxModel.ClaimBatchSize | internal/platform/outbox/inmemory/repository.go:50-58 | a claim takes min(n, number of due events) events, each once |
| OutboxModel.UnlockedLeastAreClaimed | internal/platform/outbox/mysql/repository.go:53-57 | with rows locked by other transactions, whether these commit or roll back, a due event is claimed if and only if it is not locked and fewer than `n` unlocked due events sort before it |
| OutboxModel.ClaimFlipsOnlyTheBatch | internal/platform/outbox/inmemory/repository.go:50-58 | a row changes if and only if it is in the batch, and then only from pending to processing |
| OutboxLaws.StrLessIsLexicographic | internal/platform/outbox/inmemory/repository.go:44-49 | the order of event ids is the lexicographic one: a proper prefix, or the smaller character at the first difference |
| OutboxLaws.BatchIsInOrder | internal/platform/outbox/inmemory/repository.go:38-58 | a batch is in the order of due times, and of event ids where these are equal; everything in it is a pending row due by now |
| OutboxProtocol.StepKeepsInv | internal/platform/outbox/processor.go:41-66 | with any number of workers, every claim (read at an earlier instant, skipping locked rows), handler call, mark, lost mark, insert, clock step and crash keeps the invariant: no event in two places of the workers' batches, a held event is in processing with a log that matches its worker, and every event's history is in order |
| OutboxRuns.RunEvolves | internal/platform/outbox/inmemory/repository.go:61-92 | over every run an inserted event is never lost or renamed, its retry count never falls, its call log only grows, and processed and failed_permanent rows never change again |
| OutboxRuns.InsertsKeepFinalIffOtherIds | internal/platform/outbox/inmemory/repository.go:28-33 | where finality fails: through any number of inserts a final row stays as it is if and only if none of them uses its id, and otherwise ends pending with no retries |
| OutboxRuns.MarkHitsProcessing | internal/platform/outbox/processor.go:47-64 | every mark finds its event in processing, unchanged since the claim, and held by no other worker |
| OutboxRuns.ClaimTakesUnheld | internal/platform/outbox/mysql/repository.go:53-57 | a claim never takes an event that some worker still holds |
| OutboxRuns.HandledOncePerRetryCount | internal/platform/outbox/processor.go:53-63 | a handler call is for a retry count that no earlier call of that event was made for, is not early, and is at most the tenth |
| OutboxStranding.CrashStrands | internal/platform/outbox/processor.go:47-64 | a crash leaves every event its worker still holds in processing and in no batch |
| OutboxStranding.MarkLostStrands | internal/platform/outbox/processor.go:50-63 | so does a mark whose discarded error was a failure, for its event, while the worker goes on with the rest |
| OutboxStranding.StrandedExactlyBy | internal/platform/outbox/processor.go:47-64 | a step strands a held event if and only if it is the crash of its worker or the loss of its mark |
| OutboxStranding.StrandedForever | internal/platform/outbox/inmemory/repository.go:35-43 | a stranded event stays in processing in every continuation and is never handled again |
| OutboxStranding.CanLeaveIffHeld | internal/platform/outbox/inmemory/repository.go:35-43 | an event in processing leaves it in some continuation if and only if some worker holds it |
| OutboxRuns.BackoffTable | internal/platform/outbox/processor.go:68-76 | the delays are 1, 2, 4, 8, 16 and from then on 32 seconds |
| OutboxRuns.DelaysSum | internal/platform/outbox/processor.go:78-86 | delays within their ranges sum to between the backoff sum and five quarters of it |
| OutboxRuns.FailedPermanentMeansTenAttempts | internal/platform/outbox/processor.go:46-64 | a failed_permanent event was handled exactly ten times, always failing; its nine delays sum to 159 to 198.75 seconds and the last call came at least their sum after the first |
| OutboxRuns.RetryCountCountsFailures | internal/platform/outbox/processor.go:53-63 | while pending the retry count is the number of calls, all failed; a finished event with a handler is failed_permanent if and only if all its calls failed |
| OutboxLaws.InsertedStays | internal/platform/outbox/inmemory/repository.go:28-33 | over every run the row of an inserted event keeps the id, event type, aggregate and payload it was inserted with |
| OutboxLaws.HandledAsInserted | internal/platform/outbox/processor.go:47-53 | every handler call for an inserted event gets the event type, aggregate and payload it was inserted with, and is made only if that type has a handler |
| OutboxLaws.ProcessedByItsHandler | internal/platform/outbox/processor.go:47-63 | an inserted event whose type has a handler is processed only after a call that succeeded, all calls before it having failed |
| OutboxLaws.MarkStepWrites | internal/platform/outbox/processor.go:47-64 | a worker's mark writes its own event's row only: the error text of the answer, the new count and due time or the processing time, and the status |
| OutboxWait.RetriesReenterLater | internal/platform/outbox/processor.go:59-60 | a retried event is due at least a second after its mark's clock reading, so it overtakes nothing that was due by that reading |
| OutboxWait.ClaimLowersRank | internal/platform/outbox/mysql/repository.go:53-57 | a claim read late enough and not finding the event locked takes it if its rank is below the batch size, and otherwise lowers its rank by exactly the batch size; other claims never raise it |
| OutboxWait.BoundedWait | internal/platform/outbox/processor.go:41-45 | in every run a waiting event is taken at the latest by the claim with which the total size of the claims able to take it exceeds its rank plus the number of events let in ahead of it; by exactly that claim if no claim is read early or finds locks |
| OutboxWait.BoundedWaitInTicks | internal/platform/outbox/processor.go:41-45 | if nobody cuts in, such claims of n take it with claim number floor(rank / n) + 1 |
| OutboxWait.CanWaitForEver | internal/platform/outbox/inmemory/repository.go:44-58 | without a bound on the events let in ahead there is none on the wait: for every batch size and number m some run makes m claims, all able to take the event, and none does |
| OutboxProcessor.Processor.constructor | internal/platform/outbox/processor.go:27-32 | a batch size that is not positive becomes 50; no handlers yet |
| OutboxProcessor.Processor.Register | internal/platform/outbox/processor.go:34-39 | an empty type or a missing handler is ignored; otherwise the last handler registered wins |
| OutboxProcessor.Processor.Tick | internal/platform/outbox/processor.go:41-66 | one tick turns the rows into the claimed rows with every event of the batch marked in order by its own handler's answer |
| OutboxProcessor.Processor.MarkOne | internal/platform/outbox/processor.go:47-64 | no handler or success marks processed, the tenth failure marks failed_permanent, another failure schedules a retry |
| OutboxProcessor.ComputeBackoff | internal/platform/outbox/processor.go:68-76 | the clamped shift computes the delay table and stays between 1 and 32 seconds |
| OutboxProcessor.MarkAllPointwise | internal/platform/outbox/processor.go:47-64 | in a batch with distinct ids each row is decided by its own handler alone, and rows outside the batch are untouched |
| OutboxLaws.TickDispatches | internal/platform/outbox/processor.go:41-66 | in a tick each claimed event goes to the handler of its own event type: none or success processes it, a failure stores its text and puts it off, and the tenth is final |
| OutboxProcessor.TickIsRun | internal/platform/outbox/processor.go:41-66 | a whole tick of an idle worker is a run of the multi-worker protocol with the same rows, so the run theorems hold of ticks |
| TemplateSync.ApplyTemplateFlatBlockSync | internal/disclosure/app/template_flat_block_sync.go:15-25 | updates the request in place to the specified pass: columns and blocks change, nothing else, and the ids drawn are counted (which text wins: see AcceptedTexts) |
| TemplateSync.EnsureMandatoryBlocksFromFlatWhenBlocksEmpty | internal/disclosure/app/template_flat_block_sync.go:55-64 | makes the six blocks if and only if there are no blocks and some column is not blank |
| TemplateSync.HasDuplicateBlockKeys | internal/disclosure/app/template_flat_block_sync.go:66-79 | true if and only if two blocks share a non-blank normalised key |
| TemplateSync.RebuildMandatoryFirstThenExtras | internal/disclosure/app/template_flat_block_sync.go:81-123 | leaves clashing blocks alone, and otherwise rebuilds mandatory blocks first and extras after (what each keeps: see AcceptedTexts and AcceptedKeepsBlock) |
| TemplateSync.MirrorMandatoryBlockDescriptionsToFlatFields | internal/disclosure/app/template_flat_block_sync.go:207-236 | copies each mandatory block's trimmed description to its column and touches nothing else |
| TemplateSyncFacts.ExtrasKeepOrder | internal/disclosure/app/template_flat_block_sync.go:87-98 | the extras are exactly the blocks with a non-blank, non-mandatory key, in their original order |
| TemplateSyncFacts.SyncShapes | internal/disclosure/app/template_flat_block_sync.go:15-123 | after a pass without clashes: six mandatory blocks in the fixed order, then the extras, numbered 1 to n, ids present, keys distinct, columns mirroring the blocks |
| TemplateSyncFacts.SyncKeepsExtras | internal/disclosure/app/template_flat_block_sync.go:114-122 | the i-th extra comes out at place 7 + i with its number and, if it had none, an id; everything else of it is as sent |
| TemplateSyncFacts.MirrorField | internal/disclosure/app/template_flat_block_sync.go:207-236 | each column ends as the last matching block's trimmed description, or unchanged when there is none; Format is never written |
| TemplateFixpoint.SettledSync | internal/disclosure/app/template_flat_block_sync.go:15-25 | a pass over a well-shaped request whose columns and blocks agree changes nothing and draws no id |
| TemplateFixpoint.PassAddsOneLine | internal/disclosure/app/template_flat_block_sync.go:162-171 | with a Format, one pass leaves the channels column as the trimmed text plus one "Format: f" line |
| TemplateFixpoint.PassesAddLines | internal/disclosure/app/template_flat_block_sync.go:162-171 | with a Format and no clashes, k passes leave the trimmed original followed by exactly k such lines |
| TemplateSchema.ValidateBlockTypeSchema | internal/disclosure/app/template_block_schema.go:48-74 | writes exactly the errors the block type calls for, and touches no other entry of the error map |
| TemplateSchema.SchemaSoundAndComplete | internal/disclosure/app/template_block_schema.go:48-209 | no schema error if and only if the block type is allowed and its config and validation meet the declarative schema |
| TemplateValidation.ValidateTemplateMatrix | internal/disclosure/app/template_validation.go:85-141 | returns exactly the specified error map, normalising aliases and, when the top-level checks pass, the blocks in place; then the indices with a key-uniqueness error are exactly those sharing their key with another block |
| TemplateValidation.ValidateTemplateBlocks | internal/disclosure/app/template_validation.go:143-194 | normalises every block and adds exactly the errors of the matrix |
| TemplateValidation.TopFaultExact | internal/disclosure/app/template_validation.go:88-133 | no top-level error if and only if the triple is in the category table and a deadline rule is given |
| TemplateLaws.EightTriples | internal/disclosure/app/template_validation.go:101-132 | the category table has exactly these eight triples |
| TemplateLaws.AliasesLookedUp | internal/disclosure/app/template_validation.go:63-72 | a spelling of the table stands for its entry whatever its case and outer blanks, and any other for itself in lower case |
| TemplateLaws.CategorySpellings | internal/disclosure/app/template_validation.go:28-38 | the nine spellings of the three categories |
| TemplateLaws.PeriodicitySpellings | internal/disclosure/app/template_validation.go:39-55 | the fifteen spellings of the five periodicities |
| TemplateErrors.HeaderErrorsFit | internal/disclosure/app/template_validation.go:88-133 | read off the table: periodicity or strategy is in error if and only if no entry of the category has its value; category and deadline rule if missing, category if unknown |
| TemplateValidation.MatrixSoundAndComplete | internal/disclosure/app/template_validation.go:143-209 | no block error if and only if keys are present and unique, orders positive and unique, titles and schemas in order and the six keys there |
| TemplateValidation.KeyErrorsAreTheClashes | internal/disclosure/app/template_validation.go:163-172 | the same said of the specified errors |
| TemplateErrors.BlockErrorsFit | internal/disclosure/app/template_block_schema.go:48-209 | every error of a block is of the kind its part can have |
| TemplateErrors.GeneralErrorsFit | internal/disclosure/app/template_validation.go:143-194 | key, title and type are reported missing, and the number not positive or not unique, exactly when they are |
| TemplateErrors.LimitsAreWholeNumbers | internal/disclosure/app/template_block_schema.go:211-225 | limits accept exactly the whole numbers from one up, and lower row limits those from zero up, given as a number or as a text that reads as one |
| TemplateErrors.ItemsNeedAName | internal/disclosure/app/template_block_schema.go:132-181 | a column needs a key, id or field, and an option a label, title or id, that is a text and not blank; an option may also be such a text |
| TemplateErrors.TypesOfEmptyBlocks | internal/disclosure/app/template_block_schema.go:38-74 | the block types, aliases included, that ask nothing of an empty config |
| Sanitize.SanitizeStringList | internal/disclosure/app/service.go:406-424 | computes the specified list |
| Sanitize.StringsAreClean | internal/disclosure/app/service.go:406-424 | the result is trimmed, free of blanks and repetitions, and holds exactly the trimmed non-blank items |
| Sanitize.CleanStringsStay | internal/disclosure/app/service.go:406-424 | a clean list is left as it is |
| Sanitize.StringsKeepOrder | internal/disclosure/app/service.go:406-424 | the results stand in the order in which their texts come first |
| Sanitize.SanitizeLegalBases | internal/disclosure/app/service.go:426-448 | keeps exactly the items with a title or a summary, in their order, with each of the seven fields trimmed |
| Sanitize.BasesAreKept | internal/disclosure/app/service.go:426-448 | the same of the specified list |
| Sanitize.LegalBasesTwice | internal/disclosure/app/service.go:426-448 | sanitising twice is sanitising once |
| Sanitize.SanitizeChecklist | internal/disclosure/app/service.go:450-473 | keeps exactly the items with a title, in their order, with each field trimmed and a blank status turned into "Pending" |
| Sanitize.ItemsAreKept | internal/disclosure/app/service.go:450-473 | the same of the specified list |
| Sanitize.ChecklistTwice | internal/disclosure/app/service.go:450-473 | sanitising twice is sanitising once |
| TemplatePipeline.UpsertTypeVersion | internal/disclosure/app/service.go:286-315 | each refusal occurs exactly in its case, and the request is passed on, normalised in place, if and only if its normal form is acceptable |
| TemplatePipeline.ValidationExact | internal/disclosure/app/template_validation.go:85-141 | the error map is empty if and only if table, deadline and matrix are in order |
| TemplateTheorems.ClashingKeysAreRejected | internal/disclosure/app/template_flat_block_sync.go:81-84 | a request with clashing keys is always refused, although the rebuild lets it pass |
| TemplateTheorems.NoMatrixIsRejected | internal/disclosure/app/template_validation.go:95-97 | the path without a matrix never gets through, for want of a deadline rule |
| TemplateTheorems.AcceptedIsShaped | internal/disclosure/app/service.go:286-315 | whatever is accepted has the six mandatory blocks in order, then the extras, numbered 1 to n with distinct keys, and columns equal to the blocks |
| TemplateTheorems.AcceptedKeepsExtras | internal/disclosure/app/service.go:286-315 | each accepted extra is the one sent, in normal form, at its place in the original order |
| TemplateLaws.AcceptedTexts | internal/disclosure/app/template_flat_block_sync.go:135-171 | in every accepted request a column that was sent not blank is stored trimmed, in the column and in its mandatory block alike, the channels one with its Format line; a blank one gets the trimmed text of the block sent under that key, or nothing |
| TemplateLaws.AcceptedKeepsBlock | internal/disclosure/app/template_flat_block_sync.go:81-123 | every block sent under a key is stored, a mandatory one in the place of its key and an extra one behind with its own text: same key, type and title in normal form, same flags and maps, and the id it had |
| TemplateLaws.AcceptedMakesMissing | internal/disclosure/app/template_flat_block_sync.go:173-205 | a mandatory block nobody sent is stored with the title, type, limits and flags of the table |
| TemplateLaws.AnyFlatSetIff | internal/disclosure/app/template_flat_block_sync.go:27-53 | blocks are made out of nothing if and only if some mandatory key has a text that is not blank among the columns |
| TemplateLaws.AcceptedHeader | internal/disclosure/app/service.go:286-315 | ids, name and category of an accepted request are stored trimmed, category, periodicity and strategy in canonical form and as the category allows, the columns passed on as they are |
| TemplateTheorems.UpsertIsIdempotentIffNoFormat | internal/disclosure/app/service.go:286-315 | upserting the stored form again changes nothing, draws no id and is accepted if and only if Format is blank |
| TemplateExample.UpsertIsNotIdempotent | internal/disclosure/app/template_flat_block_sync.go:162-171 | a request with a Format that is accepted, and whose stored form changes when it is upserted again |
| TemplateAcceptance.AcceptedIffInputOK | internal/disclosure/app/service.go:286-315 | a request is accepted if and only if, as it was sent, it names ids and name, a table triple, no clashing keys, orderly keyed blocks and a deadline in either place |
| TemplateStore.Service.UpsertTypeVersion | internal/disclosure/app/service.go:286-315 | end to end: the catalog gains exactly the normalised request when it is acceptable as sent, and is untouched otherwise |
| TemplateStore.OutcomesAreWellFormed | internal/disclosure/app/service.go:310-314 | everything the pipeline passes on is acceptable, shaped and mirrored |
| TemplateStore.EverythingStoredIsWellFormed | internal/disclosure/infra/inmemory/repository.go:178-309 | in every reachable catalog, everything stored or shown is a seed entry or a well-formed outcome of the pipeline |
| Catalog.Repository.constructor | internal/disclosure/infra/inmemory/repository.go:25-51 | fills the four maps from the seed entries, version 1 active |
| Catalog.Repository.UpsertTypeVersion | internal/disclosure/infra/inmemory/repository.go:178-246 | the four maps become the specified new state: next number, snapshot, list entry, scope; other types untouched |
| Catalog.Repository.ActivateTypeVersion | internal/disclosure/infra/inmemory/repository.go:266-309 | the four maps become the specified state, with the error cases |
| Catalog.Repository.GetTypeDetail | internal/disclosure/infra/inmemory/repository.go:136-153 | gives the entry shown, to companies that see it |
| Catalog.Repository.GetTypeVersionDetail | internal/disclosure/infra/inmemory/repository.go:155-176 | gives the snapshot of that version, or the not-found cases |
| Catalog.Repository.ListTypeVersions | internal/disclosure/infra/inmemory/repository.go:248-264 | the same entries, each once, highest version first |
| CatalogRuns.StepKeepsInv | internal/disclosure/infra/inmemory/repository.go:178-309 | every upsert and activation keeps the agreement of the maps |
| CatalogRuns.SeededInv | internal/disclosure/infra/inmemory/repository.go:34-49 | the seeded maps agree |
| CatalogLaws.SeedsAreForAll | internal/disclosure/infra/inmemory/repository.go:34-49 | every seeded type is visible to every company, at version 1 with one active entry and one snapshot, and shows the last seed of its id |
| CatalogRuns.RunKeepsInv | internal/disclosure/infra/inmemory/repository.go:178-309 | in every reachable state the entry shown is its version's snapshot, snapshots carry their key, numbers are 1 to n, every listed version has a snapshot, at most one is active and an active one is the one shown |
| CatalogLaws.UpsertWrites | internal/disclosure/infra/inmemory/repository.go:178-246 | an upsert shows and keeps the request under the number after the one shown, switches every earlier entry off, lists one active entry with trimmed note, author and time, gives the type to the company, and leaves other snapshots and types alone |
| CatalogLaws.ActivateWrites | internal/disclosure/infra/inmemory/repository.go:266-309 | refused without a change if and only if the company does not see the type; on an unlisted version every entry goes off; else exactly the last entry of that number is on, with author and time, the type shows its snapshot, and nothing else changes |
| CatalogRuns.ActivationShowsSnapshot | internal/disclosure/infra/inmemory/repository.go:276-301 | a successful activation shows exactly the stored snapshot, so the fallback branches never run |
| CatalogRuns.ActiveAfterStep | internal/disclosure/infra/inmemory/repository.go:224-237 | after a step that touches a type some version is active if and only if the step was an upsert or activated a listed version |
| CatalogRuns.SnapshotsChangeOnlyByOverwrite | internal/disclosure/infra/inmemory/repository.go:182-186 | snapshot v changes only by an upsert made while version v-1 is shown |
| CatalogRuns.UpsertReusesIffBelowHighest | internal/disclosure/infra/inmemory/repository.go:182-186 | an upsert reuses a number if and only if the version shown is below the highest |
| CatalogRuns.PoliteHistoryIsLinear | internal/disclosure/infra/inmemory/repository.go:178-309 | if no activation goes below the highest version or names an unlisted one, versions are 1 to n once each, the newest is active and snapshots never change |
| CatalogRuns.SeededIsClean | internal/disclosure/infra/inmemory/repository.go:34-49 | the seeded catalog is such a history's start |
| CatalogRuns.OverwritesAreCounted | internal/disclosure/infra/inmemory/repository.go:217-237 | the version list has one entry per snapshot and one more per overwriting upsert |
| CatalogRuns.NumbersRepeatIffOverwritten | internal/disclosure/infra/inmemory/repository.go:217-237 | version numbers stay distinct if and only if no upsert was made while an older version was shown |
| CatalogCases.NumberIsUsedTwice | internal/disclosure/infra/inmemory/repository.go:182-186 | a history in which that happens: after two upserts and a return to version 1, a third upsert replaces what version 2 held |
| CatalogCases.UnlistedActivationLeavesNone | internal/disclosure/infra/inmemory/repository.go:276-288 | after one upsert, activating a version that is not listed leaves none active |
| CatalogCases.VisibleIffLastUpserter | internal/disclosure/infra/inmemory/repository.go:222 | after any history a company sees a type if and only if the last company to upsert it is that company or "global", whoever had it before |
| CatalogCases.StaysVisibleIffNotTakenOver | internal/disclosure/infra/inmemory/repository.go:222 | a type stays visible to a company if and only if no other company upserts it, since an upsert does not look at the scope |
| Authorization.ComputeSplitOrStar | internal/authorization/infra/inmemory/checker.go:157-171 | computes the trimmed, lower-case, non-blank parts of a rule, and "*" for a blank one |
| Authorization.EvalScope | internal/authorization/infra/inmemory/checker.go:85-123 | gives the scope reasons, and allows if and only if access is company-wide, the rule has no part, or some part grants access to this resource: anything, assigned, owned, of the unit, or of the department |
| Authorization.Check | internal/authorization/infra/inmemory/checker.go:15-83 | computes the decision in the order of the checks |
| Authorization.AuthorizeBatch | internal/authorization/app/service.go:41-62 | succeeds if and only if every lookup does, and then each result is what Authorize gives for that check; a failure is one Authorize gives for some check, missing ids and a failed resolve by name |
| AuthorizationFacts.SplitInvertsRule | internal/authorization/infra/inmemory/checker.go:157-171 | splitting inverts joining a non-empty list of trimmed, lower-case, non-blank parts without bars |
| AuthorizationFacts.WorkflowRuleIsDisjunction | internal/authorization/infra/inmemory/checker.go:125-139 | a joined workflow rule accepts if and only if one of its parts does |
| AuthorizationFacts.ActorRuleIsDisjunction | internal/authorization/infra/inmemory/checker.go:141-155 | a joined eligible-actor rule accepts if and only if one of its parts does |
| AuthorizationFacts.ScopeRuleConcatenates | internal/authorization/infra/inmemory/checker.go:85-123 | without company-wide access a joined scope rule gives its parts' reasons in order, and allows if and only if one of them does |
| AuthorizationLaws.ScopeAllowsIff | internal/authorization/infra/inmemory/checker.go:85-123 | a rule of any parts, whatever its case and outer blanks, allows if and only if access is company-wide or one of its parts grants it |
| AuthorizationLaws.OwnerOnly | internal/authorization/infra/inmemory/checker.go:100-103 | without company-wide access `owner_only` allows if and only if the resource names an owner that is the member up to case |
| AuthorizationLaws.AssignedOnly | internal/authorization/infra/inmemory/checker.go:96-99 | `assigned_only` allows if and only if an assignment names this very type and id |
| AuthorizationLaws.UnitOrDepartment | internal/authorization/infra/inmemory/checker.go:104-115 | a unit part allows if and only if the resource's unit is among the member's units, or subtree units, up to case, or its department among the departments |
| AuthorizationLaws.OtherPartsGrantNothing | internal/authorization/infra/inmemory/checker.go:116-120 | any other part, `company_wide` included, never allows |
| AuthorizationFacts.DecisionIsMonotone | internal/authorization/infra/inmemory/checker.go:15-83 | more permissions, scope, positions or responsibilities for the same member never turn an allow into a deny |
| AuthorizationFacts.AllowIsJustified | internal/authorization/infra/inmemory/checker.go:15-83 | every allow names its permission and a scope reason, is for the snapshot's own member and company, and for approvals needs the approver responsibility; every deny has a code |
| AuthorizationLaws.DecisionExact | internal/authorization/infra/inmemory/checker.go:15-83 | the decision allows if and only if own ids, permission, scope, workflow state, actor and approval all hold, said of request and access alone; otherwise it names the first that does not |
| AuthorizationLaws.WorkflowExact | internal/authorization/infra/inmemory/checker.go:125-139 | the workflow check passes if and only if the rule has no part, a star, or the state of the resource, when it has one |
| AuthorizationLaws.ActorExact | internal/authorization/infra/inmemory/checker.go:141-155 | the actor check passes if and only if the rule has no part, a star, or a position or responsibility of the member |
| AuthorizationLaws.ApprovalExact | internal/authorization/infra/inmemory/checker.go:61 | an action is an approval if and only if its lower-case name contains "approve" |
| AuthorizationLaws.ReasonsAreTrue | internal/authorization/infra/inmemory/checker.go:85-123 | every scope reason given is true: it names the assignment, owner, unit or department that is really there |
| AccessCache.InMemoryStore.constructor | internal/authorization/infra/projection/store.go:29-34 | starts empty; a lifetime that is not positive becomes five minutes |
| AccessCache.InMemoryStore.Get | internal/authorization/infra/projection/store.go:36-50 | hits if and only if there is an entry not past its expiry; a stale entry is removed, all others stay |
| AccessCache.InMemoryStore.Put | internal/authorization/infra/projection/store.go:52-59 | replaces the entry of the snapshot's own key, expiring a lifetime from now; nothing is put for no snapshot |
| AccessCache.CachedResolver.Resolve | internal/authorization/infra/projection/cached_resolver.go:19-29 | answers from the cache or else from the base, and then refills the cache with the base's answer |
| AccessCache.KeyIsOwnIff | internal/authorization/infra/projection/store.go:61 | a pair has its cache key to itself if and only if neither of its ids holds an '@' |
| AccessCacheRuns.EverythingServedIsTimely | internal/authorization/infra/projection/store.go:36-59 | in every interleaving of read, delete, resolve and put sections, whatever is served is a base answer for the same key given at most the lifetime, plus the time between resolve and put, ago |
| AccessCacheRuns.CacheIsInvisible | internal/authorization/infra/projection/cached_resolver.go:19-29 | for a pair with its own key and a base steady that long, cached and uncached Authorize agree |
| AccessCacheRuns.AllowIsOnOwnSnapshot | internal/authorization/infra/inmemory/checker.go:16-19 | even when pairs share a key, an allow was given on the subject's own snapshot, which the base gave within the bound; another pair's snapshot is always denied |
| AccessCacheRuns.SharedKeyServesTheOther | internal/authorization/infra/projection/store.go:61 | the sharing is real: a run in which ("a@b", "c") is served the snapshot of ("a", "b@c") |
| AccessCacheRuns.ResolveIsRun | internal/authorization/infra/projection/cached_resolver.go:19-29 | an uninterrupted resolve is one of the runs, with the same answer and the same entries |
| Sessions.SessionRepository.Create | internal/iam/infra/inmemory/sessions.go:22-32 | adds one object under its token and its id, replacing what was there; asks nothing of either |
| Sessions.SessionRepository.FindByRefreshToken | internal/iam/infra/inmemory/sessions.go:34-43 | gives a copy of the object the token leads to, or session expired |
| Sessions.SessionRepository.RevokeByRefreshToken | internal/iam/infra/inmemory/sessions.go:45-54 | revokes the one object the token leads to, seen through both indexes; no other object, no other field and neither index changes |
| Sessions.SessionRepository.UpdateContext | internal/iam/infra/inmemory/sessions.go:56-66 | changes membership and company of the one object the id leads to |
| Sessions.SessionRepository.RotateRefreshToken | internal/iam/infra/inmemory/sessions.go:68-79 | drops the object's stored token from the index, stores the new one and indexes it |
| Sessions.SessionRepository.ListByUser | internal/iam/infra/inmemory/sessions.go:81-92 | lists exactly the user's indexed sessions, each once, in some order |
| Sessions.SessionRepository.RevokeBySessionID | internal/iam/infra/inmemory/sessions.go:94-103 | revokes the object if it belongs to the user, and otherwise reports not found; nothing else changes |
| Sessions.SessionRepository.RevokeAllByUser | internal/iam/infra/inmemory/sessions.go:105-114 | revokes exactly the user's indexed sessions; nothing else changes |
| SessionFacts.ExactlyOneToken | internal/iam/infra/inmemory/sessions.go:12-16 | when the indexes agree, a token leads to a session if and only if it is the one that session stores |
| SessionFacts.CreateAgreesIff | internal/iam/infra/inmemory/sessions.go:22-32 | creating keeps the indexes in bijection if and only if id and token are both new or belong to one session |
| SessionFacts.RotateAgreesIff | internal/iam/infra/inmemory/sessions.go:68-79 | rotating keeps them in bijection if and only if the new token is new or already the session's own |
| SessionRuns.StepKeepsIndex | internal/iam/app/service.go:115-165 | with generated ids never repeated, every step of interleaved logins, refreshes, bindings, revocations and crashes keeps the bijection |
| SessionHistory.RunEvolves | internal/iam/infra/inmemory/sessions.go:22-114 | over every run sessions stay with their ids and owners, revocation and access claims are permanent, and a token that stopped working stays dead |
| SessionHistory.TokenWorksIffStoredLast | internal/iam/infra/inmemory/sessions.go:68-79 | in every reachable state a token leads to a session if and only if it is the one stored last for some session; there are as many tokens as sessions |
| SessionHistory.ReplacedTokenIsDead | internal/iam/infra/inmemory/sessions.go:75-77 | a token that worked and was replaced is never accepted again, in any continuation |
| SessionHistory.RevocationBound | internal/iam/app/service.go:216-223 | a revoked session stays revoked and gets at most as many further refresh tokens as refreshes of it were already under way (access tokens: see SessionAccess) |
| SessionLaws.LogoutEndsTheSession | internal/iam/app/service.go:245-253 | after a logout with a token that leads to a session, no token of that session is accepted, then or in any continuation, and every other session's tokens are accepted as before |
| SessionLaws.RevokeEndsTheSession | internal/iam/infra/inmemory/sessions.go:94-103 | the same for a revocation by id of the user's own session; any other changes nothing |
| SessionLaws.RevokeAllEndsExactlyTheUsers | internal/iam/infra/inmemory/sessions.go:105-114 | revoking all revokes exactly the user's sessions, for good |
| SessionLaws.RevokedIsRefused | internal/iam/app/service.go:216-223 | no token of a revoked session is accepted, in any continuation |
| SessionLaws.BindMovesTheSession | internal/iam/app/service.go:451-473 | binding puts exactly the bearer's own session into the membership's company |
| SessionAccess.AccessBound | internal/iam/app/service.go:451-473 | every access token issued for a session after its revocation comes from a refresh or binding under way then, or from a binding made with one of the session's own tokens |
| SessionAccess.AccessAfterRevocationIff | internal/iam/app/service.go:451-473 | a revoked session is issued no further access token in any continuation if and only if no refresh or binding of it is under way and none of its own tokens can bind it |
| SessionAccess.RevokedSessionKeepsIssuing | internal/iam/app/service.go:465-472 | a token that can bind a revoked session gets it any number of access tokens, since binding does not look at revocation |
| SessionAccess.RevokedBearerIsReached | internal/iam/infra/inmemory/sessions.go:105-114 | such a state is reached from the empty one by a login and the revocation of all the user's sessions |
| SessionOwners.TokensMatchTheirSessions | internal/iam/app/service.go:451-473 | in every run an access token names its session's user, and a membership that user was shown to have; so does every session's context |
| SessionRaces.TwoRefreshesOneToken | internal/iam/app/service.go:212-243 | from any accepting state two overlapping refreshes with one token both succeed, and the first one's new token ends dead |
| SessionRaces.OneRefreshUsesUpItsToken | internal/iam/app/service.go:212-243 | an uninterrupted refresh kills its token, leaves the new one accepted, adds one rotation for the token, and leaves other refreshes under way as they are |
| SessionReuse.DeadTokenBound | internal/iam/app/service.go:216-236 | a replaced token gets, over any run, at most as many further rotations as refreshes were accepted with it before; whoever rotates with it later held it already |
| SessionReuse.DeadTokenMaximum | internal/iam/app/service.go:216-236 | and that many it can get: n further rotations are possible if and only if n refreshes accepted with it are under way |
| SessionReuse.SingleUseIff | internal/iam/app/service.go:212-243 | a refresh token is single use if and only if at its first rotation no other refresh accepted with it is under way |
| SessionReuse.SecondRotationIff | internal/iam/app/service.go:212-243 | along any run after a token's first rotation it gets another one if and only if some refresh that had found it by then, and had not rotated, rotates |
| SessionReuse.RefreshAloneIsLastIff | internal/iam/app/service.go:212-243 | an uninterrupted refresh is the last with its token, in every continuation, if and only if no other one accepted with it was under way |
| SessionReuse.RunKeepsFullInv | internal/iam/app/service.go:212-243 | in every run a refresh under way was started with a token that leads, if anywhere, to its session, and only dead tokens have been rotated |
| SessionService.TokenManager.IssueAccessToken | internal/iam/infra/token/opaque/manager.go:29-35 | adds the claims under a generated token |
| SessionService.TokenManager.IssuePreCompanyToken | internal/iam/infra/token/opaque/manager.go:37-43 | adds user and session under a generated token |
| SessionService.TokenManager.InspectAccessToken | internal/iam/infra/token/opaque/manager.go:49-58 | gives the claims kept for the token, or nothing |
| SessionService.Service.Login | internal/iam/app/service.go:105-165 | no active membership changes nothing; one binds the session at once with an access token; several give an unbound session and a pre-company token; the session has the generated id and token, the user, and the client's address |
| SessionService.Service.Refresh | internal/iam/app/service.go:212-243 | succeeds if and only if the token is accepted, and then issues and rotates; otherwise nothing changes, with each refusal in its case |
| SessionService.Service.Logout | internal/iam/app/service.go:245-253 | revokes the session of a known token and changes nothing else; a blank or unknown token changes nothing |
| SessionService.Service.BindCompany | internal/iam/app/service.go:451-473 | succeeds if and only if ids, company, membership and session are there, and then updates context and issues a token; otherwise nothing changes |
| Idempotency.Store.TryReserve | internal/platform/idempotency/mysql/store.go:24-53 | reserves if and only if scope and key are not blank and the row is free; otherwise the table is unchanged and the row decides the result |
| Idempotency.Store.LoadAfterConflict | internal/platform/idempotency/mysql/store.go:55-98 | replays if and only if the row is completed with the same non-null hash and a stored response; in progress, unknown, another or a null hash is a conflict |
| Idempotency.Store.Complete | internal/platform/idempotency/mysql/store.go:100-117 | completes exactly the in-progress row of that id, and fails if and only if there is none |
| Idempotency.Store.Abandon | internal/platform/idempotency/mysql/store.go:119-125 | removes exactly the row of that id; an empty id does nothing |
| Idempotency.Handler.Handle | internal/disclosure/transport/http/handler.go:103-191 | the service is called if and only if there is no key or the key got a reservation; answer and table follow, for success, failure, replay and conflict |
| Idempotency.HashIsOwnIff | internal/disclosure/transport/http/handler.go:411-414 | a request's hash text is its own, within its operation, if and only if none of its ids holds a bar |
| Idempotency.OperationsAreApart | internal/disclosure/transport/http/handler.go:103-191 | a submission and a confirmation never share a row or a hash text, whatever their keys and ids |
| Idempotency.SameRowIff | migrations/0001_init_core.up.sql:278-292 | two keys share a row if and only if, outer blanks and letter case aside, they agree in each of the first 191 places, a shorter key counting as padded with blanks |
| IdempotencyRuns.StepKeepsInv | internal/platform/idempotency/mysql/store.go:24-125 | every step of interleaved requests keeps the invariant: an owner's row is there and in progress, one owner per row, one success per key, completed rows hold that success |
| IdempotencyRuns.AtMostOneSuccess | internal/disclosure/transport/http/handler.go:103-191 | in every interleaving, crashes and lost updates included, at most one service call succeeds per key, and a completed row holds its body and hash |
| IdempotencyRuns.SettledForever | internal/platform/idempotency/mysql/store.go:24-125 | once no request can still finish a row, it never changes, its key causes no further service call, and every later answer is read from it |
| IdempotencyRuns.CompletedReplays | internal/platform/idempotency/mysql/store.go:71-90 | after completion a later request with the same hash replays status 200 and the stored body, any other gets a conflict, and nothing is executed |
| IdempotencyRuns.SettledInProgressExactlyBy | internal/disclosure/transport/http/handler.go:130-140 | a step settles an owned key in progress if and only if its owner stops or loses its completion or removal, whose errors are discarded |
| IdempotencyRuns.OrphanConflicts | internal/platform/idempotency/mysql/store.go:91-93 | a key settled in progress answers conflict in every continuation: the expiry is never read |
| IdempotencyRuns.CanAnswerIffOwned | internal/platform/idempotency/mysql/store.go:91-93 | a key in progress is answered otherwise than with a conflict in some continuation if and only if some request owns it |
| IdempotencyRuns.InFlightConflicts | internal/platform/idempotency/mysql/store.go:91-93 | a request that finds its key in progress gets a conflict and executes nothing |
| IdempotencyRuns.EveryoneGetsOneResult | internal/disclosure/transport/http/handler.go:103-191 | all successful answers for a key, first or replayed, carry the one result of its one successful call, made with the same hash |
| IdempotencyRuns.HandleIsRun | internal/disclosure/transport/http/handler.go:103-191 | an uninterrupted request is one of the runs, with the rows, answer and call of the handler's contract |
| Metrics.CMSMetrics.Record | internal/platformcms/transport/http/metrics.go:26-44 | updates that route's counters, average and last call as specified, the latency truncated to milliseconds, and no other route |
| Metrics.CMSMetrics.Snapshot | internal/platformcms/transport/http/metrics.go:46-54 | gives a copy of every route's figures |
| Metrics.AverageDrift | internal/platformcms/transport/http/metrics.go:37-41 | after n latencies with sum S, n times the average lies between S - n(n-1)/2 and S |
| Metrics.DriftIsTight | internal/platformcms/transport/http/metrics.go:37-41 | the lower bound is met by 0, 1, 2, ..., n-1, whose running average is 0 |
| Metrics.AverageWithinRange | internal/platformcms/transport/http/metrics.go:37-41 | the average never leaves the range of the observed latencies |
| Metrics.NoOverflow | internal/platformcms/transport/http/metrics.go:37-41 | the intermediate product fits in 64 bits as long as count times the largest latency does |
| Metrics.CountersAreExact | internal/platformcms/transport/http/metrics.go:26-44 | requests and errors are the numbers of calls and of failing calls |
| Metrics.RoutesAreIndependent | internal/platformcms/transport/http/metrics.go:26-44 | in any sequence of calls a route's figures depend on its own calls alone |
| Audit.Repository.Append | internal/audit/infra/inmemory/repository.go:19-24 | adds the entry at the end |
| Audit.Repository.ListByCompany | internal/audit/infra/inmemory/repository.go:26-66 | shows only entries that agree with every filter up to case and outer blanks, lie in the window and are older than the cursor, last appended first; any other such entry of the log was appended before all of a page that is full (of `limit`, or 50) |
| Audit.NewestSelects | internal/audit/infra/inmemory/repository.go:32-64 | the filtered listing shows exactly the matching entries before the cursor, in reverse order of appending |
| Audit.PageOf | internal/audit/infra/inmemory/repository.go:32-64 | the same of the specified page, for every size |
| Audit.WalkShowsOnlyWanted | internal/audit/infra/inmemory/repository.go:48-59 | no page of any walk shows an entry of another company than the one asked for, or one that disagrees with another filter |
| Audit.CursorCuts | internal/audit/infra/inmemory/repository.go:45-47 | a cursor cuts off exactly the entries not older than it, which come first |
| Audit.NextPageIsTheRestIffOlder | internal/platformcms/transport/http/handler.go:938-943 | the next page starts right after this one if and only if the next entry is strictly older; entries with the same time are dropped |
| Audit.EqualTimesLoseAnEntry | internal/platformcms/transport/http/handler.go:938-943 | two entries of one time and pages of one: the second page is empty and the older entry is never shown |
| Audit.LaterEntriesStayAhead | internal/audit/infra/inmemory/repository.go:32-64 | entries appended later do not show behind a cursor taken earlier |
| Audit.WalkShowsEverythingOnce | internal/platformcms/transport/http/handler.go:905-948 | with strictly increasing times, following next_cursor shows every matching entry exactly once, newest first, in floor(m / limit) + 1 requests, whatever is appended meanwhile |
| Audit.LimitInRange | internal/platformcms/transport/http/handler.go:1084-1093 | the limit a client can reach is 1 to 200: what was sent in that range, 200 above it, and 50 below it or without a number |

## Left out

- HTTP routing and decoding, JSON encoding, CORS, request ids, configuration, logging, mail and start-up.
- SQL text, isolation levels and connection errors: each claim, reserve, update or delete statement is one atomic step
  on a table. A claim may find any rows locked and skips them. The order in which the MySQL claim returns its batch is
  left open (`IsClaim`).
- MySQL details that do not matter to the protocols: the 1024-byte cut of `last_error`, `last_error = NULL` on success,
  the foreign key to companies. The collation of the idempotency keys is modelled for ASCII: letter case and trailing
  blanks do not count. That it also equates accented letters with plain ones is not.
- Cryptography: digests are taken to be injective, so the request hash is its input text, and refresh tokens are
  compared as they are. JWT and the Redis snapshot store are not part of this model.
- Strings are ASCII: Unicode blanks, case folding and byte lengths of other characters are not modelled.
- Floating point: numbers in block configs are reals, and how a text reads as a number is part of the value. NaN,
  infinities and the casts to `int64` are not modelled.
- The jitter's distribution: any value in its range may be drawn.
- The wording of error messages and the paths of field errors: a field is a structured value, and the error map says
  which problem it has.
- `sort.Slice` is an insertion sort here; only the sorted result matters.
- Draft, published and completed records, listing and search of disclosure types, login credentials and attempts,
  password recovery, administration, notifications, media assets: one-branch rules that would add easy members.
- The service calls inside the record handlers: they are one step with an outcome.
- Session expiry: neither the repository nor the opaque token manager has one.
