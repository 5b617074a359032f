# Verified models of the Codex client's durable state

The client talks to an App Server that can lose, delay or refuse replies, and it may stop at any moment. Most of
its logic keeps durable evidence honest under those conditions. This project models that logic in Dafny and
proves what it promises, for every input, every interleaving and every place where a run may stop.

`dafny verify dfyconfig.toml` checks the whole project.

## What is modelled

**Durable delivery.** `SubmissionRecords` holds the ledger's records and what each transaction plans for them.
`SubmissionLedger` is the ledger object that carries a plan out in place, with one write that may be lost before or
after it became durable. `Delivery` is a step system: any number of operations over one shared ledger, a server
that may accept late, refuse or stay silent, and crashes between any two steps. `DeliverySteps` proves that every
step keeps its invariant, and `DeliveryResults` what follows for every run: what can never happen. `DeliveryEffects`
says exactly when a step does what it is for and what it leaves alone, and `DeliveryProgress` what an operation comes
to: from any state of any run a free message can be delivered, found again or reported as not sent. `LegacyRestore`
shows why the database compares claims, and `RestoreClaims` says exactly which claim a restore undoes.
`SubmissionDatabase` proves that scoped transactions have the effect of whole-ledger ones, `LedgerActions` that the
ledger object and the scoped store answer alike, and `SubmissionMigration` is the phased move of the ledger from files
into the database.

**Prompt offers.** `PromptOffers` is the step system of offers, claims, answers, timers, resolutions and
reconnects, together with the revision token by which a page knows that its list of prompts is current.
`PromptAnswers` says exactly when an offer is shown, claimed, answered and gone, and `PromptRevisions` when that token
goes back and what equal tokens mean then.

**Ephemeral turns.** `EphemeralEvidence` is the decoded evidence, `EphemeralSink` the automaton that judges it as
functions, `EphemeralTurn` the object that runs it. `EphemeralTransparency` proves that buffering before bind does
not matter, `EphemeralVerdict` what a positive retry verdict stands for, `EphemeralRetry` exactly when there is
one, `EphemeralResult` where a result comes from, and `EphemeralSuccess` exactly when there is one. `EphemeralRules`
restates both as rules on the decoded messages alone: which errors are passing, which items are proper, and which
answers agree.

**Activity.** `ActivityTiming` relates a constant-size turn record to the list of intervals that it compresses,
`ActivityCapture` holds what every event does, `ActivityRecording` is the recorder that does it in place,
`ActivityRules` says when a turn waits, works or is idle and that every interval was earned by that rule,
`ActivityMessages` what each message and turn list changes, `ActivityAccounting` follows all time over whole runs of
events, `ActivityStore` the writer and its files, `ActivityDurability` what they promise over whole runs,
`ActivitySnapshot` the totals that are shown, `ActivityTotals` what these are sums of, and `ActivityPrefix` the cache of
the oldest turns' totals.

**Paged histories.** `ThreadPages` reads a transcript backwards in pages, `TurnHistory` backfills turns over
several reads, `ItemCounts` counts the items of a turn page by page, `ItemNumbers` says what the counts are numbers of,
`ItemCountRuns` follows such counts over whole runs, `PageMetadata` scans a growing file, and `PageTimes` says which
times and mode such a scan leaves.

`Prelude` holds what the modules share.

## Where the code does less than one would expect

- A restore in the legacy ledger can undo another operation's claim once the record was cleared and prepared
  again. It undoes its own claim if and only if the message was submitting ever since, that is, nobody claimed it
  again; in the database that is always so (`RestoreClaims.RestoreUndoesOwnClaimExactlyWhen`, `LegacyRestore`).
- Item counts go wrong after a long tail settles: when reading the first page of a sweep folds more items than the
  page had, the cursor stays behind what was folded (`ItemCounts.FoldOvertakes` says exactly when). A page read from
  there is refused if it reaches the last folded item, and with full pages it is refused for good, so the counts never
  become known (`ItemCountRuns.RefusedForGood`). A shorter page is taken in and counts items again, up to counts that
  are known and wrong (`ItemCountRuns.ShortPagesMakeKnownCountsWrong`).
  `ItemCountRuns.KnownCountsCoverExactlyWhen` gives the exact condition over a whole run.
- A stored turn summary gets older in exactly one case: it cannot be read, and an older record of the same turn is
  written over it (`ActivityStore.RegressesExactlyWhen`, `ActivityDurability.UnreadableSummaryIsLost`).
- A turn that is recorded again and reaches the stored sequence replaces the stored contents, and below it the new
  contents are dropped (`ActivityDurability.EqualSequenceReplaces`, `ActivityDurability.DroppedIsStoredExactlyWhen`).
- A failing write while a thread is closed loses its records although the process goes on
  (`ActivityDurability.GivenUpExactlyWhen`, `ActivityDurability.FailedClosingPassLosesRecord`).
- A flush does not wait for a change that leaves the revision alone, if it came after the copy that the flush relies on
  (`ActivityDurability.FlushIsDurableExactlyWhen`, `ActivityDurability.SilentChangeIsNotFlushed`).
- Time that counted is lost, and an event loses some if and only if an accrual has no place for it (no room for a
  record, a final record, or time before the start of the turn), a connection that is up is announced again, replaced or
  found lost, or a turn list ends the turn in the past and the observation goes on counting
  (`ActivityAccounting.LosesExactlyWhen`, `ActivityAccounting.ReconnectLosesTime`).
- The pending revision says nothing about the empty thread id (`PromptOffers.RevisionValidatesExactlyWhen`). It goes
  back exactly when a thread that nobody watches is pruned (`PromptRevisions.GoesBackExactlyWhen`), and then equal
  revisions may stand for other prompts: `PromptRevisions.EqualRevisionsExactlyWhen` and
  `PromptRevisions.TrustedExactlyWhen` say when they do not.
- When a migration stopped after backing up the primary predecessor, and that file vanishes, the legacy file is
  imported without complaint; leftover backups are noticed only when every predecessor is gone
  (`SubmissionMigration.LeftoverNoticedExactlyWhen`, `SubmissionMigration.VanishedPrimaryIsReplaced`).
- A scoped transaction agrees with the whole-ledger one if and only if its action names a thread
  (`SubmissionDatabase.ScopedAgreesExactly`).

## Model

| member | source | states |
|---|---|---|
| `DeliveryResults.DeliveredAtMostOnce` | codex/client.go:5277-5433 | Over every run of any number of operations, with crashes, late delivery, lost writes and refusals: at most one turn/start or turn/steer is accepted for an identity whose record was never cleared, and what was accepted is the action that the record binds. |
| `DeliveryResults.NotSentIsTrue` | codex/send_delivery.go:27-45 | When an operation answers that its message was not sent, no turn was accepted for that identity, nothing is on its way, and nobody may still write it; and unless its queue record was cleared, it was not handed to the native queue and no turn contains it. |
| `DeliveryResults.AcceptedTurnIsTrue` | codex/client.go:2968-2997 | Every receipt answered and every accepted record names a turn that contains the message, and that one turn when it was accepted as a turn/start or turn/steer, whichever operation recorded it. |
| `DeliveryResults.RestoreUndoesOwnClaim` | codex/send_delivery.go:63-78 | A restore happens only for a message that is nowhere, leaves nothing dispatched for a remembered identity, and in the database matches its own claim, even after the record was cleared and prepared again. |
| `RestoreClaims.RestoreUndoesOwnClaimExactlyWhen` | codex/send_delivery.go:63-78 | In both ledgers, over every run: a restore that changes anything follows a claim of its own operation, and undoes that claim if and only if the message was submitting ever since; any claim since is another operation's, and in the database there is none. |
| `RestoreClaims.OnlyClaims` | codex/client.go:2940-2966 | Only a claim of the message makes it submitting, and the database then stores the token of that claim. |
| `RestoreClaims.TokenOfLastClaim` | codex/client.go:2940-2966 | Over every run of the database, the token stored for a submitting message is that of the last operation that claimed it. |
| `DeliveryEffects.RestoreExactlyWhen` | codex/send_delivery.go:63-78 | Over every run, in both ledgers: a restore that is written changes the records if and only if the record of its message is submitting and, in the database, stores its own token; then that record is the old one, prepared and without a token, and every other record is as it was. |
| `DeliveryEffects.ClaimExactlyWhen` | codex/client.go:2940-2966 | Over every run a claim goes through if and only if the message is recorded as this very action, prepared and not queued; it marks that record, with the token in the database, and changes nothing else; a refused claim leaves the operation unsure. |
| `DeliveryEffects.RecordPrepares` | codex/client.go:2827-2880 | A message without a record gets a prepared one, and a recorded message is left as it is. |
| `DeliveryEffects.AcceptExactlyWhen` | codex/client.go:2968-2997 | A submitting record becomes accepted with the turn that the server named if and only if the turn has an id and was sent the same way; any other record is left alone, and the answer is unknown unless that very turn was on record. |
| `DeliveryEffects.ReceiptExactlyWhen` | codex/client.go:2827-2880 | What history shows is recorded as accepted unless the record binds another action or names another turn. |
| `DeliveryEffects.ConcludeExactlyWhen` | codex/send_delivery.go:27-45 | Without evidence of its own an operation answers not sent if and only if one look at the ledger shows its action prepared, or absent where that may be, and not queued; an accepted record gives its turn, and anything else is unknown. |
| `DeliveryEffects.QueueExactlyWhen` | codex/client.go:2749-2778 | A message is recorded as queued exactly when it has no record, or a prepared, unsteered one of the same text; and what is queued is its text. |
| `DeliveryEffects.QueueAddHandsOver` | codex/continuation.go:57-119 | Only a message whose queue attempt is or was recorded is handed to the native queue, and its operation then knows no more than that. |
| `DeliveryEffects.ClearingExactlyWhen` | codex/client.go:3003-3514 | Over every run, for every clearing step and every entry of the four tables: the entry is gone if and only if it is one that the step names and no guard speaks against it, and otherwise as it was. |
| `DeliveryEffects.DeletionExactlyWhen` | codex/client.go:3143-3170 | A deletion is recorded once, and never for another message or text. |
| `DeliveryEffects.LostWrites` | codex/client.go:2749-2997 | A write that is lost before it became durable changes nothing, one that is lost after it has the effect of one that went through, and both are reported as failed. |
| `DeliveryProgress.SendIsDelivered` | codex/client.go:5277-5433 | From the end of any run, a message that is free and that the server accepts is delivered: its operation answers with the turn and the record names it. |
| `DeliveryProgress.LostReplyIsFound` | codex/client.go:5277-5433 | When the reply is lost, history shows the message and the operation answers with its turn all the same. |
| `DeliveryProgress.RefusalIsNotSent` | codex/client.go:5340-5433 | A message that the server refuses is answered as not sent, whether it was steered or not, and may be claimed again. |
| `DeliveryProgress.UnwrittenIsNotSent` | codex/send_delivery.go:27-45 | So is a message that was claimed and never written out. |
| `DeliveryProgress.RestoredIsNotSent` | codex/send_delivery.go:27-78 | Wherever a restore goes through, in the database always and in the legacy ledger unless the record was cleared, its operation concludes that the message was not sent. |
| `DeliveryProgress.BoundByClaim` | codex/send_delivery.go:63-78 | A record that is submitting for an operation is not queued and binds the message of that operation. |
| `DeliveryResults.QueueAndSubmissionExclude` | codex/client.go:2749-2778 | From an empty ledger no run reaches an identity that is both queued and being submitted. |
| `DeliveryResults.BindingIsStable` | codex/client.go:2800-2880 | While a send record exists, its text digest, context, options digest and steered flag never change. |
| `DeliverySteps.StepKeeps` | codex/continuation.go:57-119 | Every step of every operation, of the server and of clearing keeps the protocol invariant: live claims are unique, recorded and bound, and evidence names accepting turns. |
| `DeliveryResults.RunInvariant` | codex/client.go:1234-1310 | The protocol invariant holds in every state of every run. |
| `LegacyRestore.LegacyRestoreCanUndoAnotherClaim` | codex/send_delivery.go:63-78 | A ten-step run of the legacy ledger in which a late restore makes a message that is on its way look unsent. |
| `SubmissionLedger.Ledger.RecordQueueAttempt` | codex/client.go:2749-2778 | Under any write outcome: a repeated equal attempt is no change, a different text or an unreconciled send is refused, and a reported failure leaves memory as it was while the stored records are the old or the new ones. |
| `SubmissionLedger.Ledger.ClearQueueAttempt` | codex/client.go:3107-3127 | Removes exactly this attempt, and puts it back in memory when the write is reported as failed. |
| `SubmissionLedger.Ledger.RecordQueueDeletionAttempt` | codex/client.go:3143-3170 | A deletion intent is recorded once and never changes, under any write outcome. |
| `SubmissionLedger.Ledger.RecordSendAttempt` | codex/client.go:2827-2880 | An identity is never rebound to another action, a receipt must match it, and an accepted turn is never replaced; a failed write restores the previous attempt. |
| `SubmissionLedger.Ledger.ClaimSendSubmission` | codex/client.go:2940-2966 | Only a prepared attempt that is not queued and is the exact action wanted becomes submitting. |
| `SubmissionLedger.Ledger.MarkSendAccepted` | codex/client.go:2968-2997 | Only a submitting attempt becomes accepted, with a matching receipt; the same turn again is no change and another turn is refused. |
| `SubmissionLedger.Ledger.RestoreRejectedSendClaim` | codex/send_delivery.go:63-78 | Refused if and only if the attempt is not submitting or, in the database, holds another claim; otherwise the stored attempt is the old one, prepared and without a token, and no other record changes. |
| `SubmissionLedger.Ledger.DiscardPreparedSend` | codex/client.go:5146-5181 | Only an exact, prepared attempt that is not queued is removed. |
| `SubmissionLedger.Ledger.ClearQueueDeletionAndAttempt` | codex/client.go:3172-3214 | The deletion, the queue attempt and its delegated send go together or not at all. |
| `SubmissionLedger.Ledger.DropAcknowledged` | codex/client.go:3003-3105 | Stops at the first contradicted message with its reason, a different text or another accepted turn, and otherwise removes exactly the acknowledged attempts. |
| `SubmissionLedger.Ledger.AcknowledgeSends` | codex/client.go:3003-3105 | For any set of acknowledged messages and any write outcome: all of them are removed together, or nothing changes and the refusal says whether a text or an accepted turn differs. |
| `SubmissionLedger.Ledger.ClearConversationAttempts` | codex/client.go:3399-3438 | Everything of a thread and its directory's marker go together, unless the marker is another thread's. |
| `SubmissionLedger.Ledger.ClearRetiredThreadAttempts` | codex/client.go:3486-3514 | Everything of a thread goes, and directory markers stay. |
| `SubmissionLedger.Ledger.RecordThreadOperationAttempt` | codex/client.go:3374-3395 | A directory is bound once, and rebinding is refused. |
| `SubmissionDatabase.Store.ReadRecords` | codex/submission_database.go:164-215 | Loads exactly the rows of the scope, and refuses a scope that selects nothing. |
| `SubmissionDatabase.Store.WriteRecords` | codex/submission_database.go:323-347 | Leaves the table as if the loaded rows had been replaced: gone rows deleted, differing rows written, all others untouched. |
| `SubmissionDatabase.Store.Transact` | codex/submission_database.go:58-112 | Loading the rows of a scope, running an action on them and writing back the differences is one scoped transaction, whatever happens to the write. |
| `SubmissionDatabase.Store.Run` | codex/submission_database.go:58-112 | Running any ledger action in its scope gives the rows and the answer of the action on the whole ledger and touches no row outside; an action that names no thread is refused and changes nothing. |
| `LedgerActions.RunOnBoth` | codex/submission_database.go:58-112 | The ledger object, which reads everything, and the scoped store give the same answer to every action under every write outcome, and end with the same records. |
| `LedgerActions.RunOnLedger` | codex/client.go:2749-3214 | Every method of the ledger object stores and answers what its plan says. |
| `SubmissionDatabase.LoadsExactlyWhen` | codex/submission_database.go:164-215 | A row is loaded, as it is, if and only if the scope is everything, or names its thread and no ids or its id, and a directory row if and only if the scope names it. |
| `SubmissionDatabase.WriteRows` | codex/submission_database.go:323-347 | The two loops of a diff-write give the table that replacing the loaded rows would. |
| `SubmissionDatabase.EveryActionIsLocal` | codex/submission_database.go:22-36 | Every ledger action decides and changes the same on the rows of its scope as on the whole ledger, and changes nothing outside. |
| `SubmissionDatabase.ScopedRefinesWhole` | codex/submission_database.go:58-112 | A scoped transaction of a local action has the result and final records of the whole-ledger one, under any write outcome, and rows outside its scope never change. |
| `SubmissionDatabase.ScopedRunRefinesWhole` | codex/submission_database.go:58-112 | Any sequence of scoped transactions gives the records and answers of the same actions on the whole ledger. |
| `SubmissionDatabase.ScopedAgreesExactly` | codex/submission_database.go:164-191 | A scoped transaction agrees with the whole-ledger one if and only if its action names a thread. |
| `SubmissionMigration.Migration.Initialize` | codex/submission_migration.go:115-347 | Wherever a run stops: the phase never goes back, no fence appears before the import is committed, only backed-up predecessors are overwritten, the import happens once with the contents of the first predecessor; and a run without failing writes succeeds exactly when the stated condition on files, journal and backups holds. |
| `SubmissionMigration.Migration.Live` | codex/submission_migration.go:115-347 | Over any sequence of runs that stop anywhere, vanishing and rewritten predecessors and database transactions: one import at most, and records that are those of the first predecessor found until a transaction changes them. |
| `SubmissionMigration.Migration.StartsExactlyWhen` | codex/submission_migration.go:115-307 | The first run succeeds if and only if every predecessor is a document that may be backed up, the first of them can be read, and nothing is left of an earlier run if there is none; and what is imported are the contents of that first one. |
| `SubmissionMigration.Migration.ResumesExactlyWhen` | codex/submission_migration.go:309-344 | After an import a run succeeds if and only if the sources are the same, and each is gone, fenced by this database, or still what was imported. |
| `SubmissionMigration.Migration.ReopensExactlyWhen` | codex/submission_migration.go:371-414 | Once the database is ready a run succeeds if and only if the sources are the same, and each is gone or fenced by it. |
| `SubmissionMigration.Migration.Import` | codex/submission_migration.go:163-307 | Records, journal and phase become durable together or not at all, and without failing writes exactly when the predecessors can be imported. |
| `SubmissionMigration.Migration.Collect` | codex/submission_migration.go:164-203 | Every present predecessor is backed up, the first is chosen, and a fence or a clashing backup is refused. |
| `SubmissionMigration.Migration.FenceSources` | codex/submission_migration.go:311-344 | Fences every source that is unchanged, gone with its backup intact, or fenced already, overwrites nothing that is not backed up, and refuses everything else. |
| `SubmissionMigration.Migration.VerifyFences` | codex/submission_migration.go:371-414 | Changes no file that is there, restores missing fences only after every other was checked, and refuses changed identities. |
| `SubmissionMigration.Migration.PreserveBackup` | codex/submission_migration.go:416-428 | A backup is written once and never replaced by another text. |
| `SubmissionMigration.LeftoverNoticedExactlyWhen` | codex/submission_migration.go:198-214 | An import of otherwise acceptable predecessors into an empty database is refused if and only if a backup exists and every predecessor is gone. |
| `SubmissionMigration.VanishedPrimaryIsReplaced` | codex/submission_migration.go:164-214 | Whatever was backed up before, the legacy predecessor included, a present legacy predecessor whose backup does not clash is imported when the primary one is gone. |
| `PromptOffers.AtMostOneAnswer` | codex/client.go:1234-1310 | Over every run: response bytes are handed to the writer at most once for an offer, and only on the connection that made it; AnswerIsWrittenExactlyWhen says when they are. |
| `PromptAnswers.AnswerIsWrittenExactlyWhen` | codex/client.go:1234-1310 | Over every run: whoever claimed a shown offer, and writes its answer later, hands exactly one answer with the token and connection of that offer to the writer if and only if the offer was neither resolved nor its connection dropped in between; a full write removes the offer. |
| `PromptAnswers.AnsweredIsGone` | codex/client.go:1249-1305 | After a full write no thread shows an offer with that token. |
| `PromptAnswers.WriteExactlyWhen` | codex/client.go:1249-1305 | Whoever holds an offer writes its answer if and only if the offer is still pending. |
| `PromptAnswers.WriteLeads` | codex/client.go:1249-1310 | A full write ends the responder, a missing or failing writer makes it drop the connection, and a cancelled write or a withdrawn offer makes it give the offer back. |
| `PromptAnswers.ClaimExactlyWhen` | codex/client.go:2118-2143 | A claim succeeds if and only if the offer is shown for the thread, under the token if one is named, and for a timer only an automatic offer that was not put off; then the claimer holds it. |
| `PromptAnswers.ClaimHides` | codex/client.go:2118-2143 | A claimed offer is shown no more, and no other prompt changes. |
| `PromptAnswers.ReleaseShowsExactlyWhen` | codex/client.go:2145-2182 | An offer whose answer was not written is shown again if and only if it is still pending. |
| `PromptAnswers.AdmitExactlyWhen` | codex/client.go:1424-1439 | An offer is admitted if and only if it came on the present connection and its id is not pending, under a token that no offer had before. |
| `PromptAnswers.AdmitShows` | codex/client.go:1424-1439 | From its admission on it is shown for its own thread, and no other list changes. |
| `PromptAnswers.SnoozeExactlyWhen` | codex/client.go:1477-1509 | A question that is shown can be put off, and stays shown; nothing else can. |
| `PromptAnswers.ResolveTakes` | codex/client.go:1546-1563 | A resolution takes away the offer of that id and connection, and no other. |
| `PromptAnswers.DisconnectTakes` | codex/client.go:1609-1661 | Losing the present connection takes every offer away, and losing an older one none. |
| `PromptAnswers.RejectAppends` | codex/client.go:1565-1599 | A rejected request leaves its notice last, and the last twenty notices stay. |
| `PromptAnswers.WatchFailedShows` | codex/client.go:1871-1892 | A failing watch is shown with its latest reason, and no rejection is lost. |
| `PromptAnswers.WatchRecoveredTakes` | codex/client.go:1894-1908 | A watch that recovers takes its notice away, and no rejection. |
| `PromptAnswers.WatchersExactly` | codex/client.go:1663-1726 | Watchers are counted thread by thread, and nothing else changes with them. |
| `PromptOffers.ShownIsUnanswered` | codex/client.go:1969-1987 | No prompt that is listed was answered before. |
| `PromptOffers.StepKeeps` | codex/client.go:1424-1509 | Every admission, claim, snooze, write, failure, release, resolution and reconnect keeps the invariant: tokens are unique, claims exclusive, and an answered offer is gone or claimed until its connection is dropped. |
| `PromptOffers.StepValidates` | codex/client.go:1871-1953 | A step that neither raises the revision of a thread nor prunes it leaves its list of prompts as it was, watched or not. |
| `PromptOffers.RevisionValidatesPrompts` | codex/client.go:1910-1953 | While a thread stays watched its revision never goes back, and the same revision at two moments means the same prompts. |
| `PromptOffers.EmptyThreadIsNotValidated` | codex/client.go:1919-1930 | A run in which the empty thread id is watched and a notice changes its prompts without raising the revision. |
| `PromptOffers.RevisionValidatesExactlyWhen` | codex/client.go:1910-1953 | The revision of a thread validates its prompts over every stretch during which it is watched if and only if the thread id is not empty. |
| `PromptRevisions.GoesBackExactlyWhen` | codex/client.go:1934-1953 | The revision of a thread goes back if and only if the step prunes it while nobody watches it, nothing is pending, there is no notice, and it has a revision of its own since the last reset. |
| `PromptRevisions.NeverBackExactlyWhen` | codex/client.go:1910-1953 | Over every run the revisions of a thread never go back if and only if no step prunes it that way. |
| `PromptRevisions.EqualRevisionsExactlyWhen` | codex/client.go:1910-1987 | At any two moments with the same revision, watched or not, the prompts are the same if and only if the thread was not pruned in between or had no notice at the first. |
| `PromptRevisions.TrustedExactlyWhen` | codex/client.go:1868-1987 | From a reachable state on, an equal revision means equal prompts in every future if and only if the revision is newer than the last reset, or there is no notice, or there is one of a rejected request. |
| `PromptRevisions.UnwatchedRevisionStartsOver` | codex/client.go:1934-1953 | A run in which pruning lets the revision of an unwatched thread go back. |
| `PromptRevisions.SameRevisionOtherPrompts` | codex/client.go:1868-1953 | A run after which the revision is the same and the prompts are not. |
| `EphemeralTransparency.BufferingIsTransparent` | codex/ephemeral.go:817-895 | For every trace and every place to bind it at, with at most 32 relevant notifications before, the result and the retry verdict are those of a sink that was bound first. |
| `EphemeralTransparency.BoundHandle` | codex/ephemeral.go:817-870 | On a bound sink, delivering a notification is consuming it once, although it is validated twice. |
| `EphemeralTransparency.RejectStands` | codex/ephemeral.go:934-1005 | Whatever a sink rejects before it is bound, a bound sink rejects in any state. |
| `EphemeralVerdict.OverflowFails` | codex/ephemeral.go:854-866 | With more than 32 relevant notifications before bind there is neither a result nor a retry. |
| `EphemeralVerdict.RetryIsEarned` | codex/ephemeral.go:925-930 | A positive retry verdict means that every arrival was on the right connection and about this turn, that the turn completed as failed or interrupted, and that every terminal error and every completion was transient. |
| `EphemeralRetry.RetryExactlyWhen` | codex/ephemeral.go:817-1225 | For every trace and every place to bind it at: a retry is safe if and only if at most 32 relevant notifications came before bind, every arrival fits those before it, the turn completed, every terminal error and every completion was a failure with a passing error, and something said why it failed. |
| `EphemeralRules.RetryRule` | codex/ephemeral.go:817-1297 | The same by rules on the decoded messages alone: every arrival is on this connection and about this turn, errors are understood and those that end an attempt passing, items are proper and give one answer, and a repeated completion reports the same. |
| `EphemeralRules.FailureIsRetriedExactlyWhen` | codex/ephemeral.go:1230-1297 | A turn whose only notification is a failed completion is safe to retry if and only if its error is the overload or the internal error code, the other code with the capacity text, or a sole transport classification with status 408, 500, 502, 503 or 504, or with none unless there were too many failed attempts. |
| `EphemeralRules.ErrorIsRetriedExactlyWhen` | codex/ephemeral.go:1128-1297 | A turn that fails after an error ended its attempt is safe to retry if and only if that error is one of the same. |
| `EphemeralVerdict.GradeExactlyWhen` | codex/ephemeral.go:1230-1297 | An error is graded as invalid exactly when it is not understood, and as transient exactly when it is one of these. |
| `EphemeralRules.EvidenceTellsReports` | codex/ephemeral.go:1009-1063 | Completions have the same evidence if and only if they report the same status, error and items, one by one. |
| `EphemeralRules.ProperExactlyWhen` | codex/ephemeral.go:1299-1328 | Items are taken without fault if and only if each says what it is, was not delivered on the side, and no two of them, nor an earlier one, give different final answers. |
| `EphemeralRetry.BoundRetryExactlyWhen` | codex/ephemeral.go:925-1225 | The same for a sink that was bound first, by conditions on the trace alone. |
| `EphemeralRetry.RejectedExactlyWhen` | codex/ephemeral.go:934-1005 | A bound sink rejects an event if and only if it is not about this turn, or is an error after the settlement or on a malformed thread id, or its turn or items are at fault. |
| `EphemeralResult.ResultIsEarned` | codex/ephemeral.go:1299-1334 | A result is the text of a final answer that the trace carries, in a turn that completed, with every arrival on the right connection and about this turn, wherever it was bound. |
| `EphemeralSuccess.ResultExactlyWhen` | codex/ephemeral.go:817-1334 | For every trace and every place to bind it at: there is a result if and only if at most 32 relevant notifications came before bind, every arrival serves it, the turn completed and a final answer was given; and the result is the first final answer. |
| `EphemeralRules.ResultRule` | codex/ephemeral.go:817-1334 | The same by rules on the decoded messages alone, with the text of the result. |
| `EphemeralVerdict.RevocationIsPermanent` | codex/ephemeral.go:872-1005 | After rejected evidence no later arrival and no later bind, in any order, brings back a result or a retry. |
| `EphemeralVerdict.MarkDecides` | codex/ephemeral.go:1009-1063 | Completions with the same evidence are transient failures alike. |
| `EphemeralTurn.Sink.Fail` | codex/ephemeral.go:754-764 | Revokes for good and keeps the first failure. |
| `EphemeralTurn.Sink.Handle` | codex/ephemeral.go:817-870 | The new state is that of the automaton, for every frame, generation and binding. |
| `EphemeralTurn.Sink.Bind` | codex/ephemeral.go:872-895 | Replays the buffer in order, or marks the turn ambiguous; true exactly when it bound and nothing failed. |
| `EphemeralRules.BindExactlyWhen` | codex/ephemeral.go:872-895 | Binding to the connection, thread and turn that were bound or noted keeps them and leaves nothing buffered; binding to any other leaves neither a result nor a retry. |
| `EphemeralRules.FirstConnectionCounts` | codex/ephemeral.go:817-829 | A sink belongs to the connection that it first hears from, and what comes on another is rejected for good. |
| `EphemeralRules.UnrequestedExactly` | codex/ephemeral.go:1065-1126 | Before a turn was requested an error is rejected, and no other message notes its identity. |
| `EphemeralTurn.Sink.BeginTurn` | codex/ephemeral.go:897-905 | True if and only if nothing failed, the connection and thread are the bound ones, and the turn was not requested before; then it is. |
| `EphemeralTurn.Sink.CanRetry` | codex/ephemeral.go:925-930 | The verdict, which rejected evidence rules out. |
| `EphemeralTurn.Sink.RejectEvidence` | codex/ephemeral.go:934-1005 | Notes the turn's identity, validates the message and revokes as the automaton does. |
| `EphemeralTurn.Sink.RejectError` | codex/ephemeral.go:1065-1093 | An error notification is kept only before settling, about this turn, and well formed. |
| `EphemeralTurn.Sink.NoteCleanupIdentity` | codex/ephemeral.go:1095-1126 | Notes the turn, or marks the cleanup ambiguous. |
| `EphemeralTurn.Sink.Consume` | codex/ephemeral.go:1128-1225 | Takes errors, items and completions as the automaton does. |
| `EphemeralTurn.Sink.Settle` | codex/ephemeral.go:1188-1223 | Whether the failure was transient is decided by the completion's error and those before it. |
| `EphemeralTurn.Sink.ItemsFault` | codex/ephemeral.go:992-1000 | The first fault among the items of a completion. |
| `EphemeralTurn.Sink.TakeItems` | codex/ephemeral.go:1177-1187 | Takes items in order and stops at the first failure. |
| `ActivityTiming.AddRefines` | codex/activity_recording.go:43-64 | Adding an interval to a record keeps its totals, its bounds and its share of the last second exact. |
| `ActivityTiming.CutRefines` | codex/activity_recording.go:79-88 | Cutting a record at a completion in its last recorded second gives the totals of its intervals clipped there. |
| `ActivityTiming.FinishedWithinBounds` | codex/activity_recording.go:66-96 | A record that becomes final with known bounds holds exactly the time that was accrued before its completion, all of it after its start. |
| `ActivityTiming.OrderedDisjoint` | codex/activity_recording.go:16-41 | Intervals of any two turns and states are disjoint. |
| `ActivityRecording.AccruedTimeIsExact` | codex/activity_recording.go:9-148 | In every reachable state: no two intervals overlap, none covers time without a connection, and the totals of every record are the lengths of its intervals. |
| `ActivityAccounting.TimeIsConserved` | codex/activity_recording.go:9-426 | Over every run of connections, losses, messages, turn lists and stored records: all the time that passes is accrued, lost, uncounted or without a connection; nothing is counted twice and nothing disappears. |
| `ActivityAccounting.LosesExactlyWhen` | codex/activity_recording.go:9-426 | An event loses time that counted if and only if an accrual has no room for a record, finds it final or reaches before the start of the turn, a connection that is up is announced again, replaced or found lost, or a turn list ends the turn in the past and the observation goes on counting. |
| `ActivityAccounting.AllCountedTimeIsAccruedExactlyWhen` | codex/activity_recording.go:9-426 | Over every run, all time that counted was accrued if and only if no event loses any. |
| `ActivityAccounting.AccrualSplits` | codex/activity_recording.go:16-41 | One accrual splits the counted time since the last one, without remainder, into an interval and what is lost. |
| `ActivityAccounting.RestLoses` | codex/activity_recording.go:203-304 | The time after the boundary of a message is lost only for a turn that has just started, and never because it precedes its start. |
| `ActivityAccounting.ReconnectLosesTime` | codex/activity_recording.go:110-123 | A run in which announcing a connection again loses time of a working turn that has an open record. |
| `ActivityAccounting.Capture` | codex/activity_recording.go:9-426 | Taking the events of any run one by one leaves the state of the run, with every record exact. |
| `ActivityRecording.ActivityThread.ObservationOf` | codex/activity_recording.go:9-14 | A new connection starts an observation that is not connected, and what the old one had not accounted for is lost or uncounted; the same connection goes on. |
| `ActivityRecording.ActivityThread.Accrue` | codex/activity_recording.go:16-41 | The new observation, records and intervals are those of the accrual function: one interval from what was accounted for to now, or none, no change to a final record, and the rest of the time lost or uncounted; every record stays exact. |
| `ActivityRecording.AccrueKept` | codex/activity_recording.go:16-64 | Accounting for the time up to a moment keeps every record exact and the intervals in order. |
| `ActivityRecording.ActivityThread.TakeMetadata` | codex/activity_recording.go:66-96 | Gives a record its bounds, clips its intervals where the code clips its totals, and counts how much that takes back. |
| `ActivityRecording.ActivityThread.UpdateState` | codex/activity_recording.go:98-108 | The state is the one that the observation calls for, which StateExactlyWhen spells out; a change restarts it and its open wait; the time carried over is lost or uncounted. |
| `ActivityRules.StateExactlyWhen` | codex/activity.go:113-157 | After every event that brings the state up to date, an observation waits if and only if nothing overflowed, no request is of an unknown kind, and a blocking request is open or the active turn waits for a tool; works if and only if there is neither, the turn is active and ready, and every flag is explained; and is idle likewise without an active turn. |
| `ActivityRules.LawfulStep` | codex/activity.go:113-157 | No event of any run leaves an observation waiting, working or idle when these rules do not say so. |
| `ActivityRules.EveryIntervalIsEarned` | codex/activity_recording.go:9-426 | Over every run: each interval on record is left of one that was accrued for the observed, connected and active turn, as waiting only while a blocking request was open or the turn waited for a tool, and as working only while nothing held it up. |
| `ActivityRules.OpenWaitGrows` | codex/activity_recording.go:16-41 | The open wait grows by exactly what is accrued as waiting. |
| `ActivityRules.StateChangeStartsOver` | codex/activity_recording.go:98-108 | The open wait and the time since which a state lasts start over if and only if the state changes. |
| `ActivityRecording.ActivityThread.Connected` | codex/activity_recording.go:110-123 | The time before a connection, since the last one was lost, becomes time that no interval covers; when the connection was up already, what counted since the last event is lost. |
| `ActivityRecording.ActivityThread.Disconnected` | codex/activity_recording.go:125-148 | Drops the observation without accruing anything: what counted until the loss was found is lost, and the time without a connection starts there. |
| `ActivityRecording.ActivityThread.Observe` | codex/activity_recording.go:150-311 | Every message leaves exactly the observation, records and intervals of the step function, through its boundary and then to now, and every record exact. |
| `ActivityRecording.CompletedTurnTakesNoMore` | codex/activity_recording.go:203-214 | A message that a turn completed before now leaves no interval beyond the later of its completion and what was accounted for already. |
| `ActivityRecording.ActivityThread.React` | codex/activity_recording.go:215-305 | What a message changes in the observation and in the record of its turn; the only accounted time it changes is what a completion clips. |
| `ActivityMessages.RequestOpensExactlyWhen` | codex/activity_recording.go:215-305 | A new request is open from now on, in the category of its kind and blocking for approvals and questions unless they say otherwise; without room for it nothing can be told any more. |
| `ActivityMessages.ResolvedExactly` | codex/activity_recording.go:215-305 | A resolved request is open no more, and the flag of its kind goes with the last request of that kind and only then. |
| `ActivityMessages.ToolWaitsExactly` | codex/activity_recording.go:215-305 | A sleep or a wait for agents is waited for until its item completes; a sleep of at most twelve hours says when it ends. |
| `ActivityMessages.IgnoredExactlyWhen` | codex/activity_recording.go:150-202 | A message is ignored if and only if it is about an item other than a sleep or wait, with an id, of the turn that runs. |
| `ActivityMessages.TurnStartsExactly` | codex/activity_recording.go:215-305 | A turn that starts is the one that runs, observed from its start, and waits for no tool. |
| `ActivityMessages.TurnCompletesExactly` | codex/activity_recording.go:215-305 | A turn that completes takes exactly its own requests and every flag along, and ends the one that runs if it is that. |
| `ActivityMessages.StatusExactly` | codex/activity_recording.go:215-305 | A status replaces the flags, and an active one shows that the active turn works. |
| `ActivityMessages.StartIsBackdated` | codex/activity_recording.go:203-304 | A turn that starts while nothing runs is charged from the second that its message names, or from what was accounted for already, and nothing is lost. |
| `ActivityMessages.EndIsBackdated` | codex/activity_recording.go:203-214 | The work of a turn that completed earlier is on record up to its completion. |
| `ActivityMessages.NoRoomIsUnclassified` | codex/activity_recording.go:16-41 | A turn without room for its record is not classified any more, and any other keeps its state. |
| `ActivityMessages.AccrueCharges` | codex/activity_recording.go:16-64 | Accruing changes the record of the observed turn alone, raises its sequence exactly when there is time to add, and changes no final record. |
| `ActivityTiming.MetadataExactly` | codex/activity_recording.go:66-96 | An open record takes the start that is given and, of a turn that ended, the end; it is final once both are known, and its bounds are unknown if it holds time outside of them. |
| `ActivityRecording.ActivityThread.ReconcileRecords` | codex/activity_recording.go:399-409 | In whatever order the records are visited: listed turns give their bounds, others become final, and the intervals of all of them are clipped together. |
| `ActivityTiming.TrimmedNext` | codex/activity_recording.go:399-409 | Clipping the records one after the other gives what clipping all of them at once does, and takes back as much. |
| `ActivityRecording.ActivityThread.Reconcile` | codex/activity_recording.go:342-426 | Leaves exactly the observation, records and intervals of the step function, does nothing for another connection, and keeps every record exact. |
| `ActivityMessages.ListedExactly` | codex/activity_recording.go:342-426 | After a turn list the observation is about its last turn, requests of turns that it says ended are closed and no others, and the flags are those of the status. |
| `ActivityMessages.RunningExactly` | codex/activity_recording.go:342-426 | A turn that runs on keeps its tool waits but for those whose end is now known, gets those that the list shows, and is ready if it never slept, or was seen from its start or to work. |
| `ActivityMessages.ListCharges` | codex/activity_recording.go:342-398 | The observed turn is charged up to the end that the list gives for it if that is earlier, and otherwise up to now. |
| `ActivityMessages.RecordsExactly` | codex/activity_recording.go:399-426 | A record whose turn is not listed becomes final as it is, a listed one takes its bounds, and a new one appears only for the turn that runs. |
| `ActivityDurability.StoredNeverRegresses` | codex/activity_store.go:214-312 | Over any interleaving of captures, passes, reads, closings and crashes, with readable summaries, the newest stored copy of every turn record only gets newer. |
| `ActivityStore.StepKeeps` | codex/activity_store.go:276-312 | Every capture, lookup, rename, cache update, closing and crash keeps what the writer relies on. |
| `ActivityDurability.GivenUpExactlyWhen` | codex/activity_store.go:189-274 | A step gives up a record that is not stored if and only if it is a crash, the failed last pass of a closing thread, or the end of a last pass that copied the record before it changed. |
| `ActivityDurability.CapturedIsHeld` | codex/activity_store.go:189-274 | Over every run without such a step a captured record is in memory or stored, as it was or newer, also after its thread was closed and loaded again. |
| `ActivityDurability.FailedClosingPassLosesRecord` | codex/activity_store.go:241-272 | A run in which one failing write while a thread is closed loses its record, with the process alive. |
| `ActivityDurability.FlushIsDurableExactlyWhen` | codex/activity_store.go:399-423 | After any run: every flush that returns has stored a record as memory held it at the call if and only if the record did not change silently since the copy that the flush relies on, the last saved one or that of a pass at the present revision. |
| `ActivityDurability.FlushStoresExactlyWhen` | codex/activity_store.go:399-423 | In every state: every flush that returns stores the record if and only if the saved revision and a pass at the present revision, where there is one, cover it. |
| `ActivityDurability.FinishPass` | codex/activity_store.go:241-312 | From any state of a pass there is a way to finish it, after which its revision is saved and nothing newer than its copy was stored. |
| `ActivityStore.RegressesExactlyWhen` | codex/activity_store.go:284-303 | A summary file gets older if and only if an older record is written over one that could not be read. |
| `ActivityDurability.UnreadableSummaryIsLost` | codex/activity_store.go:481-516 | A run in which an unreadable newer summary is lost. |
| `ActivityDurability.SummaryChangesExactlyWhen` | codex/activity_store.go:284-303 | The contents of a summary file change if and only if a pass stores another record over it, and its sequence is then no lower. |
| `ActivityDurability.DroppedIsStoredExactlyWhen` | codex/activity_store.go:253-265 | A record that memory drops is in its file with the same contents if and only if the file holds no newer sequence. |
| `ActivityDurability.EndDropsExactlyWhen` | codex/activity_store.go:253-272 | A pass drops from memory exactly the final records that it copied and that did not change since. |
| `ActivityDurability.CloseFinalises` | codex/activity_store.go:437-448 | Closing a thread makes every record final, under a new sequence if it was not, and the next pass notices. |
| `ActivityDurability.BeginCopies` | codex/activity_store.go:241-252 | A pass copies all of memory, and looks at exactly the final records. |
| `ActivityDurability.ReadDoneKeepsNewest` | codex/activity_store.go:481-516 | A read leaves the newer of what it found and what was known by then. |
| `ActivityDurability.LoadedExactlyWhen` | codex/activity_store.go:214-240 | A thread that is loaded while its summaries can be read has in memory exactly the records of the checkpoint that no stored summary makes superfluous. |
| `ActivityDurability.EqualSequenceReplaces` | codex/activity_store.go:284-303 | A run in which a record with an equal sequence and other contents goes over a readable summary. |
| `ActivityDurability.SilentChangeIsNotFlushed` | codex/activity_snapshot.go:8-39 | A run in which a flush returns without a change that did not raise the revision. |
| `ActivitySnapshot.TimeIsConserved` | codex/activity_snapshot.go:155-216 | The working, waiting, open and unclassified parts are never negative and add up to the lengths of the turns. |
| `ActivitySnapshot.AllTimeIsAccountedFor` | codex/activity.go:240-253 | For turns in order, where the last one runs or idle time follows it, all parts and the idle time add up to now minus the creation time. |
| `ActivitySnapshot.SplitConserves` | codex/activity_snapshot.go:180-206 | The parts of one turn are never negative and add up to its length; SplitIs says which part is which. |
| `ActivityTotals.SplitIs` | codex/activity_snapshot.go:180-206 | For a turn with bounds, working is the working time of the record that counts, open the smaller of the live wait and that record's waiting if this turn waits now, waiting the rest of its waiting time, and unclassified what remains of the turn; the record that counts is the newer of checkpoint and summary, if it fits the turn. |
| `ActivityTotals.TotalsAreSums` | codex/activity_snapshot.go:155-216 | The working total is the sum of the working time of the records that count, waiting plus open that of their waiting time, open is that of the turn that waits now, unclassified is what remains of the turns, and idle is the time between them. |
| `ActivityTotals.CountsSumUp` | codex/activity_snapshot.go:155-216 | Messages sent and received and tool calls are the sums over the turns, complete exactly when the scope and every turn's counts are known; the coverage is so far complete exactly when recording works and every turn has bounds. |
| `ActivityTotals.CoverageStartsEarliest` | codex/activity_snapshot.go:194-206 | The coverage starts with the earliest record that counts. |
| `ActivityTotals.StateExactlyWhen` | codex/activity_snapshot.go:67-144 | The state shown is that of the observation if recording works and the turns are known to be the thread's own; without one it is idle exactly when the turns are known and the last one does not run. |
| `ActivityTotals.ShownExactlyWhen` | codex/activity_snapshot.go:217-238 | How long the present state has lasted, the idle time with what follows the last turn, and coverage that is complete exactly when nothing failed, the turns are known and nothing is unclassified. |
| `ActivityPrefix.FoldIsStable` | codex/activity_snapshot.go:145-216 | What was folded in an earlier call is what a later call would compute, if the folded turns and records are the same and not live. |
| `ActivityPrefix.HistoryIsFold` | codex/activity_snapshot.go:51-64 | Adding the folded totals to an empty snapshot gives the totals computed from scratch. |
| `ActivityPrefix.Prefix.TakeOver` | codex/activity_snapshot.go:145-154 | Starts from the folded totals, or from nothing when they are about another history. |
| `ActivityPrefix.Prefix.Advance` | codex/activity_snapshot.go:155-216 | Adds a turn, and folds it exactly when it is the next one, completed, counted, not among the newest two, and recording works. |
| `ActivityPrefix.Prefix.Snapshot` | codex/activity_snapshot.go:66-216 | Over any sequence of calls that found the folded turns unchanged and not live, cached totals are those computed from scratch: sums over the records that count, as TotalsAreSums has them; a cancelled call says that it is incomplete. |
| `ThreadPages.ReadAll` | codex/thread_page.go:237-437 | Following cursors to the end terminates, and the pages, oldest first, are every turn's visible items once and in order with its failure after them, at most 100 entries to a page, for all legal page sizes. |
| `ThreadPages.ReadPage` | codex/thread_page.go:308-437 | A page is exactly what comes right before the last one; it has an older cursor only after a hundred items and failures were taken or turns visited, and then made progress. |
| `ThreadPages.TranscriptShowsExactly` | codex/thread_page.go:206-231 | The transcript shows exactly the items of its turns that have something to show, and their failures. |
| `ThreadPages.LastTurnLast` | codex/thread_page.go:370-421 | The entries of a turn follow those of the turns before it, with its failure last. |
| `ThreadPages.Visit` | codex/thread_page.go:370-421 | One visit of a turn: its failure once, then as many items as fit. |
| `ThreadPages.FetchTurns` | codex/thread_page.go:312-369 | The next batch continues the listing, and a legal page is never refused. |
| `ThreadPages.ReadItems` | codex/thread_page.go:382-421 | The items read are the newest left of the turn at hand, and the turn ends with its last page. |
| `ThreadPages.Collect` | codex/thread_page.go:399-409 | The entries of a page of items, each visible item once. |
| `TurnHistory.HistoryCache.Read` | codex/turn_history.go:147-269 | A read that succeeds returns what reading every page from scratch would, whatever earlier reads cached and wherever they failed; without failing requests it succeeds. |
| `TurnHistory.HistoryCache.Backfill` | codex/turn_history.go:187-264 | Loads the older pages until there are none, and keeps what it has when a request fails. |
| `TurnHistory.HistoryCache.FindAnchor` | codex/turn_history.go:224-240 | Finds the anchor if and only if every older cached turn has ended with known counts. |
| `TurnHistory.SuffixIsCurrent` | codex/turn_history.go:222-254 | The cached turns older than the anchor are those of the present history, and the saved cursor continues them. |
| `TurnHistory.Owners.Retain` | codex/turn_history.go:48-66 | Pins a cache and changes no other. |
| `TurnHistory.Owners.SetRetry` | codex/turn_history.go:170-174 | A reader says whether its backfill was interrupted, and no other cache changes. |
| `TurnHistory.Owners.Release` | codex/turn_history.go:68-89 | Never drops a cache that someone uses, keeps an unused one exactly for an interrupted backfill, as the newest of at most eight, and then drops the oldest of them. |
| `ItemCountRuns.KnownCountsCoverExactlyWhen` | codex/activity_history.go:53-122 | Over every run of pages and growth that ends with a final page and known counts: the counts cover the whole list, each item once, if and only if no page that was taken in started at a place that was folded already. |
| `ItemCountRuns.RunCountsOnceExactlyWhen` | codex/activity_history.go:67-122 | Over every run: each item seen is counted exactly once if and only if no page that was taken in started at a place that was folded already. |
| `ItemCountRuns.ExactlyOnceExactlyWhen` | codex/activity_history.go:81-121 | Reading a page leaves every item seen counted once if and only if the page starts at a place that was not folded yet or reaches the anchor, in which case it is refused. |
| `ItemCountRuns.AcceptedExactlyBeforeAnchor` | codex/activity_history.go:81-95 | A page that starts at a folded place is accepted if and only if it stops before the anchor. |
| `ItemCountRuns.AcceptedExactlyWhen` | codex/activity_history.go:81-95 | Whatever the server sends, a page is taken in if and only if it has at most 32 items, each named, none twice and none the anchor, and goes on to a place where this sweep has not been. |
| `ItemCountRuns.RefusedForGood` | codex/activity_history.go:81-95 | Once the cursor is behind the anchor by at most a full page, full pages are refused in every later run, nothing changes any more, and the counts never become known. |
| `ItemCountRuns.Report` | codex/activity_history.go:53-122 | Reading the pages of any run and asking for the metadata: right after a final page, while no page folds past its cursor, the counts are known and are those of counting all items directly, and the waits too after a whole sweep of an unchanged list. |
| `ItemCountRuns.Follow` | codex/activity_history.go:67-122 | Reading the pages of a run one by one leaves the state of the run. |
| `ItemCountRuns.FinalPageCompletes` | codex/activity_history.go:67-122 | While no page folds past its cursor every page is accepted, and a final page completes the list. |
| `ItemCountRuns.SweptAfterRun` | codex/activity_history.go:96-121 | After any run, a whole sweep of an unchanged list leaves the tail up to date. |
| `ItemCounts.ReadKeeps` | codex/activity_history.go:67-122 | From such a place a legal page is accepted, keeps every item counted once, and a page without a cursor completes the list. |
| `ItemCountRuns.RereadCountsTwice` | codex/activity_history.go:96-110 | A page that starts at a folded place counts an item a second time if it is taken in. |
| `ItemCountRuns.RepeatsForGood` | codex/activity_history.go:67-122 | An item that was counted twice stays so in every later run. |
| `ItemCounts.FoldOvertakes` | codex/activity_history.go:105-121 | The next page gets out of reach exactly when the tail goes beyond the page and everything in it up to the cursor, and at it, has settled. |
| `ItemCountRuns.SlowItemLeavesCursorBehind` | codex/activity_history.go:105-121 | A run of legal, accepted pages after which the cursor is behind what was folded. |
| `ItemCountRuns.NextFullPageIsRefused` | codex/activity_history.go:81-95 | From there the rest of the list as one page is legal and refused. |
| `ItemCountRuns.ShortPagesMakeKnownCountsWrong` | codex/activity_history.go:53-122 | From there two short pages are legal and accepted, and end with counts that are known and wrong: two messages more than there are. |
| `ItemCounts.GrowthKeeps` | codex/activity_history.go:67-122 | The list may grow and items may settle between pages. |
| `ItemCounts.CountsAreComplete` | codex/activity_history.go:53-65 | When every item was seen once, the counts of prefix and tail add up to those of all items; KnownCountsCoverExactlyWhen says when that is so. |
| `ItemCounts.SweepAdvances` | codex/activity_history.go:96-104 | While the list does not change, a sweep brings the tail up to date, page by page. |
| `ItemCounts.WaitsAreComplete` | codex/activity_history.go:56-62 | When the tail is up to date besides, its waits for other agents are those of the whole turn; SweptAfterRun says when that is so. |
| `ItemCounts.TurnMetadata` | codex/turn_history.go:91-135 | Counting with a set of ids seen gives the sum over all items of a turn. |
| `ItemNumbers.SumCountsItems` | codex/turn_history.go:91-135 | Messages, received messages and tool calls are the numbers of items of those kinds, and a turn slept exactly when an item is a sleep. |
| `ItemNumbers.WaitingExactlyWhen` | codex/turn_history.go:91-135 | An item is waited for exactly while it is a wait of the turn's own that is in progress. |
| `ItemCounts.ItemHistory.ReadPage` | codex/activity_history.go:81-121 | A page that is not acceptable changes nothing; another is merged by id and its settled front is folded. |
| `ItemCounts.ItemHistory.Metadata` | codex/activity_history.go:53-65 | The counts are those of all items of every list that was seen completely, and the waits too when its tail is up to date; they are known only after a complete sweep. |
| `PageMetadata.ResumedScanIsFullScan` | codex/page_metadata.go:232-413 | Scanning on in a file that has grown gives the mode, times, order and offset of one scan of the whole file, even when the last scan ended in the middle of a record. |
| `PageMetadata.ScanIsBounded` | codex/page_metadata.go:321-394 | After every record the order lists each entry once, the byte count is exact, and both bounds hold. |
| `PageTimes.KeptTimesAreLast` | codex/page_metadata.go:362-393 | Every item that is kept has the times of the last record that completed it, without a stamp that is too long. |
| `PageTimes.ModeIsLast` | codex/page_metadata.go:358-370 | The mode is that of the last record with a proper one. |
| `PageTimes.EvictionIsMinimal` | codex/page_metadata.go:386-392 | Both bounds are kept by dropping as few of the oldest entries as possible. |
| `PageTimes.TakePlaces` | codex/page_metadata.go:362-393 | An item comes last when it is first completed, and keeps its place from then on. |
| `PageTimes.NewestIsKept` | codex/page_metadata.go:362-393 | A new item is there after the record that completes it. |
| `PageTimes.ScanTakesLines` | codex/page_metadata.go:320-394 | A scan takes in the records of the complete lines in order, and stops where the last of them ends. |
| `PageMetadata.TakeConsistent` | codex/page_metadata.go:362-393 | One record keeps order, byte count and bounds. |
| `PageMetadata.EvictionKeepsTheLatest` | codex/page_metadata.go:386-392 | Eviction takes the entries that came first and leaves the others unchanged. |
| `PageMetadata.Cache.Evict` | codex/page_metadata.go:386-392 | Drops entries, oldest first, until both bounds hold, and never runs out of entries. |
| `PageMetadata.Cache.TakeRecord` | codex/page_metadata.go:362-393 | A record sets the mode and its item's times; an item seen before keeps its place. |
| `PageMetadata.Cache.ScanLines` | codex/page_metadata.go:320-394 | Takes in every complete line and stops before an incomplete one. |
| `PageMetadata.Cache.Rescan` | codex/page_metadata.go:232-413 | A file within the read limit is read as if from its start, whether the scan goes on or starts over, if it only grew where it looks grown, or if a full scan is asked for or due. |

## Left out

- Digests, JSON and identifiers: digests are taken to be injective, encoding to round-trip and random tokens to be fresh; row validation is not modelled.
- Per-thread maps of maps in the ledger are one map keyed by thread and id, so a thread with an empty map is not told apart from one without.
- CompactAcceptedSendOptions and the saved turn options: only their digest takes part in the protocol.
- Cross-client uniqueness of thread/queue/add: an equal queue attempt is reported as success, so only one client's per-thread lock serialises it; nothing is claimed about it.
- DeliveryResults.DeliveredAtMostOnce: speaks about identities whose submission record was never cleared, because sending again after clearing rests on a check of the history by the caller.
- DeliveryResults.NotSentIsTrue: the same restriction to identities that were not cleared; DeliveryResults.RestoreUndoesOwnClaim covers cleared ones in the database.
- Thread policy, settings and preflight reads of Send and ContinueFailedTurn: they end an operation early, which a stop between two steps covers.
- SubmissionMigration.Migration.Initialize: file modes, size limits and lock files are not modelled; the predecessor locks are what makes a run one method call here.
- PromptOffers: the answers' validation, and the text that a prompt shows, which is one value here.
- EphemeralTurn.Sink.Handle: the byte and event limits of decoding, and frames that do not decode, are not modelled; they revoke the turn before this point.
- EphemeralSink: lengths are counted in characters, not in bytes, and UTF-8 validity is taken for granted.
- ActivityRecording.ActivityThread.Observe: decoding of messages, the lookup of the thread, and a clock that runs backwards from one connection to the next, which it may do only during a connection here; seedCurrent, whose merge keeps only the newer tail, is not part of the exact-interval model.
- ActivityRecording.ActivityThread.Reconcile: the copy of the observation that the checkpoint stores is not modelled.
- ActivityStore is a step system over values rather than an object, because its writer runs beside event capture; a checkpoint over the size limit is an aborted pass.
- ActivityPrefix.Prefix.Snapshot: a context that is cancelled while a summary is read makes that summary look absent; here cancellation is noticed before a turn only.
- The blocking requests, wait reasons and texts of a snapshot.
- ThreadPages.ReadPage: the checks that a continuation still belongs to the same file and latest turn, and the table of saved continuations with its eviction; the history is fixed here.
- TurnHistory.HistoryCache.Read: the view that loads items on the first page only, which no caller uses.
- readActivityHistory's order of work among turns and its eight-request quantum.
- PageMetadata.Cache.Rescan: what the tail probe can miss in a file that was rewritten, and files over the read limit, of which only the end is read.
- WebSocket dialing and decoding, HTTP handlers, server-sent events, uploads, Markdown and the browser modules.
