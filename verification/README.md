# Procurement platform: a verified model

The platform takes a purchase request from a draft through review, purchasing and
the warehouse to completion, recommends suppliers from purchase history, and
notifies people through an outbox. This project models that behaviour in Dafny and
proves what it keeps over every run. `dafny verify dfyconfig.toml` checks it.

**The request aggregate.** One request owns its items, review rounds, review items,
executions, receipts, operation log and outbox rows (`Procurement`). Fourteen
commands change it (`Commands` says what each does, `Service.RequestStore` does it
statement by statement and is proved against that), each guarded by an expected
version, most of the status changes also by an action token. Rows are never deleted,
so a table is a sequence and a row's id is its index; quantities are thousandths,
prices cents. Everything a command reads elsewhere (roles, buildings, identities,
suppliers, models, assets, the clock) is one value, `World`, which may differ from call to
call. The invariant (`Invariants`) is kept by every command (`ItemInvariant`,
`ReviewInvariant`, `FulfillmentInvariant`, `Lifecycle`), and from it follow what
COMPLETED means, receipt conservation, the connected timeline (`Timeline`), bounded
runs (`Progress`), that completion stays reachable (`Liveness`) and which suppliers
can be bought from (`SupplierChoice`). `WitnessRuns` gives concrete runs from
`create_draft` for what fails. The timeline is shown in the order of the clocks, which
is the order of events exactly when the clocks advance (`TimelineOrder`); a reply that
reports no missing field does not yet mean that a submission passes (`MissingFields`).
Descriptive columns that no guard reads are one map per row, written and copied where
the code writes and copies them.

**What a call does and when.** `Acceptance` has, for each command, a table of objections
(`MoveRefusals`, `SaveRefusals`, `ReplaceRefusals`) stated without the order of the checks,
and proves that a command is accepted if and only if none holds. What an accepted command
leaves behind is said field by field in `RecordedFields`, `ReviewAdvice`, `SupplierChoice`,
`ItemReplacement` and `Notices`, without naming the code that writes it.

**Transactions.** `Transactions` runs commands as interleaved database transactions
and proves that the database always equals the serial replay of the committed calls;
`Histories` draws the consequences for versions, tokens and dedup keys. Assumed: a
transaction reads one snapshot taken when it begins; its UPDATE of the request row is
a current read that holds the row lock until the end; its rows become visible at
commit, all or none. The engine sets no isolation level
(`backend/app/db/session.py:8`), so this is the default of InnoDB; the whole HTTP
request is one transaction (`backend/app/db/session.py:20-23`). Runs start from
`create_draft`; seeded or migrated rows are not legal starting points.

**Recommendation.** `CandidatePool` groups matched purchase history by supplier,
relaxes the match tiers until enough suppliers are eligible and filters them;
`SupplierRanking` scores, sorts and cuts; `Recommendation` aggregates features and
joins the two; `Calendar` and `ProductHistory` treat the recency windows. `MatchTiers`,
`RankingWeights` and `RecommendationFacts` say what tiers, weights and features mean.
Decimals are exact reals. `Sorting` models `list.sort` with a key.

**Outbox.** `Outbox` is one row's life, the claim, the batch and the draining of the
table; `OutboxWorkers` interleaves any number of dispatchers, administrators and
producers under row locks. A send succeeds or fails; a crash releases the locks
without counting the attempt. `notification_max_retries` is assumed to be at least 1
(it is 5).

**Agent sessions.** `AgentSessions` is one conversation: a Redis entry that may
expire at any moment over a MySQL snapshot, with one call at a time. `ConcurrentSessions`
interleaves the transactions. `get_state` and `get_or_create_active` take no lock on the
conversation (`backend/app/services/agent_sessions.py:85-90`, `199-217`); the writers do,
but they too read the snapshot row with a plain SELECT
(`backend/app/repositories/agent_sessions.py:49-56`), hence as it was when the
transaction began. An UPDATE writes the columns that differ from those loaded. The
promise is that the last snapshotted state comes back under the request written last.
Four kinds of event break it, each shown by a run: a restore from a row that has changed
since (`StaleFill`, `OlderSnapshot`), a write-back under another request (`StaleHit`), a
snapshot written over columns that have changed (`MixedSnapshot`), and a `save_state` of
another request whose commit fails after Redis has been written (`UndoneLink`).
`SteadyExactly` proves that over every interleaving the promise holds if and only if none
of them occurs. `SessionRules` proves that a completion is final and that every link was
granted to somebody; only the cache of a completed conversation can still be refilled, by
a transaction that began earlier (`LateFill`).

Two places where the documentation says something else than the code; the model
follows the code. `docs/task06-multi-item-procurement-model.md:40` lets a service item
explicitly require the warehouse, while `replace_request_items` refuses that
(`backend/app/services/procurement.py:104-105`). Line 37 there calls the item
structure frozen from review on; the structure is, but a manager may still change
name, quantity and unit of a single item during review
(`backend/app/services/procurement.py:322-327`), after its snapshot was taken.
`WitnessRuns.SnapshotDriftRun` reaches an approved round priced for another quantity
than the one bought; `SnapshotDrift` proves that no other command lets a snapshot and
its item differ, in any of the six copied fields, and says exactly when that edit does.

## Model

| member | source | states |
|---|---|---|
| Service.RequestStore.BumpVersion | backend/app/repositories/procurement.py:209-232 | updates the request row, moving its version by one, exactly when the expected version and an allowed status still stand |
| Service.RequestStore.ReplaceRequestItems | backend/app/services/procurement.py:70-168 | ends with the rows, descriptive columns included, or the error, that the specification of replace_request_items gives (ReplacementMeaning says what those rows are) |
| Service.RequestStore.WriteLines | backend/app/services/procurement.py:94-144 | the payload loop: the stored rows afterwards and the kept ids, or the first error in payload order |
| Service.RequestStore.SaveApplicantFields | backend/app/services/procurement.py:304-381 | the legacy header edit: who may edit in which status, the version check, the mirrored single item, the list of missing fields, or the specified error |
| Service.RequestStore.OpenReviewRound | backend/app/services/procurement.py:1221-1275 | the open round, found or created, with a snapshot of every active item that had none |
| Service.RequestStore.SaveReviewItems | backend/app/services/procurement.py:170-250 | the advice of every active item written to the open round, or the specified error; AdviceIsStored says what each row carries afterwards |
| Service.RequestStore.SaveReviewFields | backend/app/services/procurement.py:424-515 | the legacy single-item advice: supplier by name or id, derived total, descriptive columns, mirrored review item, the list of missing fields, or the specified error |
| Service.RequestStore.Move | backend/app/services/workflow.py:23-97 | the status change: token, actor, version, status and handler checks in that order, then the new status, handler, version and log entry |
| Service.RequestStore.SubmitForReview | backend/app/services/procurement.py:383-401 | submission and resubmission: complete items required, status change, notice to the named handler (HandlerIsTold) |
| Service.RequestStore.RejectWithReason | backend/app/services/procurement.py:403-422 | rejection: the round is closed as rejected with the reason, and the request goes back to the applicant |
| Service.RequestStore.ApproveForPurchase | backend/app/services/procurement.py:517-541 | approval: snapshot count check, round closed as approved, request handed to the purchaser, who is told (HandlerIsTold) |
| Service.RequestStore.SavePurchase | backend/app/services/procurement.py:576-700 | one item purchase: guards in order, supplier resolution, derived total, insert or allowed update, version, log entry |
| Service.RequestStore.SavePurchaseLegacy | backend/app/services/procurement.py:551-574 | the legacy purchase of a single-item request |
| Service.RequestStore.SubmitToWarehouse | backend/app/services/procurement.py:736-761 | all active items executed; on to the warehouse if one of them needs it, otherwise straight to COMPLETED, with the notices that HandlerIsTold and ParticipantsAreTold describe |
| Service.RequestStore.ReceiveGoods | backend/app/services/procurement.py:811-900 | one receipt: guards in order, over-receipt check, appended row, version, log entry |
| Service.RequestStore.ReceiveGoodsLegacy | backend/app/services/procurement.py:763-809 | the legacy receipt of a request with one warehouse item and one execution |
| Service.RequestStore.AllFulfilled | backend/app/services/procurement.py:902-922 | the fulfilment loop of complete: derives every active item (or raises) and then asks whether all warehouse items are fulfilled |
| Service.RequestStore.CompleteRequest | backend/app/services/procurement.py:902-926 | completion from the warehouse |
| Service.RequestStore.NotifyParticipants | backend/app/services/procurement.py:1277-1316 | completion notices to applicant, last reviewer and first purchaser, once each in ascending order, Feishu users only |
| Service.RequestStore.Handle | backend/app/db/session.py:20-23 | any call as one transaction: the rows afterwards are those of the specification, or on error exactly the rows before |
| Acceptance.AcceptedExactly | backend/app/services/procurement.py:70-926 | in every state with the invariant each of the fourteen commands is accepted if and only if nothing in its table of objections holds, and a refusal carries the code of an objection that holds |
| Acceptance.ReachableAcceptsExactly | backend/app/services/procurement.py:70-926 | so after every run from create_draft |
| Acceptance.CreatedExactly | backend/app/services/procurement.py:252-302 | a draft can be created exactly by an applicant of the building or an administrator who is one, and starts empty, at version 0, in the hands of the creator |
| MoveRefusals.MoveAccepted | backend/app/services/workflow.py:31-61 | an accepted status change has a fresh token, the right person, building, status and version, and a next handler who can take over |
| MoveRefusals.MoveRefused | backend/app/services/workflow.py:31-61 | a refused one lacks what its error code says |
| MoveRefusals.FinishExactly | backend/app/services/procurement.py:902-926 | completion is refused for missing fields exactly if an active warehouse item has not arrived in full |
| ReplaceRefusals.PayloadExactly | backend/app/services/procurement.py:94-144 | the payload loop passes if and only if no line has an unknown row, model or category, a SERVICE kind for the warehouse, or a number that differs from the stored one or repeats one of an earlier line, automatic numbers included |
| SaveRefusals.PurchaseExactly | backend/app/services/procurement.py:576-700 | a purchase is refused exactly for person, status, version, token, item, supplier, a second purchase or a wrong total, each under its own code |
| SaveRefusals.LegacyReceiptExactly | backend/app/services/procurement.py:763-809 | the legacy receipt needs one warehouse item, one execution, nothing received, and a remark when it is short |
| Acceptance.OfferedExactly | backend/app/services/procurement.py:1429-1461 | a save is offered exactly if neither person nor status speaks against it, except that a manager outside the building is offered a header edit |
| Money.RoundHalfEven | backend/app/services/procurement.py:615 | the result is the nearest cent, and the even one at a tie |
| Money.RoundingIsUnique | backend/app/services/procurement.py:615 | those two conditions determine the rounding |
| Money.SumWithinHalfCents | backend/app/services/procurement.py:615-655 | n rounded lines are within n half cents of the exact sum |
| Lifecycle.ReachableTotals | backend/app/services/procurement.py:576-700 | in every reachable request each execution total is the half-even rounding of quantity times price, also after re-saves, and the sum of n totals is within n half cents of exact |
| ItemReplacement.LinesLand | backend/app/services/procurement.py:94-144 | every payload line shows up in a row of its own, no stored item_no changes, and numbers within the payload stay distinct |
| ItemReplacement.AutomaticNumbers | backend/app/services/procurement.py:94-118 | an automatic number is above every number that existed before the line |
| ItemReplacement.ReplacementMeaning | backend/app/services/procurement.py:70-168 | afterwards exactly the payload lines are active, each in its own row, no row is deleted, unmentioned rows only lose their flag, no stored number changes, all numbers are distinct |
| ItemReplacement.UniqueIndexFiresExactly | backend/app/models/procurement.py:121 | when the loop passes, the unique index rejects the request if and only if a new line asks for the number of a stored row, active or not |
| RecordedFields.ReplaceHeader | backend/app/services/procurement.py:150-166 | a replacement changes only the submitted request type and asset in the header; the asset exists and is in the building unless an administrator calls |
| WitnessRuns.UniqueIndexFires | backend/app/services/procurement.py:104-168 | a run from create_draft to a draft whose only row numbered 1 is inactive, where one new line asking for number 1 meets the unique index |
| ItemInvariant.StepKeepsItems | backend/app/services/procurement.py:70-381 | every command keeps items well-formed, uniquely numbered, SERVICE items out of the warehouse, and a non-draft request with an active item |
| ItemInvariant.LegacyInsertNeverClashes | backend/app/services/procurement.py:353-373 | item_no 1 is free whenever the legacy path inserts, so it never meets the unique index |
| RecordedFields.HeaderIsPatched | backend/app/services/procurement.py:330-352 | a header edit writes exactly the submitted fields and columns and leaves the others |
| RecordedFields.ItemShowsHeader | backend/app/services/procurement.py:352-379 | once name, quantity and unit are filled in, the single active item shows the header, brand, model and reason included, and keeps its other fields; a first item is equipment for the warehouse with number 1 |
| MissingFields.NothingMissingExactly | backend/app/services/procurement.py:1175-1186 | after a legacy save that reports nothing missing, the completeness check of submission passes if and only if name and unit are more than blanks |
| MissingFields.RunKeepsQuantity | backend/app/schemas/procurement.py:30 | no run stores the quantity 0 in the header, so that lemma applies to every reachable request |
| MissingFields.HeaderListed | backend/app/services/procurement.py:1175-1178 | the header list names exactly the five required fields that are empty |
| MissingFields.AdviceListed | backend/app/services/procurement.py:1188-1197 | the review list names exactly the price, texts, supplier and contract type that are missing |
| MissingFields.NextMissing | backend/app/api/routes/procurement.py:109-117 | the next field to ask for is the first required one that is empty |
| MissingFields.NextAdvice | backend/app/services/procurement.py:1188-1197 | the same for the review fields |
| WitnessRuns.BlankNameRun | backend/app/services/procurement.py:1175-1186 | a concrete save with a blank name that reports nothing missing, after which every submission is refused |
| Effects.ExecEffects | backend/app/services/procurement.py:70-926 | what a successful command may touch: which tables, the version plus one, and either no log entry or one that records the move, its actor and the new handler |
| Commits.StepGrows | backend/app/services/procurement.py:70-926 | no command deletes a row of any table, and log, receipts and outbox only grow at the end |
| ReviewInvariant.StepKeepsRounds | backend/app/services/procurement.py:403-541 | rounds are numbered 1..n, only the last can be open and only in PENDING_REVIEW under its reviewer, closed rounds were rejected except that a decided request ends in an approved one |
| ReviewInvariant.StepKeepsSnapshots | backend/app/services/procurement.py:1248-1275 | a round lists each item once, an open round only active items, the approved round exactly the active items |
| ReviewInvariant.CountCheckNeverFires | backend/app/services/procurement.py:517-533 | the snapshot count check of submit_purchaser never fails in a reachable request |
| ReviewInvariant.AdviceEditsInPlace | backend/app/services/procurement.py:170-250 | when every advised item has its snapshot, save_review_items only edits rows and inserts none |
| ReviewAdvice.AdviceIsStored | backend/app/services/procurement.py:198-236 | after save_review_items the open round has exactly one row for each active item, carrying the last line about it: supplier id, that supplier name, unit price, columns, and the half-even total of quantity and price, absent without a price; rows of other rounds are unchanged |
| ReviewAdvice.AdvisedMeaning | backend/app/services/procurement.py:450-482 | the legacy advice: a name clears the supplier id, an id brings its name, a price fixes the total, submitted columns overwrite, everything else stays |
| ReviewAdvice.FieldsAreStored | backend/app/services/procurement.py:443-505 | after save_review_fields the open round carries that advice, its one row repeats it for the single active item, and all other rounds and rows are unchanged |
| ReviewAdvice.DecisionIsStored | backend/app/services/procurement.py:403-541 | a decision closes the last round with its verdict and the reason of a rejection; the advice in it and all earlier rounds stay |
| ReviewAdvice.RoundStartsBlank | backend/app/services/procurement.py:1221-1275 | a new round or snapshot has no advice and needs no contract |
| SnapshotDrift.StepKeepsMatch | backend/app/services/procurement.py:170-541 | every command except a header edit under review keeps each snapshot of the open or approved round equal to its item: quantity, kind, name, unit, brand and model |
| SnapshotDrift.EditBreaksMatchExactly | backend/app/services/procurement.py:304-381 | the manager header edit breaks that equality if and only if the open round lists the single active item, the edited header is complete, and it differs from the item in name, quantity, unit, brand or model |
| SnapshotDrift.RunKeepsMatch | backend/app/services/procurement.py:304-381 | any run from create_draft without such an edit ends with snapshots equal to their items |
| WitnessRuns.SnapshotDriftRun | backend/app/services/procurement.py:360-379 | a run from create_draft to an approved round whose only row shows another quantity than its item |
| FulfillmentInvariant.StepKeepsExecutions | backend/app/services/procurement.py:576-700 | executions exist from PURCHASING on, one per item at most, for active items, with the item quantity and the rounded total; past PURCHASING every active item has one |
| FulfillmentInvariant.StepKeepsReceipts | backend/app/services/procurement.py:811-926 | receipts exist from PENDING_WAREHOUSE on, only for warehouse items, never above the purchase; a completed request received everything |
| RecordedFields.ReceiptIsRecorded | backend/app/services/procurement.py:811-900 | a receipt adds one row by the caller with the named execution and quantity, and raises the received total of that execution alone |
| RecordedFields.StatusSays | backend/app/services/fulfillment.py:19-47 | in every reachable request the derived status of an item is the one whose description holds: inactive, not bought, nothing, some or all received |
| FulfillmentInvariant.CompletionCheckMeaning | backend/app/services/procurement.py:902-922 | the completion loop answers true exactly if every listed warehouse item derives as FULFILLED |
| FulfillmentInvariant.CompletedMeansFulfilled | backend/app/services/fulfillment.py:19-47 | in a completed request every active item has exactly one execution for its full quantity, warehouse items are fully received, and all derive as FULFILLED |
| FulfillmentInvariant.StatusNeverRaises | backend/app/services/fulfillment.py:24-41 | deriving an item status never raises in a reachable request |
| Lifecycle.StepKeepsInvariant | backend/app/services/procurement.py:70-926 | every command keeps the whole invariant |
| Lifecycle.ReachableOk | backend/app/services/procurement.py:70-926 | every state of every run satisfies the invariant |
| Lifecycle.CompletedRunIsFulfilled | backend/app/services/procurement.py:736-926 | a request that is COMPLETED after any run from create_draft, by either path, is fulfilled item by item |
| Lifecycle.RunAdvances | backend/app/services/fulfillment.py:59-72 | over any run executions keep item and quantity, receipts are only appended, received totals never fall and never exceed the purchase |
| Lifecycle.StatusOnlyAdvances | backend/app/services/fulfillment.py:19-47 | from the decision on, the derived status of an item only moves forward |
| Lifecycle.InvariantErrorsUnreachable | backend/app/services/fulfillment.py:24-72 | no command on a reachable request raises FULFILLMENT_INVARIANT_VIOLATION, and only replace_request_items can meet a table constraint |
| Timeline.StepKeepsTimeline | backend/app/repositories/records.py:118-146 | every command keeps the filtered log, in log order, a connected path ending at the status and handler of the request |
| Timeline.StepKeepsRejections | backend/app/services/procurement.py:403-422 | rejected rounds and REJECT log entries agree in order, person and reason |
| Timeline.RunTimeline | backend/app/repositories/records.py:118-146 | both hold after every run from create_draft |
| TimelineOrder.DisplayExactly | backend/app/repositories/records.py:130-145 | sorted by operated_at and log_id, the timeline is in log order if and only if its times ascend |
| TimelineOrder.StepKeepsOrderExactly | backend/app/services/workflow.py:50-82 | a command upsets that order if and only if it changes the status and reads a clock behind an entry already on the timeline |
| TimelineOrder.ShownInOrderExactly | backend/app/repositories/records.py:130-145 | over every run from create_draft the timeline is shown in the order of events if and only if the clocks advance |
| TimelineOrder.ShownIsPath | backend/app/repositories/records.py:120-146 | then what is shown is a connected path from the draft to the current status and handler |
| WitnessRuns.ClockTurnedBack | backend/app/repositories/records.py:137-140 | a run in which the submission is shown before the creation |
| Timeline.AcceptedExactlyWhenListed | backend/app/services/procurement.py:1429-1461 | a transition is accepted if and only if _allowed_actions lists it and token, version, building of a manager and next handler are in order |
| Timeline.SavesAreListed | backend/app/services/procurement.py:1429-1461 | a saving command succeeds only if _allowed_actions offers the matching save to the caller |
| Progress.StepUsesWork | backend/app/services/procurement.py:551-926 | after the decision every successful command except a legacy re-save of an executed item reduces the remaining work |
| Progress.RunsAreBounded | backend/app/services/procurement.py:551-926 | so such a run has at most as many turns as there is work |
| Liveness.NextStep | backend/app/domain/workflow.py:27-69 | every reachable request that is not completed and in the right hands has a successful next call that brings completion closer |
| Liveness.CompletionReachable | backend/app/domain/workflow.py:27-69 | from every reachable request in the right hands a finite run of successful calls ends in COMPLETED, given people to hand on to and a supplier to buy from |
| Liveness.UnstaffedNeverCompletes | backend/app/services/workflow.py:99-122 | conversely, a request whose holder lost the role or the building it needs keeps its status for ever under that directory |
| Liveness.GenuineRunsAreStaffed | backend/app/services/workflow.py:134-161 | under one directory every run from create_draft stays in the right hands |
| Liveness.SomeRequestCompletes | backend/app/domain/workflow.py:27-69 | a concrete directory and a concrete run from create_draft to COMPLETED: the assumptions can be met |
| SupplierChoice.PurchaseRecords | backend/app/services/procurement.py:576-700 | the item execution carries the submitted price and the rounded total of the full item quantity, a first purchase names the caller, no other execution changes; its supplier is blacklisted if and only if none was given by id and the last round names a blacklisted one |
| SupplierChoice.ByIdExactly | backend/app/services/procurement.py:709-721 | by id, exactly the active suppliers that are not blacklisted are accepted |
| SupplierChoice.ByNameExactly | backend/app/services/procurement.py:723-734 | by name, the call goes through if and only if the last round names somebody; the supplier is the active one of that name or a new one, blacklisted exactly when the name leads to a blacklisted one, and only that round is written |
| SupplierChoice.RunsAvoidBlacklist | backend/app/services/procurement.py:702-734 | over any run with one supplier table, if the last round names no blacklisted supplier, no execution uses one |
| WitnessRuns.BlacklistedRun | backend/app/services/procurement.py:723-734 | a run from create_draft that buys from a blacklisted supplier by name, and for another quantity than the approved one |
| DedupKeys.KeyInjective | backend/app/services/procurement.py:1290-1346 | the dedup key determines event, token and receiver, although tokens may contain colons |
| DedupKeys.CompletionNotesDistinct | backend/app/services/procurement.py:1277-1316 | one completion writes pairwise different outbox rows |
| DedupKeys.LegacyTokenInjective | backend/app/services/procurement.py:795-809 | the token of a legacy receipt determines request and version |
| Notices.HandlerIsTold | backend/app/services/procurement.py:1318-1346 | after a submission the request is with the person it names, and exactly if that person has a Feishu identity the outbox has one row more, for that person, with the token and the event of the new status |
| Notices.ParticipantsAreTold | backend/app/services/procurement.py:1277-1316 | by either path to completion the new rows are exactly one for each Feishu user among the applicant, the reviewer of the last round and the purchaser of the lowest item bought |
| Notices.OthersAreSilent | backend/app/services/procurement.py:403-422 | no other command writes to the outbox |
| Commits.SuccessPassesCas | backend/app/repositories/procurement.py:209-232 | a call that succeeds on a state would pass its own compare-and-set on it |
| Commits.OnlyTheTokenMatters | backend/app/services/workflow.py:31-32 | the operation log influences a call only through the question whether its token is already used |
| Transactions.MergeOntoSnapshot | backend/app/services/procurement.py:70-926 | writing back the changed columns and new rows onto unchanged rows gives the computed rows |
| Transactions.StepKeepsSystem | backend/app/repositories/workflow.py:69-101 | every begin, update, commit or abort of any transaction keeps the database equal to the serial replay of the commits |
| Transactions.Serializable | backend/app/db/session.py:8-23 | any interleaving ends in the database obtained by running the committed calls alone, one after another, in commit order |
| Histories.VersionCountsCommits | backend/app/repositories/procurement.py:209-232 | the version of a request is the number of its committed calls |
| Histories.AtMostOneCommitPerVersion | backend/app/repositories/workflow.py:69-101 | of the calls on one request, a later commit expected a strictly later version, so at most one commits per expected version |
| Histories.RetryIsRefused | backend/app/services/workflow.py:31-61 | repeating a committed call at any later time fails |
| Histories.HistoryKeepsKeys | backend/app/models/procurement.py:463 | action tokens are pairwise distinct in the whole operation log, across requests, and every outbox row carries a logged token |
| Histories.OutboxKeysUnique | backend/app/models/notification.py:35 | no two outbox rows share a dedup key |
| Histories.ConcurrentGuarantees | backend/app/repositories/workflow.py:69-101 | version count, at most one commit per version and key uniqueness hold after every interleaving |
| CandidatePool.BuildCandidates | backend/app/services/recommendation/candidate_builder.py:173-209 | grouping by supplier with loops and a dict gives one candidate per supplier in order of first appearance |
| CandidatePool.HardFilter | backend/app/services/recommendation/hard_filter.py:17-39 | splits the candidates, in order, into eligible ones and excluded ones with the first reason that applies |
| CandidatePool.RelaxTiers | backend/app/services/recommendation/service.py:156-174 | the loop returns the filtered pool of the tier where it stops |
| CandidatePool.CoreStable | backend/app/services/recommendation/candidate_builder.py:173-209 | looser evidence changes no field of a candidate except the counts of looser matches |
| CandidatePool.CoresGrow | backend/app/services/recommendation/candidate_builder.py:173-209 | relaxing a tier keeps all candidates in place and adds only ones that sort after them |
| CandidatePool.PoolPrefix | backend/app/services/recommendation/service.py:156-168 | the sorted, truncated pool of a tier is a prefix of that of every later tier |
| CandidatePool.EligiblePrefix | backend/app/services/recommendation/service.py:168-174 | no eligible supplier is dropped or reordered by relaxing |
| CandidatePool.LastTierIsAll | backend/app/services/recommendation/service.py:156-167 | after the last tier the sorted candidates are those of all matched evidence at once |
| CandidatePool.LoopRefinesOneShot | backend/app/services/recommendation/service.py:154-174 | the final pool is the top 20 of all evidence, or a prefix of it with at least 10 eligible; the loop stops at the first tier with 10 eligible or 20 pooled |
| CandidatePool.FilterPartitions | backend/app/services/recommendation/hard_filter.py:17-39 | eligible and excluded together are the pool; NO_EXECUTION_HISTORY never occurs |
| MatchTiers.LevelExactly | backend/app/services/recommendation/candidate_builder.py:38-63 | exactly the rows of the category match; the tier is EXACT_MODEL if both models are known and equal, else EXACT_SNAPSHOT if brand and model text are known and equal, else SAME_ITEM or SAME_CATEGORY by the name |
| MatchTiers.MatchedExactly | backend/app/services/recommendation/candidate_builder.py:93-121 | the matched rows are the rows of the category, in order, each with its tier and stale exactly if older than the window |
| MatchTiers.AgreementTightens | backend/app/services/recommendation/candidate_builder.py:38-63 | more agreement never gives a looser tier or a lower score, and an equal name beats a different one |
| MatchTiers.ScoresFall | backend/app/services/recommendation/types.py:23-28 | match scores fall strictly along the tiers: 100, 95, 80, 60 |
| MatchTiers.CandidateMeaning | backend/app/services/recommendation/candidate_builder.py:173-209 | a candidate shows all rows of its supplier at the tightest tier reached, speaks with the first of the latest of them, and its sets, warnings and reason follow from those rows |
| MatchTiers.CountsAddUp | backend/app/services/recommendation/candidate_builder.py:173-209 | the counts by tier are those of the rows and add up to the number of purchases |
| MatchTiers.PoolStands | backend/app/services/recommendation/service.py:158-167 | the pool stands by tier, then latest purchase, then supplier id |
| MatchTiers.StopsAtTen | backend/app/services/recommendation/service.py:158-174 | the pool never exceeds 20, and the loop goes on exactly while fewer than 10 are eligible and fewer than 20 pooled |
| SupplierRanking.Rank | backend/app/services/recommendation/supplier_ranker.py:27-104 | the imperative ranker returns the specified ranking |
| SupplierRanking.KeyIsStrictTotal | backend/app/services/recommendation/supplier_ranker.py:87-98 | the sort key is a strict total order on distinct suppliers |
| SupplierRanking.RankingIgnoresOrder | backend/app/services/recommendation/supplier_ranker.py:27-104 | the ranking depends on the set of candidates only, not on their order |
| SupplierRanking.RanksAreStandings | backend/app/services/recommendation/supplier_ranker.py:99-104 | ranks run 1..min(limit, 5, n), and a supplier is listed at the number of suppliers ahead of it, exactly if that is within the cut |
| SupplierRanking.ScoreIsConvex | backend/app/services/recommendation/supplier_ranker.py:63-85 | effective weights sum to 1 and the score is the weighted mean of the components |
| SupplierRanking.ScoreBounds | backend/app/services/recommendation/supplier_ranker.py:63-85 | scores never exceed 100, are above 28 when price or delivery counts, and at least 56 when neither does |
| SupplierRanking.RatiosAfterImprovement | backend/app/services/recommendation/supplier_ranker.py:45-62 | when one value is lowered, its ratio score does not fall and no other rises, although the shared minimum may change |
| SupplierRanking.NobodyOvertakes | backend/app/services/recommendation/supplier_ranker.py:45-98 | after a supplier lowers its median price or delivery time, nobody who was behind it is ahead |
| SupplierRanking.ImprovementNeverHurts | backend/app/services/recommendation/supplier_ranker.py:45-98 | so its standing does not worsen |
| SupplierRanking.ScalingKeepsStandings | backend/app/services/recommendation/supplier_ranker.py:45-98 | multiplying all prices by one positive factor changes no standing |
| SupplierRanking.ScalingKeepsScores | backend/app/services/recommendation/supplier_ranker.py:22-85 | multiplying all prices by one positive factor changes no score or breakdown |
| SupplierRanking.RankedByIsRanking | backend/app/services/recommendation/service.py:175-179 | with one feature record per candidate, the lookup by supplier finds the right one |
| RankingWeights.WeightsInRatio | backend/app/services/recommendation/supplier_ranker.py:63-85 | relevance, price, delivery and confidence weigh 4 : 3 : 2 : 1; a missing component weighs nothing and the others keep their ratio |
| RankingWeights.TradeOff | backend/app/services/recommendation/supplier_ranker.py:45-98 | with equal relevance and confidence the supplier with the larger 3 * price ratio + 2 * delivery ratio stands before the other |
| RankingWeights.CheaperBeatsFaster | backend/app/services/recommendation/supplier_ranker.py:63-98 | a concrete pair: a tenth cheaper stands before a tenth faster |
| RankingWeights.TieBreaks | backend/app/services/recommendation/supplier_ranker.py:87-98 | equal scores are decided by relevance, confidence, lower known price, shorter known delivery and supplier id, in this order |
| RankingWeights.RatioIsInverse | backend/app/services/recommendation/supplier_ranker.py:22-23 | the best value scores 100 and the score is inversely proportional to the value |
| RankingWeights.ConfidenceSteps | backend/app/services/recommendation/supplier_ranker.py:12-19 | confidence never falls with more evidence and steps up at exactly 2, 4 and 7 rows |
| Recommendation.Aggregate | backend/app/services/recommendation/feature_aggregator.py:13-54 | the loop gives the summary of a candidate: medians, extremes, latest price, last purchase, counts and warnings (SummaryMeaning says what they are) |
| Recommendation.MedianHalves | backend/app/services/recommendation/feature_aggregator.py:8-9 | at least half of the values are at most the median and at least half are at least the median, repeated values included |
| Recommendation.MedianIsMiddle | backend/app/services/recommendation/feature_aggregator.py:8-9 | however the values are put in ascending order, the median is the middle one or the mean of the two in the middle |
| Recommendation.SummaryMeaning | backend/app/services/recommendation/feature_aggregator.py:13-54 | medians are positive; the median price halves the price samples and lies between minimum and maximum, as the latest price does; prices are absent exactly without samples |
| RecommendationFacts.PricesAreSamples | backend/app/services/recommendation/feature_aggregator.py:15-19 | the price samples are the positive prices of the evidence, row by row |
| RecommendationFacts.DaysAreSamples | backend/app/services/recommendation/feature_aggregator.py:28-36 | the delivery samples are the days from purchase to receipt of the warehouse rows received later |
| RecommendationFacts.SummaryCounts | backend/app/services/recommendation/feature_aggregator.py:37-54 | sample counts, evidence count, purchases, last purchase and the two data warnings agree with the evidence |
| RecommendationFacts.LatestPriceIsLatest | backend/app/services/recommendation/feature_aggregator.py:20-27 | the latest price is that of the priced row bought last, the larger execution id deciding at the same time |
| Recommendation.RecommendSuppliers | backend/app/services/recommendation/service.py:131-185 | the whole call: errors in order (AnswersExactly), matching (MatchedExactly), pool, features, ranking |
| RecommendationFacts.AnswersExactly | backend/app/services/recommendation/service.py:131-153 | the call answers if and only if the item exists, a product is chosen or named by the item, and its category is that of the item; each error says which of these fails, and a chosen product takes precedence |
| RecommendationFacts.SelectionExactly | backend/app/services/recommendation/service.py:66-82 | an item names a product by its model, or by brand and model text together |
| RecommendationFacts.OfferSays | backend/app/services/recommendation/service.py:175-179 | the ranker is told the score of the tier, the medians and the amount of evidence of each eligible supplier |
| RecommendationFacts.ReportIsComplete | backend/app/services/recommendation/service.py:168-185 | everybody in the final pool who is inactive or blacklisted is listed as excluded, and of the others as many are recommended as the limit and five allow |
| Recommendation.RecommendationsAreEligible | backend/app/services/recommendation/service.py:131-185 | at most five suppliers are recommended, ranked from 1, all in the final pool, active and not blacklisted; every exclusion is one of the other two |
| Calendar.ExactlyMonthsEarlier | backend/app/services/recommendation/product_ranker.py:13-18 | months_before gives a valid date exactly that many months earlier, on the same day or the last day of a shorter month |
| Calendar.MonotoneOnDates | backend/app/services/recommendation/product_ranker.py:13-18 | it is monotone on dates |
| Calendar.StrictlyDecreasing | backend/app/services/recommendation/product_ranker.py:13-18 | it is strictly decreasing in the number of months |
| Calendar.LeapYears | backend/app/services/recommendation/product_ranker.py:13-18 | the length of February follows the Gregorian rule for centuries |
| Calendar.MonotoneUnlessClamped | backend/app/services/recommendation/product_ranker.py:17-18 | on datetimes the order is kept if and only if the two days are not cut to the same last day with the times of day in reverse |
| Calendar.NotMonotoneOnDatetimes | backend/app/services/recommendation/product_ranker.py:17-18 | two concrete datetimes whose order is reversed |
| Calendar.ScoreIsWindow | backend/app/services/recommendation/product_ranker.py:31-38 | the recency score says exactly which window the purchase falls in |
| Calendar.RecencyIsMonotone | backend/app/services/recommendation/product_ranker.py:31-38 | a later purchase never scores less |
| ProductHistory.RecentThreeWays | backend/app/services/recommendation/candidate_builder.py:133-148 | RECENT_HISTORY, "the latest row is not stale" and "recency score at least 60" coincide |
| ProductHistory.LabelsAreThresholds | backend/app/services/recommendation/candidate_builder.py:134-150 | STRONG_HISTORY, MULTIPLE_ACTIVE_SUPPLIERS and NO_ACTIVE_SUPPLIER are thresholds on the frequency and coverage scores |
| ProductHistory.ProductScoreBounds | backend/app/services/recommendation/product_ranker.py:60-69 | product scores lie between 44 and 100, and at least 65.5 with strong, recent, multi-supplier history |
| ProductHistory.ScoreInParts | backend/app/services/recommendation/product_ranker.py:60-69 | relevance, frequency, recency and coverage count 10 : 4 : 3 : 3 |
| ProductHistory.ScoresStep | backend/app/services/recommendation/product_ranker.py:21-47 | frequency steps up at 2, 4 and 7 purchases, coverage at 1, 2 and 3 suppliers |
| Outbox.DelaysGrow | backend/app/services/notifications.py:261-263 | retry delays are non-decreasing and capped |
| Outbox.UncappedTotal | backend/app/services/notifications.py:261-263 | below the cap, n delays sum to base * 2^n - base |
| Outbox.AttemptKeepsRow | backend/app/services/notifications.py:57-85 | an attempt keeps the row well-formed and the row is due again exactly after the full delay, or never when exhausted |
| Outbox.ClaimMeaning | backend/app/repositories/notifications.py:10-41 | claimed rows are due, free and distinct; a due free row stays behind only if the batch is full, and then all claimed rows are older |
| Outbox.OldestFirst | backend/app/repositories/notifications.py:10-41 | a claimed row was created before every due free row left behind, the smaller id deciding at the same time |
| Outbox.FreshIsDue | backend/app/services/procurement.py:1300-1346 | a new outbox row is well-formed, unsent and due at once |
| Outbox.BatchMeaning | backend/app/services/notifications.py:57-85 | a batch attempts each claimed row once and leaves the others alone |
| Outbox.NotificationStore.DispatchDue | backend/app/services/notifications.py:40-92 | dispatch_due leaves the rows of the batch specification; its counters count the sent, failed and exhausted rows; claimed = sent + failed and exhausted <= failed |
| Outbox.NotificationStore.DispatchOne | backend/app/services/notifications.py:103-153 | only administrators dispatch by hand, and only PENDING rows; the row is attempted once |
| Outbox.NotificationStore.Resend | backend/app/services/notifications.py:187-259 | an administrator re-queues a FAILED row of an existing request once per token: count and retry time cleared, one log row, errors in order |
| Outbox.RoundsDrain | backend/app/services/notifications.py:40-92 | dispatch past all retry times, repeated as often as attempts are left, makes every row SENT or exhausted |
| Outbox.FullRoundsDrain | backend/app/services/notifications.py:40-92 | with batches at least as large as the table, max_retries rounds are enough |
| OutboxWorkers.StepKeeps | backend/app/services/notifications.py:40-259 | every step of any worker keeps the invariant: disjoint holdings, views equal to the stored rows, counted attempts |
| OutboxWorkers.OutboxGuarantees | backend/app/repositories/notifications.py:10-53 | in every reachable state no row is held twice, each queueing had at most max_retries counted attempts, PENDING means none, FAILED lacks a retry time exactly when exhausted |
| OutboxWorkers.NobodyIsStranded | backend/app/repositories/notifications.py:22-32 | every unsent row is exhausted or due from its retry time on |
| OutboxWorkers.SendsOnlyUnsent | backend/app/repositories/notifications.py:10-41 | a send never goes to a row committed as SENT |
| OutboxWorkers.SentStays | backend/app/services/notifications.py:57-85 | a row committed as SENT never changes again |
| AgentSessions.SnapshotRoundTrip | backend/app/services/agent_sessions.py:331-415 | a stored state comes back complete, except that it names the current purchase request |
| AgentSessions.LegacySnapshot | backend/app/services/agent_sessions.py:352-364 | an old snapshot without collected_data restores its non-metadata keys as data |
| AgentSessions.MetadataIsWritten | backend/app/services/agent_sessions.py:352-364 | the keys that an old snapshot does not restore as data are exactly those a snapshot writes besides the data |
| SessionRules.SnapshotTells | backend/app/services/agent_sessions.py:378-415 | the snapshot row says why it was taken and is confirmed exactly for USER_CONFIRMED |
| AgentSessions.RunConsistent | backend/app/services/agent_sessions.py:199-310 | after any run of calls one at a time, refused ones and failed commits included, unless a save_state that names another request failed to commit: the snapshot rebuilds the state last snapshotted, under the request last written, which the cache names too |
| AgentSessions.LostCommitExactly | backend/app/services/agent_sessions.py:219-246 | a failed commit spoils that agreement if and only if it undoes a save_state that names another request |
| AgentSessions.UndoneLink | backend/app/services/agent_sessions.py:219-272 | a concrete such run, whose next snapshot writes the undone link |
| AgentSessions.RestoreAfterEviction | backend/app/services/agent_sessions.py:331-376 | after any such run and the loss of the cache the state is the last snapshotted one with the latest purchase_request_id, and it is cached again unchanged |
| AgentSessions.SnapshotThenRestore | backend/app/services/agent_sessions.py:248-272 | snapshot, loss of the cache and restore change nothing |
| ConcurrentSessions.SteadyExactly | backend/app/services/agent_sessions.py:199-310 | over every interleaving of locked writers and unlocked restores, cache, conversation and snapshot agree with the last committed writes, and a restored state is the last snapshotted one, all along if and only if there is no restore from changed rows, no write-back under another request than the stored one, no save_state of another request with a failed commit, and no snapshot written over changed columns |
| ConcurrentSessions.ConcurrentRestore | backend/app/services/agent_sessions.py:331-376 | so after every such interleaving the loss of the cache brings back the last snapshotted state under the request written last, and a restored cache entry is that state |
| ConcurrentSessions.FillKeepsExactly | backend/app/services/agent_sessions.py:331-376 | a restore keeps the promise if and only if the rows still say what they said when the transaction read them, a write-back if and only if it carries the request that the conversation row names |
| ConcurrentSessions.WriteKeepsExactly | backend/app/services/agent_sessions.py:219-310 | a locked write keeps it if and only if it is neither a failed save_state of another request nor a snapshot over changed columns |
| ConcurrentSessions.WrittenRebuilds | backend/app/services/agent_sessions.py:378-404 | an UPDATE of the changed columns rebuilds the intended state if and only if no column that repeats the loaded value has changed meanwhile |
| ConcurrentSessions.UndisturbedIsNeverSpoilt | backend/app/services/agent_sessions.py:199-310 | no such event occurs if writes that change a row meet no other open transaction and relinks commit |
| ConcurrentSessions.AloneIsAtomic | backend/app/services/agent_sessions.py:199-310 | transactions that nobody disturbs are atomic: the stores are those of a run of calls one at a time |
| ConcurrentSessions.StaleFill | backend/app/services/agent_sessions.py:199-272 | a restore after a miss overwrites a later save_state, and the next snapshot takes its link back |
| ConcurrentSessions.StaleHit | backend/app/services/agent_sessions.py:85-90 | so does the write-back of get_or_create_active after a hit |
| ConcurrentSessions.OlderSnapshot | backend/app/services/agent_sessions.py:248-272 | a save_snapshot that waits for the lock while another one commits and the cache expires restores the older row and loses the later snapshot |
| ConcurrentSessions.MixedSnapshot | backend/app/services/agent_sessions.py:248-272 | without any expiry, a save_snapshot that began before another one stores a mix of both states |
| AgentSessions.AgentSession.GetOrRestore | backend/app/services/agent_sessions.py:331-376 | cache hit, restore and re-cache, or SESSION_EXPIRED |
| AgentSessions.AgentSession.Perform | backend/app/services/agent_sessions.py:199-310 | each operation leaves cache, conversation and snapshot as specified; an error, also at commit, undoes the rows and not the cache; SessionRules says what a completion and a link mean |
| SessionRules.CompletionCloses | backend/app/services/agent_sessions.py:274-310 | a completion stores the state under the request it names, empties the cache and closes the conversation |
| SessionRules.CompletionIsFinal | backend/app/services/agent_sessions.py:440-442 | in every run, once a completion is committed all stores stay as it left them and every later call but an expiry fails with INVALID_SESSION_STATUS |
| SessionRules.ClosedForAll | backend/app/services/agent_sessions.py:274-310 | among concurrent transactions no event after it changes a row, takes the lock or writes |
| SessionRules.ClosedCacheExactly | backend/app/services/agent_sessions.py:331-376 | the cache stays empty if and only if no transaction that began earlier still fills it |
| SessionRules.NobodyLeft | backend/app/services/agent_sessions.py:274-310 | so if no earlier transaction is left, nothing changes at all any more |
| SessionRules.LateFill | backend/app/services/agent_sessions.py:85-90 | a late write-back that refills the cache of a completed conversation |
| SessionRules.LinksAreGranted | backend/app/services/agent_sessions.py:417-437 | over every run conversation and cache name only requests that a caller of save_state or complete was allowed to see |
| SessionRules.ConcurrentLinksAreGranted | backend/app/services/agent_sessions.py:417-437 | the same over every interleaving, for the open transactions too |
| SessionRules.LinkRefusedExactly | backend/app/services/agent_sessions.py:417-437 | a link is refused as unknown or as forbidden exactly if the request does not exist or may not be seen |

## Left out

- ReplaceRequestItems: which column names exist and how long their values are is left open; the columns are one map.
- SaveReviewItems: the source reads items ordered by item_no, the model by row; only the order of newly inserted review items depends on it.
- SavePurchase: the purchaser's identity snapshot and the profile columns copied into the supplier's row are not part of this model; the named supplier is looked up in `World`, so creating it there is not a change of the aggregate. A null proposed name makes the source raise an unhandled AttributeError, which is `InternalError` here.
- RunsAvoidBlacklist: the supplier table is fixed for the run, so a supplier blacklisted or created later counts as what it is in that table.
- CompletionReachable: the directory is fixed for the run and names a manager of the building, a purchaser, a warehouse manager and a supplier that is active and not blacklisted.
- DispatchDue: error texts, updated_at and log messages are not part of this model.
- DispatchOne: error texts and updated_at are not part of this model.
- Resend: the actor's identity and role snapshots, the reason text and the insert race on the token index (`Transactions` treats tokens logged elsewhere) are not part of this model.
- RecommendSuppliers: the report lists ranked offers and excluded cores, not the reply's formatting; brand, model and item names enter normalised, and the string functions of normalizer.py (upper-casing, aliases, separators) are not modelled; the history query itself is an input.
- Perform: access checks are a parameter; messages, TTL refresh and last_active_at are left out. JSON values of a wrong type are refused, while pydantic would coerce some of them.
- SteadyExactly: what save_state stores lives in Redis alone until a snapshot, so overwriting it under the same request counts as a loss of the cache, not as a broken promise. The employee lock that orders the get_or_create_active calls of one employee is left out, so more interleavings are covered than can occur; the row lock is held to the end, and reads without FOR UPDATE see the rows as of the beginning of the transaction.
- Serializable: the uncommitted reads of other isolation levels, lock timeouts and deadlock aborts beyond a nondeterministic abort are not distinguished. A conflicting insert of another unique index is not modelled separately: such transactions also fail the version check.
- AcceptedExactly: when several objections hold at once, which of their codes is reported is fixed by `Commands` alone; no lemma restates the order of the checks.
- RetryIsRefused: the error may be the version check or the token check, whichever the command reaches first.
- ReachableTotals: products are assumed to fit the 28 digits of Decimal.
- Row ids are numbered per request, not per table; the receipt query that locks the execution rows is a plain snapshot read here.
- ProductOf: the grouping of rows into products by key, and the final sort of ProductRanker, are left out; one group and its score are modelled on values.
- Calendar: time zones and Python's year range 1..9999 are not modelled.
- Identity resolution, the supplier and blacklist administration, asset queries, get_detail, list and visibility queries, HTTP routes, gateway signatures, agent adapters and the LLM runtime: no state of their own that the modelled rules depend on.
- String lengths, Unicode rules of strip and generated request numbers. A call reads its clock once, and local time is a number without time zone.
