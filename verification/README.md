# Proofs about the OCPP broker's relay core

The broker stands between an OCPP 1.6 charger and one or more backends. One backend leads and answers the charger; the
others follow: they get copies of what the charger says and are never heard. In OCPP 1.6 the backend numbers a transaction,
so the broker keeps a table that gives every backend its own numbers and the charger one stable number. This project
models that table and the machinery around it, and proves what holds over every run.

`dafny verify dfyconfig.toml` checks everything.

## How the model is built

Code that changes things in place is a class whose methods have the source's branches and loops, and each method's contract
gives its whole new state as a function of the old one (`ensures View() == ...`). Those functions are put together
into steps, the steps into runs, and the results are theorems about all runs. Clocks, randomness, the network and the
database enter as parameters and as outcomes of steps.

| files | what they model |
|---|---|
| `Ocpp`, `TableState`, `TableSteps` | frames; the table's state and its operations as functions; one step per event |
| `TransactionIdTable` | class `TransactionIdTable`: the same operations in place, each proved equal to its function |
| `TableInvariant`, `TableMoves` | what every step keeps; every step is a chain of small moves, which is the induction principle used below |
| `TableCopies`, `TableRuns`, `TableWaits` | followers get their own ids, in order, and a copy is held as long as it should be; since when a follower is waited for, and who is given up on at once |
| `TableRules`, `TableCopyLog` | what each party hears of a start, a quoted transaction and an answer, and when a record is forgotten, in terms of the records alone; answers to copies stay away from the charger |
| `TableAnswers`, `TableStarts`, `TableTranslation`, `TableTransparency` | one answer per start; a start leads to its record; the translations are inverse; a single leader's traffic is untouched |
| `TableRetries`, `TableCornerCase`, `TableDroppedRetry`, `TableLateAnswer`, `TableHolds` | retries that wait; a run that strands one; a run that drops one; an answer that comes too late; copies that wait and the timer that frees them |
| `IdSpaces`, `ObjectRules`, `ChargerObjects` | reservations and charging profiles; what the leader's and the broker's own commands make of them; and the charger that holds them |
| `SaveRestore` | stored records survive a restart |
| `Backends`, `LeaderRoles`, `LeaderPolls`, `ChargerSessions` | backend keys; who leads, over failovers, an operator's changes and fail-backs; how long a leader is waited for |
| `Outbox`, `Store`, `WriteBehindLanes` | store-and-forward; the replica writer; the write-behind lanes |
| `Events`, `Sse`, `Text` | the event bus and its resumable streams; the Server-Sent Events printer and reader |
| `SchemaForm`, `FailureThrottling` | the command form; the throttle on wrong API keys |

An event of the table's run is a frame from the charger, the leader or a follower, a promotion, a timer, a command of the
broker's own, a start the broker refused, or an idle check. Runs start from the empty table and the only general assumption is that the
followers of a charger frame are a dictionary (no key twice). What else a theorem assumes, it says itself:

- no backend gives one number to two starts the table holds (`ClashFree`), only where the translations are shown to be inverse;
- the charger does not use a start's message id twice (`UniqueStarts`, section 4.1.4 of OCPP-J 1.6), only for the retries;
- the leader of a frame is the one last named by a promotion and is not among the followers (`SessionRun`), and the clock never goes back,
  only for the hold timer and, with a single leader that never repeats a number and starts that are never repeated
  (`OneLeaderRun`), for transparency;
- one command outstanding at a time (section 4.1.1 of OCPP-J 1.6), nothing forgotten as too old, and no object kept that the broker itself asked the charger to
  remove (`InTurn`), only for the charger's objects.

The functions of the operations are checked against laws that do not use them: what a frame, an answer or a command leads to is said there in the
fields of the records before and after, with the OCPP actions and the limits written out (`TableRules`, `TableCopyLog`, `TableWaits`, `ObjectRules` for the
table; `Outbox.GivenUpExactly`, `Store.LostExactly`, `Events.CutOffExactly`, `FailureThrottling.RefusedOnlyForCause`, `LeaderRoles.WatchersExactly` and the like elsewhere).

## Where the code and what is said about it differ

- **A retry can be stranded.** A retried start may be made to wait for the new leader's answer to an observer copy
  (transaction_ids.py:282-288) whose message the table no longer tracks: when a second copy of the same start overflows the follower's queue, line 514 takes
  the follower out of `queued` although the first copy still waits there, and `_collect` forgets the start's messages. `TableCornerCase.ARetryCanBeStranded` is such a run,
  for all distinct names, every queue limit from 2 on and any `stale_start`; `TableRetries.AttemptsFoundExactly` shows that this is the only way: every outstanding attempt is found
  throughout a run if and only if no retry is ever parked on an untracked copy.
- **Retries are dropped unanswered** when the leader's result has no usable id: `_leader_started` discards the frames
  for them (transaction_ids.py:401). `TableRetries.StepRetries` says so exactly (`DropsRetries`), and
  `TableDroppedRetry.ARetryCanBeDropped` is such a run: a start, the same start again, and the leader's result.
- **`backend_keys` can give two backends one key**, though it promises it never does (transaction_ids.py:1128-1131): names
  "a", "a", "a#2" give "a", "a#2", "a#2". `Backends.KeysDifferExactly` gives the exact condition.
- **A leader an operator chose can be taken away by a fail-back** (docs/leader-follower.md:233 says it stays): the watcher that an
  earlier failover started keeps waiting. `LeaderRoles.OperatorsChoiceStands` gives the exact condition, and
  `LeaderRoles.AChoiceCanBeTakenBack` a run.
- **The loss of a leader can go unwatched**: if it is reported while the watcher of an earlier leader is still
  there, no failover is considered for that outage. `LeaderRoles.LossesAreWatched` gives the exact condition, and `LeaderRoles.ALossCanGoUnwatched` a run.
- **A late answer can repeat an id** that the charger holds for another transaction (docs/leader-follower.md:106 says it never holds one id for two): a result the
  table does not wait for is passed on as it came (transaction_ids.py:356). `TableAnswers.ForeignIdExactly` gives the exact condition and
  `TableLateAnswer.ALateAnswerCanRepeatAnId` a run: a promotion makes an attempt void, the old leader leads again, and answers the attempt.
- **A release can hit another backend's object.** A cancellation or clearing of an object that was not made through the broker is passed on
  unchanged (docs/leader-follower.md:127), and its number may be the charger's id for an object of another backend.
  `ChargerObjects.ReleasesLandExactly` gives the exact condition and `ChargerObjects.AReleaseCanHitAnother` a run.
- **A removal the charger refuses frees the id all the same.** The broker notes its own command before the charger answers it (session.py:340), so the
  table forgets the object (transaction_ids.py:864-866) although the charger may keep it, and the next backend's object can land on it.
  `ChargerObjects.BrokersCommandExactly` shows that this is the only command of the broker's own that does so, and
  `ChargerObjects.ARefusedRemovalFreesTheId` is such a run.
- **"Must stay unreachable"** (docs/troubleshooting.md:130): a leader that comes back and is lost again between two polls is given up on
  at the first deadline, because the watcher that is there keeps it (session.py:574). `LeaderPolls.FailoverWaits` gives the exact
  condition and `LeaderPolls.AReturnGoesUnseen` a run.
- **An integer with very many digits** is accepted by the form when the schema sets no bound on its side, and read as infinite
  (ui/src/schemaForm.ts:115-121), which JSON then sends as `null`: `SchemaForm.AnEndlessNumberGetsThrough`. What is sent meets the schema
  if and only if every integer typed is read as a number (`SchemaForm.WhatIsSentMeetsTheSchema`).
- **The transaction store needs `max_pending` of at least 1**: otherwise noting a change fails, because there is no oldest entry to drop
  (transaction_store.py:68-69), and nothing is ever stored (`Store.NothingWithoutRoom`).
- **A frame in the flush's hand is lost when the connection is closed** (backend_manager.py:343-365, 404-406): it counts as
  discarded in `Outbox.StoreAndForward`.

That a charger goes back to the configured leader only after an unbroken connection (docs/leader-follower.md:231) does hold, but not because of the watcher
alone: it looks at most a second apart, and a connection that broke is tried again after a second at the earliest (backend_manager.py:20), so every
break spans a look (`LeaderPolls.FailbackWaits`). `LeaderPolls.UnbrokenExactly` shows that the pause must not be shorter than the time between two
looks; for a shorter one `LeaderPolls.ABreakGoesUnseen` is a run that breaks the promise.

## Model

| member | source | states |
|---|---|---|
| `TableRuns.FollowersGetTheirOwnIdsInOrder` | src/ocpp_broker/transaction_ids.py:489-561 | over any run, the copies accepted for a follower are, in order, those settled (sent or skipped) followed by those still queued; the frames sent are exactly those of the settled ones; every MeterValues/StopTransaction among them quotes a number this follower itself issued for that very record; a StartTransaction carries no reservation id, or the one this follower gave the very reservation the charger quoted; a copy is skipped only when it quotes a transaction the table does not know, or one the follower has no number for and is not expected to number any more, or when the follower becomes the leader; and while a follower is awaited, for less than `follower_wait`, only its own answer, without a number, makes a copy of that transaction skipped; the wait begins when the start copy goes out and ends with a copy that is skipped |
| `TableWaits.WaitsAreTimed` | src/ocpp_broker/transaction_ids.py:541-556 | in every run, a wait is counted from the event in which the start copy went out, and nothing else starts or restarts it |
| `TableWaits.LostCopiesAreMarked` | src/ocpp_broker/transaction_ids.py:306-314 | no copy is lost in silence: a full queue, or a follower that is not connected, marks the follower as given up on for that very transaction |
| `TableRules.StartsReachTheLeaderExactly` | src/ocpp_broker/transaction_ids.py:263-314 | a start is sent to the leader if and only if deduplication is off, its start is unknown, or its record is none of these: answered; numbered by this leader while it followed, with no attempt outstanding; awaited from this leader on its copy, with no attempt outstanding; with an attempt outstanding for less than `stale_start`. Those are answered from the record, opened and answered, or joined to the end of the waiting list; and the leader is told the reservation id it goes by |
| `TableRules.QuotesReachTheLeader` | src/ocpp_broker/transaction_ids.py:217-261 | a MeterValues or StopTransaction of a known transaction that the leader has numbered reaches it under its own number, everything else as it is; the record counts as used, and is stopped, once, by a StopTransaction |
| `TableRules.RecordsForgottenExactly` | src/ocpp_broker/transaction_ids.py:679-694 | what the charger's id leads to is still found after an event unless a frame from the charger or an idle check finds it too old: stopped longer than `retain_closed` ago, or idle longer than `retain_open` |
| `TableRules.FollowersAreHeardByTheTableOnly` | src/ocpp_broker/transaction_ids.py:489-503 | a follower's answer is heard by nobody else; to a start that is tracked and that it is awaited for or has not numbered, its number and result are kept for that record and it is not given up on, or it is marked as having none; nothing else changes |
| `TableRules.LeadersNumberIsKept` | src/ocpp_broker/transaction_ids.py:396-427 | the leader's result for a pending start it was asked for opens the record, with that number for the leader, and for the charger the same number if it is free, and otherwise the one next to the largest in use, or the smallest free one beyond 31 bits |
| `TableRules.AFailedStartIsForgotten` | src/ocpp_broker/transaction_ids.py:446-457 | when the leader refuses a pending start, or gives no number, that attempt is over; after the last one no retry waits, and the start is forgotten exactly when nobody can still have it |
| `TableRules.AChangeOfLeaderVoidsStarts` | src/ocpp_broker/transaction_ids.py:592-610 | after a promotion no pending start has an attempt outstanding or a retry waiting; such a start is forgotten exactly when nobody can still have it; ids, answers and numbers stay; the new leader's queue is gone, with each record in it marked, and the other queues are untouched |
| `TableCopyLog.AnswersReachTheChargerExactly` | src/ocpp_broker/transaction_ids.py:325-356 | what the charger hears of a leader's answer, in each case: asked and pending, its result in the charger's id or its error, and the same for the retries; asked and answered before, the answer it got; not asked, nothing if it is the answer to a copy, and otherwise the answer as it is |
| `TableCopyLog.AnswersToCopiesAreSwallowed` | src/ocpp_broker/transaction_ids.py:345-355 | over any run: what a backend was sent as a copy while it followed, it may answer when it leads, and the charger hears nothing of it, unless the leader was asked under that message or more than 4096 copies were sent since |
| `TableCopyLog.StepLogged` | src/ocpp_broker/transaction_ids.py:563-567 | in every event the log loses exactly the copy that is answered, and then gains exactly those that are sent, in order, the newest 4096 |
| `TableRuns.RunSourced` | src/ocpp_broker/transaction_ids.py:412-444 | every number the table holds for a backend was issued by that backend, in an answer to a message that led to that very record and had brought its start, or in a command that made that reservation |
| `TableRuns.StepCopies` | src/ocpp_broker/transaction_ids.py:508-561 | one event settles a prefix of what a follower's queue held and was given, in order, and keeps the rest |
| `TableCopies.DrainSettles` | src/ocpp_broker/transaction_ids.py:520-561 | serving a queue settles a prefix of it, in order, with the frames it returns, and leaves the rest |
| `TableCopies.EnqueueSettles` | src/ocpp_broker/transaction_ids.py:508-518 | a copy joins the end of the queue and is served with it, or is skipped when the queue is full |
| `TableCopies.CopyToAllSettles` | src/ocpp_broker/transaction_ids.py:257-260 | copying one frame to all followers gives each its copy, and disturbs nobody else's queue |
| `TableInvariant.RunKeeps` | src/ocpp_broker/transaction_ids.py:197-205 | in every reachable state the four dictionaries agree with the records: an entry under a charger id, a start or a message leads to a record with that id, start or message |
| `TableInvariant.StepKeeps` | src/ocpp_broker/transaction_ids.py:217-360 | every event keeps that, and never changes a record's start or the id the charger holds for it |
| `TableInvariant.ChooseUnused` | src/ocpp_broker/transaction_ids.py:639-657 | an id the table picks for the charger is not one the charger holds |
| `TableState.FreeExists` | src/ocpp_broker/transaction_ids.py:652-657 | the search for a free number ends within as many steps as there are ids held, plus one (pigeonhole) |
| `TableMoves.StepByMoves` | src/ocpp_broker/transaction_ids.py:217-610 | what every small move keeps, every event keeps: each event is a chain of moves |
| `TableAnswers.HeldIdsAreDistinct` | src/ocpp_broker/transaction_ids.py:639-657 | records that the table can find in any way never share an id the charger holds |
| `TableAnswers.AnswersNeverChange` | src/ocpp_broker/transaction_ids.py:412-427 | once a record has an id and an answer it keeps both for the rest of the run |
| `TableAnswers.InventedIdFits` | src/ocpp_broker/transaction_ids.py:639-657 | the charger sees the leader's number exactly when it is free; an invented one is unused, fits 31 bits while fewer than 2^31-1 ids are held, and is the one next to the largest in use by the charger or any backend, or the smallest free one when that is too large |
| `TableAnswers.OneAnswerPerStart` | src/ocpp_broker/transaction_ids.py:263-356 | every StartTransaction result the table gives the charger (first answer, retry that waited, deduplicated retry, repeated answer) is the one answer of the record its message started, which the record still has at the end of the run; `ForeignIdExactly` is about results that are passed on as they came |
| `TableAnswers.ForeignIdExactly` | src/ocpp_broker/transaction_ids.py:325-356 | a leader's usable result makes the charger hear an id it holds for another transaction exactly when the table does not wait for it, so that it is passed on as it came, and it has such an id |
| `TableLateAnswer.ALateAnswerCanRepeatAnId` | src/ocpp_broker/transaction_ids.py:356 | five events after which a replaced leader that leads again gives the charger an id it holds for another transaction |
| `TableAnswers.StepAnswers` | src/ocpp_broker/transaction_ids.py:319-356 | in one event, every start result the charger hears is its record's answer or the leader's own frame that the table does not wait for |
| `TableAnswers.RunRetriesSourced` | src/ocpp_broker/transaction_ids.py:282-293 | every waiting retry is a start the charger sent, with the key of the record it waits on |
| `TableStarts.RunStartsFound` | src/ocpp_broker/transaction_ids.py:263-314 | with deduplication, in every reachable state a record that is found by the charger's id or by a message, and is not stopped, is the one its start leads to |
| `TableTranslation.TranslationsAreInverse` | src/ocpp_broker/transaction_ids.py:465-474 | for a held transaction and a backend with an id for it: a MeterValues or StopTransaction of the charger's quotes to that backend its own id, as leader or as follower, and that backend quoting it back in a RemoteStopTransaction, SetChargingProfile or RemoteStartTransaction reaches the charger's id, in every reachable state in which no backend numbered two starts alike |
| `TableTranslation.RunRegistered` | src/ocpp_broker/transaction_ids.py:412-444 | then every number of a record leads back to that record |
| `TableTranslation.ClashBreaksTheFirst` | src/ocpp_broker/transaction_ids.py:439 | the condition is needed: a number given twice makes the first record unreachable for that backend |
| `TableTransparency.TrafficIsUntouched` | src/ocpp_broker/transaction_ids.py:11-13 | with one leader that is never replaced, every frame from the charger reaches the leader as it was, every frame from the leader reaches the charger as it was, and neither gets any other frame |
| `TableTransparency.StepPassesOn` | src/ocpp_broker/transaction_ids.py:217-427 | one event passes on the input frame and nothing else, while the charger's ids are the leader's |
| `TableRetries.AttemptsFoundExactly` | src/ocpp_broker/transaction_ids.py:263-314 | throughout a run every outstanding attempt of a record the table can find is found by its message, if and only if no retry is parked on a copy that is not tracked |
| `TableRetries.StepFoundExactly` | src/ocpp_broker/transaction_ids.py:279-293 | one event keeps that exactly unless it parks such a retry |
| `TableRetries.RetriesAreConserved` | src/ocpp_broker/transaction_ids.py:289-293 | the retries made to wait on a record are those whose wait ended, in the order they began, followed by those still waiting |
| `TableRetries.StepRetries` | src/ocpp_broker/transaction_ids.py:396-457 | one event adds at most one waiting retry; if the wait ends, all are answered together and in order, with the result or the last attempt's error, or all are dropped (leader change, or a leader's result without a usable id) |
| `TableDroppedRetry.ARetryCanBeDropped` | src/ocpp_broker/transaction_ids.py:396-410 | whatever the names: a start, the same start again, which waits, then a result without a usable id, which the charger is told as the answer to the first message only, and after which nothing waits |
| `TableRetries.NoRetryIsStranded` | src/ocpp_broker/transaction_ids.py:396-410 | in a run that never parks on an untracked copy, a record with waiting retries is pending and has an outstanding attempt whose answer is recognised, and the leader's result for it is repeated to every one of them in order |
| `TableRetries.RunWaits` | src/ocpp_broker/transaction_ids.py:282-293 | in every reachable state a record with waiting retries is pending and has an attempt outstanding |
| `TableCornerCase.ARetryCanBeStranded` | src/ocpp_broker/transaction_ids.py:282-310 | for every queue limit from 2 on and any `stale_start`: a run after which a retry waits for an answer that, when it comes, is swallowed |
| `TableHolds.NoWakeUpIsLost` | src/ocpp_broker/transaction_ids.py:569-587 | the timer has a due time exactly when some copy waits, at most `follower_wait` away; when it fires no earlier than that, a queue loses its head |
| `TableHolds.RunGuards` | src/ocpp_broker/transaction_ids.py:520-561 | in every reachable state of a session a queue that is not empty is headed by a copy that waits for its follower's answer |
| `TableHolds.DrainGuards` | src/ocpp_broker/transaction_ids.py:520-561 | serving a queue restores that, however it was left |
| `TableHolds.ExpiryRemovesHead` | src/ocpp_broker/transaction_ids.py:569-574 | a queue whose head is due loses it, in whatever order queues are served |
| `IdSpaces.RunSpacesOk` | src/ocpp_broker/transaction_ids.py:725-787 | in every reachable state the charger's ids and the backends' numbers for reservations and profiles lead to one object each and agree with it |
| `IdSpaces.ReleaseOk` | src/ocpp_broker/transaction_ids.py:780-787 | a release takes away exactly the entries that lead to the released object, however late it comes |
| `IdSpaces.FreshUnused` | src/ocpp_broker/transaction_ids.py:772-778 | an invented reservation or profile id is not one the charger holds, and is the one next to the largest in use in that space, or the smallest free one when that is too large |
| `ObjectRules.CommandsReachTheCharger` | src/ocpp_broker/transaction_ids.py:362-394 | what the charger reads of a leader's command: the transaction it names, in RemoteStopTransaction, SetChargingProfile and RemoteStartTransaction, under the charger's id where the table knows it; an object it makes, under the id of its own object of that number, else under its number if the charger holds none under it, else under an invented id; an object it removes, under the charger's id if known; the rest as it is |
| `ObjectRules.ObjectsForgottenExactly` | src/ocpp_broker/transaction_ids.py:695-703 | an object is forgotten exactly when a frame or check finds it lapsed or unused for too long, when the charger refuses the command that made it or accepts the one that removes it, or when the broker itself removes it |
| `ObjectRules.BrokerTakesItsId` | src/ocpp_broker/transaction_ids.py:758-770 | the broker's own command that makes an object takes its id, for the end it has |
| `ObjectRules.TakenIdsAreAvoided` | src/ocpp_broker/transaction_ids.py:728-756 | as long as an id is taken, no leader's new object reaches the charger under it |
| `ChargerObjects.NoObjectIsOverwritten` | src/ocpp_broker/transaction_ids.py:362-394 | with one command outstanding at a time, every object the charger holds is recorded for the backend that made it, or is the broker's own, and a leader's assignment lands on that leader's own object or on a free id, never on the broker's |
| `ChargerObjects.BrokersCommandExactly` | src/ocpp_broker/transaction_ids.py:849-866 | after a command of the broker's own, what the charger holds is still recorded for its makers if and only if the charger did not refuse to remove an object it holds |
| `ChargerObjects.ARefusedRemovalFreesTheId` | src/ocpp_broker/transaction_ids.py:864-866 | a run in which the broker's removal is refused, after which another backend's object lands on the one that the charger kept |
| `ChargerObjects.ReleasesLandExactly` | src/ocpp_broker/transaction_ids.py:384-390 | a leader's release reaches its own object by that number (or one that the broker put in its place) exactly if the table knows one; otherwise the charger reads the number as it is, and what it holds under it is not that object |
| `ChargerObjects.AReleaseCanHitAnother` | src/ocpp_broker/transaction_ids.py:385-387 | a run in which a cancellation by a new leader removes another backend's reservation |
| `ChargerObjects.RunInStep` | src/ocpp_broker/transaction_ids.py:789-805 | table and charger stay in step, through refusals and late answers |
| `SaveRestore.SaveAndRestore` | src/ocpp_broker/transaction_ids.py:943-1047 | exporting the records worth keeping and restoring them into an empty table, before anything expires, preserves ids, answers, state and all three ages, hence both translations; the start of every transaction not stopped leads to its restored record |
| `SaveRestore.RepeatedAfterRestore` | src/ocpp_broker/transaction_ids.py:263-279 | an open transaction's start, repeated after the restore under any leader and message, gets the answer the charger was given before, and goes to no backend |
| `SaveRestore.SkippedWhenForgotten` | src/ocpp_broker/transaction_ids.py:1000-1006 | with both clocks advanced alike, a closed record is skipped on restore exactly when pruning would have forgotten it |
| `SaveRestore.RestoreKeeps` | src/ocpp_broker/transaction_ids.py:977-1047 | whatever documents are loaded, the table keeps its invariant and the records it had |
| `SaveRestore.ObjectsSurvive` | src/ocpp_broker/transaction_ids.py:891-920 | stored reservations and profiles come back with their id, owner, numbers and end, one-to-one |
| `SaveRestore.TakenInExactly` | src/ocpp_broker/transaction_ids.py:997-1047 | a document becomes a record exactly when it has not expired and the table has none under its id: with the numbers and results of the backends that are still configured, its age, found by the charger's id, by those numbers and, unless stopped, by its start; nothing else changes |
| `SaveRestore.ObjectTakenInExactly` | src/ocpp_broker/transaction_ids.py:891-920 | the same for a stored reservation or profile |
| `SaveRestore.KindsLoadApart` | src/ocpp_broker/transaction_ids.py:985-995 | documents of both kinds, mixed in any order, load as each kind alone would |
| `IdTable.TransactionIdTable.constructor` | src/ocpp_broker/transaction_ids.py:197-212 | a new table is the empty one |
| `IdTable.TransactionIdTable.Fresh` | src/ocpp_broker/transaction_ids.py:652-657 | one more than the largest number known, or, beyond 31 bits, the smallest number the charger does not hold |
| `IdTable.TransactionIdTable.Choose` | src/ocpp_broker/transaction_ids.py:639-650 | the leader's number if it is free, else an invented one |
| `IdTable.TransactionIdTable.Collect` | src/ocpp_broker/transaction_ids.py:668-677 | message bookkeeping goes once nothing is outstanding, and the start of a dead record with it |
| `IdTable.TransactionIdTable.Forget` | src/ocpp_broker/transaction_ids.py:705-715 | every entry of every dictionary that leads to the record goes, and no other |
| `IdTable.TransactionIdTable.Prune` | src/ocpp_broker/transaction_ids.py:679-703 | exactly the records and objects that are too old are gone |
| `IdTable.TransactionIdTable.PruneHeld` | src/ocpp_broker/transaction_ids.py:681-690 | stopped records kept long enough and idle open ones are gone |
| `IdTable.TransactionIdTable.PruneStarts` | src/ocpp_broker/transaction_ids.py:691-694 | starts nobody answered are gone |
| `IdTable.TransactionIdTable.PruneObjects` | src/ocpp_broker/transaction_ids.py:695-703 | lapsed reservations and unused objects are gone |
| `IdTable.TransactionIdTable.IsIdle` | src/ocpp_broker/transaction_ids.py:1049-1058 | true exactly when, after pruning, nothing is held, started, tracked, queued or kept in a space |
| `IdTable.TransactionIdTable.StartFrame` | src/ocpp_broker/transaction_ids.py:820-847 | the backend's own reservation id, or none it did not make; the reservation counts as used |
| `IdTable.TransactionIdTable.FrameForLeader` | src/ocpp_broker/transaction_ids.py:615-637 | the leader's own id where it has one, else the frame as it is and the leader noted as without an id |
| `IdTable.TransactionIdTable.NoteCopy` | src/ocpp_broker/transaction_ids.py:563-567 | the copy joins the log; the oldest entries make room |
| `IdTable.TransactionIdTable.ServeHead` | src/ocpp_broker/transaction_ids.py:525-560 | the head is sent, skipped or kept waiting, with the record's notes changed to match |
| `IdTable.TransactionIdTable.Drain` | src/ocpp_broker/transaction_ids.py:520-561 | the loop over the queue equals serving head after head until one has to wait |
| `IdTable.TransactionIdTable.Enqueue` | src/ocpp_broker/transaction_ids.py:508-518 | a full queue refuses the copy and marks the record; otherwise it joins and the queue is served |
| `IdTable.TransactionIdTable.CopyToFollowers` | src/ocpp_broker/transaction_ids.py:257-260 | each ready follower is given the copy, in order |
| `IdTable.TransactionIdTable.CopyStartTo` | src/ocpp_broker/transaction_ids.py:306-313 | a follower that has the start is skipped, one that is not ready is marked, the others get the copy |
| `IdTable.TransactionIdTable.CopyStartToFollowers` | src/ocpp_broker/transaction_ids.py:306-313 | the same for every follower, in order |
| `IdTable.TransactionIdTable.Open` | src/ocpp_broker/transaction_ids.py:412-427 | the record opens with the chosen id, the leader's number and the one answer, and both dictionaries lead to it |
| `IdTable.TransactionIdTable.Learn` | src/ocpp_broker/transaction_ids.py:429-444 | the follower's number and result are recorded, or the record is marked; it no longer awaits that follower |
| `IdTable.TransactionIdTable.AttemptFailed` | src/ocpp_broker/transaction_ids.py:446-457 | the attempt is over; if it was the last, every waiting retry is given the error, in order |
| `IdTable.TransactionIdTable.Close` | src/ocpp_broker/transaction_ids.py:662-666 | the record is closed and no longer found by its start |
| `IdTable.TransactionIdTable.Attempt` | src/ocpp_broker/transaction_ids.py:295-303 | a new or known record gets one more tracked attempt |
| `IdTable.TransactionIdTable.ChargerStart` | src/ocpp_broker/transaction_ids.py:263-314 | answered from the record, parked on the outstanding attempt or copy, or forwarded: the five cases of a start |
| `IdTable.TransactionIdTable.ForwardStart` | src/ocpp_broker/transaction_ids.py:295-314 | the start goes to the leader in its own reservation id, with a copy for each follower without one |
| `IdTable.TransactionIdTable.QuoteTransaction` | src/ocpp_broker/transaction_ids.py:242-253 | the leader's frame in its own id; a StopTransaction closes the record |
| `IdTable.TransactionIdTable.ChargerCall` | src/ocpp_broker/transaction_ids.py:238-261 | what goes to the leader and what to each follower |
| `IdTable.TransactionIdTable.FromCharger` | src/ocpp_broker/transaction_ids.py:217-261 | the whole plan for one charger frame, answers included |
| `IdTable.TransactionIdTable.ReverseId` | src/ocpp_broker/transaction_ids.py:465-474 | the charger's id of the record the number leads to, if any |
| `IdTable.TransactionIdTable.LeaderCall` | src/ocpp_broker/transaction_ids.py:362-394 | the transaction id and the object id put in the charger's terms, and the answer expected |
| `IdTable.TransactionIdTable.LeaderStarted` | src/ocpp_broker/transaction_ids.py:396-410 | the record opens and every waiting retry gets the same answer; a result without an id fails the attempt |
| `IdTable.TransactionIdTable.LeaderAnswer` | src/ocpp_broker/transaction_ids.py:325-356 | an owed answer, an answer to what it was sent while it followed (swallowed), or a frame passed on |
| `IdTable.TransactionIdTable.FromLeader` | src/ocpp_broker/transaction_ids.py:319-360 | the whole plan for one leader frame |
| `IdTable.TransactionIdTable.StartFailed` | src/ocpp_broker/transaction_ids.py:476-484 | errors for the retries that waited on a start the broker refused |
| `IdTable.TransactionIdTable.FromFollower` | src/ocpp_broker/transaction_ids.py:489-503 | the follower's answer is learned and its queue served |
| `IdTable.TransactionIdTable.ExpireHolds` | src/ocpp_broker/transaction_ids.py:569-574 | every queue is served once, in the dictionary's order |
| `IdTable.TransactionIdTable.NextExpiryIn` | src/ocpp_broker/transaction_ids.py:576-587 | the earliest due time of a waiting head, never negative, or none |
| `IdTable.TransactionIdTable.LeaderGaveUp` | src/ocpp_broker/transaction_ids.py:459-463 | attempts and retries of the record are void |
| `IdTable.TransactionIdTable.VoidStarts` | src/ocpp_broker/transaction_ids.py:601-603 | exactly the pending starts with an attempt outstanding are void |
| `IdTable.TransactionIdTable.DropQueueOf` | src/ocpp_broker/transaction_ids.py:604-610 | the promoted follower's queue is dropped and its records marked |
| `IdTable.TransactionIdTable.LeaderChanged` | src/ocpp_broker/transaction_ids.py:592-610 | both, for a promotion |
| `IdTable.TransactionIdTable.SpaceFresh` | src/ocpp_broker/transaction_ids.py:772-778 | one more than the largest number in the space, or the smallest free one |
| `IdTable.TransactionIdTable.SpaceAssign` | src/ocpp_broker/transaction_ids.py:728-756 | the backend's own object again, or a new one under its number or an invented one |
| `IdTable.TransactionIdTable.SpaceOccupy` | src/ocpp_broker/transaction_ids.py:758-770 | an id given by the broker itself is taken |
| `IdTable.TransactionIdTable.SpaceRelease` | src/ocpp_broker/transaction_ids.py:780-787 | the entries that still lead to the object go |
| `IdTable.TransactionIdTable.ExpectReply` | src/ocpp_broker/transaction_ids.py:789-792 | the command joins the log; the oldest entries make room |
| `IdTable.TransactionIdTable.SettleReply` | src/ocpp_broker/transaction_ids.py:794-805 | a refused new object and an accepted release are released; nothing else is |
| `IdTable.TransactionIdTable.NoteCommand` | src/ocpp_broker/transaction_ids.py:849-866 | the broker's own command takes or frees the id |
| `IdTable.TransactionIdTable.ImportTx` | src/ocpp_broker/transaction_ids.py:997-1047 | one stored record: skipped when expired or known, else loaded and indexed |
| `IdTable.TransactionIdTable.ImportSpace` | src/ocpp_broker/transaction_ids.py:891-920 | one stored object: skipped when lapsed or known, else loaded and indexed |
| `IdTable.TransactionIdTable.Restore` | src/ocpp_broker/transaction_ids.py:977-995 | all documents are loaded in order, and the count is exactly that of the records and objects the table has gained |
| `Backends.BackendKeys` | src/ocpp_broker/transaction_ids.py:1127-1138 | the counting loop gives each backend its name, followed by its number among those with the same name from the second on |
| `Backends.KeysDifferExactly` | src/ocpp_broker/transaction_ids.py:1127-1138 | all keys differ if and only if no backend's name is another's name followed by "#" and a number from 2 to how often that one occurs |
| `Backends.KeysCanCollide` | src/ocpp_broker/transaction_ids.py:1127-1138 | names "a", "a", "a#2" give two backends the key "a#2" |
| `Backends.FirstKeepsItsName` | src/ocpp_broker/transaction_ids.py:1127-1138 | a backend's key is its id, or else its address, or else its kind, exactly when no earlier backend is called the same |
| `Backends.LeaderIndex` | src/ocpp_broker/transaction_ids.py:1113-1124 | the first one marked; if none is, the first local one unless it is marked as a follower; else the first one not marked as a follower; and the very first if all are |
| `Backends.FirstLocal` | src/ocpp_broker/transaction_ids.py:1105-1110 | the first local backend, or none |
| `LeaderRoles.OneLeader` | src/ocpp_broker/session.py:577-692 | over any sequence of failovers, operator's changes, fail-backs, breaks of links and closing: the assertion in `_promote` never fails; leader and followers are all the backends, each once; only the leader has `is_leader`, a buffer and a way to answer for frames; the mode is BROKER exactly when the leader is the local backend; at most one backend is ever heard |
| `LeaderRoles.FirstRolesExactly` | src/ocpp_broker/session.py:396-454 | whoever is configured to lead leads at first, an external one with the configured buffer and answering for what it cannot deliver; the others follow, and only local ones are ready at once |
| `LeaderRoles.FailoverExactly` | src/ocpp_broker/session.py:577-599 | a look changes the leader if and only if the lost leader is still down at the deadline and a follower is ready; then the first ready one leads, and the old leader follows last |
| `LeaderRoles.FailbackExactly` | src/ocpp_broker/session.py:672-692 | a look gives the charger back if and only if the configured leader follows, is connected and has been seen so for the delay; the count begins at the first look that finds it connected and starts over at each that does not |
| `LeaderRoles.ChoiceExactly` | src/ocpp_broker/session.py:601-615 | an operator's choice takes effect if and only if the session is open, the named backend is a follower and ready; otherwise the refusal is the first that applies |
| `LeaderRoles.WatchersExactly` | src/ocpp_broker/session.py:568-575 | a lost leader begins to be waited for exactly when its loss is first reported, with followers and no watcher, for the configured timeout; the configured leader begins to be looked for exactly after a failover to another backend with fail-back configured |
| `LeaderRoles.PromotedOk` | src/ocpp_broker/session.py:617-670 | a change of roles keeps all that |
| `LeaderRoles.ConnectedOk` | src/ocpp_broker/session.py:403-422 | the first roles have it |
| `LeaderRoles.OperatorsChoiceStands` | src/ocpp_broker/session.py:601-692 | a leader an operator chose stays, whatever links and fail-back polls do, if and only if no watcher still waits for another configured leader that can come back |
| `LeaderRoles.AChoiceCanBeTakenBack` | src/ocpp_broker/session.py:668-692 | a run after which an operator's choice will be taken back |
| `LeaderRoles.LossesAreWatched` | src/ocpp_broker/session.py:568-599 | the loss of the current leader is always waited on, if and only if it is never reported while a watcher waits for an earlier leader |
| `LeaderRoles.ALossCanGoUnwatched` | src/ocpp_broker/session.py:568-599 | a run after which the lost leader is waited on by nobody, at any later poll |
| `LeaderPolls.FailbackWaits` | src/ocpp_broker/session.py:672-692 | if a connection is never tried again sooner than the watcher looks, then the configured leader has been connected without a break since a poll at least the delay ago when the charger is given back |
| `LeaderPolls.UnbrokenExactly` | src/ocpp_broker/session.py:674-690 | for two backends: that holds in every paced run if and only if the pause before a reconnect is not shorter than the time between two looks |
| `LeaderPolls.UnbrokenAsShipped` | src/ocpp_broker/backend_manager.py:20 | with the shipped pause of a second it holds for every delay |
| `LeaderPolls.BreaksAreSeen` | src/ocpp_broker/session.py:681-687 | a look falls into every break of the configured leader's link while its time is counted |
| `LeaderPolls.ABreakGoesUnseen` | src/ocpp_broker/session.py:681-690 | with a shorter pause: a paced run, looking once per period, after which the charger is given back although the link has not been there for the delay |
| `LeaderPolls.WaitCounts` | src/ocpp_broker/session.py:678-690 | the time counted so far began at a poll since which every poll found it connected |
| `LeaderPolls.FailoverWaits` | src/ocpp_broker/session.py:568-599 | when a follower takes over from a lost leader, the loss was reported at least the timeout ago and every poll since found the leader down; it was down all that time if and only if its link never came back and was lost again between two polls |
| `LeaderPolls.AReturnGoesUnseen` | src/ocpp_broker/session.py:568-586 | runs, with any number of looks before and after, in which a leader that came back and was lost again between two looks is given up on at the first deadline |
| `LeaderPolls.WatchCounts` | src/ocpp_broker/session.py:568-582 | a loss that is waited on was reported when its deadline was set, and every poll since found that leader down |
| `LeaderPolls.SteadyExactly` | src/ocpp_broker/session.py:577-692 | a link that every poll found as it was waited for was so all the time if and only if it did not turn and turn back between two polls |
| `ChargerSessions.ChargerSession.constructor` | src/ocpp_broker/session.py:77-89 | the mode before anything connects |
| `ChargerSessions.ChargerSession.Connect` | src/ocpp_broker/session.py:396-454 | one connection per backend with its key and first role, the leader's first |
| `ChargerSessions.ChargerSession.Promote` | src/ocpp_broker/session.py:617-670 | from a leader and one of its followers: the roles, the followers' order, the mode, the charge point and the fail-back watcher afterwards |
| `ChargerSessions.ChargerSession.Others` | src/ocpp_broker/session.py:651 | the followers without the new leader, in order |
| `ChargerSessions.ChargerSession.WatchLeader` | src/ocpp_broker/session.py:577-599 | one look at a lost leader: over, too early, or the first ready follower is promoted; the assertion holds |
| `ChargerSessions.ChargerSession.FirstReady` | src/ocpp_broker/session.py:589 | the first follower to which frames can be written |
| `ChargerSessions.ChargerSession.PromoteTo` | src/ocpp_broker/session.py:601-615 | the refusal, in the source's order of reasons, or the change; the assertion holds |
| `ChargerSessions.ChargerSession.FirstWithKey` | src/ocpp_broker/session.py:610 | the first follower with the key |
| `ChargerSessions.ChargerSession.WatchPreferred` | src/ocpp_broker/session.py:672-692 | one look for the configured leader: over, down, counting, or given back; the assertion holds |
| `ChargerSessions.ChargerSession.OnLinkLost` | src/ocpp_broker/session.py:568-575 | the loss is reported once per outage, and watched if it is the leader's and a follower could take over |
| `ChargerSessions.ChargerSession.CloseSession` | src/ocpp_broker/session.py:198-207 | both watchers are cancelled at once |
| `ChargerSessions.ChargerSession.CloseLeader` | src/ocpp_broker/session.py:222-225 | the leader is gone |
| `ChargerSessions.ChargerSession.CloseFollowers` | src/ocpp_broker/session.py:227-229 | the followers are gone |
| `ChargerSessions.ChargerSession.Forwards` | src/ocpp_broker/broker.py:429-448 | a backend's frame is passed on to the charger exactly if it leads |
| `ChargerSessions.ChargerSession.OnLinkUp` | src/ocpp_broker/backend_manager.py:213-222 | frames can be written, and a loss may be reported again |
| `Events.ResumeIsExact` | src/ocpp_broker/events_api.py:70-90 | a resumed stream that missed nothing delivers, under any interleaving, a gap-free, strictly increasing prefix of all matching events after the client's last id, and all of them once it has caught up, unless it was cut off or shut down |
| `Events.ChainsConcatenate` | src/ocpp_broker/events_api.py:70-90 | a client that reconnects any number of times on one growing bus, each time with the last id it was sent, under any interleaving, and is never told it missed something, was sent a gap-free prefix of all matching events without repetition, and what remains is what the next stream has to deliver |
| `Events.MissedExactly` | src/ocpp_broker/events.py:181-183 | `missed` exactly when an event after the id was forgotten, or the bus has not given out that id yet |
| `Events.RemembersTheNewest` | src/ocpp_broker/events.py:116-138 | over any run the history is the newest `history` of all events published |
| `Events.OpenedRemembers` | src/ocpp_broker/events_api.py:70-78 | a stream opened on a bus that remembers the newest of its events does so too, with its sizes |
| `Events.CutOffExactly` | src/ocpp_broker/events.py:121-134 | a listener is cut off if and only if an event it asked for comes while `queue_size` items are unread |
| `Events.MatchingAre` | src/ocpp_broker/events.py:59-63 | what a filter lets through are exactly the events of the charger and organisation asked for, in order |
| `Events.PublishComplete` | src/ocpp_broker/events.py:121-134 | publishing keeps every open stream complete, cut-off ones up to where they were |
| `Events.RunComplete` | src/ocpp_broker/events_api.py:79-88 | every stream stays complete over a whole run |
| `Events.EventBus.Publish` | src/ocpp_broker/events.py:116-138 | the event has the next number, the history keeps the newest, every matching listener gets it or is cut off |
| `Events.EventBus.ReplayAfter` | src/ocpp_broker/events.py:165-183 | the remembered matching events after the id, and whether something was missed |
| `Events.EventBus.Subscribe` | src/ocpp_broker/events.py:140-147 | refused when closed or full, else one more listener with an empty queue |
| `Events.EventBus.Close` | src/ocpp_broker/events.py:152-163 | every listener is closed and woken if its queue has room |
| `Events.Listener.Next` | src/ocpp_broker/events.py:71-79 | the head of the queue, or nothing when finished and empty |
| `Events.EventStream.Step` | src/ocpp_broker/events_api.py:79-88 | what is sent next: an event newer than those sent, a keepalive, or the end |
| `Store.LaggingReplica` | src/ocpp_broker/transaction_store.py:65-136 | for every record whose latest change was not dropped, that change is what waits, else what is being written, else what is stored; nothing older is ever in a later place; at most `max_pending` + 1 changes are kept; idle exactly when nothing waits and nothing is being written |
| `Store.FlushedIsStored` | src/ocpp_broker/transaction_store.py:150-156 | once `flush` was woken, every record noted before the call and not dropped is stored as noted or as something newer, whatever was noted between the wake-up and the return |
| `Store.NothingWithoutRoom` | src/ocpp_broker/transaction_store.py:65-74 | with `max_pending` 0 or less every change fails: nothing waits, is written or is ever stored |
| `Store.LostExactly` | src/ocpp_broker/transaction_store.py:65-136 | a waiting change is lost if and only if it is the oldest of `max_pending` others that a new record's change pushes out, or it is refused the `max_attempts`th time in a row; a newer change of its own record takes its place otherwise |
| `Store.RefusalsInARow` | src/ocpp_broker/transaction_store.py:117-133 | over any run the count of refusals is that of the refusals in a row of the change at the head |
| `Store.NeverOvertaken` | src/ocpp_broker/transaction_store.py:108-133 | the stored version of a record never goes back |
| `Store.TransactionStore.Note` | src/ocpp_broker/transaction_store.py:65-74 | the record's earlier change gives way and the new one is last in line; a full queue loses its head to it; when there is no room at all it fails and the store stays as it was |
| `Store.TransactionStore.TakeNext` | src/ocpp_broker/transaction_store.py:107-108 | the oldest change is taken |
| `Store.TransactionStore.Succeeded` | src/ocpp_broker/transaction_store.py:127-130 | it is stored, and failures are forgotten |
| `Store.TransactionStore.Unreachable` | src/ocpp_broker/transaction_store.py:113-116 | an outage costs nothing: the change goes back to the front unless superseded |
| `Store.TransactionStore.Refused` | src/ocpp_broker/transaction_store.py:117-133 | a refusal counts, and the last allowed one drops the change |
| `Store.TransactionStore.Return` | src/ocpp_broker/transaction_store.py:131-133 | back to the front unless a newer change waits |
| `Store.TransactionStore.Flushed` | src/ocpp_broker/transaction_store.py:150-156 | true exactly when nothing waits and nothing is being written |
| `WriteBehindLanes.WritesAreInOrder` | src/ocpp_broker/write_behind.py:109-190 | at most `max_pending` writes wait; un-keyed writes are over exactly in the order of submission, none lost, none reported stored twice; after draining, the last run of a key was of its last submission |
| `WriteBehindLanes.RefusedExactly` | src/ocpp_broker/write_behind.py:109-132 | a write is refused if and only if the lane is closed, or full and no waiting write has its key; else it waits, in the place of that key or last |
| `WriteBehindLanes.ReachesTwiceExactly` | src/ocpp_broker/write_behind.py:166-190 | a write reaches the database more than once exactly when a run that timed out or failed got there and a later run did as well |
| `WriteBehindLanes.AWriteCanReachTwice` | src/ocpp_broker/write_behind.py:171-176 | a run in which a write that timed out is stored again |
| `WriteBehindLanes.GivenUpAfterAttempts` | src/ocpp_broker/write_behind.py:166-190 | a write leaves its place exactly when stored or at its `max_attempts`-th real failure; outages do not count |
| `WriteBehindLanes.WriteLane.SubmitWrite` | src/ocpp_broker/write_behind.py:109-132 | refused when closed or full; a key takes its waiting place; else a new place at the end |
| `WriteBehindLanes.WriteLane.StartNext` | src/ocpp_broker/write_behind.py:164-165 | the head runs and keeps its place |
| `WriteBehindLanes.WriteLane.Ended` | src/ocpp_broker/write_behind.py:166-190 | what each outcome does to the place, and to the run of failures |
| `WriteBehindLanes.WriteBehind.Submit` | src/ocpp_broker/write_behind.py:250-252 | the write goes to its shard's lane and to no other |
| `Outbox.StoreAndForward` | src/ocpp_broker/backend_manager.py:295-412 | for sends issued one after another: frames written, then those waiting, are in sending order; every frame is in exactly one of written, waiting, rejected, discarded; at most `max_buffered` + 1 wait |
| `Outbox.GivenUpExactly` | src/ocpp_broker/backend_manager.py:328-412 | over any run: a frame is rejected only when at least `max_buffered` frames wait as it has to, when it has waited the timeout, or when the backend is demoted; it is discarded only when nothing may wait or the connection is closed; otherwise a frame that has to wait does wait |
| `Outbox.BackendOutbox.Send` | src/ocpp_broker/backend_manager.py:295-316 | waits if anything does, else is written |
| `Outbox.BackendOutbox.SendFailed` | src/ocpp_broker/backend_manager.py:312-316 | the link is down and the frame waits |
| `Outbox.BackendOutbox.Buffer` | src/ocpp_broker/backend_manager.py:328-341 | dropped, refused or appended |
| `Outbox.BackendOutbox.FlushTakes` | src/ocpp_broker/backend_manager.py:350-351 | the oldest frame is taken in hand |
| `Outbox.BackendOutbox.FlushFails` | src/ocpp_broker/backend_manager.py:354-357 | the frame goes back to the front and the flush ends |
| `Outbox.BackendOutbox.Expire` | src/ocpp_broker/backend_manager.py:377-386 | exactly the overdue frames at the front are rejected, oldest first |
| `Outbox.BackendOutbox.RejectBuffered` | src/ocpp_broker/backend_manager.py:408-412 | everything waiting is rejected, oldest first |
| `Sse.ChunksDoNotMatter` | ui/src/api/sse.ts:18-58 | however the text is cut, also between CR and LF, the items are those of the whole text normalised and split (sections 9.2.5 and 9.2.6 of the HTML Standard) |
| `Sse.ReadingUndoesPrinting` | src/ocpp_broker/events_api.py:51-57 | reading what was printed gives the messages back, under any chunking |
| `Sse.DataLinesAreOneMessage` | ui/src/api/sse.ts:29-48 | a message whose data comes line by line is one message with those lines as its data |
| `Sse.FedIsExact` | ui/src/api/sse.ts:18-27 | a chunk takes exactly the lines it completes off the front of the text |
| `Sse.PieceHandled` | ui/src/api/sse.ts:29-48 | one printed message is one item and leaves nothing behind |
| `Sse.SseReader.Lines` | ui/src/api/sse.ts:18-27 | the completed lines and the rest, as the function over chunks says |
| `Sse.SseReader.Handle` | ui/src/api/sse.ts:29-48 | what one line does to the message being read, and the item it ends |
| `Sse.ReadSse` | ui/src/api/sse.ts:50-58 | the read loop yields the items of the whole text |
| `SchemaForm.ValueSurvives` | ui/src/schemaForm.ts:70-146 | for every schema and conforming value, building the payload of its draft gives the value back, without errors |
| `SchemaForm.WhatIsSentMeetsTheSchema` | ui/src/schemaForm.ts:70-129 | whatever was typed: if no error is reported, a required part is there, and the payload meets the schema if and only if every integer typed is read as a number |
| `SchemaForm.ErrorsExactly` | ui/src/schemaForm.ts:70-129 | whatever was typed: an error is reported at a place of the form if and only if something is wrong at that very place: a required part missing, a part of the wrong kind, or a limit broken |
| `SchemaForm.AnEndlessNumberGetsThrough` | ui/src/schemaForm.ts:115-121 | a whole number that is not read as a finite one, where the schema sets no bound, is sent as infinite without an error, which no schema for integers allows |
| `SchemaForm.MakeEmptyDraft` | ui/src/schemaForm.ts:49-63 | the loop over the properties makes the empty draft |
| `SchemaForm.DraftFromValue` | ui/src/schemaForm.ts:132-146 | the loops make the draft of a value |
| `SchemaForm.BuildPayload` | ui/src/schemaForm.ts:70-129 | the loops build the payload and collect the errors by path |
| `SchemaForm.LeafRoundTrip` | ui/src/schemaForm.ts:108-129 | text, enumerations and printable numbers come back |
| `FailureThrottling.RateIsBounded` | src/ocpp_broker/auth.py:201-225 | in an interval shorter than window and lockout without a success, an address has at most `max_failures` recorded failures |
| `FailureThrottling.TheLimitLocks` | src/ocpp_broker/auth.py:201-220 | when it has that many, it is refused until the start of the interval plus the lockout, at least |
| `FailureThrottling.RefusedOnlyForCause` | src/ocpp_broker/auth.py:201-220 | over any run an address is refused only because of a failure that was at least the `max_failures`th within the window, with no success in between, and for no longer than the lockout after it |
| `FailureThrottling.LocksLast` | src/ocpp_broker/auth.py:201-231 | nothing but time ends a lock: not a success, a question or a sweep |
| `FailureThrottling.FailureThrottle.AskRetryAfter` | src/ocpp_broker/auth.py:201-209 | the seconds left, at least 1 while locked; a lock that is over is forgotten; other addresses are untouched |
| `FailureThrottling.FailureThrottle.RecordFailure` | src/ocpp_broker/auth.py:211-220 | the failure joins those within the window, or locks; other addresses keep theirs, except that making room forgets what is too old and, when that is not enough, failures of others |
| `FailureThrottling.FailureThrottle.Slide` | src/ocpp_broker/auth.py:216-217 | the failures older than the window are dropped from the front |
| `FailureThrottling.FailureThrottle.ForgetStale` | src/ocpp_broker/auth.py:225-231 | stale failures and locks that are over go; of the addresses with failures that are not stale, the newest stay tracked, as many as fit, in their order |
| `FailureThrottling.FailureThrottle.RecordSuccess` | src/ocpp_broker/auth.py:222-223 | the failures are forgotten, a lock is not |

## Left out

- JSON text: frames are values with the ids at their places and the rest as opaque text, so "unchanged" is equality of frames; key order, spacing and deep copies are not modelled.
- Identity of record objects: records live in a map and are named by references, so sharing between dictionaries is kept, but not the objects themselves.
- Statistics counters and log lines of the table.
- Persistence hooks (`on_change`, `saved_at`): when a record is handed to the store is not modelled; what is exported and restored is.
- A stored record's `uid` is its reference; unreadable documents (restore skips them with a warning) are not modelled.
- The clock is read once per event, as if the table's several readings within one call agreed.
- Starts that arrive again under a message id still tracked: excluded by `UniqueStarts` where retries are counted.
- A reconnect that picks the configured leader again without telling the table (session.py:403-410).
- `_expiry_of`: the parsed expiry date is a field of the payload.
- TableHolds.NoWakeUpIsLost: the 10 ms added to the timer and the event loop's own delays are outside; the claim is for any firing no earlier than the due time.
- LeaderPolls.FailbackWaits: for runs that keep the pacing (`Paced`): the clock never goes back, a loss is noticed and the pause kept before a link returns, and a look that is due comes before a link that returns when it is due or later, because both wait for a timer of the event loop and the link still has to be made.
- ChargerObjects.NoObjectIsOverwritten: objects forgotten as too old are excluded, because the charger may still hold them; so is a removal by the broker itself that the charger refuses, for which `BrokersCommandExactly` shows that it fails.
- SaveRestore.SaveAndRestore: for all known backends, and the start index for states reached with deduplication (`StartsFound`); that the ids of backends no longer configured are dropped is said by `TakenInExactly`.
- `MongoDB`, `websockets`, asyncio tasks, locks and sleeps: a write, a send and a wait are steps with outcomes.
- The outbox's expiry timer: expiry may happen at any time with any clock reading.
- Outbox.StoreAndForward: sends issued one after another, as the session's relay loop does; two tasks that send at once are outside.
- `WriteBehind` across lanes: `hash(shard)` is a parameter, and `_bind`'s reset for a new event loop is left out.
- `EventBus.replay` without an id (`latest`), the HTTP route around `event_stream`, and `Last-Event-ID` parsing.
- UTF-8 decoding in the SSE reader (`TextDecoder`): chunks are text.
- The SSE printer's JSON is opaque text without line breaks.
- SchemaForm: how numbers are printed and read, `String(value)`, and the date-time and address patterns are parameters with the laws the round trip needs (and `DigitsReadWhole`, that ECMAScript reads digits as a whole number unless as an infinite one); names on the prototype chain (`name in given`) are not modelled.
- The order of keys in an object of the form (maps have none).
- `retry_after` and `record_failure` read the clock; here it is a parameter. 
- FailureThrottling.RateIsBounded: for addresses that are not given up when ten thousand are tracked.
- Connecting without any backend configured, or after the charger has gone (session.py:386-398 raise): nothing happens in the model.
- The delivery of frames already prepared for the charger when the leader changes (broker.py:446-448 sends them one by one).
- `leader_failover_timeout` below 0, `outage_timeout` per role, and the events published on a change of roles.
- Commands, tags, history, audit, configuration files, the admin pages and the rest of the API: simpler than the above.
