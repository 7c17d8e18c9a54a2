# The action lifecycle of atc-core, modelled and proved

`atc-core` is a gateway between agents and their tools. It rates every tool call with an
ordered policy, holds risky calls until an operator decides or a timeout expires them,
journals a pre-image of what a compensable call is about to destroy, executes the call, and
can later undo it by ordinary tool calls built from the pre-image. This project models that
lifecycle in Dafny and proves what it keeps.

- **Hold and decide.** `Lifecycle` is a step relation over one system state: the action and
  journal tables, the map of pending events, every gateway call, approve/deny request and
  undo request in flight, the startup sweep, and a log of everything forwarded or announced.
  A coroutine is cut at each `await`, each SQL statement is one step, cancellation may fall
  anywhere and so may a crash. `LifecycleInvariant` proves one invariant of every step;
  `LifecycleTheorems`, `LifecycleWakeups` and `LifecycleExecution` read theorems about whole
  runs off it. `LifecycleCauses` traces every outcome back to the request, timeout or restart
  that gave it; `LifecycleProgress` and `LifecycleCompletion` prove that calls, decisions,
  undo requests and restarts that are left alone come to the end they should;
  `LifecycleRecords` says what rows and announcements tell. `Tables` and `Holds` hold the values the steps work on; the classes
  `StoreModule.Store` and `Approval.ApprovalManager` are the objects whose methods are proved
  against those same functions, stretch by stretch and, where nothing interferes, as whole
  calls.
- **Journal and undo.** `Literals` prints and reads SQL text, `Database` gives keyed tables,
  statements and the queries derived from them, `Tools` the two tool servers, `Capture` the
  pre-image, `Compensation` the compensating calls, `Routes` the undo endpoint. `Restore`
  proves when capture, execution and compensation with nothing in between are the identity.
- **Undo among everything else.** `Interference` puts the tool servers' world into the step
  relation and proves when the captured image still is the pre-image at the forward, and when
  an undo whose calls are interleaved with anything else gives the call's file or table back.
  `Targets` proves that captures, calls and compensating calls are local to that target.
- **Risk engine.** `RiskEngine` is the first-match interpreter over any policy,
  `ShippedPolicy` the rules the repository ships, with the level of every call under them;
  `Classified` ties the reversibility class to what capture can journal.
- **History readers.** `Scorer`, `Creep` and `Loops` read the action history, the last two in
  background tasks that race with new rows.
- **Routing and percentiles.** `Routing` and `Percentile`.

What a library decides is a parameter: the SQL parser, `str.lower` and `re.search` of the
risk engine (`Library`), sandbox path resolution, the DDL reader, SQL's reserved words and the
effect of SQL texts that are no part of a compensation (`Platform`), the decay curve
(`IsHalfLifeDecay`, which `DecayExists` shows can be met). Clocks and uuids are arguments of
the steps that draw them; drawn uuids are fresh.

Of a SQL call the undo theorems ask this, about the statement and its own table
(`StatementOk`): the table's DDL text declares it, its rows are full and its primary keys
distinct and not NULL (`TableOk`); SQL accepts the table reference, and no table has the
quoted reference of a DROP TABLE, quotes and all, for its name; and SQL refuses an INSERT into
a table reference when its column list would have to be quoted (`RefusesUnquoted`). Other
tables are free, and of file calls nothing is asked.

## Where the code and its promises part

Each point is a lemma, with the exact condition where the code does keep the promise.

- A file whose text starts with `error:` is captured as absent, and undoing a write to it
  deletes it (`FileUndone`, `ErrorTextIsLost`).
- An UPDATE that moves a row to a key outside the captured set is not taken back: the moved
  row stays beside the restored one (`UpdateRestored`, `MovedKeyStays`).
- Column names are printed without quotes, so a table with a column that needs quoting gets
  no row back (`InsertRoundTrip`, `UnplainIsUnreadable`, `QuotedColumnStaysEmpty`).
- A DROP of a table written in quotes is classified as compensable but not journaled, because
  its schema is looked up under the quoted spelling: it is journaled exactly when some table
  has that spelling for its name (`QuotedDropIsNotJournaled`).
- A decision that lands after a held row's INSERT and before its event exists never wakes the
  waiter, who comes back with it only after the timeout, or when a later step releases another
  decision on the same action (`EarlyDecisionHappens`, `EarlyDecisionIsMissed`,
  `EarlyDecisionBlocks`, `MissedDecisionStillCounts`).
- The undo endpoint takes APPROVED or AUTO_ALLOWED for "was executed", but accepts every
  journaled action that is not undone yet, and a journaled action has not been executed exactly
  when its call is between capture and forward, or was cancelled or crashed there
  (`UndoCanOvertakeTheCall`). A whole undo can come before its call, and a call that was cut off
  never runs (`OvertakenHappens`, `CutOffHappens`, `CutOffIsNeverRun`);
  `UndoGivesTheTargetBack` holds where no compensating call came before the forward.
- Two first touches of a resource that overlap leave it without a novelty flag for good: an
  action is flagged exactly when its check looked while it was alone (`LookDecides`,
  `CheckedInTimeIsFlagged`, `RacedHappens`, `RacedPairIsNeverFlagged`).
- A namespace that contains `__` or ends in `_` is checked against another namespace's scope
  than the one its calls are routed to (`NamespaceReadsBack`, `UncleanNamespaceIsMischecked`).
- A larger set of production tables can lower a call's rating, exactly when a production rule
  that ranks below the rating it had becomes its first match (`LevelDropsExactlyWhen`,
  `LowProdRuleBreaksMonotonicity`); no rule list whose production rules dominate does that
  (`MoreProdTablesNeverLowerRisk`), and the shipped one is such a list.

## Model

| member | source | states |
|---|---|---|
| LifecycleInvariant.StepKeeps | services/atc-core/src/atc_core/gateway/server.py:198-274 | every step of every gateway call, decision, undo request, crash and restart keeps one invariant tying rows, events, coroutines, journal and log together |
| LifecycleInvariant.EnterWaitMoves | services/atc-core/src/atc_core/gateway/server.py:224-233 | a call that finds no event although its copy says PENDING has a stored row that is already decided |
| LifecycleInvariant.WinnerStartsThePlan | services/atc-core/src/atc_core/store/db.py:189-198 | winning the compare-and-set gives the entry an undo id no other entry has and sets out on the whole plan with no call made before; losing it ends the request with the journal as it was |
| LifecycleInvariant.NextOfThePlan | services/atc-core/src/atc_core/api/routes.py:157-165 | each compensating call is the next one of the plan after those already made; after a failed one the request makes no further call |
| LifecycleTheorems.RunKeeps | services/atc-core/src/atc_core/approval/manager.py:50-168 | the invariant holds in every state of every run |
| LifecycleTheorems.RunHistory | services/atc-core/src/atc_core/store/db.py:107-198 | over any run no row or journal entry disappears, a decided outcome and a first payload never change, and the log only grows |
| LifecycleTheorems.ForwardedOnlyIfCleared | services/atc-core/src/atc_core/gateway/server.py:224-274 | a forwarded call's row is APPROVED with a named decider if its level is held and AUTO_ALLOWED otherwise, at every later moment; no call is forwarded twice |
| LifecycleTheorems.ForwardStepIsCleared | services/atc-core/src/atc_core/gateway/server.py:241-274 | the same already at the moment of the forward, with the event gone from the map and no earlier forward |
| LifecycleCauses.OutcomeHasCause | services/atc-core/src/atc_core/approval/manager.py:106-168 | every outcome in a run goes back to one earlier step: AUTO_ALLOWED to the insert of a row of a level that is not held, APPROVED and DENIED to the UPDATE of a decision that says so and names the decider and the time, EXPIRED to the timeout or the restart; it has not changed since |
| LifecycleCauses.DecidedOnRequest | services/atc-core/src/atc_core/api/routes.py:104-117 | an APPROVED row that is no compensation row was PENDING until the UPDATE of a request to approve it, and a DENIED one until that of a request to deny it, each by the decider the row names |
| LifecycleCauses.ForwardedWasApproved | services/atc-core/src/atc_core/gateway/server.py:224-274 | a forwarded call of a held level had a request to approve it, which resolved its row before the forward; one of another level was auto-allowed |
| LifecycleProgress.LeftAloneEnds | services/atc-core/src/atc_core/gateway/server.py:198-274 | from any state of any run a live call that is neither cancelled nor decided on any more comes to its end by its own steps, and is executed if and only if its row is, or is going to be, APPROVED or AUTO_ALLOWED; a PENDING one expires |
| LifecycleProgress.CancelsAnywhere | services/atc-core/src/atc_core/approval/manager.py:109-118 | a call, a decision and an undo request can be cancelled at any point, and end there without changing a row, an entry or an announcement |
| LifecycleProgress.EndedAsDecided | services/atc-core/src/atc_core/gateway/server.py:241-274 | in every run a call that is over and was not cancelled was executed if and only if its row is APPROVED or AUTO_ALLOWED, and refused if and only if it is DENIED or EXPIRED |
| LifecycleProgress.DecisionGoesThrough | services/atc-core/src/atc_core/approval/manager.py:125-151 | a decision made in any state and left alone leaves a PENDING row approved or denied as it says, any other row as it was, the event set and out of the map, and the outcome announced and answered |
| LifecycleProgress.DecisionIsCarriedOut | services/atc-core/src/atc_core/gateway/server.py:235-274 | from any state in which a live call is PENDING, a decision and then the call, left alone, end with the call executed if it was approved and refused if it was denied |
| LifecycleProgress.HeldRequestIsCarriedOut | services/atc-core/src/atc_core/gateway/server.py:198-274 | for every request of a held level there is a run that blocks, takes an answer, and executes the call if and only if the answer was to approve it |
| LifecycleProgress.CaptureGoesOn | services/atc-core/src/atc_core/gateway/server.py:261-268 | a cleared compensable call can journal any pre-image of the three kinds, which is then stored as it is unless one was there, and goes on to its execution |
| LifecycleTheorems.OutcomeIsFinal | services/atc-core/src/atc_core/store/db.py:145-158 | once a row has left PENDING its status, decider and resolution time never change, and its request never does |
| LifecycleTheorems.EveryoneIsToldTheSame | services/atc-core/src/atc_core/approval/manager.py:106-151 | every action.resolved event, every decide result and the waiter's result for one action carry the row's one triple, however they race |
| LifecycleTheorems.HoldMapIsSound | services/atc-core/src/atc_core/approval/manager.py:88-151 | a PENDING row with a live waiter has an unset event in the map, a set event means a decided row, and what wait_for_decision returns is decided |
| LifecycleTheorems.RestartSweeps | services/atc-core/src/atc_core/approval/manager.py:153-168 | from a restart until serving begins, rows only expire, at the restart's time, and serving begins with no PENDING row |
| LifecycleTheorems.RestartExpiresExactlyThePending | services/atc-core/src/atc_core/approval/manager.py:153-168 | after the sweep the table is the old one with exactly its PENDING rows expired, without a decider |
| LifecycleCompletion.RestartServes | services/atc-core/src/atc_core/approval/manager.py:153-168 | from any run that ends in a stopped process a restart left alone comes to serve, with exactly the PENDING rows expired and each of them announced |
| LifecycleTheorems.JournalIsSound | services/atc-core/src/atc_core/gateway/server.py:261-268 | each journal entry belongs to a row classified COMPENSABLE whose status is APPROVED or AUTO_ALLOWED, has a buildable kind, and keeps its first payload for the rest of the run |
| LifecycleTheorems.BuildNeverRaises | services/atc-core/src/atc_core/gateway/undo.py:26-33 | in no run does the compensation builder raise on a journaled kind |
| LifecycleTheorems.UndoneAtMostOnce | services/atc-core/src/atc_core/api/routes.py:150-165 | all compensating calls made for an action carry the one undo id of its entry and form a prefix of the plan built from the first pre-image, however many requests race |
| LifecycleTheorems.UndoRowHasOneEntry | services/atc-core/src/atc_core/api/routes.py:167-187 | every compensation row is the undo of exactly one journal entry |
| LifecycleTheorems.UndoableMeansUndoStarts | services/atc-core/src/atc_core/api/routes.py:82-153 | in any state the listing's flag is true exactly when an undo made now passes every guard, wins the entry and sets out on the whole plan |
| LifecycleCompletion.UndoRowTells | services/atc-core/src/atc_core/api/routes.py:167-187 | in every run a compensation row stands in the trace, agent, tool and resource of the action it undid, names it and the number of calls, and is there only when the whole plan has been made |
| LifecycleCompletion.UndoableIsUndone | services/atc-core/src/atc_core/api/routes.py:125-190 | whenever the flag is true an undo can go through to its row, which tells of that action |
| LifecycleExecution.UndoCanOvertakeTheCall | services/atc-core/src/atc_core/api/routes.py:132-142 | in every run the endpoint accepts a journaled action until it is undone, and the action has not been executed if and only if its call is at this moment between capture and forward or was cancelled or crashed there |
| LifecycleExecution.CutOffIsNeverRun | services/atc-core/src/atc_core/gateway/server.py:258-274 | a call cancelled or crashed between its capture and its forward is not executed at any later time |
| LifecycleExecution.OvertakenHappens | services/atc-core/src/atc_core/api/routes.py:125-190 | for every compensable request of a level that is let through there is a run in which a whole undo is over and its row written while the call is still to be forwarded |
| LifecycleExecution.CutOffHappens | services/atc-core/src/atc_core/gateway/server.py:258-274 | any run that ends between capture and forward can go on by a crash that cuts the call off |
| LifecycleWakeups.ReturnedWaiterIsGone | services/atc-core/src/atc_core/approval/manager.py:106-116 | once wait_for_decision has returned, its id is not in the map of pending events, then or later |
| LifecycleWakeups.WakeupIsLostOnlyIfMissed | services/atc-core/src/atc_core/approval/manager.py:134-147 | a blocked waiter with a decided row is woken or about to be, unless an earlier step of the run registered its event on a decided row or cancelled a decision between its UPDATE and its release |
| LifecycleWakeups.WokenOnlyByADecision | services/atc-core/src/atc_core/approval/manager.py:143-145 | an event that becomes set in a run was set by the release of a decision on its action |
| LifecycleWakeups.MissedHasCause | services/atc-core/src/atc_core/approval/manager.py:88-91 | every missed wake-up goes back to one of those two steps |
| LifecycleWakeups.EarlyDecisionHappens | services/atc-core/src/atc_core/approval/manager.py:88-91 | there is a run to a decision between a held row's insert and its event, for every request of a held level |
| LifecycleWakeups.EarlyDecisionIsMissed | services/atc-core/src/atc_core/approval/manager.py:88-92 | in every run, an event registered when its row is already decided stays unset, and its waiter unwoken, unless a later step releases a decision on the action; the outcome stays |
| LifecycleWakeups.EarlyDecisionBlocks | services/atc-core/src/atc_core/approval/manager.py:88-109 | from any such state the waiter comes to block on an unset event, and what may still set it are exactly the other decisions on the action |
| LifecycleWakeups.MissedDecisionStillCounts | services/atc-core/src/atc_core/approval/manager.py:106-123 | when its timeout fires, that waiter comes back with the decision and not with EXPIRED |
| LifecycleRecords.RowSaysItsRequest | services/atc-core/src/atc_core/approval/manager.py:67-88 | in every run the row under a call's id says what the request said: trace, agent, tool, resource, arguments, blast radius, level, rule, reversibility and time |
| LifecycleRecords.FlagIsStored | services/atc-core/src/atc_core/gateway/creep.py:86-89 | the novelty flag can be set in any serving state, on the row it names and nowhere else |
| LifecycleRecords.HoldIsAnnounced | services/atc-core/src/atc_core/approval/manager.py:91-123 | a hold that is over, its call not cancelled, was announced as pending, its waiter came back with the row's outcome, and an expiry was announced |
| LifecycleRecords.PendingEventsAreOwned | services/atc-core/src/atc_core/approval/manager.py:88-118 | an id stays in the map of pending events only while its call waits or is going to, or for good if the call was cancelled between the creation of the event and the start of the wait |
| Approval.ApprovalManager.SubmitInsert | services/atc-core/src/atc_core/approval/manager.py:67-88 | the first stretch of submit inserts exactly the row it returns, which says what was requested and is PENDING if and only if its level is held, or fails on a taken id and changes nothing |
| Approval.ApprovalManager.SubmitRegister | services/atc-core/src/atc_core/approval/manager.py:89-90 | the second stretch puts a new unset event into the map |
| Approval.ApprovalManager.Submit | services/atc-core/src/atc_core/approval/manager.py:50-92 | alone, the returned copy says PENDING exactly when an unset event now waits for it |
| Approval.ApprovalManager.WaitForDecision | services/atc-core/src/atc_core/approval/manager.py:94-123 | alone, it expires the row exactly when the event is unset, always leaves the map, answers with the stored row, and never answers PENDING when the row's event was in the map |
| Approval.ApprovalManager.Decide | services/atc-core/src/atc_core/approval/manager.py:125-151 | alone, a PENDING row becomes APPROVED or DENIED as asked, by the decider and at the time given, and its waiter is woken; any other row is answered and announced as it stands |
| Approval.ApprovalManager.ResumeStaleHolds | services/atc-core/src/atc_core/approval/manager.py:153-168 | the PENDING rows and no others expire; the returned list is exactly those rows, each once, and each is announced |
| StoreModule.Store.InsertAction | services/atc-core/src/atc_core/store/db.py:107-124 | inserts the row, or fails on a taken primary key and changes nothing |
| StoreModule.Store.ResolveAction | services/atc-core/src/atc_core/store/db.py:145-158 | writes the triple exactly when the row is PENDING, and says whether it did |
| StoreModule.Store.MarkUndone | services/atc-core/src/atc_core/store/db.py:189-198 | marks exactly an entry not yet undone, and says whether it did |
| StoreModule.Store.InsertJournal | services/atc-core/src/atc_core/store/db.py:162-173 | keeps an entry that is already there |
| StoreModule.Store.ListActions | services/atc-core/src/atc_core/store/db.py:135-143 | every row of the status and no other, or every row where none is given, each once, newest request first |
| StoreModule.Store.ListJournaledActionIds | services/atc-core/src/atc_core/store/db.py:200-204 | every journaled id, listed as not undone exactly when the compare-and-set of an undo request would win on it now |
| Tables.StatementsEvolve | services/atc-core/src/atc_core/store/db.py:107-158 | no statement on the actions table deletes a row, alters a request or changes a decided outcome |
| Tables.JournalStatementsEvolve | services/atc-core/src/atc_core/store/db.py:162-198 | no statement on the journal changes a first payload or an undone mark |
| Literals.QuotedRoundTrip | services/atc-core/src/atc_core/gateway/undo.py:72-75 | text with doubled quotes reads back as the text, whatever quotes it contains |
| Literals.LiteralsRoundTrip | services/atc-core/src/atc_core/gateway/undo.py:59-75 | the printed VALUES list reads back as exactly the row's values in order, for any null, boolean, integer and text values |
| Literals.InsertRoundTrip | services/atc-core/src/atc_core/gateway/undo.py:59-62 | the whole statement reads back as the captured row if and only if its columns need no quoting |
| Literals.UnplainIsUnreadable | services/atc-core/src/atc_core/gateway/undo.py:60 | with a column that needs quoting (a reserved word, a leading digit, an inner space) the printed text is no statement |
| Literals.PrintedValues | services/atc-core/src/atc_core/gateway/undo.py:64-75 | null, booleans, a negative integer and a text with a quote, as they are printed |
| Compensation.BuildCompensation | services/atc-core/src/atc_core/gateway/undo.py:26-56 | it succeeds exactly on the three kinds with their own payloads |
| Database.RewritesAgree | services/atc-core/src/atc_core/gateway/blast_radius.py:32-56 | the COUNT rewrite, the number of rows the journal captures and the number of positions the statement rewrites or rows it removes are one number, the one on the approval card |
| Database.AffectedIsTheChange | services/atc-core/src/atc_core/gateway/blast_radius.py:59-80 | that number is the change a succeeding statement makes: rows removed, or positions rewritten, all others staying as they were |
| Database.CountIsTouched | services/atc-core/src/atc_core/gateway/blast_radius.py:44-47 | counting matching rows one by one gives the size of the set of their positions |
| Database.EstimatedExactlyWhen | services/atc-core/src/atc_core/gateway/blast_radius.py:28-80 | there is an estimate if and only if the statement is an UPDATE, DELETE or DROP TABLE of a table that is there |
| Database.ReplaceRowsIs | services/atc-core/src/atc_core/gateway/undo.py:46-49 | replacing row after row by distinct keys drops the clashing rows once and appends the captured ones in order |
| Database.DeleteRestored | services/atc-core/src/atc_core/gateway/undo.py:46-62 | re-inserting the captured rows after a DELETE, or after a statement that failed, gives back the table's rows |
| Database.UpdateRestored | services/atc-core/src/atc_core/gateway/undo.py:46-62 | after an UPDATE it does so if and only if no updated row moved to a key outside the captured set |
| Tools.ReadTells | services/tools-fs/src/tools_fs/server.py:29-58 | reading gives the text of a file that is there; the answer looks like an error exactly when there is none or its own text does; a write is read back, and after a delete there is nothing to read |
| Tools.ToolServers.Write | services/tools-fs/src/tools_fs/server.py:39-47 | sets exactly the resolved file, and answers with an error exactly when the path escapes |
| Tools.ToolServers.DeleteFile | services/tools-fs/src/tools_fs/server.py:49-58 | removes exactly the resolved file, and answers with an error exactly when there is none |
| Tools.ToolServers.ExecuteSql | services/tools-db/src/tools_db/server.py:85-90 | any SQL text takes effect, or answers with an error and changes nothing |
| Tools.ToolServers.RunCompensation | services/atc-core/src/atc_core/api/routes.py:157-165 | the calls run in order and stop at the first error; the index reported is that of the call that fails after the ones before it |
| Tools.FailureEndsTheLoop | services/atc-core/src/atc_core/api/routes.py:157-165 | whatever follows the first failing call is not made: the world stays as the calls before it left it |
| Capture.JournalRecorder.Capture | services/atc-core/src/atc_core/gateway/journal.py:43-54 | inserts one journal row with the call's pre-image, or none, and says which; it journals exactly writes and deletes of a file with a path, UPDATEs and DELETEs of a table that is there, and DROPs of one that is there under the reference as written; a row already there stays |
| Capture.JournalRecorder.CaptureFs | services/atc-core/src/atc_core/gateway/journal.py:56-70 | the file's text, or absence when the server answers with an error text |
| Capture.JournalRecorder.CaptureDb | services/atc-core/src/atc_core/gateway/journal.py:72-118 | the matched rows of an UPDATE or DELETE, the schema and all rows of a DROP TABLE, nothing otherwise |
| Capture.PreimageOf | services/atc-core/src/atc_core/gateway/journal.py:43-118 | there is a pre-image for exactly those calls, and it has one of the three known kinds with the payload that belongs to it |
| Classified.JournaledIsCompensable | services/atc-core/src/atc_core/risk/reversibility.py:37-61 | under any policy each call that capture journals is classified COMPENSABLE, so the gateway does ask for its capture |
| Restore.UndoRestores | services/atc-core/src/atc_core/gateway/undo.py:26-75 | for every call that capture journals, capture, execute, compensate with nothing in between gives back every file and every table with its schema and rows if and only if the call is recoverable |
| Targets.PreimageIsLocal | services/atc-core/src/atc_core/gateway/journal.py:56-118 | the pre-image of a call depends on its own file or table alone |
| Targets.PlanActsOn | services/atc-core/src/atc_core/gateway/undo.py:36-62 | every compensating call of the plan reads and changes nothing but that file or table |
| Targets.DisjointLeavesAlone | services/atc-core/src/atc_core/gateway/server.py:270-274 | running a call on another file or table leaves it alone |
| Interference.CaptureHasFirstRead | services/atc-core/src/atc_core/gateway/journal.py:56-118 | every journal INSERT of a capture comes after a first read of that capture |
| Interference.CaptureJournalsReads | services/atc-core/src/atc_core/gateway/journal.py:94-116 | the INSERT journals what the capture's last read found, with the schema text its first read found, whatever happened in between |
| Interference.ImageHoldsAtForward | services/atc-core/src/atc_core/gateway/server.py:258-274 | at any time after that the journal holds what the reads found, and if nothing has touched the file or table since the first read, what is forwarded hits exactly the state that was read |
| Interference.ForwardRuns | services/atc-core/src/atc_core/gateway/server.py:270-274 | the step that logs a forward is the one that runs the call |
| Interference.RunTracks | services/atc-core/src/atc_core/api/routes.py:157-165 | the compensating calls of an action, interleaved with anything else, do to its file or table what they would do one after the other |
| Interference.UndoGivesTheTargetBack | services/atc-core/src/atc_core/api/routes.py:125-165 | in any run where nothing else touches the file or table, a completed undo has it back as it was at the capture's first read if and only if the call is recoverable |
| Restore.FileUndone | services/atc-core/src/atc_core/gateway/undo.py:36-43 | undoing a write or delete restores every file if and only if the old text did not look like an error |
| Restore.RowsUndone | services/atc-core/src/atc_core/gateway/undo.py:46-49 | undoing a row statement touches no other table and puts the captured rows back by key, or does nothing when a column needs quoting |
| Restore.DropUndone | services/atc-core/src/atc_core/gateway/undo.py:52-56 | a dropped table comes back from its own DDL text, with its rows if its columns need no quoting |
| Restore.KeyPreservingIsRecoverable | services/atc-core/src/atc_core/gateway/undo.py:11-16 | an UPDATE that leaves primary keys alone is recoverable |
| Restore.QuotedDropIsNotJournaled | services/atc-core/src/atc_core/gateway/journal.py:94-116 | a DROP TABLE of a table that is there is journaled if and only if some table has the reference as written for its name: an unquoted one always, a quoted one only where a name holds quotes |
| Restore.ErrorTextIsLost | services/atc-core/src/atc_core/gateway/journal.py:60-63 | a file holding an error text is deleted by the undo of a write |
| Restore.MovedKeyStays | services/atc-core/src/atc_core/gateway/undo.py:46-49 | after UPDATE t SET id = 2 the undo leaves the old row and the new one |
| Restore.QuotedColumnStaysEmpty | services/atc-core/src/atc_core/gateway/undo.py:60 | rows of a table with a column "unit price" stay deleted |
| Routes.Api.UndoAction | services/atc-core/src/atc_core/api/routes.py:125-190 | each refusal has its own condition; a refused request and one without an upstream pool change nothing, any other marks the entry for good; a failure is reported at the first call that fails; the undo row, whose fields are spelled out, appears only if every call went through |
| Routes.Api.ListActions | services/atc-core/src/atc_core/api/routes.py:82-101 | every row of the status in order, each with the undoable flag its tables give it |
| RiskEngine.FirstMatchIsLeast | services/atc-core/src/atc_core/risk/engine.py:75-82 | the loop with early return finds the least-index matching rule, and nothing exactly when none matches |
| RiskEngine.EvaluateIsFirstMatch | services/atc-core/src/atc_core/risk/engine.py:60-89 | HIGH before any rule on unparseable SQL, else the least matching rule's level, else MEDIUM |
| RiskEngine.EditsAfterTheMatch | services/atc-core/src/atc_core/risk/engine.py:75-82 | rules after the first match never matter |
| RiskEngine.InsertingAnUnmatchedRule | services/atc-core/src/atc_core/risk/engine.py:75-82 | a rule the call does not match can be inserted anywhere |
| RiskEngine.SwappingDisjointRules | services/atc-core/src/atc_core/risk/engine.py:75-82 | adjacent rules the call does not match jointly can be swapped |
| RiskEngine.FactsGrow | services/atc-core/src/atc_core/risk/sql_facts.py:50-83 | more production tables change one fact at most, from false to true, and never the reversibility |
| RiskEngine.FactsTell | services/atc-core/src/atc_core/risk/sql_facts.py:38-83 | what the facts say of the parsed statement: its kind, whether its WHERE is absent or always true, and whether a table it names lowers to a production table |
| RiskEngine.UnparseableIsHigh | services/atc-core/src/atc_core/risk/engine.py:60-72 | under any policy a call whose SQL text does not parse is HIGH |
| RiskEngine.ReversibilityTells | services/atc-core/src/atc_core/risk/reversibility.py:37-61 | the reversibility of every call, by its tool and, for db__execute, by the kind of its parsed statement |
| RiskEngine.LevelDropsExactlyWhen | services/atc-core/src/atc_core/risk/engine.py:60-89 | under any policy, more production tables lower a call's level if and only if a production rule ranking below that level becomes its first match; the reversibility never changes |
| RiskEngine.MoreProdTablesNeverLowerRisk | services/atc-core/src/atc_core/risk/engine.py:104-134 | they lower no call's level if each production rule is at least MEDIUM and ranks at least as high as every later rule that asks for no production table |
| RiskEngine.LowProdRuleBreaksMonotonicity | services/atc-core/src/atc_core/risk/engine.py:122-123 | one LOW production rule breaks that for a DROP TABLE |
| ShippedPolicy.ExecuteIsHighExactlyWhen | policies/risk_rules.yaml:22-58 | a db__execute call is HIGH exactly when it is unparseable, touches production, is destructive DDL, an unbounded write or unrecognised, and is never LOW |
| ShippedPolicy.StatementIsHighExactlyWhen | policies/risk_rules.yaml:22-58 | from the parsed statement itself: a db__execute call is HIGH if and only if it drops, truncates, alters, is not recognised, deletes or updates every row, or names a production table; else MEDIUM; HIGH if its SQL does not parse, MEDIUM if it carries none |
| ShippedPolicy.OtherToolsAsShipped | policies/risk_rules.yaml:60-111 | the level of every call to any other tool, with the sensitive paths, the ten recipients and the unknown tools |
| ShippedPolicy.ShippedTablesAreHigh | policies/risk_rules.yaml:15-29 | with the shipped tables tagged, or more, a db__execute call that names one of them in any case is HIGH |
| ShippedPolicy.ShippedPolicyIsMonotone | policies/risk_rules.yaml:22-111 | the shipped policy never gets laxer when more tables are tagged |
| ShippedPolicy.LowIsNeverCompensable | policies/risk_rules.yaml:60-111 | a call rated LOW is a query, a read or a mail, and never compensable |
| Scorer.RiskScorer.ComputeScore | services/atc-core/src/atc_core/risk/scorer.py:49-64 | the loop computes the decayed sum over the agent's resolved rows |
| Scorer.OneActionScores | services/atc-core/src/atc_core/risk/scorer.py:22-64 | one action scores 1, 5 or 25 by its level, 50 if it was HIGH and denied, and 20 more if novel, at the time it was resolved or else requested; a PENDING one and another agent's score nothing |
| Scorer.HalfLivesHalve | services/atc-core/src/atc_core/risk/scorer.py:39-64 | with no new rows or flags, k half-lives halve the score k times |
| Scorer.HalvedIsDivided | services/atc-core/src/atc_core/risk/scorer.py:42 | halving k times is dividing by exactly 2^k |
| Scorer.SpacedSum | services/atc-core/src/atc_core/risk/scorer.py:39-42 | ages at least one half-life apart, in any order, decay to less than 2 in all |
| Scorer.SparseScoreIsBounded | services/atc-core/src/atc_core/risk/scorer.py:49-64 | with resolution times a half-life apart the score stays below 140 however many rows there are |
| Scorer.DecayExists | services/atc-core/src/atc_core/risk/scorer.py:39-42 | the laws asked of the decay can be met |
| Creep.FlaggedIsTheEarliest | services/atc-core/src/atc_core/gateway/creep.py:70-108 | in every interleaving a flagged action is the earliest of its agent on its resource, so each pair has at most one |
| Creep.LookDecides | services/atc-core/src/atc_core/gateway/creep.py:70-108 | in every run, once its check is over without a loss, an action is flagged if and only if that check looked, at some earlier step, while the action was alone in its pair |
| Creep.CheckedInTimeIsFlagged | services/atc-core/src/atc_core/gateway/creep.py:70-108 | an action whose check is over without a loss before the second insert of its pair is flagged |
| Creep.RacedPairIsNeverFlagged | services/atc-core/src/atc_core/gateway/creep.py:70-108 | a second row before the first look means that no action of the pair is ever flagged |
| Creep.RacedHappens | services/atc-core/src/atc_core/gateway/creep.py:70-108 | for any two new actions of one agent on one resource there is a run to that race |
| Creep.FlagHappens | services/atc-core/src/atc_core/gateway/creep.py:70-108 | for any new action with a resource there is a run in which its check flags it |
| Creep.FlaggedNamesResource | services/atc-core/src/atc_core/gateway/creep.py:62-68 | no action without a resource name is ever flagged |
| Creep.BonusWithinPairs | services/atc-core/src/atc_core/risk/scorer.py:60-63 | in any listing of the rows the flags add at most 20 per distinct resource to the sum of the agent's weights, and at most that to its decayed score |
| Loops.BurstIsReported | services/atc-core/src/atc_core/gateway/loops.py:64-102 | of a burst of n calls at least n minus the threshold are reported, however late and in whatever order the checks run inside the window |
| Loops.FewCallsAreNeverReported | services/atc-core/src/atc_core/gateway/loops.py:64-102 | with at most threshold such calls in all, none is reported |
| Loops.ReportsExactlyWhen | services/atc-core/src/atc_core/gateway/loops.py:64-102 | a check reports if and only if at least threshold other calls of the same agent, tool and arguments are inside the window measured back from it |
| Routing.NamespaceReadsBack | services/atc-core/src/atc_core/gateway/registry.py:73-76 | the namespace read back from a name is the one it was built from if and only if it holds no double underscore and does not end in one |
| Routing.NamesAreDistinct | services/atc-core/src/atc_core/gateway/upstream.py:49-50 | with such namespaces, distinct pairs get distinct names |
| Routing.UpstreamPool.Connect | services/atc-core/src/atc_core/gateway/upstream.py:34-56 | the nested loop aggregates every upstream's tools, a later name replacing an earlier one |
| Routing.EveryToolIsReachable | services/atc-core/src/atc_core/gateway/upstream.py:44-86 | with clean namespaces every offered tool resolves to itself and every name leads to an offered tool |
| Routing.AdmittedIsListedAndRoutedInScope | services/atc-core/src/atc_core/gateway/server.py:119-174 | for any upstreams the tools listed are exactly the names that pass scope and resolve; a call is admitted if and only if it comes from a known agent to a tool listed to it, without a quarantine or a spent budget; it goes to the namespace its scope was checked against if and only if that namespace is clean |
| Routing.Gateway.Admit | services/atc-core/src/atc_core/gateway/server.py:140-174 | the verdict is that of the first check that fails, each with its own condition; only a known agent in scope is admitted, with the entry its name resolves to |
| Routing.UncleanNamespaceIsMischecked | services/atc-core/src/atc_core/gateway/registry.py:73-79 | an upstream whose namespace is not clean is resolved, and checked against another namespace |
| Percentile.PercentileIsSound | scripts/action_summary.py:17-25 | between the two adjacent order statistics, monotone in p across segments, and a function of the multiset alone |
| Percentile.WeightedMean | scripts/action_summary.py:17-25 | between two neighbouring ranks it is the weighted mean of the sorted values there |
| Percentile.OrderStatistics | scripts/action_summary.py:17-25 | at a rank it is the sorted value there |
| Percentile.MedianOfEven | scripts/action_summary.py:17-25 | the median of an even number of values is the mean of the two in the middle |

## Left out

- LifecycleTheorems.RunKeeps: drawn action ids are fresh, held levels are fixed for a run and no policy rule is named UNDO-COMPENSATION, as `DoBeginCall` requires.
- LifecycleProgress.LeftAloneEnds: it gives the end that lies ahead in every state; that the event loop comes round to every coroutine is not modelled.
- Lifecycle: how the gateway derives a request's resource name and argument summary from its arguments; both are fields of the request here.
- Lifecycle: a missing upstream pool (503) is a cancelled undo request there; `Routes` has the guard itself.
- Lifecycle: a pre-image is any payload of the three kinds; which one a call gets is the subject of `Capture` and `Interference`.
- Approval.ApprovalManager.WaitForDecision: a method that runs alone; blocking, waking by another coroutine and cancellation are steps of `Lifecycle`.
- Restore.UndoRestores: names beyond letters, digits, underscores and inner spaces in columns, a DROP TABLE whose quoted reference is the name of another table, case-insensitive names, tables without a primary key or with NULL keys, unique indexes, triggers, type affinity, floats and blobs are outside.
- Restore.UndoRestores: tables are equal up to the storage order of their rows.
- Interference.UndoGivesTheTargetBack: one call's own file or table; a change of it from outside or by another call between the capture's first read and the end of the undo is not merged.
- Restore.UndoRestores: statements over several tables (UPDATE ... FROM, DELETE ... USING), table aliases and schema-qualified names are outside.
- Restore.UndoRestores: conditions and assignments look at one row; subqueries, over the same table or another one, are outside.
- Literals.InsertRoundTrip: texts with a NUL character, which SQLite cuts, are not told apart.
- Database.RewritesAgree: the estimate starts from a parsed statement; the sqlglot parser and its rendering of conditions are a parameter.
- Scorer.HalfLivesHalve: stated for any decay with the laws of `math.pow(0.5, age / 600)`, over reals; floating-point rounding is not modelled.
- Loops.BurstIsReported: a check that fails is not modelled; the claim is for checks that succeed.
- Creep.LookDecides: a task lost to an error or a restart after its look leaves the action unflagged.
- Routing.UpstreamPool.Connect: retries and failing connections; the namespaces are those that connected.
- Routing.AdmittedIsListedAndRoutedInScope: bearer tokens and the loading of the registry; the gate starts from an identity or none.
- RiskEngine.Evaluate: `risk_reason` and the policy version hash, which no decision depends on.
- Records.Action: the columns span_id, resource_class and risk_reason, which nothing here reads.
- Tools.ToolServers.Write: parent directories, encodings and newline translation; error texts quote the path as it stands.
- The agents table, heartbeats, quarantine and token counts, except as values the gate checks.
- JSON encoding of journal payloads, which is taken to be the identity on null, boolean, integer and text values.
- Calls whose path or sql argument is not a string, which capture skips and the gate forwards.
- Transport, telemetry, narration, dashboards, agents and the seeder.
- Monotone clocks: nothing is claimed about the order of times of request and resolution.
