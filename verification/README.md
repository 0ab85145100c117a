# Verification model of the Kachu back end

Kachu answers customers and publishes for small merchants. Webhooks, background loops, owner
taps in LINE and the workflow engine AgentOS all act on shared rows. This project models that
behaviour as state machines whose steps are the code between two awaits, adds classes for the
tables and dictionaries that the program updates in place, and proves what holds over every
interleaving.

## How to read it

| files | subject |
|---|---|
| `Common` | options, results, `str.strip`, the first unfilled position of a list |
| `MetaEvents`, `MetaPipeline`, `MetaRecovery`, `MetaEffects`, `MetaService`, `ReplayPolicy` | Meta comments and messages: ingest, queue, replay, repair policies |
| `Suggestions`, `SuggestionRuns`, `SuggestionResults`, `SuggestionFaults`, `SuggestionCards`, `SuggestionEffects`, `SuggestionService` | proactive suggestions: owner taps, expiry, reminders and the cards they push, background preparation |
| `Approvals`, `ApprovalSync` | approvals decided in AgentOS and mirrored locally, the sync pass, the scheduled publisher |
| `LegacyBridge`, `BridgeTaps`, `ScheduledPublisher` | the first-generation bridge with deferral and its publisher |
| `PublishThrottle` | the per-key publish throttle |
| `OAuthState`, `OAuthFlow` | the one-shot state store and the flows that consume its tokens |
| `PageBinding`, `GranularScopes` | binding a tenant to a Facebook page, page ids read from token scopes |
| `Calendar` | when configured automations fire |
| `IdleRefresh`, `RankedSelection` | the idle summary refresher, rankings and highlights |

A run is a sequence of steps; a step whose guard fails changes nothing, so a statement about all
step sequences covers every interleaving. Faults are steps too: a process may end between any two
awaits and between any two committed writes of a segment (`crash`, `torn`, `cut` and `missed`
parameters), a remote call may fail, and its reply may be lost. A single repository call is atomic
and does not fail by itself. Each class method is proved against a specification function
(`Model() == ...`, `table == ...`), and the lemmas are about that function. One uvicorn worker is
assumed, as in the shipped container (`Dockerfile:18`): coroutines share one event loop, and only
plain `def` endpoints run in threads. Times are numbers on one clock that does not run backward.
External calls, language model answers and crashes are step parameters that may take any value.
About AgentOS one thing is assumed: it decides each approval once and refuses a second decision.

## Where the code and the expectation part

A property that fails is kept as the code has it, with a lemma for a failing input or run and the
exact condition under which it holds.

| property | failing case | exact condition |
|---|---|---|
| a reminder shows the suggestion that it is stamped on | `SuggestionCards.ShownTwice`, `PassDelivered` | `SuggestionCards.PassShowsOwnExact`, `MisdirectsExact` |
| a suggestion is executed at most once and its reminder card goes out at most once | `SuggestionFaults.ExecutedTwice`, `SuggestionCards.ShownTwice` | `SuggestionCards.SoundStepExact` |
| a suggestion is stamped as reminded at most once, a closed one never reopens | `SuggestionFaults.RemindedTwice`, `DismissedIsReopened` | `SuggestionRuns.StampedRevertsExact`, `SuggestionResults.ReopensExact` |
| a suggestion's status never moves backward | `SuggestionFaults.DismissedIsOverwritten` | `SuggestionResults.ForwardExact` |
| later writes keep the reminder stamp | `SuggestionFaults.ReminderStampIsLost` | `SuggestionResults.ReminderStampExact` |
| a pressed button decides a Meta reply | `MetaEffects.RejectChangesNothing`, `NothingIsRejected` | `MetaEffects.ApproveDecides`: Approve does, Reject never |
| a replay rebuilds the live draft | `MetaEvents.ObjectTextIsReordered` | `MetaEvents.RebuildsExactly` |
| a requeued approval has its engagement's tenant | `MetaRecovery.CrossTenantRequeue` | `MetaRecovery.RequeuedTenantExact` |
| replay by query repairs every listed message | `ReplayPolicy.BeyondLimitStarves` | `ReplayPolicy.RepairedExactly` |
| the approval sync closes every decided run | `ApprovalSync.HeadOfLineBlocks` | `ApprovalSync.ClosedExactly` |
| a sync write is AgentOS's last decision | `Approvals.StaleViewIsWritten` | `Approvals.SyncFreshness` |
| the outcome of a publication stays visible | `Approvals.LateWriteHidesOutcome` | `Approvals.OutcomeSurvivesExactly` |
| connector saves never exceed the connect starts | `OAuthFlow.ForeignTokenBreaksCounts` | `OAuthFlow.PresentExact` |
| a settled authorisation is saved | `OAuthFlow.SettlingSavesAll` | `OAuthFlow.SettlingSavesAll` |
| a page is replaced only with consent | `PageBinding.RacingSelections` | `PageBinding.ConsentExact` |
| every listed page is offered | `GranularScopes.ListedPageLost` | `GranularScopes.PageIdsExact` |
| an item marked as publishing ends published or failed | `LegacyBridge.MarkedIsLost` | `LegacyBridge.BegunEndsExact` |
| a second idle refresh finds nothing to do | `IdleRefresh.ClockBehindRepeats` | `IdleRefresh.RunIsFixpoint` |
| every enabled schedule fires | `Calendar.MonthlyWithoutDayNeverFires` | `Calendar.MonthlyTick` |

Their causes, briefly. `save_suggestion` merges a detached object, which writes every column
(`src/kachu_plus/persistence/repository.py:2173-2181`): the completion of a dispatch writes back the
row as it was when the dispatch began. The model carries both ways of saving (`Merge`). Writing only
the run id would keep statuses moving forward, executions and reminder stamps at one
(`SuggestionResults.ColumnSavesAreForward`, `ColumnSavesStampedAtMostOnce`); as it is no run gets
beyond two of either (`SuggestionFaults.StampedNeverMoreThanTwice`). What a reminder shows is
another matter, which saving does not touch: `_push_all` (`src/kachu_plus/proactive.py:358-374`) is
a closure over the variable of the loop that queues it, and on the event loop it runs when that loop
is over. Each push of a pass therefore sends the card of the last row listed, an oldest open one,
and the row it was queued for is stamped without being shown. Cards stay with their rows exactly if
every pass finds no row due or just that last one (`SuggestionCards.MisdirectsExact`); then the
bounds hold for cards as well (`AtMostOnce`, `ColumnSavesAtMostOnce`, `NeverMoreThanTwice`). Without
a running loop, as when the method is called from plain code, each push runs at once and shows its
own row; the scheduler never does that (`src/kachu_plus/proactive.py:438-441`). The idempotency key
of a content-gap dispatch hashes a constant text, so all suggestions of a tenant and type share it
for ever (`SuggestionResults.KeysCollide`). The handler of Reject for local approvals calls
`decide_pending_approval` without its required decision (`src/kachu_plus/line/webhook.py:1081-1085`,
`src/kachu_plus/persistence/repository.py:1740-1747`), which raises: such a reply stays as it was.
Webhook payloads are stored with sorted keys, and a JSON object in a text field is written out in
key order. Replay by query cuts to the limit before it filters, and the approval sync lists the
oldest open rows. OAuth state and selection tokens share one store, and endpoints accept each
other's tokens. A Meta callback that finds a single page asks for the page's token with an HTTP
client it has already closed, which raises. Page selections run in threads, and the overwrite check
and the bind are separate accesses. `_get_granular_scope_page_ids` shares one `seen` set between
kinds of scope.

## Model

| member | source | states |
|---|---|---|
| MetaEvents.LiveEventReplays | src/kachu_plus/meta.py:1490-1509 | every event recorded by live ingest is replayable whatever its payload holds: same message id, author id and label, thread id trimmed, text and name as the key-sorted payload writes them |
| MetaEvents.RebuildsExactly | src/kachu_plus/persistence/repository.py:1113 | replay rebuilds the live draft exactly if sorting the payload keys shows neither in the text nor in the name |
| MetaEvents.OrderedSurvives | src/kachu_plus/persistence/repository.py:1113 | values without objects, and objects with ordered keys, are stored as they are |
| MetaEvents.ObjectTextIsReordered | src/kachu_plus/meta.py:1660-1662 | a comment whose text is an object with unordered keys is replayed with another text |
| MetaEvents.StoredIdentity | src/kachu_plus/meta.py:1491-1509 | a stored row with a trimmed id column replays to the message that column names |
| MetaEvents.DedupeKeyInjective | src/kachu_plus/meta.py:1671 | within a tenant the dedupe key determines kind and message id |
| MetaEvents.LiveItemOf | src/kachu_plus/meta.py:1660-1684 | a live item records a Meta row of its kind whose id column names the message that the row replays to |
| MetaEvents.CommentRead | src/kachu_plus/meta.py:1662-1701 | what live ingest takes from a comment: ids, author, fallback name, trimmed text |
| MetaEvents.MessageRead | src/kachu_plus/meta.py:1703-1745 | the same for a private message |
| MetaEvents.StoredReading | src/kachu_plus/meta.py:1490-1509 | a replay reads the identity from the columns, from the payload as live ingest does where a column is blank, and everything else from the payload |
| MetaEvents.StoredRefused | src/kachu_plus/meta.py:1476-1506 | rows of another provider or type are refused |
| MetaEvents.StoredIsOrdered | src/kachu_plus/persistence/repository.py:1113 | a stored payload has its keys in order at every level |
| MetaPipeline.RunTextInjective | src/kachu_plus/meta.py:1393 | run ids of different messages differ |
| MetaPipeline.IngestInv | src/kachu_plus/meta.py:1660-1701 | ingesting one item, with a crash after the event row or not, keeps the invariant and loses no row |
| MetaPipeline.ResumeInv | src/kachu_plus/meta.py:1393-1427 | the inserts after the drafting call keep the invariant although check and insert are separated |
| MetaPipeline.ReplayInv | src/kachu_plus/meta.py:1511-1564 | a replay, crashing after the run id or not, keeps the invariant and rewrites no existing approval |
| MetaPipeline.RunInv | src/kachu_plus/meta.py:1371-1564 | exactly once: over all interleavings, crashes, owner decisions and edits each row is inserted at most once and linked at most once, approval implies engagement implies event, the two rows point at each other, and rows keep what they are about modulo the reply draft |
| MetaPipeline.RunEvents | src/kachu_plus/meta.py:1671-1684 | along every run each recorded Meta row is regular: its id column names the message that it replays to |
| MetaRecovery.ReplayCompletesSurvivor | src/kachu_plus/meta.py:1511-1549 | replaying an event whose engagement survived leaves event, engagement and approval linked |
| MetaRecovery.RecoveryConverges | src/kachu_plus/meta.py:1476-1564 | from every reachable state one replay completes the message at once, or its task or the next replay does, whatever happens between |
| MetaRecovery.CompleteIsStable | src/kachu_plus/meta.py:1385-1387 | once complete, replays, redeliveries and decisions on other messages leave the three rows unchanged; only the owner's decision or edit writes them |
| MetaRecovery.CompleteStays | src/kachu_plus/meta.py:1371-1564 | once complete a message stays complete and linked in every run, and its rows keep what they are about; decisions and edits change the status, the reply draft and nothing else |
| MetaRecovery.ApprovalAnswers | src/kachu_plus/line/webhook.py:1114-1142 | an approved reply puts the posted text into the engagement of its own message and into no other |
| MetaRecovery.RedeliveryNeverRepairs | src/kachu_plus/meta.py:1672-1687 | redelivery alone never restores a lost engagement |
| MetaRecovery.RequeuedTenantExact | src/kachu_plus/meta.py:1527-1533 | a repaired approval has its engagement's tenant exactly if the replayed event has |
| MetaRecovery.CrossTenantRequeue | src/kachu_plus/meta.py:1511-1533 | a run in which the tenants of approval and engagement differ |
| MetaEffects.QueuedReplyIsPending | src/kachu_plus/meta.py:1393-1437 | a drafted reply is queued pending, for its tenant, with the reply, question, author and source of its task |
| MetaEffects.QueueTouchesOnly | src/kachu_plus/meta.py:1393-1437 | queueing one message touches no row of another |
| MetaEffects.RecreatedReplyIsPending | src/kachu_plus/meta.py:1516-1549 | an approval recreated by a replay is pending too, with what the engagement kept and the tenant of the event |
| MetaEffects.ReplayTouchesOnly | src/kachu_plus/meta.py:1511-1549 | a replay changes a surviving engagement in its run id at most, and no other row |
| MetaEffects.ReplayRestarts | src/kachu_plus/meta.py:1551-1564 | a replay of a lost message starts its task again with what the event says |
| MetaEffects.IngestRecords | src/kachu_plus/meta.py:1660-1701 | a new usable item of somebody else is recorded as it is and drafted |
| MetaEffects.IngestSkips | src/kachu_plus/meta.py:1667-1688 | any other item changes nothing |
| MetaEffects.RejectChangesNothing | src/kachu_plus/line/webhook.py:1080-1085 | a pressed Reject button raises before anything is written |
| MetaEffects.NothingIsRejected | src/kachu_plus/line/webhook.py:1080-1085 | over every run a reply is pending, published or not delivered, unless another status is written by other means |
| MetaEffects.ApproveDecides | src/kachu_plus/line/webhook.py:1118-1135 | an approval says whether the reply was posted, whatever its status was before |
| MetaEffects.ApproveWrites | src/kachu_plus/line/webhook.py:1114-1142 | an approval writes the engagement that its drafts name |
| MetaEffects.EditAsksAgain | src/kachu_plus/line/webhook.py:1632-1645 | an edit replaces the reply and makes the approval pending again |
| MetaEffects.UndecidedIsPending | src/kachu_plus/meta.py:1371-1564 | over every run a reply is pending unless its owner approved, edited or marked it |
| MetaService.Pipeline.RecordWebhookEventIfNew | src/kachu_plus/persistence/repository.py:1078-1119 | atomic insert-if-absent on the event key |
| MetaService.Pipeline.CreateExternalEngagement | src/kachu_plus/persistence/repository.py:2009-2046 | a second insert for a message id fails and changes nothing |
| MetaService.Pipeline.SavePendingApproval | src/kachu_plus/persistence/repository.py:1641-1679 | upsert by run id that makes the row pending again |
| MetaService.Pipeline.StartDrafting | src/kachu_plus/meta.py:1384-1388 | a known message ends as duplicate, any other suspends in drafting |
| MetaService.Pipeline.IngestItem | src/kachu_plus/meta.py:1660-1701 | one webhook item moves the tables as the pipeline model says and counts as processed exactly if it is new |
| MetaService.Pipeline.ResumeQueue | src/kachu_plus/meta.py:1393-1437 | engagement and pending approval inserted, or nothing when another task was faster |
| MetaService.Pipeline.ReplayStored | src/kachu_plus/meta.py:1476-1564 | the replay of a stored event up to its first await, errors included |
| ReplayPolicy.PoliciesExact | src/kachu_plus/admin.py:209-229 | on regular rows the repair policies are disjoint and select exactly the events whose replay creates a missing row |
| ReplayPolicy.PoliciesExactInEveryRun | src/kachu_plus/admin.py:209-229 | the same for every event of every run of the pipeline |
| ReplayPolicy.CreatesExact | src/kachu_plus/meta.py:1508-1564 | a replay creates a row exactly if the event is readable and its message lacks engagement or approval |
| ReplayPolicy.PolicyAgreesExactly | src/kachu_plus/admin.py:214-227 | for any Meta row the table may hold, policy and replay agree exactly if id and payload are both usable or both not, or the message named is done anyway |
| ReplayPolicy.QueryReachesFixpoint | src/kachu_plus/admin.py:523-572 | after an error-free replay of the selection the same query over the same listing selects nothing |
| ReplayPolicy.FixpointInEveryRun | src/kachu_plus/admin.py:523-572 | the same after every run of the pipeline, for every listing |
| ReplayPolicy.FilterSpec | src/kachu_plus/admin.py:532-534 | the selection is exactly the listed events that the policy selects |
| ReplayPolicy.BeyondLimitStarves | src/kachu_plus/admin.py:523-534 | a lost message that no event within the limit names is never repaired, under any policy and number of rounds |
| ReplayPolicy.RepairedExactly | src/kachu_plus/admin.py:523-572 | rounds of `missing_engagement` repair a lost message exactly if an event within the limit names it |
| ReplayPolicy.RepairedExactlyInEveryRun | src/kachu_plus/admin.py:523-572 | the same after every run, for every listing and limit |
| ReplayPolicy.ReplayAllCompletes | src/kachu_plus/admin.py:544-565 | every readable event of a replayed list ends complete |
| ReplayPolicy.ReplayQuery | src/kachu_plus/admin.py:514-573 | refusal of an unsupported policy, selection, result list, counters, early stop and final tables |
| ReplayPolicy.ReplayBatch | src/kachu_plus/admin.py:463-511 | the batch loop: missing ids count as errors, found events are replayed in order, early stop |
| ReplayPolicy.ReplayOne | src/kachu_plus/admin.py:169-192 | one replay with its drafting; it succeeds exactly for a readable Meta event or a LINE event whose own replay does |
| ReplayPolicy.MatchesExact | src/kachu_plus/admin.py:209-229 | which rows each policy selects, and when a policy is refused |
| ReplayPolicy.ClampLimit | src/kachu_plus/admin.py:523 | the limit is clamped to 1..200, with 50 for zero |
| ReplayPolicy.OutcomesExact | src/kachu_plus/admin.py:544-565 | the result list says of each event in order whether it could be replayed |
| ReplayPolicy.BatchExact | src/kachu_plus/admin.py:474-504 | the same for the ids of a batch, an id without an event of the tenant being an error |
| ReplayPolicy.FoundKeysExact | src/kachu_plus/admin.py:475-482 | the events of a batch that are replayed |
| SuggestionRuns.ScanInv | src/kachu_plus/proactive.py:92-99 | a scan creates no second live suggestion of a tenant and type |
| SuggestionRuns.RemindInv | src/kachu_plus/proactive.py:344-399 | a reminder pass, cut short by a crash or not, keeps the invariants: it stamps a row at most once and in its last twelve hours, and every push it queues belongs to a stamp and shows a row of that tenant |
| SuggestionRuns.SendInv | src/kachu_plus/suggestions.py:258-305 | claiming a row for sending counts one execution and stamps acceptance and sending |
| SuggestionRuns.FinishSendInv | src/kachu_plus/suggestions.py:307-323 | the completion of an owner send, torn or not, keeps both invariants under both ways of saving |
| SuggestionRuns.FinishPrepInv | src/kachu_plus/proactive.py:229-258 | the completion of background preparation, torn between its writes or not, keeps the basic invariant always and the full one unless it reverts the row |
| SuggestionRuns.RunInv | src/kachu_plus/suggestions.py:178-323 | over every interleaving and crash the basic invariant holds (stamps vouch for statuses, one idempotency key, reminder stamps in their window); while no step reverts a row also at most one execution and one reminder stamp, no reopening, one live suggestion per tenant and type |
| SuggestionRuns.StampedRevertsExact | src/kachu_plus/proactive.py:229-258 | a step breaks the full invariant, which counts reminder stamps, exactly if it is a whole-row preparation write, torn by a crash, over a row closed or stamped since its copy was taken |
| SuggestionRuns.ColumnsNeverRevert | src/kachu_plus/proactive.py:229-230 | writing only the run id, no step of any run reverts a row |
| SuggestionResults.EveryRun | src/kachu_plus/proactive.py:344-399 | from the empty table, in every run: one idempotency key per row, stamps for every status, reminder stamps only between twelve hours before expiry and expiry |
| SuggestionResults.StampedAtMostOnce | src/kachu_plus/suggestions.py:258-323 | at most one execution and one stamped reminder in every run without a reverting step |
| SuggestionResults.ColumnSavesStampedAtMostOnce | src/kachu_plus/suggestions.py:258-323 | with column saves that holds in every run |
| SuggestionResults.ReopensExact | src/kachu_plus/proactive.py:229-230 | a closed row reopens exactly in a torn whole-row preparation write |
| SuggestionResults.ClosedIsQuiet | src/kachu_plus/suggestions.py:211-212 | while no such step reopens it, nothing executes a closed suggestion or stamps a reminder on it, whatever happens to others |
| SuggestionResults.ClosedShowsNothing | src/kachu_plus/proactive.py:354 | nor is its card pushed by any pass after it closed |
| SuggestionResults.NextIsApply | src/kachu_plus/suggestions.py:199-323 | what a step does to one suggestion, for every step and crash |
| SuggestionResults.ForwardExact | src/kachu_plus/proactive.py:229-258 | a status moves backward exactly when a completing dispatch saves its whole row over a status that got past what it writes |
| SuggestionResults.ColumnSavesAreForward | src/kachu_plus/proactive.py:229-230 | writing only the run id would keep every status moving forward |
| SuggestionResults.FinalStays | src/kachu_plus/suggestions.py:211-212 | with no dispatch in flight a dismissed, expired or reported suggestion stays so over every run, under both ways of saving |
| SuggestionResults.ReminderStampExact | src/kachu_plus/proactive.py:391-398 | a later write drops the reminder stamp exactly if it stores a copy taken before the reminder |
| SuggestionResults.RunContent | src/kachu_plus/suggestions.py:380-390 | drafts are never blank, and a sent row names the run its execution record names |
| SuggestionResults.KeysCollide | src/kachu_plus/services.py:360-368 | keys of two suggestions are equal exactly if tenant and type are |
| SuggestionFaults.DismissedIsOverwritten | src/kachu_plus/proactive.py:214-258 | a run that turns a dismissed suggestion into a sent one |
| SuggestionFaults.DismissedIsReopened | src/kachu_plus/proactive.py:229-251 | the same run with a crash between the two writes leaves the dismissed suggestion pending |
| SuggestionFaults.ExecutedTwice | src/kachu_plus/proactive.py:229-251 | a run with a crash between the two writes and two owner executions |
| SuggestionFaults.RemindedTwice | src/kachu_plus/proactive.py:229-251 | a run with a crash between the two writes, two reminder stamps and two pushes of one card |
| SuggestionFaults.ReminderStampIsLost | src/kachu_plus/proactive.py:214-258 | a run without crash that ends with the reminder stamp gone |
| SuggestionFaults.StampedNeverMoreThanTwice | src/kachu_plus/proactive.py:197-258 | in every run, under both ways of saving and wherever it crashes, at most two executions and two stamped reminders per suggestion |
| SuggestionCards.PassShowsOwnExact | src/kachu_plus/proactive.py:354-399 | every row stamped in a pass is shown and nothing else is, exactly if no row is due or only the one listed last |
| SuggestionCards.PassDelivered | src/kachu_plus/proactive.py:358-388 | whichever pushes of a pass go out, the row listed last is shown once for each of them and no other row is shown |
| SuggestionCards.PassQueuesAtMostFour | src/kachu_plus/proactive.py:354-366 | while nothing reverted, a pass has at most four due rows, one per type |
| SuggestionCards.RunCards | src/kachu_plus/proactive.py:354-399 | in every run each stamped reminder sends one card at most, whichever suggestion it shows |
| SuggestionCards.MisdirectsExact | src/kachu_plus/proactive.py:358-374 | cards stay with the rows they were queued for exactly until a pass has a due row that is not the last one listed |
| SuggestionCards.SoundStepExact | src/kachu_plus/proactive.py:229-399 | a step breaks at most one execution, stamp and own card per suggestion, or lets a closed one reopen, exactly if it reverts a row or is such a pass |
| SuggestionCards.AtMostOnce | src/kachu_plus/proactive.py:354-399 | at most one execution and one reminder card in every run whose steps are neither |
| SuggestionCards.ColumnSavesAtMostOnce | src/kachu_plus/proactive.py:354-399 | with column saves it is enough that no pass is of that kind |
| SuggestionCards.NeverMoreThanTwice | src/kachu_plus/proactive.py:197-399 | whatever is reverted, at most two executions and two reminder cards while no pass is of that kind |
| SuggestionCards.ShownTwice | src/kachu_plus/proactive.py:354-399 | a run without crash, under both ways of saving: the first suggestion's card goes out twice, the second one is stamped and never shown |
| SuggestionEffects.Dismisses | src/kachu_plus/suggestions.py:214-228 | dismissing an open suggestion leaves it dismissed, stamped with time and actor, and nothing else changed |
| SuggestionEffects.Accepts | src/kachu_plus/suggestions.py:230-248 | accepting leaves it accepted, with the stamp and the edited draft |
| SuggestionEffects.Reports | src/kachu_plus/suggestions.py:178-196 | reporting a sent one leaves it reported, with the stamp |
| SuggestionEffects.Sends | src/kachu_plus/suggestions.py:258-305 | sending claims it: sending, both stamps, one execution more |
| SuggestionEffects.SendStarts | src/kachu_plus/suggestions.py:326-390 | the task and the idempotency key that a send starts, by type |
| SuggestionEffects.SendCut | src/kachu_plus/suggestions.py:278-291 | a crash before the claim leaves it accepted |
| SuggestionEffects.Refused | src/kachu_plus/suggestions.py:211-212 | a request that the status does not allow changes nothing |
| SuggestionEffects.SendFinishes | src/kachu_plus/suggestions.py:307-323 | run id, execution record, stamp and status after the execution |
| SuggestionEffects.PreparationStarts | src/kachu_plus/proactive.py:207-226 | the background task dispatches a pending row only, and holds a copy of it |
| SuggestionEffects.PreparationFinishes | src/kachu_plus/proactive.py:229-258 | run id, record, the stamps of the system and the status after the dispatch |
| SuggestionEffects.ScanExpires | src/kachu_plus/persistence/repository.py:2201-2222 | exactly the overdue open rows of the tenant expire |
| SuggestionEffects.ScanCreates | src/kachu_plus/proactive.py:92-99 | a nudge creates a suggestion exactly if none of its type is live |
| SuggestionEffects.ScanCreatesNew | src/kachu_plus/proactive.py:141-153 | the new one is pending for a day with nothing on it |
| SuggestionEffects.PassStampsDue | src/kachu_plus/proactive.py:354-399 | a reminder pass stamps exactly the open rows in their last twelve hours that have no stamp |
| SuggestionEffects.DismissalHolds | src/kachu_plus/suggestions.py:211-223 | after a dismissal with nothing in flight no run sends, stamps, shows or reopens it |
| SuggestionService.Service.UpdateSuggestionStatus | src/kachu_plus/persistence/repository.py:2224-2250 | guarded compare-and-set: None for a missing row, an error for a status not allowed |
| SuggestionService.Service.SaveSuggestion | src/kachu_plus/persistence/repository.py:2173-2181 | the whole row is overwritten |
| SuggestionService.Service.ExpireDueSuggestions | src/kachu_plus/persistence/repository.py:2201-2222 | exactly the tenant's overdue open rows expire, and they are counted |
| SuggestionService.Service.GetLatestActiveSuggestion | src/kachu_plus/persistence/repository.py:2183-2199 | the newest active row of the type, None only if there is none |
| SuggestionService.Service.HandleSuggestionAction | src/kachu_plus/suggestions.py:199-255 | accept and dismiss with their 404 and 409 cases, and what a crash after the draft save leaves |
| SuggestionService.Service.BeginSend | src/kachu_plus/suggestions.py:258-305 | the send request up to the execution, and what a crash between its writes leaves |
| SuggestionService.Service.FinishSend | src/kachu_plus/suggestions.py:307-323 | run id saved, then sending to sent, a conflict, or a crash in between |
| SuggestionService.Service.ReportSuggestion | src/kachu_plus/suggestions.py:172-196 | reporting needs a sent row |
| SuggestionService.Service.FinishAutoPrepare | src/kachu_plus/proactive.py:229-258 | the background task's two writes, or the first one only |
| SuggestionService.Service.RunOnceForTenant | src/kachu_plus/proactive.py:92-153 | expire, look for an active row, create otherwise |
| SuggestionService.Service.SendDueReminders | src/kachu_plus/proactive.py:344-399 | exactly the due rows are stamped after the overdue ones expired, and one card is queued for each, all showing the row listed last and naming the earliest expiry among the due rows |
| SuggestionService.Service.PushReminders | src/kachu_plus/proactive.py:354-399 | the loop over the listing, newest first, whose queued pushes find its variables as it left them |
| SuggestionService.Service.ListPendingSuggestions | src/kachu_plus/persistence/repository.py:2252-2259 | the tenant's open rows, each once, newest first |
| SuggestionService.BackgroundRows | src/kachu_plus/persistence/repository.py:2201-2259 | which rows the background work expires, stamps and lists |
| Approvals.RunInv | src/kachu_plus/approval.py:81-187 | under concurrent taps, lost replies and stale views a locally decided row of an AgentOS workflow has an approval of its run decided that way, and each approval is written by the bridge at most once |
| Approvals.EveryRunAgrees | src/kachu_plus/approval.py:99-110 | the same for one row of any run from the empty state |
| Approvals.UndisturbedTap | src/kachu_plus/approval.py:81-110 | an undisturbed tap decides the first open approval in AgentOS and writes the same decision locally |
| Approvals.DecideArrivesInv | src/kachu_plus/approval.py:99-104 | AgentOS decides an approval once and only an open one |
| Approvals.SyncWritesInv | src/kachu_plus/approval.py:295-316 | a sync write takes a decision that AgentOS holds, however old the view |
| Approvals.SyncFreshness | src/kachu_plus/approval.py:295-316 | a sync write leaves AgentOS's last decision exactly if, of the approvals after the view's last decision, none was decided since or the last one the same way |
| Approvals.StaleViewIsWritten | src/kachu_plus/approval.py:292-316 | a run from the empty state in which a stale view writes approved over a later rejection |
| Approvals.OutcomeSurvivesExactly | src/kachu_plus/approval.py:105-110 | a published or failed status survives a step exactly if the step is no reply in flight for the run, no deciding sync write, no notification and no other change of it |
| Approvals.LateWriteHidesOutcome | src/kachu_plus/approval.py:105-110 | the late local write overwrites a publication outcome that came first |
| Approvals.LastDecisionHeld | src/kachu_plus/approval.py:295-299 | the terminal decision is the last approved or rejected entry of the view |
| Approvals.TapMoves | src/kachu_plus/approval.py:81-104 | a tap goes on with the first open approval, or ends |
| Approvals.DecisionArrives | src/kachu_plus/approval.py:99-104 | an open approval is decided as asked, a decided one stays |
| Approvals.ReplyWrites | src/kachu_plus/approval.py:105-110 | the reply writes the decision that was taken to its row |
| Approvals.SyncMoves | src/kachu_plus/approval.py:289-316 | a sync call writes what AgentOS said last in what it fetched |
| Approvals.LocalMoves | src/kachu_plus/persistence/repository.py:1641-1679 | notifications and other writers |
| ApprovalSync.SecondPassExact | src/kachu_plus/approval.py:283-318 | with AgentOS unchanged a second pass writes nothing exactly if what it newly lists is undecided or unreachable |
| ApprovalSync.QuietWithinLimit | src/kachu_plus/approval.py:284-288 | within the limit a second pass writes nothing |
| ApprovalSync.PassesDrainAll | src/kachu_plus/approval.py:283-318 | when AgentOS decided all open runs, passes close them at the rate of the limit until none is left |
| ApprovalSync.HeadOfLineBlocks | src/kachu_plus/persistence/repository.py:1686-1704 | as many older undecided rows as the limit keep a decided row open for ever |
| ApprovalSync.EventuallyClosed | src/kachu_plus/approval.py:283-318 | with fewer undecided open runs ahead than the limit, a decided run is closed after one pass more than there are decided runs ahead |
| ApprovalSync.ClosedExactly | src/kachu_plus/approval.py:283-318 | with fixed answers a decided open run is closed by enough passes exactly if fewer undecided open runs than the limit are ahead of it |
| ApprovalSync.ScheduledPublishAt | src/kachu_plus/approval.py:22-34 | the first nine o'clock more than ten minutes ahead |
| ApprovalSync.ApprovalTable.SavePendingApproval | src/kachu_plus/persistence/repository.py:1641-1679 | upsert that reopens the row and keeps its creation time |
| ApprovalSync.ApprovalTable.DecidePendingApproval | src/kachu_plus/persistence/repository.py:1740-1764 | unguarded status write, nothing on a missing row |
| ApprovalSync.ApprovalTable.DeferWithSchedule | src/kachu_plus/approval.py:123-162 | a known run and a readable time become scheduled, anything else changes nothing |
| ApprovalSync.ApprovalTable.ListPendingApprovals | src/kachu_plus/persistence/repository.py:1686-1704 | the oldest open rows of AgentOS workflows, at most the limit |
| ApprovalSync.ApprovalTable.LatestTerminal | src/kachu_plus/approval.py:295-300 | the loop over the reversed approvals finds the last decision |
| ApprovalSync.ApprovalTable.SyncOpenApprovals | src/kachu_plus/approval.py:283-318 | every listed reachable row gets the decision that AgentOS says last, every other row stays as it was, checked = synced + skipped + failed |
| ApprovalSync.ApprovalTable.ProcessDueApprovals | src/kachu_plus/approval.py:229-244 | due rows are approved in order, missing runs stay due, an exception ends the pass |
| ApprovalSync.ListingMeans | src/kachu_plus/persistence/repository.py:1686-1704 | what the listing holds and in which order |
| ApprovalSync.SyncedExact | src/kachu_plus/approval.py:289-316 | each listed run gets the decision that AgentOS says last, every other row stays |
| ApprovalSync.TerminatedExact | src/kachu_plus/approval.py:289-318 | the counter of decided runs |
| ApprovalSync.UnreachableExact | src/kachu_plus/approval.py:289-318 | the counter of unreachable runs |
| LegacyBridge.RunInv | src/kachu/approval_bridge.py:68-198 | the invariant of bridge and publisher over every interleaving |
| LegacyBridge.LocalAndCheckpoints | src/kachu/approval_bridge.py:91-117 | a system checkpoint is approved only in a run its owner approved; locally scheduled or decided rows have that decision in AgentOS |
| LegacyBridge.DeferredOnce | src/kachu/approval_bridge.py:171-194 | a deferral yields at most one item, posted at most once, after AgentOS accepted the rejection |
| LegacyBridge.DeferralIsScheduled | src/kachu/line/webhook.py:1256-1289 | a deferral without a crash between its two writes leaves a scheduled row and one waiting item |
| LegacyBridge.DueItemIsPublished | src/kachu/scheduler.py:411-440 | a listed due item is marked, posted once and published when the answer says so |
| LegacyBridge.BegunEndsExact | src/kachu/scheduler.py:423-467 | over all runs and crashes: an item marked as publishing ends published or failed exactly if its handler reaches its last write, and otherwise still says publishing |
| LegacyBridge.InHandStep | src/kachu/scheduler.py:427-467 | what each step does to the item in hand; only an unreadable answer or a restart leaves it stuck |
| LegacyBridge.MarkedIsLost | src/kachu/scheduler.py:423-430 | a crash between the mark and the post: the item is never posted |
| LegacyBridge.SettledForever | src/kachu/persistence/repository.py:615-630 | a published, failed or stuck item is never touched again |
| BridgeTaps.UndisturbedReject | src/kachu/approval_bridge.py:55-123 | a pressed Reject button rejects the first open approval in AgentOS and the local row |
| BridgeTaps.UndisturbedApprove | src/kachu/approval_bridge.py:55-123 | a pressed Approve button approves both |
| BridgeTaps.UndisturbedCheckpoint | src/kachu/approval_bridge.py:91-115 | if the run still waits, the next open approval is approved by the system |
| BridgeTaps.UndisturbedLastApproval | src/kachu/approval_bridge.py:94-96 | without one only the owner's approval stands |
| BridgeTaps.UndisturbedDefer | src/kachu/approval_bridge.py:156-198 | a deferral rejects in AgentOS, schedules the row and leaves one item |
| BridgeTaps.LostReply | src/kachu/approval_bridge.py:89 | a lost reply leaves the decision in AgentOS only |
| BridgeTaps.TapOnNothing | src/kachu/approval_bridge.py:60-66 | a tap without an open approval ends without a trace |
| BridgeTaps.EveryDecisionWasTapped | src/kachu/approval_bridge.py:55-123 | over all runs an owner's approval comes from Approve, a rejection from Reject or a deferral, and local rows say so only then |
| BridgeTaps.PassStarts | src/kachu/scheduler.py:411-415 | what the publisher takes up |
| BridgeTaps.PublisherMoves | src/kachu/scheduler.py:423-467 | mark, post, and the status that the answer says |
| ScheduledPublisher.BundlePublishedExact | src/kachu/scheduler.py:510-529 | a bundle counts as published exactly if a platform or a part of it says so |
| ScheduledPublisher.InterpretResult | src/kachu/scheduler.py:496-538 | verdict and message for every JSON object |
| ScheduledPublisher.Publisher.PublishOne | src/kachu/scheduler.py:423-467 | marked before the post, at most one post, settled unless the answer crashes the handler |
| ScheduledPublisher.Publisher.DispatchScheduledPublishes | src/kachu/scheduler.py:411-467 | one pass: each begun item posted at most once, a crash leaves the rest untouched |
| ScheduledPublisher.SettleExact | src/kachu/scheduler.py:423-467 | published exactly for an answer that says so, publishing for one that is no object, failed otherwise |
| ScheduledPublisher.MessagesSnoc | src/kachu/scheduler.py:510-538 | which messages are told |
| PublishThrottle.LockKeyInjective | src/kachu_plus/publishing.py:34 | throttled keys never share a lock entry |
| PublishThrottle.RunInv | src/kachu_plus/publishing.py:27-43 | the lock and timing invariant over any number of threads |
| PublishThrottle.SectionsApart | src/kachu_plus/publishing.py:36-43 | sections of one key never overlap and start the interval after every earlier normal end |
| PublishThrottle.RunningApart | src/kachu_plus/publishing.py:36-43 | the same for a running section, and other keys hold other locks |
| PublishThrottle.RaisedIsNotCounted | src/kachu_plus/publishing.py:42-43 | a section that raised does not delay the next one |
| PublishThrottle.Throttle.LockFor | src/kachu_plus/publishing.py:29-35 | no lock without an interval, otherwise the key's one lock |
| PublishThrottle.Throttle.Remaining | src/kachu_plus/publishing.py:37-41 | the sleep reaches the wake time of the model |
| PublishThrottle.Throttle.Completed | src/kachu_plus/publishing.py:43 | the completion stamp |
| PublishThrottle.MinInterval | src/kachu_plus/publishing.py:16-24 | which setting is whose interval, none below zero |
| PublishThrottle.ArrivingWaits | src/kachu_plus/publishing.py:33-35 | a thread waits for its key's lock |
| PublishThrottle.AcquiringSleeps | src/kachu_plus/publishing.py:36-41 | the sleep ends exactly when the interval since the last normal end is over |
| PublishThrottle.SectionRuns | src/kachu_plus/publishing.py:42-43 | a section that ends is stamped, one that raises is not |
| OAuthState.LazyCleaningIsInvisible | src/kachu/auth/oauth.py:794-829 | every call sequence gets the answers of the one-shot map that is never cleaned |
| OAuthState.OneShot | src/kachu/auth/oauth.py:814-829 | a stored token pays its payload once, exactly if its age allows |
| OAuthState.AtMostTenMinutes | src/kachu/auth/oauth.py:794-811 | at most 600 seconds are honoured whatever ttl is set, and after a store no entry is older; both up to the time between the two clock reads of the call |
| OAuthState.PendingStates.CleanupExpired | src/kachu/auth/oauth.py:794-802 | exactly the entries older than 600 seconds go |
| OAuthState.PendingStates.StorePendingState | src/kachu/auth/oauth.py:805-811 | clean, then store |
| OAuthState.PendingStates.PopPendingState | src/kachu/auth/oauth.py:814-829 | clean, then pop and check the ttl |
| OAuthState.StrippedExact | src/kachu/auth/oauth.py:826-829 | every key but the two bookkeeping ones keeps its value |
| OAuthFlow.PresentExact | src/kachu/auth/oauth.py:964-985 | presenting a token keeps per-start conservation exactly if the endpoint saves nothing beyond what the token stands for |
| OAuthFlow.FinishGood | src/kachu/auth/oauth.py:1030-1087 | finishing a callback or a selection conserves saves, tokens and requests |
| OAuthFlow.SettlingSavesAll | src/kachu/auth/oauth.py:1016-1075 | a settled request saves all it stands for exactly if it is no Meta callback with an access token and a single page; one that asks for a choice passes the rest on |
| OAuthFlow.RunGood | src/kachu/auth/oauth.py:937-1474 | conservation over every run of harmless presentations |
| OAuthFlow.EveryHarmlessRunConserves | src/kachu/auth/oauth.py:937-1474 | per platform, saves plus outstanding tokens never exceed the starts |
| OAuthFlow.ForeignTokenBreaksCounts | src/kachu/auth/oauth.py:1284-1293 | a Google state accepted by the Meta callback and a page chosen save a connector nobody started |
| OAuthFlow.EverySaveIsOwn | src/kachu/auth/oauth.py:1150 | over all runs every save goes to the tenant that started the flow; only blanks at the ends of its id may be missing |
| OAuthFlow.ConnectStarts | src/kachu/auth/oauth.py:913-961 | a connect call leaves one token for what it asks |
| OAuthFlow.TokensGoOnce | src/kachu/auth/oauth.py:814-829 | a presented or expired token is used up |
| OAuthFlow.GoogleCallbackFinishes | src/kachu/auth/oauth.py:1030-1087 | what the Google callback saves and which token it stores |
| OAuthFlow.MetaCallbackFinishes | src/kachu/auth/oauth.py:1284-1365 | the same for the Meta callback |
| OAuthFlow.SelectionFinishes | src/kachu/auth/oauth.py:1138-1181 | what a selection saves |
| Common.StripSpec | src/kachu/auth/oauth.py:1150 | trimming removes blanks at the two ends and nothing else |
| PageBinding.RunInv | src/kachu_plus/meta.py:1046-1171 | the session and bind invariant over every interleaving |
| PageBinding.ConsentExact | src/kachu_plus/meta.py:1121-1149 | a page is replaced without consent exactly when repeating the check at bind time would refuse |
| PageBinding.RacingSelections | src/kachu_plus/meta.py:1121-1149 | two selections that check before either binds |
| PageBinding.SelectIsThreeSteps | src/kachu_plus/meta.py:1112-1171 | an uninterrupted selection is its check, bind and completion |
| PageBinding.CallsNeedConsent | src/kachu_plus/meta.py:1121-1141 | in whole calls a connector moves between pages only with overwrite |
| PageBinding.BoundPageStays | src/kachu_plus/meta.py:1121-1141 | a bound page survives every run of calls without a disconnect or an agreed overwrite |
| PageBinding.CompletionBinds | src/kachu_plus/meta.py:1143-1160 | the call that completes a session has just bound its tenant to a stored candidate |
| PageBinding.EveryRunSelectsOffered | src/kachu_plus/meta.py:1116-1119 | selected pages were stored candidates, completed sessions performed their bind |
| PageBinding.OAuthFlowService.SelectPage | src/kachu_plus/meta.py:1112-1171 | all four outcomes with their effect |
| PageBinding.OAuthFlowService.HandleCallback | src/kachu_plus/meta.py:1046-1088 | expiry, denial, missing code, no pages, candidates stored |
| PageBinding.OAuthFlowService.Disconnect | src/kachu_plus/meta.py:1190-1194 | the active connector goes |
| PageBinding.CallbackMoves | src/kachu_plus/meta.py:1046-1088 | what a callback makes of its session |
| PageBinding.CheckMoves | src/kachu_plus/meta.py:1112-1141 | unknown page, question to the owner, or on to the bind |
| PageBinding.SelectMoves | src/kachu_plus/meta.py:1112-1171 | the three outcomes of a whole selection |
| PageBinding.TasksMove | src/kachu_plus/meta.py:1143-1160 | bind and completion |
| GranularScopes.PageIdsExact | src/kachu_plus/meta.py:1269-1310 | which target ids are returned: distinct, by the scope of their first mention |
| GranularScopes.ListedPageLost | src/kachu_plus/meta.py:1301-1310 | the order of scopes decides whether a listed page is lost |
| GranularScopes.GranularScopePageIds | src/kachu_plus/meta.py:1291-1310 | the nested loop computes that answer |
| GranularScopes.RelevantExact | src/kachu_plus/meta.py:1293-1300 | which scopes are read |
| GranularScopes.MentionsSteps | src/kachu_plus/meta.py:1293-1304 | which targets count, in which order |
| Calendar.DateOf | src/kachu/scheduler.py:143-169 | the date of a day number, inverse of the ordinal, leap years included |
| Calendar.LocalHourShift | src/kachu/scheduler.py:116-123 | the local hour is the one that a zone of fixed offset shows at the tick; hourly ticks are consecutive local hours |
| Calendar.NormalizeHour | src/kachu/scheduler.py:125-130 | a number is clamped to the nearer end of 0..23, anything else is the default |
| Calendar.NormalizeDay | src/kachu/scheduler.py:132-137 | a number is clamped to the nearer end of 1..28, anything else is the default |
| Calendar.DailyOnce | src/kachu/scheduler.py:158-159 | a daily schedule fires exactly once per local day |
| Calendar.WeeklyOnce | src/kachu/scheduler.py:160-163 | a weekly schedule fires exactly once in any seven consecutive local days |
| Calendar.MonthlyOnce | src/kachu/scheduler.py:164-167 | a monthly schedule fires exactly once per calendar month |
| Calendar.DailyTick | src/kachu/scheduler.py:125-159 | raw settings, any offset: one scheduler tick per local day, the set hour less the offset |
| Calendar.WeeklyTick | src/kachu/scheduler.py:125-163 | raw settings, any offset: one scheduler tick in any seven consecutive local days, on the set weekday and hour less the offset |
| Calendar.MonthlyTick | src/kachu/scheduler.py:125-167 | raw settings, any offset: one scheduler tick in any calendar month, on the set day and hour less the offset |
| Calendar.MonthlyWithoutDayNeverFires | src/kachu/scheduler.py:238-244 | without a day a monthly schedule never fires |
| Calendar.BucketIsPeriod | src/kachu/scheduler.py:143-169 | two firing ticks share a bucket exactly if they lie in one period |
| Calendar.OneKeyPerPeriod | src/kachu/scheduler.py:217 | schedule idempotency keys are one per period |
| Calendar.LocalDayExact | src/kachu/scheduler.py:116-123 | the local day is the one the zone's clock is in |
| Calendar.YearStartExact | src/kachu/scheduler.py:143-169 | the leap years in closed form |
| Calendar.MonthStartExact | src/kachu/scheduler.py:143-169 | the lengths of the months in closed form |
| Calendar.DayTextShows | src/kachu/scheduler.py:158-167 | a bucket's text shows year, month and day |
| Calendar.KeyNamesAll | src/kachu/scheduler.py:217 | a key names kind of task, tenant and bucket |
| IdleRefresh.LatestSpec | src/kachu_plus/learning.py:260-264 | the latest conversation is the newest one |
| IdleRefresh.RunSettles | src/kachu_plus/learning.py:232-251 | after a run no listed tenant is due, and tenants not due are untouched |
| IdleRefresh.SettledExact | src/kachu_plus/learning.py:232-251 | whatever stamps and exceptions, a run settles a due tenant exactly if one of its refreshes is stamped no earlier than its latest conversation |
| IdleRefresh.RunIsFixpoint | src/kachu_plus/learning.py:232-251 | the same run again refreshes nobody exactly if every tenant that was due got such a stamp |
| IdleRefresh.CleanRunIsFixpoint | src/kachu_plus/learning.py:232-251 | with a clock that does not run backward it always does, and idle tenants have a summary at least as new as their latest conversation |
| IdleRefresh.LaterRunExact | src/kachu_plus/learning.py:242-247 | a later run refreshes exactly those that were not idle yet |
| IdleRefresh.ClockBehindRepeats | src/kachu_plus/learning.py:233 | with the save clock behind the run's time the fixpoint is lost |
| IdleRefresh.Refresher.RunOnce | src/kachu_plus/learning.py:232-251 | the loop, ended by a refresh that raises |
| IdleRefresh.Refresher.LatestConversation | src/kachu_plus/learning.py:260-264 | reading the newest conversation |
| IdleRefresh.DueExact | src/kachu_plus/learning.py:238-247 | when a tenant is due |
| RankedSelection.SortSorted | src/kachu_plus/retrieval_plan.py:106-116 | the ranking is ordered and loses nothing |
| RankedSelection.SortStable | src/kachu_plus/retrieval_plan.py:106-116 | equal keys keep their order |
| RankedSelection.StableSortUnique | src/kachu_plus/retrieval_plan.py:106-130 | ordered and stable leaves exactly one result |
| RankedSelection.TopSpec | src/kachu_plus/retrieval_plan.py:106-130 | no omitted row outranks a kept one |
| RankedSelection.KnowledgePlan | src/kachu_plus/retrieval_plan.py:118-130 | the eight knowledge rows, with the effect of rounding the score |
| RankedSelection.ConversationPlan | src/kachu_plus/retrieval_plan.py:106-116 | the six conversations, with the effect of rounding the score |
| RankedSelection.QueryTermsSpec | src/kachu_plus/retrieval_plan.py:11-26 | the first twelve distinct texts among the long tokens and the whole query, in order, all of them if there are no more |
| RankedSelection.CollectQueryTerms | src/kachu_plus/retrieval_plan.py:16-26 | the loop with its seen set |
| RankedSelection.MatchScoreExact | src/kachu_plus/retrieval_plan.py:29-43 | a candidate scores exactly if it shares the query, a term or a leading character |
| RankedSelection.FirstsSpec | src/kachu_plus/website_knowledge.py:81-90 | distinct texts in order of first occurrence |
| RankedSelection.SelectKnowledgeHighlights | src/kachu_plus/website_knowledge.py:73-91 | the loop with its early exit |
| RankedSelection.HighlightsSpec | src/kachu_plus/website_knowledge.py:73-91 | the first `limit` distinct non-blank contents in (priority, newest) order, one for a limit that is not positive |
| RankedSelection.OmittedNeverOutranks | src/kachu_plus/website_knowledge.py:74-91 | no entry of an omitted text outranks the best entry of a kept one |
| RankedSelection.RankOrder | src/kachu_plus/website_knowledge.py:74-79 | a smaller priority number first, then the newer entry |
| RankedSelection.PlanOrder | src/kachu_plus/retrieval_plan.py:106-130 | score to three decimals, then the newer row |
| RankedSelection.PlanScores | src/kachu_plus/retrieval_plan.py:106-130 | what is added to the match score |
| RankedSelection.TermsPointsCount | src/kachu_plus/retrieval_plan.py:38-40 | a point for each term that occurs, one and a half for long ones |
| RankedSelection.MatchScoreValue | src/kachu_plus/retrieval_plan.py:35-43 | four points for the whole query |

## Left out

- HTTP, LINE, Graph, language model and AgentOS calls: only their outcomes appear, as step parameters.
- ReplayPolicy.ReplayQuery: no other actor runs between two events of the loop (the runs of `MetaPipeline` cover that), and the replay of a LINE event is an outside answer whose own effects are not part of this model.
- ApprovalSync.ClosedExactly: the order of undecided rows with exactly the same timestamps is the database's choice, so it asks that none has the age of the run.
- SQL engine, Redis store, asyncio and APScheduler internals: repository calls are atomic, tokens and row ids are new, one publisher pass runs at a time.
- Webhook notification pushes, timestamps of events and the audit conversation of a replay: they do not touch the three rows. The status column of an engagement, which replay does not read, is not carried.
- Suggestion rows: title, reason, metrics, notes and `sent_at` are not carried, nor is the card that a scan pushes for a new suggestion; a reminder push goes to all recipients or fails, and one clock value stands for the several reads inside one segment.
- SuggestionService.Service.GetLatestActiveSuggestion: the newest row is the one that expires last, because a row is created 24 hours before it expires and the creation time is not carried; the listing of open rows is ordered the same way, and rows of one instant come in any order.
- Background loops: an exception that escapes a pass ends its scheduler's loop for the life of the process (`src/kachu_plus/approval.py:271-275`); the theorems are about the passes that run.
- Failing repository calls: a database error inside a segment is not a step of its own; the crash steps cover what it leaves in the tables, but not a message pushed before the failing write.
- Calendar.LocalHourShift: zones with daylight saving are not covered; there a local hour can be skipped or repeated, and with it the period's tick.
- Calendar.BucketIsPeriod: years are written with four digits from year 1 on, where some platforms do not pad years before 1000.
- RankedSelection.QueryTermsSpec: token matching and lower-casing happen before the model; it takes the tokens and the query in lower case.
- RankedSelection.KnowledgePlan: scores are real numbers and creation times are integers in the order of their text, so floating-point noise is not covered.
- ApprovalSync.ScheduledPublishAt: the zone has a fixed offset; an unknown zone name falls back to UTC before the model.
- PublishThrottle.SectionsApart: the settings are constant during a run and the clock is a real number.
- GranularScopes.GranularScopePageIds: target ids are strings already.
- ScheduledPublisher.InterpretResult: the answer is given by its status and message fields, not as raw JSON.
- MetaEvents.LiveEventReplays: a stored payload that is not a JSON object, which ingest never writes, is not covered.
- OAuthFlow.RunGood: the background backfill of a Google connector saves again by design and is not counted.
- Idempotency keys are compared before hashing, so digest collisions are not covered.
- The direct connector update `PUT /tenants/{tenant_id}/meta/connector` and the first-generation connector save, which bind a page without a session.
- The LINE webhook that drives locally approved workflows: Meta replies appear as owner steps of `MetaPipeline`, where every press of Approve posts the reply again and only the outcome is kept, planned content and the rest as other local writers of `Approvals`.
- Publishing bundles, suggestion metrics, approval profiles, sleep-profile sync and policy resolution: counting and table lookups settled by reading one body.
- Intent routing, onboarding, fact extraction, encryption, HTML and flex rendering, deployment scripts.
