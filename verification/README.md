# A verified model of the coordinator's protocols

The coordinator is a Python server that hands chat messages to agents as jobs, lets operators
steer those jobs, talks JSON-RPC to a bridge process, authenticates integrations, and shows a
dashboard and replayable feeds. This project models six of its parts in Dafny and proves what
they promise. `dafny verify --verification-time-limit 0 dfyconfig.toml` checks all of it.

| part | files |
|---|---|
| JSON-RPC client | `JsonRpc.dfy` (state machine), `JsonRpcClient.dfy` (the class), `JsonRpcTheorems.dfy` |
| integration credentials | `Credentials.dfy`, `CredentialHistory.dfy` (table against history), `CredentialTheorems.dfy`, `CredentialRequests.dfy` (table and answers against requests) |
| jobs, approvals, operator actions | `ControlPlane.dfy`, `ControlPlaneServices.dfy` (the classes), `JobOutcomes.dfy` (what each call leaves), `ControlPlaneRuns.dfy`, `CompletionTimes.dfy`, `OperatorTheorems.dfy` |
| mentions | `MentionScanner.dfy`, `MentionRouter.dfy`, `MessageRouting.dfy` |
| replay and paging | `PublicEvents.dfy`, `ActivityFeed.dfy`, `FeedGrowth.dfy`, `MessagePaging.dfy` |
| operator dashboard | `DashboardSnapshot.dfy`, `DashboardPanels.dfy`, `DashboardTheorems.dfy`, `DashboardRows.dfy` (the filters told from the tables), `DashboardCounts.dfy` (the panels told from the tables) |
| shared | `Seqs.dfy` (filters, counts, sums, stable sort, pages), `Text.dfy` (the order of texts), `Jobs.dfy` (job statuses) |

Services that change state are classes whose methods write fields, maps and sequences in the
order in which the Python code does. Each method is proved equal to a function of the old
state, and the theorems are about runs of those functions. Only the JSON-RPC client is
interleaved: one step is what a coroutine does between two awaits. Every other service call is
one atomic step. Clocks, random ids, rules, runtimes, the bridge and Unicode tables are
parameters, and the theorems hold for all their answers.

## Where the code falls short of the plain promise

Each of these is proved: the condition under which the promise holds, or an input at which it
fails, and mostly both.

- A job that is not over should carry no completion time. Accepting an approval puts its job
  back to running and keeps `completed_at` (app/services/approval_manager.py:213-230), so it
  breaks this for every job that carries one: a canceled or paused job, and also a job that
  completed while its approval was pending (`AcceptingForACompletedJob`). Scheduling a job and
  executing it have the same gap, and job input that names another job's approval reaches it
  (app/api/jobs.py:484-503). `SafetyIsExact` states the condition for every call.
- An operator's cancel of a running job whose last turn status reads "interrupted" is audited
  and reported as applied while the job keeps running (app/services/relay_engine.py:277-366):
  `AppliedCancelCancels`, and the run in `CancelCanMissARunningJob`.
- An operator action that finds its target leaves no audit event if and only if the relay
  raises (`OperatorActionsAudited`, and a resume in `RelayRaisesUnaudited`).
- A retry sent twice is idle the second time unless the loop guard stopped the first
  (`SecondRetryExact`); for a resume, unless the first ended held, paused or waiting for input
  or authorisation (`SecondResumeExact`, and the run in `SecondResumeCanActAgain`). Compacting
  the job's thread in between makes it forget the first request (`CompactionForgetsRequests`).
- The JSON-RPC reader dies on a response whose id is an array or object, or whose error object
  lacks its code or message or has a code that cannot be read as an integer, and the object is
  lost: exactly those are lost
  (`EveryObjectHasOnePlace`), one is in `PoisonIsLost`. After end of file the reader is not
  started again until the client is closed (`EndedReaderAnswersNoNewCall`).
- Ids `true` and `1.0` are taken for request 1 (`BooleanIdAnswersCallOne`); an id is looked up
  as itself or not at all exactly unless it is a boolean or an integral number written with a
  fraction (`IdsAreExactUnlessLoose`), and so a call returns the response with its own id
  exactly unless the id that answered is such a one (`ReturnedIdIsOwnId`).
- A call cancelled from outside while its request is pending leaves its entry in the pending
  table; it stays until a response with its id is read or the reader ends, and no longer
  (`AbandonedEntryStays`, and the run in `AbandonedEntryExists`).
- The parser and the router normalise names differently outside ASCII; an agent name can be
  mentioned if and only if its token is ASCII and starts with a letter (`MentionableNames`,
  and a name in `UnmentionableName`).
- A poll of the activity feed from cursor 0 delivers the whole feed if and only if it fits one
  page (`StartingAtZero`, and a page in `FirstPageMissesTheStart`).
- The old feed is a prefix of the new one if and only if every old draft is still gathered
  unchanged, on equal keys in the same order, and no other draft sorts before one of them
  (`FeedGrowsAtItsEnd`); events keep their sequence numbers if and only if the same holds of
  the drafts' keys and rows alone (`EventsKeepTheirNumbers`), and only then does a client that
  polls miss nothing and see nothing twice (`OnlyKeptPlacesWillDo`). A message with the time
  of a job event goes before it (`MessageOvertakesJobEvent`), a change of the active phase
  takes a draft out of the feed (`PhaseChangeMovesTheFeed`), and a change of a job's status
  rewrites a draft in its place (`JobChangeRewritesItsDraft`).
- A `before` id at or ahead of the `after` id is read as a time, so the window can hold
  messages that it should not (`WindowExact`, and a window in `WindowWithAWrongMessage`).
- On the dashboard a webhook row whose task the filters take out is judged differently before
  and after: `WebhookAfterFilter` says exactly when, `WebhookPassesWithoutItsTask` gives one.
  Rows that the filter has kept are not affected, so the panels agree
  (`PanelsOfFilteredSnapshot`).

## Model

| member | source | states |
|---|---|---|
| JsonRpcTheorems.RequestIdsAreNeverReused | app/codex_bridge/jsonrpc_client.py:104-123 | over every interleaving, ids are handed out as 1, 2, 3, ..., each to one future; an id that left the pending table is never pending again |
| JsonRpcTheorems.FuturesCompleteOnce | app/codex_bridge/jsonrpc_client.py:195-212 | a done future never changes again, and a result is a response read from the peer whose id is the future's own |
| JsonRpcTheorems.CallsReturnTheirOwnResponse | app/codex_bridge/jsonrpc_client.py:113-123 | a call that returned has the response to its own id and no pending entry |
| JsonRpcTheorems.ReturnedCallsCarryWhatWasRead | app/codex_bridge/models.py:73-82 | a returned call has the id and result of an answer that was read, and an error exactly when that has an error object, with its code and message |
| JsonRpcTheorems.IdsAreExactUnlessLoose | app/codex_bridge/jsonrpc_client.py:195-201 | an id is looked up as itself or not at all if and only if it is no boolean and no integral number written with a fraction; every id that section 4 of JSON-RPC 2.0 allows is so |
| JsonRpcTheorems.ReturnedIdIsOwnId | app/codex_bridge/jsonrpc_client.py:195-204 | a returned call has the response with its own integer id if and only if the answering id is not loose, and whenever no loose id arrives in the run |
| JsonRpcTheorems.BooleanIdAnswersCallOne | app/codex_bridge/jsonrpc_client.py:195-201 | a run in which a response with id `true` completes request 1 |
| JsonRpcTheorems.PendingEntriesBelongToLiveCalls | app/codex_bridge/jsonrpc_client.py:110-123 | a pending entry belongs to a call that is sending, waiting, timing out or abandoned, never to one that returned or raised |
| JsonRpcTheorems.AbandonedEntryStays | app/codex_bridge/jsonrpc_client.py:110-123 | the entry of a call cancelled from outside, in any phase, stays pending along a run if and only if the run reads no end of file, no undecodable line, no poison and no response with its key |
| JsonRpcTheorems.AbandonedEntryExists | app/codex_bridge/jsonrpc_client.py:110-123 | the two-step run that leaves such an entry |
| JsonRpcTheorems.EveryObjectHasOnePlace | app/codex_bridge/jsonrpc_client.py:169-204 | each object, in the state in which it is read: completes the one future with its id exactly if that is pending and not done, is dropped exactly if pending but done, is queued exactly if no request with its id is pending, is lost exactly if poison; no future is settled twice; the drains followed by the queue are the queued objects in arrival order |
| JsonRpcTheorems.PlaceOfAnObject | app/codex_bridge/jsonrpc_client.py:180-204 | where one object goes, from its members and the pending table: lost if the reader raises on it, queued as it is if it is no answer, stored and queued if its id is not pending, and otherwise carried into the future of its id, unless that is done |
| JsonRpcTheorems.QueuedObjectsAreStored | app/codex_bridge/models.py:84-94 | a queued answer keeps its id and its error, or else its result, null when it has none; any other queued object is as it was read |
| JsonRpcTheorems.ReadTouchesOnlyItsCall | app/codex_bridge/jsonrpc_client.py:195-204 | an object that is not poison changes the future and the entry of its own id and no other |
| JsonRpcTheorems.AnswersReachTheirCallers | app/codex_bridge/jsonrpc_client.py:113-123 | once the response to a pending request is read while its call waits, the call, unless timed out or cancelled, waits only to be woken and then returns that response, along every run |
| JsonRpcTheorems.PoisonIsLost | app/codex_bridge/jsonrpc_client.py:187-191 | a run in which a response with an array for an id is lost, the reader dies and the waiting future fails |
| JsonRpcTheorems.SecondAnswerIsQueued | app/codex_bridge/jsonrpc_client.py:195-204 | a second answer to a settled id is queued as a notification |
| JsonRpcTheorems.EofFailsEveryWaiter | app/codex_bridge/jsonrpc_client.py:172-191 | end of file empties the pending table, fails every waited-for future, and the waiting call can only raise |
| JsonRpcTheorems.ReaderEnds | app/codex_bridge/jsonrpc_client.py:172-193 | the reader ends quietly at end of file and by an exception, silent once closed, at a line or answer that it cannot read; in each case exactly the pending futures that are not done fail, and the table is empty |
| JsonRpcTheorems.FailedCallsRaise | app/codex_bridge/jsonrpc_client.py:110-123 | a call that cannot be written raises without an entry; one whose timer fires gives up its future and then does the same |
| JsonRpcTheorems.CancelledCallsGiveUp | app/codex_bridge/jsonrpc_client.py:113-118 | a call cancelled from outside gives up the future it waits for, none while it is being sent, and keeps its entry |
| JsonRpcTheorems.CallsStartTheReader | app/codex_bridge/jsonrpc_client.py:164-167 | a call starts the reader if there is none, not one that has ended, and takes the next id if stdin is open |
| JsonRpcTheorems.CloseForgetsTheReader | app/codex_bridge/jsonrpc_client.py:142-145 | closing forgets the reader alone, and the next call starts another |
| JsonRpcTheorems.EndedReaderAnswersNoNewCall | app/codex_bridge/jsonrpc_client.py:164-167 | once the reader has ended and until close, nothing is read and no later call gets a response |
| JsonRpc.StepKeeps | app/codex_bridge/jsonrpc_client.py:92-226 | every step of the client keeps the invariant that ties calls, futures, pending entries and the history of objects together |
| JsonRpc.RunKeeps | app/codex_bridge/jsonrpc_client.py:92-226 | the same over whole runs, with done futures and issued ids carried forward |
| JsonRpc.AcceptKeeps | app/codex_bridge/jsonrpc_client.py:180-204 | an object put in its place, whichever it is, keeps the invariant |
| JsonRpcClientModule.JsonRpcClient.BeginCall | app/codex_bridge/jsonrpc_client.py:92-112 | the start of `call`, as of `initialize`: the reader is ensured, then an id allocated and its future registered, or nothing of that without stdin |
| JsonRpcClientModule.JsonRpcClient.WakeCaller | app/codex_bridge/jsonrpc_client.py:113-123 | a woken caller returns its future's response or raises, and removes its entry |
| JsonRpcClientModule.JsonRpcClient.TimerFired | app/codex_bridge/jsonrpc_client.py:113-118 | the timeout cancels a future that is still pending |
| JsonRpcClientModule.JsonRpcClient.HandleTimeout | app/codex_bridge/jsonrpc_client.py:113-118 | the timeout handler removes the entry and raises |
| JsonRpcClientModule.JsonRpcClient.CallerCancelled | app/codex_bridge/jsonrpc_client.py:113-123 | an outside cancellation passes `except Exception` and leaves the entry |
| JsonRpcClientModule.JsonRpcClient.FailPending | app/codex_bridge/jsonrpc_client.py:206-212 | every pending future that is not done fails, and the table is emptied |
| JsonRpcClientModule.JsonRpcClient.ResolveResponse | app/codex_bridge/jsonrpc_client.py:195-204 | a response completes, is dropped or is queued exactly as the Accept step says |
| JsonRpcClientModule.JsonRpcClient.ReadLine | app/codex_bridge/jsonrpc_client.py:169-193 | one turn of the reader loop on end of file, undecodable input, a non-object or an object |
| JsonRpcClientModule.JsonRpcClient.DrainNotifications | app/codex_bridge/jsonrpc_client.py:135-140 | the loop returns the whole queue, oldest first, and empties it |
| JsonRpcClientModule.JsonRpcClient.Aclose | app/codex_bridge/jsonrpc_client.py:142-145 | the reader is cancelled and forgotten, pending futures are left alone, and the exception of a reader that had died is raised |
| CredentialTheorems.AuthenticationFollowsHistory | app/services/integration_credentials.py:341-407 | after every run on a non-decreasing clock, a secret is active if and only if it was issued, not rotated, revoked or expired since, and its expiry is ahead |
| CredentialRequests.IssuedSecretLivesAsAsked | app/services/integration_credentials.py:189-231 | over every earlier and later timed run, an issued secret is never active at or after the expiry its request asked for, and is active exactly until then, or for ever, while no later request names its credential |
| CredentialRequests.RotatedSecretLivesAsAsked | app/services/integration_credentials.py:233-295 | the same for the secret of a rotation, which without an expiry of its own has that of the row it replaces; the replaced secret is not active from then on |
| CredentialRequests.SecretLives | app/services/integration_credentials.py:341-407 | the secret of an active row is not active past its expiry nor after a revocation or expiry of its credential, and is active exactly until its expiry while no request names it |
| CredentialRequests.IssueStoresTheRequest | app/services/integration_credentials.py:189-231 | an issue succeeds exactly for a known principal, an acceptable expiry and an unused id and secret, and adds the one row asked for, with the expiry asked for |
| CredentialRequests.RotateStoresTheRequest | app/services/integration_credentials.py:233-295 | a rotation succeeds exactly for an active row of a known principal; the old row is revoked, the new one has the scopes and expiry given or else those of the old one |
| CredentialRequests.RevokeMarksTheRow | app/services/integration_credentials.py:297-317 | the row is revoked once, and no other row is touched |
| CredentialRequests.ExpireMarksTheRow | app/services/integration_credentials.py:319-339 | the row is expired, with this time if it had none, and no other row is touched |
| CredentialRequests.AnswerTellsTheRow | app/services/integration_credentials.py:360-407 | active, revoked, expired or without a principal, each exactly by the row of the secret |
| CredentialRequests.AuthenticateMarksTheRow | app/services/integration_credentials.py:374-445 | an active answer marks the use, a lapse is stored, and nothing else is written |
| CredentialTheorems.OnceInactiveNeverActive | app/services/integration_credentials.py:341-407 | a known secret that is not active is not active at any later time |
| CredentialTheorems.AnswersOfOwnTable | app/services/integration_credentials.py:360-390 | a table written only by the service never answers principal_missing or invalid_expires_at |
| CredentialTheorems.RotationsFormChains | app/services/integration_credentials.py:233-295 | a credential is replaced at most once and comes from at most one other, older one of the same principal; a replaced one is never stored as active |
| CredentialTheorems.ActiveRowsBalance | app/services/integration_credentials.py:189-407 | a principal's active rows are those issued less those taken off by revoke, expire or lazy expiry, each row at most once |
| CredentialTheorems.RotateBalances | app/repositories/integration_credentials.py:262-273 | the atomic revoke-and-insert keeps every principal's count of active rows |
| CredentialTheorems.RefusedRotationChangesNothing | app/repositories/integration_credentials.py:262-273 | a rotation errs if and only if it changes nothing, key collisions included |
| CredentialHistory.ServeKeeps | app/services/integration_credentials.py:189-445 | every call keeps the agreement of each row with the events about it, under unique ids and hashes |
| CredentialHistory.RunKeeps | app/services/integration_credentials.py:189-445 | the same over whole runs |
| Credentials.IntegrationCredentialService.IssueCredential | app/services/integration_credentials.py:189-231 | a row for an existing principal with a valid expiry, or the error and no change |
| Credentials.IntegrationCredentialService.RotateCredential | app/services/integration_credentials.py:233-295 | the old row revoked and a new one inserted, inheriting what is not given; refused unless active |
| Credentials.IntegrationCredentialService.RevokeCredential | app/services/integration_credentials.py:297-317 | the row revoked at the call's time, whatever its status |
| Credentials.IntegrationCredentialService.ExpireCredential | app/services/integration_credentials.py:319-339 | the row expired, whatever its status |
| Credentials.IntegrationCredentialService.AuthenticateSecret | app/services/integration_credentials.py:341-445 | the answer by status and expiry, with lazy expiry or the use stamp written back |
| ControlPlaneRuns.ApprovalsResolveOnce | app/services/approval_manager.py:134-197 | in every run an approval leaves pending at most once and is then fixed; `resolved_at` is set exactly when it is resolved; it has one accepted or declined event when resolved, none before, and of the kind of its status |
| ControlPlaneRuns.ServeKeeps | app/services/approval_manager.py:134-257 | every call of every service keeps the above |
| ControlPlaneRuns.DecisionAddsItsEvent | app/services/approval_manager.py:134-197 | a decision on a pending approval adds exactly one event, of its kind and for that approval; any other decision changes nothing |
| ControlPlaneRuns.ResolveKeeps | app/services/approval_manager.py:134-197 | a decision keeps the agreement of approvals, resolution times and events, and never finds its job gone |
| ControlPlaneRuns.DispatchPendingKeeps | app/services/offline_queue.py:155-175 | the loop over an agent's queued jobs keeps the above |
| CompletionTimes.SafetyIsExact | app/services/approval_manager.py:199-257 | a call keeps statuses and completion times in agreement in every environment if and only if it does not accept for, schedule or execute a job that carries a completion time |
| CompletionTimes.CompletionTimesAgree | app/api/jobs.py:471-547 | in every run of such calls, queued, running and waiting jobs have no completion time, canceled and paused ones have one |
| CompletionTimes.AcceptingForACompletedJob | app/services/approval_manager.py:213-230 | a run that leaves a running job with a completion time through neither a canceled nor a paused job |
| CompletionTimes.ExecuteTimes | app/services/relay_engine.py:133-275 | an execution keeps the agreement exactly when the job was open, no turn began, or the turn completed |
| CompletionTimes.UnsafeCallsBreakTimes | app/services/offline_queue.py:53-89 | for every unsafe call there is an environment that breaks the agreement |
| OperatorTheorems.OperatorActionsAudited | app/services/operator_actions.py:621-684 | an action that finds its target ends in exactly one audit event with the stored states before and after, unless the relay raises, and then in none; failed and duplicate actions change nothing else |
| OperatorTheorems.RelayRaisesUnaudited | app/services/operator_actions.py:384-387 | a resume whose relay raises: an input is stored, nothing is audited |
| OperatorTheorems.OtherCallsNotAudited | app/services/operator_actions.py:621-684 | no other service call writes an audit event |
| OperatorTheorems.AuditTrailCountsCalls | app/services/operator_actions.py:621-684 | over a whole run the audit trail has one event for each answered operator call and no other |
| OperatorTheorems.RetryGuardsAgree | app/services/operator_actions.py:246-327 | the operator refuses a retry exactly when the queue would raise, answers duplicate exactly on the queue's duplicate test, and otherwise reaches neither branch |
| OperatorTheorems.ResumeGuardsAgree | app/services/operator_actions.py:329-410 | the same for resume |
| OperatorTheorems.SecondRetryExact | app/services/offline_queue.py:91-122 | a second retry changes nothing in any environment if and only if the loop guard did not stop the first |
| OperatorTheorems.SecondResumeExact | app/services/offline_queue.py:124-153 | a second resume changes nothing in any environment if and only if the first ended neither held, paused nor waiting |
| OperatorTheorems.SecondResumeCanActAgain | app/services/offline_queue.py:53-89 | a held job that two resumes give two inputs |
| OperatorTheorems.CompactionForgetsRequests | app/services/relay_engine.py:395-400 | after a compaction a repeated resume acts and a repeated retry is refused, both idle before it |
| OperatorTheorems.SecondRetryChangesNothing | app/services/offline_queue.py:91-122 | with rules allowing and no runtime ready, a second retry leaves jobs and inputs as the first left them |
| OperatorTheorems.SecondResumeChangesNothing | app/services/offline_queue.py:124-153 | the same for resume |
| OperatorTheorems.AppliedCancelCancels | app/services/operator_actions.py:412-517 | an applied cancel leaves the job canceled if and only if it was not a running job whose turn reads "interrupted" |
| OperatorTheorems.CancelCanMissARunningJob | app/services/relay_engine.py:277-366 | a run in which an applied cancel leaves the job running |
| OperatorTheorems.ExecuteAudits | app/services/relay_engine.py:133-275 | an execution writes no audit event and raises exactly in the stated cases |
| JobOutcomes.TurnOutcome | app/services/relay_engine.py:133-275 | when a turn begins the job row follows it field by field; a turn that asks for input or authorisation gets exactly one pending approval of the job and its agent and one request event, any other none; if the approval id is taken the relay raises |
| JobOutcomes.DispatchOutcome | app/services/offline_queue.py:155-175 | every listed job is relayed, each as its own relay answers, and no other job is touched |
| JobOutcomes.ScheduleOutcome | app/services/offline_queue.py:53-89 | the input is stored and the job moved to the channel of the rules; held with their reason, left in the queue, or relayed |
| JobOutcomes.RetryOutcome | app/services/offline_queue.py:91-122 | which jobs a retry takes, refuses or finds already retried, and how the row is reset |
| JobOutcomes.ResumeOutcome | app/services/offline_queue.py:124-153 | which jobs a resume takes, refuses or finds already resumed, and how the row is reset |
| JobOutcomes.CancelOutcome | app/services/operator_actions.py:412-517 | duplicate exactly for a canceled job, conflict exactly for a completed or failed one; any other that does not run is canceled at once, and a running one interrupted, with the direct cancel as fallback |
| JobOutcomes.OperatorQueueAnswers | app/services/operator_actions.py:246-410 | duplicate and conflict of an operator's retry and resume, each exactly by the job's status |
| JobOutcomes.OperatorDecisionOutcome | app/services/operator_actions.py:108-244 | conflict exactly for a decided approval, otherwise the approval manager's decision |
| JobOutcomes.DecisionOutcome | app/services/approval_manager.py:134-257 | a pending approval is fixed with decision and time, its job follows, and one event goes to each log; any other decision changes nothing |
| JobOutcomes.InputOutcome | app/api/jobs.py:471-547 | a waiting job goes back to the queue, any other keeps its status, or the named approval is accepted and the job scheduled |
| JobOutcomes.InterruptOutcome | app/services/relay_engine.py:277-366 | exactly which interruptions cancel the job, and what the others answer |
| JobOutcomes.CompactOutcome | app/services/relay_engine.py:368-428 | a compaction changes the last turn status alone |
| JobOutcomes.PauseOutcome | app/services/loop_guard.py:67-127 | the paused row, its two events, and nothing else |
| ControlPlaneServices.ApprovalManager.CreateRequestFor | app/services/approval_manager.py:47-106 | the pending approval and its two notices |
| ControlPlaneServices.ApprovalManager.Resolve | app/services/approval_manager.py:134-197 | unknown and resolved approvals refused; else approval, job, events in that order, and a missing job after the approval row is written |
| CompletionTimes.DecisionRow | app/services/approval_manager.py:199-257 | an accepted job goes back to work, to the queue exactly if it waited for input, with whatever completion time it carried, which is right exactly if it carried none; a declined job is canceled now; no other row changes |
| ControlPlaneServices.LoopGuardService.Pause | app/services/loop_guard.py:67-127 | the paused job row and its events |
| ControlPlaneServices.RelayEngine.Execute | app/services/relay_engine.py:133-275 | one relay step: raise, guard stop, or a turn with its status mapped, approval request and published output |
| ControlPlaneServices.RelayEngine.Interrupt | app/services/relay_engine.py:277-366 | finished or interrupted jobs untouched; unusable references, and a LookupError of the bridge, raised as such, other exceptions of the bridge as they are; else canceled |
| ControlPlaneServices.RelayEngine.Compact | app/services/relay_engine.py:368-428 | unusable references raised, else the last turn status overwritten |
| ControlPlaneServices.OfflineQueueService.Schedule | app/services/offline_queue.py:53-89 | input recorded, channel rewritten, then held, left queued or relayed |
| ControlPlaneServices.OfflineQueueService.RetryJob | app/services/offline_queue.py:91-122 | duplicate, ValueError, or reset and scheduled |
| ControlPlaneServices.OfflineQueueService.ResumeJob | app/services/offline_queue.py:124-153 | duplicate, ValueError, or reset and scheduled |
| ControlPlaneServices.OfflineQueueService.DispatchPendingJobs | app/services/offline_queue.py:155-175 | each listed job relayed in turn |
| ControlPlaneServices.JobInputApi.ProvideJobInput | app/api/jobs.py:471-547 | the approval branch and the plain branch, with their three writes |
| ControlPlaneServices.OperatorActionService.RetryJob | app/services/operator_actions.py:246-327 | guard, queue, audit |
| ControlPlaneServices.OperatorActionService.ResumeJob | app/services/operator_actions.py:329-410 | guard, queue, audit |
| ControlPlaneServices.OperatorActionService.CancelJob | app/services/operator_actions.py:412-517 | duplicate, conflict, direct cancel, or interruption with its fallback, and the audit |
| ControlPlaneServices.OperatorActionService.DecideApproval | app/services/operator_actions.py:108-244 | approve and reject: conflict audited as failed, or resolved and audited |
| MentionScanner.ParseMentions | app/services/message_parser.py:72-86 | sound and complete: exactly the positions that hold `#`, follow no word character and precede a letter start a mention; spans disjoint and increasing, names maximal, texts equal to their slices, orders 0..k-1 |
| MentionScanner.MentionsAreUnique | app/services/message_parser.py:8 | that description fits one list of mentions only, for any word-character class |
| MentionScanner.MentionsOfAText | app/services/message_parser.py:8 | the one mention of a text with all kinds of name characters, a `#` behind a word character and one in front of a digit |
| MentionRouter.TokensAgreeOnAscii | app/services/mention_router.py:13-15 | the parser's and the router's normalisations agree on ASCII text |
| MentionRouter.MentionableNames | app/services/message_parser.py:15-17 | a display name, role or id can be mentioned if and only if its token is ASCII letters and digits starting with a letter |
| MentionRouter.UnmentionableName | app/services/mention_router.py:13-15 | a name with a letter beyond ASCII that no mention reaches |
| MentionRouter.ResolveSingleMention | app/services/mention_router.py:54-90 | the result is the only agent at the best match level among joined participants, through its earliest participant there; otherwise no match or ambiguity, each exactly when so |
| MentionRouter.MeaningInWords | app/services/mention_router.py:54-101 | a mention can mean the joined participants named so, or if there are none those with such a role, or if there are none those with such an id; it means the earliest of them exactly if all are of one agent, is ambiguous exactly if not, and means nobody exactly if there are none |
| MentionRouter.ResolvedMentionTells | app/services/mention_router.py:34-52 | a resolved mention carries the text, name and order of the scanned one and the agent, id and runtime of the participant it means |
| MentionRouter.MeaningIsUnique | app/services/mention_router.py:54-90 | a mention has one meaning |
| MentionRouter.OrderIsIrrelevant | app/services/mention_router.py:34-90 | any order of participants and agents gives the same result or error |
| MentionRouter.ResolveMentions | app/services/mention_router.py:34-52 | mentions resolved one by one in order, or the first that fails |
| MessageRouting.MessageRoutingService.Preview | app/services/message_routing.py:64-80 | the text's mentions, resolved unless the message is a command |
| MessageRouting.MessageRoutingService.Apply | app/services/message_routing.py:82-130 | one mention row per mention, one job per distinct agent, and the de-duplicated agents as detected mentions |
| MessageRouting.JobService.CreateJobsForMentions | app/services/job_service.py:32-53 | one job for the first mention of each agent, in order |
| MessageRouting.JobService.CreateJobForMention | app/services/job_service.py:55-144 | the queued job of a mention with its runtime by preference |
| MessageRouting.LeadingAgents | app/services/job_service.py:40-53 | first-mention selection and first-occurrence de-duplication, computed in two modules, agree |
| MessageRouting.JobsFollowDetectedMentions | app/services/message_routing.py:112-130 | the jobs' agents, in order, equal `detected_mentions`, without repeats; each job is that of its agent's first mention, and jobs stand in the order of these |
| MessageRouting.JobTellsItsMention | app/services/job_service.py:55-144 | the job's session, channel, text and source, and its runtime: the mention's, or else the agent's latest, or else a pool's |
| MessageRouting.MentionRowsTell | app/services/message_routing.py:103-111 | each mention row names the message and its mention's agent, text and order |
| MessageRouting.JobsComeFromTheText | app/services/message_routing.py:64-130 | an agent gets a job if and only if some position of the text starts a mention that means it |
| PublicEvents.ReadersReceivePrefixes | app/repositories/public_events.py:56-124 | over every interleaving of appends and polls, each task's sequences are 1..n and each reader holds a prefix of its task's log, each event once |
| PublicEvents.PollingCatchesUp | app/repositories/public_events.py:110-124 | one more poll brings a reader to the whole log |
| PublicEvents.MaxIsLength | app/repositories/public_events.py:126-135 | the maximum sequence is the number of the task's events |
| PublicEvents.AppendKeeps | app/repositories/public_events.py:56-76 | an append keeps every task's sequences at 1..n |
| PublicEvents.ListingIsRestOfLog | app/repositories/public_events.py:110-124 | `list_since` is exactly the log behind the cursor, nothing for a cursor behind the log |
| PublicEvents.ListingIsLog | app/repositories/public_events.py:95-108 | `list_by_task` is the log in the order of its appends |
| PublicEvents.PublicTaskEventRepository.AppendEvent | app/repositories/public_events.py:56-76 | the row appended under the next sequence, or refused for a taken id |
| ActivityFeed.WalkDeliversTheRest | app/services/operator_realtime.py:581-613 | from any cursor but 0, within the feed or behind it, the pages up to the first empty one are exactly the rest of the feed, in ceil(rest / limit) polls |
| ActivityFeed.StartingAtZero | app/services/operator_realtime.py:604-613 | from 0 one page gives the end of the feed, and the whole of it if and only if it fits |
| ActivityFeed.FirstPageMissesTheStart | app/services/operator_realtime.py:604-613 | two drafts and a page of one |
| FeedGrowth.ClientHasNoGapNoRepeat | app/services/operator_realtime.py:191-300 | along every run of polls and changes of the sources that keep places, what a client received is, by identity, one unbroken stretch of the feed ending at its cursor |
| FeedGrowth.OnlyKeptPlacesWillDo | app/services/operator_realtime.py:191-300 | for a client that has read the whole feed, a change leaves no gap and no repeat if and only if it keeps places |
| FeedGrowth.FeedGrowsAtItsEnd | app/services/operator_realtime.py:332-378 | for any two states of the sources with unique ids, the old feed is a prefix of the new one if and only if every old draft is still gathered unchanged, on equal keys in the same order, and no other draft sorts before one of them |
| FeedGrowth.EventsKeepTheirNumbers | app/services/operator_realtime.py:581-613 | the same for what identifies an event, its key and its row: sequence numbers are kept if and only if places are |
| FeedGrowth.PhaseChangeMovesTheFeed | app/services/operator_realtime.py:514-547 | a change of the active phase never keeps places, for its draft goes |
| FeedGrowth.JobChangeRewritesItsDraft | app/services/operator_realtime.py:472-512 | a change of a job's status keeps every number, but the old feed is no prefix any more |
| FeedGrowth.SortMixesExactly | app/services/operator_realtime.py:332-378 | a stable sort puts a new draft before an old one if and only if some key, or the gathering order on equal keys, does |
| FeedGrowth.MessageOvertakesJobEvent | app/services/operator_realtime.py:135-138 | a message with the time of an existing job event is put before it |
| ActivityFeed.BuildActivityDrafts | app/services/operator_realtime.py:332-378 | the five builders' drafts in order, sorted by the key |
| ActivityFeed.FeedShowsTheRows | app/services/operator_realtime.py:332-580 | the feed holds exactly one draft for every session event, job event, job, message and active phase row, with its own time, entity, type, phase and pool, in the order of the times and then of the kinds |
| ActivityFeed.BuildPhaseSnapshotDrafts | app/services/operator_realtime.py:514-547 | a draft for each phase that is the active one |
| MessagePaging.ApplyCursorFilter | app/api/messages.py:111-134 | the messages on the asked side of the pivot, in order |
| MessagePaging.ListMessages | app/api/messages.py:315-347 | after, then before, then the limit |
| MessagePaging.CursorSplits | app/api/messages.py:111-134 | a listed id splits the list into what precedes it and what follows it |
| MessagePaging.WalkVisitsEveryMessageOnce | app/api/messages.py:336-338 | walking with `after` set to the last id of each page, until a page is empty, visits every message once, in order, in ceil(n / limit) pages |
| MessagePaging.WindowBetween | app/api/messages.py:336-337 | with `after` earlier than `before` the window is exactly the messages strictly between |
| MessagePaging.WindowOutOfOrder | app/api/messages.py:122-126 | otherwise the `before` id is compared as a time |
| MessagePaging.WindowExact | app/api/messages.py:111-134 | the window is the right one if and only if `after` comes first or no later message has a creation time less than the `before` id |
| MessagePaging.WindowWithAWrongMessage | app/api/messages.py:122-126 | a window that holds a message and should hold none |
| MessagePaging.TimeCursorSplits | app/api/messages.py:122-134 | a time cursor splits the list into earlier messages and the others, nothing lost |
| DashboardSnapshot.LoadIsConsistent | app/services/operator_dashboard.py:139-206 | the loaded indexes agree with the job rows that they were built from |
| DashboardSnapshot.FilterIsIdempotent | app/services/operator_dashboard.py:625-703 | filtering a loaded snapshot twice is filtering it once, list by list |
| DashboardRows.FilterKeepsWhatIsAsked | app/services/operator_dashboard.py:625-905 | loading and filtering keeps, list by list and in order, exactly the rows whose session, active phase row, pool row of the job's context, template and status are the ones asked for, told from the tables alone |
| DashboardRows.JobKept | app/services/operator_dashboard.py:724-746 | a job is kept exactly if its session exists and is the one asked for, the session's active phase has the key asked for, and the job's context is in the pool asked for |
| DashboardRows.WebhookKept | app/services/operator_dashboard.py:862-905 | a webhook is kept by its first task, or without one unless a session is asked for |
| DashboardSnapshot.SessionAgain | app/services/operator_dashboard.py:705-722 | a session passes against the filtered jobs if and only if it passes against all of them |
| DashboardSnapshot.WebhookAgain | app/services/operator_dashboard.py:862-905 | a webhook that passes against all tasks passes against the filtered ones |
| DashboardSnapshot.WebhookAfterFilter | app/services/operator_dashboard.py:862-905 | what a webhook needs to pass against the filtered tasks, and that the verdict differs from the one against all tasks if and only if its first task fails the filters and no session is asked for or another task with its id passes |
| DashboardSnapshot.WebhookPassesWithoutItsTask | app/services/operator_dashboard.py:870-872 | one task that fails a phase filter, whose webhook passes only once it is filtered out |
| DashboardSnapshot.DeliveriesAgain | app/services/operator_dashboard.py:875-886 | deliveries filtered through filtered registrations and tasks stay the same |
| DashboardTheorems.PanelsOfFilteredSnapshot | app/services/operator_dashboard.py:108-126 | every panel built from the filtered snapshot equals the one built from the raw snapshot |
| DashboardTheorems.PoolsAgain | app/services/operator_dashboard.py:907-919 | listing the last pool of each key commutes with the pool filter |
| DashboardTheorems.HeatRowsAreExact | app/services/operator_dashboard.py:248-283 | one heat row for each session, phase and pool of a matching job, with its title and exactly its queued, running, blocked and total jobs |
| DashboardTheorems.HeatAddsUp | app/services/operator_dashboard.py:248-283 | any selection of heat rows sums to the matching jobs it selects |
| DashboardCounts.HeatTable | app/services/operator_dashboard.py:248-283 | each heat row counts the kept queued, running, blocked and all jobs of its session, active phase and pool, told from the tables, and has the session's title |
| DashboardCounts.HeatTableIsComplete | app/services/operator_dashboard.py:248-283 | every kept job has its row, and no cell has two |
| DashboardCounts.PhaseJobColumns | app/services/operator_dashboard.py:303-318 | the job columns of a phase count the kept jobs of sessions in that phase |
| DashboardCounts.PhaseOtherColumns | app/services/operator_dashboard.py:291-345 | the other columns count the sessions in the phase, their requested reviews, runs with a pending gate in the phase, and tasks of jobs in the phase |
| DashboardCounts.PoolTable | app/services/operator_dashboard.py:410-479 | a pool row counts the kept queued and blocked jobs of the pool, the requested reviews of its jobs and their open tasks |
| DashboardCounts.PoolTableShowsPools | app/services/operator_dashboard.py:933-941 | the pool table shows the pools asked for, each once |
| DashboardCounts.ReviewTable | app/services/operator_dashboard.py:363-408 | a review row counts the kept requested reviews of its session, template, channel and scope and spans exactly their times |
| DashboardCounts.ThroughputOfTables | app/services/operator_dashboard.py:481-499 | the throughput counts the kept tasks by status |
| DashboardCounts.WebhooksOfTables | app/services/operator_dashboard.py:501-526 | the summary counts the kept registrations, active or not, and the kept deliveries by status |
| DashboardCounts.QueueDepthOfTables | app/services/operator_dashboard.py:965-974 | queue depth counts the kept jobs queued, running or blocked |
| DashboardCounts.TablesAreBusiestFirst | app/services/operator_dashboard.py:270-283 | the rows of every table come in the order of their load, greatest first, and then of their keys, an absent one as the empty text |
| DashboardTheorems.PhasesConserveJobs | app/services/operator_dashboard.py:285-361 | for every phase the queued, running and blocked counts are the sums over its heat rows |
| DashboardTheorems.PhaseCellsExact | app/services/operator_dashboard.py:285-361 | each column of the phase table counts what one of the five loops counts and nothing else |
| DashboardTheorems.PhasesConserveReviews | app/services/operator_dashboard.py:363-408 | for every phase the pending reviews are the sum over the review bottlenecks of its sessions |
| DashboardTheorems.ReviewRowsAreExact | app/services/operator_dashboard.py:363-408 | every review row counts the pending reviews of its key, spans exactly their times, and none is missing |
| DashboardTheorems.PoolsConserveJobs | app/services/operator_dashboard.py:410-479 | for every listed pool the queued and blocked counts are the sums over its heat rows |
| DashboardTheorems.QueueDepthCountsJobs | app/services/operator_dashboard.py:965-974 | queue depth is the number of matching jobs queued, running or blocked |
| DashboardPanels.BuildQueueHeat | app/services/operator_dashboard.py:248-283 | the loop builds the heat table, most loaded rows first |
| DashboardPanels.BuildPhaseDistribution | app/services/operator_dashboard.py:285-361 | five loops into one table of counters, sorted |
| DashboardPanels.BuildReviewBottlenecks | app/services/operator_dashboard.py:363-408 | the loop builds the review table, sorted |
| DashboardPanels.BuildRuntimePoolHealth | app/services/operator_dashboard.py:410-479 | three counting loops and one over the pools, sorted |
| DashboardPanels.BuildPublicTaskThroughput | app/services/operator_dashboard.py:481-499 | the number of matching tasks in each status |
| DashboardPanels.QueueDepth | app/services/operator_dashboard.py:971-974 | the loop over the heat rows |

## Left out

Weaker than the repository:

- CredentialTheorems.OnceInactiveNeverActive: speaks of secrets in the table, for a secret not in it may be issued later.
- CredentialTheorems.AuthenticationFollowsHistory: takes SHA-256 as injective and expiry times as integers; a text is sorted only into absent, blank, zoned, naive and unparsable, and each call reads the clock once.
- JsonRpcTheorems.EveryObjectHasOnePlace: covers the thread-free pipe; a line lost because the thread reading a synchronous pipe was cancelled is not modelled, nor are ids that are NaN or infinite.
- OperatorTheorems.AuditTrailCountsCalls: the sixth operator action, activating a phase, writes session and phase rows, which are not modelled, and so is no command of a run.
- ControlPlaneRuns.ApprovalsResolveOnce: job rows are never deleted in a run, as nothing in these services deletes one.
- FeedGrowth.ClientHasNoGapNoRepeat: follows events by key and row, for their texts may change in place (FeedGrowth.JobChangeRewritesItsDraft); no id of a session event is one of a message.
- MessagePaging.WindowOutOfOrder: treats an id as text in the comparison, as the code does; no meaning is given to the outcome.
- ControlPlaneServices.RelayEngine.Execute: the text of a turn, its artifacts, relay messages, edges and mention hand-offs are not modelled; a turn is its status, its ids and whether publishing raised.
- ControlPlaneServices.OfflineQueueService.Schedule: the rule engine and the readiness of runtimes are parameters of the call.
- ControlPlaneServices.LoopGuardService.Pause: the decision to pause, which counts relay edges, is the parameter of a relay step; the session row that it also updates is not modelled.
- MessageRouting.JobService.CreateJobForMention: runtime lookups are functions of the agent, so the state of pool assignment is not modelled, nor are the input row, the work context and the title of a job.
- MessageRouting.MessageRoutingService.Preview: whether a text is a command is a parameter; command parsing is not modelled.
- MentionRouter.ResolveMentions: lower-casing works character by character, so a rule of Unicode that looks at neighbouring characters is not modelled.
- ActivityFeed.BuildActivityDrafts: the texts of a draft (category, severity, title, detail, payload) are one field copied from its row; the signals beside the feed are not modelled.
- DashboardPanels.BuildReviewBottlenecks: every review has a request time, as the table requires; the handling of a missing one is not modelled.

Not modelled at all:

- Races inside one service call: the services other than the JSON-RPC client are serial.
- Scope normalisation and expansion, labels and actor identities of credentials.
- Titles, instructions, priorities, hop counts and result summaries of jobs.
- The dashboard's bottleneck list, diagnostics and averages, which are read off the panels.
- The order in which repositories list rows, beyond the order that a query states.
- HTTP routes, SQL text, JSON encoding, logging, telemetry transport, subprocess management, the web UI, demo data and readiness checks.
- Repositories with nothing but single-row reads and writes.
