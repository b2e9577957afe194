# A verified model of the civic-report backend

Citizens file reports; a background AI classifies them, staff work on them, and e-mail goes out about
it. Everything is stored in MongoDB, and almost everything races with something else: workers die or
overlap, the queue loses jobs, people edit and withdraw while a provider is thinking, administrators
retry, suspend and retire. The backend relies on conditional updates, claim tokens and small
transactions. This project models those protocols, and three algorithms beside them, and proves what
they guarantee in every run.

A single conditional update and a transaction are one step each. A read and a later write are two
steps, with any number of anyone else's steps between them.

| module | what it is |
|---|---|
| `JobQueue`, `JobQueueSafety`, `JobQueueWaits`, `JobQueueLiveness` | the outbox, the relay and the executor as a state machine, what every run keeps, how long it makes an entry wait, and that no entry is ever stuck |
| `JobWorkers` | the executor and the relay pass as methods over the stored collections, with everyone else interfering between their updates |
| `JobQueueClaims` | how long a claim keeps other deliveries out, and that an attempt runs once unless its claim went stale |
| `JobId` | the ids under which attempts are offered |
| `Reports`, `ReportSafety` | one report: policies, the filter and update each request becomes, and what every run of its writers keeps |
| `ReportEffects` | why each request is refused, what must not have changed at its write, and the report it leaves, told from request and report alone |
| `ReportDesk` | the report handlers as methods: read, assemble the update, let others act, write conditionally |
| `Classification`, `ClassificationSafety`, `ClassificationPromises`, `ClassificationLiveness` | queue, reports and the `classify_report` handler together; each run projects to a run of the queue and of each report |
| `ClassificationEffects` | which category a classified report gets, what stays as people chose it, when a disagreement is noted |
| `ClassificationLimits` | two concrete runs that show what the coupling of reports and jobs rests on |
| `ClassificationService` | the handler with its write loop, the failure record, new requests, retries and the daily sweep as methods |
| `SweepLease` | the lease that starts the sweep once a day |
| `EmailChange`, `EmailChangeSafety`, `EmailChangePromises`, `EmailChangeLiveness` | changing an account's address: notice, link, confirmation, supersession, failure, retry, and what ends a change |
| `EmailChangeEffects` | when a link may be used, what requests, confirmations, resets and retries leave, and how long a link lives |
| `EmailChangeService` | its transactions and the two jobs as methods, with everyone else interfering |
| `Accounts`, `AccountsSafety`, `AccountsLimits` | retirement, suspension, roles, the first administrator, and assignment |
| `AccountsEffects` | why each of those transactions is refused and what it leaves, told from accounts and reports alone |
| `AccountsService` | those transactions as methods, with their counts and their loop over reports |
| `Throttle` | the fixed-window throttle, and how many calls it admits |
| `Presenter` | what a citizen is shown of a report |
| `PromptData` | the stripping of delimiters from a citizen's words |
| `Basics`, `Text` | shared small definitions |

The state machines are values with a total `Step`; the classes change fields in place and each of their
updates is proved equal to one of those steps. The `Effects` modules say the same a second time, in terms of
the request, the stored fields and the constants themselves: each decision function is proved to agree with them,
and the methods' contracts name both. Interference inside a method is an arbitrary sequence of the
machine's actions; the executor, the relay pass, the email jobs and the classification handler return the
whole interleaving as a ghost trace, in which their own steps are the ones their contracts list or their
program makes there, and the sweep returns what happened before each of its steps.

## Where the code and its promises part

- A worker that does not know a job's type fails the entry without touching the report. The report then
  waits for ever if it was waiting for that very request, and only then
  (`ClassificationPromises.UnknownTypeKeepsCouplingIff`; a run that reaches it is
  `ClassificationLimits.UnknownTypeStrandsReport`).
- A claim transaction that throws on the last attempt fails the entry while the report does not carry the
  worker's token, so the failure is not written to the report
  (`ClassificationPromises.FinalFailureKeepsCouplingIff`, `ClassificationLimits.FailingClaimsStrandReport`).
  These two are all: only a worker whose claim transaction threw can strand a report by its last failure
  (`ClassificationPromises.OnlyUnclaimedThrowsStrand`), so a run without such a throw and without a refused
  type strands none (`ClassificationPromises.TidyNeverStrands`), and over any run reports and jobs stay
  coupled exactly if no step strands one (`ClassificationPromises.CoupledThroughoutIff`).
- A recategorisation is the decision for the report as it stands at the write exactly when the chosen
  category differs from the stored one or a disagreement is still recorded: a classification may clear
  the disagreement between the read and the write (`ReportSafety.RecategoriseRefines`).
- Reopening a report does not look at its assignee. It keeps open reports with active agency accounts
  exactly when the assignee, if there is one, is such an account (`AccountsSafety.OpenFitsIff`); a run in
  which it is not is `AccountsLimits.ReopeningBreaksFit`.
- The count of active administrators never saves the last one, since the acting administrator is active
  and may not remove themselves. It refuses exactly the changes of an administrator who is already
  suspended, made by the only active one (`AccountsSafety.FinalAdministratorIff`).
- A failed e-mail change can be retried unless the account has an earlier change created in the very same
  millisecond (`EmailChangePromises.FailedCanBeRetriedIff`).
- The total of the scheduled waits reaches the doubling bound exactly while the last doubling is within
  the cap (`JobQueueWaits.TotalWaitExact`).

## Model

| member | source | states |
|---|---|---|
| `JobQueueSafety.AttemptRecordedOnce` | services/jobs/execute.js:46-121 | In every run, a record of an attempt (done, failed, unknown type) finds the entry unfinished and the attempt unrecorded, and stores exactly that attempt, however often it was delivered or taken over |
| `JobQueueSafety.HistoryIsKept` | services/jobs/execute.js:77-117 | Between any two points of a run, (run key, attempts) of every entry grows lexicographically and what was recorded for an attempt never changes |
| `JobQueueSafety.RecordedAttemptIsClosed` | services/jobs/execute.js:55-61 | A delivery that still holds a claim for an attempt recorded earlier can no longer record anything |
| `JobQueueSafety.AttemptsBelowLimit` | services/jobs/execute.js:70-80 | An unfinished entry always has fewer attempts than its queue's limit |
| `JobQueueSafety.FinishedStaysFinished` | services/jobs/execute.js:55-117 | A finished entry stays finished and its count of attempts stands, whatever deliveries, offers and claims of it are left, until a retry gives it a later run key |
| `JobQueueSafety.NeverClaimedEarly` | services/jobs/relay.js:47-82 | Whoever offers or re-offers it, no attempt is claimed before the time its predecessor recorded |
| `JobQueueClaims.LiveClaimKeepsOut` | services/jobs/execute.js:55-61 | While a claim is not ten minutes old, a delivery without the take-over signal gets none: it ends and no entry changes |
| `JobQueueClaims.StaleClaimLetsIn` | services/jobs/execute.js:55-61 | Once it is, or with that signal, the entry's next attempt is claimed with a fresh token |
| `JobQueueClaims.AttemptRunsOnce` | services/jobs/execute.js:52-61 | In every run, two deliveries of one attempt have both claimed it only if the later one was a take-over, or came more than ten minutes after the earlier one's claim and its every renewal |
| `JobQueueWaits.WaitsAreBounded` | services/jobs/execute.js:70-80 | In every run without provider waits, what the failures of one run key schedule is exactly the first n−1 back-offs, hence at most base·(2^(n-1)−1) and at most (n−1)·cap, where n counts the attempts recorded under that run key, whether or not the entry is past it, and the one to come while it is unfinished; n is within the limit |
| `JobQueueWaits.TotalWaitBounded` | services/jobs/workers.js:15 | The sum of the back-offs of n attempts keeps both bounds |
| `JobQueueWaits.TotalWaitExact` | services/jobs/workers.js:15 | The doubling bound is reached exactly while the last doubling is within the cap |
| `JobQueueSafety.StepKeeps` | services/jobs/execute.js:34-121 | The queue's invariant (flights name known ripe attempts, outcomes are past, tokens are distinct) is kept by every step |
| `JobQueueSafety.RunKeepsClaim` | services/jobs/execute.js:55-61 | Nobody gives a worker its claim back once it was taken over |
| `JobQueueLiveness.OfferReaches` | services/jobs/relay.js:53-82 | From any unfinished entry, clock and relay steps alone put its next attempt in the queue, also when Redis lost it or a relay stopped between offering and marking |
| `JobQueueLiveness.NeverStuck` | services/jobs/relay.js:53-82 | From every reachable state a finite continuation of clock, relay and worker steps finishes any given unfinished entry |
| `JobWorkers.Outbox.ExecuteEntry` | services/jobs/execute.js:34-121 | One delivery, given its handler's answer, with anyone interfering: the trace holds exactly its own steps (delivery, claim or refusal, record) as its readings decide; it runs its handler exactly if its attempt is next and no claim lives or it takes over, and is skipped otherwise; the report says what its last step did, with the code, finality and next time the answer calls for; and a record is the attempt's first, under its own claim |
| `JobWorkers.Outbox.Record` | services/jobs/execute.js:66-119 | The terminal update that the handler's answer leads to, and its report |
| `JobWorkers.Outbox.Claim` | services/jobs/execute.js:54-61 | The claim installs a fresh token exactly when the entry expects this attempt and no claim made or renewed in the last ten minutes stands, unless it is a take-over |
| `JobWorkers.Outbox.RecordDone` | services/jobs/execute.js:115-119 | The terminal update equals the machine's step and ends the delivery as reported |
| `JobWorkers.Outbox.RecordFailed` | services/jobs/execute.js:68-98 | The failure update, made only under this delivery's token: final exactly when not retryable or at the limit of 6 or 8, else PENDING after the provider's wait or the doubled one |
| `JobWorkers.Outbox.RecordUnknownType` | services/jobs/execute.js:38-50 | The unknown-type update lands exactly on the entry in the state that was read |
| `JobWorkers.Outbox.RelayPass` | services/jobs/relay.js:47-71 | Given which offers find the queue reachable: the batch is read, each offer up to the first failing one is added and then marked, the whole batch is reported or nothing, and every entry offered has left its wait, whatever interleaved |
| `JobWorkers.Outbox.Mark` | services/jobs/relay.js:58-63 | The update after an offer queues the entry, or leaves one that has moved on |
| `JobWorkers.DueBatchOk` | services/jobs/relay.js:52-54 | The batch holds due entries only, oldest first, and all of them if they are fewer than the limit |
| `JobWorkers.OffersAreDue` | services/jobs/relay.js:47-82 | An entry is offered only once its wait is over, and offered again only when it has been queued for more than ten minutes |
| `JobWorkers.StepHandsOn` | services/jobs/relay.js:58-63 | No step brings an entry back to the wait it was offered from |
| `JobId.JobIdsAreDistinct` | services/jobs/jobId.js:1-5 | Ids of different attempts differ, and none contains the queue library's separator |
| `ReportSafety.PreparedMatches` | controllers/complaintController.js:193-277 | With nothing in between, the filter a request builds matches the report it read |
| `ReportSafety.WriteRefines` | controllers/complaintController.js:193-277 | A status, priority, edit, withdrawal or assignment write that matches has the effect its decision gives on the report at the write |
| `ReportSafety.RecategoriseRefines` | services/complaintRecategoriseService.js:17-49 | The recorded category and status are those at the write, and exactly when the whole decision would be the same |
| `ReportSafety.WriteIsAtomicDecision` | services/complaintEditService.js:31-132 | The same for every write of every run of a filed report |
| `ReportSafety.ReportExplained` | policies/complaintTransitionPolicy.js:4-79 | In every run: statuses follow allowed moves or the reporter's withdrawal, the last one is current, backward moves and rejections carry a note, `resolvedAt` is the time of the resolving move, the assignment history chains to the assignee, and category, priority and counts agree with the timeline |
| `ReportSafety.TransitionKeepsGood` | policies/complaintTransitionPolicy.js:30-63 | A decided transition extends an explained report to an explained report |
| `ReportSafety.WithdrawalIsFinal` | services/complaintEditService.js:80-131 | After a withdrawal timeline, category, priority and AI fields never change, and repeating it is answered as already withdrawn |
| `ReportSafety.HumanCategorySurvives` | policies/classificationPolicy.js:25-47 | A staff or citizen category changes only by a staff recategorisation |
| `ReportSafety.StaffPrioritySurvives` | policies/classificationPolicy.js:42-42 | A staff priority changes only by staff |
| `ReportSafety.VerdictOnce` | services/classificationRequests.js:61-68 | Each request of a report receives at most one final classification |
| `ReportSafety.VerdictsNeverRewritten` | policies/classificationPolicy.js:44-49 | A final classification stays recorded as it was |
| `ReportSafety.RetireKeepsGood` | services/accountRetirementService.js:62-76 | Releasing a report at retirement keeps it explained |
| `ReportEffects.RefusedFor` | policies/complaintAuthorityPolicy.js:8-34 | Every request is refused exactly for its first objection: authority, state, version, moves one stage apart, notes of 500 and 1000 characters, a note owed for going back or rejecting, 20 edits and 6 analyses |
| `ReportEffects.MatchesUndisturbed` | controllers/complaintController.js:256-262 | Its write matches exactly a report unchanged in version and in the fields that request depends on |
| `ReportEffects.AppliedLeaves` | policies/complaintTransitionPolicy.js:30-79 | And leaves the whole report as asked: an update adds one event with the trimmed public and internal notes, each in its place, its actor, time, kind and priority change |
| `ReportEffects.EveryWriteDoesAsAsked` | services/complaintEditService.js:31-131 | In every run, each pending request had no objection, its write lands exactly on an undisturbed report, and then leaves the report as asked |
| `Text.NormaliseIff` | policies/complaintEditPolicy.js:8-13 | Two descriptions normalise alike exactly when they have the same words, so an edit asks for a new analysis exactly when it changes them |
| `Text.TrimIs` | policies/complaintTransitionPolicy.js:20-28 | Trimming cuts exactly the white space at both ends |
| `ReportDesk.ReportStore.UpdateStatus` | controllers/complaintController.js:193-277 | Refused for its objection to the first reading; else written exactly if the report is undisturbed, and then it adds exactly one event: the notes as asked, each in its place, actor, time, kind and the change from the stored to the asked priority |
| `ReportDesk.ReportStore.DecideTransition` | policies/complaintTransitionPolicy.js:30-63 | The assembled entry and fields are the decision, error cases in the code's order, the event told from the request |
| `ReportDesk.ReportStore.DecidePriorityChange` | policies/complaintTransitionPolicy.js:65-79 | The same for a priority-only change, with its event in full |
| `ReportDesk.ReportStore.EditReport` | services/complaintEditService.js:31-73 | The edit, recorded by what it changed, and its request for a new analysis exactly when the words change; refused or missed as its objection and the report at the write say |
| `ReportDesk.ReportStore.WithdrawReport` | services/complaintEditService.js:80-132 | The withdrawal, its repetition, and the second look after a miss |
| `ReportDesk.ReportStore.RecategoriseReport` | services/complaintRecategoriseService.js:17-58 | The whole new report of a recategorisation, in terms of the report at the write, and exactly when it is refused or missed |
| `ReportDesk.RunIsLater` | services/complaintVersionGuard.js:5-12 | The version a filter pins stands for the rest: between two readings a report is at a later version, or the same in status, timeline, text, edits and reporter, with at most its assignee cleared |
| `ClassificationSafety.RunIsQueueRun` | services/jobs/aiJobs.js:48-102 | Every run of the whole system is a run of the queue, so all queue promises hold in it |
| `ClassificationSafety.RunIsDocRun` | services/jobs/aiJobs.js:48-102 | and a run of each report |
| `ClassificationSafety.StepKeeps` | services/jobs/aiJobs.js:48-102 | Every step that strands no report keeps the coupling of reports and jobs |
| `ClassificationSafety.StepGrounds` | services/jobs/aiJobs.js:48-102 | Every step whatever, stranding or not, keeps what workers may rely on at each place in the handler |
| `ClassificationPromises.WaitingReportHasItsJob` | services/classificationRequests.js:24-68 | In every run whose workers know the job type and whose claim transactions commit or die with their worker, a report that is not withdrawn and is PENDING has exactly one entry for its current request, and it is unfinished |
| `ClassificationPromises.UnstrandedReportHasItsJob` | services/classificationRequests.js:24-68 | The same in every run that strands no report, whatever else is refused or thrown |
| `ClassificationPromises.TidyNeverStrands` | services/jobs/aiJobs.js:55-69 | A run without a refused type and without a throwing claim transaction strands no report: the last failure of a worker past its claim finds its token on the report, if the report still waits |
| `ClassificationPromises.OnlyUnclaimedThrowsStrand` | services/jobs/execute.js:85-96 | If the record of a last failure strands a report, that worker stands at a throw before its claim of the report, and its claim transaction did throw in this run |
| `ClassificationPromises.StepKeepsCouplingIff` | services/jobs/execute.js:41-50 | A step breaks the coupling exactly when it refuses the type of a job a report waits for, or records the last failure of a request still waited for while the report does not carry the worker's token |
| `ClassificationPromises.CoupledThroughoutIff` | services/jobs/execute.js:85-96 | In every run, every waiting report has its job at every moment exactly if no step is of that kind; other refusals and failing claim transactions do no harm |
| `ClassificationPromises.EveryReportExplained` | services/classificationRequests.js:41-50 | Every report of every run of the whole system is explained |
| `ClassificationPromises.QueuePromisesHold` | services/jobs/execute.js:34-121 | The queue inside the system is a reachable queue |
| `ClassificationPromises.OneVerdictPerRequest` | services/jobs/aiJobs.js:55-68 | A step that gives a request its final classification is the first to do so |
| `ClassificationPromises.WriteLoopNeverGivesUp` | services/jobs/aiJobs.js:89-98 | In every run, after a miss the request is gone or a try is left, since each miss uses up one of the two sources that can become STAFF |
| `ClassificationPromises.ResultIsAtomicDecision` | policies/classificationPolicy.js:6-49 | A result that matches equals deciding on the report at the write |
| `ClassificationPromises.ResultFilesAsMeant` | policies/classificationPolicy.js:6-49 | In every run, a result that matches files the report under the category the answer names, or Other if none has that name; staff and citizen categories and staff priorities stay; a disagreement is noted exactly for a citizen's other choice and a confident answer |
| `ClassificationEffects.ChosenIsMeant` | policies/classificationPolicy.js:7-9 | The chosen category is the last of that name among the active ones, else the last named Other, and there is none exactly if neither name is there |
| `ClassificationPromises.ReportTokenNeverMovesBack` | services/jobs/aiJobs.js:55-68 | In every run, from the moment a report carries a token and for as long as it waits for the same request, it carries that token or one of a later claim |
| `ClassificationPromises.UnknownTypeKeepsCouplingIff` | services/jobs/execute.js:41-50 | Failing an unknown type keeps the coupling exactly when no report waits for that entry's request |
| `ClassificationPromises.FinalFailureKeepsCouplingIff` | services/jobs/execute.js:85-96 | A final failure keeps the coupling exactly when a report still waiting for the request carries the worker's token |
| `ClassificationLimits.UnknownTypeStrandsReport` | services/jobs/execute.js:41-50 | A run in which an unknown type leaves a report waiting without a job |
| `ClassificationLimits.FailingClaimsStrandReport` | services/jobs/aiJobs.js:55-69 | A run of one filing, ordinary steps and claim transactions that throw, in which nothing strands the report until the record of the last such throw does |
| `ClassificationLiveness.NeverStuck` | services/jobs/aiJobs.js:48-102 | From every reachable state ordinary steps finish any unfinished job and classify the report that waits for it |
| `ClassificationService.Backend.ClaimTheReport` | services/jobs/aiJobs.js:55-69 | The claim transaction renews the lease and installs the token, or neither |
| `ClassificationService.Backend.DecideClassification` | policies/classificationPolicy.js:6-49 | The branch-by-branch update is the decision, with the category the answer means and the disagreement it calls for; it fails exactly if no active category has the answered name and none is called Other |
| `ClassificationService.Backend.WriteResult` | services/jobs/aiJobs.js:95-95 | The conditional write of a result, in full, and a match files the report as the answer means |
| `ClassificationService.Backend.WriteLoop` | services/jobs/aiJobs.js:89-98 | Three tries: written as the request's verdict, stale, without a fallback, or a failed database call, by the steps of the handler's program; the throw behind the loop is unreachable |
| `ClassificationService.Backend.RunHandler` | services/jobs/aiJobs.js:51-99 | A whole run under any interference, given what photo store, category list, provider and database answer: the trace leads from the old state to the new, and each step of this worker in it is the one its program makes where it stands; a written result files the report as that answer means, no fallback means that neither name is active, a stale end leaves nothing waiting under its claim, and each throw has its cause among those answers |
| `ClassificationService.Backend.RecordClassificationFailure` | services/classificationRequests.js:61-68 | The two guarded updates equal one atomic decision: the request still pending under that token fails with its code, and only a provisional category becomes the fallback |
| `ClassificationService.Backend.FinishRun` | services/jobs/execute.js:77-121 | The executor's record and the report's failure are one step, made only under this claim; a last failure reaches exactly a report that still waits under it |
| `ClassificationService.Backend.DismissReplaced` | services/classificationRequests.js:27-31 | The bulk update dismisses exactly the report's failed jobs, but the one kept |
| `ClassificationService.Backend.AskAgain` | services/classificationRequests.js:24-50 | The next request without older results, its new job, and the dismissal of exactly the report's failed ones, together |
| `ClassificationService.Backend.Reclassify` | controllers/complaintController.js:306-322 | Asked exactly when not withdrawn and not PENDING |
| `ClassificationService.Backend.RetryClassification` | services/classificationRequests.js:52-57 | A retry reuses the failed entry for a new request, exactly while the request it read is the latest |
| `ClassificationService.Backend.SweepFailed` | services/jobs/aiSweep.js:24-43 | The sweep finds qualifying reports only, each once, and all of them if they are fewer than the limit; the new state is that of one sweep step for each, with anything in between, and it counts exactly those that asked again; when it ends each has been withdrawn or has a newer request |
| `ClassificationService.RunFollows` | services/jobs/aiSweep.js:32-38 | A failed request stays as it failed until a newer request or a withdrawal |
| `SweepLease.Lease.Claim` | services/jobs/aiSweep.js:11-22 | Claimed when its time has come, then put off by a day |
| `SweepLease.SweepsADayApart` | services/jobs/aiSweep.js:11-22 | Two sweeps start at least a day apart |
| `SweepLease.SweepComesBack` | services/jobs/aiSweep.js:11-22 | A day after the last sweep the next claim succeeds |
| `EmailChangeSafety.StepKeeps` | services/jobs/emailJobs.js:129-232 | The protocol's invariant is kept, and nothing a step records is undone |
| `EmailChangePromises.ReplacementWasAnnounced` | services/emailChangeService.js:58-94 | When a confirmation replaced address E, a notice of that change had gone to exactly E before any link of the change was made, and the link used was one of them |
| `EmailChangePromises.AddressChangesAreLogged` | services/emailChangeService.js:76-82 | A local account's address changes only by such a confirmation, or by retirement |
| `EmailChangePromises.AddressHeldWhileOpen` | services/jobs/emailJobs.js:148-232 | From a change's creation to its end, through failures, retries and overlapping runs, the account's address stays the same |
| `EmailChangePromises.RequestOpensOne` | services/emailChangeService.js:45-55 | A request leaves exactly one open change of the account: the new one |
| `EmailChangePromises.OnlyTheLatestIsOpen` | services/emailChangeState.js:7-11 | Only an account's latest change is under way or FAILED; the unique index is not used |
| `EmailChangePromises.ActiveIffUnderWay` | models/EmailChange.js:3-18 | `active` holds exactly in the three active states |
| `EmailChangePromises.EndedStaysEnded` | models/EmailChange.js:3-4 | CONFIRMED, SUPERSEDED and CANCELLED are absorbing |
| `EmailChangePromises.EndedIsNeverUsed` | services/jobs/emailJobs.js:85-94 | Once ended, a change gets no further link and is never confirmed |
| `EmailChangePromises.NothingEarlierRevives` | services/passwordChangeService.js:25-33 | After a password change, reset, suspension, confirmation or retirement nothing revives a change requested before |
| `EmailChangePromises.MovingOnCancelsLinks` | services/passwordResetService.js:17-29 | Each of these leaves the account no usable link |
| `EmailChangePromises.UsableLinksFitTheAddress` | services/jobs/emailJobs.js:81-94 | Every usable link was made while the account had its present address |
| `EmailChangePromises.ReplacedAtMostOnce` | services/accountTokenService.js:32-39 | A change is confirmed at most once |
| `EmailChangePromises.AddressesStayDistinct` | services/emailChangeService.js:75-75 | No two accounts share an address |
| `EmailChangePromises.FailedCanBeRetriedIff` | services/jobs/emailJobs.js:148-166 | When exactly a failed change comes back |
| `EmailChangeEffects.LinksAreUsedInTime` | services/accountTokenService.js:32-39 | In every run, a link is used only by a confirmation or a reset with a link of its own purpose, neither used nor deleted, and less than 24 hours, or 30 minutes for a reset, after it was made |
| `EmailChangeEffects.ReplacementUsesLink` | services/emailChangeService.js:58-94 | So a confirmation or reset that changes anything uses up such a link |
| `EmailChangeEffects.ConfirmsIs` | services/emailChangeService.js:64-88 | When exactly a confirmation goes through and all it changes: the address, its link, the account's other links and changes, the log |
| `EmailChangeLiveness.RequestGoesThrough` | services/emailChangeService.js:23-94 | From any state an active local account's request for a free address goes through by a run of its notice job, a run of its link job and the use of the mailed link; notice, link, email and change appear in this order |
| `EmailChangeLiveness.ConfirmGoes` | services/emailChangeService.js:63-88 | A confirmation sets the new address, is logged, and spends its link |
| `EmailChangeService.Desk.EndOpen` | services/emailChangeState.js:7-11 | The bulk update ends exactly the account's active and failed changes |
| `EmailChangeService.Desk.Cancel` | services/accountTokenService.js:41-45 | The bulk deletion removes exactly the unused links of those purposes |
| `EmailChangeService.Desk.AddLink` | services/accountTokenService.js:14-27 | A new link replaces the earlier unused ones |
| `EmailChangeService.Desk.RequestEmailChange` | services/emailChangeService.js:23-56 | Refused exactly as its first reading says, in the code's order: account, actor (inactive, no administrator, own account by the administrator's path), provider, password, throttle, address; else, whatever happened since, the change and its notice job appear together, starting from the address at that moment |
| `EmailChangeService.Declines` | services/emailChangeService.js:23-43 | The first reading refuses nothing exactly when the account is there, local and not retired, the asker is its owner with the right password or another, active administrator, the throttle admits the request, and no account has the address |
| `EmailChangeService.Desk.CheckRequest` | services/emailChangeService.js:28-43 | The checks one by one, with a loop over the accounts for the address, give that refusal and the first that applies |
| `EmailChangeService.Desk.ConfirmEmailChange` | services/emailChangeService.js:58-94 | Confirmed exactly when the link is of its purpose, unused, not deleted and in time, its change waits for it, the account may change and nobody else has the address; then the whole new state, else nothing changes |
| `EmailChangeService.Desk.ResetPassword` | services/passwordResetService.js:12-35 | Done exactly with an unused reset link in time of an active local account; it consumes the link and ends the account's links and changes |
| `EmailChangeService.Desk.FailChange` | services/jobs/emailJobs.js:129-140 | The change under way is FAILED, then anything, then no unused link of it is left |
| `EmailChangeService.Desk.RetryJob` | services/jobs/emailJobs.js:148-166 | The change reopens exactly as the account's latest, failed or still there |
| `EmailChangeService.Desk.ReadUser` | services/jobs/emailJobs.js:168-177 | An account that may not change its address cancels the change |
| `EmailChangeService.Desk.IssueLink` | services/jobs/emailJobs.js:85-94 | A link is made exactly while the account keeps the address and the change waits for it |
| `EmailChangeService.Desk.MoveOn` | services/jobs/emailJobs.js:187-193 | The move and the link job are one step |
| `EmailChangeService.Desk.RunNotice` | services/jobs/emailJobs.js:179-197 | Exactly the steps of a notice run and why it stops where it stops; handing over leaves the old address told or the change ended, by an email of this run unless an earlier one had sent it |
| `EmailChangeService.Desk.RunLink` | services/jobs/emailJobs.js:200-232 | Exactly the steps of a link run by its result (nothing to do, over the cap, no link allowed, not sent, handed over); handing over means the link went to the new address, unless an earlier run had sent it |
| `AccountsSafety.FinalAdministratorIff` | services/accountRetirementService.js:117-124 | Exactly when the count of administrators refuses |
| `AccountsSafety.AlwaysSomeAdmin` | services/accountRetirementService.js:94-308 | Once an administrator is active there always is one |
| `AccountsSafety.RetirementIsFinal` | services/accountRetirementService.js:133-147 | From retirement on the name, address, role and inactive state never change |
| `AccountsSafety.ReopeningMoves` | policies/complaintTransitionPolicy.js:8-9 | Only two moves reopen a report, and they keep its assignee |
| `AccountsSafety.OpenFitsIff` | services/accountRetirementService.js:186-198 | A step keeps open reports with active agency accounts if and only if it does not reopen a report assigned to anyone else |
| `AccountsSafety.OpenReportsFit` | services/accountRetirementService.js:62-76 | So does every run whose reopenings find a fitting assignee |
| `AccountsSafety.RetirementReleases` | services/accountRetirementService.js:62-76 | Exactly the retired agency account's open reports lose it, with one history event each |
| `AccountsSafety.AssignmentsExplained` | services/complaintAssignmentService.js:21-61 | Across assignment, withdrawal and retirement the history explains the assignee, and no withdrawn report has one |
| `AccountsEffects.RetirementIs` | services/accountRetirementService.js:94-155 | A retirement is refused exactly for its first objection; else it leaves the retired name and address, no suspension, an inactive account, and releases exactly the open reports of an agency account |
| `AccountsEffects.MutationIs` | services/accountRetirementService.js:157-236 | A change of role, activity or name is refused exactly for its first objection; else it changes what was asked and the suspension note, nothing else |
| `AccountsLimits.ReopeningBreaksFit` | policies/complaintTransitionPolicy.js:8-9 | A run from an empty system that ends with an open report at a suspended account |
| `AccountsService.Registry.CountActiveAdmins` | services/accountRetirementService.js:118-122 | The count is the number of active administrators |
| `AccountsService.Registry.CountOpenReports` | services/accountRetirementService.js:191-194 | The count is the number of open reports assigned to the account |
| `AccountsService.Registry.ReleaseReports` | services/accountRetirementService.js:53-91 | The loop releases each report as one retirement step of that report |
| `AccountsService.Registry.RetireAccount` | services/accountRetirementService.js:94-155 | Refusals in the code's order, else the whole new state |
| `AccountsService.Registry.MutateAdministrator` | services/accountRetirementService.js:157-236 | The same for role, activity and name |
| `AccountsService.Registry.BootstrapFirstAdministrator` | services/accountRetirementService.js:272-308 | Promotes exactly an active citizen, and exactly when no account was an active administrator; nothing else changes |
| `AccountsService.Registry.AssignComplaint` | services/complaintAssignmentService.js:12-67 | Refused exactly for the first objection of reading, report, administrator and agency account at the transaction; the effect is the assignment told from the request |
| `Throttle.Service.Consume` | services/authThrottleService.js:25-59 | The answer and the stored counter, bad limits included |
| `Throttle.Service.Peek` | services/authThrottleService.js:61-66 | An expired counter reads as none |
| `Throttle.ExpiryChangesNoAnswer` | services/authThrottleService.js:25-66 | Removing expired records at any moments changes no answer of a history |
| `Throttle.AdmittedInOneWindow` | services/authThrottleService.js:37-57 | Within a window exactly the calls up to the limit are admitted |
| `Throttle.AdmittedInAnySpan` | services/authThrottleService.js:37-57 | In any span no longer than a window at most twice the limit, whatever came before |
| `Throttle.RetryAfterIsLeast` | services/authThrottleService.js:4-4 | The reported wait is the least whole number of seconds, at least one, that reaches the end of the window |
| `Throttle.WaitingAdmits` | services/authThrottleService.js:55-57 | After the reported wait (Retry-After, section 10.2.3 of RFC 9110) the next call is admitted, since calls in between prolong nothing |
| `Throttle.KeysAreIndependent` | services/authThrottleService.js:15-23 | A call for one key changes no other |
| `Presenter.TimelineInOrder` | presenters/complaintPresenter.js:140-143 | The timeline holds exactly the history's entries, in order of time |
| `Presenter.TimelineIsStable` | presenters/complaintPresenter.js:140-143 | Entries of one time keep the order in which they were recorded |
| `Presenter.FilterCommutes` | presenters/complaintPresenter.js:157-159 | Leaving entries out before or after sorting is the same |
| `Presenter.CitizenSeesOnlyPublicData` | presenters/complaintPresenter.js:78-164 | Reports that agree on public data give any viewer of the citizen role the same response and the same summary |
| `Presenter.CitizenSeesAllPublicData` | presenters/complaintPresenter.js:145-164 | Equal responses to a citizen come from reports that agree on all of it: category, reporter, times and rights included, and event by event with its actor label |
| `Presenter.CitizenIsShown` | presenters/complaintPresenter.js:78-164 | A citizen is shown every event but changes of category, in order of time, with public note and the actor by label; no internal note, coordinates, provenance, assignment or edit history |
| `Presenter.StaffAreShown` | presenters/complaintPresenter.js:128-210 | Administrators and agency staff are shown every event in order of time, with its internal note, category change and actor, and the staff part with exactly their rights |
| `PromptData.RemoveDelimiters` | services/ai/prompts/classify-v1.js:6-13 | The loop terminates with the stripped text |
| `PromptData.PassIff` | services/ai/prompts/classify-v1.js:9-10 | One pass shortens the text, or the text holds no delimiter |
| `PromptData.AsDataIsClean` | services/ai/prompts/classify-v1.js:6-13 | The result holds neither delimiter, is a subsequence of the input, and a second pass changes nothing |
| `PromptData.OnlyDelimitersGo` | services/ai/prompts/classify-v1.js:6-13 | Nothing else is lost: the result is reached from the text by cutting out one delimiter after another |
| `PromptData.DelimitersOnce` | services/ai/prompts/classify-v1.js:31-35 | In the block each delimiter occurs exactly once, at its end of the block |
| `PromptData.CuttingReturnsTheData` | services/ai/prompts/classify-v1.js:31-35 | Cutting between them returns the stripped description |

## Left out

- HTTP routing, sessions, cookies, request schemas, the client, logging, scripts and migrations: not part of this model.
- The AI, e-mail, image and map providers: their answers and failures are arbitrary values.
- BullMQ and Redis: a set of job ids that ignores a repeated id and may lose members; rate-limit pauses and stalled-job detection become a free take-over flag.
- MongoDB: single updates and transactions are atomic; transaction retries and write conflicts are not modelled. An exception inside a transaction is a crash, except that the claim transaction of a classification may throw; any other database call of that handler may fail and make it throw.
- Deleting reports, and the removal of finished outbox entries by their expiry: entries and reports stay.
- Clocks: one clock that only moves forward, shared by all processes.
- Claim tokens and link tokens are fresh numbers from counters, in place of random strings and their hashes.
- Names, roles and reasons inside history snapshots, reference codes, images and the reason of an assignment or retirement are not stored in the report of `Reports`; `Presenter` has its own fuller report.
- Text is measured in characters of the model, not in UTF-16 units, and JavaScript's white space is written out in `Text.IsSpace`.
- Legacy records without a category source, priority source or assignee field: an absent value is the one model value for none.
- Administrators' retry of a classification: the request number the administrator's reading saw may be any number, which covers every earlier reading; the batch retry of failed jobs repeats it and adds nothing.
- After a missed edit, update or recategorisation the code looks at the report once more to choose between the possible errors; the model answers that the report is stale.
- The re-offer pass and dismissals are steps of `JobQueue.Step` only, without a method of their own, since they repeat the relay pass and one update.
- When more reports qualify than its limit, the sweep takes them in the order they were filed, not of their failures.
- The relay's own guard against overlapping passes and its outage log: passes may overlap, which covers fewer.
- `createComplaint`, password changes, suspension and Google sign-in are steps of the machines only, as each is one transaction without a loop or a later write.
- Passwords, verification of addresses at sign-up and the use of verification links: only what they do to links and changes.
- The gap between the two writes of a failed e-mail change: nothing is claimed about links in it, only that it keeps the invariant.
- The throttle of link e-mails per recipient is a free flag in the link run, and so are the throttle and the password check of an e-mail change request; the throttle itself is `Throttle`. The actor's role is a parameter too, since `EmailChange` stores none.
- Of a staff response, the actions offered beyond managing and assigning, and fields that only repeat stored ones.
- No one asks for an address of the form kept for retired accounts.
- The validation of throttle scopes and subjects, and of a retirement's reason.
- In `EmailChange` a link may be used from the moment it is made, which covers its use once it is mailed.
- The prompt's list of categories and the system text: only the block around the description.
- JobWorkers.Outbox.ExecuteEntry: the handler's own writes are outside the queue; for classifications `ClassificationService.Backend.RunHandler` has them.
