# Bongofleet: session, offline queues and four small cores

This project models the parts of the Bongofleet clients that must not lose money records or sign people out, and
proves what they keep over every run.

Files, in reading order:

- `Api.dfy`: how one API call settles.
- `MobileSession.dfy`, `SessionSafety.dfy`, `SessionTheorems.dfy`, `SessionSurvival.dfy`, `SessionLoss.dfy`,
  `SessionWitnesses.dfy`, `MobileClient.dfy`: the mobile app's refresh protocol as a step machine, what every run
  keeps, exactly when the session survives, runs in which it does not, and the turns of the source as methods over
  its own variables.
- `QueueRuns.dfy`, `QueueSafety.dfy`, `QueueOverlap.dfy`, `QueueConservation.dfy`, `QueueTheorems.dfy`: the payment
  queue as a step machine with interleaved enqueues, flushes, server actions and crashes; what every run keeps, exactly
  when overlapping writers do harm, runs without overlap, reports, and runs that show each harm. `FlushRule.dfy`,
  `PaymentQueue.dfy`, `QueueRefinement.dfy`: one undisturbed flush as a rule, the source's loop proved against it, and
  the machine proved to agree with it.
- `EndToEnd.dfy`, `SessionOver.dfy`, `DeadSession.dfy`: the queue's calls run inside the session machine, and what a
  session that is over does to the queue.
- `DashboardSession.dfy`, `DashboardSafety.dfy`, `DashboardTabs.dfy`, `DashboardClient.dfy`: the dashboard's protocol,
  which obeys a refused refresh, racing its own bootstrap and the refreshes of other tabs; and exactly when tabs stay
  signed in.
- `ExpenseRule.dfy`, `ReceiptRule.dfy`, `ExpenseQueue.dfy`: the two-phase expense queues. The rider's and the job's
  module are the same code on different storage keys and endpoints; an object of `ExpenseQueue.Module` is either.
- `GpsQueue.dfy`, `ModalStack.dfy`, `MergedLedger.dfy`, `TenantCache.dfy`, `DailyCollection.dfy`, `IdleTimer.dfy`.

How to read the machines. A token is the serial number of the pair it was issued in. A payment or a fix is the ticket
its enqueue drew when it read storage. One event is one JavaScript turn between two `await`s, one storage access, or
one server action; an event that is not enabled changes nothing, so "for every list of events" is "for every
interleaving". Laws of one reply or one step are stated by status, body and stored value, for any state or any run.
Hypotheses are predicates over the single steps of a run (`Benign`, `Patient`, `Fresh`, `Serial`, `Fair`, `Apart`,
`Loads`). A call answered with a 4xx is taken not to have been recorded by the server. The undisturbed methods take the
results of their calls as functions from the call's number.

Where the code does less than its comments say, the code is modelled and the exact condition is proved:

- The comment on `performRefresh` says a 401 on a token that was already used means the session goes on. That holds
  exactly when the winner's pair is in storage before the loser re-reads it (`RereadAdoptsIff`). Processes that share
  the tokens are safe from being signed out exactly as long as no re-read comes too early, no rotation's reply is lost,
  no 5xx answers a refresh and nobody ends the session (`SurvivesIff`); each of these failures has a run, in three of
  them with the server's session alive (`EarlyRereadRun`, `ServerErrorRun`, `LostRotationRun`, `RevokedRun`).
- Overlapping writers of the payment queue can lose a payment (`OverlapLosesPayment`) or bring a sent one back, which
  the server then records twice (`OverlapRepeatsPayment`). Neither happens exactly when every write replaces a list that
  holds just what its writer read, apart from the payment it adds or takes off (`QueueOverlap.WholeIffFresh`). The same
  is proved of the GPS buffer and of the pending receipts.
- A refused payment can go unreported: exactly when the app dies while the running flush has rejected a payment that was
  not reported before and is not the one it has just been answered for (`ReportedIffSpared`, `CrashLosesReport`). As
  long as no write is stale, that one is the only rejected payment still queued (`ReportedIffStillQueued`).
- A dead session's error counts as a 4xx: once the tokens are gone, and no refresh under way has one, every payment
  that leaves the queue is dropped unseen, into `rejected`, whatever runs then (`SessionOver.DeadSessionEmptiesQueue`, `RevokedSessionDropsPayment`). Apart
  from that a payment leaves only for an answer to its own POST (`PaymentLeavesByItsCall`), and while the session
  survives and fresh access tokens are accepted that answer is never a 401 (`NoPaymentLeavesWith401`).
- A receipt photo is lost by a crash in exactly one window (`CrashLosesPhotoIff`).
- A logout can come without a warning: exactly when no poll finds the clock between 29 and 30 minutes
  (`TimeoutAnnouncedIff`), which polls at most 60 s apart rule out and slower ones do not.
- The comment on `bootstrap` says sharing one refresh keeps the user signed in. In one tab that holds exactly as long as
  `/auth/me` brings the user (`BootstrapSignsOutIff`): a 500 there clears a live session. Tabs do not share the slot, and
  stay signed in exactly as long as no refresh begins while another one is on its way (`TabsStaySignedInIff`,
  `OtherTabIsSafeIff`, `TwoTabsSignOut`).

Two results have a hypothesis that the rest of the system provides. The tenant cache separates scopes exactly when no
key prefix begins with another (`ScopesCollideIff`), which colon-free tenant ids ensure, and the schema makes tenant
ids cuids. The merged ledger shows the whole total exactly when the rows that repeat a day sum to nothing
(`TotalConservedIff`), and the schema allows a driver one assignment a day.

## Model

| member | source | states |
|---|---|---|
| MobileClient.Client.SaveTokens | packages/mobile-app/src/storage.ts:27-32 | both halves of a pair are written at once |
| MobileClient.Client.ClearTokens | packages/mobile-app/src/storage.ts:42-44 | both halves are removed at once |
| MobileClient.Client.RefreshTokens | packages/mobile-app/src/api.ts:112-121 | an attempt in flight is shared, otherwise one is started and holds the slot |
| MobileClient.Client.ResolveResponse | packages/mobile-app/src/api.ts:129-162 | only a first 401 waits for a refresh; every other reply settles the call |
| MobileClient.Client.AfterRefresh | packages/mobile-app/src/api.ts:136-151 | true retries, false goes on to clear the session, a rejection is a network error that keeps it |
| MobileClient.Client.EndSession | packages/mobile-app/src/api.ts:148-150 | the tokens go, the app is told once that the session has expired, and the call fails with that error |
| MobileClient.NothingEnds | packages/mobile-app/src/api.ts:148-150 | a client whose history broke no hypothesis has a token and no call about to end the session |
| MobileClient.Client.BeginRefresh | packages/mobile-app/src/api.ts:76-88 | presents the stored token, or ends in false without one |
| MobileClient.Client.RefreshAnswered | packages/mobile-app/src/api.ts:90-107 | 401 is to be interpreted, other failures end in false, a lost or unreadable reply throws |
| MobileClient.Client.InterpretRefusal | packages/mobile-app/src/api.ts:90-103 | true exactly if storage holds another token by now |
| MobileClient.Client.StoreRotation | packages/mobile-app/src/api.ts:107-109 | the new pair is stored before the attempt returns true |
| MobileClient.Client.ReleaseSlot | packages/mobile-app/src/api.ts:116-118 | the slot is emptied on every way out, with the outcome kept for the waiters |
| SessionSafety.SafeRun | packages/mobile-app/src/api.ts:74-169 | in every run the slots hold exactly the unfinished attempts, one a process, and every call has had exactly the answers its phase implies and, if ended, says what its last answer or its refresh's outcome says |
| SessionTheorems.SingleFlight | packages/mobile-app/src/api.ts:112-121 | at most one refresh per process is outstanding; a waiter can resume only once the slot no longer holds its attempt |
| SessionTheorems.WaitersShareOutcome | packages/mobile-app/src/api.ts:112-151 | calls that awaited one attempt all followed its outcome: all asked once more and end as their second answers say, or all ended the session, or all failed with a network error |
| SessionTheorems.FirstAnswer | packages/mobile-app/src/api.ts:129-169 | the first answer settles a call by its status and body, unless it is a 401, after which the call waits for its process's refresh |
| SessionTheorems.RefreshedCallIsRetried | packages/mobile-app/src/api.ts:145-147 | a call whose refresh returned true asks once more with the token then stored, and ends as that answer says, a second 401 included |
| SessionTheorems.UnrefreshedCallEnds | packages/mobile-app/src/api.ts:138-150 | after false the call clears both tokens and ends as session expired, after a rejection it ends in a network error and leaves the tokens |
| SessionTheorems.RefreshPresents | packages/mobile-app/src/api.ts:76-78 | a refresh presents the stored token, or returns false without one |
| SessionTheorems.RefreshFollowsServer | packages/mobile-app/src/api.ts:85-109 | what the refresh comes to for every way the server and the network treat its request |
| SessionTheorems.RefusalIsInterpreted | packages/mobile-app/src/api.ts:90-103 | after a 401 it returns true iff storage holds another token, and changes nothing |
| SessionTheorems.RefreshReturns | packages/mobile-app/src/api.ts:112-121 | every way out empties this process's slot alone and leaves its result; a lost request is a rejection |
| SessionTheorems.TokensIssuedTogether | packages/mobile-app/src/storage.ts:27-44 | because both writes are of both halves, the stored tokens were issued together or are both absent, with any number of processes |
| SessionTheorems.SingleSpend | packages/mobile-app/src/api.ts:76-121 | in one process a token is presented twice only if the first attempt is over and threw or was answered non-ok |
| SessionSurvival.RereadAdoptsIff | packages/mobile-app/src/api.ts:90-103 | in a live run a refused refresh ends in true iff no other attempt holds an unsaved pair bought with the same token, and in false iff one does |
| SessionLoss.SurvivesIff | packages/mobile-app/src/api.ts:74-162 | at no point of a run could a harmless continuation sign out the processes that share storage, iff no step of it ends the server's session, loses a rotation's reply, lets another non-ok refresh reply through, or re-reads too early |
| SessionLoss.BreachEndsSession | packages/mobile-app/src/api.ts:90-151 | after the first such step some harmless continuation clears both tokens, and unless the server's session was ended from outside it is alive all along |
| SessionSurvival.SessionSurvives | packages/mobile-app/src/api.ts:74-162 | in one process benign replies alone suffice: no interleaving of any number of calls clears the session, the stored token is current or the current one is on its way, and a retry's access token is newer than the refused refresh token |
| SessionSurvival.LostRaceSurvived | packages/mobile-app/src/api.ts:90-109 | if the winner has saved, the loser adopts its pair with no second request and without touching it |
| SessionSurvival.LostRotationIsFatal | packages/mobile-app/src/api.ts:101-107 | after a rotation whose reply is lost or unreadable no later refresh ever succeeds and storage never holds another token |
| SessionLoss.FalseEndsSession | packages/mobile-app/src/api.ts:105-151 | in a run that broke no hypothesis so far, a refresh answered with a 5xx makes every call that waits for it clear both tokens while the server's session is alive |
| SessionWitnesses.LostRaceRun | packages/mobile-app/src/api.ts:90-109 | a run from sign-in in which the loser of a race adopts the winner's pair |
| SessionWitnesses.EarlyRereadRun | packages/mobile-app/src/api.ts:90-103 | a run in which it re-reads too early and signs the user out, the server's session being alive |
| SessionWitnesses.ServerErrorRun | packages/mobile-app/src/api.ts:105-151 | a run in which a 5xx signs the user out, the server's session being alive |
| SessionWitnesses.LostRotationRun | packages/mobile-app/src/api.ts:84-151 | a run in which a lost reply does so at the next refresh, the server's session being alive |
| SessionWitnesses.RevokedRun | packages/mobile-app/src/api.ts:90-151 | a run in which the server's session is ended and the next refresh signs the user out |
| QueueRuns.StoredInOrder | packages/mobile-app/src/queue.ts:21-75 | in every interleaving with crashes, every list stored or about to be stored is strictly increasing in the order of the enqueues' reads |
| QueueSafety.SoundRun | packages/mobile-app/src/queue.ts:21-75 | in every interleaving with crashes only the head of the flush's copy is ever posted, a 2xx means recorded, and storage holds only payments whose enqueue stored them |
| QueueSafety.EnqueueAppends | packages/mobile-app/src/queue.ts:21-24 | an enqueue will store what is stored when it reads and its own payment |
| QueueSafety.FlushLoads | packages/mobile-app/src/queue.ts:36-40 | a flush works on what is stored when it reads, with no rejections yet |
| QueueSafety.FlushPosts | packages/mobile-app/src/queue.ts:42-75 | it posts the head of its copy, and ends and reports its rejections when there is none |
| QueueSafety.ServerRecords | packages/mobile-app/src/queue.ts:44-53 | the server can record a request whose sender still awaits its answer or has heard nothing, and no other |
| QueueSafety.RecordedOnlyByServer | packages/mobile-app/src/queue.ts:45-53 | a payment is recorded only by the server handling a request, or where an answer or a direct request says it was |
| QueueSafety.CrashForgets | packages/mobile-app/src/storage.ts:46-59 | a crash forgets the flush, its rejections and enqueues under way, and nothing that is stored |
| QueueOverlap.WholeIffFresh | packages/mobile-app/src/queue.ts:21-75 | in every interleaving with crashes no payment is lost and no settled one comes back, at any point, iff every write replaces a list that holds just what its writer read, apart from the payment it adds or takes off |
| QueueConservation.KeptRun | packages/mobile-app/src/queue.ts:30-75 | runs without overlap write nothing stale: the stored queue is the flush's copy at each loop head, and a removed payment never returns |
| QueueOverlap.NoPaymentLost | packages/mobile-app/src/queue.ts:30-75 | in runs without stale writes (runs without overlap are such), over failures and restarts, every queued payment is still stored, or recorded by the server, or dropped for a 4xx |
| QueueOverlap.ProcessedAtMost | packages/mobile-app/src/queue.ts:30-75 | in runs without stale writes a payment is recorded at most once more often than it met an ambiguous failure |
| QueueTheorems.ReportedRun | packages/mobile-app/src/queue.ts:58-72 | without a crash every payment dropped for a 4xx is in a flush's rejected list, in any interleaving |
| QueueTheorems.ReportedIffSpared | packages/mobile-app/src/queue.ts:58-72 | in every interleaving each payment dropped for a 4xx is or will be in a returned rejected list, at every point of the run, iff at every crash each payment the running flush has rejected was reported before or is the one it has just been answered for |
| QueueTheorems.ReportedIffStillQueued | packages/mobile-app/src/queue.ts:58-72 | in runs without stale writes the same holds iff at every crash each payment the running flush has rejected was reported before or is still queued |
| QueueTheorems.CrashLosesReportIff | packages/mobile-app/src/queue.ts:58-72 | one crash loses a report iff some payment the running flush has rejected was not reported before and is not the one it has just been answered for |
| QueueTheorems.CrashLosesReport | packages/mobile-app/src/queue.ts:58-72 | a run in which a dropped payment is never reported |
| QueueTheorems.OverlappingEnqueueKeptIff | packages/mobile-app/src/queue.ts:21-26 | a payment whose enqueue has stored it behind a flush that awaits an answer is still stored at the flush's end iff that answer stops the flush |
| QueueTheorems.OverlapLosesPayment | packages/mobile-app/src/queue.ts:38-56 | a run in which an enqueued payment vanishes, neither posted by a flush nor judged |
| QueueTheorems.OverlapRepeatsPayment | packages/mobile-app/src/queue.ts:22-56 | a run in which a sent payment comes back and is recorded twice with no ambiguous failure |
| FlushRule.Leaving | packages/mobile-app/src/queue.ts:42-69 | how many items leave: all before the first answer that is neither 2xx nor 4xx, and that answer stops the flush |
| FlushRule.FlushAccounts | packages/mobile-app/src/queue.ts:71 | sent + rejected + remaining is the initial length |
| FlushRule.RejectedIff | packages/mobile-app/src/queue.ts:58-65 | an item is reported with an error iff it left and its own call came to that 4xx |
| FlushRule.RejectedInOrder | packages/mobile-app/src/queue.ts:58-65 | rejected lists them in queue order, each with its own error |
| PaymentQueue.Queue.EnqueuePayment | packages/mobile-app/src/queue.ts:21-26 | appends and returns the new length |
| PaymentQueue.Queue.Settle | packages/mobile-app/src/queue.ts:54-65 | an answered item leaves both queues and is counted as sent or reported with its error |
| PaymentQueue.Queue.SendQueued | packages/mobile-app/src/queue.ts:37-71 | removes exactly the prefix that leaves, posts in order and no item twice, reports exactly what it did |
| PaymentQueue.Queue.FlushQueue | packages/mobile-app/src/queue.ts:30-75 | the same under the flag, which is down on every exit; a nested flush changes nothing |
| PaymentQueue.Queue.RecordPayment | packages/mobile-app/src/context/DriverDataContext.tsx:283-333 | a payment is posted iff its text is a positive number and there is an assignment; it is queued as posted, once, iff its call found no connection; the form is cleared iff it was recorded or queued |
| QueueRefinement.SerialFlushIsAtomic | packages/mobile-app/src/queue.ts:30-75 | an undisturbed flush of the interleaved machine is the atomic prefix removal of the rule: its posts, what settles each, what stops it and what it reports |
| EndToEnd.PaymentLeavesByItsCall | packages/mobile-app/src/queue.ts:42-69 | whatever servers and networks do, whenever the app dies, with any number of processes and no stale writes, a queued payment is still stored, or its own POST's last reply was a 2xx or a 4xx, or the refresh that POST waited for ended in false; in the last two cases it is in rejected unless a crash lost the report |
| EndToEnd.TurnPosts | packages/mobile-app/src/queue.ts:42-53 | a turn of the flush starts a call of its process for the head of its copy, and with an empty copy ends the flush |
| EndToEnd.ReplyDecides | packages/mobile-app/src/queue.ts:44-68 | in every run the last reply to the head's POST decides: a 204 or readable 2xx sends it, a 4xx other than a first 401 rejects it, a first 401 rejects it iff the refresh returned false, and anything else stops the flush with the payment still queued |
| EndToEnd.DroppedIffRefreshFailed | packages/mobile-app/src/api.ts:136-151 | in every run a payment that left was dropped unseen iff the refresh its POST waited for ended in false |
| EndToEnd.NoPaymentLeavesUnanswered | packages/mobile-app/src/queue.ts:42-69 | if moreover no step breaks a hypothesis of the session, only the first three remain: refresh races and offline refreshes never remove a payment |
| EndToEnd.NoPaymentLeavesWith401 | packages/mobile-app/src/queue.ts:61-65 | and if the server accepts access tokens newer than the refresh token they replaced, no payment leaves with a 401 |
| SessionSurvival.NoCallFailsWith401 | packages/mobile-app/src/api.ts:129-162 | under the same hypotheses no call at all fails with a 401 |
| SessionOver.DeadSessionEmptiesQueue | packages/mobile-app/src/queue.ts:42-69 | once the tokens are gone and no refresh under way has one, whatever runs then, with tokenless requests answered 401 and no crash: every payment that leaves is dropped unrecorded for the session's error, and the flush has put exactly what it dealt with in rejected, or is over and has reported all, none of them stored any more if no write was stale |
| DeadSession.DeadFlushEnds | packages/mobile-app/src/queue.ts:42-69 | and a flush of any length can run to that end |
| DeadSession.RevokedSessionDropsPayment | packages/mobile-app/src/api.ts:148-150 | a run from sign-in in which a session ended by the server costs a payment the server never saw |
| DashboardClient.Page.SetTokens | packages/dashboard/src/lib/token-store.ts:26-29 | both tokens change together |
| DashboardClient.Page.ClearTokens | packages/dashboard/src/lib/token-store.ts:31-34 | both tokens go |
| DashboardClient.Page.RefreshTokens | packages/dashboard/src/lib/api.ts:55-81 | shares the attempt in flight or starts one with the stored token |
| DashboardClient.Page.FetchAnswered | packages/dashboard/src/lib/api.ts:83-116 | only a first 401 waits for a refresh |
| DashboardClient.Page.FetchResumed | packages/dashboard/src/lib/api.ts:90-98 | true retries with the token now in memory, false clears and goes to the login page, a rejection is passed on |
| DashboardClient.Page.RefreshAnswered | packages/dashboard/src/lib/api.ts:61-69 | any non-ok status ends in false, a lost or unreadable reply throws |
| DashboardClient.Page.RefreshParsed | packages/dashboard/src/lib/api.ts:69-71 | the pair is stored before the attempt returns true |
| DashboardClient.Page.ReleaseSlot | packages/dashboard/src/lib/api.ts:76-78 | the slot is emptied on every way out |
| DashboardClient.Page.Bootstrap | packages/dashboard/src/lib/auth-context.tsx:31-44 | no stored token means unauthenticated, otherwise it joins the shared refresh |
| DashboardClient.Page.BootstrapRefreshed | packages/dashboard/src/lib/auth-context.tsx:44-58 | false and a rejection clear the session, true loads the user |
| DashboardClient.Page.BootstrapLoaded | packages/dashboard/src/lib/auth-context.tsx:50-58 | authenticated iff the user was loaded, else the session is cleared |
| DashboardSafety.FetchFollowsReply | packages/dashboard/src/lib/api.ts:83-116 | a fetch ends as its answer says by status and body, unless that is its first 401, after which it waits for the slot's refresh |
| DashboardSafety.RefreshedFetchIsRetried | packages/dashboard/src/lib/api.ts:90-94 | after true it is sent once more with the token in memory and ends as the second answer says |
| DashboardSafety.UnrefreshedFetchEnds | packages/dashboard/src/lib/api.ts:95-97 | after false both tokens go and it fails as session expired, after a rejection it fails and the tokens stay |
| DashboardSafety.RefreshStarts | packages/dashboard/src/lib/api.ts:55-59 | a refresh presents the token in local storage, or returns false without one |
| DashboardSafety.RefreshFollowsServer | packages/dashboard/src/lib/api.ts:61-71 | what it comes to for every way the server and the network treat its request |
| DashboardSafety.RefreshReturns | packages/dashboard/src/lib/api.ts:74-81 | every way out empties the slot and leaves its result; a lost request is a rejection |
| DashboardSafety.BootStartsWithToken | packages/dashboard/src/lib/auth-context.tsx:31-44 | no stored token means unauthenticated at once, otherwise it awaits the shared refresh |
| DashboardSafety.BootFollowsRefresh | packages/dashboard/src/lib/auth-context.tsx:44-49 | after true it loads the user with the token in memory, after anything else both tokens go and it is unauthenticated |
| DashboardSafety.UserLoadDecides | packages/dashboard/src/lib/auth-context.tsx:49-58 | a 204 or readable 2xx to /auth/me authenticates, anything else but a 401 clears the session |
| DashboardSafety.OtherFollowsServer | packages/dashboard/src/lib/api.ts:61-71 | another tab's refresh stores the new token if honoured and clears the shared key if not |
| DashboardSafety.BootstrapNeverSignsOut | packages/dashboard/src/lib/auth-context.tsx:30-61 | in one tab, with a live session, answered requests, accepted access tokens and an /auth/me that brings the user, no interleaving of the bootstrap with any number of fetches clears the session, and no refresh token is spent twice |
| DashboardSafety.BootstrapSignsOutIff | packages/dashboard/src/lib/auth-context.tsx:49-58 | whatever /auth/me answers, the user of one tab stays signed in throughout iff it brings the user |
| DashboardTabs.TabsStaySignedInIff | packages/dashboard/src/lib/api.ts:55-98 | with any number of refreshes in any number of tabs, at no point could a harmless continuation sign anybody out, iff no refresh began while another was on its way and /auth/me brought the user |
| DashboardTabs.BrokenHypothesisEnds | packages/dashboard/src/lib/api.ts:90-98 | the first step that breaks this opens a harmless continuation that clears a tab's session while the server's is alive |
| DashboardClient.EveryFairPage | packages/dashboard/src/lib/auth-context.tsx:30-61 | a page with such a history has its tokens and is not unauthenticated |
| DashboardTabs.OtherTabIsSafeIff | packages/dashboard/src/lib/token-store.ts:14-34 | one whole refresh in another tab is harmless iff this page has no refresh on its way, whoever awaits it |
| DashboardTabs.TwoTabsSignOut | packages/dashboard/src/lib/auth-context.tsx:44-48 | a run in which two tabs load at once and the second refresh signs both out, the server's session being alive |
| ExpenseRule.TextConserved | packages/mobile-app/src/expenseQueue.ts:135-181 | sent + text rejections + remaining is the initial length, whatever the uploads do |
| ExpenseRule.PhotosConserved | packages/mobile-app/src/expenseQueue.ts:151-166 | uploads + new pending rows + receipt rejections is the number of photos of sent expenses |
| ExpenseRule.PhotoEndsInOnePlace | packages/mobile-app/src/expenseQueue.ts:104-166 | each photo of a sent expense ends in exactly one of the three places |
| ExpenseRule.PhotoFollowsFields | packages/mobile-app/src/expenseQueue.ts:156-166 | an expense with all three photo fields has the receipt of those fields and the server's id there; with any field missing nothing is uploaded, queued, rejected or written for a photo |
| ExpenseRule.RefusedText | packages/mobile-app/src/expenseQueue.ts:168-176 | a refused text is rejected with its error and its photo is not tried |
| ExpenseRule.UploadedInOrder | packages/mobile-app/src/expenseQueue.ts:147-166 | the uploads are the photos that were taken, in queue order |
| ExpenseRule.RejectedInOrder | packages/mobile-app/src/expenseQueue.ts:147-176 | the rejections name each item with an error once, in queue order, with the error of its text or of its photo |
| ExpenseRule.CrashLosesPhotoIff | packages/mobile-app/src/expenseQueue.ts:147-162 | a crash loses a photo iff it falls between the write of the queue and the write of the pending list and the photo has no final answer |
| ExpenseRule.CrashSeesWrites | packages/mobile-app/src/expenseQueue.ts:147-162 | the states a crash can see are those the item's writes leave |
| ExpenseQueue.Module.EnqueueExpense | packages/mobile-app/src/expenseQueue.ts:49-54 | appends and returns the new length |
| ExpenseQueue.Module.RetryPendingReceipt | packages/mobile-app/src/expenseQueue.ts:104-119 | no connection moves the row to the end, anything else removes it; the queue is untouched |
| ExpenseQueue.Module.Settle | packages/mobile-app/src/expenseQueue.ts:147-176 | text leaves before the photo is tried; both lists, uploads, rejections and every single write are those of the rule |
| ExpenseQueue.Module.SendQueued | packages/mobile-app/src/jobExpenseQueue.ts:119-164 | the whole flush: lists, uploads, writes, posts in order and none twice, counters |
| ExpenseQueue.Module.FlushExpenseQueue | packages/mobile-app/src/expenseQueue.ts:123-185 | the same under the flag, down on every exit; a nested flush changes nothing |
| ExpenseQueue.Module.TryNext | packages/mobile-app/src/expenseQueue.ts:204-214 | one row of a pass: the list, the write, and what it adds to the pass's counters |
| ExpenseQueue.Module.RetryPending | packages/mobile-app/src/expenseQueue.ts:199-218 | the pass over the copied list, with its report, uploads and writes |
| ExpenseQueue.Module.FlushPendingReceipts | packages/mobile-app/src/expenseQueue.ts:193-222 | the same under its own flag |
| ReceiptRule.PassRotates | packages/mobile-app/src/expenseQueue.ts:193-222 | a pass removes the rows before the first that meets no connection and moves that one to the end; ids stay unique |
| ReceiptRule.PassAccounts | packages/mobile-app/src/expenseQueue.ts:204-218 | uploaded + rejected + remaining is the initial length |
| ReceiptRule.UploadsInOrder | packages/mobile-app/src/expenseQueue.ts:204-210 | the uploads of a pass are the rows that were taken, in order |
| ReceiptRule.RejectionsInOrder | packages/mobile-app/src/expenseQueue.ts:211-213 | its rejections are the rows that met an error other than no connection, each with its own, in order |
| ReceiptRule.EveryReceiptIsTried | packages/mobile-app/src/expenseQueue.ts:104-119 | n consecutive passes over n pending receipts try every one of them |
| ReceiptRule.IdsStayUnique | packages/mobile-app/src/expenseQueue.ts:104-119 | in every interleaving of retries the stored ids are unique |
| ReceiptRule.WholeIffFresh | packages/mobile-app/src/expenseQueue.ts:104-119 | in every interleaving of retries the rows stored are those whose last retry found no connection, at every point, iff every retry writes the rows it would have written had it read the list only then |
| ReceiptRule.OverlapLosesReceipt | packages/mobile-app/src/screens/MatumiziScreen.tsx:153-294 | two overlapping retries after which a photo that was never uploaded is on no list |
| GpsQueue.BufferBounded | packages/mobile-app/src/gpsQueue.ts:30-87 | in every interleaving with crashes the buffer and every batch hold at most 500 fixes, in order, none twice |
| GpsQueue.WholeIffFresh | packages/mobile-app/src/gpsQueue.ts:37-87 | in every interleaving with crashes the buffer is the longest suffix of at most 500 of the fixes stored since it was last cleared, at every point, iff every write replaces a buffer that holds just what its writer read |
| GpsQueue.SerialIsFresh | packages/mobile-app/src/gpsQueue.ts:37-87 | runs without overlap write nothing stale |
| GpsQueue.OverlappingFixKeptIff | packages/mobile-app/src/gpsQueue.ts:64-79 | in a run that was fresh so far, fixes stored while the flush awaits its answer are kept iff the answer does not clear the buffer |
| GpsQueue.ReplyDecides | packages/mobile-app/src/gpsQueue.ts:60-87 | whatever the answer the flush is over, and the buffer is cleared iff it was a 2xx that parses or a 4xx |
| GpsQueue.EmptyFlushEnds | packages/mobile-app/src/gpsQueue.ts:61-63 | an empty buffer is not sent |
| GpsQueue.CrashForgets | packages/mobile-app/src/gpsQueue.ts:37-52 | a crash forgets the flush and enqueues under way, and nothing that is stored |
| GpsQueue.OverlapLosesFix | packages/mobile-app/src/gpsQueue.ts:60-69 | a run in which a fix is cleared that was in no batch |
| GpsQueue.OverlapResendsFix | packages/mobile-app/src/gpsQueue.ts:37-69 | a run in which a sent fix comes back and is sent again |
| GpsQueue.BufferIsNewestFixes | packages/mobile-app/src/gpsQueue.ts:37-87 | in serialised runs the buffer is the longest suffix of at most 500 of the fixes since the last clear |
| GpsQueue.Buffer.EnqueueGpsFix | packages/mobile-app/src/gpsQueue.ts:37-44 | pushes, then drops the oldest until it fits |
| GpsQueue.Buffer.FlushGpsQueue | packages/mobile-app/src/gpsQueue.ts:54-87 | one batch; cleared iff answered with 2xx or 4xx; what it returns in each case |
| ModalStack.LockFollowsStack | packages/dashboard/src/components/Modal.tsx:63-99 | for every order of mounts and unmounts: locked while open, the page's own overflow and padding back when the last closes, listeners in stack order |
| ModalStack.LockedIffOpen | packages/dashboard/src/components/Modal.tsx:76-98 | the body is locked iff a modal is open |
| ModalStack.PaddingUnderLock | packages/dashboard/src/components/Modal.tsx:76-88 | while locked the body has the scrollbar's width on the right if there was a scrollbar when the first modal opened, else its own padding |
| ModalStack.StackIsOpenModals | packages/dashboard/src/components/Modal.tsx:63-98 | the stack holds exactly the modals mounted and not unmounted since |
| ModalStack.StackInMountOrder | packages/dashboard/src/components/Modal.tsx:65-98 | in the order in which they were mounted |
| ModalStack.Page.OnMount | packages/dashboard/src/components/Modal.tsx:63-88 | the mount step of those runs |
| ModalStack.Page.OnUnmount | packages/dashboard/src/components/Modal.tsx:90-98 | the unmount step of those runs |
| ModalStack.Page.PressEscape | packages/dashboard/src/components/Modal.tsx:67-74 | one Escape calls exactly one onClose, the top's, whatever that call mounts or unmounts meanwhile |
| MergedLedger.PrimaryExcusalIsInEffect | packages/dashboard/src/pages/OwnershipPlanDetailPage.tsx:320-326 | an excusal iff the date has one; approved iff one is approved; else one whose createdAt no other's comes after in the locale's order |
| MergedLedger.PrimaryExcusalIsFirst | packages/dashboard/src/pages/OwnershipPlanDetailPage.tsx:320-326 | among equals the first listed |
| MergedLedger.DayIsDatePart | packages/dashboard/src/pages/OwnershipPlanDetailPage.tsx:335-336 | the day is the first ten characters |
| MergedLedger.BeforeIff | packages/dashboard/src/pages/OwnershipPlanDetailPage.tsx:338 | the order is that of the first differing character, a prefix first |
| MergedLedger.SortDates | packages/dashboard/src/pages/OwnershipPlanDetailPage.tsx:338 | the dates in strictly increasing order |
| MergedLedger.BuildMergedRows | packages/dashboard/src/pages/OwnershipPlanDetailPage.tsx:330-343 | strictly increasing dates, exactly the union of both sides, each with its ledger row and excusal |
| MergedLedger.EveryRowHasContent | packages/dashboard/src/pages/OwnershipPlanDetailPage.tsx:338-342 | no merged row is empty on both sides |
| MergedLedger.TotalConservedIff | packages/dashboard/src/pages/OwnershipPlanDetailPage.tsx:338-342 | the rows show the ledger's total less the rows that repeat a day, so all of it iff those sum to nothing |
| MergedLedger.UniqueDaysRepeatNothing | packages/dashboard/src/pages/OwnershipPlanDetailPage.tsx:338-342 | with one ledger row a day nothing is missing |
| TenantCache.KeysAreInjective | packages/backend/src/cache/tenant-cache.service.ts:29-31 | for colon-free tenant ids and resource names a key names its tenant, resource and parameters |
| TenantCache.ScopesCollideIff | packages/backend/src/cache/tenant-cache.service.ts:29-31 | two scopes can share a key iff one's prefix begins with the other's |
| TenantCache.ColonLeaks | packages/backend/src/cache/tenant-cache.service.ts:29-31 | two tenants with one key |
| TenantCache.Service.Get | packages/backend/src/cache/tenant-cache.service.ts:33-35 | the live entry of the key, if any |
| TenantCache.Service.Set | packages/backend/src/cache/tenant-cache.service.ts:37-45 | one entry changes, by default for 45 s |
| TenantCache.Service.Invalidate | packages/backend/src/cache/tenant-cache.service.ts:47-49 | one entry goes |
| TenantCache.ReadReturnsLastSet | packages/backend/src/cache/tenant-cache.service.ts:33-49 | after any run a read returns v iff the last set or invalidation of that tenant, resource and parameters set v and its time to live is not over |
| TenantCache.SharedActsPerTenant | packages/backend/src/cache/tenant-cache.service.ts:29-49 | after any run the shared cache holds for a tenant what a cache of its own would |
| TenantCache.TenantSeesOnlyItself | packages/backend/src/cache/tenant-cache.service.ts:29-49 | a tenant reads what it would if no other tenant had ever called |
| DailyCollection.LookupAgrees | packages/backend/src/common/daily-collection-status.util.ts:59-69 | the looked-up amount is the sum of the assignment's COMPLETED payments |
| DailyCollection.PaidCountsEach | packages/backend/src/common/daily-collection-status.util.ts:60-65 | a payment adds its amount iff it is COMPLETED and for that assignment |
| DailyCollection.DueCountsEach | packages/backend/src/common/daily-collection-status.util.ts:53-56 | each assignment adds its target |
| DailyCollection.GetDailyCollectionStatus | packages/backend/src/common/daily-collection-status.util.ts:53-82 | the sum due, the aggregate received, and the independent list of outstanding rows |
| DailyCollection.OutstandingIff | packages/backend/src/common/daily-collection-status.util.ts:67-80 | a row is listed iff its assignment owes more than was paid, with target, paid and balance |
| DailyCollection.OutstandingInOrder | packages/backend/src/common/daily-collection-status.util.ts:67-80 | the rows are those of the assignments with more owed than paid, one each, in their order |
| DailyCollection.DueIsCoveredPlusOutstanding | packages/backend/src/common/daily-collection-status.util.ts:50-80 | due today = sum of min(target, paid) + sum of balances |
| IdleTimer.Timer.Reset | packages/dashboard/src/lib/useIdleTimer.ts:22-25 | the activity step of a run |
| IdleTimer.Timer.Poll | packages/dashboard/src/lib/useIdleTimer.ts:44-59 | the tick step of a run and what it fires |
| IdleTimer.TimesOutOnce | packages/dashboard/src/lib/useIdleTimer.ts:47-53 | onTimeout fires at most once in a run |
| IdleTimer.TimesOutIff | packages/dashboard/src/lib/useIdleTimer.ts:44-53 | onTimeout fires exactly at the first poll 30 minutes or more after the mount and every activity so far |
| IdleTimer.WarnsIff | packages/dashboard/src/lib/useIdleTimer.ts:44-58 | onWarn fires exactly at the first poll since the last activity that comes 29 minutes or more after the mount and every activity, and less than 30 after one of them |
| IdleTimer.TimesOutOnlyWhenIdle | packages/dashboard/src/lib/useIdleTimer.ts:22-53 | and so only 30 minutes after the mount and after every earlier activity |
| IdleTimer.ActivityBetweenWarnings | packages/dashboard/src/lib/useIdleTimer.ts:22-58 | two warnings have activity between them |
| IdleTimer.TimeoutAnnouncedIff | packages/dashboard/src/lib/useIdleTimer.ts:43-63 | a timeout follows a warning with no activity in between iff some poll since the last activity found the clock past 29 and not yet past 30 minutes |
| IdleTimer.TimeoutIsAnnounced | packages/dashboard/src/lib/useIdleTimer.ts:43-63 | with polls at most 60 s apart every timeout does |
| IdleTimer.SlowPollsSkipTheWarning | packages/dashboard/src/lib/useIdleTimer.ts:47-58 | with polls 60.001 s apart a timeout can come with no warning at all |

## Left out

- SessionTheorems.SingleSpend: one process only; processes that share storage do present one token twice, which is the race the re-read is for.
- QueueOverlap.NoPaymentLost: speaks of payments dropped for a 4xx, not of reported ones, because a crash can lose a report; reports are ReportedRun and ReportedIffSpared.
- DashboardTabs.TabsStaySignedInIff: of other tabs only the refreshes are modelled, and a tab that finds no token presents none.
- PaymentQueue.Queue.RecordPayment: `Number` and `trim` are parameters, and infinite amounts are not modelled.
- Login and logout during a refresh: the session runs have one sign-in, and the server ending the session is the event Revoke.
- The server's read-then-delete of a refresh token is one action; two refreshes inside that gap are not modelled.
- Storage accesses that throw, and stored lists that are not valid JSON.
- The read of the access token before the refresh request, whose header the refresh does not need.
- The reload of the screen after a payment or a sync, banners, counters and screen state.
- Two processes flushing one payment queue: the flag is per process.
- A server that records a payment and then answers its POST with a 4xx.
- The locale's order of `createdAt` is a parameter.
- FormData, image picking and the way a photo fails to be read: an upload settles like any other call.
- Redis and Keyv beyond a map with expiry times, and a TTL of 0, which no caller passes.
- Payments, groupings and aggregates as database queries: their answers are inputs.
- Characters outside the basic plane in date strings.
- JSX, styling, translations, GPS permission handling and page code: no invariant beyond one branch.
