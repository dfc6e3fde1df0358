# Verified model of the gas-agency back end

This project models the parts of the system whose correctness depends on whole runs rather than on one
function, and proves what those parts promise:

* **Signing in** (`Clock`, `SlidingWindow`, `Throttle`, `ThrottleRace`, `Otp`, `OtpHistory`, `OtpEffects`,
  `Sessions`, `SessionHistory`, `SessionEffects`, `Browser`, `RefreshProtocol`, `Resending`): one-time codes,
  hourly limits and lockouts, refresh-token rotation with families, a grace period and replay detection, and the
  web client that shares one refresh among all its requests.
* **Registering customers** (`Documents`, `DocumentHistory`, `Requirements`, `Sites`, `Registration`,
  `RegistrationRules`): the trail of document versions, number uniqueness, delivery sites and the catalogue's
  document rules, checked against a request and again against what is stored.
* **Trade credit** (`Credit`, `Payments`, `CreditHistory`, `CreditView`, `Reminders`): the limit check with
  one-use overrides, money collected on invoices and put back when the bank does not find it, the batched
  customer list, and the reminder job.
* **Two printers and parsers** (`Decimal`, `Text`, `Base64`, `ViewLink`, `Codes`): document view links and
  customer display codes.

Each service is a class whose methods follow the source statement by statement. A method's contract states its
reply and its new tables as functions of its input and the old tables; where a service validates a request
first, it states which list of resolved documents was linked. The `...History` modules and the lemmas at the
end of the other modules are about runs of those functions, so they hold of the services
(`Registration.SaveIsOneStep` is that connection for documents). What those functions come to is said without
their names in `SessionEffects`, `OtpEffects`, `Resending`, `RegistrationRules` and the `...Iff` and `...ByField`
lemmas of the other modules: in the fields of the rows before and after, and with sums and limits counted as
cardinalities (`Counting`).

A request is taken to be one transaction over its tables and to read the clock once. That is an assumption. The
source locks a challenge when it is resent or verified, the session a refresh presents, the customer's row when
credit is checked, an invoice when money is moved and a counter when a code is drawn. Every result about runs is
about requests that do not overlap; where a request decides on rows it has not locked, nothing in the source
enforces that, and these results in particular rely on it:

| request | decides on | results that rely on it |
|---|---|---|
| `request_otp` | the open challenges of a number | `OtpHistory.AtMostOneOpenCode`, `OtpHistory.WrongCodesAreLimited` |
| number check of a registration | the current documents of the merchant | `DocumentHistory.NumberBelongsToOneCustomer` |
| `open_application` | the pending application | `Registration.OpenApplication` |
| `reconcile` | the status of the payment | `CreditHistory.MoneyIsConserved`, `CreditHistory.ExposureStaysCovered`, `CreditHistory.CoverSurvivesIff` |
| `logout` and the admin's `revoke_session` | whether the session is live | `SessionHistory.RunContinues`, `SessionHistory.RevocationRecordsAgree` |

What an overlap could do, and what it would take to be safe, is proved for three of them. A number stays with one
customer exactly when it is still free at the moment of writing (`LinkingKeepsNumbersIff`,
`RacingSavesShareANumber`). A payment that is still pending when the write is made is settled as it should be; the
ledger survives a late write exactly when the payment has not been rejected meanwhile, or no money is left to move,
and two rejections that both read PENDING put back twice the amount (`LateWriteSettles`, `LateWriteKeepsLedgerIff`,
`RacingRejectionsPutBackTwice`). A sign-out keeps the first revocation exactly when the session is still live when
it writes; one that overlaps a refresh overwrites the reason ROTATED and misses the successor
(`LateWriteIsSoundIff`, `RacingSignOutMissesTheSuccessor`).

The throttle makes no such assumption: its clock reading, count and insert are separate steps in `ThrottleRace`.

Instants are whole microseconds. Random ids, secrets and codes, the account decision, SMS delivery and the
library functions that check numbers, fold case and normalise mobiles are parameters. Tokens are unforgeable
values and hashes are injective; base64 is the encoding of RFC 4648, sections 3.2, 4 and 5.

## What turned out not to hold

Each of these is stated with the exact condition under which the promise does hold, and with an input or a
run that breaks it.

* Exposure stays within the limit and the overrides used exactly as long as every rejected payment finds room
  for the money it puts back (`CoverSurvivesIff`); an order paid by transfer, another order and then the
  rejection pass every limit that can be paid at once (`BouncedPaymentPassesTheLimit`). What always holds is the
  bound with the money put back added (`ExposureStaysCovered`).
* A purge is invisible only if its clock is not ahead of the requests that count after it
  (`PurgeIsInvisibleIffNotAhead`). If it is, a full window admits one event more than its limit, even with one
  request at a time, for every limit and every pair of clocks (`PurgeAheadOfAClockBreaksTheLimit`).
* "A revoked session holds no push token" is kept by every request but the bulk revocation of the blocking
  routes, which writes only the time (`PushTokensAreClearedIff`, `BulkRevocationLeavesAPushToken`).
* The prefixes RETAIL and R have counters of their own and share the text of their codes
  (`AdmissibleCodesAreDistinctIff`, `AllocatedCodesAreDistinctIff`).
* Equal quiet hours silence the whole day (`QuietIsOneIntervalOfTheClock`).
* A refresh of an earlier session can sign out a user who has signed in again meanwhile, both when it succeeds
  and when it is refused (`OldRefreshClearsNewSessionIff`, `SucceededRefreshLosesNewSession`,
  `RefusedRefreshLosesNewSession`).

## What the rest of the system guarantees

These results need a fact about their input that other parts of the source establish. Each has an exact form,
which says what the fact is for, and a form for the inputs that can occur.

* A stored staff registration passes the submit check exactly when the merchant has a code; a merchant's code
  has 2 to 80 characters (backend/app/modules/merchants/schemas.py:7).
* A view link names its viewer exactly when the viewer's id has no colon (`LinkNamesItsViewerIff`); user ids are
  UUIDs (backend/app/modules/users/identity.py:40, backend/app/modules/users/router.py:121), so it always does
  (`LinkNamesItsViewer`).
* The batched list agrees with the single credit check exactly when no balance is negative
  (`BatchAgreesIffNothingOverpaid`); collecting more than is owed is refused and a balance never falls below zero
  (`MoneyIsConserved`), so it always does (`BatchAgreesInEveryRun`).
* Of the long prefixes that are shortened, INDUSTRIAL is longer than a prefix can be
  (backend/app/modules/business_catalogue/schemas.py:20-21); `CodesAreDistinctIff` covers every prefix and
  `AdmissibleCodesAreDistinctIff` those that can be configured.
* A second visit of the reminder job at the same moment sends nothing when the interval is positive
  (`SecondVisitSendsIff`, `SecondRunQueuesNothing`); it is at least one hour
  (backend/app/modules/credit/router.py:38).

## Model

| member | source | states |
|---|---|---|
| SlidingWindow.RetryAfterIsBounded | backend/app/modules/authentication/service.py:608-612 | Retry-After lies between 1 and 3600 seconds |
| SlidingWindow.RefusalLastsUntilTheOldestLeaves | backend/app/modules/authentication/service.py:579-606 | a window that holds exactly its limit refuses up to and including the instant its oldest stamp turns one hour old, and not after |
| SlidingWindow.RetryAfterIsSufficient | backend/app/modules/authentication/throttle.py:37-50 | a retry strictly later than Retry-After passes the same check |
| SlidingWindow.RetryAfterIsTight | backend/app/modules/authentication/throttle.py:46-50 | nobody is told to wait longer than needed: a second earlier the same check still refuses |
| SlidingWindow.RetryAtTheEdgeIsStillRefused | backend/app/modules/authentication/throttle.py:37-50 | a retry exactly when Retry-After runs out can still be refused, because the window edge is inclusive |
| Throttle.RequestThrottle.Hit | backend/app/modules/authentication/throttle.py:32-52 | a hit is skipped, refused with Retry-After or accepted, and only an accepted one leaves an event |
| Throttle.RequestThrottle.PurgeExpired | backend/app/modules/authentication/throttle.py:54-56 | exactly the rows older than the window are deleted, and their number is returned |
| Throttle.HitIsAcceptedIff | backend/app/modules/authentication/throttle.py:32-52 | a hit is accepted exactly when fewer events of its key than the limit lie in the hour before it, and then leaves one event |
| Throttle.PurgeKeepsExactly | backend/app/modules/authentication/throttle.py:54-56 | a purge takes away exactly the events older than the window |
| Throttle.PurgingIsUnobservable | backend/scripts/cleanup_throttle_events.py:8-14 | with purges anywhere in a run, every hit gets the decision and Retry-After it gets without them, whatever the table held |
| Throttle.PurgeIsInvisibleIffNotAhead | backend/app/modules/authentication/throttle.py:37-56 | a purge is invisible to a later hit on every table exactly when its clock is not ahead of the hit's |
| Throttle.SequentialWindowNeverOverflows | backend/app/modules/authentication/throttle.py:37-52 | one request at a time, no current window of a key ever holds more than its limit |
| Throttle.RetryAfterIsHonoured | backend/app/modules/authentication/throttle.py:46-50 | in a sequential run a refused caller is told 1 to 3600 seconds and is accepted if it retries strictly later with nothing in between |
| ThrottleRace.UninterruptedIsHit | backend/app/modules/authentication/throttle.py:32-52 | the separate steps, run without interruption, are one hit |
| ThrottleRace.ConcurrentRequestsExceedByAtMostKMinusOne | backend/app/modules/authentication/throttle.py:4-5 | with at most K requests of a key in flight, no hour of any interleaving holds more than limit + K - 1 accepted events |
| ThrottleRace.BoundIsReached | backend/app/modules/authentication/throttle.py:4-5 | for every limit and K some run reaches that bound |
| ThrottleRace.CountSeesTheWholeLog | backend/app/modules/authentication/throttle.py:54-56 | what the purge took away would not have been counted |
| ThrottleRace.WindowIsFilled | backend/app/modules/authentication/throttle.py:37-52 | for every limit a run of one request at a time fills a window exactly |
| ThrottleRace.PurgeAheadOfAClockBreaksTheLimit | backend/app/modules/authentication/throttle.py:37-56 | for every limit and every purge clock ahead of a request's, that full window refuses the request without the purge and admits it with it |
| Otp.CodeService.RequestOtp | backend/app/modules/authentication/service.py:98-131 | the state and reply of a code request, with each refusal in the order of the checks |
| Otp.CodeService.ResendOtp | backend/app/modules/authentication/service.py:133-164 | the state and reply of a resend, including the cooldown and the consumed predecessor |
| Otp.CodeService.VerifyOtp | backend/app/modules/authentication/service.py:166-194 | the state and reply of a verification, counting a wrong code and consuming a right one |
| Otp.CodeService.CreateChallenge | backend/app/modules/authentication/service.py:506-561 | a new challenge is stored and sent, or the whole request is rolled back |
| OtpHistory.AtMostOneOpenCode | backend/app/modules/authentication/service.py:614-624 | in every reachable state a number has at most one open code per purpose and channel |
| OtpHistory.AttemptsStayWithinMaximum | backend/app/modules/authentication/service.py:180-186 | in every reachable state no challenge, open or consumed, has more wrong codes than its maximum |
| OtpHistory.WrongCodesAreLimited | backend/app/modules/authentication/service.py:172-194 | the wrong codes of the current window stay within the hourly limit, and so do all those ever collected by challenges created in an interval one code lifetime shorter than the window |
| OtpHistory.WrongCodeKeepsLine | backend/app/modules/authentication/service.py:596-606 | counting one more wrong code after the lockout check keeps both bounds |
| OtpHistory.StepKeepsInv | backend/app/modules/authentication/service.py:98-194 | every request keeps the invariant of the challenge table |
| OtpHistory.RetryAfterIsHonoured | backend/app/modules/authentication/service.py:587-612 | the Retry-After of the lockout and of the request limit is 1 to 3600 seconds and sufficient when exceeded, in every reachable state |
| OtpHistory.UndeliveredRequestsAreUnobservable | backend/app/modules/authentication/service.py:546-557 | leaving the requests whose SMS failed out of a run changes neither the final tables nor any other reply |
| OtpHistory.RefusedRequestKeepsCodes | backend/app/modules/authentication/service.py:98-164 | a refused request consumes a code exactly when it is a resend refused for the account |
| OtpHistory.ResendWaitIsSufficient | backend/app/modules/authentication/service.py:143-150 | once the wait of a too-early resend is over, the cooldown refuses no more |
| OtpHistory.SigningInTakesTheCode | backend/app/modules/authentication/service.py:172-194 | a sign-in implies the stored code of an open, unexpired challenge of that purpose and channel |
| OtpHistory.CodeIsAcceptedAtMostOnce | backend/app/modules/authentication/service.py:174-195 | over any run each code is accepted at most once |
| OtpEffects.LineIsLockedIff | backend/app/modules/authentication/service.py:587-606 | a line is locked exactly when its challenges of the last hour collected as many wrong codes as allowed, and over its request limit exactly when as many were created |
| OtpEffects.CodeIsSentIff | backend/app/modules/authentication/service.py:98-131 | a code is sent exactly when address and phone are within their limits, the line neither locked nor over its own, the account may have one, and the message goes out or the number is a test number |
| OtpEffects.RequestRefusalsSayWhy | backend/app/modules/authentication/service.py:98-131 | each refusal of a code request is true |
| OtpEffects.CodeIsSentAgainIff | backend/app/modules/authentication/service.py:133-164 | a code is sent again exactly when there is such an open challenge past its cooldown and a new one could be sent |
| OtpEffects.ResendWaitIsExact | backend/app/modules/authentication/service.py:143-150 | the wait of a too-early resend is what is left of the cooldown, to the next full second |
| OtpEffects.SentCodeIsStored | backend/app/modules/authentication/service.py:506-561 | after "code sent" one row is added that holds the code in the message, or the test code for a test number; the open codes of its line are used up and no other row changes |
| OtpEffects.SentAgainCodeIsStored | backend/app/modules/authentication/service.py:152-164 | the same for a resend, which uses up the code it replaces and no other |
| OtpEffects.SentCodeSignsIn | backend/app/modules/authentication/service.py:166-234 | round trip: whatever happens in between, while the request may still be tried the code that was sent, and no other, signs in whoever may sign in |
| OtpEffects.SignsInIff | backend/app/modules/authentication/service.py:166-234 | a verification signs in exactly when it may be tried, shows the stored code, and the account may sign in |
| OtpEffects.StoredCodeDecides | backend/app/modules/authentication/service.py:183-214 | the stored code is used up even by an account that may not sign in, any other code is invalid and counted, and no other row changes |
| OtpEffects.RefusalsSayWhy | backend/app/modules/authentication/service.py:169-194 | each refusal of a verification is true of the challenge it names |
| OtpEffects.RefusedRequestsCount | backend/app/modules/authentication/service.py:98-131 | a request counts against address and phone even if refused; a failed delivery takes both back |
| OtpEffects.VerificationsCount | backend/app/modules/authentication/service.py:169-173 | a verification counts against the address as soon as the code has the right length |
| OtpEffects.SentRowStays | backend/app/modules/authentication/service.py:506-561 | over any run the row of a sent code changes only in its wrong codes and in being used up |
| OtpEffects.WrongTriesAreCounted | backend/app/modules/authentication/service.py:183-194 | over any run the wrong codes of a challenge are exactly the wrong codes presented for it |
| OtpEffects.SigningInTakesASentCode | backend/app/modules/authentication/service.py:166-234 | nobody signs in but with a code sent earlier in the run for that request, to a line of that purpose and channel |
| Sessions.SessionService.IssueTokenPair | backend/app/modules/authentication/service.py:646-704 | the row and the two tokens of a new session, device details sent now before those of the previous session |
| Sessions.SessionService.CompleteSignIn | backend/app/modules/authentication/service.py:195-234 | a sign-in starts a family of its own |
| Sessions.SessionService.RefreshSession | backend/app/modules/authentication/service.py:238-294 | the table and reply of a refresh in all its refusals, its mismatch, its replay and its rotation |
| Sessions.SessionService.HandleRevokedRefresh | backend/app/modules/authentication/service.py:296-317 | a replay past the grace period revokes every live session of the family; otherwise nothing changes |
| Sessions.SessionService.Logout | backend/app/modules/authentication/service.py:334-354 | only the live session of a valid refresh token is ended |
| Sessions.SessionService.LogoutAll | backend/app/modules/authentication/service.py:356-368 | all live sessions of the user are ended, if the access token passes validation |
| Sessions.SessionService.ValidateAccessToken | backend/app/modules/authentication/session_service.py:74-128 | the first error in the order of the checks, or none |
| Sessions.SessionService.Revoke | backend/app/modules/authentication/session_service.py:130-134 | time and reason are first-wins and the push token goes |
| Sessions.SessionService.RevokeSession | backend/app/modules/authentication/admin_sessions_router.py:212-225 | the admin's revocation, not found and repeated included |
| SessionHistory.NextKeepsInv | backend/app/modules/authentication/service.py:238-317 | every request keeps the invariant of the session table |
| SessionHistory.AtMostOneLiveSession | backend/app/modules/authentication/service.py:251-293 | in every reachable state a family has at most one unrevoked session |
| SessionHistory.DeadFamilyStaysDead | backend/app/modules/authentication/service.py:296-317 | a family without an unrevoked session never gains one again |
| SessionHistory.ReplayEndsFamilyIffPastGrace | backend/app/modules/authentication/service.py:296-317 | presenting a rotated token ends its family exactly when the grace period is over and changes nothing before |
| SessionHistory.ReplayEndsTheSignIn | backend/app/modules/authentication/session_service.py:120-128 | after a replay past the grace period no access token of that sign-in ever validates, whatever happens later |
| SessionHistory.RefreshTokenSucceedsAtMostOnce | backend/app/modules/authentication/service.py:264-293 | over a run each refresh token buys at most one new pair |
| SessionHistory.FamilyKeepsItsKind | backend/app/modules/authentication/service.py:258-293 | a family keeps its user, channel and kind, so refreshing never turns an onboarding sign-in into a full one |
| SessionHistory.RunContinues | backend/app/modules/authentication/session_service.py:130-142 | over any run sessions keep their identity, and the first revocation fixes time, reason and rotation |
| SessionHistory.RevocationRecordsAgree | backend/app/modules/authentication/service.py:287-293 | rotation coincides with the reason ROTATED, and a session revoked with a reason holds no push token |
| SessionHistory.PushTokensAreClearedIff | backend/app/modules/merchants/router.py:273-284 | revoked sessions hold no push token after any request but the bulk revocation, and after that one exactly when no live session it hits holds one |
| SessionHistory.BulkRevocationLeavesAPushToken | backend/app/modules/users/router.py:255-263 | a concrete run in which a revoked session keeps its push token |
| SessionHistory.FamilyHoldsOnePushToken | backend/app/modules/authentication/service.py:279-293 | in every reachable state at most one session of a family holds a push token, and an ended one only when the whole family has ended |
| SessionHistory.PushTokenFollowsTheSignIn | backend/app/modules/authentication/service.py:279-293 | over any run the session that stands for a sign-in, however often refreshed, holds the push token it was signed in with, until another is sent, it is reported dead or the sign-in ends |
| SessionHistory.SignOutEverywhereIsFinal | backend/app/modules/authentication/session_service.py:136-142 | after "sign out everywhere" every access token that validates for the user belongs to a sign-in made later |
| SessionHistory.LegacyTableIsSound | backend/app/modules/authentication/service.py:251-262 | tables from before families and kinds were recorded meet the invariant |
| SessionHistory.LateWriteIsSoundIff | backend/app/modules/authentication/service.py:348-352 | a sign-out that looked earlier keeps the first revocation exactly when the session is still live when it writes |
| SessionHistory.RacingSignOutMissesTheSuccessor | backend/app/modules/authentication/service.py:348-352 | a sign-out that looks before a refresh and writes after it overwrites ROTATED and leaves the successor live |
| SessionEffects.AccessIsAcceptedIff | backend/app/modules/authentication/session_service.py:74-128 | an access token opens a route exactly when it is unexpired, of a kind and channel the route takes, its session is its user's, agrees with it and is neither revoked nor expired, and the account may proceed |
| SessionEffects.AccessErrorsSayWhy | backend/app/modules/authentication/session_service.py:81-127 | what each refusal of an access token says is true |
| SessionEffects.RefreshIsAnsweredIff | backend/app/modules/authentication/service.py:238-276 | a refresh is answered exactly when the token is the unexpired one stored for its user's live session, on its channel and of an allowed kind, and the account may proceed |
| SessionEffects.RefreshErrorsSayWhy | backend/app/modules/authentication/service.py:238-276 | what a refused refresh says is true of the token and its session |
| SessionEffects.SignInAddsItsSession | backend/app/modules/authentication/service.py:646-704 | a sign-in adds one row of a family of its own and hands out the pair that goes with it, and changes no other |
| SessionEffects.RefreshReplacesItsSession | backend/app/modules/authentication/service.py:287-293 | an answered refresh retires exactly the session presented, as rotated and revoked at that moment |
| SessionEffects.RefreshAddsItsSession | backend/app/modules/authentication/service.py:275-286 | the new session takes over user, kind, family and phone, what was sent now before what was known |
| SessionEffects.StrangeTokenEndsItsSession | backend/app/modules/authentication/service.py:262-264 | a well-formed refresh token that is not the one stored ends the session it names and no other |
| SessionEffects.LateReplayEndsItsFamily | backend/app/modules/authentication/service.py:296-317 | a replay past the grace period revokes the live sessions of its family and nothing else |
| SessionEffects.OtherRefusalsChangeNothing | backend/app/modules/authentication/service.py:238-317 | any other refresh that is not answered changes nothing |
| SessionEffects.SignOutEndsItsSession | backend/app/modules/authentication/service.py:334-354 | presenting the unexpired refresh token of a live session, on its own channel or none, revokes that session as LOGOUT, takes its push token and touches no other row; in every other case nothing changes |
| SessionEffects.SignOutIsFinal | backend/app/modules/authentication/service.py:334-354 | after a sign-out no access token of that sign-in validates and no refresh of it is answered, whatever happens later |
| SessionEffects.SignOutAllEndsOwnSessions | backend/app/modules/authentication/session_service.py:136-142 | with a valid access token all live sessions of its user are revoked and nothing else; without one nothing changes |
| SessionEffects.AdminEndsOneSession | backend/app/modules/authentication/admin_sessions_router.py:212-225 | an administrator revokes one session, once |
| SessionEffects.BlockingAndForgettingByRow | backend/app/modules/users/router.py:255-263 | blocking users ends their live sessions without a reason, forgetting a dead push token touches only rows that hold it |
| SessionEffects.AccessLastsAsPromised | backend/app/modules/authentication/service.py:657-669 | an access token works until the promised minutes are over, to the second, as long as its session is not revoked, whatever else happens |
| SessionEffects.RefreshLastsAsPromised | backend/app/modules/authentication/service.py:657-680 | a refresh token is good for one refresh until the promised days are over, to the second, in the same way |
| Browser.Client.Send | frontend/src/api/client.ts:80-86 | a request goes out with the stored access token, if any |
| Browser.Client.RefreshSession | frontend/src/api/client.ts:45-57 | a refresh under way is shared, otherwise one starts for the stored session, and without one the call is rejected |
| Browser.Client.OnUnauthorized | frontend/src/api/client.ts:88-101 | a 401 is given up, retried with a session renewed meanwhile, or waits for the shared refresh |
| Browser.Client.OnRefreshSettled | frontend/src/api/client.ts:58-73 | the new session is stored only over the one it was refreshed from, and every waiter gets the result |
| Browser.Client.Resume | frontend/src/api/client.ts:102-120 | a waiter resends with the new token, or clears the session it failed under |
| RefreshProtocol.StoringKeepsInv | frontend/src/auth/token-storage.ts:46-54 | a session stored while a refresh is under way is not overwritten by the pair that comes back |
| RefreshProtocol.ClearingKeepsInv | frontend/src/auth/token-storage.ts:55-63 | a sign-out while a refresh is under way is final: the pair that comes back is not stored |
| RefreshProtocol.BrowserNeverReplays | frontend/src/api/client.ts:45-74 | under any interleaving in which no refresh response is lost, the browser presents no spent refresh token and its refreshes are never taken for a replay |
| RefreshProtocol.ServingKeepsInv | backend/app/modules/authentication/service.py:264-293 | a refresh under way meets an unspent token and the protocol's invariant survives the rotation |
| RefreshProtocol.NextKeepsInv | frontend/src/api/client.ts:45-125 | every step of browser, server and the rest of the world keeps the invariant |
| RefreshProtocol.RequestIsSentAtMostTwice | frontend/src/api/client.ts:95-122 | every request is sent at most twice |
| RefreshProtocol.LostResponseLeadsToReplay | backend/app/modules/authentication/service.py:296-317 | a lost refresh response makes the next refresh past the grace period a replay |
| RefreshProtocol.OldRefreshClearsNewSessionIff | frontend/src/api/client.ts:101-113 | for every answer and every kind of failure, when a waiting request ends the stored session |
| RefreshProtocol.SucceededRefreshLosesNewSession | frontend/src/api/client.ts:58-63 | a run in which the refresh of an earlier session succeeds and the browser forgets the new one, which the server still accepts; every 401 is a channel refusal by the server's table |
| RefreshProtocol.RefusedRefreshLosesNewSession | frontend/src/api/client.ts:102-110 | the same with the refresh of the earlier session refused |
| Resending.SentWithTheStoredToken | frontend/src/api/client.ts:80-86 | a request goes out with the stored access token, or with none if there is no session |
| Resending.UnauthorizedByCases | frontend/src/api/client.ts:88-101 | a first 401 under another token than the stored one sends the request again with the stored one, under the stored one it waits for the shared refresh, and any other 401 gives the request up |
| Resending.ArrivalByCases | frontend/src/api/client.ts:58-73 | a pair replaces the stored session exactly when that is still the one refreshed, and every waiting request, and no other, gets the result |
| Resending.WaitingRequestIsResentWithTheAnswer | frontend/src/api/client.ts:97-121 | a request that waited for a refresh answered with a pair goes out once more with exactly the access token of that answer, whatever happens before it does |
| Resending.FailedRefreshGivesUp | frontend/src/api/client.ts:102-118 | a failed refresh gives up the request, and the session unless the connection was to blame or another is stored |
| Resending.ResendUsesAnotherToken | frontend/src/api/client.ts:95-121 | under any interleaving a request is sent again once per step, and never with the token it was refused with |
| Documents.AttachableIff | backend/app/modules/customers/documents.py:243-264 | a file can be attached exactly when an upload has this id and type, is staged and is the actor's to use |
| DocumentHistory.StagingKeepsInv | backend/app/modules/customers/documents.py:143-172 | a new upload is in nobody's chain and takes nobody's number, and every other upload stays as it was |
| Documents.DocumentLedger.EnsureNumbersAreUnique | backend/app/modules/customers/registration.py:348-396 | no clash is reported exactly when none of the numbers is current with another of the merchant's customers |
| Documents.DocumentLedger.SupersedePrevious | backend/app/modules/customers/registration.py:398-426 | every current upload of the slot is retired in favour of the new one, which gets the next version |
| Documents.DocumentLedger.LinkDocument | backend/app/modules/customers/registration.py:319-346 | one document is finalized for the customer and its predecessors retired |
| Documents.DocumentLedger.LinkDocuments | backend/app/modules/customers/registration.py:319-346 | the documents of a save are finalized one after another |
| DocumentHistory.LinkingExtendsChain | backend/app/modules/customers/registration.py:398-426 | linking puts the new file at the end of the slot's chain |
| DocumentHistory.SaveKeepsInv | backend/app/modules/customers/registration.py:319-426 | after any part of a save the trail is intact and the rest of the save can still be linked |
| DocumentHistory.VersionsFormOneChain | backend/app/modules/customers/registration.py:398-426 | over any sequence of uploads and saves a customer's finalized files of one type form one chain |
| DocumentHistory.ChainIsLinear | backend/app/modules/customers/registration.py:398-426 | in a chain versions are 1 to n, each names one file, and only version n is current |
| DocumentHistory.FinalizedFileNeverMoves | backend/app/modules/customers/documents.py:243-264 | a finalized file keeps its customer, type, number and version for the rest of any run |
| DocumentHistory.NumberBelongsToOneCustomer | backend/app/modules/customers/registration.py:348-396 | within one merchant no two customers ever hold current documents with the same number, saves being one step each |
| DocumentHistory.LinkingKeepsNumbersIff | backend/app/modules/customers/registration.py:348-396 | a write keeps numbers unique exactly when the number is free at that moment |
| DocumentHistory.RacingSavesShareANumber | backend/app/modules/customers/registration.py:375-383 | two saves that are both checked before either writes give one number to two customers |
| DocumentHistory.SavedKinds | backend/app/modules/customers/registration.py:319-346 | a save adds exactly its own types to its customer and changes nobody else's |
| DocumentHistory.KindsOnlyGrow | backend/app/modules/customers/registration.py:398-426 | nothing in a run takes a document type away from a customer |
| RegistrationRules.NumberTakenIff | backend/app/modules/customers/registration.py:348-396 | a number is taken when a document of another of the merchant's customers that has not been replaced carries it |
| RegistrationRules.LinkedByRow | backend/app/modules/customers/registration.py:319-346 | linking gives one file its customer, merchant and number, replaces the current ones of its type and changes nothing else |
| RegistrationRules.LinkedVersion | backend/app/modules/customers/registration.py:398-426 | its version is one above the highest it replaces, or stays if it replaces none |
| Requirements.CollectGroups | backend/app/modules/customers/registration.py:172-178 | each ANY_OF group has all its codes and the largest minimum among its rules |
| Requirements.UnmetGroupsDecide | backend/app/modules/customers/registration.py:628-634 | comparing each group once is the same as comparing every rule |
| Requirements.MissingDocuments | backend/app/modules/customers/registration.py:611-638 | nothing stored is missing exactly when the rules are met |
| Requirements.ValidateDocuments | backend/app/modules/customers/registration.py:160-211 | a request has no document error exactly when it is acceptable under the rules, and then every supplied type is resolved |
| Requirements.ResolveOne | backend/app/modules/customers/registration.py:199-210 | one submission resolves to a document or has an error |
| Requirements.ResolvedIsAttached | backend/app/modules/customers/registration.py:199-211 | what validation lets through can be linked: staged files, each in its own slot |
| Requirements.MeetsIsMonotone | backend/app/modules/customers/registration.py:611-638 | having more documents never breaks a rule that was met |
| RegistrationRules.ResolveIff | backend/app/modules/customers/documents.py:243-264 | a submission stands for a document exactly when its number passes and its file is a staged upload of this type that the actor may use |
| RegistrationRules.LastSubmissionCounts | backend/app/modules/customers/registration.py:160-211 | of several submissions of one type the last counts |
| RegistrationRules.MeetsIff | backend/app/modules/customers/registration.py:626-637 | the rules are met exactly when every required type is there and every ANY_OF rule finds as many types of its group as it asks for, at least one when it asks for none |
| RegistrationRules.DocumentsAreAcceptableIff | backend/app/modules/customers/registration.py:160-211 | documents are acceptable exactly when each type is known to the rules, each stands for a document and, where they must be, the rules are met |
| Sites.CheckEach | backend/app/modules/customers/registration.py:232-256 | no error exactly when every site is good and no two are the same place |
| Sites.ValidateSites | backend/app/modules/customers/registration.py:213-276 | no error exactly when the sites are acceptable, and then exactly one is primary |
| Sites.ReplaceSites | backend/app/modules/customers/registration.py:428-457 | the rows after a replacement |
| Sites.ReplacingSetsActiveSites | backend/app/modules/customers/registration.py:428-457 | the active sites are then those submitted, in order, and other customers keep theirs |
| RegistrationRules.SitesAreAcceptableIff | backend/app/modules/customers/registration.py:213-276 | sites are acceptable exactly when none are given where none are wanted, or 1 to 25 complete ones, no two the same, at most one marked, and the primary one where the customer is |
| RegistrationRules.StoredSiteByField | backend/app/modules/customers/registration.py:232-276 | what is stored of a submitted site, field by field |
| RegistrationRules.ReplacedByRow | backend/app/modules/customers/registration.py:428-457 | earlier sites stay as inactive rows that are not primary, other customers' rows stay as they were, the new ones are active |
| Registration.Validate | backend/app/modules/customers/registration.py:119-158 | no error exactly when the request is good, and then its documents and sites are ready to be stored |
| Registration.RequireSubmittable | backend/app/modules/customers/registration.py:649-677 | no error exactly when the stored registration may go to review |
| Registration.OpenApplication | backend/app/modules/customers/registration.py:459-488 | the pending application is found again or one is opened, and there is never a second |
| Registration.SaveIsOneStep | backend/app/modules/customers/registration.py:319-346 | what a service writes to the uploads is one step of a legal run of the document history |
| Registration.RegistrationService.WriteDocumentsAndSites | backend/app/modules/customers/registration.py:319-457 | exactly the given documents are linked and the sites replaced for one customer, or nothing is when a number is taken |
| Registration.RegistrationService.SendToReview | backend/app/modules/customers/registration.py:459-496 | the status moves to review and an application is found or opened |
| Registration.RegistrationService.StoreCustomer | backend/app/modules/customers/registration.py:744-764 | a validated customer is stored for review with its documents, sites and application, nobody else is touched, or nothing is stored |
| Registration.RegistrationService.CreateCustomerByMerchant | backend/app/modules/customers/registration.py:695-764 | a customer is stored exactly when the mobile can be read and is new, the request good and its numbers free; exactly its resolved documents are linked, nobody else is touched, and it passes the submit check, merchants having codes |
| Registration.RegistrationService.OverwriteProfile | backend/app/modules/customers/registration.py:533-542 | a validated save overwrites the profile, links exactly its documents and replaces its sites, or changes nothing when a number is taken |
| Registration.RegistrationService.SaveSelfProfile | backend/app/modules/customers/registration.py:514-542 | a save succeeds exactly when a mobile in the body is the verified one, the registration editable, the request good and its numbers free; it links exactly its resolved documents, replaces its sites and touches nobody else |
| Registration.RegistrationService.SubmitSelfRegistration | backend/app/modules/customers/registration.py:544-579 | a submit succeeds exactly when already under review or editable and submittable, and repeating it changes nothing |
| Registration.StoredRequestIsSubmittable | backend/app/modules/customers/registration.py:581-638 | the request-time and the stored check agree |
| Registration.LaterSavesKeepRequirements | backend/app/modules/customers/registration.py:581-638 | a document requirement that was met stays met through every later upload and save |
| RegistrationRules.SubmittableIff | backend/app/modules/customers/registration.py:581-677 | when a stored registration may go to review, field by field |
| RegistrationRules.ApplicationIsFoundOrOpened | backend/app/modules/customers/registration.py:459-488 | the pending application is kept, or one is opened with this id, customer and submitter |
| RegistrationRules.RequestIsGoodIff | backend/app/modules/customers/registration.py:119-158 | when a request is good: active type, names of 2 to 160 characters, complete address, acceptable documents and sites |
| RegistrationRules.WorkflowIsThesePairs | backend/app/modules/customers/constants.py:161-168 | the moves the account workflow allows |
| Credit.FindOverride | backend/app/modules/credit/service.py:121-131 | the oldest override that is unused, unexpired and large enough, or there is none |
| Credit.CreditLimitService.Enforce | backend/app/modules/credit/service.py:106-153 | an amount is allowed exactly when it fits or an override can carry it; when it does not fit, the oldest override that can is used up, and nothing else changes |
| Credit.OrderIsAllowedIff | backend/app/modules/credit/service.py:106-153 | an order is allowed exactly when no limit is in force, or what is owed and on order leaves room for it, or an override can carry it; only the oldest such override changes, and only when the order does not fit |
| Credit.InvoicedCountsRupees | backend/app/modules/credit/service.py:85-90 | what is owed is every rupee of a positive balance of the customer |
| Credit.PendingCountsRupees | backend/app/modules/credit/service.py:91-100 | what is on order is every rupee of the customer's orders that are not billed, delivered, cancelled or being replaced |
| Credit.PendingWithoutReplaced | backend/app/modules/credit/service.py:91-99 | replacing an order leaves out exactly that order's amount |
| Payments.PaymentService.ApplyToInvoice | backend/app/modules/payments/service.py:365-381 | paid amount and balance after money moved onto or off an invoice |
| Payments.PaymentService.Record | backend/app/modules/payments/service.py:230-311 | money is collected exactly when the invoice is open and the amount positive, allowed and no more than is owed |
| Payments.PaymentService.Reconcile | backend/app/modules/payments/service.py:315-361 | a pending payment is settled once, and a rejected one, with a reason, puts its money back |
| Payments.CollectedIff | backend/app/modules/payments/service.py:230-311 | on sound books collecting moves exactly the amount from owed to paid and records one payment, exactly when the amount is positive, at most ten million and no more than is owed |
| Payments.SettledIff | backend/app/modules/payments/service.py:315-361 | on sound books a pending payment is reconciled when found, made invalid and owed again when rejected with a reason, and nothing changes otherwise |
| Payments.RecordingKeepsLedger | backend/app/modules/payments/validation.py:42-54 | collecting takes exactly the amount off what is owed |
| Payments.SettlingKeepsLedger | backend/app/modules/payments/service.py:341-347 | a rejection puts back exactly the amount of the payment |
| Payments.LateWriteSettles | backend/app/modules/payments/service.py:328-347 | a reconciliation that writes while the payment is still pending settles it as it should |
| Payments.LateWriteKeepsLedgerIff | backend/app/modules/payments/service.py:328-347 | the ledger survives a late write exactly when the payment has not been rejected meanwhile, or no money is left to move |
| Payments.RacingRejectionsPutBackTwice | backend/app/modules/payments/service.py:328-347 | two rejections that both found the payment pending put back twice its amount |
| CreditHistory.MoneyIsConserved | backend/app/modules/payments/service.py:365-381 | in every reachable state each invoice has received its standing payments, owes the rest of its total and never less than nothing |
| CreditHistory.ExposureMovesExactly | backend/app/modules/credit/service.py:82-100 | exposure moves by exactly what was ordered, amended, billed, collected, rejected or closed |
| CreditHistory.ExposureStaysCovered | backend/app/modules/credit/service.py:82-135 | over any run exposure never passes the limit plus the overrides used plus the money put back by rejected payments |
| CreditHistory.StepKeepsCoverIff | backend/app/modules/payments/service.py:341-347 | one event keeps the bound of limit and overrides exactly when there is room for what it puts back |
| CreditHistory.CoverSurvivesIff | backend/app/modules/credit/service.py:82-135 | that bound holds throughout a run exactly when every rejected payment finds room |
| CreditHistory.BouncedPaymentPassesTheLimit | backend/app/modules/payments/service.py:341-347 | a run that ends at twice the limit without any override, for every limit that can be paid at once |
| CreditHistory.OverrideIsUsedAtMostOnce | backend/app/modules/credit/service.py:121-135 | over any run each override is used at most once |
| CreditHistory.OverridesAreConsumedInTime | backend/app/modules/credit/service.py:121-135 | no override is used at or after its expiry |
| CreditView.GroupedBalance | backend/app/modules/customers/mapping.py:211-225 | a listed customer's grouped balance is the filtered sum less what is overpaid |
| CreditView.GroupedPending | backend/app/modules/customers/mapping.py:227-248 | a listed customer's grouped order total is the filtered one |
| CreditView.GroupsAreOnThePage | backend/app/modules/customers/mapping.py:211-225 | exactly the listed customers with an invoice get an entry |
| CreditView.BatchAgreesIffNothingOverpaid | backend/app/modules/customers/mapping.py:268-288 | on any tables the list shows the used credit of the single check exactly when no balance of the customer is negative, and then the available credit agrees |
| CreditView.BatchAgreesInEveryRun | backend/app/modules/customers/mapping.py:268-288 | in every reachable state the list shows the used and available credit of the single check |
| Reminders.ReminderJob.VisitCustomer | backend/scripts/send_credit_reminders.py:71-140 | one customer's cycle is opened, closed or advanced and the reminder queued, or only counted in a dry run |
| Reminders.ReminderJob.VisitAll | backend/scripts/send_credit_reminders.py:71-141 | the loop over the customers is one visit after another |
| Reminders.AllVisitsByTable | backend/scripts/send_credit_reminders.py:71-141 | cycles, outbox and each counter of the report can be followed separately |
| Reminders.DryRunForetellsRun | backend/scripts/send_credit_reminders.py:112-146 | a dry run queues nothing and counts exactly what the run would |
| Reminders.ReminderJob.RunOnce | backend/scripts/send_credit_reminders.py:43-146 | cycles, outbox and report of one run; nothing is written when off, quiet or a dry run, whose report is that of the run |
| Reminders.QuietIsOneIntervalOfTheClock | backend/scripts/send_credit_reminders.py:26-27 | the quiet hours are one interval of the clock, midnight included |
| Reminders.ClockInIndia | backend/scripts/send_credit_reminders.py:23-27 | the hour is read five and a half hours ahead |
| Reminders.DueIff | backend/scripts/send_credit_reminders.py:71-94 | a customer is due exactly when usage has reached the percentage of the limit, or an unpaid bill is older than the customer's own term, or without one past its due date |
| Reminders.BillIsOverdueIff | backend/app/modules/payments/invoicing.py:128-129 | a bill is overdue after the customer's own term, or after a week for a customer without one |
| Reminders.SendsIff | backend/scripts/send_credit_reminders.py:30-40 | a reminder is sent exactly when the customer is due and the current cycle is below its maximum and past its interval |
| Reminders.VisitByField | backend/scripts/send_credit_reminders.py:95-140 | what a visit leaves of the cycle, field by field |
| Reminders.CycleIsPaced | backend/scripts/send_credit_reminders.py:30-40 | every cycle, past or current, gets at most the maximum, any n of its reminders span n - 1 intervals, and none is in the quiet hours |
| Reminders.SecondVisitSendsIff | backend/scripts/send_credit_reminders.py:30-40 | when a second visit at the same moment sends again |
| Reminders.RunVisitsEachOnce | backend/scripts/send_credit_reminders.py:71-141 | a run moves each listed customer by one visit and nobody else |
| Reminders.RunSendsEachOnce | backend/scripts/send_credit_reminders.py:112-140 | a run sends a customer at most one reminder, when that customer's own visit calls for it |
| Reminders.ReportCounts | backend/scripts/send_credit_reminders.py:71-141 | the report counts one reminder per customer reminded and one resolved per cycle closed |
| Reminders.SecondRunQueuesNothing | backend/scripts/send_credit_reminders.py:47-52 | with a positive interval a second run at the same moment queues nothing |
| Reminders.JobFollowsTracks | backend/scripts/send_credit_reminders.py:71-141 | over any runs a customer's state and reminders are those of that customer's visits |
| Reminders.RemindersArePaced | backend/scripts/send_credit_reminders.py:71-141 | over any runs the reminders a customer is sent fall into paced cycles, and none is sent in the quiet hours |
| Codes.CodeReadsBack | backend/app/modules/customers/codes.py:27-31 | short prefix and number can be read back for every number, past 9999 too |
| Codes.PrefixReadsBackIff | backend/app/modules/business_catalogue/schemas.py:20-21 | the prefix itself reads back exactly when it is not shortened |
| Codes.SameCodeIff | backend/app/modules/customers/codes.py:27-31 | two codes are equal exactly when short prefix and number are |
| Codes.CodesLookLikeThis | backend/app/modules/customers/codes.py:20-31 | system prefix, short prefix and at least four digits, as in MBGA-R-0001 |
| Codes.TypePrefixesLookLikeThis | backend/app/modules/customers/codes.py:46-47 | the type's prefix in upper case, or the first letter of a type without one |
| Codes.CustomerCodeAllocator.LockedSequence | backend/app/modules/customers/codes.py:56-77 | the counter of a prefix, created at 1 on first use |
| Codes.CustomerCodeAllocator.Allocate | backend/app/modules/customers/codes.py:40-54 | the next code of the type, its counter advanced by one and no other changed |
| Codes.CodesAreDistinctIff | backend/app/modules/customers/codes.py:40-77 | over all allocations of all types the codes are pairwise distinct exactly when no long prefix is used beside the letter it is shortened to |
| Codes.AdmissibleCodesAreDistinctIff | backend/app/modules/business_catalogue/schemas.py:20-21 | for prefixes that can be configured the only clash is RETAIL with R, and every other prefix reads back |
| Codes.AllocatedCodesAreDistinctIff | backend/app/modules/customers/codes.py:40-54 | for customers of any configured types, with or without a definition, codes clash exactly when one type's prefix is RETAIL and another's R |
| Base64.DecodeEncode | backend/app/modules/customers/documents.py:287-301 | decoding undoes encoding for all bytes |
| Base64.UnpaddedRoundTrip | backend/app/modules/customers/documents.py:287-301 | padding that was stripped is restored from the length |
| Base64.AlphabetIsTheTable | backend/app/modules/customers/documents.py:287-301 | the alphabet is the URL-safe one |
| ViewLink.GrantReadsBack | backend/app/modules/customers/documents.py:276-313 | what any granted token reads back as |
| ViewLink.LinkNamesItsViewerIff | backend/app/modules/customers/documents.py:290-313 | until its expiry second a link names exactly its file and viewer, exactly when the viewer's id has no colon |
| ViewLink.LinkNamesItsViewer | backend/app/modules/customers/documents.py:276-313 | for every file, every viewer's UUID and every moment a link names its file and viewer until the expiry second and reports expiry afterwards |
| ViewLink.LinkExpiresOnTime | backend/app/modules/customers/documents.py:304-312 | a link is good for the time promised and reports expiry from the end of its expiry second on |
| ViewLink.TokensAreDistinct | backend/app/modules/customers/documents.py:276-288 | two grants share a token only when they agree on file, viewer and expiry |
| ViewLink.LinkOpensIff | backend/app/modules/customers/documents.py:290-313 | a token names a file and viewer exactly when it opens to file, viewer, date and the signature of those three, and the date has not passed |
| ViewLink.LinkIsExpiredIff | backend/app/modules/customers/documents.py:290-313 | a token reports expiry exactly when its signature is right and its date has passed |
| ViewLink.TamperedLinkIsNotFound | backend/app/modules/customers/documents.py:304-305 | a link whose file, viewer or date was changed under its old signature is not found, unless both payloads have that signature |

## Left out

- Signing of tokens, HMAC, SHA-256, password hashing and field encryption: values that cannot be forged and injective hashes stand for them.
- Interleaving inside one-time-code, session, credit, payment and registration requests: assumed not to happen, although not every one of them takes a lock (see the table above).
- OtpHistory.AtMostOneOpenCode: holds of code requests that do not overlap; `request_otp` takes no explicit lock. The same goes for OtpHistory.WrongCodesAreLimited.
- DocumentHistory.NumberBelongsToOneCustomer: holds of saves that do not overlap; the number check takes no lock.
- Registration.OpenApplication: holds of submissions that do not overlap; the pending application is read without a lock.
- CreditHistory.MoneyIsConserved: holds of reconciliations of one payment that do not overlap; `reconcile` locks the invoice but not the payment.
- SessionHistory.RunContinues: holds of requests that do not overlap; `logout` and `revoke_session` decide on a session they have not locked.
- SessionHistory.RevocationRecordsAgree: holds of requests that do not overlap, for the same reason.
- MySQL's REPEATABLE READ snapshots: the throttle's count reads the current table, and an event is visible as soon as it is inserted.
- Several clock readings within one request, and rounding of stored timestamps by the database.
- Audit rows, and notifications other than the queued reminder: nothing reads them back.
- Mail addresses, GST numbers and user creation: fields without a rule that spans requests.
- Routers, schemas, file streaming, storage providers, SMS and push delivery.
- Review decisions, multi-image KYC and account states: the review only appears as the moves the status table allows, and the account decision is an arbitrary input.
- Base64.DecodeEncode: does not model the leniency of Python's decoder towards characters outside the alphabet, because granted tokens have none.
- ViewLink.GrantReadsBack: does not model non-ASCII ids and signatures or the signs, spaces and underscores that `int()` tolerates, because granted tokens have none.
- Codes.CustomerCodeAllocator.LockedSequence: does not model two requests that create the same counter at once.
- CreditHistory.ExposureStaysCovered: holds of reconciliations of one payment that do not overlap, and does not model the fail-open wrapper or a limit changed during the run, because both void the bound by design. Deliveries appear by their effect: a bill replaces an outstanding order by an invoice for no more, in one step, as backend/app/modules/payments/invoicing.py does inside the delivery's transaction.
- Payments.PaymentService.Record: does not model payment modes, references, dates and receipts beyond whether a payment waits for the bank.
- Reminders.ReminderJob.RunOnce: does not model the text of the reminder. When a cycle starts over the source adds a row under the key of the old one; the model performs the reset that is meant.
- Reminders.CycleIsPaced: settings are fixed during the run.
- Reminders.DueIff: the job visits customers with credit enabled and a positive limit, so the list it is given is taken to be those.
- RefreshProtocol.BrowserNeverReplays: does not model a reload in the middle of a refresh, duplicated tabs or reading the session back from the browser's storage; a reload loses the response, which LostResponseLeadsToReplay covers.
- Browser.Client.Send: does not model requests that opt out of authentication, and the listeners that are told of a change.
- The user interface, seeds, backfills, catalogue editing, permissions, orders, inventory and deliveries.
