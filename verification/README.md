# Verification of the control plane's state machines

The project models the parts of the platform whose correctness depends on the
order of several steps, and proves what they keep over whole runs:

- **Refresh-token families** (`TokenStore`, `TokenFamilies`, `TokenSafety`,
  `TokenExact`, `TokenOverlap`, `IamService`, `IamReplies`, `Jwt`). Login, Refresh and Logout
  over the tables of users, devices and hashed refresh tokens.
- **SIM lifecycle in two stores** (`SimLifecycle`, `SimSafety`, `SimOverlap`,
  `SimLastCall`, `SimService`, `SimReplies`, `SimNumbers`). The sims table and the subscriber collection of the 5G core have
  no common transaction.
- **Billing rollups** (`Billing`, `BillingService`). The monthly table is a view
  of the event log that is kept up to date event by event.
- **eSIMs** (`Esim`, `EsimSteps`, `EsimRuns`, `EsimService`, `EsimReplies`, `TokenCache`, `Allowance`). The mock provider
  and the rows that mirror it, the OAuth token cache and the data-allowance parser.
- **Subscriptions** (`Subscriptions`) under a partial unique index.
- **Migrations** (`Migrations`, `MigrationRunner`, `MigrationSuccess`). A runner that may stop at any
  statement and be started again.

`Common`, `Sequences` and `Text` hold what these share.

## How the model is built

*Statements are atomic and may fail.* A SQL statement, a MongoDB call or an HTTP
call is one step on abstract tables. Its outcome is `Done` or `Failed(applied)`:
a failed call may or may not have taken effect, since a connection can break after
the commit. A crash between two calls is a failure, without effect, of the second.

*Two forms of each service.* The token, SIM, eSIM and subscription services are
machines: a set of in-flight calls, each standing between two of its statements;
any call may move next, at any later time. Safety is proved about every run of the
machine. The same services are also classes whose methods run statement by
statement with the early returns of the Go code; each method is proved equal to
the machine's own steps run without interruption (`RunCall`, `RunRequest` and
`Serve`, or `Create`, `Then` and `Effect` for subscriptions), and such a run is
shown to be a run of the machine. So what is proved about runs is
about these methods. Billing and migration runs are sequences of whole requests or
starts, each of which may fail at any of its statements.

*What a call does, spelled out.* The lemmas named `…Replies`, and those beside them,
state the reply and both stores after one call in terms of its arguments and the
tables before it, with each field and constant spelled out rather than through the
definitions the methods and the machine share.

*Ideal primitives.* SHA-256 is injective, bcrypt and HMAC are ideal, and generated
values (UUIDs, refresh tokens) are distinct: one counter supplies them. The login's
family id is drawn together with its user lookup, which no other call can observe.
One clock serves Go and Postgres, and it does not run backwards. The two clock
readings of `issueTokens` coincide. `Verify` follows golang-jwt 5.2.1: dates are
whole seconds, a token is valid while now < exp + leeway and now >= nbf - leeway
(sections 4.1.4 and 4.1.5 of RFC 7519), and an empty expected issuer or audience is
not checked.

*Overlap.* Refresh rotation is the scheme of section 10.4 of RFC 6749. The code
does not make it safe against every overlap of calls on one family: `RevokeToken`
does not look at the number of rows it changed, so two Refresh calls with one token
can both issue (`OverlapIssuesTwice`). `docs/SECURITY_REVIEW_2026-09.md` lists
concurrency as not exposed; the model follows the code. The laws below are proved
under a condition on which calls may overlap, and each condition is shown to be
exact: once the overlap it excludes is in flight, those calls can break the law.

- A call holds a family from the moment it may still add a row to it: a Login that
  has drawn its family, a Refresh that has found its token live. One live token per
  family holds while no two calls hold one family, whatever lookups, replays,
  logouts and failures overlap them (`SingleLiveToken`, `SingleLiveExact`).
- A revoked family stays revoked iff no call holds it (`RevocationExact`).
- A SIM that is not active is in the core exactly when a Resume has trapped it
  there, and a successful Suspend or Terminate leaves it out, while no Create or
  Resume of it that has yet to upsert overlaps a Suspend or Terminate of it
  (`TwoStoreSafety`, `TwoStoreExact`, `LastSuccessDecides`, `WithdrawExact`).
- A successful Resume leaves the SIM in the core while no Resume of it overlaps a
  Suspend or Terminate of it that has yet to delete (`LastSuccessDecides`,
  `ResumeExact`).
- The usage of an eSIM never goes down while no two polls of it that have reported
  differently wait to be written (`UsageNeverLower`, `UsageExact`).

Runs in which calls on one family, on one SIM, or on one eSIM do not overlap at all
are a special case (`SerialRunIsApart`, `SerialRunIsUncontended`,
`UsageAgreesWithOrders`).

*Numbers.* Integers are unbounded unless the code's width matters: rollup columns
are 32-bit. Allowances are exact rationals. Strings are sequences of code points;
a length test agrees with Go's on ASCII.

To check the project: `dafny verify dfyconfig.toml`.

## Model

| member | source | states |
|---|---|---|
| Jwt.SignThenVerify | lib-aerial-go/jwt/jwt.go:40-71 | A signed access token is accepted only under the same secret by an issuer trusting its name and audience, only before signing + lifetime + 30 s, with exactly the signed claims; and it is accepted all through its lifetime and up to 29 s past it |
| TokenStore.ExecGrows | svc-aerial-iam/internal/repository/postgres.go:91-152 | No repository statement deletes a row; the only change to a token row is revoked_at going from null to set; device ids keep their (user, fingerprint) |
| TokenStore.ExecLocal | svc-aerial-iam/internal/repository/postgres.go:105-152 | A statement touches token rows of no family but the one it is about, and only the INSERT adds a row, under a new hash |
| TokenStore.UpsertExact | svc-aerial-iam/internal/repository/postgres.go:91-102 | A known (user, fingerprint) keeps its device id, name and fingerprint and is seen now; an unknown one is added with the name sent, under a new id; no other device changes |
| TokenFamilies.ApplySound | svc-aerial-iam/internal/service/iam.go:102-214 | Every transition, with any failure, keeps the invariant: references hold, each family has one user, a family being founded has no row and no other call on it, every access token was signed for known claims no later than now, and rows are counted by the history |
| TokenFamilies.RunSound | svc-aerial-iam/internal/service/iam.go:102-214 | The invariant holds along every run, and tables only grow |
| TokenSafety.FamilyConservation | svc-aerial-iam/internal/service/iam.go:155-214 | Under any interleaving, overlaps included, a family with rows has exactly 1 + the number of Refresh calls on it that stored a successor, which without half-applied failures are those that returned a pair; its rows share one user, who owns every device on them; a set revoked_at never changes |
| TokenSafety.PairsAreRecorded | svc-aerial-iam/internal/service/iam.go:184-213 | A step returns a pair iff it records an acknowledged exchange; the refresh token is then new and live, in the call's family, with the expiry returned; its row is the returned user's; and the access token names that user's id, organisation, email and role and the row's device, field by field |
| TokenSafety.SingleLiveToken | svc-aerial-iam/internal/service/iam.go:132-214 | In every run in which no step starts with two calls holding one family (able to add a row to it), with any failures and everything else interleaving, no family has two unrevoked rows and no token is exchanged twice |
| TokenSafety.SerialRunIsApart | svc-aerial-iam/internal/service/iam.go:132-214 | Runs whose calls on one family do not overlap are such runs, so the law holds of them |
| TokenExact.SingleLiveExact | svc-aerial-iam/internal/service/iam.go:132-214 | The condition is exact: reached without two holders, a state keeps one live row per family under every continuation by the calls holding families iff no two of them hold one family |
| TokenExact.TwoHoldersIssueTwice | svc-aerial-iam/internal/service/iam.go:151-170 | From every reachable state in which two calls hold a family, finishing one and then the other leaves two live rows in it |
| TokenExact.LiveRowExact | svc-aerial-iam/internal/service/iam.go:132-214 | In runs without two holders the live row of a family, if any, is the last one stored, and it is live iff since then no Logout and no Refresh has revoked it and no replay has revoked the family |
| TokenSafety.TimedRevocation | svc-aerial-iam/internal/service/iam.go:135-145 | Once the family revocation of a replay succeeds at R with no other call holding the family, in every continuation no row of the family is unrevoked, no Refresh of it stores or returns a token, and from R + access TTL + 30 s on none of its access tokens verifies in any service, whatever its own issuer settings |
| TokenSafety.PairsAreGranted | svc-aerial-iam/internal/service/iam.go:183-213 | Every access token ever returned is among those TimedRevocation speaks of, under the family of the call that returned it |
| TokenSafety.SerialKillIsAlone | svc-aerial-iam/internal/service/iam.go:135-145 | When calls on one family do not overlap, a revocation in flight is the only call on its family, so the premise of TimedRevocation holds |
| TokenExact.RevocationExact | svc-aerial-iam/internal/service/iam.go:132-171 | A fully revoked family stays revoked in every continuation if and only if no in-flight call holds it |
| TokenOverlap.OverlapIssuesTwice | svc-aerial-iam/internal/repository/postgres.go:146-152 | A concrete run in which two overlapping Refresh calls exchange the same token and leave two live rows in one family |
| TokenOverlap.OverlapBreaksSingleLive | svc-aerial-iam/internal/service/iam.go:147-170 | So without a condition on overlaps both halves of SingleLiveToken are false |
| IamReplies.LoginReplies | svc-aerial-iam/internal/service/iam.go:102-128 | With no failures Login returns a pair iff the email names an active user with that password: an access token with that user's id, organisation, email and role and the device of that fingerprint, and one new live row in a family that had none, expiring one refresh TTL after issue; otherwise bad credentials and nothing stored |
| IamReplies.RefreshReplies | svc-aerial-iam/internal/service/iam.go:146-170 | With no failures an unknown or expired token is refused and nothing is stored; a live one has exactly its own row revoked, at the time of the statement, and one live successor added in the same family; the access token names the same user's id, organisation, email and role as stored now, and the same device unless a fingerprint is sent, whether or not the user is still active |
| IamReplies.ReplayReplies | svc-aerial-iam/internal/service/iam.go:133-146 | A replayed token is answered with reuse, the unrevoked rows of its family are revoked at the time of the statement, and no other row changes |
| IamReplies.FailedRevocationSurfaces | svc-aerial-iam/internal/service/iam.go:135-143 | A replay whose family revocation fails is answered with the failed revocation and never with a clean reuse |
| IamReplies.LostRefreshLocksOut | svc-aerial-iam/internal/service/iam.go:151-170 | A Refresh that revokes its token and then fails to store the successor leaves the family without a live row, and the client's retry of the token is answered as a replay |
| IamReplies.LogoutReplies | svc-aerial-iam/internal/service/iam.go:174-176 | Logout revokes the presented token and no other and replies alike for unknown tokens |
| IamReplies.SuccessNeedsAll | svc-aerial-iam/internal/service/iam.go:102-214 | No failure is swallowed: a pair needs every statement of the call to go through, the device's too when a fingerprint is sent; a failed lookup is an internal error, not bad credentials or an unknown token; Logout succeeds iff its statement does |
| IamService.UninterruptedRun | svc-aerial-iam/internal/service/iam.go:102-176 | A call run without interruption is a run of the machine that ends that call, leaves the others, and ends in the tables RunCall gives |
| IamService.Postgres.FindRefreshToken | svc-aerial-iam/internal/repository/postgres.go:115-134 | Revoked is reported before expired, and both with the row |
| IamService.Postgres.RevokeToken | svc-aerial-iam/internal/repository/postgres.go:146-152 | Sets revoked_at of that row if it is null, and nothing else |
| IamService.Postgres.RevokeFamily | svc-aerial-iam/internal/repository/postgres.go:137-143 | Sets revoked_at of the family's unrevoked rows, and nothing else |
| IamService.Postgres.UpsertDevice | svc-aerial-iam/internal/repository/postgres.go:91-102 | Keeps the device id of a known (user, fingerprint) and updates last_seen; otherwise inserts |
| IamService.Postgres.StoreRefreshToken | svc-aerial-iam/internal/repository/postgres.go:105-112 | Inserts the row under a fresh hash; a duplicate hash inserts nothing |
| IamService.IAM.Login | svc-aerial-iam/internal/service/iam.go:102-128 | Statement by statement, for every pattern of failures, the tables and reply of the machine's login call; a returned access token names the returned user's id, organisation, email and role |
| IamService.IAM.Refresh | svc-aerial-iam/internal/service/iam.go:132-171 | The same for Refresh |
| IamService.IAM.Logout | svc-aerial-iam/internal/service/iam.go:174-176 | The same for Logout |
| IamService.IAM.IssueTokens | svc-aerial-iam/internal/service/iam.go:183-214 | The same from signing on: sign the user's id, organisation, email and role and the device, then store, and a pair only if the row is stored |
| SimLifecycle.ApplySound | svc-aerial-subscriber/internal/service/sim.go:57-208 | Every transition keeps IMSIs unique and each core record showing a row; rows are never removed and a card changes only in status and timestamps |
| SimLifecycle.CoreIsViewOfTable | svc-aerial-subscriber/internal/service/sim.go:57-208 | From an empty core, under any interleaving and failures, each core record under an IMSI has the IMSI, APN, Ki, OPc, AMF and SST, each in its place, of the one SIM with that IMSI |
| SimLifecycle.OrgIsolation | svc-aerial-subscriber/internal/service/sim.go:145-154 | No statement of a call by one org changes a row or core record of another org |
| SimSafety.TwoStoreSafety | svc-aerial-subscriber/internal/service/sim.go:57-208 | Core wired, any call failing and everything else interleaving, as long as no Create or Resume of the SIM that has yet to upsert overlaps a Suspend or Terminate of it: a SIM that is not active is in the core iff a Resume of it has upserted it and no effective delete and no effective write of "active" has followed; so, between calls, only if some Resume of it returned an error since its status last left active |
| SimLastCall.SerialRunIsUncontended | svc-aerial-subscriber/internal/service/sim.go:164-208 | Runs whose calls on one SIM do not overlap meet the conditions of TwoStoreSafety and of both halves of LastSuccessDecides for every SIM |
| SimLastCall.LastSuccessDecides | svc-aerial-subscriber/internal/service/sim.go:164-208 | Core wired, whatever failed before: a Suspend returning nil leaves the SIM suspended, a Terminate terminated, both without a core record, under the condition of TwoStoreSafety; a Resume returning nil leaves it active and in the core with its stored APN, Ki, OPc, AMF and SST, as long as no Resume of it overlaps a Suspend or Terminate of it that has yet to delete |
| SimLastCall.ResumeExact | svc-aerial-subscriber/internal/service/sim.go:169-191 | The condition for Resume is exact: reached under it, every Resume of the SIM finds it in the core when it writes "active", under every continuation by the calls in flight on that SIM, iff no two of them are such a pair |
| SimLastCall.WithdrawExact | svc-aerial-subscriber/internal/service/sim.go:164-207 | The condition for Suspend and Terminate is exact in the same sense |
| SimOverlap.OverlapBreaksTwoStores | svc-aerial-subscriber/internal/service/sim.go:115-207 | From every state where a Create or Resume that has yet to upsert and a Suspend or Terminate of the same SIM are in flight, each at any stage, there is a run of the two in which both succeed and the SIM ends withdrawn and in the core |
| SimOverlap.TwoStoreExact | svc-aerial-subscriber/internal/service/sim.go:57-208 | The condition of TwoStoreSafety is exact: reached under it, a state keeps the SIM safe under every continuation by the calls in flight on that SIM iff no two of them are such a pair |
| SimLastCall.OverlapUndoesResume | svc-aerial-subscriber/internal/service/sim.go:169-191 | From every state where a Resume, at any stage, overlaps a Suspend or Terminate that has yet to delete, the two can make the Resume return nil with the SIM active and out of the core |
| SimService.FailedResumeTrap | svc-aerial-subscriber/internal/service/sim.go:178-192 | Resume of a SIM that is not active provisions it, and if the status write then fails the SIM keeps its status and stays in the core |
| SimService.RepeatChangesNothing | svc-aerial-subscriber/internal/service/sim.go:164-208 | Repeating a successful status change changes nothing but timestamps |
| SimService.ChangeDone | svc-aerial-subscriber/internal/service/sim.go:164-208 | What a successful change did to both stores: Suspend writes suspended, Terminate terminated, Resume active, to the caller's own row alone, with the time of the write; with a core wired the SIM's record is removed or, for Resume, holds its stored fields one by one |
| SimReplies.ChangeReplies | svc-aerial-subscriber/internal/service/sim.go:164-208 | With no failures Suspend, Terminate and Resume of the org's own SIM do succeed, with those effects; a SIM that is missing or another org's is not found and nothing changes |
| SimReplies.FailedRemovalKeepsStatus | svc-aerial-subscriber/internal/service/sim.go:169-173 | If the core refuses the removal, Suspend and Terminate report a deprovisioning failure and the status stays |
| SimReplies.CreateReplies | svc-aerial-subscriber/internal/service/sim.go:57-132 | With no failures Create refuses a blank org or an IMSI not 14 or 15 long and changes nothing, refuses a taken IMSI and adds nothing, and otherwise adds exactly one active row with the request's keys and the defaults filled in, and with a core wired a record of its IMSI, APN, Ki, OPc, AMF and SST, each in its place |
| SimReplies.ResumeRepairsCreate | svc-aerial-subscriber/internal/service/sim.go:111-129 | If the core refuses, Create reports a provisioning failure and keeps the row, and a later Resume that meets no failure succeeds and puts it into the core with the Ki and OPc it was created with |
| SimReplies.SuccessNeedsAll | svc-aerial-subscriber/internal/service/sim.go:57-208 | No failure is swallowed: a Create or a status change succeeds only if each of its statements and core calls did |
| SimOverlap.RepliesAreLogged | svc-aerial-subscriber/internal/service/sim.go:164-208 | The history the run theorems speak of is faithful: every answer to a status change is in it, as the caller sees it |
| SimOverlap.WritesAreLogged | svc-aerial-subscriber/internal/repository/postgres.go:104-115 | And every change of a status is in it, with the old and the new status |
| SimService.ImsiPrinter | svc-aerial-subscriber/internal/service/sim.go:68 | An assigned IMSI is the MCC, then the MNC, then digits that read back as the MSIN, hence injective; with a 3-digit MCC and 2-digit MNC it has 15 digits exactly for MSINs below 10^10 (clause 2.2 of 3GPP TS 23.003) |
| SimReplies.CountExact | svc-aerial-subscriber/internal/repository/postgres.go:19-28 | The count behind the next MSIN grows by one with a row of that MCC and MNC and with no other |
| SimService.SequentialMsins | svc-aerial-subscriber/internal/repository/postgres.go:19-48 | From an empty table, in serial runs with any failures where every Create leaves the IMSI to the service, the k-th row inserted gets MSIN k and no request is refused as a duplicate |
| SimNumbers.InterleavedMsins | svc-aerial-subscriber/internal/repository/postgres.go:19-48 | Under any interleaving of such requests the k-th row inserted still gets MSIN k; a Create about to insert has drawn some MSIN m, at most one above the number of rows, and is refused as a duplicate iff there are m rows by then |
| SimService.UninterruptedRun | svc-aerial-subscriber/internal/service/sim.go:57-208 | An uninterrupted request is a run of the machine |
| SimService.Open5GS.Upsert | svc-aerial-subscriber/internal/open5gs/mongo.go:52-122 | Replaces the record of that IMSI, Ki and OPc as given and an empty AMF, APN or zero SST as 8000, internet and 1; no other record changes |
| SimService.Open5GS.Delete | svc-aerial-subscriber/internal/open5gs/mongo.go:125-128 | Removes the record of that IMSI and no other; absent is not an error |
| SimService.SIMs.OwnedByOrg | svc-aerial-subscriber/internal/service/sim.go:145-154 | A row of another org reads as not found |
| SimService.SIMs.Create | svc-aerial-subscriber/internal/service/sim.go:57-132 | Statement by statement, for every pattern of failures, the stores and reply of the machine's Create |
| SimService.SIMs.Suspend | svc-aerial-subscriber/internal/service/sim.go:164-175 | The same for Suspend: core first, then the status suspended |
| SimService.SIMs.Resume | svc-aerial-subscriber/internal/service/sim.go:178-192 | The same for Resume: core first, then the status active, whatever the status was |
| SimService.SIMs.Terminate | svc-aerial-subscriber/internal/service/sim.go:197-208 | The same for Terminate: core first, then the status terminated |
| SimService.SIMs.UpdateStatus | svc-aerial-subscriber/internal/repository/postgres.go:104-115 | Writes status and updated_at of one row; no row affected is not found |
| Billing.RollupEqualsLog | svc-aerial-billing/internal/billing/billing.go:54-89 | In every state reached by any Ingest calls failing at any statement, the row of an organisation, user and month exists iff a committed event is charged to them (its own user, or the all-zero UUID when it names none; month in the event's own offset), holds exactly the four sums of those events, and fits 32 bits |
| Billing.KeyOf | svc-aerial-billing/internal/billing/billing.go:70-74 | The row an event goes to is the one account it is charged to, and no other |
| Billing.IngestExact | svc-aerial-billing/internal/billing/billing.go:54-88 | An event keeps its own time, and takes the server's only if it has none; an amount or new total outside -2^31..2^31-1 changes neither table and fails; a change of either table is the whole of it: the event logged and its four amounts added to the row of its organisation, user or the all-zero UUID, and month; nil means that change was made, and no failure means nil |
| Billing.SameRowIff | svc-aerial-billing/internal/billing/billing.go:63-69 | Two events are stored as the same row iff they agree in all but the offset of their times and an empty instead of an absent user or resource |
| Billing.RowsLoseTheMonth | svc-aerial-billing/internal/billing/billing.go:70 | Two events stored as the same row, each added to the same ledger, give the same rollups exactly when their months agree, or when the amounts are zero and both months have a row already: the rollups are not a function of the events table |
| Billing.AcceptedIff | svc-aerial-billing/migrations/000002_create_usage.up.sql:23-33 | A history of events with any signs is fully accepted iff each event fits 32 bits and so does each running total |
| Billing.OrderExact | svc-aerial-billing/internal/billing/billing.go:75-87 | Events with any signs are fully accepted in every order iff each fits and each field of each total stays in range with all positive amounts and no negative ones, and with all negative and no positive ones |
| Billing.OrderIndependent | svc-aerial-billing/internal/billing/billing.go:75-87 | Adding events with any signs in any two orders gives the same rollups |
| Billing.NonNegativeOrder | svc-aerial-billing/internal/billing/billing.go:75-87 | If events with non-negative fields are fully accepted in one order, every order is fully accepted and gives the same rollups |
| Billing.NegativeOrderMatters | svc-aerial-billing/internal/billing/billing.go:75-87 | With a negative field one order of the same events can be accepted and another refused: INT_MAX, 1 and -1, which are outside the range of OrderExact |
| BillingService.OrgTotalsConserve | svc-aerial-billing/internal/billing/billing.go:91-136 | For any history and month the OrgMonth rows sum to the events of that organisation and month, and for every user MyMonth is that user's row and the sum of the events charged to them, and zero exactly where OrgMonth has no row |
| BillingService.Service.Ingest | svc-aerial-billing/internal/billing/billing.go:54-89 | The transaction's effect and reply for every pattern of failures, and the stored rows stay those of the committed events |
| BillingService.Service.MyMonth | svc-aerial-billing/internal/billing/billing.go:91-111 | The sum of the committed events charged to the user in the month, zero without a row, an error only when the query fails |
| BillingService.Service.OrgMonth | svc-aerial-billing/internal/billing/billing.go:113-136 | Every rollup row of the org and month, each user once, by cents descending |
| Esim.CatalogMatchesOrders | svc-aerial-esim/internal/provider/mock.go:38-114 | For every region string, ordering a catalog package provisions that package's data and validity |
| EsimReplies.PlanTable | svc-aerial-esim/internal/provider/mock.go:60-69 | Three endings of a package id have their own days and data and every other id gets 30 days and 5120 MB |
| EsimReplies.CatalogReplies | svc-aerial-esim/internal/service/esim.go:29-47 | A refresh stores and returns exactly the four packages of the region (GLOBAL if empty), with their data, days and prices in cents; a provider error changes nothing, and a failed batch stores none or all |
| EsimReplies.OrderRefused | svc-aerial-esim/internal/service/esim.go:55-68 | A blank org is bad input, then an unknown package not found, then a provider error, each before anything changes |
| EsimReplies.OrderReplies | svc-aerial-esim/internal/service/esim.go:55-95 | In every reachable state an order adds a provider order and, unless the insert fails, a row with a new id: the caller's org, ordered, not activated, unused, with the package's data and days and an expiry that many days of 86400 s later; the reply is that row |
| EsimReplies.ForeignRow | svc-aerial-esim/internal/service/esim.go:107-116 | A row that is missing or another org's is not found, for usage, activation and cancellation, and nothing changes |
| EsimReplies.UsageReplies | svc-aerial-esim/internal/service/esim.go:124-145 | A refresh of the org's own row adds a tenth of the data at the provider, up to all of it, and stores and returns exactly that; an order the provider lost is a provider error |
| EsimReplies.ActivationReplies | svc-aerial-esim/internal/service/esim.go:148-153 | Activation sets the org's own row active, and the time of activation only the first time |
| EsimReplies.CancelReplies | svc-aerial-esim/internal/service/esim.go:156-165 | Cancellation drops the provider's order whatever becomes of the write, and sets the org's own row cancelled |
| EsimReplies.RestartForgets | svc-aerial-esim/internal/provider/mock.go:90-102 | After a restart every usage refresh of an existing row is a provider error, and the tables are as before |
| Esim.PollsReport | svc-aerial-esim/internal/provider/mock.go:90-102 | k polls of a fresh order report min(k * floor(d/10), d) |
| Esim.UpsertKeepsOthers | svc-aerial-esim/internal/repository/postgres.go:19-42 | The batch leaves packages with other ids alone |
| Esim.UpsertStoresLast | svc-aerial-esim/internal/repository/postgres.go:19-42 | Of several packages with one id the batch stores the last |
| EsimSteps.AlwaysAgrees | svc-aerial-esim/internal/service/esim.go:29-165 | However requests overlap, with failures and restarts at any step: each row keeps the data and validity bought and of its provider order, and has 0 <= last_usage_mb <= data_mb and no more than its order |
| EsimSteps.UsageNeverLower | svc-aerial-esim/internal/service/esim.go:124-145 | Requests overlapping in any way, a row's last_usage_mb never decreases as long as no step starts with two polls of that row waiting to be written that reported differently |
| EsimSteps.UsageExact | svc-aerial-esim/internal/service/esim.go:124-145 | The condition is exact: reached under it, the polls waiting to be written cannot lower the row's usage, in whatever order they are written, iff no two of them differ |
| EsimSteps.UninterruptedRun | svc-aerial-esim/internal/service/esim.go:29-165 | A request run without interruption is a run of the machine |
| EsimSteps.ServeIsSteps | svc-aerial-esim/internal/service/esim.go:29-165 | What a service method does for a request is what those steps do one after another |
| EsimRuns.UsageAgreesWithOrders | svc-aerial-esim/internal/service/esim.go:29-165 | In particular, in every serial run, with failures and restarts, each row keeps the data and validity bought and of its provider order, 0 <= last_usage_mb <= data_mb, and last_usage_mb never decreases |
| EsimRuns.UsageAfterOrder | svc-aerial-esim/internal/service/esim.go:55-145 | After an order, k usage refreshes leave min(k * floor(d/10), d) in its row, whatever other requests are served in between |
| Esim.OtherOrgsUntouched | svc-aerial-esim/internal/service/esim.go:107-116 | A call of one org leaves rows and provider orders of all others as they were |
| EsimRuns.CancelFreezesUsage | svc-aerial-esim/internal/service/esim.go:156-165 | After a successful Cancel, in serial runs, the row is cancelled, its usage never changes again, and every later refresh of it is refused by the provider |
| EsimSteps.OverlapLowersUsage | svc-aerial-esim/internal/service/esim.go:124-145 | Two overlapping refreshes, the later poll written first, lower last_usage_mb exactly when the first poll had not reached the cap |
| EsimService.Mock.Order | svc-aerial-esim/internal/provider/mock.go:51-87 | Adds one order with the data and validity of the package id and zero usage |
| EsimService.Mock.UsageMB | svc-aerial-esim/internal/provider/mock.go:90-102 | One poll of a known order and its new usage; an unknown one changes nothing |
| EsimService.Mock.Cancel | svc-aerial-esim/internal/provider/mock.go:105-110 | Drops that order and no other |
| EsimService.Postgres.UpsertPackages | svc-aerial-esim/internal/repository/postgres.go:19-42 | The batch loop stores all packages or none |
| EsimService.Postgres.UpdateUsage | svc-aerial-esim/internal/repository/postgres.go:140-150 | Writes one row's usage; no row affected is not found |
| EsimService.Postgres.SetStatus | svc-aerial-esim/internal/repository/postgres.go:153-165 | Writes one row's status, and activated_at on the first activation only |
| EsimService.ESIM.RefreshCatalog | svc-aerial-esim/internal/service/esim.go:29-47 | Stores and returns the region's catalog, for every pattern of failures |
| EsimService.ESIM.Order | svc-aerial-esim/internal/service/esim.go:55-95 | Provider order, then row; a failed insert leaves the provider's order behind |
| EsimService.ESIM.RefreshUsage | svc-aerial-esim/internal/service/esim.go:124-145 | Poll, then write, then reload, for every pattern of failures |
| EsimService.ESIM.MarkActivated | svc-aerial-esim/internal/service/esim.go:148-153 | Marks the org's own row active |
| EsimService.ESIM.Cancel | svc-aerial-esim/internal/service/esim.go:156-165 | Drops the provider's order, then marks the row cancelled |
| TokenCache.ReplyIsCached | svc-aerial-esim/internal/provider/airalo.go:59-92 | A failed call leaves the cache unchanged; a returned token is the cached one, and unless just fetched it has over five minutes left |
| TokenCache.ServedFromCache | svc-aerial-esim/internal/provider/airalo.go:62-64 | After a grant the next call is served from the cache iff the token is non-empty and over 300 s of its lifetime remain; so an empty or short-lived token is fetched every time |
| TokenCache.CacheIsLastGrant | svc-aerial-esim/internal/provider/airalo.go:86-91 | At any point of any run the cache is the last granted token, expiring its lifetime after its answer was decoded |
| TokenCache.FetchBound | svc-aerial-esim/internal/provider/airalo.go:59-92 | For any callers and schedule, if every granted token is non-empty and lives at least L > 300 s, a window of W holds at most floor(W/(L-300)) + 1 successful fetches |
| TokenCache.FetchBoundAttained | svc-aerial-esim/internal/provider/airalo.go:59-92 | The bound is reached: n periods can hold n + 1 fetches |
| TokenCache.Airalo.Token | svc-aerial-esim/internal/provider/airalo.go:59-92 | One call's effect on the two fields and its result, for every answer of the endpoint |
| TokenCache.ReplyTable | svc-aerial-esim/internal/provider/airalo.go:59-92 | One call, case by case: a cached token with over 300 s left; else no connection, a status outside 200 to 299, or an undecodable body is its own error and changes nothing, and a decoded answer is cached for its lifetime and returned |
| Allowance.ParserIsExact | svc-aerial-esim/internal/provider/airalo.go:230-266 | The parser succeeds with v exactly on the texts of its trimmed case-insensitive grammar that mean v; v >= -1, and v is -1 iff the text is "unlimited" |
| Allowance.ParsePrinted | svc-aerial-esim/internal/provider/airalo.go:242-266 | Parsing inverts printing of padding, numeral, spacing and unit in any letter case |
| Allowance.ParsedIsPrinted | svc-aerial-esim/internal/provider/airalo.go:242-266 | Every accepted text is the print of a form with the parsed meaning |
| Allowance.ConvertIsExact | svc-aerial-esim/internal/provider/airalo.go:251-264 | The megabytes are floor(n * unit factor) of the exact decimal n, never negative |
| Allowance.WholeAmounts | svc-aerial-esim/internal/provider/airalo.go:232-266 | A whole number of a unit reads back as that many megabytes; zero is neither unlimited nor an error |
| Allowance.UnitSpellings | svc-aerial-esim/internal/provider/airalo.go:232-246 | k TB, GB, MB and KB read as k * 1048576, k * 1024, k and floor(k / 1024) MB, with either case of each letter and any blanks, tabs, line ends or form feeds, or none, before the unit |
| Allowance.OneCharacterGap | svc-aerial-esim/internal/provider/airalo.go:232 | Any other single character there, a digit aside, is refused |
| Allowance.UnlimitedSpellings | svc-aerial-esim/internal/provider/airalo.go:242-245 | A nine-character text means -1 iff each character is that of "unlimited" in either case |
| Allowance.PaddingIsIgnored | svc-aerial-esim/internal/provider/airalo.go:243 | Blanks, tabs and line ends around a text change neither acceptance nor value |
| Allowance.FindBuilt | svc-aerial-esim/internal/provider/airalo.go:232 | The pattern's submatches of numeral, white space and unit are those three |
| Allowance.CatalogIsExact | svc-aerial-esim/internal/provider/airalo.go:152-174 | The catalog loop returns exactly the packages whose allowance parses, each once and in reading order |
| Allowance.OfferedIff | svc-aerial-esim/internal/provider/airalo.go:154-172 | A package is offered iff its allowance parses, with that allowance, its own id, title, days and price, and the country's slug in capitals |
| Allowance.Catalog | svc-aerial-esim/internal/provider/airalo.go:152-174 | The nested loop with its skip computes that list |
| Migrations.OneStart | scripts/migrate.sh:21-55 | Stopped anywhere, a start leaves every recorded version fully applied and per schema a prefix of the sorted files recorded, and does not change where the statements lead; undisturbed it ends there, and success means every version is recorded |
| Migrations.RestartsKeep | scripts/migrate.sh:21-55 | The same over any number of starts, each with its own failures |
| Migrations.CrashRestartConverges | scripts/migrate.sh:21-55 | Any number of stopped starts followed by an undisturbed one end with the same objects and verdict as one undisturbed start, and if it succeeds with the same recorded versions |
| Migrations.FreshIsConsistent | scripts/migrate.sh:33-39 | A database with nothing recorded meets the premise of the above |
| MigrationSuccess.SucceedsIff | scripts/migrate.sh:21-55 | A start succeeds iff the statements' needs are met, every tracking table could be made, every statement and recording of an unrecorded file went through, and so did the lookup of every recorded one (a failed lookup runs the file again, and its second recording stops the script); it then ends as an undisturbed start does |
| Migrations.AddsOnlyAbsent | scripts/migrate.sh:50-51 | A statement gives an absent object its definition and leaves every existing definition as it was |
| MigrationRunner.Migrator.ApplyFile | scripts/migrate.sh:50-51 | Runs a file statement by statement and stops at the first that fails, keeping what was committed |
| MigrationRunner.Migrator.MigrateFile | scripts/migrate.sh:42-53 | Skips a recorded version, else applies and then records; a failed lookup reads as not applied |
| MigrationRunner.Migrator.Migrate | scripts/migrate.sh:21-55 | The two loops compute the specification's start for every pattern of failures |
| Subscriptions.OneLiveSubscription | svc-aerial-provision/internal/provision/provision.go:95-154 | Under any interleaving and failures each (user, plan) has at most one active or suspended row; rows created equal rows cancelled plus 0 or 1; cancelled_at is set iff cancelled, and a cancelled row never changes |
| Subscriptions.CreateAddsRow | svc-aerial-provision/internal/provision/provision.go:95-115 | For a known plan without a live row of the user, a create replies with a new id and adds exactly one row under it: the caller's org, the user, the plan, active, cancelled_at null; no other row changes |
| Subscriptions.CreateRefused | svc-aerial-provision/internal/provision/provision.go:95-115 | An unknown plan is not found and a live row of the pair makes the create a duplicate, in that order, and neither changes anything; a failed statement is an error, and changes the table only if the insert was made |
| Subscriptions.CancelReplies | svc-aerial-provision/internal/provision/provision.go:143-154 | Cancel makes the org's own live row, and no other, cancelled at the time of the statement; a missing, foreign or cancelled row is not found |
| Subscriptions.ResubscribeAfterCancel | svc-aerial-provision/migrations/000003_subscription_uniqueness.up.sql:9-11 | After a create a second one for the pair is a duplicate, whoever calls; the org can cancel the row once; and then the user can subscribe again, under a new id |
| Subscriptions.RequestsAreRuns | svc-aerial-provision/internal/provision/provision.go:95-154 | Both requests are runs of the machine, one step per statement, for every pattern of failures |
| Subscriptions.CancelIsScoped | svc-aerial-provision/internal/provision/provision.go:143-154 | Cancel from another org changes nothing and replies as if the row did not exist |
| Subscriptions.Service.CreateSubscription | svc-aerial-provision/internal/provision/provision.go:95-115 | Plan check, then insert under the partial unique index, for every pattern of failures; a reply with an id means that one row was added under it |
| Subscriptions.Service.Cancel | svc-aerial-provision/internal/provision/provision.go:143-154 | One scoped UPDATE; success means that one row became cancelled now; no row affected is not found |

## Left out

- Signup, roles, password rules, changes to users: the user table is fixed in a run, though any users may be in it.
- Normalisation of the login email, and malformed UUID text in any request.
- Two time readings that differ: the access and refresh expiry of one pair, and the year and month of one monthly read.
- SIM fields that reach neither the core nor a decision (owner, MSISDN), the SIM's SD, and a failing random source; the two keys of a new SIM are part of the request.
- SimService.Open5GS.Upsert: the collection is keyed by IMSI, so two first upserts of one IMSI that insert two documents are not modelled.
- Labels, ICCIDs, LPA strings, QR codes, install links, and eSIMs of the live provider.
- Allowance.ConvertIsExact: float64 rounding, the overflow of huge numerals and the width of int are abstracted by exact arithmetic.
- Allowance.Catalog: prices are given in cents, and slugs are upper-cased as ASCII.
- HTTP wire formats and retries of the Airalo adapter other than the token endpoint's outcome classes.
- Calendar arithmetic: an event's time carries its month in its own offset.
- Directory listing, sorting and waiting for Postgres in the migration script: the sorted files are given.
- MigrationRunner.Migrator.ApplyFile: a CREATE ... IF NOT EXISTS whose object exists is skipped by Postgres even if a table it refers to is missing; the model stops there.
- Migrations.OneStart: the services' schemas exist beforehand; with a missing one psql would create the tracking table in public.
- Migration statements are the add-if-absent forms the files use; each adds objects and needs others, and column details are opaque.
- Listing endpoints, handlers, routing, metrics, tracing, messaging, ran-control and the web UI.
- Claims the code does not support: a terminated SIM can be resumed, a cancelled eSIM can be marked active, a SIM in the core need not have provisioned_at, an auto-assigned IMSI can meet a manually chosen one.
