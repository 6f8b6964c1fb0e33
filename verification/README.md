# Verified model of the session store and the tenant service

The API keeps opaque session tokens in a key-value store and its tenants' projects, scrapers and targets
in relational tables. This project models both and proves what they keep over every run.

**Sessions** (`apps/api/app/core/sessions.py`). `KeyValueStore` is the in-memory store with its clock and
its lazy purging. `SessionOperations` composes the commands of each session operation; `SessionStores` is
the object that issues them one by one. `SessionLedger` is the history: one family per login, a chain
of issued pairs per family, and the set of revoked families, with no keys, deadlines or index in it. The
coupling `SessionRefinement.Agrees` says that what is visible under every key of the store, with its
deadline, is a function of that history. `SessionRuns` and `SessionTheorems` draw the consequences for
whole runs. `SessionInterleaving` cuts the operations into single store commands and lets them interleave
with each other and with the clock. Two theorems of the atomic store can fail there: `SessionOverlaps` shows
the runs and the exact condition for single rotation, `SessionRevocations` for revocation.

**Tenant service** (`apps/api/app/api/deps.py`, the services and the routers). `Dependencies` holds the
request checks, `Service.Handle` is a request as one step on the committed tables, and `UnitOfWork` runs the
handlers on a working copy that is committed or discarded. `Admission` and `Answers` state who is admitted and
what each request answers and writes from the rows and the request alone, field by field; `SessionAnswers` does
the same for the session operations. `ServiceRuns` proves who may act and the
relational invariants, `AuditReplay` the audit log and the versions, `TenantIsolation` and `TenantRuns`
noninterference for one request and for whole runs.

**Together.** `Platform` authenticates each request in the session store and traces every change back to a
login.

Modelling choices:

- Tokens and UUIDs are opaque, so natural numbers stand for them; `generate_token` and `uuid4` are
  parameters that name values never seen before, and SHA-256 is injective. Time is a real number that never
  runs backwards. JSON records are datatypes.
- A refresh lookup goes wrong in two ways with the same exception type; they are two replies here.
- The password check, the verdict of URL validation (with its DNS answer) and the clock are inputs.
- A table is a map keyed by its primary key. The membership table, whose id nothing reads, is a sequence of
  rows; that a pair of user and organisation occurs once is proved as an invariant. Lists are unordered: sets of
  rows with their ids, and for the membership join a multiset.
- Route-level dependencies (the CSRF check of POST routes) run before those in the signature; the others
  run in the order written. So a POST without a valid CSRF pair is a 403 even without a session.
- Where the documentation and the code differ the model follows the code: the comment at
  `apps/api/app/core/sessions.py:184` says the used token keeps its time to live, but line 188 starts it
  anew; a PATCH to ARCHIVED needs only MANAGER; an unknown role string has rank 0 but still lists projects.

## Model

| member | source | states |
|---|---|---|
| KeyValueStore.FakeAsyncRedis.PurgeIfExpired | apps/api/tests/unit/test_sessions.py:36-40 | an expired key is dropped from all three dictionaries, any other state is untouched |
| KeyValueStore.FakeAsyncRedis.Get | apps/api/tests/unit/test_sessions.py:42-44 | the value after purging that key |
| KeyValueStore.FakeAsyncRedis.Set | apps/api/tests/unit/test_sessions.py:46-49 | the value is replaced; the deadline only when a time to live is given |
| KeyValueStore.FakeAsyncRedis.Delete | apps/api/tests/unit/test_sessions.py:51-55 | the loop removes exactly the keys given, whatever the order |
| KeyValueStore.FakeAsyncRedis.Sadd | apps/api/tests/unit/test_sessions.py:57-58 | hashes are added without purging an expired set |
| KeyValueStore.FakeAsyncRedis.Smembers | apps/api/tests/unit/test_sessions.py:62-64 | the members after purging that key |
| KeyValueStore.FakeAsyncRedis.Expire | apps/api/tests/unit/test_sessions.py:66-67 | the deadline is counted from now |
| SessionStores.SessionStore.CreateSession | apps/api/app/core/sessions.py:89-93 | the history gains a new family whose chain is the issued pair, and the store agrees with it |
| SessionStores.SessionStore.IssuePair | apps/api/app/core/sessions.py:95-143 | the four commands, in order, leave the state the composition says |
| SessionStores.SessionStore.GetUserIdForAccessToken | apps/api/app/core/sessions.py:145-154 | answers the login's user exactly for a live access token of the history |
| SessionStores.SessionStore.GetCsrfTokenForAccessToken | apps/api/app/core/sessions.py:156-164 | answers the pair's CSRF value exactly for a live token of either kind |
| SessionStores.SessionStore.RotateRefreshToken | apps/api/app/core/sessions.py:166-196 | reply and new history are those of the abstract machine: the last refresh token of a live chain rotates, an earlier live one revokes the family |
| SessionStores.SessionStore.RevokeFamily | apps/api/app/core/sessions.py:198-203 | the family is revoked in the history and the store agrees |
| SessionStores.SessionStore.RevokeSessionByRefreshToken | apps/api/app/core/sessions.py:205-212 | logout revokes the family of a live token and is otherwise without effect on the history |
| SessionRefinement.IssueAgrees | apps/api/app/core/sessions.py:127-139 | issuing a pair shows under every key what the extended chain says, the index and its deadline included |
| SessionRefinement.RotationAgrees | apps/api/app/core/sessions.py:184-196 | marking the old token and issuing the new pair shows what the extended chain says, with the old token's deadline moved |
| SessionRefinement.RevokeAgrees | apps/api/app/core/sessions.py:198-203 | deleting the listed hashes hides every live token of the family |
| SessionRefinement.StepRefines | apps/api/app/core/sessions.py:89-212 | every operation gives the history's reply and keeps store and history in agreement |
| SessionRefinement.RunRefines | apps/api/app/core/sessions.py:85-212 | every run of the store is a run of the history, reply by reply |
| SessionAnswers.TimesToLive | apps/api/app/core/sessions.py:37-38 | 900 and 2592000 seconds |
| SessionAnswers.LookupsAnswer | apps/api/app/core/sessions.py:145-164 | in any store the user lookup answers for a visible access record only, the CSRF lookup for a visible record of either kind |
| SessionAnswers.RotationAnswers | apps/api/app/core/sessions.py:166-196 | in any store which of the four outcomes a rotation has |
| SessionAnswers.LoginStores | apps/api/app/core/sessions.py:89-143 | a login leaves exactly its two records, with every field, and its set, for 900 and 2592000 seconds, and changes nothing else visible |
| SessionAnswers.RotationStores | apps/api/app/core/sessions.py:184-196 | a rotation marks the record for another 2592000 seconds, stores the new pair for the same user, family and client, adds it to the set and changes nothing else visible |
| SessionTheorems.AccessTokenMeansLogin | apps/api/app/core/sessions.py:145-154 | after any run a token resolves to a user if and only if it was issued as an access token in a family opened by that user's login, under 15 minutes ago, and not revoked |
| SessionTheorems.CsrfTokenMeansPair | apps/api/app/core/sessions.py:156-164 | the CSRF lookup answers if and only if either token of the pair is live, with the value issued with it |
| SessionTheorems.LiveRecordIsIndexed | apps/api/app/core/sessions.py:127-139 | every live record is in its own family's live set, which expires no earlier |
| SessionTheorems.IndexListsOwnTokensOnly | apps/api/app/core/sessions.py:137-139 | no set in the store, expired or not, holds a hash issued under another family |
| SessionTheorems.OneRotatableToken | apps/api/app/core/sessions.py:184-196 | at most one live refresh token of a family is unused |
| SessionTheorems.LiveUnusedTokenRotates | apps/api/app/core/sessions.py:184-196 | a live unused refresh token always rotates, becomes the predecessor of exactly the new pair, and the new access token resolves to the login's user |
| SessionTheorems.IssuedPairsCounted | apps/api/app/core/sessions.py:89-93 | over any run of the store the pairs issued in a family are 1 + its successful rotations if a login opened it, else none, and the history's chain has as many |
| SessionTheorems.ReuseWindow | apps/api/app/core/sessions.py:184-196 | refresh deadlines never decrease along a chain, live records are a suffix, and the predecessor of a live unused token is live, used and expires with it |
| SessionTheorems.RotatesAtMostOnce | apps/api/app/core/sessions.py:176-182 | a rotated token never rotates again; replaying it while its record lives raises reuse and leaves nothing of the family visible |
| SessionTheorems.ReuseOnlyAfterRotation | apps/api/app/core/sessions.py:176-182 | reuse is raised only for a token rotated earlier in the run |
| SessionTheorems.RevocationIsPermanent | apps/api/app/core/sessions.py:198-203 | once a family is revoked no run ever shows a record or set of it again |
| SessionTheorems.RevokedForEver | apps/api/app/core/sessions.py:176-212 | the same for a family revoked by logout or by detected reuse |
| SessionTheorems.RevocationIsExact | apps/api/app/core/sessions.py:198-203 | exactly the family's records and set go; every other key keeps contents and deadline |
| SessionTheorems.RevocationIsIdempotent | apps/api/app/core/sessions.py:198-203 | revoking twice is revoking once, in every state |
| SessionTheorems.LogoutIsExact | apps/api/app/core/sessions.py:205-212 | logout by any live token removes exactly its family; by any other token nothing visible |
| SessionTheorems.IdleFamilyExpires | apps/api/app/core/sessions.py:127-139 | without a successful rotation nothing of a family outlives its last issue by more than 30 days, whatever else runs |
| SessionTheorems.LazyAgreesWithEager | apps/api/tests/unit/test_sessions.py:32-67 | on every run the lazily purged store replies and shows the same as one that drops keys at their deadline |
| SessionInterleaving.SoloIsAtomic | apps/api/app/core/sessions.py:89-212 | an operation's single commands, run alone, compose to the atomic operation |
| SessionInterleaving.RecordsKeepTheirMeaning | apps/api/app/core/sessions.py:127-136 | under any interleaving a hash keeps user, family, kind, client and CSRF value, a used flag never goes back, an access deadline never moves |
| SessionInterleaving.LookupsStaySound | apps/api/app/core/sessions.py:145-154 | under any interleaving a lookup that answers names the user who opened the token's family, within 15 minutes of the token's first write |
| SessionRevocations.RevocationOvertaken | apps/api/app/core/sessions.py:184-203 | a family revoked between the read and the write of a rotation is gone from the store, and comes back when the rotation writes |
| SessionRevocations.RevocationOutrun | apps/api/app/core/sessions.py:198-203 | a rotation that runs between a revocation's read of the set and its deletions leaves a pair whose access token resolves when both have finished |
| SessionRevocations.RevocationAloneExactly | apps/api/app/core/sessions.py:198-203 | a revocation that runs without interruption, in any reachable interleaved state, leaves nothing of the family visible on any run that follows if and only if every live record was listed in the live set and no operation was about to write to the family |
| SessionRevocations.RevocationExactly | apps/api/app/core/sessions.py:176-212 | a revocation interleaved with anything leaves nothing of the family visible once it has finished, on every run, if and only if it begins in an undisturbed state: no writer, no live rotatable token, each live record in a set that outlives it, and no other revocation that has read too little |
| SessionOverlaps.RotatesTwice | apps/api/app/core/sessions.py:176-196 | two rotations that both read a token before either marks it both issue a pair |
| SessionOverlaps.MarkedOnceExactly | apps/api/app/core/sessions.py:176-190 | in every reachable interleaved state a token marked used is marked again on no run if and only if no operation under way had read it before |
| UnitOfWork.DatabaseSession.Serve | apps/api/app/core/database.py:26-31 | a whole request commits exactly the tables of the one-step specification and leaves nothing uncommitted behind |
| UnitOfWork.DatabaseSession.RecordAuditEvent | apps/api/app/services/audit_service.py:18-41 | one row appended to the working copy only |
| UnitOfWork.DatabaseSession.AddOrganization | apps/api/app/services/organization_service.py:26-46 | refused exactly when the slug exists anywhere; otherwise organisation and OWNER row |
| UnitOfWork.DatabaseSession.AddProject | apps/api/app/services/project_service.py:27-53 | refused exactly when the organisation has the slug; otherwise a DRAFT row |
| UnitOfWork.DatabaseSession.AddScraper | apps/api/app/services/scraper_service.py:29-60 | refused exactly when the project has the slug; otherwise a DRAFT row of version 1 with the given or default configuration |
| UnitOfWork.DatabaseSession.ApplyProjectTransition | apps/api/app/services/project_service.py:63-71 | the status moves exactly along the transition graph |
| UnitOfWork.DatabaseSession.ApplyScraperTransition | apps/api/app/services/scraper_service.py:75-79 | the status moves exactly along the transition graph |
| UnitOfWork.DatabaseSession.ApplyConfigurationUpdate | apps/api/app/services/scraper_service.py:68-72 | configuration replaced and version bumped in the working copy |
| UnitOfWork.DatabaseSession.UpdateProjectEndpoint | apps/api/app/modules/projects/router.py:105-137 | commits the patched row and one event, or refuses with the fields assigned in the working copy only |
| UnitOfWork.DatabaseSession.ArchiveProjectEndpoint | apps/api/app/modules/projects/router.py:140-167 | DELETE is the status-only PATCH to ARCHIVED |
| UnitOfWork.DatabaseSession.CreateProjectEndpoint | apps/api/app/modules/projects/router.py:63-95 | commits the row with its event, or nothing |
| UnitOfWork.DatabaseSession.CreateScraperEndpoint | apps/api/app/modules/scrapers/router.py:68-109 | commits the row with its event, or nothing |
| UnitOfWork.DatabaseSession.UpdateScraperEndpoint | apps/api/app/modules/scrapers/router.py:119-155 | commits the patched row and one event, or refuses with name, credential, configuration and version assigned in the working copy only |
| UnitOfWork.DatabaseSession.ArchiveScraperEndpoint | apps/api/app/modules/scrapers/router.py:158-181 | DELETE is the status-only PATCH to ARCHIVED |
| UnitOfWork.DatabaseSession.CreateTargetEndpoint | apps/api/app/modules/targets/router.py:61-88 | commits the row with its event, or refuses an unsafe URL |
| UnitOfWork.DatabaseSession.UpdateTargetEndpoint | apps/api/app/modules/targets/router.py:91-121 | commits the patched row with its event, or refuses an unsafe URL |
| UnitOfWork.DatabaseSession.DeleteTargetEndpoint | apps/api/app/modules/targets/router.py:124-144 | removes the row and keeps the event |
| ServiceRuns.AdmittedExactly | apps/api/app/api/deps.py:58-260 | a request passes its dependencies if and only if the caller is authenticated, has one of the roles that suffice in the organisation found along the ownership chain, and is past the CSRF check |
| ServiceRuns.MissingOrForeign | apps/api/app/api/deps.py:150-260 | a caller gets the 404 if and only if the row is absent or belongs to an organisation the caller is no member of, whatever CSRF pair came with a read, PATCH or DELETE |
| ServiceRuns.RefusedExactly | apps/api/app/api/deps.py:58-260 | which refusal each request gets: 403 for a POST with a bad CSRF pair, then 401 without an active account in session, then 404, then 403 for a role that does not suffice, then 403 for a bad pair on PATCH or DELETE, and none otherwise |
| Database.RolesOrdered | apps/api/app/core/rbac.py:13-25 | which roles satisfy each known role, OWNER > ADMIN > MANAGER > OPERATOR > ANALYST > VIEWER, and an unrecognised role none |
| Dependencies.CookieBeforeBearer | apps/api/app/api/deps.py:68-70 | the cookie's token takes precedence over the bearer's, even a blank one |
| Admission.AdmittedByRow | apps/api/app/api/deps.py:58-260 | a request is admitted if and only if a token that is not blank resolves to an active account, a membership row in the organisation of the named row holds a sufficient role (any role lists projects, a known role reads, MANAGER, ADMIN or OWNER changes, ADMIN or OWNER deletes a project or scraper), and a change with a cookie repeats the CSRF value |
| Answers.OrganizationsAnswered | apps/api/app/modules/organizations/router.py:31-44 | GET /organizations answers one view, with its own fields and role, for each membership row of the caller, and nothing else |
| Answers.ProjectsAnswered | apps/api/app/modules/projects/router.py:48-54 | a view is in the answer if and only if its fields are those of a project of the organisation |
| Answers.ScrapersAnswered | apps/api/app/modules/scrapers/router.py:53-59 | the same for the scrapers of a project |
| Answers.TargetsAnswered | apps/api/app/modules/targets/router.py:46-52 | the same for the targets of a scraper |
| Answers.RowAnswered | apps/api/app/modules/projects/router.py:98-102 | GET of a project or scraper answers the stored row, field by field |
| Answers.CreatesOrganization | apps/api/app/modules/organizations/router.py:47-79 | fails exactly for a slug in use anywhere; else the organisation, its OWNER row and the audit row, every field |
| Answers.CreatesProject | apps/api/app/modules/projects/router.py:63-95 | fails exactly for a slug in use in the organisation; else a DRAFT with the body's fields, the response and the audit row |
| Answers.PatchesProject | apps/api/app/modules/projects/router.py:105-137 | fails exactly for a status it may not move to; else each given field has the given value and each other its old one, in row and response, with the event of the transition |
| Answers.ArchivesProject | apps/api/app/modules/projects/router.py:140-167 | fails exactly when archived already; else only the status changes |
| Answers.CreatesScraper | apps/api/app/modules/scrapers/router.py:68-109 | fails exactly for a slug in use in the project; else a DRAFT of version 1 with the body's fields, the response and the audit row |
| Answers.CreatesConfiguration | apps/api/app/services/scraper_service.py:46-60 | the configuration stored is the one given, or the default of the engine |
| Answers.PatchesScraper | apps/api/app/modules/scrapers/router.py:119-155 | fails exactly for a status it may not move to; else each given field, the configuration included, has the given value and each other its old one, the version grows by one if a configuration was given, with the event |
| Answers.ArchivesScraper | apps/api/app/modules/scrapers/router.py:158-181 | fails exactly when archived already; else only the status changes |
| Answers.CreatesTarget | apps/api/app/modules/targets/router.py:61-88 | fails exactly for an unsafe URL; else a row with the body's fields, the response and the audit row |
| Answers.PatchesTarget | apps/api/app/modules/targets/router.py:91-121 | fails exactly for an unsafe URL; else each given field has the given value and each other its old one |
| Answers.RemovesTarget | apps/api/app/modules/targets/router.py:124-144 | answers without content; the target is gone, every other row stays, the deletion is logged |
| Answers.TargetsStay | apps/api/app/modules/targets/router.py:124-144 | no request but an admitted DELETE of a target removes that target |
| ServiceRuns.AllOrNothing | apps/api/app/modules/scrapers/router.py:128-155 | a failed request leaves rows and log as before; a successful change commits with exactly one audit row |
| ServiceRuns.OnlySubjectChanges | apps/api/app/modules/targets/router.py:100-121 | a request writes no row but its subject's, and its audit row names that subject |
| ServiceRuns.RequestKeepsIntegrity | apps/api/app/services/organization_service.py:26-46 | references resolve, memberships are unique per user and organisation, slugs stay unique in their scope, every organisation keeps an OWNER |
| ServiceRuns.RunKeepsIntegrity | migrations/versions/0003_phase2_projects_scrapers.py:47-107 | the relational invariants hold in every reachable state |
| ServiceRuns.OrganizationsListedExactly | apps/api/app/services/organization_service.py:77-91 | exactly the caller's organisations, each exactly once in the join, with its own fields and the stored role |
| Lifecycle.TransitionGraphs | apps/api/app/models/scraper.py:51-56 | both transition tables, described by their shape instead of their entries |
| AuditReplay.ProjectReplayIsOneWay | apps/api/app/models/project.py:34-39 | along any longer log DRAFT is never re-entered and ARCHIVED is final |
| AuditReplay.ScraperReplayIsOneWay | apps/api/app/models/scraper.py:51-56 | the same for scrapers |
| AuditReplay.LogReplaysToStatus | apps/api/app/services/project_service.py:63-82 | in every reachable state the committed log replays from DRAFT along the graph to the current status of every project and scraper |
| AuditReplay.LifecyclesAreOneWay | apps/api/app/services/scraper_service.py:75-87 | over any run archived rows stay archived and no row returns to DRAFT |
| AuditReplay.VersionCountsReconfigurations | apps/api/app/services/scraper_service.py:68-72 | the version grows by exactly the accepted PATCHes with a configuration |
| AuditReplay.VersionSinceCreation | apps/api/app/services/scraper_service.py:46-60 | version = 1 + accepted reconfigurations since creation |
| AuditReplay.VersionIdentifiesConfiguration | apps/api/app/services/scraper_service.py:68-72 | at any two moments versions do not decrease, and equal versions mean equal configurations |
| TenantIsolation.Noninterference | apps/api/app/api/deps.py:150-260 | two states that agree on the caller and the caller's organisations give the same response and audit row and still agree afterwards, for every request, if and only if the slug of an organisation to be created is taken in both or in neither |
| TenantIsolation.SlugsInterfere | apps/api/app/services/organization_service.py:26-46 | two such states in which creating an organisation is answered differently |
| TenantRuns.StrangerIsInvisible | apps/api/app/api/deps.py:106-120 | a request changes nothing in an organisation of a user who shares none with the caller |
| TenantRuns.ColleagueAgrees | apps/api/app/api/deps.py:106-260 | between states that agree on a user's organisations and their members, anybody else's request keeps them agreeing, whatever organisation it is about |
| TenantRuns.JoiningExactly | apps/api/app/api/deps.py:106-120 | joining an organisation keeps two states the same for the user if and only if that organisation is the same in both |
| TenantRuns.StrangersLeaveNoTrace | apps/api/app/api/deps.py:106-260 | erasing from a run exactly the requests made without a session or by strangers and the enrolments elsewhere, colleagues' steps and account changes staying in, changes no response the user gets if and only if each slug the user gives a new organisation is taken in both runs or in neither, and then leaves the user's organisations the same |
| Platform.LoginExactly | apps/api/app/services/auth_service.py:46-58 | a login opens its family, and its access token resolves, if and only if the password is right and the account exists and is active; otherwise nothing changes |
| Platform.ChangesAreAuthorised | apps/api/app/api/deps.py:58-83 | every row change in any run is a request by an active user holding an unexpired, unrevoked access token of a family that user's own earlier login opened with the right password, and a membership row of MANAGER, ADMIN or OWNER that suffices, in the owning organisation |
| Platform.FamiliesComeFromLogins | apps/api/app/modules/auth/router.py:98-113 | every family in the history was opened by a login with the right password and an active account |
| Platform.TablesRunSerially | apps/api/app/core/database.py:26-31 | what a platform run does to the tables is a serial run of requests |
| Platform.StoreRunsAtomically | apps/api/app/api/deps.py:44-55 | what a platform run does to the session store is an admissible run of session operations with the same final store and history |
| Platform.LookupsRun | apps/api/app/api/deps.py:44-83 | the lookups of a request are session operations whose replies are the session it is served with |
| Platform.RevokedByStep | apps/api/app/modules/auth/router.py:124-169 | the families revoked in the history are exactly those of a logout with a live token, of a rotation answered with reuse, or revoked directly |
| Platform.RevocationReachesRequests | apps/api/app/core/sessions.py:198-203 | once a family is revoked, by whatever step, nothing of it is visible after any later platform step and no request holds it |

## Left out

- RotatesAtMostOnce: proved with each session operation as one atomic step. With single commands interleaved it is false (SessionOverlaps.RotatesTwice), and MarkedOnceExactly says when it holds.
- RevocationIsPermanent: the same (SessionRevocations.RevocationOvertaken and RevocationOutrun); RevocationAloneExactly says when it holds for a revocation that is not interrupted, RevocationExactly when it holds under every interleaving.
- StrangersLeaveNoTrace: an organisation the user joins on the way must be the same in both runs at that step, because what it holds may be the work of strangers (JoiningExactly).
- VersionIdentifiesConfiguration: versions are unbounded integers; the 32-bit column is not modelled.
- StoreRunsAtomically: the source builds a `SessionStore` object per request over one shared client; the model keeps one store value.
- HTTP, cookies, the parsing of the `Bearer` scheme, response formats and logging: plumbing.
- Registration, the login and logout routes' audit rows, and the password hash: accounts and memberships appear through environment steps, the password verdict is an input.
- Reading and renaming one organisation: easy members.
- URL validation itself: its verdict accompanies the submitted URL.
- Request body validation, timestamps and the order of lists.
- Concurrent database transactions: requests are serial, so the unique constraints behind the slug checks are never hit.
- Cascading deletes of users, organisations, projects and scrapers: no route deletes them.
