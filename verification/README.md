# Tenant SaaS backend: verified core

A Dafny model of the parts of the multi-tenant backend whose correctness is a matter of protocol: refresh-token
families, the role engine and its permission cache, the browser client's session, quotas, and a few smaller cores.
`dafny verify dfyconfig.toml` checks everything.

How it is built:

- A committed database, a tab or a broker is a value (`Tables`, `Org`, `TabState`, `State`), `Apply` is one atomic
  step on it and `Run` any sequence of steps by any number of parties. Where the source uses several transactions
  or awaits, the model uses several steps, so everything can happen in between.
- The source's own operations are also given statement by statement, as methods of classes over mutable tables
  (`IdentityRepository`, `RoleService`, `Tab`, `Cache`, `IPRateLimiter`, `Broker`, ...), each proved to change its
  tables as the step functions say.
- Clocks, generated ids and failures are parameters of the steps.
- The theorems are lemmas about all runs.

| file | about |
|---|---|
| IdentityTables, TokenRuns | refresh-token rotation, reuse detection, logout, resets (section 4.14.2 of RFC 9700) |
| TokenAnswers | when refreshes, resets and verifications succeed, and what a suspension stops |
| ClientSession, ClientRetries | the client's epochs and single-flight rotation; when a call is sent again or signs out |
| ClientServer | one tab composed with the server |
| Rbac, RoleService, RbacSafety | the role mutations, their invariants, conditional edits (section 13.1.1 of RFC 9110) |
| RoleAuthority | exactly when each mutation commits, told from the grants |
| Coalition | what a group of users can reach together |
| OwnerLock | role revocation at lock granularity |
| PermissionCache, CacheStaleness | the read-through cache as a refinement, and one user's entry under concurrency |
| CacheRaces | all users' entries under concurrency, with mutations split into lookup, commit and invalidation |
| QuotaGate | count, check, insert without a lock: the overshoot, bounded and reached |
| ProjectQuota, SeatQuota, StorageQuota | the three quotas as refinements of the gate, and the life of an invitation |
| RateLimiter, Broker, Slug, Pagination | smaller cores |

Where the code does not do what its comments or its purpose suggest, the model follows the code; a lemma says exactly
when the property holds, and another shows a case where it does not:

- The client's comment says a delayed refresh must never clear a replacement login (app.js:340-341). A request that
  joins a rotation begun in an earlier session can be signed out by that rotation's 401: exactly then, by
  `ClientSession.RefusalEndsItsOwnSession`; a run: `LateJoinEndsTheWrongSession`.
- Concurrent creates are said to exceed the project limit "by one", which "the next create will correct"
  (projects/service.go:74-78). With k creates in flight it is k - 1 (`ProjectQuota.OvershootIsBounded`), which is
  reached (`OvershootIsReached`), and no run of creates corrects it, only deletes do (`OnlyDeletesCorrect`). The same
  bound is reached for seats and storage (`SeatQuota.SeatBoundIsReached`, `StorageQuota.StorageBoundIsReached`).
- The cache's comment says no window is left open once a mutation has invalidated its holders (cache.go:38-42), and the
  service's that the holders read beforehand include every affected user (authz/service.go:320-323). The lookup is a
  transaction of its own (324, 383), so the claims hold exactly if, when the edit or deletion commits, no reader between
  its query and its write holds an outdated set, and every user with an entry whose permissions change held the role at
  the lookup (`CacheRaces.EditSettlesExactly`; `LoopSettlesExactly` for every mutation). A changed user who did
  not was granted the role in between (`MissedUserWasGranted`). Runs in which each part fails:
  `CacheStaleness.FillAfterInvalidationIsServed` and `CacheRaces.LateHolderIsServedOldCodes`, where no reader is pending.
- Accepting an invitation invalidates nothing: the answer is right exactly if the entry already held every code such
  invitations gave (`PermissionCache.AnswerIsRightExactly`); otherwise the new ones are not served
  (`AcceptedRoleIsNotServed`).
- Reuse of a refresh token is detected, and its family revoked, exactly while the subject is active: the standing is
  checked first (`TokenRuns.SecondUseRevokesFamily`).
- A login checks the password and issues its tokens in separate transactions. A reset or password change shuts out
  every login whose check came before it exactly if none is between the two when it commits
  (`TokenRuns.ShutsOutExactly`); a run where one is: `LoginInFlightOutlivesReset`.
- For the same reason disabling a user or deactivating a tenant stops further tokens exactly if none of their logins is
  between the two (`TokenAnswers.SuspensionStopsTokensExactly`).
- Between the two a login writes its whole user row back, the password it read included. The password of a reset
  therefore survives exactly if no login that read another one is in flight when the reset commits
  (`TokenRuns.ResetSurvivesExactly`).
- The slug's comment says "Café" becomes "cafe" (pkg/slug/slug.go:30-31); it becomes "caf" (`Slug.AccentsSeparate`).
- Evicting idle visitors from the rate limiter is unobservable exactly if idling refills a bucket, which holds for the
  configured 20 and 5 (`RateLimiter.UnobservableExactly`).

Table assumptions taken from the migrations: (tenant, slug) is unique for roles and permission codes are unique
(000003), five system roles are seeded (000008, 000015), a pending invitation's email is unique and a role named by an
invitation cannot be deleted (000004), `accept_invitation` claims only a pending, unexpired invitation (000012). Ids
and role revisions handed out are new.

## Model

| member | source | states |
|---|---|---|
| IdentityTables.IdentityRepository.ActiveCredentialUser | internal/identity/repository.go:177-208 | a credential is usable only for a live, active tenant and a live, enabled user of that tenant, and which of the two failed |
| IdentityTables.IdentityRepository.CreateRefreshToken | internal/identity/repository.go:212-220 | inserts one live row and changes nothing else; a duplicate id inserts nothing |
| IdentityTables.IdentityRepository.RevokeRefreshTokenFamily | internal/identity/repository.go:248-256 | gives exactly the tenant's live rows of that family the time; earlier revocation times and all other rows stay |
| IdentityTables.IdentityRepository.RotateRefreshToken | internal/identity/repository.go:258-318 | all outcomes: success links and replaces, reuse commits the family's revocation although the caller gets an error, the rest commit or roll back without a change |
| IdentityTables.IdentityRepository.ClaimVerificationToken | internal/identity/repository.go:421-441 | claims exactly an unused, unexpired token of that user and purpose |
| IdentityTables.IdentityRepository.ConsumePasswordReset | internal/identity/repository.go:376-397 | claim, new password and revocation of all the user's sessions happen together or not at all |
| IdentityTables.IdentityRepository.ConsumeEmailVerification | internal/identity/repository.go:399-419 | claim and verified flag happen together or not at all |
| IdentityTables.IdentityRepository.RevokeAllRefreshTokens | internal/preferences/repository.go:153-168 | a password change gives exactly the live rows of that user the time; earlier revocation times and all other rows stay |
| TokenAnswers.RefreshSucceedsExactly | internal/identity/repository.go:258-318 | over runs: a refresh adds its new row exactly if the token, made by a login or an earlier refresh with some expiry, is neither revoked nor replaced, that expiry has not come, the subject's rows are active and the new id is unused; then exactly the new row and the link are written |
| TokenAnswers.RefreshRefusalsExactly | internal/identity/service.go:237-246 | every other answer of a refresh, exactly when |
| TokenAnswers.ResetSucceedsExactly | internal/identity/repository.go:376-441 | over runs: a reset writes something exactly if the token was minted as that user's reset in that tenant, has not expired, was not used by any step since and the subject's rows are active; then password, use and the end of all sessions are written, nothing else |
| TokenAnswers.VerificationSucceedsExactly | internal/identity/repository.go:399-441 | the same for an email verification, which marks the address verified |
| TokenAnswers.LoginAdmitsExactly | internal/identity/service.go:194-203 | a password login is admitted exactly with the password of the row and active rows |
| TokenAnswers.OnlyActiveSubjectsAct | internal/identity/repository.go:177-208 | logins that are admitted, refreshes, resets and verifications that write anything have subjects whose rows are active |
| TokenAnswers.SuspendedCannotAct | internal/identity/repository.go:177-208 | from the step that disables a user or deactivates a tenant until the row is next written, none of their logins is admitted and none of their refreshes, resets or verifications writes anything |
| TokenAnswers.SuspensionStopsTokensExactly | internal/identity/service.go:194-217 | they get no further token, in all runs until the row is set again, exactly if none of their logins is between its check and its tokens |
| TokenRuns.FamiliesAreChains | internal/identity/repository.go:250-318 | in every reachable state each family is one linear chain under replaced_by, of one tenant and user, with every replaced token revoked |
| TokenRuns.OnlyTheTailIsLive | internal/identity/repository.go:261-318 | a family has at most one usable token, the one not replaced |
| TokenRuns.RunEvolves | internal/identity/repository.go:248-318 | rows never disappear, revocation and replacement are final, nothing is added to a family without a live token |
| TokenRuns.DeadFamilyStaysDead | internal/identity/repository.go:250-318 | once no token of a family is usable, none ever is again, whatever interleaves |
| TokenRuns.LiveTokensStemFromLaterLogin | internal/identity/service.go:227-280 | after a reset, a password change, a logout or a detected reuse, every live token of that user or family belongs to a family a later login opened, however many refreshes were past their lookup |
| TokenRuns.AtMostOneRotation | internal/identity/repository.go:258-318 | of any number of interleaved refreshes with one token at most one succeeds |
| TokenRuns.RefreshWritesExactly | internal/identity/repository.go:266-317 | a refresh changes the tables exactly if it succeeds or detects reuse in a family that still has a live token |
| TokenRuns.SecondUseRevokesFamily | internal/identity/repository.go:266-289 | a second use revokes the whole family for good exactly if the subject is active, and otherwise changes nothing |
| TokenRuns.RefreshNeverMismatches | internal/identity/service.go:227-246 | what a refresh looked up always still matches the row, so the rollback branch for a mismatched replacement is never taken |
| TokenRuns.AtMostOneClaim | internal/identity/repository.go:376-441 | of a verification token at most one use succeeds, through either consumer |
| TokenRuns.LiveTokensStemFromLaterCheck | internal/identity/service.go:161-220 | if no login of the user is between its check and its tokens when a sign-out commits, every live token afterwards comes from a login that passed its check, with the password of that moment, after it |
| TokenRuns.PendingLoginOutlives | internal/identity/service.go:416-437 | if one is, it can issue a live token right after the sign-out, whatever new id and family it gets |
| TokenRuns.ShutsOutExactly | internal/identity/service.go:325-341 | so a sign-out shuts out every earlier-checked login, in all runs that follow, exactly if none is pending when it commits |
| TokenRuns.PasswordSurvivesExactly | internal/identity/repository.go:142-147 | a user's password stays through every run without a reset or row change of theirs exactly if no login in flight for them read another one |
| TokenRuns.ResetSurvivesExactly | internal/identity/service.go:210-212 | so does the password a reset just set, whatever logins the reset overtook |
| TokenRuns.LoginInFlightOutlivesReset | internal/identity/service.go:161-220 | a run in which one is pending: it checked the old password before the reset and its token is live after it |
| ClientSession.Tab.Response | internal/routes/web/assets/app.js:310-359 | the continuation after a response: stale epochs are dropped, a first 401 resends or joins the rotation, a second one signs out |
| ClientSession.Tab.Join | internal/routes/web/assets/app.js:292-300 | joins the rotation in flight and creates one only if there is none |
| ClientSession.Tab.RotationAnswered | internal/routes/web/assets/app.js:375-384 | tokens are written only if epoch and refresh token are still those the rotation captured |
| ClientSession.Tab.ResumeCall | internal/routes/web/assets/app.js:337-352 | how a waiting call continues after the rotation it waited for |
| ClientSession.Tab.EnterSession | internal/routes/web/assets/app.js:2553-2560 | a login starts a new epoch with its own tokens |
| ClientSession.Tab.LeaveSession | internal/routes/web/assets/app.js:2562-2575 | a sign-out ends the epoch once and drops both tokens |
| ClientSession.NeverSentUnderAnotherSession | internal/routes/web/assets/app.js:325-353 | in every run a request begun in one session is never sent or retried with a token of another session |
| ClientSession.SentAtMostTwice | internal/routes/web/assets/app.js:330-353 | each call goes out at most twice |
| ClientSession.OneRotationAtATime | internal/routes/web/assets/app.js:292-300 | at most one rotation has begun and not ended |
| ClientSession.RotationWritesItsOwnEpoch | internal/routes/web/assets/app.js:375-384 | a rotation never writes tokens into an epoch other than the one it began in |
| ClientSession.RefusalEndsItsOwnSession | internal/routes/web/assets/app.js:337-349 | a refused rotation ends only the session of the call; the refused token is the one held exactly if the call did not join a rotation from another epoch |
| ClientSession.CallsEndOnlyTheirOwnSession | internal/routes/web/assets/app.js:330-358 | whatever a call does, it ends a session only if it was begun in that session |
| ClientSession.LateJoinEndsTheWrongSession | internal/routes/web/assets/app.js:337-349 | a run in which a new session ends although its refresh token was never sent |
| ClientRetries.SendsCarryTheHeldToken | internal/routes/web/assets/app.js:310-353 | whatever a step sends carries the access token held at that moment, and a begun call goes out |
| ClientRetries.RotationWritesExactly | internal/routes/web/assets/app.js:375-384 | an answer with tokens is written exactly if the rotation began in the current epoch with the refresh token still held |
| ClientRetries.ResumesExactly | internal/routes/web/assets/app.js:337-353 | in every run a waiting call goes out exactly once more, with the token held now, exactly if its rotation ended by writing and its session is current; it ends the session exactly on a 401 to that rotation with the refresh token it saw still held |
| ClientRetries.RepliesExactly | internal/routes/web/assets/app.js:330-359 | in every run: when a response sends the call again at once, makes it wait for the one rotation, ends the session, or just ends the call |
| ClientServer.FamilyChange | internal/identity/repository.go:248-318 | whatever step changes rows of a family leaves every row it had revoked |
| ClientServer.RunKeepsInv | internal/identity/service.go:227-268 | in every run of tab, network, server and others the newest token of the session is usable exactly if the session is not spoiled |
| ClientServer.ReuseMeansSpoiled | internal/routes/web/assets/app.js:330-384 | the server takes its reuse branch for the tab's own refresh exactly if the session is spoiled and the subject active; an unspoiled one is refused with 401 only on expiry |
| ClientServer.TabNeverKillsItsOwnFamily | internal/routes/web/assets/app.js:292-384 | a signed-in tab that receives its answers never makes the server detect reuse, however 401s interleave and whatever rotations of its earlier sessions are still under way, and its family keeps a live token |
| ClientServer.OwnRefreshSucceedsExactly | internal/routes/web/assets/app.js:361-384 | in every run the tab's own refresh in an unspoiled session succeeds exactly if the expiry of the held token has not come, its subject's rows are active and the new id is unused, is refused with 401 exactly when expired, and its success brings the tab the new tokens |
| RoleService.UniquePermissionCodes | internal/authz/service.go:173-184 | duplicates are removed, first occurrences stay in order |
| RoleService.AuthorizeRoleDelegation | internal/authz/service.go:220-236 | allowed exactly if the actor outranks the role, holds every code, and org:manage and Owner stay exclusive |
| RoleService.RoleService.ActorAccess | internal/authz/repository.go:46-84 | the actor's best rank, ownership and union of permissions, or nothing without an account and a role |
| RoleService.RoleService.PermissionsByCodes | internal/authz/repository.go:103-115 | comparing counts recognises exactly the code lists that the catalog covers |
| RoleService.RoleService.MayTouch | internal/authz/repository.go:127-136 | a non-Owner may touch only users whose best rank is below their own |
| RoleService.RoleService.OwnerCount | internal/authz/repository.go:138-145 | the count is positive exactly if an active user holds the Owner role |
| RoleService.RoleService.CreateRole | internal/authz/service.go:135-171 | answers the verdict and commits the state of the specification |
| RoleService.RoleService.UpdateRolePermissions | internal/authz/service.go:312-376 | answers the verdict and commits the state of the specification, revision check included |
| RoleService.RoleService.DeleteRole | internal/authz/service.go:382-414 | the role goes with its grants, system roles never |
| RoleService.RoleService.AssignRole | internal/authz/service.go:419-457 | answers the verdict and commits the state of the specification |
| RoleService.RoleService.RevokeRole | internal/authz/service.go:461-513 | delete, count, roll back commits exactly the specified state |
| RbacSafety.RunKeepsWellFormed | internal/authz/service.go:154-161 | in every reachable state an active user holds Owner and a role carries org:manage exactly if it is the Owner role |
| RbacSafety.OwnerIffOrgManage | internal/authz/service.go:345-356 | for every user at any time, holding Owner and having org:manage are the same |
| RbacSafety.RegistrationIsWellFormed | internal/identity/service.go:83-155 | registration with the seeded roles establishes those invariants |
| RbacSafety.NoLostUpdate | internal/authz/service.go:312-333 | an edit carrying a revision commits only if no edit of the role committed since it was read |
| RbacSafety.EditsFormAChain | internal/authz/service.go:279-376 | successful conditional edits are each based on their immediate predecessor |
| RoleAuthority.AssignsExactly | internal/authz/service.go:419-457 | in every reachable organization a role is given exactly by an actor who owns or ranks above the role and above all the user's roles, and possesses its codes |
| RoleAuthority.RevokesExactly | internal/authz/service.go:461-513 | and taken, if the user holds it and an active Owner is left |
| RoleAuthority.PeersAreOutOfReach | internal/authz/repository.go:117-136 | whoever changes a user's grants by assigning or revoking holds Owner, or a role strictly above everything the user held |
| RoleAuthority.DeletesExactly | internal/authz/service.go:382-414 | a role is deleted exactly if it is no system role, no invitation names it and the actor commands it; its grants go with it |
| RoleAuthority.EditsExactly | internal/authz/service.go:312-376 | codes are replaced exactly by an actor who commands the role with the new ones, all of the catalog, org:manage staying with Owner, at the revision sent |
| RoleAuthority.CreatesExactly | internal/authz/service.go:135-171 | a role of rank 100 is created exactly by an actor who commands that rank with its codes, without org:manage, under a free slug |
| RoleAuthority.InvitesExactly | internal/authz/service.go:256-277 | an inviter is cleared for a role exactly if they command it |
| RoleAuthority.SeededRolesRankFirst | migrations/000008_search_and_triggers.up.sql:36-55 | from registration on the five seeded roles stay, with their ranks, above every role ever created |
| Coalition.MoveIsJustified | internal/authz/service.go:220-254 | whatever a move brings within the coalition's reach, a member could have delegated |
| Coalition.PermissionsNeverGrow | internal/authz/service.go:135-171 | no run of a coalition, invitations and recruits included, takes its permissions beyond the union it began with |
| Coalition.RankNeverImproves | internal/invitations/service.go:91-113 | a coalition without Owner never gets one, and its best rank never improves |
| OwnerLock.AnOwnerAlwaysRemains | internal/authz/service.go:461-513 | with revocations interleaved at lock granularity an active Owner always remains |
| OwnerLock.OwnerIffOrgManage | internal/authz/repository.go:74-82 | in every state of such runs, holding Owner and having org:manage are the same for every user |
| OwnerLock.RowLockExcludes | internal/authz/repository.go:86-93 | two transactions are never past the lock of one role row |
| OwnerLock.SerialRevokeIsAtomic | internal/authz/service.go:461-513 | uninterrupted, the five steps commit what the atomic mutation does and release their lock |
| PermissionCache.Cache.UserPermissions | internal/authz/service.go:78-94 | a hit is answered from the cache, a miss from the query, and then the entry holds the answer |
| PermissionCache.Cache.SetUserPermissions | internal/platform/cache/cache.go:184-193 | the entry is a hit for exactly TTL seconds and no other entry changes |
| PermissionCache.Cache.InvalidateHolders | internal/authz/service.go:363-373 | after an edit or deletion exactly the holders' entries are gone |
| PermissionCache.Cache.InvalidateAfter | internal/authz/service.go:312-513 | after an edit or deletion exactly the entries of the looked-up holders are gone, after an assignment or revocation exactly its user's |
| PermissionCache.MutationTouchesInvalidated | internal/authz/repository.go:392-401 | a mutation changes the permissions of nobody it does not invalidate, except that an accepted invitation adds exactly its role's codes |
| PermissionCache.CacheRefinesQuery | internal/authz/service.go:78-109 | the cached HasPermission never says yes where the query says no, and says no where it says yes exactly for codes that an invitation accepted since the fill gave |
| PermissionCache.AnswerIsRightExactly | internal/authz/service.go:78-94 | the whole answer is right exactly if there is no entry or it already held everything those invitations gave |
| PermissionCache.AcceptedRoleIsNotServed | migrations/000012_invitation_apikey_lookup.up.sql:97-99 | a user who asks and then redeems an invitation is not served the new role's codes |
| CacheStaleness.AnswersAreBoundedlyStale | internal/platform/cache/cache.go:165-202 | under every interleaving an answer was the truth when the very fill that wrote it read it, and that fill wrote less than TTL ago |
| CacheStaleness.SettledExactly | internal/authz/service.go:78-94 | until the next change every answer is the truth exactly if no unexpired entry and no reader between query and write holds another set |
| CacheStaleness.InvalidationSufficesExactly | internal/authz/service.go:115-119 | for a user whose entry is invalidated, a mutation leaves nothing stale behind exactly if no reader holds a set read before the change |
| CacheStaleness.FillAfterInvalidationIsServed | internal/platform/cache/cache.go:38-42 | a fill that read before a mutation and wrote after its invalidation is served until the TTL runs out |
| CacheRaces.SettledExactly | internal/authz/service.go:78-94 | until the next change every answer to every user is the truth exactly if no unexpired entry and no reader between query and write holds another set |
| CacheRaces.LoopSettlesExactly | internal/authz/service.go:362-376 | however a mutation's invalidations interleave, nothing stale is left for anyone exactly if at its commit no reader holds an outdated set and no outdated entry is another user's than those looked up |
| CacheRaces.EditSettlesExactly | internal/authz/service.go:320-376 | over runs, for an edit or deletion: exactly if no reader holds an outdated set and every user with an entry whose permissions change held the role at the lookup |
| CacheRaces.ChangedUserIsHolder | internal/authz/repository.go:388-401 | an edit or deletion changes the permissions of holders of its role only |
| CacheRaces.MissedUserWasGranted | internal/authz/service.go:382-414 | a changed user whom the lookup missed was granted the role between lookup and commit, by an assignment or an invitation to it |
| CacheRaces.LateHolderIsServedOldCodes | internal/authz/service.go:320-324 | in every organization, a user who is assigned the role after the lookup and asks before the commit is still served the removed code after the loop, with no reader pending |
| CacheRaces.LateHolderExists | internal/authz/service.go:419-457 | such an organization, edit and assignment exist for every code but org:manage |
| QuotaGate.UseIsBounded | internal/billing/service.go:175-282 | with at most k requests between count and insert, each adding at most b, what is used stays within the limit plus (k - 1) * b |
| QuotaGate.RushGetsIn | internal/projects/service.go:74-107 | if the first of k requests of one size fits, all k get in, never more than k at once |
| ProjectQuota.OvershootIsBounded | internal/projects/service.go:74-107 | with at most k creates in flight the live projects stay within the limit plus k - 1 |
| ProjectQuota.OvershootIsReached | internal/projects/service.go:74-78 | that bound is reached for every k and every limit above zero, with never more than k creates at once |
| ProjectQuota.OnlyDeletesCorrect | internal/projects/service.go:74-78 | at or over the limit no run of creates and renames changes which projects are live |
| ProjectQuota.FreeSlugExactly | migrations/000004_teams_projects_invitations.up.sql:55 | a create past its check and a rename of a live project go through exactly if every project with that slug is deleted |
| ProjectQuota.SlugsStayUnique | internal/projects/service.go:57-111 | however creates and renames interleave, live projects have different slugs |
| ProjectQuota.ProjectService.CheckProjectQuota | internal/billing/service.go:175-189 | allows exactly counts below the limit, and everything without one |
| ProjectQuota.ProjectService.Create | internal/projects/service.go:57-111 | one uninterrupted create is the run count, check, insert, with its refusals in order; a serial one never exceeds the limit |
| ProjectQuota.ProjectService.Delete | internal/projects/repository.go:127-141 | removes exactly that project from the live ones |
| SeatQuota.SeatsAreBounded | internal/billing/service.go:194-215 | seats plus open invitations stay within the plan when requests are serial, and within k - 1 of it with k at once |
| SeatQuota.SeatBoundIsReached | internal/invitations/service.go:107-132 | k requests from one below the plan, never more than k at once, reach that bound |
| SeatQuota.EachUserTakesOnePlace | internal/billing/repository.go:166-184 | a user takes one place exactly while neither deleted nor disabled |
| SeatQuota.EachInvitationTakesOnePlace | internal/billing/repository.go:166-184 | an invitation takes one exactly while pending and not past its expiry |
| SeatQuota.DisablingFreesOnePlace | internal/billing/repository.go:166-184 | disabling an active user frees exactly one place |
| SeatQuota.RoleEngineAgrees | migrations/000012_invitation_apikey_lookup.up.sql:43-103 | issuing, settling and redeeming are the role engine's operations seen without grants; redeeming also grants the invitation's role |
| SeatQuota.RedeemingMovesThePlace | migrations/000012_invitation_apikey_lookup.up.sql:43-103 | redeeming turns the invitation's place into a seat, so the count never grows |
| SeatQuota.SweepIsUnobserved | internal/invitations/repository.go:199-215 | the expiry sweep changes neither what counts nor what can be redeemed |
| SeatQuota.SettledStaysSettled | internal/invitations/repository.go:84-99 | accepted, revoked and expired are final |
| SeatQuota.RedeemedAtMostOnce | migrations/000012_invitation_apikey_lookup.up.sql:67-76 | of any number of redemptions of one invitation at most one succeeds |
| SeatQuota.RunKeepsOnePendingEach | migrations/000004_teams_projects_invitations.up.sql:106-109 | no email ever has two pending invitations |
| SeatQuota.InvitationService.CheckSeatQuota | internal/billing/service.go:191-215 | allows exactly while seats and open invitations together are below the plan's seats |
| SeatQuota.InvitationService.Create | internal/invitations/service.go:91-162 | one uninterrupted request is the run count, check, issue, with its refusals in order |
| SeatQuota.InvitationService.UpdateStatus | internal/invitations/repository.go:84-99 | the guarded transition changes the row exactly if it had the expected status |
| SeatQuota.InvitationService.Revoke | internal/invitations/service.go:178-197 | revokes exactly a pending invitation |
| SeatQuota.InvitationService.Accept | migrations/000012_invitation_apikey_lookup.up.sql:43-103 | claims exactly a redeemable invitation and adds a user only if the email is no member |
| SeatQuota.InvitationService.Expire | internal/invitations/repository.go:199-215 | expires exactly the pending invitations past their expiry, leaves every other row alone and counts them |
| StorageQuota.RefusalIsExact | internal/billing/service.go:275-276 | in 64-bit arithmetic the test equals the unbounded comparison for every limit that fits, without overflow |
| StorageQuota.StorageIsBounded | internal/billing/service.go:260-282 | stored bytes never exceed the plan over serial uploads and deletes, and by less than k largest uploads with k at once |
| StorageQuota.StorageBoundIsReached | internal/files/service.go:70-98 | k uploads of the largest size, never more than k at once, reach that bound |
| StorageQuota.FileService.StorageBytes | internal/billing/repository.go:166-184 | the loop computes the sum of all stored sizes |
| StorageQuota.FileService.CheckStorageQuota | internal/billing/service.go:258-282 | refuses exactly a size that is not positive or that the 64-bit test refuses |
| StorageQuota.FileService.Upload | internal/files/service.go:47-115 | one uninterrupted upload is the run count, check, record, with its refusals |
| RateLimiter.UnobservableExactly | internal/middleware/ratelimit.go:55-68 | the evicting limiter accepts the same requests as one that never evicts, in all runs, exactly if an idle period refills a bucket |
| RateLimiter.ThreeMinutesSuffice | internal/routes/routes.go:188-190 | a burst of at most three minutes' requests is enough for that |
| RateLimiter.WindowBound | internal/middleware/ratelimit.go:28-38 | in any window an IP gets at most the burst and what the rate earns in that time |
| RateLimiter.AcceptsExactly | internal/middleware/ratelimit.go:28-81 | in every run a request is accepted exactly if, in every window that ends with it, its IP's accepted requests number at most the burst and what the rate earns |
| RateLimiter.IPRateLimiter.GetVisitor | internal/middleware/ratelimit.go:40-53 | a new visitor gets a full bucket, a known one keeps its own, both are seen now |
| RateLimiter.IPRateLimiter.Handle | internal/middleware/ratelimit.go:70-81 | accepts exactly if a token is there, and a refusal takes none |
| RateLimiter.IPRateLimiter.Cleanup | internal/middleware/ratelimit.go:55-68 | one sweep removes exactly the visitors idle for more than three minutes |
| Broker.StreamIsSubsequence | internal/realtime/hub.go:138-238 | on either transport a subscriber sees an in-order, duplicate-free subsequence of its own channel's events between subscribe and unsubscribe |
| Broker.CompleteExactly | internal/realtime/hub.go:138-159 | it is all of them exactly if nothing was dropped, without Redis exactly if no event met a full buffer |
| Broker.OverflowMeansFull | internal/realtime/hub.go:145-150 | an event is dropped at the buffer only when all 32 slots are taken |
| Broker.MapHoldsOpenSubscriptions | internal/realtime/hub.go:166-191 | the map holds exactly the open subscriptions and no empty inner set |
| Broker.Broker.PublishLocal | internal/realtime/hub.go:142-151 | the loop offers the event to exactly the listed subscribers, once each |
| Broker.Broker.Open | internal/realtime/hub.go:158-171 | registers exactly this subscription |
| Broker.Broker.Close | internal/realtime/hub.go:178-191 | unregisters it, leaves no empty set, and a second call does nothing |
| Broker.Broker.ForwardOne | internal/realtime/hub.go:219-234 | moves the oldest queued event into the buffer or drops it |
| Slug.Make | pkg/slug/slug.go:27-51 | the pipeline yields the words of the name joined by single hyphens, cut at 63 |
| Slug.MakeIsIdempotent | pkg/slug/slug.go:27-60 | Make is idempotent and its result is empty or valid, also when the cut lands on a hyphen |
| Slug.ValidIsTheGrammar | pkg/slug/slug.go:53-60 | Valid accepts exactly 1 to 63 characters of [a-z0-9] words joined by single hyphens |
| Slug.EmptyMeansNoWord | pkg/slug/slug.go:23-26 | the result is empty exactly if the name has no letter or digit left after folding |
| Slug.CutIsLongestPrefix | pkg/slug/slug.go:46-49 | a longer result is cut to its longest prefix of at most 63 characters that does not end in a hyphen |
| Slug.AccentsSeparate | pkg/slug/slug.go:30-43 | a character outside ASCII separates like a space; the accented letter of the source's example is dropped |
| Slug.Resolve | pkg/slug/slug.go:62-81 | only valid slugs come out, an explicit one unchanged |
| Pagination.FetchAllPages | internal/routes/web/assets/app.js:930-952 | returns exactly the list, in max(1, ceil(n/100)) requests, and throws exactly for lists longer than the cap |
| Pagination.PagesAreTheList | pkg/apiresponse/apiresponse.go:31-37 | the announced pages joined are the list, every item once and in order |
| Pagination.TotalPagesIsLeast | pkg/apiresponse/apiresponse.go:31-37 | TotalPages is the least number of pages that hold the total |
| Pagination.QueriesAreClamped | pkg/apiresponse/apiresponse.go:45-67 | every query is clamped to a page of 1 to 100 rows, served as asked within that range, and ListUsers' own clamp then changes nothing |

## Left out

- HTTP handlers, routing, CORS, logging, mail, configuration, database connection: input and output only.
- `createGenerationOwner`, teams, preferences, audit and activity recording, admin counts: easy or best-effort.
- Cryptography: bcrypt, SHA-256, JWT and random tokens. A secret is identified with the row its hash selects.
- PostgreSQL isolation below explicit row locks: a transaction is one step, except role revocation.
- Row-level security: one tenant at a time, or a tenant comparison where a statement is scoped.
- OAuth: the network exchange, account linking, and users it creates automatically, which no seat check covers; its login
  enters the token runs where ValidateCredentialState passed.
- A password login reads its user and its tenant one after the other: one step here.
- `ChangePlan` and subscription lookup: the plan is fixed in the quota results.
- Rate limiter arithmetic in floating point, and the gap between taking a visitor from the map and asking its bucket:
  a request is one step in exact arithmetic.
- Broker: malformed ids and payloads do not occur, and a nil broker is not modelled.
- Broker.Broker.PublishLocal: publishes run one at a time, where the source's read lock lets several run together and
  reach different subscribers in different orders.
- Browser storage failures: a session is in memory and storage alike.
- Slugs of invalid UTF-8: a name is a sequence of characters.
- SeatQuota.InvitationService.Create: email normalisation is left out, and what resolveRole and CanDelegateRole answered
  are parameters (the latter is `Rbac.DelegateVerdict`).
- SeatQuota.InvitationService.Accept: models the SQL function; the password length check and the preview before it are left out.
- ProjectQuota.ProjectService.Create: what slug.Resolve made of the request is a parameter (`Slug.Resolve` is modelled apart).
- Pagination.FetchAllPages: the list does not change between pages, and the server always sends its metadata.
- StorageQuota.FileService.Upload: what cleanFilename answered and whether the object store succeeded are parameters, and
  only the ledger of sizes is modelled.
