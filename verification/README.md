# Accounts, sessions and one-time tokens of the users service

A Dafny model of `users_service`: its account, session and one-time-token use cases over one
database, the authentication cache and the two rate limiters beside it, and the stored form of
password hashes. `dafny verify dfyconfig.toml` checks the whole project.

## How it is built

- `Entities`, `Tables`: rows, entities, and what each repository query and statement computes.
- `Transactions`: each use case as one serial transaction on values: the database afterwards and
  the reply, error cases included. It is the specification the imperative code is proved against.
- `Persistence`: the store, the transaction with its working copy, the repositories that update it
  in place, the unit of work. Any repository call and any commit may fail.
- `UseCases`: the use cases as methods over these classes, the cache, the limiter and the outbox,
  in the source's order of calls. Each commits its specified transaction, or the database failed
  and nothing was written.
- `World`, `Preservation`: the service as a state machine of 19 actions, its invariant, and the
  proof that every action keeps it. Beside the database the state remembers the tokens issued, the
  login each session descends from and the address each one-time secret was mailed to.
- `Frames`, `AccountEffects`, `SessionEffects`, `PasswordEffects`, `ModerationEffects`, `RoleEffects`:
  what each transaction does to every table, and when it succeeds, stated row by row.
- `Theorems`, `Profiles`, `Passwords`, `Conservation`: what follows for every run.
- `UserCache`, `CachedAuthentication`, `CacheRefinement`, `Staleness`: the cached form of a user and
  its round trip; when the cache is invisible; how old a served user can be.
- `RateLimiter`, `RedisWindow`: both limiters, their equivalence, the fixed-window bound of each and
  when the window slides.
- `LoginLimits`, `Lockout`, `RedisLockout`: login attempts among all other limited requests, on
  either limiter.
- `SampleRun`: a run that signs in, refreshes and signs out, from any seeded database.
- `PasswordHasher`, `Text`: the `$`-separated hash format, and the string functions it and the
  account names need.

## Assumptions

- Use cases commit serially, with one clock reading each, and the clock does not go back.
- A new session's jti is not stored yet, and a new secret's hash is not stored yet.
- A well-signed token presented to refresh or logout is one the service issued.
- `exp` is accepted exactly while now < exp (section 4.1.4 of RFC 7519); instants are whole
  microseconds, and `exp` is truncated to whole seconds.
- Whether a password matches a hash, the key derivation and the hash of a secret are uninterpreted
  functions; `fromisoformat` inverts `isoformat`.
- Runs start from any state that satisfies the invariant; every seeded database of active accounts
  without history does. Ban and unban replay assumes accounts are seeded active.
- The default role of a registration is exact where every stored role link belongs to an account.
- A Redis key is gone at the very instant of its expiry. A server that keeps it until strictly
  after that instant would let one more command of that instant see it.

## Where the code and its documentation differ

- The rate-limiter port speaks of a sliding window (`src/users_service/application/common/interfaces/i_rate_limiter.py:7`).
  Both implementations use a fixed one, which slides if and only if the limit is at most 1 or the
  window is empty (`FixedWindow.SlidesExactly`); on whole seconds, also if it is one second long
  (`RedisWindow.RedisSlidesExactly`). The documented factor of 2 is never reached: the largest count
  in any window-length interval is `2 * limit - 1`, and it is attained.
- `AuthenticateUseCase` says the cache is invalidated when a user's roles change
  (`src/users_service/application/auth/usecases/authenticate_usecase.py:22-25`). Edits of a role itself (granting or revoking
  a permission, deleting the role) delete no key. `StaleReply` gives the exact condition under which
  a stale user is then served, and `GrantNotSeen` a concrete case.
- The cache key is deleted after a user-level edit so that the change is visible on the next request
  (`src/users_service/application/auth/usecases/update_user_usecase.py:32-33`). It is, for good, if and only if at the delete no
  request that read an older user may still write it back (`Staleness.NextRequestSeesEdit`). When
  one does, the old user is served, for less than the bound of `Staleness.BoundedStaleness`.
- `revoke_all_for_user` is documented to revoke live sessions
  (`src/users_service/application/common/interfaces/repositories/i_session_repository.py:41`). It also counts
  expired sessions that were never revoked: its count is the number of active sessions if and only
  if there are none of these (`Conservation.ReportCountsExpired`). The conserved quantity is
  therefore unrevoked sessions, not active ones.
- A replayed refresh token is refused, but the session that replaced its own stays valid
  (`Theorems.HeirSurvivesReplay`).

## Model

| member | source | states |
|---|---|---|
| Theorems.RotationChain | src/users_service/application/auth/usecases/refresh_token_usecase.py:47-83 | In every reachable state, of the sessions descending from one login only the newest can be unrevoked, and all share owner and `created_at` |
| Theorems.NoTokenRefreshesTwice | src/users_service/application/auth/usecases/refresh_token_usecase.py:25-32 | No refresh token is accepted twice in any run |
| Theorems.RefreshedIsSpent | src/users_service/adapter/database/repositories/session_repository.py:63-69 | Once a refresh token was accepted, every token with its jti is rejected by authenticate and refresh in every later state, with any cache contents |
| Theorems.ReplayChangesNothing | src/users_service/application/auth/usecases/refresh_token_usecase.py:25-32 | Replaying a refresh token that was accepted before, at any later time, leaves the database as it was |
| Theorems.HeirSurvivesReplay | src/users_service/application/auth/usecases/refresh_token_usecase.py:47-83 | A replay right after the refresh leaves the session that replaced its own unrevoked |
| Theorems.SignOutBarrier | src/users_service/adapter/database/repositories/session_repository.py:71-90 | After an effective password change, reset, ban, self-delete or revoke-all, every token issued to the user before is rejected in every later state of every run, also after an unban; a spared jti is the only exception |
| Theorems.SignOutClearsList | src/users_service/application/users/usecases/revoke_all_sessions_usecase.py:31-44 | Right after such a sign-out the user's list of active sessions shows at most the spared one |
| Theorems.InactiveIsSignedOut | src/users_service/application/moderation/usecases/ban_user_usecase.py:59-78 | In every reachable state every token of an inactive account is rejected, whatever the cache contains |
| Theorems.RefreshAcceptance | src/users_service/entities/session/models.py:52-65 | In every reachable state an issued refresh token is accepted if and only if now < exp, its session is unrevoked and its user is active; the session's own expiry never decides |
| Theorems.AccessAcceptance | src/users_service/application/auth/usecases/authenticate_usecase.py:40-55 | In every reachable state an issued access token yields its user exactly while now < exp and its session is unexpired and unrevoked; that the user is active follows |
| Theorems.OneListedPerLogin | src/users_service/adapter/database/repositories/session_repository.py:48-61 | In every reachable state the list of active sessions shows at most one session of each login |
| Theorems.ListedExactly | src/users_service/adapter/database/repositories/session_repository.py:48-61 | The list of active sessions holds exactly the user's sessions whose derived status is active |
| Theorems.OneUnspentToken | src/users_service/adapter/database/repositories/security_token_repository.py:60-72 | In every reachable state a user has at most one unspent one-time token of each purpose |
| Theorems.SecretSpentOnce | src/users_service/adapter/database/repositories/security_token_repository.py:49-58 | A secret that succeeded once is refused, for both purposes, in every later state of every run |
| Theorems.WrongPurpose | src/users_service/adapter/database/repositories/security_token_repository.py:37-47 | In every reachable state a secret stored for one purpose is refused for the other and changes nothing |
| Theorems.LinkAcceptance | src/users_service/entities/security_token/models.py:33-42 | In every reachable state a secret works for a purpose if and only if some stored row of that purpose has its hash, is unspent and unexpired, and its owner is active |
| Theorems.EarlierResetLinksDie | src/users_service/application/auth/usecases/forgot_password_usecase.py:66-82 | After a newer reset link, a completed reset or a password change, every reset link the user had before is refused in every later state |
| Theorems.VerifiedAddress | src/users_service/application/auth/usecases/update_user_usecase.py:54-85 | In every reachable state, a verified account that was not seeded has a spent verification link mailed to exactly its present address, and every unspent link was mailed to the present address of a not yet verified account |
| Theorems.AuditReplay | src/users_service/adapter/database/repositories/audit_log_repository.py:21-32 | The log only grows, and replaying a user's bans and unbans from active gives exactly `is_active` |
| Theorems.VariantFindsAccount | src/users_service/application/auth/usecases/login_usecase.py:69-75 | Any case or surrounding-space variant of a stored address finds that one account |
| Theorems.NamesAreUnique | src/users_service/application/auth/usecases/register_user_usecase.py:73-83 | In every reachable state no two accounts share an address or a handle |
| Theorems.ErrorsChangeNothing | src/users_service/application/auth/usecases/login_usecase.py:80-97 | A business error leaves the database as it was, except that a failed login appends exactly one LOGIN_FAILED row naming the account found |
| Theorems.SeededStart | README.md:274-280 | Every database of active accounts with normal, distinct names and no history satisfies the invariant the runs start from |
| SampleRun.SignInRefreshSignOut | src/users_service/application/auth/usecases/login_usecase.py:99-130 | From every seeded database every user whose password matches has a lawful run that signs in, refreshes before exp and signs out everywhere, so the rotation and sign-out theorems speak of runs that exist |
| Preservation.StepKeepsInv | README.md:264-272 | Every use case keeps the whole invariant: accounts, sessions, issued tokens, rotation chains, one-time tokens, address provenance, audit replay |
| Preservation.RunKeepsInv | README.md:264-272 | Every state of every run satisfies the invariant |
| Preservation.RunGoesForward | src/users_service/adapter/database/repositories/session_repository.py:63-90 | Along every run sessions and one-time tokens are only added or stamped, a stamp is final, issued tokens stay issued, and the log only grows |
| Preservation.RotationHeirs | src/users_service/application/auth/usecases/refresh_token_usecase.py:59-83 | Stamping one live session and adding its heir keeps every chain in order |
| Preservation.StampedChain | src/users_service/application/auth/usecases/refresh_token_usecase.py:59-80 | Once its predecessor is stamped nothing in the chain is live, so the heir may join |
| Preservation.GenuineOwner | src/users_service/adapter/security/token_service.py:69-80 | An issued token's jti leads to one stored session, of the token's own user |
| Preservation.TokenReplaced | src/users_service/application/auth/services/email_verification_issuer.py:37-59 | Spending the outstanding link and adding the next keeps the one-unspent-token invariant |
| Preservation.VerifyProves | src/users_service/application/auth/usecases/verify_email_usecase.py:47-71 | A successful verification leaves a spent link addressed to the address it verified |
| Preservation.AuditStepOk | src/users_service/application/moderation/usecases/unban_user_usecase.py:37-49 | Every action changes `is_active` exactly as the row it appends says |
| Passwords.PasswordHistory | src/users_service/adapter/database/repositories/user_repository.py:75-80 | In every reachable state the stored hash is the one of the user's latest effective registration, change or reset; no profile edit touches it |
| Passwords.LoginAcceptance | src/users_service/application/auth/usecases/login_usecase.py:74-97 | In every reachable state credentials are accepted if and only if the normalised address is an account's, the log says it is active, and the password matches its latest hash |
| Conservation.SessionConservation | src/users_service/adapter/database/repositories/session_repository.py:71-90 | For every user and run: unrevoked sessions = LOGIN rows - audited sessions_revoked - single revocations that took effect; refresh is neutral |
| Conservation.StepBalance | src/users_service/application/users/usecases/revoke_all_sessions_usecase.py:31-44 | Every action keeps that balance, except that an effective single revocation lowers it by one |
| Conservation.RefreshBalance | src/users_service/application/auth/usecases/refresh_token_usecase.py:47-83 | A refresh, accepted or not, contributes zero net |
| Conservation.SingleStamp | src/users_service/adapter/database/repositories/session_repository.py:63-69 | Revoking one jti removes exactly one live session, of its owner, if it was live |
| Conservation.BulkStamp | src/users_service/adapter/database/repositories/session_repository.py:71-90 | A bulk revocation removes exactly the number of unrevoked rows it reports and none of another user |
| Conservation.ReportCountsExpired | src/users_service/application/common/interfaces/repositories/i_session_repository.py:34-46 | The count of a full sign-out is never below the number of active sessions, and equal to it if and only if no unrevoked session of the user has expired |
| Conservation.ExpiredIsReported | src/users_service/adapter/database/repositories/session_repository.py:71-90 | A concrete user with one expired, never revoked session: none is active, one is reported |
| AccountEffects.RegisterSucceeds | src/users_service/application/auth/usecases/register_user_usecase.py:70-83 | Registration succeeds if and only if the passwords agree and both normalised names are free, and reports the first violation in that order |
| AccountEffects.RegisterAdds | src/users_service/application/auth/usecases/register_user_usecase.py:84-112 | A registration adds exactly one account, active, unverified and no superuser, with the given data in normal form, one verification link that lives verificationHours hours, and one log row; older accounts, links and sessions stay as they are |
| AccountEffects.RegisterGrantsDefaultRole | src/users_service/application/auth/usecases/register_user_usecase.py:95-99 | The new account's loaded roles are exactly the role with the default name, or none if there is none, and every older account loads as before |
| Profiles.RegistrationsAdd | src/users_service/application/auth/usecases/register_user_usecase.py:76-118 | Both hold in every reachable state |
| AccountEffects.UpdateSucceeds | src/users_service/application/auth/usecases/update_user_usecase.py:49-71 | An edit succeeds if and only if the account exists and no other account has the new address or handle |
| Profiles.EditsSucceed | src/users_service/application/auth/usecases/update_user_usecase.py:49-71 | That holds in every reachable state |
| AccountEffects.UpdateWrites | src/users_service/application/auth/usecases/update_user_usecase.py:54-74 | Each given field of the edit arrives in normal form in the stored row and the reply, each absent one keeps its value; a changed address is unverified, and hash, activity and superuser flag stay |
| AccountEffects.UpdateLeaves | src/users_service/application/auth/usecases/update_user_usecase.py:49-80 | An edit touches no session, log row, role or link of roles |
| AccountEffects.UpdateLinks | src/users_service/application/auth/usecases/update_user_usecase.py:76-85 | An edit that leaves the account unverified spends its older verification links and mints one that lives verificationHours hours; any other edit touches no link |
| AccountEffects.VerifyStamps | src/users_service/application/auth/usecases/verify_email_usecase.py:47-74 | A successful verification spends one usable link and stamps its owner with the time unless it was verified already; every other column of the account, every other account, session and link stays, and one log row names the address |
| Profiles.ProfileHistory | src/users_service/adapter/database/repositories/user_repository.py:59-73 | In every reachable state address, handle, display name, verification stamp, superuser flag, visitor and creation time of every account are exactly what its registration, edits and verifications give; nothing else changes them |
| Profiles.VerifiedExactly | src/users_service/application/auth/usecases/verify_email_usecase.py:60-62 | In every reachable state an account is verified if and only if its latest event among registration, change of address and successful verification is a verification, or it started verified and had none of them |
| Profiles.SuperusersWereSeeded | src/users_service/application/auth/usecases/register_user_usecase.py:84-94 | In every reachable state the superusers are exactly the accounts seeded as superusers |
| SessionEffects.LoginHandsOut | src/users_service/application/auth/usecases/login_usecase.py:99-143 | A login hands out an access and a refresh token, each of its kind and lifetime, for the active account of that address whose password matches, and opens one session from that device that lives as long as the refresh token |
| SessionEffects.LoginRefused | src/users_service/application/auth/usecases/login_usecase.py:80-97 | A refused login adds only one log row, which names the account found and tells unknown, inactive and bad password apart |
| SessionEffects.RefreshHandsOver | src/users_service/application/auth/usecases/refresh_token_usecase.py:47-94 | A refresh ends exactly the presented session and hands out an access and a refresh token, each of its kind and lifetime, for one new session that keeps the start of the old one and each device field the request does not know |
| SessionEffects.GrantedTokensWork | src/users_service/adapter/security/token_service.py:40-80 | In every later state of every run a token handed out works for its own purpose exactly while its session is unrevoked and its lifetime lasts: the access token, until accessMinutes in whole seconds and the session's end, authenticates its user; the refresh token, until refreshMinutes in whole seconds, refreshes |
| SessionEffects.AuthenticateAnswers | src/users_service/application/auth/usecases/authenticate_usecase.py:40-55 | A token authenticates if and only if it is an unexpired access token whose session is stored, unrevoked and unexpired and whose user is active; the reply is that user |
| SessionEffects.LogoutEnds | src/users_service/application/auth/usecases/logout_usecase.py:25-41 | Logout always succeeds; with a token that decodes it ends exactly that session and logs it for the token's user, else it changes nothing |
| SessionEffects.RevokeOneEnds | src/users_service/application/users/usecases/revoke_user_session_usecase.py:31-45 | A user ends exactly one session of its own; any other id is not found and changes nothing |
| SessionEffects.RevokeAllEnds | src/users_service/application/users/usecases/revoke_all_sessions_usecase.py:31-44 | Revoke-all ends exactly the user's unrevoked sessions but the spared one, and replies and logs their number and scope |
| SessionEffects.CountIsExact | src/users_service/adapter/database/repositories/session_repository.py:84-90 | The reported row count is the number of unrevoked sessions named by the statement |
| SessionEffects.ListedNewestFirst | src/users_service/adapter/database/repositories/session_repository.py:57-61 | The device list is in strictly descending order of ids |
| PasswordEffects.ChangeSucceeds | src/users_service/application/auth/usecases/change_password_usecase.py:58-76 | A change succeeds if and only if the replacements agree, the account exists, the current password is right and the new one is another; a refusal changes nothing |
| PasswordEffects.ChangeTakesEffect | src/users_service/application/auth/usecases/change_password_usecase.py:77-97 | A change stores the new hash and no other column, spends exactly the user's reset links, ends exactly its unrevoked sessions and replies and logs their number |
| PasswordEffects.ForgotTakesEffect | src/users_service/application/auth/usecases/forgot_password_usecase.py:61-82 | The reply never tells; a known active address gets one reset link that lives resetMinutes minutes and loses its older ones, any other address changes nothing |
| PasswordEffects.ResetTakesEffect | src/users_service/application/auth/usecases/reset_password_usecase.py:67-95 | A reset needs an unspent, unexpired reset link of an active account; it stores the new hash, spends the user's reset links, ends exactly its unrevoked sessions and logs their number |
| PasswordEffects.ResetRefused | src/users_service/application/auth/usecases/reset_password_usecase.py:62-76 | Unequal passwords are reported first, an unusable link or owner as an invalid token, and nothing changes |
| PasswordEffects.MailedSecretsWork | src/users_service/entities/security_token/models.py:33-42 | In every later state of every run a mailed secret works for its own purpose exactly while it is unspent, its owner active and its lifetime not over: verificationHours hours to verify, resetMinutes minutes to reset |
| ModerationEffects.BanSpares | src/users_service/application/moderation/usecases/ban_user_usecase.py:48-60 | A ban succeeds if and only if the target is another, existing account and no superuser; each refusal has its own error and changes nothing |
| ModerationEffects.BanTakesEffect | src/users_service/application/moderation/usecases/ban_user_usecase.py:59-81 | A ban turns an active account off, ends exactly its unrevoked sessions and logs actor, reason and their number; an inactive one is left as it is |
| ModerationEffects.UnbanTakesEffect | src/users_service/application/moderation/usecases/unban_user_usecase.py:32-52 | An unban turns an inactive account on and logs the actor, and touches no session; an active one is left as it is |
| ModerationEffects.DeleteTakesEffect | src/users_service/application/auth/usecases/delete_user_usecase.py:32-50 | Deleting oneself turns the account off with no actor and a fixed reason |
| RoleEffects.AssignTakesEffect | src/users_service/application/access_control/usecases/assign_role_to_user_usecase.py:27-40 | An existing role is linked to an existing user once, no other link changes, and the reply is the user as stored |
| RoleEffects.RevokeTakesEffect | src/users_service/application/access_control/usecases/revoke_role_from_user_usecase.py:18-29 | Exactly one link is removed, and the reply is the user as stored |
| RoleEffects.GrantTakesEffect | src/users_service/application/access_control/usecases/grant_permission_to_role_usecase.py:20-31 | An existing permission is granted to an existing role once, no other grant changes |
| RoleEffects.UngrantTakesEffect | src/users_service/application/access_control/usecases/revoke_permission_from_role_usecase.py:15-24 | Exactly one grant is removed |
| RoleEffects.DeleteRoleTakesEffect | src/users_service/application/access_control/usecases/delete_role_usecase.py:13-18 | Deleting a role removes it with exactly its own links to users and permissions |
| RoleEffects.RoleLoaded | src/users_service/adapter/database/repositories/role_repository.py:26-28 | A loaded role is the stored one with exactly the permissions granted to it |
| RoleEffects.UserLoaded | src/users_service/adapter/database/repositories/user_repository.py:37-39 | A loaded user is the stored row with exactly the roles it is linked to |
| RoleEffects.LinksStayOwned | src/users_service/adapter/database/repositories/user_repository.py:82-103 | If every role link belongs to an account at the start, it does in every reachable state |
| CachedAuthentication.MissFillsCache | src/users_service/application/auth/usecases/authenticate_usecase.py:57-69 | A miss leaves the loaded user readable for exactly the TTL, a hit or a token turned away leaves the cache alone, and no other key is touched |
| Throttling.AdmittedBound | src/users_service/application/auth/usecases/register_user_usecase.py:120-134 | In any interval of the window's length at most 2 * limit - 1 requests on one counter are let through |
| Throttling.FirstRequestsAdmitted | src/users_service/application/auth/usecases/forgot_password_usecase.py:98-120 | The first limit requests are let through, and all of them if the rule is not enforced |
| CacheRefinement.CacheIsTransparent | src/users_service/application/auth/usecases/authenticate_usecase.py:40-69 | On every run whose role-level edits are harmless when they happen, authenticating through the cache returns exactly what it returns with no cache |
| CacheRefinement.UserLevelRunsAreHarmless | src/users_service/application/access_control/usecases/assign_role_to_user_usecase.py:34-39 | Runs without grant-permission, revoke-permission and delete-role steps meet that condition |
| CacheRefinement.ViewKept | src/users_service/application/access_control/usecases/revoke_role_from_user_usecase.py:18-29 | Outside role-level edits an action changes the loaded form, roles and permissions included, of no user but the one whose key it deletes |
| CacheRefinement.RoleEditChanges | src/users_service/adapter/database/repositories/role_repository.py:41-72 | A role-level edit changes a loaded user if and only if it is effective and the user holds the role |
| CacheRefinement.RoleEditFreshness | src/users_service/application/access_control/usecases/grant_permission_to_role_usecase.py:20-31 | A role-level edit deletes no key; cache and database still agree after it if and only if it changes nothing or no holder of the role has a visible entry |
| CacheRefinement.StaleReply | src/users_service/application/access_control/usecases/delete_role_usecase.py:13-18 | After a role-level edit the reply to an accepted token is stale if and only if the edit is effective, the bearer holds the role and the bearer's entry is visible |
| CacheRefinement.GrantNotSeen | src/users_service/application/access_control/usecases/grant_permission_to_role_usecase.py:20-31 | A concrete database where a granted permission is missing from the next authenticated user |
| CacheRefinement.HoldersLose | src/users_service/application/access_control/usecases/delete_role_usecase.py:13-18 | Deleting a role takes its copies from exactly its holders |
| CacheRefinement.HoldersDiffer | src/users_service/application/access_control/usecases/revoke_permission_from_role_usecase.py:15-24 | Changing what one role grants changes the loaded roles of exactly its holders |
| Staleness.BoundedStaleness | src/users_service/application/auth/usecases/authenticate_usecase.py:57-69 | With cache reads, database reads, write-backs, deletes, commits and replies interleaved freely, every reply carries the user as some database in force less than TTL + D (+ the time from a cache hit to its reply) earlier would load it |
| Staleness.BoundAttained | src/users_service/application/auth/usecases/authenticate_usecase.py:57-69 | The bound cannot be lowered: for all limits, any edit that changes a user can be overtaken by a write-back in spite of its cache delete, and the old user is served one microsecond before the bound |
| Staleness.NextRequestSeesEdit | src/users_service/application/auth/usecases/update_user_usecase.py:32-82 | After an edit and the delete of its key, every later read in every run sees the edited or a newer user, if and only if at the delete no request that read an older user may still write it back; with no request in flight the next request sees the edit |
| Staleness.OvertakerIsSeen | src/users_service/application/auth/usecases/authenticate_usecase.py:60-69 | A request in flight that may still write back an older user makes the next hit return that user |
| Staleness.HitIsRecent | src/users_service/application/auth/usecases/authenticate_usecase.py:60-62 | A hit returns what a database in force less than TTL + D ago would have loaded |
| UserCache.CodecRoundTrip | src/users_service/application/common/user_cache_codec.py:36-104 | Every user, with roles, permissions and absent fields, reads back from the cache unchanged |
| UserCache.KeyInjective | src/users_service/application/common/user_cache_codec.py:24-25 | Different users have different cache keys |
| UserCache.Cache.Get | src/users_service/adapter/cache/redis_cache.py:16-17 | Returns the entry unless it has expired |
| UserCache.Cache.Set | src/users_service/adapter/cache/redis_cache.py:19-20 | Replaces one entry, visible for the TTL from now on |
| UserCache.Cache.Delete | src/users_service/adapter/cache/redis_cache.py:22-23 | Removes one entry and no other |
| FixedWindow.FixedWindowBound | src/users_service/adapter/rate_limit/in_memory_rate_limiter.py:20-55 | Every half-open interval of the window's length contains at most 2 * limit - 1 allowed hits |
| FixedWindow.BoundAttained | src/users_service/adapter/rate_limit/in_memory_rate_limiter.py:20-55 | For every positive limit and window some run has exactly that many |
| FixedWindow.SlidesExactly | src/users_service/application/common/interfaces/i_rate_limiter.py:6-8 | The window slides, that is, every interval of its length holds at most limit allowed hits in every run, if and only if the limit is at most 1 or the window is empty |
| RedisWindow.RedisWindowBound | src/users_service/adapter/rate_limit/redis_rate_limiter.py:10-14 | On a whole-second clock the shared limiter allows at most 2 * limit - 1 hits in any interval of the window's length, one fewer than documented |
| RedisWindow.RedisBoundAttained | src/users_service/adapter/rate_limit/redis_rate_limiter.py:10-14 | For every positive limit and every window from two seconds on that many are allowed in some whole-second run |
| RedisWindow.RedisSlidesExactly | src/users_service/application/common/interfaces/i_rate_limiter.py:6-8 | On a whole-second clock the shared limiter's window slides if and only if the limit is at most 1 or the window at most one second |
| RedisWindow.SameCount | src/users_service/adapter/rate_limit/redis_rate_limiter.py:23-61 | On a whole-second clock both limiters allow the same hits |
| FixedWindow.WindowSplit | src/users_service/adapter/rate_limit/in_memory_rate_limiter.py:20-31 | The allowed hits of an interval split into those of the present window and earlier ones, each within its budget |
| LimiterEquivalence.SameVerdicts | src/users_service/adapter/rate_limit/redis_rate_limiter.py:23-61 | On a non-decreasing whole-second clock both limiters return the same allowed, remaining and retry_after for every sequence of hit, peek and reset |
| LimiterEquivalence.SameVerdict | src/users_service/adapter/rate_limit/in_memory_rate_limiter.py:20-55 | One command keeps every key live in both stores with equal count and expiry, or in neither |
| InMemoryLimiter.RemainingCountsDown | src/users_service/adapter/rate_limit/in_memory_rate_limiter.py:44-55 | remaining is positive exactly if a further hit at this instant is let through, counts down with it, and peek reports the same |
| InMemoryLimiter.RetryTellsWhen | src/users_service/adapter/rate_limit/in_memory_rate_limiter.py:44-55 | On a whole-second clock the next hit after a refused one is let through exactly from retry_after seconds on |
| InMemoryLimiter.InMemoryRateLimiter.Hit | src/users_service/adapter/rate_limit/in_memory_rate_limiter.py:20-31 | Charges one attempt to a live counter or opens a new window; the verdict includes the attempt |
| InMemoryLimiter.InMemoryRateLimiter.Peek | src/users_service/adapter/rate_limit/in_memory_rate_limiter.py:33-38 | Judges one further attempt and changes nothing |
| InMemoryLimiter.InMemoryRateLimiter.Reset | src/users_service/adapter/rate_limit/in_memory_rate_limiter.py:40-41 | Removes one counter and no other |
| RedisLimiter.RedisRateLimiter.Hit | src/users_service/adapter/rate_limit/redis_rate_limiter.py:23-35 | INCR, TTL and, without an expiry, EXPIRE; the verdict includes the attempt |
| RedisLimiter.RedisRateLimiter.Peek | src/users_service/adapter/rate_limit/redis_rate_limiter.py:37-44 | Judges one further attempt from GET and TTL and changes nothing |
| RedisLimiter.RedisRateLimiter.Reset | src/users_service/adapter/rate_limit/redis_rate_limiter.py:46-47 | Removes one key and no other |
| Lockout.CountersBounded | src/users_service/application/auth/usecases/login_usecase.py:145-186 | Serialised login attempts, mixed with any other limited requests, never push a login counter past its limit |
| Lockout.LockHolds | src/users_service/application/auth/usecases/login_usecase.py:158-166 | From a full account counter until its window ends, whatever is requested, the counter stands still and every attempt on the account is refused, the right password included |
| Lockout.RetryAfterIsExact | src/users_service/adapter/rate_limit/in_memory_rate_limiter.py:44-55 | On a whole-second clock the lock ends exactly retry_after seconds from the refusal, whatever is attempted meanwhile |
| Lockout.IpGuardIsExact | src/users_service/application/auth/usecases/login_usecase.py:145-156 | The address guard refuses exactly a known address whose enforced counter is full before its window ends |
| Lockout.LockSpansRetryAfter | src/users_service/application/auth/usecases/login_usecase.py:158-166 | In one run's verdicts: once an attempt was told to come back in n seconds, attempts on the account are refused before and not locked out at that second |
| Lockout.FailedChecksBound | src/users_service/application/auth/usecases/login_usecase.py:168-186 | In one run from empty counters, every window-length interval has at most 2 * limit - 1 failed checks of a subject among consecutive events without a success on it, so between two successes of an account |
| Lockout.FailedChecksPerAddress | src/users_service/application/auth/usecases/login_usecase.py:145-156 | For an address that bound holds over the whole of every run |
| Lockout.SuccessClears | src/users_service/application/auth/usecases/login_usecase.py:132 | Right after a success in a run the account has no counter |
| Lockout.ServeOnKey | src/users_service/application/auth/usecases/login_usecase.py:71-97 | What one event does to a login counter: a request limited elsewhere leaves it untouched |
| LoginLimits.SurfacesApart | src/users_service/application/auth/usecases/forgot_password_usecase.py:98-120 | No register, forgot or reset counter shares a key with a login counter |
| RedisLockout.SharedAnswersAlike | src/users_service/adapter/rate_limit/redis_rate_limiter.py:23-61 | Over a whole-second run with the shared limiter, login attempts get the verdicts the in-memory limiter gives |
| RedisLockout.SharedLockSpansRetryAfter | src/users_service/adapter/rate_limit/redis_rate_limiter.py:37-61 | With the shared limiter too an account is locked for exactly the announced seconds |
| RedisLockout.SharedFailedChecksBound | src/users_service/adapter/rate_limit/redis_rate_limiter.py:10-14 | With the shared limiter too failed checks are bounded, per address and per account between successes |
| Lockout.TryOnKey | src/users_service/application/auth/usecases/login_usecase.py:71-97 | What one attempt does to any login counter: charged once if the check failed and concerns it, cleared by a success on the account, else untouched |
| LoginLimits.KeysDistinct | src/users_service/application/auth/usecases/login_usecase.py:149-190 | An address counter and an account counter never share a key |
| PasswordHasher.VerifyHash | src/users_service/adapter/security/password_hasher.py:27-45 | verify(q, hash(p)) holds if and only if q and p derive the same bytes under the stored salt and count |
| PasswordHasher.FormatInjective | src/users_service/adapter/security/password_hasher.py:27-30 | The printed hash determines iterations, salt and digest |
| PasswordHasher.FormatSplits | src/users_service/adapter/security/password_hasher.py:32-45 | Splitting a printed hash on `$` gives back its four fields |
| Text.HexRoundTrip | src/users_service/adapter/security/password_hasher.py:27-45 | Decoding printed hex gives back the bytes |
| Text.ParseIntText | src/users_service/adapter/security/password_hasher.py:27-45 | Parsing a printed integer gives it back, sign included |
| Text.NormalizeIdempotent | src/users_service/application/auth/usecases/register_user_usecase.py:73-74 | A stripped, lower-cased address is its own normal form |
| Text.VariantNormalizes | src/users_service/application/auth/usecases/login_usecase.py:69 | Case and surrounding space of an address do not matter |
| AuthUseCases.RegisterUser | src/users_service/application/auth/usecases/register_user_usecase.py:64-118 | Account, default role, link and audit row commit together or not at all, as AccountEffects.RegisterAdds says; a fault of the read after the commit is the one error that can follow a commit; mail goes out only after success; the address is charged first |
| AuthUseCases.LoginUser | src/users_service/application/auth/usecases/login_usecase.py:65-143 | Counters, verdict and database follow the specified attempt in all branches; on a database failure nothing is written and at most the failure is charged |
| AuthUseCases.RefreshToken | src/users_service/application/auth/usecases/refresh_token_usecase.py:41-94 | Commits exactly the transaction specified for it, with its reply, or the database failed and nothing was written |
| AuthUseCases.LogoutUser | src/users_service/application/auth/usecases/logout_usecase.py:25-41 | Commits exactly the transaction specified for it, with its reply, or the database failed and nothing was written; a token that does not decode succeeds without effect |
| AuthUseCases.AuthenticateUser | src/users_service/application/auth/usecases/authenticate_usecase.py:40-69 | Replies and fills the cache as specified, or the database failed and the cache is unchanged; the store is never written; an unreadable entry raises |
| AuthUseCases.UpdateProfile | src/users_service/application/auth/usecases/update_user_usecase.py:46-87 | Commits exactly the transaction specified for it, with its reply, or the database failed and nothing was written; on success the key is deleted and an unverified address is mailed its link |
| AuthUseCases.VerifyAddress | src/users_service/application/auth/usecases/verify_email_usecase.py:42-74 | Commits exactly the transaction specified for it, with its reply, or the database failed and nothing was written; on success the owner's key is deleted |
| AuthUseCases.ChangeUserPassword | src/users_service/application/auth/usecases/change_password_usecase.py:55-97 | Commits exactly the transaction specified for it, with its reply, or the database failed and nothing was written; on success the key is deleted |
| AuthUseCases.ForgotUserPassword | src/users_service/application/auth/usecases/forgot_password_usecase.py:54-120 | Commits exactly the transaction specified for it, with its reply, or the database failed and nothing was written; known and unknown addresses get the same reply, only a known active one is mailed; both counters are charged in order |
| AuthUseCases.ResetUserPassword | src/users_service/application/auth/usecases/reset_password_usecase.py:56-110 | Commits exactly the transaction specified for it, with its reply, or the database failed and nothing was written; on success the owner's key is deleted; the address is charged first |
| AuthUseCases.DeleteAccount | src/users_service/application/auth/usecases/delete_user_usecase.py:29-52 | Commits exactly the transaction specified for it, with its reply, or the database failed and nothing was written; on success the key is deleted |
| AuthUseCases.IssueLink | src/users_service/application/auth/services/email_verification_issuer.py:37-59 | Spends the outstanding verification link and stores the next one in the caller's transaction |
| AuthUseCases.RecordEvent | src/users_service/application/common/audit.py:18-39 | Appends one event inside the caller's transaction |
| AuthUseCases.CheckIp | src/users_service/application/auth/usecases/login_usecase.py:145-156 | Refuses exactly if the rule is enforced, the address known and its counter full |
| AuthUseCases.CheckAccount | src/users_service/application/auth/usecases/login_usecase.py:158-166 | Refuses exactly if the rule is enforced and the account's counter full |
| AuthUseCases.CountFailure | src/users_service/application/auth/usecases/login_usecase.py:168-186 | Charges a failed attempt to both enforced counters |
| AdminUseCases.BanUser | src/users_service/application/moderation/usecases/ban_user_usecase.py:41-81 | Commits exactly the transaction specified for it, with its reply, or the database failed and nothing was written; the key is deleted only when something changed |
| AdminUseCases.UnbanUser | src/users_service/application/moderation/usecases/unban_user_usecase.py:26-52 | Commits exactly the transaction specified for it, with its reply, or the database failed and nothing was written; no session revives; the key is deleted only when something changed |
| AdminUseCases.ListUserSessions | src/users_service/application/users/usecases/list_user_sessions_usecase.py:15-17 | Returns the caller's active sessions, newest first, and writes nothing |
| AdminUseCases.RevokeUserSession | src/users_service/application/users/usecases/revoke_user_session_usecase.py:25-45 | Commits exactly the transaction specified for it, with its reply, or the database failed and nothing was written; another user's session is not found |
| AdminUseCases.RevokeAllSessions | src/users_service/application/users/usecases/revoke_all_sessions_usecase.py:25-44 | Commits exactly the transaction specified for it, with its reply, or the database failed and nothing was written; the count is the audited one |
| AdminUseCases.AssignRoleToUser | src/users_service/application/access_control/usecases/assign_role_to_user_usecase.py:27-40 | Commits the link, or nothing; the key is deleted on success, and stays when the read after the commit fails |
| AdminUseCases.RevokeRoleFromUser | src/users_service/application/access_control/usecases/revoke_role_from_user_usecase.py:18-29 | Commits the unlinking, or nothing; the key is deleted on success, and stays when the read after the commit fails |
| AdminUseCases.GrantPermissionToRole | src/users_service/application/access_control/usecases/grant_permission_to_role_usecase.py:20-31 | Commits the grant, or nothing; touches no cache |
| AdminUseCases.RevokePermissionFromRole | src/users_service/application/access_control/usecases/revoke_permission_from_role_usecase.py:15-24 | Commits the removal, or nothing; touches no cache |
| AdminUseCases.RemoveRole | src/users_service/application/access_control/usecases/delete_role_usecase.py:13-18 | Commits the deletion with both cascades, or nothing; touches no cache |
| Persistence.UnitOfWork.Enter | src/users_service/adapter/database/unit_of_work.py:39-47 | Opens one transaction over the store, shared by all repositories, with nothing written yet |
| Persistence.UnitOfWork.Exit | src/users_service/adapter/database/unit_of_work.py:49-61 | Drops the transaction; the store is not written on any way out |
| Persistence.Transaction.Commit | src/users_service/adapter/database/unit_of_work.py:63-65 | Publishes the working copy, or fails and leaves the store as it was |
| Persistence.SessionRepository.Revoke | src/users_service/adapter/database/repositories/session_repository.py:63-69 | Stamps exactly the unrevoked rows with the jti |
| Persistence.SessionRepository.RevokeAllForUser | src/users_service/adapter/database/repositories/session_repository.py:71-90 | Stamps the user's unrevoked rows except the spared jti and returns how many |
| Persistence.SessionRepository.GetByJti | src/users_service/adapter/database/repositories/session_repository.py:41-46 | The row with the jti, or none |
| Persistence.SessionRepository.ListActiveForUser | src/users_service/adapter/database/repositories/session_repository.py:48-61 | The user's unrevoked, unexpired rows, newest first |
| Entities.SessionRow.Status | src/users_service/entities/session/models.py:44-54 | The derived status is active exactly for an unrevoked, unexpired session |
| Persistence.SecurityTokenRepository.MarkUsed | src/users_service/adapter/database/repositories/security_token_repository.py:49-58 | Stamps one row unless it is already spent |
| Persistence.SecurityTokenRepository.InvalidateForUser | src/users_service/adapter/database/repositories/security_token_repository.py:60-72 | Stamps every unspent row of one user and purpose, and no other |
| Persistence.UserRepository.Update | src/users_service/adapter/database/repositories/user_repository.py:59-73 | Writes the profile columns of one row and never the password hash |
| Persistence.UserRepository.UpdatePassword | src/users_service/adapter/database/repositories/user_repository.py:75-80 | Writes the password hash of one row and nothing else |
| Persistence.UserRepository.AssignRole | src/users_service/adapter/database/repositories/user_repository.py:82-94 | Adds the link unless it is there |
| Persistence.RoleRepository.Delete | src/users_service/adapter/database/repositories/role_repository.py:41-43 | Removes the role with its links to users and permissions |
| Persistence.AuditLogRepository.Add | src/users_service/adapter/database/repositories/audit_log_repository.py:21-32 | Appends one row |

## Left out

- Theorems.VariantFindsAccount: addresses are ASCII; Unicode case folding and Unicode white space of `strip` and `lower` are not modelled.
- Theorems.SeededStart: seeds no sessions, tokens or audit rows, and no inactive accounts.
- AuthUseCases.RegisterUser: unique-constraint violations of concurrent registrations appear only as database failures.
- AuthUseCases.LoginUser: the method uses the in-memory limiter; with the Redis one attempts get the same verdicts on a whole-second clock (`RedisLockout.SharedAnswersAlike`).
- AuthUseCases.AuthenticateUser: an entry with a field of another type counts as unreadable and raises, while the service would pass the value on; no entry the service writes is of that kind (`UserCache.CodecRoundTrip`).
- CacheRefinement.CacheIsTransparent: takes a use case and its cache delete as one step, so it does not cover a database failure between commit and delete; `Staleness.BoundedStaleness` does.
- Lockout.CountersBounded: attempts are serialised; concurrent attempts that all peek before any is charged are not modelled.
- Lockout.SuccessClears: a crash between the login's commit and the reset of the counter is not modelled.
- RedisLimiter.RedisRateLimiter.Hit: no crash between INCR and EXPIRE, and the server's clock counts whole seconds, so rounding of a remaining TTL is not modelled.
- UserCache.CodecRoundTrip: object keys are an enumeration and times go through an abstract inverse pair; the JSON text itself is not modelled.
- Persistence.UserRepository.Update: row ids are positions and the order of link rows is insertion order.
- Database isolation below serial commits, the identity map, migrations and dependency injection.
- One clock reading per use case; the several readings inside one use case are not told apart.
- Password derivation, JWT signing, uuid and random generation: parameters or uninterpreted.
- Mail is a record of address and secret; delivery failures and message text are not modelled.
- The user id in a token is a natural number; a token whose payload is malformed counts as unsigned.
- Creating roles and permissions, and the listing and lookup use cases other than that of sessions: single-branch.
- The gateway, the HTTP routers, cookies, CSRF, visitor middleware, exception handlers and configuration.
