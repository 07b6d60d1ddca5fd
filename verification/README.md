# Chat with CLI: a verified model

Chat with CLI lets a remote assistant operate a workstation: an Agent on the
workstation connects to a Relay, and the Relay authorizes both ends with its own
OAuth server. This project models the parts of that system whose correctness
spans operations, processes or crashes, and proves what they promise.

## What is modelled

- **The Relay's authorization server.** `RelayState` is its data, `RelayOps` what
  each request does to it, written as functions, and `RelayServer` the same
  operations in the form the program has them: one object whose maps are updated in
  place, with snapshots, saves and rollbacks. Each of its methods leaves exactly the
  process and disk the functions say. `RelayInvariant` and `RelaySafety` show what
  every request keeps, `RelayTokens` what the two token exchanges do, `RelaySteps`
  what a request can change seen from outside. `RelayConsent` and `RelayAccounts` say,
  field by field and apart from those functions, exactly when each of the other requests
  succeeds and exactly what it changes.
- **Whole executions.** A run (`RelayRuns`) is any sequence of requests, each with
  any outcome of its save, of power failures, which may take back what was not synced,
  and of restarts, at any point and under any operator configuration. `RelayRestart` says
  when a process comes up and what of the saved state works again, `RelayLifeCycle`
  states what holds of routes over all runs, `RelaySeals` of device keys and invitations, `RelayFamilies` of token families,
  `RelayFreeze` of the freeze, `RelayProvenance` of where tokens come from, and
  `RelayAuthority` what a change of authority can do; `RelayLogin` is one login from
  beginning to end.
- **The state file and its guard.** `Resources` and `StateFile` are the canonical
  forms the loader insists on, and `ResourceForms` says which texts have them. `StateGuard` breaks the save transaction into its
  system calls on a disk that may lose or tear whatever is not yet synced.
- **The credential store.** `CredentialStore`: any number of Agent processes, one
  file, one lock, and a server that rotates refresh tokens and may fail to save and be
  started again. `RelayAgents` shows the Relay to be that server.
- **Compare-and-replace commits.** `FileCommit`: a directory in which others rename
  and replace entries before each of our system calls.
- **Six self-contained cores.** The configuration printer and parser (`ConfigText`,
  `ConfigFile`, `ConfigLoader`), running commands under a kill switch (`Tasks`), the
  WebSocket broker's tables (`Broker`), quota accounting in 64-bit integers (`Usage`),
  the bounded accessibility search (`TreeSearch`), and one-time challenges
  (`Challenges`, with their text form in `Base64`).

Conventions. Random IDs and tokens are names never drawn before. A hash stands for
the contents it is a hash of, and a signature or MAC attests only the fields it was
made for; a PKCE challenge is represented by its verifier. A request reads the clock
once. Every function, lemma and method is proved for all inputs, with no bound
beyond those the program itself imposes.

## What the code does not keep

Where a promise fails, the model keeps the code's behaviour, a lemma shows it, and
another says exactly when the promise holds.

- `SECURITY.md:87` promises that a dirty guard freezes access after restart. Opening the
  guard does not sync the mark that is read, so a dirty mark whose own sync failed can be
  taken back by a later power failure, and the start after it serves the old file
  (`StateGuard.UnsyncedMarkReopens`). The freeze lasts if and only if no power failure can
  bring a clean mark back beside an open kill switch (`RelayFreeze.DirtyStartExactly`); on
  the guard itself, if and only if every unsynced version of the mark is the dirty one
  (`StateGuard.OnlyDirtyExactly`).
- In the same way a file that was renamed into place but whose directory was not synced can
  be read by one start and be gone for the next, so that a retired route is owned again
  (`RelayLifeCycle.RetiredRouteReturns`). After a power failure no route goes back if and
  only if the file it leaves is not behind what memory has shown, or no start accepts what
  it leaves (`RelayLifeCycle.SetbackExactly`). Quotas, provenance and rotation hold without
  this condition.
- A rotated refresh token stays on record until its own expiry (server.go:1140-1145 in
  internal/oauthserver), while every rotation gives its successor a new life of 30 days
  (server.go:2464). Presented after that expiry it is unknown and revokes nothing, although
  its family may be live (`RelayTokens.LateReplayLeavesFamily`). A replay ends the family
  if and only if it comes before the presented token's expiry, or nothing of the family
  outlives clean-up (`RelayTokens.ReplayExactly`).
- The administrator's `revoke-token` reports success for a token issued before token
  families existed and revokes nothing; `RelayAuthority.RevokeTokenWorks` gives the exact
  condition. The public revocation endpoint has no such gap.
- A refresh answer lost in transit, or a credential file that cannot be written after a
  refresh, makes an honest Agent look like a replay. So does a rotation whose save fails
  once the file is written: the Relay answers with an error and takes it back in memory
  only (server.go:2573-2582 in internal/oauthserver), and after a restart the Agent's token
  is a used one (`RelayAgents.HonestReplay`, `CredentialStore.FailedRotationReplays`).
  `CredentialStore.MishapMeansReplay` gives the run that follows each of the three, and by
  `HonestExactly` no other step of processes or server does that.
- A configuration line of 2^20 bytes or more is written but cannot be read back
  (`ConfigFile.FileRoundTrip` is an equivalence).
- The kill switch is a level, not an edge: a file that goes and comes back between two
  looks starts no second sweep, and a process started in between is not signalled
  (`Tasks.StaleLatchFromTheStart`). `Tasks.KillExactly` says from which states none is
  forgotten.
- `truncated` is not a test of completeness: `TreeSearch.TruncatedMisses` says exactly when
  an unset mark misleads and `CompleteExactly` when a search is complete.
- A write without an expected hash reports success and writes nothing
  (`FileCommit.Directory.WriteIfUnchanged`, when `expected` is None); both of its callers
  require a hash before they reach it.
- A challenge is recorded by its text, and its base64 decoder ignores spare bits and line
  breaks, so one challenge has several texts and each is accepted once
  (`Challenges.EveryChallengeTwice`, and `AcceptedPerSpelling` as an equivalence). A
  challenge presented only as it was handed out is accepted at most once
  (`ChallengeAcceptedOnce`). The signature that comes with it covers the text
  (internal/deviceidentity/identity.go:164-219), so only the holder of the device key can
  use another spelling.
- A challenge is accepted twice if the clock is set back past its expiry after a purge
  (`Challenges.ClockMatters`).

## Model

| member | source | states |
|---|---|---|
| RelaySafety.RequestKeeps | internal/oauthserver/server.go:469-509 | Every one of the twenty kinds of request, with any outcome of its save, leaves the state in order: user names and their index agree, every route owner exists, no route is both owned and retired, every token names an approved client and an enabled account and carries the scope its resource calls for |
| RelayRuns.RunsAreSound | internal/oauthserver/server.go:1010-1046 | Over any run of requests, saves failing at any stage, crashes, power failures and restarts, memory and every file a start may find stay in order |
| RelayRuns.EverySavedFileLoads | internal/oauthserver/server.go:886-1008 | Any file a start may find in any run, also after a power failure, is accepted by it under the same public URL and read back unchanged |
| RelayRuns.AcceptedFileIsSound | internal/oauthserver/server.go:747-884 | A start from any file the loader accepts, under names drawn so far, is a sound beginning for a run |
| RelayRestart.StartsExactly | internal/oauthserver/server.go:886-1008 | A process comes up if and only if its guard is not torn, what it has read and cleaned up can be saved where the guard was clean, and in private mode it has an account, or can make and save its owner, or has a setup token and no owner to make |
| RelayRestart.KeysWorkAgain | internal/oauthserver/server.go:886-1008 | After a restart from a saved state an access key works for a resource if and only if it did in that state and has not expired meanwhile |
| RelayRestart.TablesComeBack | internal/oauthserver/server.go:913-1001 | A restart keeps every account, owner, switched-off and retired route, exactly the unexpired sessions of enabled accounts, the usable invitations, the clients that are approved or fresh and the refresh tokens that are still good; no request and no code survives it |
| RelayRestart.SwitchesBack | internal/oauthserver/server.go:932-1001 | A restart keeps the kill switch and the switches of both kinds of access and of registration of clients; accounts may be registered only if they could before, in a public mode that the configuration permits |
| RelayRestart.OwnerBegins | internal/oauthserver/server.go:886-1008 | A private instance on an empty disk begins with exactly its owner, an enabled administrator under the configured name, and that is what the disk holds |
| StateFile.Reload | internal/oauthserver/server.go:727-884 | Encoding a state that is in order and canonicalizing the result gives that state back |
| StateFile.Accepted | internal/oauthserver/server.go:747-884 | Whatever wrote the file, what the loader accepts is in order: one owner per route, distinct names, tokens of approved clients and enabled accounts only |
| StateFile.ReloadExactly | internal/oauthserver/server.go:747-884 | A rendered state is accepted and reproduced if and only if it is in order |
| StateFile.InvariantIsReloadable | internal/oauthserver/server.go:1048-1104 | Every state the request invariant allows can be saved and loaded again |
| StateFile.RoutesRoundTrip | internal/oauthserver/server.go:727-745 | A map keyed by valid routes survives being written as text; no two routes share a text |
| StateFile.TokensRoundTrip | internal/oauthserver/server.go:851-884 | Tokens keep client, user, resource, scope, family and expiry through the file |
| Resources.RouteRoundTrip | internal/oauthserver/server.go:1733-1746 | The text of a valid route, named or immutable, is already canonical |
| Resources.ResourceRoundTrip | internal/oauthserver/server.go:1701-1731 | The URL stored for a protected resource designates that resource, for the account endpoint and both kinds of device endpoint |
| Resources.ScopeRoundTrip | internal/oauthserver/server.go:1781-1805 | The stored text of a scope normalizes to the same scope |
| ResourceForms.ResourceExactly | internal/oauthserver/server.go:1701-1731 | A URL designates a resource if and only if it has this Relay's scheme and host in any case of letters, no query and no fragment, and its path between outer slashes is `mcp`, or `mcp` or `agent` followed by a valid name, or by `id` and one more segment that trims and lower-cases to the ID |
| ResourceForms.ScopeExactly | internal/oauthserver/server.go:1781-1805 | A scope is accepted for a kind of access if and only if its words, told by the white space around them, are that kind's own and possibly `offline_access`, or it has none; it stands for refreshing if and only if it asks for it or has no words |
| ResourceForms.FieldsExactly | internal/oauthserver/server.go:1786-1794 | The fields of a scope are exactly its words: what stands between white space or the ends, and has none in it |
| RelayState.TrimKeepsUsername | internal/oauthserver/identity.go:69-75 | Trimming a submitted name, as account creation does, does not change whom it names |
| RelayRequests.OnlyExchangesIssue | internal/oauthserver/server.go:2456-2471 | A request other than the two token exchanges leaves no access, live or used token that was not there before, whatever its outcome |
| RelayTokens.RequestRotates | internal/oauthserver/server.go:2538-2587 | After any request each family has at most one live refresh token and no token is both live and used (section 4.14.2 of RFC 9700) |
| RelayTokens.ReplayRevokes | internal/oauthserver/server.go:2538-2608 | A used token of which clean-up leaves the record, presented again by its own client or by one that gives no name, takes every access, live and used token of its family with it and no other token, even if the save fails; without a family it takes nothing |
| RelayTokens.ReplayIgnored | internal/oauthserver/server.go:1140-1145 | A used token whose record clean-up drops is unknown when it is presented: nothing happens beyond the clean-up |
| RelayTokens.ReplayExactly | internal/oauthserver/server.go:2538-2608 | A replay ends its family if and only if the presented token has not passed its own expiry, or clean-up leaves nothing of the family anyway |
| RelayTokens.LateReplayLeavesFamily | internal/oauthserver/server.go:2456-2471 | After any rotation, between the expiry of the rotated token and that of its successor, a replay of the former leaves the successor live in the same family |
| RelayTokens.StaysExtinct | internal/oauthserver/server.go:2589-2608 | No request, failed or saved, makes a token in a family that was revoked |
| RelayTokens.RedeemYields | internal/oauthserver/server.go:2492-2536 | A code is gone after any attempt; it yields one access and one refresh token, carrying exactly what the user authorized, if and only if its own client presents it in time at the same redirect and resource with the matching verifier while client, account and device are good |
| RelayTokens.RedeemSpends | internal/oauthserver/server.go:2492-2536 | Under every outcome an attempt to redeem a code removes it, and only an attempt that may succeed makes any grant |
| RelayTokens.RotateYields | internal/oauthserver/server.go:2538-2587 | A refresh that may happen retires the presented token and issues one pair with the same client, user, resource, scope and family (a new one for a token that had none); if the save fails exactly the presented token is live again |
| RelayTokens.UnrotatableYieldsNothing | internal/oauthserver/server.go:2546-2567 | A refresh by another client, for another resource, after expiry or for a client, account or device no longer good only takes tokens away |
| RelaySteps.RequestEffected | internal/oauthserver/server.go:491-509 | Seen from outside, a request moves no route backwards, gives no account more than its quota, adds only clients, accounts and codes it drew itself, and turns the kill switch off only when it is a release outside recovery |
| RelaySteps.UnsavedDevices | internal/oauthserver/server.go:491-497 | No claim or retirement of a route stays in memory unless the request was saved |
| RelayConsent.VerifiesExactly | internal/oauthserver/server.go:2675-2731 | A key works if and only if it was issued for this resource and scope to a client that is there and approved, for an enabled account which, for a device, still owns it with no record to the contrary and no switch against it, the switches are on and the file is not in doubt |
| RelayConsent.RegisterExactly | internal/oauthserver/server.go:1555-1699 | A client is registered if and only if registration is on, the file is not in doubt, its device is not retired, and there is room or an oldest unapproved client to evict; it is unapproved and bears what it asked for, and only the evicted client goes, with all that names it |
| RelayConsent.BeginExactly | internal/oauthserver/server.go:1816-1918 | A request is entered if and only if both limits have room, its client is known at that redirect, and, if the client tells of a device at all, its identity is whole and verified, no other key is recorded, the resource is exactly that device's Agent and the proof was given, or else the resource is no Agent's or unbound agents are allowed; the entry holds what was asked, by nobody yet, for ten minutes, and nothing but clean-up happens besides |
| RelayConsent.AuthorizedWhen | internal/oauthserver/server.go:2159-2282 | An account may authorize a client for a resource if and only if it is enabled, the switches are on, the file is not in doubt, the client's key fits the route, and the account owns the route or, for an Agent, may claim it: below sixteen, and in public mode by its ID |
| RelayConsent.AuthorizedWhat | internal/oauthserver/server.go:2201-2282 | Authorizing an Agent makes the account the route's owner and binds the client's key to it, keeping a key that was there, and changes nothing else; for any other resource nothing changes |
| RelayConsent.AllowExactly | internal/oauthserver/server.go:2296-2359 | A request is approved if and only if it is pending and in time, its client is still known at its redirect and may be authorized; it becomes one code for the account, good for five minutes, and the client is approved. One whose client is gone is dropped, and otherwise nothing changes |
| RelayConsent.JoinExactly | internal/oauthserver/server.go:2361-2412 | A new account joins if and only if the instance is public, past its setup, open or the invitation is in time with a use left, the name is valid and free, there is room, and the account may approve the request; account, one use of the invitation, approval and a session of thirty days come together or not at all |
| RelayConsent.ConsumedExactly | internal/oauthserver/invite.go:31-54 | An invitation is consumed if and only if registration is open or it is in time with a use left; the last use removes it, and open registration takes none |
| RelayConsent.PkceExactly | internal/oauthserver/server.go:2414-2442 | A verifier fits if and only if it is the challenge's own and has 43 to 128 unreserved characters (section 4.1 of RFC 7636) |
| RelayConsent.LifetimesExactly | internal/oauthserver/server.go:2456-2471 | Each pair of tokens issued lives an hour and thirty days from then, and a rotated token keeps its own expiry |
| RelayConsent.RevokeExactly | internal/oauthserver/server.go:2609-2638 | Revoking removes the presented token and its family, from all three tables, and nothing else |
| RelayAccounts.NewPasswordExactly | internal/oauthserver/account.go:383-423 | A new password is taken if and only if the account is enabled, is still the one that signed in and the file is not in doubt; every session, token, request and code of the account ends, its record changes in the password alone, and everything of other accounts stays |
| RelayAccounts.AdminExactly | internal/oauthserver/admin.go:557-654 | An administrator's action is carried out if and only if the administrator still is one, enabled and with the password that signed in, the action may be done, and recovery allows it where the file is in doubt; it is saved as a recovery exactly there |
| RelayAccounts.SwitchesExactly | internal/oauthserver/admin.go:655-727 | Each switch action sets its own switch to what was asked, under its own guard, and leaves every other switch and everything else; a change of mode also closes registration |
| RelayAccounts.UserActionsExactly | internal/oauthserver/admin.go:601-783 | A password set by an administrator, or switching an account off, ends every session, token, request and code of that account and nobody else's; switching it on gives none back, and nobody switches off the account in use |
| RelayAccounts.CreationsExactly | internal/oauthserver/identity.go:125-150 | An account is created if and only if the password is acceptable, the name valid and free and there is room; the first one, made at setup, is an administrator and fixes mode and registration |
| RelayAccounts.DeletionExactly | internal/oauthserver/admin.go:784-823 | Deleting takes the account and its name, retires exactly the routes that either record of ownership gives it, and ends all it had; nobody deletes the account in use |
| RelayAccounts.DeviceActionsExactly | internal/oauthserver/admin.go:728-768 | On a device that somebody owns: switching it off ends what was granted for it and nothing else, switching it on gives none back, retiring it retires it alone, and renaming changes neither owner, key nor switch |
| RelayAccounts.RetiresExactly | internal/oauthserver/admin.go:744-757 | Retired routes are nobody's and marked, without switch or record; every credential and grant for them goes, and every client that proved their key with all it held; every other one stays |
| RelayAccounts.RevocationsExactly | internal/oauthserver/admin.go:842-866 | Revoking a client takes it and what names it; revoking a token takes its family, found among live, used and access tokens in that order; nothing else goes |
| RelayAccounts.LogoutsExactly | internal/oauthserver/admin.go:824-875 | Signing an account out ends exactly its sessions, ending one session or invitation exactly that one |
| RelayAccounts.HolderExactly | internal/oauthserver/account.go:278-297 | A holder's action is saved if and only if it may be done and the file is not in doubt, and is put back if the save fails |
| RelayAccounts.OwnExactly | internal/oauthserver/account.go:299-381 | An account holder switches, names or retires a device if and only if it is enabled, still the one that signed in, and owns it; exactly that is done |
| RelayAccounts.OwnSessionsExactly | internal/oauthserver/account.go:299-381 | A holder ends a family if and only if one of its own live or access tokens is in it, one session if it is its own, or all its sessions but this one |
| RelayAccounts.SessionsExactly | internal/oauthserver/identity.go:280-309 | A session is made if and only if the account is enabled and still has the password that was checked; it lasts thirty days, and in memory only while the file is in doubt. Signing out ends exactly that session |
| RelayAccounts.ReauthExactly | internal/oauthserver/admin.go:212-277 | A fresh password moves exactly the administrator's own session to its new handle, with its expiry, and marks the time |
| RelayAccounts.InvitesExactly | internal/oauthserver/invite.go:61-107 | An invitation is issued if and only if a live administrator of a public instance asks, the file is not in doubt and there is room; it is for one account and a day |
| RelayAccounts.RefusalsExactly | internal/oauthserver/server.go:2006-2020 | A failed login is counted on its request, the fifth ends it, and refusing a request ends exactly that one |
| RelayAccounts.CleanUpExactly | internal/oauthserver/server.go:1106-1191 | Clean-up drops exactly the sessions past their time or of accounts not enabled, the invitations past their time or used up, and the clients nobody approved within an hour |
| RelayLifeCycle.RunsGoForward | internal/oauthserver/server.go:2201-2282 | Over any run with restarts and power failures, as long as no power failure leaves a file that is behind what memory has shown, a route goes only from nobody to one account to retired and the file never lags behind memory about it |
| RelayLifeCycle.RouteForever | internal/oauthserver/admin.go:744-757 | In such a run a route belongs to the same account for ever or is retired; a retired route stays retired and no credential for it verifies for anyone again |
| RelayLifeCycle.SetbackExactly | internal/oauthserver/server.go:1067-1104 | After a power failure, whatever it leaves, every later run without a further setback shows each route where it was or further on if and only if the file left is not behind what memory had shown, or the mark left is one no start accepts |
| RelayLifeCycle.SetbackTakesBack | internal/oauthserver/server.go:1067-1104 | Only a power failure that takes back a file which a start has read, after a save whose directory sync failed, can set a route back |
| RelayLifeCycle.RunsStayInStep | internal/oauthserver/server.go:1010-1046 | Over any run, what a process that may still save shows of the routes is what its file says |
| RelayLifeCycle.RetiredRouteReturns | internal/oauthserver/server.go:1067-1104 | The input in full: in any process that may save, an administrator retires an owned route, all of the save but the directory sync succeeds, the next process shows the route retired, power fails, and the process after it shows it owned by its former account |
| RelayLifeCycle.RunsKeepQuota | internal/oauthserver/server.go:2247-2260 | Over any run, power failures included, a quota of routes once met in memory and in every file a start may find stays met |
| RelayLifeCycle.SixteenRoutes | internal/oauthserver/server.go:2247-2260 | From an empty disk no account ever owns more than 16 routes |
| RelaySeals.FirstKeyStays | internal/oauthserver/server.go:2201-2282 | The first approval of a device-bound client for its Agent, once saved, records its key for the route, and after any restarts and power failures no client with another key or none may be authorized for that Agent |
| RelaySeals.AdmitsOnce | internal/oauthserver/invite.go:31-54 | An invitation with one use, drawn before, admits one account over any run: once that is saved, no later request by it does anything while registration is closed, restarts and power failures included |
| RelaySeals.SealedForever | internal/oauthserver/server.go:2159-2282 | Over any run, a key recorded for a route and a used invitation, once so in memory and in every file a start may find, stay so, or the route is retired |
| RelayFamilies.RunsRotate | internal/oauthserver/server.go:2538-2587 | Over any run that begins with rotation intact, in memory and in every file a start may find, it stays so: at most one live refresh token a family, none both live and used |
| RelayFamilies.ExtinctInProcess | internal/oauthserver/server.go:2589-2608 | Within one process a revoked family never has a token again, even while other requests fail to save and roll back |
| RelayFamilies.ExtinctForever | internal/oauthserver/server.go:2589-2638 | Once a revocation is in every file a start may find, no restart or power failure brings the family back |
| RelayFamilies.ReplayIsFinal | internal/oauthserver/server.go:2538-2608 | A replay before the presented token's own expiry leaves nothing of the family in any later state of the process, nor, if it had something to revoke and that was saved, after restarts and power failures; one after the expiry leaves exactly what clean-up leaves |
| RelayFamilies.ReplayLeaves | internal/oauthserver/server.go:2538-2608 | Whatever becomes of the save, nothing of the family is in memory after a replay if and only if the replay came in time or clean-up left nothing |
| RelayFreeze.StaysFrozen | internal/oauthserver/server.go:1010-1046 | Over any run in which no process that started clean has a kill-switch release accepted and written, a frozen Relay stays frozen: refused and failed releases change nothing, and recovery saves clean the guard only together with a raised kill switch |
| RelayFreeze.DirtyStartStaysClosed | internal/oauthserver/server.go:2733-2754 | From a dirty guard that no power failure can turn clean beside a file with the kill switch off, no access key verifies, in the process that starts on it or in any later one, until such a release |
| RelayFreeze.DirtyStartExactly | internal/oauthserver/state_guard.go:17-74 | If each file a power failure can bring back clean, with the kill switch off, holds a credential that works or lets an enabled account in, a dirty start stays closed in every run without a release if and only if no power failure can bring a clean mark back beside an open kill switch |
| RelayFreeze.VanishedMarkReopens | internal/oauthserver/state_guard.go:17-74 | The proviso is needed: from a dirty mark that a power failure takes back, two starts lead to a process that serves a credential again without any release |
| RelayFreeze.VanishedMarkLetsIn | internal/oauthserver/server.go:1816-1918 | Even a file without a credential reopens: with an enabled account in it and a client, or room to register one, the run goes on through registration, request, login and redemption to a credential that verifies |
| RelayLogin.LoginReopens | internal/oauthserver/server.go:2296-2325 | In a process that may serve and save, an enabled account and a good client lead from no request at all to a verifying access key |
| RelayProvenance.EveryTokenIsTraced | internal/oauthserver/server.go:2296-2325 | In any run from an empty disk every token, in memory and in every file a start may find, carries exactly the client, user, resource and scope of one committed authorization, and no two families come from one code |
| RelayProvenance.RunsAreTraced | internal/oauthserver/server.go:2568-2573 | The same over any run from a state whose tokens are traced and whose rotation is intact: rotation, rollback, restart and power failure never change what a token carries |
| RelayProvenance.FamiliesShare | internal/oauthserver/server.go:2568-2573 | In every run from an empty disk each used token has a family, and all tokens of the family stand for one client, account and resource |
| RelayProvenance.SpentForever | internal/oauthserver/server.go:2492-2536 | A code that is gone never returns, through rollbacks and restarts |
| RelayProvenance.CodesWorkOnce | internal/oauthserver/server.go:2492-2536 | After any attempt to redeem a code, however it ended, every later attempt in the run only takes grants away (section 4.1.2 of RFC 6749) |
| RelayAuthority.AuthorityShrinks | internal/oauthserver/admin.go:458-555 | An accepted administrator action that recovery mode allows, or that needs no fresh re-authentication, leaves no credential, resource and scope verifying that did not verify before |
| RelayAuthority.OwnerGivesNothing | internal/oauthserver/account.go:299-381 | An account holder gains no verifying credential by any action but switching a device back on |
| RelayAuthority.RevokeTokenWorks | internal/oauthserver/admin.go:847-866 | The administrator's `revoke-token` reports success, and the token and its family are gone, if and only if the token belongs to a family (handles being in one table each); on a token from before families it does nothing |
| RelayAuthority.RevocationWorks | internal/oauthserver/server.go:2609-2638 | The revocation endpoint always removes the presented token, and the whole family if it has one, whether or not the save succeeds |
| StateGuard.TransactionSafe | internal/oauthserver/server.go:1010-1104 | Whenever power fails during a save, a guard that reads clean means the file is exactly the last state whose write became durable, and between the durable dirty mark and the start of the clean mark the guard can only read dirty |
| StateGuard.TransactionExplained | internal/oauthserver/state_guard.go:76-87 | Whatever a start may find at any moment of a save, now or once power has failed then or later, byte-wise torn marks and lost renames included, is allowed for by one of the four outcomes of a save used by the runs |
| StateGuard.EndExplained | internal/oauthserver/server.go:1010-1030 | Where a save ends, that outcome is the one its failures say, and it is `Saved` if and only if nothing failed |
| StateGuard.TransactionSaves | internal/oauthserver/server.go:1010-1030 | The transaction ends with a durable clean mark if and only if no write, rename or sync failed, and then exactly the new state is durable |
| StateGuard.OnlyDirtyExactly | internal/oauthserver/state_guard.go:17-74 | A start after a power failure can only read dirty if and only if every version of the mark since the last sync is the dirty one |
| StateGuard.DirtyGuardHolds | internal/oauthserver/state_guard.go:17-74 | On such a guard the freeze of a dirty start lasts: it is a disk whose mark holds |
| StateGuard.FirstMarkExplained | internal/oauthserver/state_guard.go:43-74 | Wherever the first start is stopped while it writes the first mark into an empty guard, the next start finds the guard clean or refuses to run, and never dirty |
| StateGuard.UnsyncedMarkCanVanish | internal/oauthserver/state_guard.go:17-74 | A save on a clean guard that writes the whole dirty mark and fails to sync it leaves a guard that reads dirty to the next start and clean after a power failure, beside the same file |
| StateGuard.UnsyncedMarkReopens | internal/oauthserver/state_guard.go:17-74 | What follows it over a whole run: that save, a start that serves nobody, a power failure, and a start that serves a credential of the old file, with no release of the kill switch between |
| StateGuard.StateDisk.WriteGuard | internal/oauthserver/state_guard.go:76-87 | Write, truncate and sync of a mark pass through exactly the specified moments and succeed only when all three do |
| StateGuard.StateDisk.WriteFile | internal/oauthserver/server.go:1067-1104 | Replacing the JSON passes through exactly the specified moments: the rename is atomic, and durable once the directory is synced |
| StateGuard.StateDisk.Transact | internal/oauthserver/server.go:1010-1030 | Dirty mark, JSON, clean mark, stopping at the first failure |
| StateGuard.StateDisk.Save | internal/oauthserver/server.go:1032-1038 | After any series of saves, each failing anywhere, the disk is still safe against power loss and is what the runs take it for; a save that succeeds leaves its state and a clean mark as the only readable content |
| RelayServer.Server.Load | internal/oauthserver/server.go:913-1001 | Loading builds the name index, the adopted owner, the device records and the cleaned tables of the start specification |
| RelayServer.RebuildIndex | internal/oauthserver/server.go:979-982 | The loop over the accounts builds the one index in which each account is found under its normalized name and nobody else is |
| RelayServer.AdoptOwner | internal/oauthserver/server.go:979-987 | In private mode exactly the accounts bearing the configured owner's name become administrators; no other field changes |
| RelayServer.Server.Restore | internal/oauthserver/server.go:479-489 | Rolling back restores every saved and unsaved part of the snapshot |
| RelayServer.Server.Save | internal/oauthserver/server.go:1010-1038 | A save ends in the process and disk of its outcome; once in doubt, no ordinary save touches the disk |
| RelayServer.Server.SaveOrRollback | internal/oauthserver/server.go:491-497 | A save that fails leaves memory as the snapshot has it |
| RelayServer.Server.SaveRecoveryOrRollback | internal/oauthserver/server.go:499-509 | A recovery save writes the raised kill switch with the change; if it fails memory is the snapshot |
| RelayServer.DeleteWhere | internal/oauthserver/server.go:1106-1191 | Deleting while ranging over a map removes exactly the entries the condition picks |
| RelayServer.Server.CleanUp | internal/oauthserver/server.go:1106-1191 | Clean-up drops exactly what has expired or lost its client, account or invitation uses, and every grant of a stale unapproved client |
| RelayServer.CleanedVerifies | internal/oauthserver/server.go:2699-2731 | Clean-up takes authority from a credential if and only if it has expired |
| RelayServer.Server.VerifyAccessKey | internal/oauthserver/server.go:2675-2731 | A key verifies if and only if it is unexpired and was issued for exactly this resource and scope to an approved client and an enabled account that still owns an enabled device, with every switch on and no doubt about the file |
| RelayServer.Server.RevokeFamilyLocked | internal/oauthserver/server.go:2589-2608 | The loops remove exactly the access, live and used tokens of a non-empty family |
| RelayServer.Server.RevokeClientLocked | internal/oauthserver/admin.go:954-991 | The client and every token, request and code naming it are removed, nothing else |
| RelayServer.Server.RevokeDeviceClientsLocked | internal/oauthserver/admin.go:993-1003 | Revoking one bound client after another is revoking all clients that proved the device's key |
| RelayServer.Server.RevokeUserCredentialsLocked | internal/oauthserver/admin.go:1005-1032 | Sessions, tokens, requests and codes of the account are removed, nothing else |
| RelayServer.Server.RevokeDeviceTokensLocked | internal/oauthserver/admin.go:1034-1060 | Tokens, requests and codes for the route, MCP or Agent, are removed, nothing else |
| RelayServer.Server.EnsureDeviceRecordLocked | internal/oauthserver/server.go:1748-1774 | A record that was there keeps its key and its owner, and takes the given owner only if it had none; it is off if the route is switched off; nothing else changes, and a second call with any owner changes nothing |
| RelayServer.CountRoutes | internal/oauthserver/server.go:2250-2258 | The counting loop finds the number of routes the account owns |
| RelayServer.Server.ClaimLocked | internal/oauthserver/server.go:2246-2270 | A free route is claimed below the quota of 16, in public mode only by its immutable ID; otherwise nothing changes |
| RelayServer.Server.AuthorizeResourceLocked | internal/oauthserver/server.go:2201-2282 | Authorizing a resource succeeds, claims and binds a key exactly as specified, and on failure changes nothing |
| RelayServer.Server.CommitAuthorizationLocked | internal/oauthserver/server.go:2296-2325 | Committing turns the pending request into one code for the authorized user and approves the client |
| RelayServer.Server.GrantAuthorization | internal/oauthserver/server.go:2339-2359 | Granting saves the commitment or restores the snapshot; a request whose client has become invalid is dropped |
| RelayServer.Server.RegisterAndGrantAuthorization | internal/oauthserver/server.go:2361-2412 | A new account, its invitation's use, its authorization and its session are saved together or not at all |
| RelayServer.Server.RegistrationAllowed | internal/oauthserver/invite.go:15-29 | Registration is open on a public instance past its setup if the switch is on or some invitation is unexpired with uses left |
| RelayServer.OldestUnapproved | internal/oauthserver/server.go:1659-1680 | The scan finds an oldest unapproved client, or none if every client is approved or issued later |
| RelayServer.Server.HandleRegister | internal/oauthserver/server.go:1555-1699 | Registering adds the new client, evicting an oldest unapproved one only at the limit, and rolls back if the save fails |
| RelayServer.CountFrom | internal/oauthserver/server.go:1892-1902 | The counting loop finds the number of pending requests from one address |
| RelayServer.Server.BeginAuthorizationLocked | internal/oauthserver/server.go:1816-1918 | The request is entered in place exactly as specified; `RelayConsent.BeginExactly` says when that is, with the device's proof among the conditions |
| RelayServer.Server.FailAuthorizationLocked | internal/oauthserver/server.go:2006-2020 | The fifth failed login drops the pending request, an earlier one is counted on it, no other request or grant changes, and so no request ever has five |
| RelayServer.Server.IssueTokensInFamilyLocked | internal/oauthserver/server.go:2456-2471 | A pair of tokens is issued and saved; if the save fails both are taken back |
| RelayServer.Server.ExchangeCodeLocked | internal/oauthserver/server.go:2492-2536 | The exchange leaves process and disk as the specified redemption settles |
| RelayServer.Server.ExchangeRefreshLocked | internal/oauthserver/server.go:2538-2587 | The exchange leaves process and disk as the specified rotation, replay or refusal settles |
| RelayServer.Server.RotateLocked | internal/oauthserver/server.go:2565-2582 | The presented token becomes a used one under a settled family; a failed save makes it live again, with that family |
| RelayServer.Server.HandleRevoke | internal/oauthserver/server.go:2609-2638 | Revocation finds the family by access, live, then used token and is never rolled back |
| RelayServer.Server.CreateSessionLocked | internal/oauthserver/identity.go:280-309 | A session is saved or dropped; while the file is in doubt it lives in memory only |
| RelayServer.Server.ClearSessionLocked | internal/oauthserver/identity.go:232-245 | Logging out removes the session whether or not the save succeeds |
| RelayServer.Server.ReauthenticateLocked | internal/oauthserver/admin.go:212-277 | Re-authentication moves the session to a new handle, or changes nothing if it cannot be saved |
| RelayServer.Server.HandleAdminInvite | internal/oauthserver/invite.go:61-107 | Only a live administrator of a public instance issues an invitation, below the limit |
| RelayServer.Server.CreateUserLocked | internal/oauthserver/identity.go:125-150 | An account is created if and only if the password is acceptable, the normalized name is valid and unused and there is room; it is enabled and found under that name, and everything else stays as it was |
| RelayServer.Server.RetireLocked | internal/oauthserver/admin.go:744-757 | Retiring a route ends ownership, record, tokens, requests and every client bound to its key |
| RelayServer.Server.RetireAllLocked | internal/oauthserver/admin.go:797-819 | Retiring routes one after another is retiring them together |
| RelayServer.RetireOneMore | internal/oauthserver/admin.go:797-819 | The order in which an account's routes are retired does not matter: one more retirement extends the set |
| RelayServer.Server.DeleteUserLocked | internal/oauthserver/admin.go:784-823 | Deleting an account retires every route it leaves behind by either record of ownership and ends all its credentials |
| RelayServer.Server.DisableDeviceLocked | internal/oauthserver/admin.go:728-743 | Switching a device off ends its credentials; switching it on gives none back |
| RelayServer.Server.RevokeTokenLocked | internal/oauthserver/admin.go:847-866 | The search goes through live, used, then access tokens and revokes the family of the first it finds |
| RelayServer.Server.ChangeByAdmin | internal/oauthserver/admin.go:655-890 | The action's change is made in full or, on an error, not at all |
| RelayServer.Server.ApplyAdminAction | internal/oauthserver/admin.go:557-654 | While the file is in doubt only recovery actions run; every action is saved, as a recovery where needed, or rolled back |
| RelayServer.Server.ChangeByOwner | internal/oauthserver/account.go:299-381 | An account holder's change is made in full, on own devices, families and sessions only, or not at all |
| RelayServer.Server.HandleAccountAction | internal/oauthserver/account.go:278-297 | The change is saved or rolled back |
| RelayServer.Server.ChangeOwnPassword | internal/oauthserver/account.go:383-423 | A new password is taken and saved, with the end of every session and credential of the account that `RelayAccounts.NewPasswordExactly` spells out, or nothing changes if it cannot be saved |
| CredentialStore.HonestNeverReplay | internal/oauthclient/client.go:193-256 | Any number of processes sharing the store, started and interleaved in any way, against a server whose saves may fail at any stage and which may start again from any file it may find, never present a refresh token the server has rotated, if no answer is lost, no rotation answered with an error stays on the server's file, and no write of a rotated token fails |
| CredentialStore.FromTheStart | internal/oauthclient/client.go:103-256 | So from an empty store the server never counts a replay, logins, deletions, revocations, recoveries and restarts included |
| CredentialStore.StepIsOrderly | internal/oauthclient/store_lock_unix.go:18-65 | Each step keeps one process inside the lock with the file as it loaded it, and every token in one place only; what a save writes is said by `SaveIsExact` and `OthersKept` |
| CredentialStore.OneInside | internal/oauthclient/store_lock_unix.go:18-65 | Two processes are never inside the critical section together |
| CredentialStore.LostAnswerLeavesUsed | internal/oauthclient/client.go:271-291 | The first proviso is needed: an answer lost on the way leaves a used token in the store |
| CredentialStore.FailedSaveLeavesUsed | internal/oauthclient/store.go:92-148 | The second proviso is needed: a store write that fails after a refresh leaves a used token in the store |
| CredentialStore.FailedRotationReplays | internal/oauthserver/server.go:2573-2582 | The third proviso is needed: a rotation whose save fails once the file is written is answered with an error, the process loses nothing and writes nothing, and after a server restart, into doubt or not, its next refresh counts as a replay |
| RelayAgents.HonestReplay | internal/oauthserver/server.go:2538-2587 | The same on the Relay itself: after such a rotation the token is live in memory, the next process knows it as used only, and presenting it before it expires empties its whole family |
| RelayAgents.RotationIsRotating | internal/oauthserver/server.go:2565-2587 | What the Relay's refresh does to memory and to the files a start may find is the rotation of the store's server, saved or taken back as the save ends |
| RelayAgents.ReplayIsRefused | internal/oauthserver/server.go:2545-2553 | What the Relay does with a used token is the refusal of the store's server, which ends the family and counts a replay |
| RelayAgents.DoubtDrops | internal/oauthserver/server.go:2554-2564 | A Relay in doubt of its file drops a live token it is presented with, in memory only, as the store's server does |
| RelayAgents.StartFindsFile | internal/oauthserver/server.go:886-1008 | A started Relay holds only tokens of a file it could find, live ones as live and used ones as used |
| CredentialStore.UsedInFileMeansReplay | internal/oauthclient/client.go:215-256 | With a used token in the store the next process to refresh is taken for a thief |
| CredentialStore.MishapBetrays | internal/oauthclient/client.go:271-291 | Each of the three mishaps leaves a token in the store that the server counts as rotated, or will after a start, and its process about to let the lock go |
| CredentialStore.MishapMeansReplay | internal/oauthclient/client.go:215-256 | From any state in order, a mishap has a continuation without another one, at most a server restart and six steps of its process, in which that honest process is taken for a thief |
| CredentialStore.HonestExactly | internal/oauthclient/client.go:193-256 | After a step every run without a later mishap is free of replays if and only if the step is not a mishap itself: a lost answer, a failed rotation left on file, or a failed write of a rotated token |
| CredentialStore.LockIsNeeded | internal/oauthclient/store_lock_unix.go:18-65 | Without the lock two processes that hold the same loaded store cause a replay with both answers delivered |
| CredentialStore.BothLoad | internal/oauthclient/store_lock_unix.go:18-65 | Without the lock any two processes that want the same token can reach that point |
| CredentialStore.SaveIsExact | internal/oauthclient/client.go:215-256 | A save puts what its process holds under that process's own resource, and the entry of every other resource is the one it had loaded |
| CredentialStore.OthersKept | internal/oauthclient/client.go:215-256 | With the lock no step changes an entry of the file but a save by a process working on that resource |
| CredentialStore.EntriesKept | internal/oauthclient/client.go:193-256 | So over any run, mishaps included, an entry stays as it is until a process working on its resource saves |
| CredentialStore.RefreshIsStored | internal/oauthclient/client.go:215-256 | Where the server knows the token and does not doubt its file, a refresh can be answered, stored and let go: the file then has exactly the new tokens for its resource, and the server the new one live in the old one's family and the old one used |
| CredentialStore.EditIsStored | internal/oauthclient/client.go:103-192 | A login or a deletion with the lock free can go through, and changes exactly its own entry |
| FileCommit.Directory.WriteIfUnchanged | internal/engine/path_secure_linux.go:592-673 | On success the entry displaced by the atomic exchange was a single-link regular file with the expected contents, whatever others did to other names; if others act only before the exchange and unlink and fsync work, failure leaves the directory as they last left it and success changes the target alone; if nobody acts and no call fails, it succeeds if and only if the target is a single-link regular file with the expected contents, and then holds the new data; without an expected hash it reports success and writes nothing |
| FileCommit.Directory.RollBack | internal/engine/path_secure_linux.go:640-673 | A rollback restores the displaced entry and removes the private file, or reports that it failed, which it does only if the kernel refuses |
| FileCommit.Directory.DeleteStaged | internal/engine/path_secure_linux.go:341-383 | Only a file with the named hash, or an empty directory asked for, is unlinked; before that the staged entry is under its own or the tombstone name |
| FileCommit.Directory.Delete | internal/engine/path_secure_linux.go:293-335 | A regular file whose contents differ from what the caller named is never unlinked; with others quiet after the commit rename, failure leaves the directory as it was; if nobody acts and no call fails, it deletes if and only if the entry is a single-link regular file with the named contents or an empty directory asked for |
| FileCommit.Directory.Move | internal/engine/path_secure_linux.go:428-543 | If others act only before the commit rename, a move transfers exactly the expected source over exactly the expected destination or leaves both names as they were; if nobody acts and no call fails, it succeeds if and only if the source is as expected and the destination is free, or is as expected and may be overwritten |
| FileCommit.Directory.MoveToNothing | internal/engine/path_secure_linux.go:495-507 | A move to a free name is renamed without replacing, verified, and renamed back on a mismatch |
| FileCommit.Directory.MoveOver | internal/engine/path_secure_linux.go:508-533 | A move over an expected destination exchanges, verifies both names and exchanges back on a mismatch |
| FileCommit.Directory.Verify | internal/engine/path_secure_linux.go:277-291 | A name that verifies held, at that moment, a single-link regular file with the expected contents; if nothing interferes, every such name verifies |
| FileCommit.Directory.OpenRegular | internal/engine/path_secure_linux.go:239-275 | What is opened is what the name held, and is a single-link regular file; if nothing interferes, every such file is opened |
| ConfigLoader.ConfigRoundTrip | internal/config/config.go:21-75 | For every map of relay and agent keys to strings, booleans, integers and string lists, what `Write` prints loads if and only if every line is under 2^20 bytes, and then every value comes back through its getter, whatever quotes, commas, backslashes, comment signs or line breaks it holds |
| ConfigLoader.WrittenOnce | internal/config/config.go:154-194 | The file does not depend on the order in which the map yields its keys: the same settings always give the same text |
| ConfigFile.FileRoundTrip | internal/config/config.go:154-229 | Loading the written text gives exactly the written values, or fails exactly when a line is too long for the scanner |
| ConfigFile.ValuesComeBack | internal/config/config.go:88-152 | Each kind of value reads back through its own getter, for every default |
| ConfigFile.ListReads | internal/config/config.go:245-273 | A printed list of any strings splits and unquotes to the same list |
| ConfigFile.LineRoundTrip | internal/config/config.go:38-74 | A written line is read as its key and the text of its value |
| ConfigText.QuoteRoundTrip | internal/config/config.go:231-243 | Unquoting undoes quoting for every string, whichever characters count as printable |
| ConfigText.QuoteScan | internal/config/config.go:275-297 | A quoted string hides every comment sign and comma in it and ends outside quotes |
| ConfigText.IntRoundTrip | internal/config/config.go:121-131 | Every 64-bit integer reads back from its decimal text |
| ConfigText.HexRoundTrip | internal/config/config.go:299-316 | Escaped characters read back from their digits |
| ConfigLoader.StripComment | internal/config/config.go:275-297 | The loop with its two variables cuts at the first comment sign outside quotes |
| ConfigLoader.SplitItems | internal/config/config.go:245-273 | The loop cuts at the commas outside quotes and drops a blank last piece |
| ConfigLoader.Strings | internal/config/config.go:133-152 | The getter returns the list of the first key that is set, or nothing if a piece is not a string |
| ConfigLoader.Load | internal/config/config.go:21-75 | Reading line by line gives the specified values, or fails at the first bad or overlong line |
| ConfigLoader.SortStrings | internal/config/config.go:318-324 | The in-place sort leaves the same keys, each no later than its successor |
| ConfigLoader.OrderedThroughout | internal/config/config.go:318-324 | Neighbours in order mean every key is no later than any after it |
| ConfigLoader.SectionKeys | internal/config/config.go:171-182 | Each section's keys are collected once each and sorted |
| ConfigLoader.SortedEnumerates | internal/config/config.go:171-182 | Sorting loses and repeats no key |
| ConfigLoader.Write | internal/config/config.go:154-229 | The written text is the header and the two sections, each in key order |
| Tasks.RunsAreSound | internal/engine/task.go:112-124 | Used slots are exactly the Starts holding one plus the started processes not yet reaped, never more than the limit, under any interleaving |
| Tasks.StepSlots | internal/engine/task.go:270-301 | No step loses a slot or frees one twice |
| Tasks.KillIsComplete | internal/engine/task.go:413-434 | If the kill-switch file is there and stays, then once a StopAll that has taken its list since has run and every Start has returned, every started process has been signalled or is gone |
| Tasks.FirstLookStops | internal/engine/engine.go:200-222 | The first look that reports the file after the switch was off begins a StopAll, whatever has happened since it looked |
| Tasks.GuardedIsComplete | internal/engine/task.go:413-434 | With the file there to stay, and a StopAll about to take its list, a look to come that begins one, or every running process within reach of one already begun or of its own Start, everything is signalled or gone once nothing is under way |
| Tasks.KillExactly | internal/engine/engine.go:200-260 | A state is of that kind if and only if it has no running process that no run ever signals while the file stays and the session does not end |
| Tasks.StaleLatch | internal/engine/engine.go:200-260 | If the file goes and comes back between two looks no second StopAll begins, and a call that slipped through leaves a running process that no later look reaches |
| Tasks.StaleLatchFromTheStart | internal/engine/engine.go:200-260 | Such a state is reached from the empty one in fourteen steps of one Start, one look and one file |
| Tasks.StartSucceeds | internal/engine/task.go:86-260 | With the kill switch off and unlatched and a slot free, a Start gets its process: it runs, is listed and waited for, and holds one slot more |
| Tasks.CancelledIsKilled | internal/engine/task.go:86-260 | A call that is cancelled while it has its process in its hands has signalled it when it returns, over any run |
| Broker.BrokerIsExact | internal/relay/broker.go:108-181 | In every reachable state a connection's pending table is exactly its calls in flight, used slots are exactly the calls holding one and at most 32, a device's entry is its latest registered connection, absent only after that connection's read loop ended, and any other open connection of the device is about to be closed by the one that replaced it |
| Broker.AnswersAreOwn | internal/relay/broker.go:199-239 | A call returns a result only from an error-free response carrying its own ID that was read from the connection it was sent on; that it does return it is `HeldIsReturned` |
| Broker.HeldIsReturned | internal/relay/broker.go:108-181 | In every reachable state a waiting call whose response has been read and is held for it has a run of delivery, collection, removal and release in which it returns exactly that result, or exactly that error |
| Broker.CallReturns | internal/relay/broker.go:108-239 | A whole call on a live connection with a slot free can run from its lookup to the return of the device's answer, after which the tables and slots are as they were |
| Broker.RunsAreSound | internal/relay/broker.go:322-358 | The same invariants hold over any run from any state where they hold |
| Usage.AccountsBalance | internal/oauthserver/usage.go:308-337 | Over any run of grants, codes, metering, clean-ups and failed saves, every quota and count stays within 0..2^50, what exists is what was created less what is gone, and no code is redeemed twice |
| Usage.FromNothing | internal/oauthserver/usage.go:544-577 | From empty books: quota and outstanding codes sum to what was minted less what ran out, and the redeemed codes are all different |
| Usage.NeverTwice | internal/oauthserver/usage.go:137-221 | No code is redeemed twice over any run with restarts, whichever file a failed write has left for a start to find, and every such file is accepted |
| Usage.RedeemConserves | internal/oauthserver/usage.go:557-577 | Redeeming moves one use's worth from code to account: the sum is unchanged once the account has a record, and a single-use code is gone |
| Usage.GrantWorth | internal/oauthserver/usage.go:308-323 | A grant adds exactly its quota, or is refused when the total would pass 2^50 |
| Usage.MeterCounts | internal/oauthserver/usage.go:325-337 | Metering an active account adds the bytes to what it had used, up to 2^50, keeps its quota and every other account and code, and otherwise changes nothing |
| Usage.CountIsTheSum | internal/oauthserver/usage.go:325-337 | Over any run an account's count is the sum of the bytes metered for it since its record was opened, up to 2^50, whatever is granted, redeemed or rolled back meanwhile |
| Usage.GrantExactly | internal/oauthserver/usage.go:308-323 | A grant happens if and only if its quota is within bounds, the account active and there is room; it adds exactly that to the one quota |
| Usage.CreateExactly | internal/oauthserver/usage.go:544-555 | A code is made if and only if its quota is within bounds and there is room; it has one use and a year |
| Usage.RedeemExactly | internal/oauthserver/usage.go:557-577 | A code is redeemed if and only if it is there, unexpired, with a use left, and its quota may be granted; one use goes, and no other code or account changes |
| Usage.CreatedIsRedeemable | internal/oauthserver/usage.go:544-577 | A code that was made can be redeemed by any active account with room within the year, and by nobody after that |
| Usage.CleanExactly | internal/oauthserver/server.go:1113-1118 | Clean-up drops exactly the codes that are spent or expired |
| Usage.WrittenIsAccepted | internal/oauthserver/usage.go:91-123 | What is written after any run is accepted again, entry for entry for accounts that still exist |
| Usage.Accounts.EnsureRecord | internal/oauthserver/usage.go:270-282 | An account without a record gets one with the default quota |
| Usage.Accounts.GrantQuota | internal/oauthserver/usage.go:308-323 | The 64-bit grant never overflows and does what is specified |
| Usage.Accounts.RecordBytes | internal/oauthserver/usage.go:325-337 | The 64-bit count of an active account becomes what it was plus the bytes, saturating at 2^50, with its quota and every other account as they were |
| Usage.Accounts.CreateCode | internal/oauthserver/usage.go:544-555 | A single-use code is created with a year's lifetime, below the limit of codes |
| Usage.Accounts.RedeemCode | internal/oauthserver/usage.go:557-577 | One use of a live code is taken and its quota added, or the code stays as it was |
| Usage.Accounts.Checkpoint | internal/oauthserver/usage.go:206-215 | Accounts stay marked as changed until a write succeeds |
| Usage.Accounts.SaveOrRollback | internal/oauthserver/usage.go:217-224 | A failed save puts quotas, codes and the mark back |
| Usage.Accounts.HandleRedeem | internal/oauthserver/account.go:249-276 | Redemption from the account page is kept in full and on disk, or, when the save fails, leaves the accounts exactly as they were |
| Usage.Accounts.HandleGrant | internal/oauthserver/admin.go:557-580 | The administrator's grant raises the total by exactly its quota and is on disk; if the save fails the accounts are exactly as they were, and a refused one changes no quota that was there |
| Usage.Accounts.HandleCreate | internal/oauthserver/usage.go:630-673 | A new activation code adds exactly its worth and is on disk, or the accounts are exactly as they were |
| TreeSearch.SearchRefines | internal/engine/accessibility.go:193-330 | What the bounded search visits is a first part of the depth-bounded preorder, at most the node budget long, and the matches are exactly its filter, at most the result budget; if neither budget is met and the context is live, they are all matches there are |
| TreeSearch.TreeAppends | internal/engine/accessibility.go:214-260 | Walking one tree appends a first part of its preorder, and all of it while the walk may go on |
| TreeSearch.TruncatedExactly | internal/engine/accessibility.go:214-265 | What the `truncated` mark of a search that ended in time means: the match limit was reached, or the node budget ran out at an element that has children |
| TreeSearch.CompleteExactly | internal/engine/accessibility.go:214-265 | A search that ended in time and below its match limit saw everything if and only if the elements within the depth fit the node budget |
| TreeSearch.FindsExactly | internal/engine/accessibility.go:193-330 | A search in time and within its budgets finds an element if and only if it matches and a path of usable elements leads to it from a chosen application within the depth |
| TreeSearch.MatchesExactly | internal/engine/accessibility.go:266-287 | An element matches if and only if its trimmed role is the one asked for, it bears every state asked for, and the query stands in its name, description and role, all in lower case |
| TreeSearch.PreorderExactly | internal/engine/accessibility.go:214-265 | The plain order holds exactly the elements that a path of child numbers leads to within the depth |
| TreeSearch.TruncatedMisses | internal/engine/accessibility.go:251-260 | A search that ended in time is incomplete without the mark if and only if it stayed below its match limit, there were more elements than the node budget, and the last one visited has no children |
| TreeSearch.MisleadingMark | internal/engine/accessibility.go:251-260 | There are such searches: with two leaves under one element and a budget for two, every search that ends in time and below its match limit ends unmarked and without the second leaf |
| TreeSearch.Bound | internal/engine/accessibility.go:193-213 | Every bound is normalized to between one and its maximum, and a request within it is kept |
| TreeSearch.Walker.WalkFrom | internal/engine/accessibility.go:214-265 | The recursion over the walker's fields computes the specified walk and ends on remaining depth |
| TreeSearch.Walker.WalkApplications | internal/engine/accessibility.go:296-330 | The loop over the application roots computes the specified search |
| Challenges.AcceptedOnce | internal/oauthserver/server.go:2785-2837 | Over any run whose clock does not go back a challenge text is accepted at most once, although expired records are purged |
| Challenges.AcceptedExactly | internal/oauthserver/server.go:2785-2837 | A presented text is accepted if and only if both parts decode, the MAC is right for this bucket, the expiry lies ahead by at most 35 seconds, the text is not among the bucket's unexpired records, and there are fewer than 64 of them |
| Challenges.ChallengeAcceptedOnce | internal/oauthserver/server.go:2785-2837 | So a challenge is accepted at most once if it is presented in the one spelling in which it was handed out |
| Challenges.AcceptedPerSpelling | internal/oauthserver/server.go:2800-2837 | Of two presentations of one valid challenge with room for both records, the second is accepted too if and only if it is another text |
| Challenges.HasOtherSpelling | internal/oauthserver/server.go:2785-2799 | Every challenge has a second text that decodes to the same bytes |
| Challenges.EveryChallengeTwice | internal/oauthserver/server.go:2785-2837 | So every valid challenge with an empty bucket is accepted twice at one reading of the clock |
| Base64.DecodesAs | internal/oauthserver/server.go:2790-2797 | Decoding gives the bytes back whatever the spare bits of the last character are |
| Challenges.BucketsStaySmall | internal/oauthserver/server.go:2826-2837 | No bucket ever holds more than 64 records |
| Challenges.ClockMatters | internal/oauthserver/server.go:2811-2824 | The proviso is needed: once any valid request at or past the expiry has purged the record, any earlier reading at which the challenge is valid, with room in the bucket, accepts it again |
| Challenges.Consumed.Sweep | internal/oauthserver/server.go:2811-2824 | The purging loop deletes exactly the expired records of one bucket |
| Challenges.Consumed.AvailableLocked | internal/oauthserver/server.go:2891-2904 | A challenge is available if it is unrecorded and its bucket has room after the purge |
| Challenges.Consumed.ConsumeLocked | internal/oauthserver/server.go:2967-2984 | A challenge is recorded exactly when it was available |
| Challenges.Consumed.Present | internal/oauthserver/server.go:2941-2984 | A genuine, unexpired challenge is accepted and recorded in one step |

## Left out

- RelayProvenance.EveryTokenIsTraced: starts from an empty disk; tokens that a file from before token families brings along have no code to be traced to, and `RelayProvenance.RunsAreTraced` covers any start whose tokens are traced and whose rotation is intact.
- Challenges.Consumed.Present: validation and consumption use one reading of the clock, where the handlers read it twice.
- RelayServer.Server.HandleRegister: the challenge a device-bound registration consumes is modelled in `Challenges`, not as part of this call; the same holds of RelayServer.Server.BeginAuthorizationLocked.
- RelayServer.Server.Save: what the system calls of a save can leave is one of four outcomes here, which `StateGuard.TransactionExplained` and `EndExplained` show to be all there are.
- RelayFreeze.DirtyStartExactly: says nothing of a file in which no credential works and no enabled account can log in with the switches as they are, such as one that an administrator would first have to open.
- CredentialStore.HonestExactly: a failing save may leave any earlier file as well as its own, and a start may find the guard dirty or not, so the server of `CredentialStore` may find more than the Relay would.
- RelayServer.Server.CommitAuthorizationLocked: on failure it says nothing about the tables, because each caller restores its snapshot.
- FileCommit.Directory.WriteIfUnchanged: others may act before each of our system calls but not write through an already open descriptor, and the claims about failures assume they do not act between the exchange and its rollback, as the comment at internal/engine/path_secure_linux.go:587-591 does.
- FileCommit.Directory.Move: source and destination parents are one directory here, so a move between directories is a move between two names.
- Tasks.KillIsComplete: a process counts as started once it runs; its process group, its terminal and its log are not part of this model.
- ConfigLoader.ConfigRoundTrip: strings are characters, so invalid UTF-8 and byte escapes from \x80 on are outside it, and so are `int64` values, which `formatValue` prints as strings.
- Usage.AccountsBalance: the administrator's set-usage and set-reward switches are not steps of it, and the redemption of advertising rewards, which the program keeps switched off, is not modelled. It speaks of one process; across restarts `Usage.NeverTwice` says what is kept, since quota counted but not yet written goes with the process.
- Usage.Accounts.RecordBytes: what is metered is counted; the per-account gate that lets one metered request of an account in at a time, and the refusal of requests once the quota is used up (internal/oauthserver/usage.go:381-421), are not part of this model.
- RelaySeals.AdmitsOnce: the invitation's code is one drawn before, so that none issued later is the same; accounts that join while registration is open use up no invitation.
- The Server's maps are grouped into four record values (registry, grants, web, switches), each replaced as a whole where the program updates one map in it.
- The concurrent parts (credential store, running commands, broker) are state machines over values: their objects are touched by several goroutines at once, so a method-by-method class would hide the interleavings.
- Display names, record IDs, creation and last-seen times, the security-event log, and the callbacks that reset a live Agent session when its authority ends.
- HTTP, cookies, CSRF, rate limits, HTML, re-authentication windows, and the parsing of URLs and forms; a request arrives parsed, and an action with its value parsed.
- Password hashing and its limits; a password is its hash, verified beforehand.
- JSON decoding: a missing map is an empty one and the settings block is present.
- The lower-casing of schemes, hosts and user names is ASCII lower-casing; the search's lower-casing is any function.
- The number of Agent connections: the count and the insertion are under separate lock holds, so 64 is not an invariant.
- D-Bus: a reference that cannot be read is a leaf that is not valid, and a cyclic tree is its unfolding to the depth limit.
- The non-Linux file commits, whose check and rename are separate, and appends and plain atomic writes, which compare nothing.
- Terminals, sandboxing, screenshots, the desktop portal, the installer, health checks and the command line.
