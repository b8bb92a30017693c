# HIAHKernel login window: credentials, anisette data and self-refresh

This project is a Dafny model of the credential and certificate-refresh logic of the HIAH Desktop
login window. It has six parts:

- **Anisette fetch** (`anisette.dfy`, `Anisette`). `fetchFromServer` walks the public anisette
  servers in order. It renames each server's keys to the ten canonical `ALTAnisetteData` fields
  (the first server key present wins), requires all ten fields, and classifies the failure once
  every server has failed.
- **AltSign callback adapters** (`apple_api.dfy`, `AppleAPI`). The continuation wrappers turn a
  `(value?, error?)` or `(success, error?)` completion into one result. The error always wins over
  a value. When neither is present, each wrapper has its own fallback.
- **Account manager** (`account_manager.dfy`, `Accounts`). The class `AccountManager` holds the
  in-memory triple (account, session, team) and the store. The store is two `UserDefaults` strings
  plus one keychain entry. The module has login, logout, session restore and session refresh, and
  save/load/clear of the stored session.
- **Authentication manager** (`authentication_manager.dfy`, `Auth`). The class
  `AuthenticationManager` holds the published flags (`isAuthenticated`, `appleID`,
  `certificateExpirationDate`, `isLoading`, `lastError`). It sets them around authenticate, refresh
  and sign-out.
- **Local helper stub** (`minimuxer.dfy`, `MinimuxerStub`). This is the disabled minimuxer: a status
  that can never become `ready`, queries that always answer no, and actions that always fail with
  error 99. It also has the ordered pairing-file lookup.
- **JIT enabler** (`jit_enabler.dfy`, `JIT`). This is the decision tree from "already enabled",
  through the debug server, to the VPN fallback. It is a function of what the enabler observes.
- **Refresh service** (`refresh_service.dfy`, `Refresh`). The class `RefreshService` has
  `performRefresh`: a chain of guards, a bounded device poll, the App ID, profile and install
  steps, and recording plus persisting of the new dates. Around it are the manual and launch-time
  refreshes, the expiration-warning decision and the expiry read-outs.

Shared pieces:

- `errors.dfy` (`Errors`) gathers the Swift error enums and their `errorDescription` strings.
- `wrappers.dfy` (`Wrappers`) has Option, Result and Outcome.
- `decimal.dfy` (`Decimal`) has the `%d` rendering used by the expiry text, with its inverse.

The outside world comes in as parameters:

- a `ServerResponse` per anisette server;
- a `Reply`/`StatusReply` per Apple call;
- the helper's and the file system's answers (`RefreshEnv`, `Observations`);
- the device probes, one boolean per `testDeviceConnection` call;
- the certificate manager's replies (`CertificateReplies`);
- the calendar's day and hour counts, and `now`, as integers (seconds since the epoch).

Each imperative operation is a method proved equal to a specification function:

- `FetchFromServer` against `ExpectedFetch`;
- `Login` against `ExpectedLogin`;
- `RestoreSession` against `RestoreDecision`;
- `PerformRefresh` and `RunSteps` against `ExpectedRefresh`.

The properties the source promises are lemmas about those functions. `AccountManager.IsAuthenticated`
is defined as "account and session are both present", as `isAuthenticated` is in the source.

In these places the code does something other than what its own names and comments suggest
(for instance, the comment before the `anisetteServerTimeout` check at
`AltSignExtensions.swift:174` says it tests whether every failure was a timeout). The model follows the code:

- When an adapter gets both a value and an error, the error simply wins. There is no separate
  "ambiguous reply" error.
- `enableJIT` never reports failure. Every path completes with `(true, nil)`.
- `isRefreshing` is set and reset, but no operation checks it. Two refreshes are not serialised.
- When the saved session is invalid (a team-list error or no team), `restoreSession` only clears
  storage. It leaves the in-memory fields as they were.
- The not-logged-in guard of `refresh()` comes before `isLoading` is raised. That failure therefore
  changes no published state.
- The anisette fetch's timeout error is meant for "all servers timed out", but the code looks only
  at the last request error. An earlier timeout is forgotten when a later server throws something
  else, and one timeout survives later servers that answer with a bad status
  (`LastErrorDecidesTimeout`).

## Model

| member | source | states |
|---|---|---|
| Decimal.DecimalString | src/HIAHLoginWindow/Refresh/RefreshService.swift:587-593 | the `%d` numeral of a count is non-empty, all digits, with no leading zero |
| Decimal.DecimalRoundTrip | src/HIAHLoginWindow/Refresh/RefreshService.swift:587-593 | reading the numeral back gives the count printed |
| Anisette.FirstPresent | src/HIAHLoginWindow/Auth/AltSignExtensions.swift:140-145 | nothing exactly when no key of the row is in the JSON; otherwise the value of a key of the row that is present |
| Anisette.FirstPresentIsFirst | src/HIAHLoginWindow/Auth/AltSignExtensions.swift:140-145 | the value taken is that of the earliest listed key present (the inner loop breaks there) |
| Anisette.RemapKeys | src/HIAHLoginWindow/Auth/AltSignExtensions.swift:122-146 | the nested mapping loop builds exactly the remapped dictionary `Remap(json)` |
| Anisette.RemapField | src/HIAHLoginWindow/Auth/AltSignExtensions.swift:126-146 | a canonical field is in the remapped dictionary iff one of its server keys is in the JSON, and then holds the first such key's value |
| Anisette.AppleHeaderNameWins | src/HIAHLoginWindow/Auth/AltSignExtensions.swift:127-145 | when `X-Apple-I-MD-M` is sent its value is the machine ID, whatever `machineID` holds |
| Anisette.MissingKeys | src/HIAHLoginWindow/Auth/AltSignExtensions.swift:149-152 | a key is reported missing iff it is required and absent from the dictionary |
| Anisette.NoMissingIffAllPresent | src/HIAHLoginWindow/Auth/AltSignExtensions.swift:149-157 | the missing list is empty iff every required key is present |
| Anisette.RequiredAreAltKeys | src/HIAHLoginWindow/Auth/AltSignExtensions.swift:126-151 | the required keys are the table's canonical keys, in table order, and no two rows fill the same key |
| Anisette.RemapMatchesFields | src/HIAHLoginWindow/Auth/AltSignExtensions.swift:126-157 | each required key is present after remapping iff its field resolves, with that field's value |
| Anisette.ValidationIsCompleteness | src/HIAHLoginWindow/Auth/AltSignExtensions.swift:139-157 | validation passes iff all ten fields resolve from the one JSON object, and the data built is the field-by-field reading of it |
| Anisette.AcceptSpec | src/HIAHLoginWindow/Auth/AltSignExtensions.swift:104-165 | a server yields data iff it answers HTTP 200 with a JSON object that resolves all ten fields and is accepted; the data is that object's reading, never partial |
| Anisette.FetchReturnsFirstComplete | src/HIAHLoginWindow/Auth/AltSignExtensions.swift:86-165 | the fetch succeeds iff some server yields data, and then returns the data of the first such server in list order |
| Anisette.LastThrownIsLast | src/HIAHLoginWindow/Auth/AltSignExtensions.swift:167-171 | `lastError` is unset iff no request threw, and otherwise is the error of the last server whose request threw |
| Anisette.Classify | src/HIAHLoginWindow/Auth/AltSignExtensions.swift:174-182 | no last error gives `invalidAnisetteData`, a timed-out or lost connection gives `anisetteServerTimeout`, any other error is rethrown unchanged |
| Anisette.FetchFailureClassification | src/HIAHLoginWindow/Auth/AltSignExtensions.swift:104-182 | when no server yields data: no thrown error (only bad responses) gives `invalidAnisetteData`; otherwise the outcome classifies the last thrown error |
| Anisette.NoDataFetch | src/HIAHLoginWindow/Auth/AltSignExtensions.swift:174-182 | when no server gives data, the fetch fails with the classification of the last request error |
| Anisette.LastErrorDecidesTimeout | src/HIAHLoginWindow/Auth/AltSignExtensions.swift:174-182 | a timeout followed by a refused connection fails with the refused connection's error; a refused connection followed by a timeout, or a timeout followed by a 500 status, gives `anisetteServerTimeout` |
| Anisette.AllTimedOut | src/HIAHLoginWindow/Auth/AltSignExtensions.swift:174-180 | every server timing out gives `anisetteServerTimeout` |
| Anisette.FetchFromServer | src/HIAHLoginWindow/Auth/AltSignExtensions.swift:84-184 | the server loop returns exactly `ExpectedFetch` of the servers' responses |
| AppleAPI.Resolve | src/HIAHLoginWindow/Auth/AltSignExtensions.swift:231-243 | an error wins and is wrapped, a value is returned as it is, and with neither the wrapper's own fallback applies |
| AppleAPI.ResolveStatus | src/HIAHLoginWindow/Auth/AltSignExtensions.swift:276-288 | an error wins and is wrapped; with no error, success passes and failure gives the wrapper's own error |
| AppleAPI.Authenticate | src/HIAHLoginWindow/Auth/AltSignExtensions.swift:192-215 | success iff no error and both account and session; an error becomes `authenticationFailed` with its description, a missing half becomes "Unknown authentication error" |
| AppleAPI.HandlerlessVerificationCode | src/HIAHLoginWindow/Auth/AltSignExtensions.swift:218-228 | the handler-less variant answers every 2FA request with no code |
| AppleAPI.FetchTeams | src/HIAHLoginWindow/Auth/AltSignExtensions.swift:231-243 | an error gives `networkError`, no teams gives `noTeamsFound`, otherwise the list returned |
| AppleAPI.FetchCertificates | src/HIAHLoginWindow/Auth/AltSignExtensions.swift:246-258 | an error gives `networkError`; otherwise the list, or `[]` when none is passed |
| AppleAPI.AddCertificate | src/HIAHLoginWindow/Auth/AltSignExtensions.swift:261-273 | an error gives `certificateFailed` with its description, no certificate gives `certificateFailed("Unknown error")`; success iff no error and a certificate, and then exactly that certificate |
| AppleAPI.RevokeCertificate | src/HIAHLoginWindow/Auth/AltSignExtensions.swift:276-288 | passes iff no error and success; an unsuccessful revoke gives "Failed to revoke certificate" |
| AppleAPI.FetchDevices | src/HIAHLoginWindow/Auth/AltSignExtensions.swift:291-303 | an error gives `networkError`; otherwise the list, or `[]` |
| AppleAPI.RegisterDevice | src/HIAHLoginWindow/Auth/AltSignExtensions.swift:306-318 | an error gives `networkError`, no device gives `provisioningFailed("Failed to register device")`; success iff no error and a device, and then exactly that device |
| AppleAPI.FetchAppIDs | src/HIAHLoginWindow/Auth/AltSignExtensions.swift:321-333 | an error gives `networkError`; otherwise the list, or `[]` |
| AppleAPI.AddAppID | src/HIAHLoginWindow/Auth/AltSignExtensions.swift:336-348 | an error gives `provisioningFailed` with its description, no App ID gives "Failed to create App ID", otherwise the App ID returned |
| AppleAPI.FetchProvisioningProfile | src/HIAHLoginWindow/Auth/AltSignExtensions.swift:351-363 | an error gives `provisioningFailed` with its description, no profile gives "Failed to fetch provisioning profile", otherwise the profile returned |
| AppleAPI.SignApp | src/HIAHLoginWindow/Auth/AltSignExtensions.swift:371-386 | passes iff no error and success; an error gives `signingFailed` with its description, failure without one "Unknown signing error" |
| MinimuxerStub.Transition | src/HIAHLoginWindow/JIT/HIAHMinimuxer.swift:58-74 | `initialize`, `start` and `stop` all leave the status `disabled` |
| MinimuxerStub.NeverReady | src/HIAHLoginWindow/JIT/HIAHMinimuxer.swift:44-74 | from the initial `disabled`, no sequence of lifecycle calls reaches `ready` |
| MinimuxerStub.Minimuxer.constructor | src/HIAHLoginWindow/JIT/HIAHMinimuxer.swift:44-54 | the helper starts `disabled` with the disabled message as its last error |
| MinimuxerStub.Minimuxer.IsReady | src/HIAHLoginWindow/JIT/HIAHMinimuxer.swift:47-49 | never ready |
| MinimuxerStub.Minimuxer.InitializeHelper | src/HIAHLoginWindow/JIT/HIAHMinimuxer.swift:58-65 | sets the status to `disabled` and the disabled message, and answers false |
| MinimuxerStub.Minimuxer.StartHelper | src/HIAHLoginWindow/JIT/HIAHMinimuxer.swift:67-69 | is `initialize` without a log path: disabled, false |
| MinimuxerStub.Minimuxer.StopHelper | src/HIAHLoginWindow/JIT/HIAHMinimuxer.swift:71-74 | sets the status to `disabled` and leaves the last error message alone |
| MinimuxerStub.Minimuxer.FetchDeviceUDID | src/HIAHLoginWindow/JIT/HIAHMinimuxer.swift:78-81 | never a device identifier |
| MinimuxerStub.Minimuxer.TestDeviceConnection | src/HIAHLoginWindow/JIT/HIAHMinimuxer.swift:83-85 | the device never answers |
| MinimuxerStub.Minimuxer.EnableJIT | src/HIAHLoginWindow/JIT/HIAHMinimuxer.swift:89-93 | always throws the `HIAHMinimuxer` error 99 |
| MinimuxerStub.Minimuxer.AttachDebugger | src/HIAHLoginWindow/JIT/HIAHMinimuxer.swift:95-99 | always throws the `HIAHMinimuxer` error 99 |
| MinimuxerStub.Minimuxer.InstallIPA | src/HIAHLoginWindow/JIT/HIAHMinimuxer.swift:103-107 | always throws the `HIAHMinimuxer` error 99 |
| MinimuxerStub.Minimuxer.RemoveApp | src/HIAHLoginWindow/JIT/HIAHMinimuxer.swift:109-113 | always throws the `HIAHMinimuxer` error 99 |
| MinimuxerStub.Minimuxer.InstallProvisioningProfile | src/HIAHLoginWindow/JIT/HIAHMinimuxer.swift:117-121 | always throws the `HIAHMinimuxer` error 99 |
| MinimuxerStub.Minimuxer.RemoveProvisioningProfile | src/HIAHLoginWindow/JIT/HIAHMinimuxer.swift:123-127 | always throws the `HIAHMinimuxer` error 99 |
| MinimuxerStub.IsAvailable | src/HIAHLoginWindow/JIT/HIAHMinimuxer.swift:159-161 | the stub is never available |
| MinimuxerStub.DefaultPairingFilePath | src/HIAHLoginWindow/JIT/HIAHMinimuxer.swift:133-149 | a path iff there is a documents directory holding one of the two names; AltStore's name before SideStore's; the path returned exists |
| MinimuxerStub.HasPairingFileIffCandidate | src/HIAHLoginWindow/JIT/HIAHMinimuxer.swift:152-154 | a pairing file is reported iff one of the two candidate files exists |
| JIT.VPNFallbackOutcome | src/HIAHLoginWindow/JIT/HIAHJITEnabler.swift:98-119 | the fallback keeps the calls made and its reason, completes once with `(true, nil)` whatever the re-check sees, and records that re-check |
| JIT.EnableJIT | src/HIAHLoginWindow/JIT/HIAHJITEnabler.swift:31-94 | JIT is confirmed iff it was on at entry or the re-check after the wait sees it; the helper is not called iff JIT was on at entry; at most four helper calls |
| JIT.EnableJITForCurrentProcess | src/HIAHLoginWindow/JIT/HIAHJITEnabler.swift:25-28 | enables JIT for the main bundle's identifier, or for the desktop's when there is none |
| JIT.AlwaysReportsSuccess | src/HIAHLoginWindow/JIT/HIAHJITEnabler.swift:31-119 | on every path the completion is called exactly once, with `(true, nil)` |
| JIT.AlreadyEnabledTouchesNothing | src/HIAHLoginWindow/JIT/HIAHJITEnabler.swift:33-46 | the "already enabled" outcome happens iff JIT is on at entry, and then the helper is never called |
| JIT.DebugServerCallsEnable | src/HIAHLoginWindow/JIT/HIAHJITEnabler.swift:45-88 | the debug server is used iff the helper runs, the device answers and `enableJIT` does not throw; its last calls are the connection test, then `enableJIT` for the requested bundle |
| JIT.FallbackReasons | src/HIAHLoginWindow/JIT/HIAHJITEnabler.swift:46-93 | no pairing path, a failed `initialize`, an unreachable device and a throwing `enableJIT` each lead to the VPN fallback, for that reason |
| JIT.FallbackIff | src/HIAHLoginWindow/JIT/HIAHJITEnabler.swift:31-119 | the fallback is taken iff JIT is off at entry and the primary path fails somewhere |
| JIT.CurrentProcessDefaultsBundle | src/HIAHLoginWindow/JIT/HIAHJITEnabler.swift:25-28 | without a main bundle identifier the desktop's identifier is the one enabled |
| JIT.StubAlwaysFallsBack | src/HIAHLoginWindow/JIT/HIAHJITEnabler.swift:45-93 | with the stub's answers, JIT that is not already on always ends in the fallback, and the helper is never asked to enable it |
| Accounts.LoadStore | src/HIAHLoginWindow/Auth/HIAHAccountManager.swift:230-256 | a session iff both ordinary keys and the keychain token are present, made of exactly those three values |
| Accounts.SaveThenLoad | src/HIAHLoginWindow/Auth/HIAHAccountManager.swift:210-256 | loading after saving gives back the saved Apple ID, DSID and token |
| Accounts.ClearThenLoad | src/HIAHLoginWindow/Auth/HIAHAccountManager.swift:230-269 | nothing loads after a clear |
| Accounts.ClearIdempotent | src/HIAHLoginWindow/Auth/HIAHAccountManager.swift:258-269 | clearing twice is clearing once |
| Accounts.StoreFrame | src/HIAHLoginWindow/Auth/HIAHAccountManager.swift:210-269 | for every other key and keychain entry: saving keeps the key and its value, clearing keeps whether the key is present, and both keep whether the entry is present and its value |
| Accounts.LoginSuccess | src/HIAHLoginWindow/Auth/HIAHAccountManager.swift:60-115 | login succeeds iff anisette, authentication and the team list all succeed with at least one team; it yields the account, session and first team; an empty list gives `noTeamsFound` |
| Accounts.LoginAnisetteFirst | src/HIAHLoginWindow/Auth/HIAHAccountManager.swift:63-71 | an anisette failure ends the login with that error, before Apple is contacted |
| Accounts.RestoreKeepsSavedCredentials | src/HIAHLoginWindow/Auth/HIAHAccountManager.swift:138-183 | a restored session has the saved DSID and token, the account's identifier is the DSID, and the anisette data is the freshly fetched data; no saved session and anisette failure are told apart exactly |
| Accounts.AccountManager.IsAuthenticated | src/HIAHLoginWindow/Auth/HIAHAccountManager.swift:34-36 | signed in requires both an account and a session; under the manager's invariant it holds iff a team is set |
| Accounts.AccountManager.LoadSession | src/HIAHLoginWindow/Auth/HIAHAccountManager.swift:230-256 | a session iff both ordinary keys and the keychain token are stored, with the stored Apple ID and token |
| Accounts.AccountManager.constructor | src/HIAHLoginWindow/Auth/HIAHAccountManager.swift:25-47 | nobody is signed in at start and the store is the one given |
| Accounts.AccountManager.SetTwoFactorHandler | src/HIAHLoginWindow/Auth/HIAHAccountManager.swift:53 | installs or removes the 2FA handler and changes nothing else |
| Accounts.AccountManager.TwoFactorRoute | src/HIAHLoginWindow/Auth/HIAHAccountManager.swift:75-91 | a 2FA request goes to the handler iff one is set, else it is posted as `HIAHRequires2FA` |
| Accounts.AccountManager.SaveSession | src/HIAHLoginWindow/Auth/HIAHAccountManager.swift:210-228 | the store becomes the saved store and loads back the triple just saved; the in-memory fields are untouched |
| Accounts.AccountManager.ClearSession | src/HIAHLoginWindow/Auth/HIAHAccountManager.swift:258-269 | the store becomes the cleared store, from which nothing loads |
| Accounts.AccountManager.Login | src/HIAHLoginWindow/Auth/HIAHAccountManager.swift:60-115 | result as `ExpectedLogin`; success sets account, session and first team and saves the typed Apple ID with the session's DSID and token; failure changes nothing |
| Accounts.AccountManager.Logout | src/HIAHLoginWindow/Auth/HIAHAccountManager.swift:118-133 | storage cleared, all three fields nil, not authenticated, and the sign-out notification posted |
| Accounts.AccountManager.RestoreSession | src/HIAHLoginWindow/Auth/HIAHAccountManager.swift:138-183 | outcome as `RestoreDecision` of the stored session; restored sets the triple and keeps storage; invalid session or no team clears storage only; no session or no anisette changes nothing |
| Accounts.AccountManager.RefreshSession | src/HIAHLoginWindow/Auth/HIAHAccountManager.swift:186-200 | not signed in gives `authenticationFailed("Not logged in")`; success replaces only the session's anisette data; failure changes nothing |
| Auth.AuthenticationManager.constructor | src/HIAHLoginWindow/Auth/AuthenticationManager.swift:62-64 | the published state starts as a mirror of the account manager |
| Auth.AuthenticationManager.Authenticate | src/HIAHLoginWindow/Auth/AuthenticationManager.swift:81-116 | passes iff login and the certificate fetch both succeed; success publishes the Apple ID, signed in, the expiry and the success notification; failure records and returns that error and keeps the rest; a successful login leaves the account manager with the login's account, session and team and the saved store, a failed one leaves it as it was; the 2FA handler is untouched; never left loading |
| Auth.AuthenticationManager.SignOut | src/HIAHLoginWindow/Auth/AuthenticationManager.swift:119-142 | Apple ID, signed-in flag and expiry reset, account manager logged out, sign-out posted twice (by the account manager and here); the 2FA handler is untouched |
| Auth.AuthenticationManager.Refresh | src/HIAHLoginWindow/Auth/AuthenticationManager.swift:145-173 | not signed in gives `notLoggedIn` with nothing changed; otherwise anisette refreshed (the session carries the new anisette data as soon as the fetch succeeds, even if the certificate fetch then fails; an anisette failure leaves the session as it was), certificate re-fetched only when needed, expiry copied on success, error recorded on failure; account, team, store and 2FA handler untouched; never left loading |
| Auth.AuthenticationManager.DaysUntilExpiration | src/HIAHLoginWindow/Auth/AuthenticationManager.swift:181-186 | nothing iff there is no expiration date; otherwise the calendar's day count |
| Auth.AuthenticationManager.CheckExistingAuthentication | src/HIAHLoginWindow/Auth/AuthenticationManager.swift:190-209 | signed in exactly when the account manager is, then with its Apple ID and the certificate expiry; otherwise all three fields reset |
| Refresh.SleepCountFrom | src/HIAHLoginWindow/Refresh/RefreshService.swift:414-419 | the poll sleeps until the first probe that answers, and at most ten times |
| Refresh.PollSleeps | src/HIAHLoginWindow/Refresh/RefreshService.swift:414-419 | a poll that sleeps k times makes k sleeps and k + 1 probes |
| Refresh.FirstWithBundle | src/HIAHLoginWindow/Refresh/RefreshService.swift:440 | nothing iff no App ID has the bundle identifier; otherwise one from the list with that identifier |
| Refresh.FirstWithBundleIsFirst | src/HIAHLoginWindow/Refresh/RefreshService.swift:440-442 | the App ID taken is the earliest one in the list with the bundle identifier |
| Refresh.UnavailableFirst | src/HIAHLoginWindow/Refresh/RefreshService.swift:371-374 | without self-refresh the refresh fails with `minimuxerNotAvailable` before any other check or call |
| Refresh.GuardOrder | src/HIAHLoginWindow/Refresh/RefreshService.swift:376-411 | the guards fail in their order (`notAuthenticated`, `vpnNotConnected`, `noPairingFile`, `minimuxerNotReady` from `initialize`), with no call, or only `initialize`, made |
| Refresh.PollBounded | src/HIAHLoginWindow/Refresh/RefreshService.swift:413-419 | a whole refresh sleeps at most ten times |
| Refresh.ProfileStepsNoSleep | src/HIAHLoginWindow/Refresh/RefreshService.swift:431-474 | the App ID, profile and install steps never sleep |
| Refresh.UnreachableDevice | src/HIAHLoginWindow/Refresh/RefreshService.swift:397-423 | a device that does not answer the check after the poll gives `minimuxerNotReady`; every call made was `initialize`, a connection test or a sleep (so no App ID, profile or install call), the last one the final connection test |
| Refresh.PollHelperOnly | src/HIAHLoginWindow/Refresh/RefreshService.swift:413-419 | every call of the poll is a connection test or a sleep |
| Refresh.AppIDStep | src/HIAHLoginWindow/Refresh/RefreshService.swift:431-465 | an existing App ID for the bundle is reused and none is created; with none, "HIAH Desktop" is created for the bundle; errors of these calls and of the profile fetch become `profileFetchFailed` |
| Refresh.ProfileStepsOutcome | src/HIAHLoginWindow/Refresh/RefreshService.swift:452-474 | success means every reply was good, the install did not throw, and the installed profile is the one Apple returned; an install error gives `profileInstallFailed`; every failure is a refresh error |
| Refresh.RefreshSuccess | src/HIAHLoginWindow/Refresh/RefreshService.swift:358-474 | a refresh succeeds only if every guard passed, the helper started and the device answered, and then it returns what the profile steps return |
| Refresh.WarningFor | src/HIAHLoginWindow/Refresh/RefreshService.swift:220-244 | no date gives no warning; it is scheduled iff the warning instant (expiration − 86400 s) is still ahead, for that many seconds; otherwise it is sent now, saying "expired" iff the expiration has passed |
| Refresh.WarningPhases | src/HIAHLoginWindow/Refresh/RefreshService.swift:229-244 | before the last day: scheduled; within the last day: an "expiring" notice now; after expiry: an "expired" notice now |
| Refresh.IsExpired | src/HIAHLoginWindow/Refresh/RefreshService.swift:573-578 | an unknown expiry counts as expired; otherwise expired iff the day count is negative |
| Refresh.FormattedTimeUntilExpiration | src/HIAHLoginWindow/Refresh/RefreshService.swift:581-594 | the text is "Unknown" iff the hour count is unknown |
| Refresh.FormattedTimeReadsBack | src/HIAHLoginWindow/Refresh/RefreshService.swift:581-594 | negative hours read "Expired"; under a day, "<hours> hours"; otherwise "<hours / 24> days", at least one; the number reads back exactly |
| Refresh.LaunchDecision | src/HIAHLoginWindow/Refresh/RefreshService.swift:516-529 | nothing to do iff the day count is unknown or above two; otherwise an expiry notice (expired iff days < 0) without self-refresh, and an automatic refresh with it |
| Refresh.Lookup | src/HIAHLoginWindow/Refresh/RefreshService.swift:127-129 | a stored date iff the key is present, with its stored value |
| Refresh.PersistThenLoad | src/HIAHLoginWindow/Refresh/RefreshService.swift:127-147 | loading after persisting gives back each known date and the previously stored one for an unknown date; other keys are untouched |
| Refresh.RefreshService.constructor | src/HIAHLoginWindow/Refresh/RefreshService.swift:93-111 | dates loaded from the store, self-refresh as the helper's availability, nothing refreshing |
| Refresh.RefreshService.CheckSelfRefreshAvailability | src/HIAHLoginWindow/Refresh/RefreshService.swift:116-123 | `canSelfRefresh` becomes the helper's availability and nothing else changes |
| Refresh.RefreshService.ExpirationWarning | src/HIAHLoginWindow/Refresh/RefreshService.swift:220-244 | no warning iff the service has no expiration date; a scheduled warning fires 86400 s before it; a notice due now says "expired" iff the date has passed |
| Refresh.RefreshService.LoadPersistedState | src/HIAHLoginWindow/Refresh/RefreshService.swift:127-137 | both dates are read from the store and nothing else changes |
| Refresh.RefreshService.PersistState | src/HIAHLoginWindow/Refresh/RefreshService.swift:139-147 | only the known dates are written to the store |
| Refresh.RefreshService.EffectiveExpiration | src/HIAHLoginWindow/Refresh/RefreshService.swift:546-553 | the authentication manager's expiry when it has one, else the service's own |
| Refresh.RefreshService.DaysUntilExpiration | src/HIAHLoginWindow/Refresh/RefreshService.swift:546-557 | nothing iff there is no effective expiry; otherwise the calendar's day count |
| Refresh.RefreshService.WaitForDevice | src/HIAHLoginWindow/Refresh/RefreshService.swift:413-423 | the loop sleeps `SleepCount` times (at most ten), and the guard answer is the probe after the loop's last |
| Refresh.RefreshService.RunSteps | src/HIAHLoginWindow/Refresh/RefreshService.swift:397-474 | once the guards pass, the steps return exactly `ExpectedRefresh` |
| Refresh.RefreshService.PerformRefresh | src/HIAHLoginWindow/Refresh/RefreshService.swift:358-499 | the run is `ExpectedRefresh`; only success records now and the profile's expiry (here and in the authentication manager), persists them and re-plans the warning; every failure leaves dates and store as they were; `isRefreshing` is down on exit, so the service invariant holds; self-refresh, next date and the authentication manager's other fields untouched |
| Refresh.RefreshService.ManualRefresh | src/HIAHLoginWindow/Refresh/RefreshService.swift:502-513 | without self-refresh, `minimuxerNotAvailable` with nothing changed; otherwise passes iff the refresh succeeds; success records now and the new expiry (here and in the authentication manager), persists them and sends the warning notices then the success notice; failure returns the refresh's error and leaves dates, expiry and store; self-refresh, next date and the authentication manager's other fields untouched; the invariant is kept |
| Refresh.RefreshService.RefreshOnLaunchIfNeeded | src/HIAHLoginWindow/Refresh/RefreshService.swift:516-541 | the plan is `LaunchDecision` of the day count; only an automatic refresh changes state: its success records now and the new expiry, persists them and sends the warning notices; its failure is reported with the error's description and leaves dates, expiry and store; self-refresh, next date and the authentication manager's other fields untouched; the invariant is kept |
| Refresh.StubNeverRefreshes | src/HIAHLoginWindow/Refresh/RefreshService.swift:116-123 | with the shipped helper stub a refresh always fails with `minimuxerNotAvailable`, before anything else |

## Left out

- Notifications, badges and background tasks. The notification content and scheduling, `cancelExpirationWarning`, badge counts, `registerBackgroundTasks`, `scheduleNextRefresh`, `handleRefreshTask` and its expiration handler, and `requestNotificationPermissions` are OS effects. The model records only which notice is sent (`Notice`). `nextRefreshDate` is therefore never set.
- Refresh.RefreshService.constructor: the expiration warning that the initializer schedules is not returned. A constructor's notices are not modelled; `ExpirationWarning` gives the decision.
- `refreshStatusDescription`, `appDidBecomeActive`, `appDidEnterBackground` and `disabledReason` are display text and lifecycle hooks. They are not part of this model.
- Concurrency. The `Task`, `MainActor.run` and dispatch-queue hops, the `defer` that resets `isRefreshing` in a separate task, and the 0.5 s and 1.5 s waits are modelled as sequential steps: `isRefreshing` is down again when the method returns. The `HIAHAccountDidChange` observer of the authentication manager is left out.
- The simulator's mock anisette data depends on `UUID` and `UIDevice`. It is left out; only the device path `fetchFromServer` is modelled.
- Anisette.Build: `ALTAnisetteData(json:)` is foreign code. Whether it accepts a complete dictionary is an input; the data it builds is taken to be the ten fields read directly.
- Anisette.Accept: JSON values are modelled as the strings `String(describing:)` makes of them. `URLSession`, the request headers and the 15 s timeout are not modelled.
- `HIAHCertificateManager` (`fetchCertificate`, `needsRefresh`, `expirationDate`, `revokeCertificate`) is not part of this model. Its answers are inputs, and the revoke that `signOut` starts is not modelled. `needsRefresh()` of the authentication manager only delegates to it.
- Accounts.AccountManager.RefreshSession: the session is a value, not a shared object. Aliases of the old session elsewhere do not see the new anisette data.
- The 2FA callback closure is modelled as its route (handler or `HIAHRequires2FA` notification). The code the user types is not modelled.
- The token's UTF-8 encoding in the keychain is an identity here. A keychain call that fails or a token that is not UTF-8 is not modelled.
- `UserDefaults` is two maps: strings for the account manager and dates for the refresh service. Their keys are disjoint and neither reads the other's.
- Refresh.RefreshService.RunSteps: because of a file system race, the second pairing-file lookup of step 5 could fail after the first succeeded. The file system is one snapshot in the model, so this `noPairingFile` path cannot occur. It is still written out.
- `Calendar` arithmetic and `Date()` are inputs: day counts, hour counts and `now` in seconds. Calendar rounding is not modelled.
- The `isJITEnabled` check (`CS_DEBUGGED`) is an input, read on entry and after the wait.
- Logging and `print` output are left out.
