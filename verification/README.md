# Quotio: a verified model

Quotio collects usage figures from many providers for many accounts. This project models the parts of
it in which several tasks or processes change shared state, and proves what they promise one another.

- **Accounts and the vault.** `Accounts`, `Document` and `VaultFormat` are the account document, its
  operations and its format versions; `AccountEffects` says what each leaves at every place.
  `EncryptedFile` is the file it is stored in, with every system call free to fail. `VaultProtocol`
  interleaves readers that refresh single-use tokens, account operations and keyed mutations; commits
  may succeed, fail, or be visible but unconfirmed, and a reader may stop anywhere. `VaultSafety` keeps
  its invariant, `VaultTheorems` draws the results, and `VaultReads` and `VaultWrites` say what
  undisturbed reads and mutations come to; `VaultCommit` runs calls and keyed mutations from the stored
  bytes to the stored bytes.
- **Lock scopes.** `LockRegistry` is the map of weak references to flags, paired with the file lock.
- **Sign-in sessions.** `OAuthSessions` is the session table, `OAuthProtocol` its callers, begins,
  pollers and finishers, `OAuthSafety` the invariant, `OAuthTheorems` the results and `OAuthOutcomes`
  what ordinary calls and whole sign-ins come to. `DevicePolling` is the polling loop of section 3.5 of
  RFC 8628.
- **Snapshot and cache.** `Reports` and `Collection` build a report, `UsageCache` keeps usages between
  runs and `CacheRuns` says what one run comes to; `RefreshScope` says what a refresh may report,
  `CachedReport` what it makes of diagnostics and `Listing` which adapters it runs. `SnapshotMerge` puts
  it into the snapshot and `SnapshotServer` interleaves refreshes with commits; `SnapshotRuns` follows
  one of each.
- **Readers.** `Wire` and `WireFields` are the Protocol Buffers reader; `KeyGroup` tries a group of keys
  within one budget. `Fingerprint` is the framing that makes digests tell their parts apart.

A protocol is a function `Apply` from a state and an attempted step to a state; a step that cannot
happen yet changes nothing, and theorems speak of `Run(steps)` for every sequence of steps. What the
source does in place is a class whose methods are proved against the functions the theorems use.

Assumptions: SHA-256 has no collisions and the cipher opens what it sealed; JSON decoding inverts
encoding; UTF-8 encoding is injective; random ids are fresh, and none is the word `local`; `flock`
excludes other processes and, for a cache entry, other descriptors of the same process, and is given up
on exit; a token refresh returns the credential variant it was given, no longer fenced (`Rotates`).
Apart from that, providers, clocks, timers, system calls and the network appear as parameters that may
take any value.

Where code and documentation differ the model follows the code. Three findings:

- The branch of `prune` that trims a table above 128 entries is never needed (`TablesBounded`).
- An uncertain commit is followed by its generation bump only after the commit guard is dropped, in
  `finish` and in the account mutations alike, so a report can be served that misses it
  (`UncertainCommitMissed`); `UpToDateIff` says exactly when.
- A refresh of the demo provider's "local" account makes a request that names no account
  (src/accounts/service.rs:1276-1299, src/providers/mod.rs:69), which the refreshed scope does not match
  (src/server.rs:563-566). So the old entry stays and another is added at every such refresh
  (`MockLocalListed`, `MockLocalAppends`). `ListedRefreshFitsIff` says that this is the only refresh which
  does not replace what it asks for.

## Model

| member | source | states |
|---|---|---|
| `Fingerprint.Compute` | src/cache.rs:16-28 | the streamed digest is the digest of the length-prefixed framing of all parts |
| `Fingerprint.Injective` | src/cache.rs:16-28 | two lists of parts have one fingerprint exactly when they are the same list: no two splits of the same bytes collide |
| `Fingerprint.FrameInjective` | src/cache.rs:18-21 | the framing alone, before any hashing, determines the list of parts |
| `Accounts.KeyInjective` | src/accounts/mod.rs:282-328 | an owner-map key stands for exactly one credential kind and one refresh token |
| `Documents.Document.Empty` | src/accounts/mod.rs:264-274 | a new document is the empty one every run starts from |
| `Documents.Document.ReserveRefresh` | src/accounts/mod.rs:276-341 | refuses a token that is stored or reserved for another account and changes nothing then; otherwise the reservation is the only change beside the format version |
| `Documents.Document.AddAccount` | src/accounts/mod.rs:342-392 | the document in place becomes the specified one, and is untouched when the add is refused |
| `Documents.Document.SelectAccount` | src/accounts/mod.rs:393-406 | activates the account and deactivates exactly its provider's others; untouched when the account is missing |
| `Documents.Document.RemoveAccount` | src/accounts/mod.rs:407-425 | removes the account, keeps its token reserved and passes activity to the provider's first remaining account |
| `Documents.Document.Promote` | src/accounts/mod.rs:416-423 | the first remaining account of the provider, and no other, becomes active |
| `Documents.Document.RenameAccount` | src/accounts/mod.rs:426-445 | the document in place becomes the specified one, and is untouched on a refusal |
| `Documents.Document.Enable` | src/accounts/mod.rs:453-464 | sets the flag on the account, and on its native source where it has one, and raises the format version |
| `Documents.Document.PatchAccount` | src/accounts/mod.rs:446-479 | a patch that fails part-way leaves exactly the changes of the parts before the failure in memory |
| `Documents.Document.Run` | src/accounts/mod.rs:342-479 | the operation behind each service call, in place: what it leaves in memory and the error it returns, also when it fails half-way |
| `Documents.Document.AddReceipt` | src/accounts/service.rs:434-442 | the receipt is the only change beside a version that older builds refuse |
| `Accounts.FailedCallChanges` | src/accounts/mod.rs:446-479 | of all failing operations exactly a patch that switches an existing account, or raises the version to do so, before a later part is refused leaves its in-memory document changed |
| `Accounts.RefusedPatchChanges` | src/accounts/mod.rs:446-479 | such a patch: whatever the document, switching an account and asking to make it inactive is refused with the switch already made in memory |
| `Accounts.NoSharedToken` | src/accounts/mod.rs:276-341 | in a sound document no two accounts hold the same refresh token of a lineage kind |
| `Accounts.TakenMeansOwned` | src/accounts/mod.rs:283-289 | in a sound document the two-part reservation check comes down to the owner map alone |
| `Accounts.RemoveSucceeds` | src/accounts/mod.rs:407-425 | removal fails only for a missing account: its reservation check can never refuse |
| `Accounts.ReservedNeverReadded` | src/accounts/mod.rs:357-358 | a reserved token cannot be added under a new id |
| `Accounts.AddSound` | src/accounts/mod.rs:342-392 | adding keeps ids, names and identities distinct, one active account per provider, lineage and format, and never rewrites an owner entry |
| `Accounts.SelectSound` | src/accounts/mod.rs:393-406 | selecting keeps the same invariants: exactly one active account for each provider that has any |
| `Accounts.RemoveSound` | src/accounts/mod.rs:407-425 | removing keeps the same invariants, including a successor for the removed active account |
| `Accounts.RenameSound` | src/accounts/mod.rs:426-445 | renaming keeps the same invariants |
| `Accounts.PatchSound` | src/accounts/mod.rs:446-479 | whatever state a patch reaches before it succeeds or fails keeps the same invariants |
| `Accounts.PerformSound` | src/accounts/mod.rs:342-479 | every operation keeps the document sound, its owner entries write-once and its version non-decreasing |
| `Accounts.PerformSecrets` | src/accounts/mod.rs:342-479 | no operation changes a stored credential's secret or fence: only an add brings in a new one |
| `AccountEffects.LabelIs` | src/accounts/mod.rs:481-487 | a label is accepted exactly when one to eighty characters are left between the white space and none is a control character; it is what is left |
| `AccountEffects.AddEffect` | src/accounts/mod.rs:342-392 | an add is refused for its label, or for a name, identity or token that is taken; otherwise it appends one enabled account, active exactly if its provider had no active one, reserves its token and raises the version it needs |
| `AccountEffects.SelectEffect` | src/accounts/mod.rs:393-406 | selecting makes the account, of all those of its provider, the active one; every other field and account, the version, receipts and owners stay |
| `AccountEffects.RemoveEffect` | src/accounts/mod.rs:407-425 | removing takes away that one account; if it was active its provider's first remaining account takes over; the others keep their places and all they hold, and the token stays reserved |
| `AccountEffects.RenameEffect` | src/accounts/mod.rs:426-445 | renaming stores the trimmed name at that one place, and is refused for a bad label or a name another account of the provider has |
| `AccountEffects.PatchEffect` | src/accounts/mod.rs:446-479 | a patch of a stored account stores the trimmed name, the flag and the selection it asks for and nothing else, or fails with the error of the first part that is refused |
| `AccountEffects.MissingFails` | src/accounts/mod.rs:393-445 | selecting, removing or renaming an account that is not stored is refused as not found, a bad label first |
| `AccountEffects.PatchMissing` | src/accounts/mod.rs:446-479 | a patch of an account that is not stored is refused as not found unless something else is wrong first |
| `VaultFormat.FormatAccepted` | src/accounts/vault.rs:295-337 | a document whose version covers its features passes every check of the next transaction |
| `VaultFormat.UpgradeCoversOwners` | src/accounts/vault.rs:389-403 | a document left by an older build is raised to the level of each reservation in it, changes in nothing else and stays acceptable |
| `VaultFormat.UpgradeAccepted` | src/accounts/vault.rs:389-403 | raising the version never makes an accepted document unacceptable and never lowers it |
| `VaultFormat.AcceptedLevels` | src/accounts/vault.rs:295-335 | the nine format checks together are one level comparison per account, per reservation and for the receipts |
| `VaultFormat.PerformAccepted` | src/accounts/mod.rs:342-479 | from any accepted document of any age, every operation leaves one that is accepted again |
| `VaultFormat.StoredExactly` | src/accounts/vault.rs:285-346 | a commit refuses exactly documents over a mebibyte; a transaction begins empty where nothing is stored, and otherwise with what decodes within the limit and passes every check |
| `VaultFormat.CommitThenBegin` | src/accounts/vault.rs:285-346 | what a commit encodes, the next transaction decodes to the same document |
| `EncryptedFiles.EnvelopeRoundTrip` | src/accounts/encrypted_file.rs:188-215 | any document up to the size limit is recovered from its envelope whatever the nonce, and a larger one is rejected |
| `EncryptedFiles.BoundedReadExact` | src/accounts/encrypted_file.rs:194-204 | reading a bounded prefix decides exactly like reading the whole file |
| `EncryptedFiles.EncryptedFile.Read` | src/accounts/encrypted_file.rs:188-215 | returns what the file decrypts to; a missing file is an empty vault and a refused system call an error, never an empty vault |
| `EncryptedFiles.EncryptedFile.Install` | src/accounts/encrypted_file.rs:248-263 | whichever step fails, the path holds the old bytes or the complete new ones, and the flag tells which |
| `EncryptedFiles.EncryptedFile.Replace` | src/accounts/encrypted_file.rs:222-274 | success and an uncertain commit leave the new document readable; every other error leaves the file byte for byte; an unreadable vault is never overwritten |
| `EncryptedFiles.EncryptedFile.Commit` | src/accounts/vault.rs:389-409 | after a commit the next transaction begins with the new document, or with the old file untouched, as the error says |
| `VaultCommits.Load` | src/accounts/vault.rs:285-346 | a transaction begins with its own copy of the stored document, which passes every check, or with the error of the file |
| `VaultCommits.CallIn` | src/accounts/service.rs:454-522 | a call that fails leaves the file byte for byte, even when its in-memory copy was changed first; one that succeeds, or is uncertain, leaves exactly its copy, at the version its reservations need, for the next transaction |
| `VaultCommits.CommitOnceIn` | src/accounts/service.rs:421-446 | mutation and receipt are stored together or not at all; a known key changes nothing and returns its account; a failure other than an uncertain commit leaves the file alone |
| `VaultCommits.CommitThenRetry` | src/accounts/service.rs:421-446 | retrying after success or after an uncertain commit returns the first call's account and leaves one receipt under the fingerprint |
| `VaultCommits.OnceAccepted` | src/accounts/service.rs:421-446 | the document with its new receipt is within the format and receipt limits the next transaction checks |
| `LockRegistry.LockMap.Retain` | src/accounts/vault.rs:198 | forgets exactly the process's entries whose flags nobody refers to |
| `LockRegistry.LockMap.Refer` | src/accounts/vault.rs:191-207 | returns the live flag of the path, or a new clear one, with its reference counted |
| `LockRegistry.MutualExclusion` | src/accounts/vault.rs:348-387 | in every run, over all tasks of all processes, a path has at most one holder |
| `LockRegistry.OneLiveFlag` | src/accounts/vault.rs:191-211 | all references a process has to a path's flag are to one flag, and it is the one the weak map finds |
| `LockRegistry.FreePathIsAcquired` | src/accounts/vault.rs:166-211 | no lock is lost: after any failures, crashes and forgotten entries a path nobody owns can be acquired |
| `LockRegistry.OwnedPathIsRefused` | src/accounts/vault.rs:208-209 | while one task of a process owns a path, another's compare-exchange is refused |
| `LockRegistry.HolderLetsGo` | src/accounts/vault.rs:166-190 | a holder that lets go leaves no trace: its reference is given back, the flag clear, the file free, and no other task is touched |
| `LockRegistry.RefusedLetsGo` | src/accounts/vault.rs:173-190 | a task that is refused the file gives its flag and reference back and touches no other task and no file lock |
| `LockRegistry.RunInv` | src/accounts/vault.rs:166-211 | reference counts are exact, counted flags stay registered, and a set flag has exactly one owner, in every reachable state |
| `LockRegistry.CloseKeeps` | src/accounts/vault.rs:178-190 | giving up the whole process's file lock, on release or when acquiring fails half-way, harms no other holder |
| `VaultSafety.StepInv` | src/accounts/service.rs:661-830 | every reader step, account operation, keyed mutation, commit outcome and stop keeps the protocol's invariant |
| `VaultSafety.RunInv` | src/accounts/service.rs:661-830 | the invariant holds in every reachable state of any number of readers and operations |
| `VaultTheorems.SendsSeparated` | src/accounts/service.rs:749-807 | between two sends of one refresh token, by any accounts of a lineage kind or by one account for Grok, a visible document stored the first send's response |
| `VaultTheorems.OneSendAtATime` | src/accounts/service.rs:749-783 | an account never has two unanswered sends |
| `VaultTheorems.FenceStays` | src/accounts/service.rs:749-782 | until the response is stored, the account keeps the fenced credential that was sent, through every operation and failed commit |
| `VaultTheorems.LineageWriteOnce` | src/accounts/mod.rs:276-341 | along the documents of a run no owner entry disappears or changes owner and the version never decreases |
| `VaultTheorems.ReservedForever` | src/accounts/mod.rs:357-358 | a token reserved at any point of a run is refused under a new id at every later point |
| `VaultTheorems.ResponsesReserved` | src/accounts/service.rs:784-805 | a response that arrives after removal or replacement still reserves its token |
| `VaultTheorems.DocumentsSound` | src/accounts/mod.rs:342-479 | every document that ever becomes visible is sound and accepted by the next transaction |
| `VaultTheorems.UsageIsCurrent` | src/accounts/service.rs:814-830 | a returned usage belongs to a durable state, after its quota call began, in which the account was enabled and stored that very credential |
| `VaultTheorems.QuotaUsesDurableCredentials` | src/accounts/service.rs:783-812 | a quota call never uses a fenced credential, nor a rotated one before it is durable |
| `VaultTheorems.AppliedAtMostOnce` | src/accounts/service.rs:421-446 | over any run of retries, stops and commit outcomes a key's mutation becomes visible at most once |
| `VaultTheorems.AnswersAgree` | src/accounts/service.rs:404-413 | all answers a key and fingerprint ever get name the same account |
| `VaultTheorems.ReceiptWithMutation` | src/accounts/service.rs:430-446 | a document has a key's receipt exactly when the key's mutation is in it or in an earlier one |
| `VaultWrites.OperationCommits` | src/accounts/service.rs:454-522 | an undisturbed operation commits exactly its document unless the write is refused, and one that fails commits nothing |
| `VaultWrites.OnceIs` | src/accounts/service.rs:421-446 | a key with a receipt is answered from it or conflicts; a new one commits the operation's document with the receipt, unless it fails or 4096 receipts are there |
| `VaultWrites.KeyedCommits` | src/accounts/service.rs:421-446 | a key's first call commits once; its caller is answered if the commit is confirmed, and otherwise the next caller is, as long as it is visible |
| `VaultWrites.Retried` | src/accounts/service.rs:404-413 | a call whose key has a receipt is answered from it, or conflicts, and commits nothing |
| `VaultWrites.KeyedFails` | src/accounts/service.rs:427-433 | a first call whose operation fails, or that finds 4096 receipts, leaves everything as it is |
| `VaultReads.VerifyIs` | src/accounts/service.rs:814-829 | a measured usage is returned and recorded exactly if the account is still stored, switched on, with the credential it was measured with; otherwise the answer is busy, or not found if it is missing |
| `VaultReads.ReadRefused` | src/accounts/service.rs:661-696 | a read of an account that is missing, switched off or still fenced ends at once with that error and no request |
| `VaultReads.CompareIs` | src/accounts/service.rs:729-748 | under the refresh lock a credential another reader has rotated is used as it is; only an unchanged one is fenced or sent |
| `VaultReads.WriteNotConfirmed` | src/accounts/service.rs:749-805 | a reader whose write is refused or unconfirmed ends there, so after a lost fence nothing is sent |
| `VaultReads.UnexpiredReadReturns` | src/accounts/service.rs:697-727 | an undisturbed read of an account whose credential has time left or cannot be refreshed makes one quota call with it, sends and stores nothing, and returns the usage |
| `VaultReads.ExpiredReadRefreshes` | src/accounts/service.rs:718-813 | an undisturbed read of an expired refreshable credential makes one fence write if it has a fence, one send, one install of the response and one quota call with it, and returns the usage |
| `VaultReads.RefusedReadRefreshes` | src/accounts/service.rs:719-813 | the same after a first call with an unexpired credential that was not authorized |
| `OAuthSessions.SessionTable.Prune` | src/accounts/oauth.rs:334-373 | within capacity pruning expires, forgets and releases exactly what is specified; no claim is left pointing to a missing session |
| `OAuthSessions.SessionTable.Trim` | src/accounts/oauth.rs:350-366 | over capacity only finished sessions go, oldest first, and only until the table fits |
| `OAuthSessions.SessionTable.CancelSession` | src/accounts/oauth.rs:712-726 | only a waiting session is cancelled, and it loses its authorization |
| `OAuthSessions.SessionTable.ClaimSession` | src/accounts/oauth.rs:760-776 | a claim succeeds once: it needs a waiting session and takes its authorization |
| `OAuthSessions.SessionTable.ClaimDeviceSession` | src/accounts/oauth.rs:682-692 | a device session is claimed only while it waits |
| `OAuthSessions.SessionTable.InsertSession` | src/accounts/oauth.rs:508-534 | a session enters only a pruned table with room |
| `OAuthSessions.SessionTable.SettleSession` | src/accounts/oauth.rs:811-837 | the outcome is recorded on the session, with the account or an error code |
| `OAuthSessions.SessionTable.Begin` | src/accounts/oauth.rs:397-432 | a key is reserved, answered with its session, refused as busy or as a conflict, never silently reused |
| `OAuthSessions.PruneRemovesOnlyFinished` | src/accounts/oauth.rs:334-373 | pruning removes no session that is being processed, a waiting one only long after its lifetime, and a claim only with its session |
| `OAuthSafety.RunInv` | src/accounts/oauth.rs:386-838 | the table's invariant holds in every interleaving of callers, begins, pollers and finishers |
| `OAuthTheorems.TablesBounded` | src/accounts/oauth.rs:350-432 | both tables hold at most 128 entries in every reachable state, so the trimming branch is never needed |
| `OAuthTheorems.LookupsNeverFail` | src/accounts/oauth.rs:402-448 | the lookups the code relies on never fail: retained session, begin claim, authorization and the finisher's session |
| `OAuthTheorems.ClaimedAtMostOnce` | src/accounts/oauth.rs:760-776 | a session is claimed at most once and adds at most one account, none without a claim |
| `OAuthTheorems.CompletedAdded` | src/accounts/oauth.rs:820-824 | a completed session names the account that its finisher added |
| `OAuthTheorems.LifetimesBounded` | src/accounts/oauth/copilot.rs:47-58 | no session is meant to live longer than an hour, the lifetime on which device polling relies |
| `OAuthTheorems.StatusMovesForward` | src/accounts/oauth.rs:334-838 | in every step sessions move only forward and none being processed is removed |
| `OAuthTheorems.UnclaimedNeverAdds` | src/accounts/oauth.rs:629-726 | a session cancelled or expired before being claimed never adds an account, however the run goes on |
| `OAuthTheorems.SecondBeginNeedsFirstOver` | src/accounts/oauth.rs:386-456 | for one key a second provider request needs the first begin to have failed or its session to be gone, and each begin asks once |
| `OAuthTheorems.SameSessionForKey` | src/accounts/oauth.rs:402-412 | sessions handed out for one key are the same one unless it is gone from the table |
| `OAuthTheorems.RetryNeverStarts` | src/accounts/oauth.rs:402-412 | while a key's begin stands, every retry gets the conflict, busy or that session, exactly as its arguments and progress say |
| `OAuthOutcomes.PrunedIs` | src/accounts/oauth.rs:334-373 | pruning expires waiting sessions whose time is out, forgets all but processing ones more than 720 seconds later, and releases exactly the claims of those forgotten |
| `OAuthOutcomes.BeginOutcome` | src/accounts/oauth.rs:397-432 | a key that no claim holds is started exactly when fewer than 128 claims and sessions remain, and all that then changes is its claim; otherwise the answer is busy, conflict or the session |
| `OAuthOutcomes.GetOutcome` | src/accounts/oauth.rs:698-711 | a session is returned as long as it is kept, as expired once its time is out |
| `OAuthOutcomes.CancelOutcome` | src/accounts/oauth.rs:712-726 | cancelling ends exactly a waiting session with time left and takes its authorization; any other is busy or not found and stays |
| `OAuthOutcomes.ClaimOutcome` | src/accounts/oauth.rs:760-776 | a claim takes exactly a waiting session with time left into processing, a code claim its authorization too; any other is busy or not found and stays |
| `OAuthOutcomes.SettleOutcome` | src/accounts/oauth.rs:821-837 | settling completes the session with its account or fails it with the code of the error, and changes no other session |
| `OAuthOutcomes.InsertOutcome` | src/accounts/oauth.rs:510-534 | a session is stored exactly if fewer than 128 remain after pruning |
| `OAuthOutcomes.EndOutcome` | src/accounts/oauth.rs:629-637 | a poller, or a browser sign-in's listener, ends its session only while that waits |
| `OAuthOutcomes.CodeBeginRetried` | src/accounts/oauth.rs:386-456 | an undisturbed keyed begin of a browser or code sign-in stores one session that waits for 180 seconds, and every equal retry is told that session as long as it is kept |
| `OAuthOutcomes.DeviceBeginRetried` | src/accounts/oauth.rs:556-628 | an undisturbed keyed begin of a device sign-in asks the provider once and stores one session with the lifetime it was told, counted from before it asked; every equal retry is told it while it waits |
| `OAuthOutcomes.PlainBegins` | src/accounts/oauth.rs:465-534 | a begin without a key stores its session the same way and touches no claim |
| `OAuthOutcomes.WorkflowIs` | src/accounts/oauth.rs:465-500 | each supported provider and mode leads to its sign-in, and every other is refused |
| `OAuthOutcomes.FailsWell` | src/accounts/oauth.rs:436-450 | a begin that fails on the way has nothing left but to give its key back |
| `OAuthOutcomes.FailedBeginsAgain` | src/accounts/oauth.rs:436-450 | recording a failed begin gives its key back, so that the next begin with it starts, whatever it asks for |
| `OAuthOutcomes.SignInSettles` | src/accounts/oauth.rs:760-837 | an undisturbed sign-in claims its waiting session, adds the account once and completes the session with it; a failed save fails the session with a code |
| `DevicePolling.PollDevice` | src/accounts/oauth.rs:638-681 | the loop ends; its requests are sent and answered exactly when the sleeps and answers say, well spaced and before the deadline; and it ends only as cancelled, by the deadline, or as the last answer says |
| `DevicePolling.PolledToTheEnd` | src/accounts/oauth.rs:649-669 | if nothing is cancelled, the rounds before the k-th let the session go on and the k-th is answered in time with an answer that does not, exactly k + 1 requests are made and the session ends as that answer says |
| `DevicePolling.SpacedLater` | src/accounts/oauth.rs:650-665 | the k-th request is at least k five-second intervals in, and its interval never reaches the cap |
| `DevicePolling.IntervalNeverDecreases` | src/accounts/oauth.rs:655-665 | within an hour's lifetime the interval never decreases, a slow_down adds five seconds and a timeout doubles it, cap or not |
| `DevicePolling.FewPolls` | src/accounts/oauth.rs:650-665 | there are fewer requests than one per five seconds of lifetime |
| `DevicePolling.CapShortens` | src/accounts/oauth.rs:659 | the cap shortens an interval exactly after a timeout with an interval already above it |
| `UsageCache.KeyDetermines` | src/cache.rs:169-174 | two runs use one entry exactly when provider, account id and identity agree |
| `UsageCache.ServedWasWritten` | src/cache.rs:197-282 | a usage returned from disk is cacheable and was written by a run for the same provider and account that saw one identity before and after its fetch, the one this run saw; fresh ones are within the age limit and stale ones carry no banked resets |
| `UsageCache.FetchesOnlyWhenNeeded` | src/cache.rs:221-251 | a non-forced run with its entry read, identity confirmed and time left fetches only if nothing acceptable and fresh is stored at that moment |
| `UsageCache.OneRunPerEntry` | src/cache.rs:349-385 | no two runs hold an entry between reading it and writing it back |
| `UsageCache.RunInv` | src/cache.rs:158-284 | every entry on disk is some run's write under one identity throughout, in every interleaving |
| `CacheRuns.DiskStep` | src/cache.rs:262-275 | a usage is put on disk exactly when a run settles it with its identity confirmed, cacheable and the rename done: that usage, under its adapter and identity, and nothing else changes |
| `CacheRuns.FreshIsServed` | src/cache.rs:231-243 | an undisturbed run that is not forced, has time left and finds a fresh usage serves it under its own reference, without a fetch or a write |
| `CacheRuns.FetchedIsStored` | src/cache.rs:244-275 | an undisturbed run with nothing fresh to serve fetches once and stores a cacheable answer if the rename is done |
| `CacheRuns.StaleStandsIn` | src/cache.rs:276-281 | an undisturbed run whose fetch fails serves what is stored, however old, without its banked resets |
| `CacheRuns.NothingStandsIn` | src/cache.rs:276-281 | with nothing usable stored a failed fetch serves and stores nothing |
| `CacheRuns.WithoutEntry` | src/cache.rs:182-201 | a run without an identity or an entry fetches all the same and leaves the cache alone |
| `CacheRuns.ChangedIdentity` | src/cache.rs:220-262 | a run whose identity has changed before or after its fetch serves nothing from disk and stores nothing |
| `CacheRuns.SecondRunServes` | src/cache.rs:197-275 | of two runs under one identity within the age limit the second serves exactly what the first fetched, with one fetch in all |
| `Reports.UsageReport.IncludeDiagnostics` | src/domain.rs:234-252 | the nested loops note exactly the uncovered diagnostics, in order, and change nothing else |
| `Reports.IncludedCoversAll` | src/domain.rs:234-252 | every diagnostic ends up covered by a failure, nothing is removed or reordered, and no failure is added twice |
| `Reports.IncludedOnlyDiagnostics` | src/domain.rs:234-252 | every failure that is added says what some diagnostic says |
| `Reports.PartsInOrder` | src/cache.rs:141-144 | joined reports keep their order and the order within each |
| `Reports.IncludeTwice` | src/domain.rs:234-252 | noting diagnostics again adds nothing |
| `Reports.IncludeAtBothLayers` | src/cache.rs:141-155 | noting them again in the whole, whichever usages are dropped in between, adds nothing exactly when every usage kept is from a part that noted its own or is covered already; a part that came from disk need not have |
| `Collection.Fetch` | src/fetch.rs:45-54 | at most three fetches, more than one only after transient failures of an idempotent adapter; the last answer counts |
| `Collection.CompletionOrderIrrelevant` | src/fetch.rs:66-74 | every order of task completion sorts to the same results, the requests' own order |
| `Collection.Collect` | src/fetch.rs:31-113 | for any completion order the report is the one determined by requests and outcomes alone |
| `Collection.AnswerCounts` | src/fetch.rs:81-97 | an answer counts exactly if it is the requested provider's, has windows and all are well-formed, and then only its reference changes |
| `Collection.OutcomesInOrder` | src/fetch.rs:81-109 | usages and failures stand in request order |
| `Collection.CollectedInScope` | src/fetch.rs:81-111 | a report speaks only of what was requested and covers every diagnostic it carries |
| `Collection.CollectedAnswers` | src/fetch.rs:81-111 | every request's own answer is in the report: its failure, or its usage, or for a local one dropped as a duplicate a managed usage for the same account |
| `Collection.ReconcileAccounts` | src/fetch.rs:118-194 | marking by index and retaining in place drops exactly the redundant entries |
| `Collection.DroppedIff` | src/fetch.rs:118-194 | an entry is dropped exactly if it is local and, by the rule of its provider, a managed entry is the same account |
| `Collection.SamePersonalIs` | src/fetch.rs:178-186 | two personal Codex entries are the same account exactly if they have one address and only one managed entry has it |
| `Collection.ReconcileKeepsOrder` | src/fetch.rs:188-193 | the result is a sublist in order that keeps every entry which is not local |
| `Collection.RemovedHasWitness` | src/fetch.rs:126-187 | a dropped entry is local and a managed entry for the same account survives |
| `Collection.ReconcileTwice` | src/fetch.rs:118-194 | reconciling again changes nothing |
| `Collection.CollectCached` | src/cache.rs:88-157 | for any completion order the cached report is the one determined by the parts alone |
| `Collection.CachedAnswers` | src/cache.rs:141-155 | every part's failures are in the joined report, and every usage of a part, at most without its balance, or a managed one for the same account in place of a local one |
| `Collection.CachedAddsNothing` | src/cache.rs:141-155 | joining adds no failure exactly when every usage that survives is from a part that noted its diagnostics or has them covered by the parts' failures |
| `CachedReports.OneReportIs` | src/cache.rs:197-282 | one run's report is the fresh usage from disk alone, or the fetched usage with its diagnostics noted, or the fetch's failure, followed by the stale usage if there is one |
| `CachedReports.GatheredCovered` | src/cache.rs:88-157 | wherever its usages come from, the cached report has every diagnostic among its failures, keeps all the parts' failures in order and adds none twice |
| `CachedReports.GatheredAnswers` | src/cache.rs:88-157 | every request's run is in the cached report: its failures, and its usage or a managed one for the same account |
| `CachedReports.GatheredAddsNothingIff` | src/cache.rs:141-155 | joining adds no failure exactly when every surviving usage from disk has its diagnostics covered by the parts' failures; fetched usages never add one |
| `CachedReports.JoiningAddsNothingIff` | src/cache.rs:141-155 | for distinct accounts: exactly when every surviving fresh usage from disk has no diagnostic, and every surviving stale one none but the error its own fetch failed with |
| `CachedReports.FreshDiagnosticAdds` | src/cache.rs:231-243 | a fresh usage from disk with a diagnostic makes joining add a failure that its part does not have |
| `Collection.CurrentCreditsKept` | src/cache.rs:145-153 | a current balance is kept, and dropping one changes nothing else |
| `Collection.CachedCreditsCurrent` | src/cache.rs:145-153 | no report advertises banked resets that are expired or from the future |
| `SnapshotMerge.SnapshotCell.MergeRefreshReport` | src/server.rs:537-577 | the snapshot in place becomes the specified one, and is untouched when the merge is refused |
| `SnapshotMerge.MergedExactly` | src/server.rs:537-577 | a report gets into the snapshot exactly if everything selected is enabled and it is a full refresh, which replaces the snapshot, or one over a snapshot of its generation, whose entries out of scope stand before the new ones |
| `SnapshotMerge.FitsIffWithin` | src/server.rs:563-576 | a scoped merge gives each account the report's content or leaves it alone exactly when the report speaks only of the scope |
| `SnapshotMerge.LatestReportWins` | src/server.rs:537-577 | within a generation, after any full, provider and account refreshes whose reports stay within their scopes, every account's part of the snapshot is what the latest refresh covering it reported |
| `SnapshotMerge.RefinementIff` | src/server.rs:537-577 | that holds after each of a sequence of refreshes exactly when every merged report stays within its scope |
| `SnapshotMerge.OutOfScopeUntouched` | src/server.rs:563-576 | entries outside the refreshed scope keep their content and order, and none is added, exactly when the report stays within the scope |
| `SnapshotMerge.FullAsksForAll` | src/server.rs:549-551 | a selection that passes the length test and repeats no provider, as the callers see to, asks for exactly the enabled ones |
| `SnapshotMerge.FullIffDistinct` | src/server.rs:549-551 | of the selections that pass the length test, exactly those without repetition ask for every enabled provider |
| `RefreshScope.CollectedWithinIff` | src/fetch.rs:81-111 | the collector's report stays within a scope, for all answers, exactly when the scope matches every request |
| `RefreshScope.GatheredInScope` | src/cache.rs:88-157 | whatever each run reads back, serves, fetches or fails with, the cached report speaks only of what was requested |
| `RefreshScope.GatheredWithinIff` | src/cache.rs:88-157 | the cached report stays within a scope, for all runs, exactly when the scope matches every request |
| `RefreshScope.RefreshFitsIff` | src/server.rs:537-577 | a scoped refresh replaces what it asks for and nothing else, whatever its runs come to, exactly when its scope matches every request it makes |
| `RefreshScope.MockLocalAppends` | src/server.rs:563-576 | a refresh of the demo provider's local account does not: the old entry stays and the new one is added beside it |
| `AdapterListing.Select` | src/accounts/service.rs:1155-1211 | the adapters pushed for each provider in turn are the specified ones |
| `AdapterListing.SelectOne` | src/accounts/service.rs:1172-1208 | a provider's local adapter unless saved accounts take its place, then one adapter per saved account; unreadable accounts fail under one name |
| `AdapterListing.ProviderListed` | src/accounts/service.rs:1172-1208 | a provider's adapters are one for each of its saved accounts, and its local one exactly unless saved accounts take its place |
| `AdapterListing.ProvidersInOrder` | src/accounts/service.rs:1171-1211 | each selected provider's adapters are listed in turn |
| `AdapterListing.LocalListed` | src/accounts/service.rs:1275-1307 | a refresh of the local account, or one that looks at no saved accounts, lists the providers' own adapters; the former is refused while a saved account stands for the local one |
| `AdapterListing.AccountListed` | src/accounts/service.rs:1162-1169 | a refresh of a saved account lists exactly that account's adapter, if it is stored under the selected provider |
| `AdapterListing.ListedMatchesIff` | src/accounts/service.rs:1266-1322 | whatever is stored and however the machine is set up, the requests a refresh makes match its scope exactly when it is not for the demo provider's local account |
| `AdapterListing.MockLocalListed` | src/accounts/service.rs:1276-1300 | that refresh always makes the one request that names no account |
| `AdapterListing.ListedRefreshFitsIff` | src/server.rs:537-577 | a refresh replaces what it asks for and nothing else, whatever its runs come to, exactly when it is not for the demo provider's local account |
| `AdapterListing.ListedDistinct` | src/accounts/service.rs:1155-1211 | a refresh that names no provider twice asks for no account twice |
| `AdapterListing.ListedAddsNothingIff` | src/cache.rs:141-155 | the condition for joining to add no failure, for every listed refresh that names no provider twice |
| `SnapshotServer.ServedIsCurrent` | src/server.rs:250-261 | of the commits made through this server since the generation capture of any refresh in a served report, each is uncertain and still awaits its bump; so no confirmed settings patch, account change or sign-in is missing |
| `SnapshotServer.UpToDateIff` | src/server.rs:250-261 | a served report misses a commit exactly when an uncertain one since the capture awaits its bump |
| `SnapshotServer.ServedCells` | src/server.rs:434-535 | each account's part of a served report is what the latest covering refresh collected, if the refreshes behind it made only requests that their scopes match |
| `SnapshotServer.ServedListed` | src/server.rs:434-535 | with the requests that listing gives: so it is unless a refresh behind the report was for the demo provider's local account |
| `SnapshotServer.ServedRefinedIff` | src/server.rs:434-535 | for every served report the refinement held after each refresh behind it exactly when each merged report stayed within its scope |
| `SnapshotRuns.FullRefreshServed` | src/server.rs:434-535 | an undisturbed refresh of everything becomes the snapshot, and the next response serves exactly its report |
| `SnapshotRuns.PartialRefreshServed` | src/server.rs:434-535 | an undisturbed partial refresh over a snapshot of its generation replaces what its scope matches, and the next response serves the result; over an older snapshot or none it changes nothing |
| `SnapshotRuns.ServeIs` | src/server.rs:245-261 | a response is served exactly from a snapshot of the current generation, while nobody has the guard |
| `SnapshotRuns.LateRefreshDropped` | src/server.rs:512-515 | a refresh that collected before the generation changed publishes nothing |
| `SnapshotRuns.MutationClears` | src/server.rs:136-140 | an undisturbed mutation, confirmed or uncertain, ends in the next generation with no snapshot, so nothing is served until a refresh; a refused one changes nothing |
| `SnapshotServer.SnapshotNeverGoesBack` | src/server.rs:512-517 | publishing never replaces a newer generation's snapshot by an older one |
| `SnapshotServer.UncertainCommitMissed` | src/accounts/oauth.rs:829-832 | a run in which a report with a usage in it is served between an uncertain commit and its late bump |
| `SnapshotServer.RunInv` | src/server.rs:136-140 | captures, snapshot and pending commits stay consistent in every interleaving |
| `Wire.ReadVarint` | src/providers/antigravity_auth.rs:327-341 | reads the exact sum of the seven-bit groups, below 2^64, or nothing exactly when no varint starts there |
| `Wire.MergeExact` | src/providers/antigravity_auth.rs:334 | shifting and or-ing the next group in loses no bit of the 64 |
| `Wire.Delimited` | src/providers/antigravity_auth.rs:342-352 | returns the announced bytes exactly when they are all there |
| `Wire.VisitFields` | src/providers/antigravity_auth.rs:366-400 | terminates, and folds the visitor over the fields of the message's decomposition, or refuses |
| `Wire.ParseExact` | src/providers/antigravity_auth.rs:366-400 | accepts exactly the concatenations of well-formed records, and finds their decomposition |
| `Wire.UniqueDecomposition` | src/providers/antigravity_auth.rs:366-400 | a message has at most one decomposition into records |
| `Wire.ParseAppend` | src/providers/antigravity_auth.rs:366-400 | after an accepted message the rest is read as a message of its own |
| `Wire.VisitAppend` | src/providers/antigravity_auth.rs:366-400 | visiting a concatenation is visiting one part after the other |
| `WireFields.EncodeVarint` | src/providers/antigravity_auth.rs:572-580 | the loop writes the encoding that the round trip reads back, seven bits to a byte from the low end |
| `WireFields.VarintRoundTrip` | src/providers/antigravity_auth.rs:572-580 | reading inverts writing for every 64-bit value, wherever it stands |
| `WireFields.VisitEncoded` | src/providers/antigravity_auth.rs:581-586 | writing any list of fields and visiting the bytes visits that list |
| `WireFields.FindField` | src/providers/antigravity_auth.rs:353-365 | searches in one pass, keeping malformed apart from absent |
| `WireFields.FindExact` | src/providers/antigravity_auth.rs:353-365 | finds a value exactly when the whole message is well-formed and the field occurs once, length-delimited; absent exactly when well-formed without it |
| `WireFields.ReadExpiry` | src/providers/antigravity_auth.rs:285-310 | reads the timestamp in one pass over its fields |
| `WireFields.ExpiryExact` | src/providers/antigravity_auth.rs:285-310 | a timestamp is read exactly when its seconds occur once as a varint in range and its nanoseconds at most once, below a thousand million |
| `KeyGroup.Usable` | src/accounts/service.rs:191-194 | at least nine tenths of the budget, and all but a tenth of a second, is left for the keys |
| `KeyGroup.ValidateCredentials` | src/accounts/service.rs:182-238 | every key is tried in its scheduled window; the last usage wins with everyone's diagnostics, or the last error; one key is tried directly and none is an input error |
| `KeyGroup.InTimeCounts` | src/accounts/service.rs:203-215 | an answer within the window counts as it is, and one after the timer has fired is a timeout |
| `KeyGroup.WorkingKeyWins` | src/accounts/service.rs:194-238 | with punctual timers a key that works within an even share of the budget makes the group succeed |
| `KeyGroup.FairWindow` | src/accounts/service.rs:199-201 | each key is offered an even share of the budget, less only the total lateness of the timers before it |
| `KeyGroup.WindowsEndInTime` | src/accounts/service.rs:194-210 | no window passes the group deadline, and with punctual timers no key does |
| `KeyGroup.OneDiagnosticPerFailure` | src/accounts/service.rs:222-231 | a failing key has exactly one diagnostic under its one-based number and a working key none, whatever sources their own diagnostics name |

## Left out

- Credential variants are grouped: the five fenced kinds, Codex, Copilot, Amp's reference, the other
  references, and plain keys; fields that no modelled decision reads are one opaque text.
- `scoped` checks beyond the fence, such as provider mismatch and an expired access token, appear as a
  failed quota call.
- A commit refused for size is a refused write to the reader that waits for it; the error it then sees
  is `Storage` instead of `Input`.
- Codex refresh tokens are not fenced by the code, so no replay claim is made for them.
- A refresh of whole providers whose adapters cannot be listed appears as one failing request without
  account to each selected provider.
- Lock paths are compared as written; two spellings of one file are two paths.
- A server mutation is never dropped between its commit and its bump: those run in detached tasks, and
  process exit, which loses the snapshot too, is not a step of that model.
- A settings patch that reports a storage error after its rename is an uncertain commit whose bump never
  comes; the reload that notices a changed revision later is not modelled.
- What follows a granted device token, its exchange for a credential within half a minute, which the
  session's deadline may still cut off.
- The generation counter is unbounded, where the code's wraps at 64 bits.
- Settings, staging, automatic provider detection, key descriptors and their ownership checks: their
  guarantees are those of the system calls they make, or a single comparison. What the listing of
  adapters asks of the environment, the catalog and native sources is a parameter (`Host`).
- Provider response parsers, HTTP, TLS, JSON, TOML, base64, Keychain and SQLite; claim and URL checks of
  the sign-in flow; rendering, the command line and the release scripts.
- Token parsing around the wire reader: UTF-8 and secret checks, and the calendar range of a timestamp.
- The server's operation and discovery registries are not part of this model.
- Liveness: that a waiting task eventually gets a lock, or a session eventually ends. A finisher that
  stops leaves its session in processing, and the code never removes it.
