# DbBackup: a verified model of its stateful core

DbBackup backs up databases, encrypts and ships the dumps, prunes old ones, exports tables and
lets AI clients call it. This project models the parts of its server (and one part of its web
client) that keep state over time, and proves what they promise over whole runs.

| file | what it models |
|---|---|
| `BackupCrypto.dfy` | the `DBB1` container of an encrypted backup |
| `BackupStore.dfy`, `BackupInvariant.dfy`, `BackupChoices.dfy` | files, remote objects, backup rows, settings and the running jobs, each at its place in the worker's program; every atomic action, the invariant all of them keep, and that each job does what the settings it looked at ask for |
| `ArtifactResolver.dfy`, `BackupWitness.dfy` | what a stored backup resolves to, the claims over every run, and runs that meet and miss their conditions |
| `BackupServer.dfy` | the job body, the settings handler, deletion and the resolver, as methods whose every execution is a run of that machine, with other requests at every await |
| `TextOps.dfy`, `SqlNames.dfy`, `SqlText.dfy`, `PgArrayText.dfy`, `CsvText.dfy`, `JsonText.dfy`, `ExportWriter.dfy` | the export printers, readers for what they print, the stateful writers and the batch loops |
| `McpDailyLimit.dfy` | the daily call limit of an API key under concurrent callers |
| `RefreshRotation.dfy`, `SessionRevocation.dfy`, `RevocationRace.dfy`, `ApiClient.dfy` | single-use refresh tokens, revocation by version, the two overlapping statement by statement, and the browser client's single-flight refresh |
| `Retention.dfy`, `Quota.dfy` | the retention garbage collector with its policy merge, and the storage quota |
| `HostKeyPin.dfy` | trust on first use of SSH host keys by concurrent connectors |
| `LoginLockout.dfy`, `CrossIpAlert.dfy`, `Passkeys.dfy`, `SseStreams.dfy` | timed guards, challenges, passkey-only mode, stream counting |
| `Prelude.dfy` | Option, Result and small helpers |

Conventions. A database statement is one atomic step, and so is everything between two awaits. A
run is a sequence of steps, each allowed in the state before it; a lemma about runs holds for every
length, interleaving and number of participants. Clocks count milliseconds. Code that changes
objects or module variables is a class whose methods are tied to the functions the run lemmas speak
of. Cryptography is a parameter: AES-256-GCM (section 7 of NIST SP 800-38D) is a pair of functions
under three laws (`GcmLaws`), and the file hash is injective. `BackupCrypto.LawsAreConsistent`
exhibits a cipher that meets the laws.

Where the code and its documentation part ways, the code is followed. Seven conditions came out of that:

* An empty plaintext encrypts to a container that cannot be decrypted, because the read range of its
  ciphertext is inverted (backup-crypto.service.ts:80). `BackupCrypto.RoundTrip` holds exactly for the
  others. The worker notices when it reads its copy back and keeps the plaintext, so the run claims
  need no such condition.
* A backup stored unencrypted whose own bytes begin with `DBB1` is taken for an encrypted one. A row
  keeps an object's key but not its bucket, nor the Drive account, so a backup whose only copy is
  remote resolves while the settings name the place it was put in, and not otherwise.
  `ArtifactResolver.LiveBackupResolves` has the exact condition with both; `BackupWitness` has the runs.
* A retention cap of 0 or less switches the day rule off instead of tightening it. The handlers that
  set a cap refuse such values; `Retention.MergedIsStrictestOfEach` has the exact condition.
* SQL export takes the column list of each batch from its first row.
  `ExportWriter.BatchingIsInvisible` has the exact condition.
* A quota set below what is stored and admitted ends the quota invariant; nothing else does
  (`Quota.StepKeepsInv`).
* A suspension bumps the version that access tokens carry, but leaves refresh tokens stored, although the
  comment in admin.controller.ts says they die: they redeem again once the user is active again
  (`SessionRevocation.SuspensionEndsAccess`, `SessionRevocation.SuspendedRefreshTokens`).
* A session refreshed while a revocation's deletion is under way outlives that deletion;
  `RevocationRace.DeletionEndsUnrefreshed` has the exact condition.

## Model

| member | source | states |
|---|---|---|
| BackupCrypto.RoundTrip | server/src/services/backup-crypto.service.ts:46-85 | Decrypting what was encrypted returns the plaintext if and only if it is not empty; the empty one fails with the range error |
| BackupCrypto.AcceptsExactlyContainers | server/src/services/backup-crypto.service.ts:61-85 | A file decrypts to a text under a passphrase if and only if encrypting that text, with some salt and iv, writes exactly this file: any altered byte is refused or is another encryption of the same text |
| BackupCrypto.OtherPassphraseFails | server/src/services/backup-crypto.service.ts:61-85 | Among passphrases the cipher tells apart, a file that opens with one fails authentication with every other |
| BackupCrypto.UnsealLength | server/src/services/backup-crypto.service.ts:61-85 | What decrypts carries the magic and is exactly header and tag longer than its plaintext |
| BackupCrypto.ContainerLayout | server/src/services/backup-crypto.service.ts:17-59 | A container is the four magic characters, 16 bytes of salt, 12 of iv, the ciphertext and a 16-byte tag, in this order |
| BackupStore.S3KeyNamesFile | server/src/services/storage.service.ts:128-129 | Under any two prefixes, object keys collide only for the same file name |
| BackupStore.UpdateKeepsPassphrases | server/src/controllers/storage.controller.ts:58-93 | After an accepted settings change the passphrases that can be tried are the earlier ones and the new one, exactly |
| BackupStore.RotationNeedsCurrent | server/src/controllers/storage.controller.ts:58-78 | The stored passphrase changes only for a request that gives the stored one, which then stands in the history |
| BackupStore.UpdateIsFieldwise | server/src/controllers/storage.controller.ts:45-93 | An accepted change puts every given field in its own place and keeps the others; an empty secret or the mask leaves the stored secret; the history grows only by a passphrase that was replaced |
| BackupStore.RefusedExactly | server/src/controllers/storage.controller.ts:58-80 | A change is refused exactly for a new passphrase without the stored one, and for enabling encryption with no passphrase at all |
| BackupInvariant.ApplyKeepsInv | server/src/queue/backup.queue.ts:55-268 | Every atomic action (each step of any number of jobs, settings, deletions, temp files) keeps: passphrases ever current are remembered, no two rows share a name or an object, what each running job has secured at its place in the program, every live backup's artifact, and a copy of every admitted dump |
| BackupInvariant.CompleteOk | server/src/queue/backup.queue.ts:175-191 | The row a worker records is restorable: this follows from the order of the steps before it, not from a guard on the record |
| BackupInvariant.SealingHolds | server/src/queue/backup.queue.ts:129-144 | A job counts an encrypted file as verified only where it decrypts to the dump itself, and keeps the plaintext through every attempt |
| BackupInvariant.DeletedObject | server/src/services/storage.service.ts:277-292 | A deletion looks where the settings point now; whatever it finds there is the row's own object |
| BackupChoices.ChooseFollowsSettings | server/src/queue/backup.queue.ts:121-128 | When a job looks at the settings: with encryption enabled and a passphrase stored it goes on to seal with that passphrase, and in every other case the plain dump is its artifact |
| BackupChoices.ApplyKeepsChoices | server/src/queue/backup.queue.ts:121-191 | Every atomic action keeps, for every running job and every row, that name, plaintext and remote place are those asked for by the settings its job saw |
| ArtifactResolver.RightPassphraseFound | server/src/services/storage.service.ts:371-394 | With the right passphrase anywhere among the candidates, trying them in order gives the plaintext if and only if no earlier one opens the file to something else |
| ArtifactResolver.CommittingMeansNoneEarlier | server/src/services/storage.service.ts:371-394 | Which a cipher that tells the remembered passphrases apart ensures |
| ArtifactResolver.LiveBackupResolves | server/src/services/storage.service.ts:319-402 | A completed backup whose deletion has not begun resolves to exactly its dump if and only if its local file is there or the settings are complete and name the bucket or open the account it was put in, and, stored encrypted, no other passphrase answers first, or, stored plain, it does not begin with the magic |
| ArtifactResolver.EveryRunResolves | server/src/services/storage.service.ts:319-402 | The same at every point of every run from an empty server: any number of jobs at any stage, settings changes of every kind, rotations, resolutions, deletions |
| ArtifactResolver.EveryRunKeepsCopies | server/src/queue/backup.queue.ts:111-191 | At every point of every run, a dump that passed the quota check and is not recorded has a stored copy that is the dump or decrypts to it with a remembered passphrase |
| ArtifactResolver.EveryRunEncryptsAsAsked | server/src/queue/backup.queue.ts:121-148 | In every run, a recorded encrypted backup comes from settings that asked for encryption and has left no plaintext behind, and one recorded in plain comes from settings that did not, or from two attempts that did not verify |
| ArtifactResolver.EveryRunShipsWhereAsked | server/src/services/storage.service.ts:36-181 | In every run, a recorded remote copy lies in the bucket under the key, or in the Drive account, named by the settings its upload looked at |
| ArtifactResolver.LocatedWhenReached | server/src/services/storage.service.ts:319-356 | A recorded copy is asked for where it was put if and only if the settings are complete for its kind of storage and name that bucket, region and endpoint, or open that account |
| ArtifactResolver.RemoteDeletionRemoves | server/src/services/storage.service.ts:277-292 | A deletion removes exactly the place the row's copy was put in when the settings reach it, and nothing remote otherwise |
| ArtifactResolver.EncryptedRowsAreAuthentic | server/src/services/storage.service.ts:363-394 | Whatever an encrypted backup resolves to is what some remembered passphrase decrypts its stored file to, whoever wrote that file |
| BackupWitness.MagicDumpIsRefused | server/src/services/storage.service.ts:363-378 | Some run ends with a live plain dump that begins with the magic, and it is refused |
| BackupWitness.BucketChangeHidesBackup | server/src/services/storage.service.ts:186-204 | Some run has a live backup that resolves, stops when the bucket in the settings changes, and resolves again when it is set back |
| BackupWitness.DriveBackupResolves | server/src/services/storage.service.ts:345-346 | With any complete Drive login, some run ends with a live backup whose only copy is in Drive, and it resolves to its dump |
| ArtifactResolver.EveryRunRemembersPassphrases | server/src/controllers/storage.controller.ts:62-80 | A passphrase that is current at some point of a run can be tried at every later point |
| BackupServer.BackupServer.BuildSettings | server/src/controllers/storage.controller.ts:36-93 | The field-by-field handler computes the settings update the passphrase lemmas are about, refusals included |
| BackupServer.BackupServer.UpsertStorageSettings | server/src/controllers/storage.controller.ts:36-108 | It carries out that update as one action, or refuses and changes nothing |
| BackupServer.BackupServer.EncryptBackupFile | server/src/services/backup-crypto.service.ts:46-59 | Header, ciphertext and tag written in turn make up the container, or what a failing attempt leaves |
| BackupServer.BackupServer.DecryptBackupFile | server/src/services/backup-crypto.service.ts:61-85 | Reading by offsets decides as the container function does; no other file changes; decrypting onto the source never succeeds |
| BackupServer.BackupServer.TryEncrypt | server/src/queue/backup.queue.ts:129-143 | An attempt counts as verified if and only if the encrypted file decrypts to the dump and no step throws; where the job then stands |
| BackupServer.BackupServer.EncryptAtRest | server/src/queue/backup.queue.ts:121-144 | At most two attempts: the job ends verified if and only if one of them verifies, and else keeps the plaintext as its artifact |
| BackupServer.BackupServer.RemovePlaintext | server/src/queue/backup.queue.ts:145-148 | The plaintext goes only from a job whose encrypted file was verified |
| BackupServer.BackupServer.SecureDump | server/src/queue/backup.queue.ts:114-160 | Exactly which of its steps make the job stop here; otherwise its artifact is the encrypted file if the settings it saw enable encryption with a passphrase and an attempt verified, with the plaintext gone, and else the plain dump |
| BackupServer.BackupServer.PutAndTidy | server/src/services/storage.service.ts:146-180 | The object is stored at the aimed place, then the local copy goes; an upload that throws or whose reply is lost leaves the artifact local |
| BackupServer.BackupServer.UploadToS3 | server/src/services/storage.service.ts:109-181 | The second look at the settings decides bucket, key and deletion; an incomplete or changed set skips the upload |
| BackupServer.BackupServer.UploadBackupFile | server/src/services/storage.service.ts:36-68 | What is recorded follows from the two looks at the settings, and the file is still local unless it was stored remotely |
| BackupServer.BackupServer.RecordJob | server/src/queue/backup.queue.ts:175-191 | The row says exactly where its artifact is, and the artifact is restorable |
| BackupServer.BackupServer.FinishJob | server/src/queue/backup.queue.ts:112-267 | From the quota check on: a job that is not recorded leaves a stored copy and a failed row, one that is recorded is restorable, encrypted as the settings it saw asked, and none of its steps stopped it |
| BackupServer.BackupServer.RunBackupJob | server/src/queue/backup.queue.ts:55-268 | Which outcome the whole job has in each case; past the quota check a stored copy always remains, and the job goes unrecorded only when its row was deleted or a named step of its own threw (integrity check, settings, passphrase, hash, removal, record); a recorded row names its artifact, encrypted without a plaintext left exactly when the settings it saw had encryption and a passphrase and an attempt verified; over quota the dump is discarded |
| BackupServer.BackupServer.DeleteBackupArtifact | server/src/services/storage.service.ts:277-311 | The row's local file goes, and its remote copy exactly when the settings reach the place it was put in, each best effort; no job's files or objects are affected |
| BackupServer.BackupServer.MaybeDecrypt | server/src/services/storage.service.ts:363-402 | The loop over candidates hands out the bytes the resolver function names, or its error; the stored file stays unless it lies under the temp path |
| BackupServer.BackupServer.EnsureLocalBackupFile | server/src/services/storage.service.ts:319-356 | The path it returns holds exactly the resolved bytes, downloads going where the settings point; files outside its temp directory are untouched |
| BackupServer.BackupServer.ReadBackup | server/src/services/storage.service.ts:313-411 | Resolve, read, clean up: the files are afterwards what they were |
| BackupServer.BackupServer.UseBackup | server/src/services/storage.service.ts:319-411 | On the live system a live backup reads as its dump if and only if it is resolvable, and what stays behind is still a state of some run |
| PgArrayText.TwoReplacementsAreOneEscape | server/src/services/export.service.ts:67 | Escaping backslashes and then quotes equals one escape per character |
| PgArrayText.ArrayReadsBack | server/src/services/export.service.ts:62-69 | A reader after section 8.15.6 of the PostgreSQL documentation recovers every nested array exactly, nulls and the text "NULL" told apart |
| PgArrayText.ArrayTextInjective | server/src/services/export.service.ts:62-69 | Two arrays print alike if and only if they are equal |
| CsvText.CsvReadsBack | server/src/services/export.service.ts:52-59 | A reader after section 2 of RFC 4180 recovers all cells of all rows if and only if every row has a column |
| JsonText.JsonReadsBack | server/src/services/export.service.ts:154 | A reader after RFC 8259 recovers every JSON value from its compact text |
| JsonText.PairReadsBack | server/src/services/export.service.ts:154 | The reader also takes the escaped surrogate pairs that RFC 8259 allows for any character outside the basic plane |
| ExportWriter.SplitDoesNotShow | server/src/services/export.service.ts:144-204 | Any split into batches, empty and full ones included, writes the text of the rows |
| SqlNames.NamesReadBack | server/src/services/export.service.ts:190-197 | A reader recovers every list of quoted column names from its text |
| SqlNames.NamesTextInjective | server/src/services/export.service.ts:190-197 | Two column lists are written alike if and only if they are equal |
| ExportWriter.BatchingIsInvisible | server/src/services/export.service.ts:144-204 | Two splits of the same rows always write the same text, for JSON and CSV always and for SQL if and only if all rows name the same columns in the same order |
| ExportWriter.JsonExportReads | server/src/services/export.service.ts:144-162 | The JSON export parses to one member per table in order, each the array of all its rows in order |
| ExportWriter.CsvTableReads | server/src/services/export.service.ts:171-180 | A table's CSV section reads back as its column names followed by every row's cells, in order |
| SqlText.InsertReadsBack | server/src/services/export.service.ts:190-199 | A reader for INSERT statements recovers table, columns and literals in order from what is written, whatever quotes the names hold |
| SqlText.QuotedTextIsLiteral | server/src/services/export.service.ts:78-100 | A text in single quotes with its quotes doubled ends where a reader ends it |
| ExportWriter.SqlTableReads | server/src/services/export.service.ts:190-201 | A table's statements read back as one INSERT per row in order, into that table, with its columns and literals in order |
| ExportWriter.Writer.WriteRows | server/src/services/export.service.ts:151-201 | One batch appends exactly the batch's text, given what the writer remembers of the table, and remembers it again |
| ExportWriter.Writer.StreamTable | server/src/services/export.service.ts:261-281 | The row-by-row loop with flushes writes a table's text as if there were no batches |
| ExportWriter.Writer.FetchTable | server/src/services/export.service.ts:326-339 | The cursor loop ends, fetches each row once and writes the same text |
| ExportWriter.DistinctTables | server/src/services/export.service.ts:31-50 | The PostgreSQL list has each requested name once and loses none |
| ExportWriter.Writer.Export | server/src/services/export.service.ts:207-222 | A whole export is the text of its tables' rows, a repeated name written once for PostgreSQL and as often as requested for MySQL |
| McpDailyLimit.LimitHoldsInEveryRun | server/src/services/mcp.service.ts:335-359 | For any number of callers with arbitrarily stale clocks: every roll sets a later UTC midnight, and calls under one label stay within the limit times one plus the key rotations under it |
| McpDailyLimit.LimitWithoutRotation | server/src/services/mcp.service.ts:335-359 | Without rotations at most the limit per label |
| McpDailyLimit.RefusedOnlyAtTheLimit | server/src/services/mcp.service.ts:343-359 | A caller is refused if and only if the limit was used up since the last roll or rotation, by calls of the window in force, which is not over for this caller |
| McpDailyLimit.RollOpensWindow | server/src/services/mcp.service.ts:339-346 | After a caller's roll the window ends at its clock or later; a window that was over is replaced by one that ends at the next UTC midnight, with the counter at 0 |
| McpDailyLimit.NextDayIsOpen | server/src/services/mcp.service.ts:343-359 | After any run, the first caller whose clock is past the window is admitted, however the limit was used up before |
| McpDailyLimit.McpApiKey.RollWindow | server/src/services/mcp.service.ts:343-346 | The conditional update: the row after it, how many rows it matched, and that the window it leaves ends at the caller's clock or later |
| McpDailyLimit.McpApiKey.Admit | server/src/services/mcp.service.ts:332-359 | With other callers between its awaits, a caller is admitted within the limit or refused at it, in a window that is not over for it; a missing limit admits all |
| McpDailyLimit.PickDeclaredArgs | server/src/services/mcp.service.ts:56-62 | Exactly the declared arguments remain, with the caller's values |
| RefreshRotation.RedeemedAtMostOnce | server/src/controllers/auth.controller.ts:246-277 | Over all interleavings of find, delete, create and commit no refresh token is redeemed twice, and a redeemed one is never valid again |
| RefreshRotation.HandlersRefineRedemption | server/src/controllers/auth.controller.ts:246-277 | At every reachable state a commit removes the presented session and adds one for the same user; every other handler step, failures included, changes no session |
| RefreshRotation.ExpiredNeverRedeems | server/src/controllers/auth.controller.ts:246-250 | A refresh that finds its token unknown or expired never commits, in any interleaving |
| RefreshRotation.LiveTokenRedeems | server/src/controllers/auth.controller.ts:246-277 | An unexpired stored token with nobody else at it can be redeemed: the run that does it, and the sessions after it |
| RefreshRotation.RefreshTokens.Refresh | server/src/controllers/auth.controller.ts:246-277 | The transaction alone: when it succeeds, and that a failure inside changes nothing |
| SessionRevocation.RevokedForever | server/src/controllers/auth.controller.ts:337-338 | After a password change or revoke-all, in every continuation, no earlier access token of that user authenticates and no earlier refresh token redeems |
| SessionRevocation.VersionNeverDecreases | server/src/controllers/auth.controller.ts:408-410 | The version grows by exactly the number of password changes, revoke-alls and suspensions of an active user |
| SessionRevocation.AccessTokenLivesUntilEnding | server/src/middleware/auth.middleware.ts:55-71 | An access token that passes now passes later if and only if none of these happened to its user meanwhile and the user is active |
| SessionRevocation.SuspensionEndsAccess | server/src/controllers/admin.controller.ts:220-232 | After a suspension no earlier access token of that user passes, in any continuation with reactivations, and the stored sessions are as before |
| SessionRevocation.SuspendedRefreshTokens | server/src/controllers/admin.controller.ts:220-232 | A suspended user's unexpired refresh token is refused, and redeems after reactivation |
| SessionRevocation.RefreshServedExactly | server/src/controllers/auth.controller.ts:246-277 | A refresh is served exactly for a stored token of an active user that is not over; the old session goes, the new one is that user's, and any other refresh changes nothing |
| SessionRevocation.ExpiredRefreshChangesNothing | server/src/controllers/auth.controller.ts:247-250 | In every run, an unknown or expired refresh token changes nothing |
| SessionRevocation.EndingSparesOthers | server/src/controllers/auth.controller.ts:337-338 | A password change, revoke-all or suspension leaves every other user's sessions and access tokens as they were |
| SessionRevocation.SignInWorks | server/src/middleware/auth.middleware.ts:48-75 | A fresh sign-in passes: the claims above are not met by refusing everyone |
| SessionRevocation.AuthServer.RefreshSession | server/src/controllers/auth.controller.ts:246-280 | The handler as the atomic step: tokens exactly for a stored token of an active user with its expiry not before now, stamped with the current version; otherwise nothing changes |
| SessionRevocation.AuthServer.RevokeAllSessions | server/src/controllers/auth.controller.ts:406-413 | The revocation step, and the number of sessions it reports |
| SessionRevocation.AuthServer.EndBecausePasswordChanged | server/src/controllers/auth.controller.ts:336-338 | The same end state by the two updates in the other order |
| SessionRevocation.AuthServer.SignInUser | server/src/controllers/auth.controller.ts:218-222 | A sign-in stores its session, and its access token passes |
| SessionRevocation.AuthServer.SetUserStatus | server/src/controllers/admin.controller.ts:205-241 | The status step: nothing when unchanged, a bumped version when an active user is suspended |
| SessionRevocation.AuthServer.Authenticate | server/src/middleware/auth.middleware.ts:55-71 | Passes exactly active users with the current version, a missing claim read as 0 |
| RevocationRace.DeletionEndsUnrefreshed | server/src/controllers/auth.controller.ts:408-410 | Statement by statement, with any number of overlapping refreshes: a session stored when a revocation's deletion begins ends if and only if no refresh of it commits before the deletion is through |
| RevocationRace.OverlappedRefreshSurvives | server/src/controllers/auth.controller.ts:408-410 | Survival is real: a refresh overtaken by a revocation just before its commit leaves exactly its new session, while the access token that came with it carries the old version |
| RevocationRace.EndedForGood | server/src/controllers/auth.controller.ts:246-277 | A session that has ended is never refreshed again, in any continuation |
| RevocationRace.OldStampsNeverPass | server/src/controllers/auth.controller.ts:337-338 | After the version bump no access token stamped before it passes, not even one that a refresh already under way hands out later |
| ApiClient.SingleFlight | client/src/lib/api.ts:23-64 | In every run at most one refresh is in flight and no request is sent more than twice |
| ApiClient.UnauthorizedJoinsRefresh | client/src/lib/api.ts:25-54 | At every point of every run, a 401 on a request not yet retried leaves it waiting on the one refresh in flight, the one under way if there is one; a retried one is rejected; nothing else changes |
| ApiClient.WaitsForDelivery | client/src/lib/api.ts:53 | A waiting request keeps waiting, with the refresh in flight, until an answer is delivered |
| ApiClient.HandleAnswers | server/src/controllers/auth.controller.ts:246-285 | The server grants new tokens exactly when it accepts a presented token that is still stored, and otherwise refuses and changes no session |
| ApiClient.WaitersShareOneToken | client/src/lib/api.ts:50-55 | A granted refresh sends every waiting request its second time with the same new token and touches no other |
| ApiClient.FailureRejectsWaiters | client/src/lib/api.ts:56-62 | A failed refresh signs out and rejects exactly the waiting requests |
| ApiClient.NoReuseUnlessLost | client/src/lib/api.ts:25-41 | Against the server's rotation, the client never presents a redeemed token in any run in which no granted answer is lost |
| ApiClient.LostAnswerLeadsToReuse | client/src/lib/api.ts:25-41 | The condition is needed: from any state, one lost answer makes the next refresh present a redeemed token |
| ApiClient.HandleRedeems | server/src/controllers/auth.controller.ts:246-280 | What the server does in that composition is the redemption that the interleaved handlers refine |
| ApiClient.Interceptor.HandleUnauthorized | client/src/lib/api.ts:46-55 | The interceptor as the client's step, and that only the first 401 posts a refresh |
| ApiClient.Interceptor.ResolveRefresh | client/src/lib/api.ts:34-55 | The waiters resume one after another, all with the new token |
| ApiClient.Interceptor.FailRefresh | client/src/lib/api.ts:56-62 | Sign-out, and every waiter rejected |
| Retention.SurvivorsAreNewest | server/src/services/retention.service.ts:23-47 | A pass leaves a newest-first prefix, and a backup survives if and only if both rules keep it |
| Retention.OrderIsIrrelevant | server/src/services/retention.service.ts:23-47 | Applying several policies in turn gives the same result in any order and with repetitions |
| Retention.MergedIsStrictestOfEach | server/src/services/retention.service.ts:126-140 | One pass under the merged policy equals applying every schedule's policy in turn with the cap as one more day rule, for all backup lists if and only if the cap is absent, positive or without a day rule to act on |
| Retention.SweepMeetsEverySchedule | server/src/services/retention.service.ts:95-141 | What the daily sweep leaves of a connection is what all its schedules and the cap leave in turn, or the two default settings when it has no schedule |
| Retention.EnforcedTouchesOneConnection | server/src/services/retention.service.ts:27-67 | In the whole table a pass changes one connection's COMPLETED rows and nothing else |
| Retention.PassAccounts | server/src/services/retention.service.ts:53-67 | The rows and bytes a pass counts are exactly those that are gone |
| Retention.RetentionService.EnforceForConnection | server/src/services/retention.service.ts:17-87 | The method's table, count and freed bytes are those of the pass |
| Retention.RetentionService.RunGlobalSweep | server/src/services/retention.service.ts:147-189 | Every connection with a completed backup in scope ends as its own pass leaves it, under the cap of an owner in scope, a failing one keeps everything, a user's own sweep leaves connections with only other users' backups alone, and the reported bytes add up to the bytes gone |
| Quota.StepKeepsInv | server/src/services/quota.service.ts:16-60 | Stored plus admitted bytes within every quota, kept by each step of jobs, retries, deletions and retention, and by a quota change if and only if the new quota covers them |
| Quota.UsageStaysWithinQuota | server/src/queue/backup.queue.ts:101-191 | In every run with one job at a time and no lowered quota, no user's COMPLETED backups exceed the quota |
| Quota.UsageWithinCoveringQuota | server/src/queue/backup.queue.ts:101-191 | The same when quotas are lowered but never below what is stored and admitted |
| Quota.RetryNotCountedTwice | server/src/queue/backup.queue.ts:71-111 | The verdict on a job, first try or retry, is on the usage of all rows but its own |
| Quota.RefusedRowFails | server/src/queue/backup.queue.ts:98-111 | A dump that fits is admitted and changes nothing else; one that does not fit ends its job, with its row FAILED and all others as they were |
| Quota.CompleteAddsAdmitted | server/src/queue/backup.queue.ts:175-191 | Recording a backup adds exactly the admitted size to its owner's usage |
| Quota.RetentionFreesUsage | server/src/services/retention.service.ts:53-67 | A retention pass lowers its owner's usage by exactly the bytes it reports and nobody else's |
| HostKeyPin.OneKeyForAll | server/src/services/ssh.service.ts:34-57 | In a run without a cleared pin, a caller is accepted if and only if its key is the stored pin: all accepted presented one key |
| HostKeyPin.PinChangesOnce | server/src/services/ssh.service.ts:47-51 | Once set, the pin stays for the rest of such a run |
| HostKeyPin.AcceptedMatchesEpoch | server/src/services/ssh.service.ts:34-57 | In every run, with any number of clears: whoever is accepted within one epoch presented that epoch's key, and a refusal names a key that was pinned and differs |
| HostKeyPin.ClearedPinAcceptsAnything | server/src/services/ssh.service.ts:56-57 | The exception is real: a caller overtaken by a clear before its last read is accepted with any key |
| HostKeyPin.StepsAreRelied | server/src/services/ssh.service.ts:34-57 | Every step of the other callers, every clear and the deletion leave what a waiting caller relies on |
| HostKeyPin.Connection.VerifyHostKey | server/src/services/ssh.service.ts:34-57 | The function with others between its statements: its answer is the pin's, unless the pin was cleared meanwhile |
| LoginLockout.FailuresAreRationed | server/src/services/login-lockout.service.ts:24-51 | Over any interleaving of addresses, with passkey sign-ins at any time, one address's evaluated failures since its last sign-in number at most ATTEMPTS for each started lock length of any span |
| LoginLockout.EveryNthLocks | server/src/services/login-lockout.service.ts:35-47 | A lockout is reported on every ATTEMPTS-th failure and no other; the stored count stays below ATTEMPTS |
| LoginLockout.LockedExactly | server/src/services/login-lockout.service.ts:24-29 | An address is turned away exactly while one of its lockouts is at most a lock length old |
| LoginLockout.CheckedExactly | server/src/controllers/auth.controller.ts:163-188 | In every run, a password attempt goes on to be evaluated exactly when no lockout of its address is at most the configured minutes old |
| LoginLockout.LockBetween | server/src/controllers/auth.controller.ts:163-188 | ATTEMPTS + 1 failures in a row take longer than one lock |
| LoginLockout.Lockout.RecordLoginFailure | server/src/services/login-lockout.service.ts:35-47 | The table and the report after a failure; other addresses and missing ones are untouched |
| LoginLockout.Lockout.ClearLoginFailures | server/src/services/login-lockout.service.ts:49-51 | One address's state goes, no other |
| LoginLockout.Lockout.IsLoginLocked | server/src/services/login-lockout.service.ts:24-29 | The verdict, and the remaining seconds rounded up |
| CrossIpAlert.AlertsAreSpacedAndBacked | server/src/services/login-lockout.service.ts:60-83 | In any failure stream, consecutive alerts are more than a window apart, and each rests on at least the threshold of failures from at least two addresses, all after the previous alert and within one window |
| CrossIpAlert.AlertExactlyWhenDue | server/src/services/login-lockout.service.ts:60-83 | In any failure stream, a failure raises an alert if and only if its fifteen-minute window holds at least the threshold of failures from at least two addresses and no alert was raised in the fifteen minutes before |
| CrossIpAlert.BurstRaisesAlert | server/src/services/login-lockout.service.ts:60-83 | After fifteen quiet minutes, failures from two addresses within fifteen minutes raise an alert by the time they reach the threshold |
| CrossIpAlert.Detector.RecordAccountFailure | server/src/services/login-lockout.service.ts:67-83 | The method moves one account's state as the stream does and leaves the others |
| Passkeys.SweepingIsInvisible | server/src/services/passkey.service.ts:29-33 | Under a clock that never goes back, every answer is that of a map which is never swept |
| Passkeys.PassesAtMostOnce | server/src/services/passkey.service.ts:134-141 | A challenge passes at most as often as it was issued, so a random one at most once |
| Passkeys.PassedWasIssued | server/src/services/passkey.service.ts:134-141 | What passes was issued at most five minutes ago, with the stored value |
| Passkeys.IssuedWillPass | server/src/services/passkey.service.ts:117-141 | An issued, unused challenge passes until its time is up, whatever happens to the others |
| Passkeys.AnsweredForFiveMinutes | server/src/services/passkey.service.ts:22-141 | An issued, unused challenge is answered with its value up to five minutes later and refused from then on, whatever else happens |
| Passkeys.AnsweredOnce | server/src/services/passkey.service.ts:86-88 | A challenge that was answered is refused until it is issued again |
| Passkeys.NobodyLockedOut | server/src/services/passkey.service.ts:189-200 | Under serializable deletes, toggles and registrations, passkey-only mode always leaves a passkey |
| Passkeys.DecidedExactly | server/src/services/passkey.service.ts:189-200 | An own passkey is deleted unless it is the only one in passkey-only mode, no other is ever deleted, and the mode changes unless it would be switched on without a passkey |
| Passkeys.WeakerIsolationLocksOut | server/src/services/passkey.service.ts:189-200 | The isolation level is needed: from any two-passkey state, two overlapping deletes remove both without it |
| Passkeys.ChallengeStore.SweepChallenges | server/src/services/passkey.service.ts:29-33 | The loops keep exactly the entries that are not over |
| Passkeys.ChallengeStore.TakeAuthentication | server/src/services/passkey.service.ts:134-141 | A login challenge passes exactly while it is stored and not over, and is then spent |
| Passkeys.ChallengeStore.TakeRegistration | server/src/services/passkey.service.ts:86-88 | A registration challenge is handed out exactly while it is stored and not over, and is then spent |
| Passkeys.Account.DeletePasskey | server/src/services/passkey.service.ts:189-200 | Which of the three answers in which case, what is deleted, and that nobody is locked out |
| Passkeys.Account.TogglePasswordLogin | server/src/controllers/auth.controller.ts:550-573 | The refusal without a passkey, the new mode otherwise, and that nobody is locked out |
| SseStreams.CounterIsExact | server/src/services/sse.service.ts:33-97 | In every order of messages, timeouts, errors and closings the counter is the number of open streams, within 0..50, and each stream is released once |
| SseStreams.EveryStreamCanEnd | server/src/services/sse.service.ts:75-97 | In every run an open stream's timeout is still to come and a terminal message sets up its closing; either, when it fires, frees its place |
| SseStreams.StepKeepsInv | server/src/services/sse.service.ts:33-97 | Which streams are open after each event: an opening past 50 is refused, a terminal message alone closes nothing |
| SseStreams.SseService.RunCleanup | server/src/services/sse.service.ts:55-63 | The guarded cleanup counts a stream out once |
| SseStreams.SseService.StreamSse | server/src/services/sse.service.ts:33-38 | An opening is accepted exactly below 50 open streams |

## Left out

- AES, scrypt, SHA-256, JWT signing and the WebAuthn checks: parameters or abstract facts. No cipher with a 16-byte tag rejects every wrong passphrase for all texts that exist, so `CommittingOn` is only ever assumed for an explicit set of passphrases, and the resolver claims do not assume it.
- At-rest encryption of stored secrets (key manager) is the identity; a stored passphrase stands for its decryption.
- DIRECTORY-format backups: hashing a directory fails and remote copies are tars, so no byte equality is claimed.
- Downloads (backup.controller.ts:148-168): they stream the stored bytes without decrypting, unlike the comment on `maybeDecrypt` says.
- Remote storage: a store is its bucket, region and endpoint together, and any set credentials open it; a Drive account is what its login opens, without the five-minute cache of access tokens. Objects that others put or change in the bucket are not modelled.
- Backup jobs: engine file names are new for each run; notifications, progress and audit rows have no effect on the claims. The machine runs any number of jobs at once; `BackupServer.Yield` leaves out other jobs, since the worker takes one at a time.
- Deletion reads the row once more for each half; the program keeps the row it read first.
- Overlapping settings updates: the read and the write of one update are one step.
- A storage directory under the temp directory: `ReadBackup` and `UseBackup` assume it is not, because the resolver then removes the artifact it has decrypted; `EnsureLocalBackupFile` states what happens in either case.
- BackupServer.BackupServer.RunBackupJob: speaks of rows as recorded, since a row that is COMPLETED may become FAILED when the publish after it fails.
- Export: conversion of raw driver values to strings and JSON, the drivers' SQL literals, a client that disconnects, lone surrogates and table-name validation are outside; a row is its list of named cells.
- ExportWriter.SqlTableReads: that the drivers' literals end where they should is assumed of the literals (`IsLiteral`) and proved only for quoted PostgreSQL text; the column list is that of rows that name the same columns.
- McpDailyLimit: the limit is fixed during a run; scopes, approvals and the tools themselves are outside, as overlapping approvals have no atomic claim.
- SessionRevocation.RevokedForever: each handler is one step; RevocationRace has the statements of overlapping refreshes and revocations, for one user, without sign-ins by deactivated users.
- ApiClient: one tab; a page reload during a refresh counts as a lost answer.
- Retention: rows that complete or vanish while a pass is between its queries, and artifact deletion, which BackupServer models. One clock reading per pass, and equal creation times keep one order.
- Quota: the early check with size 0, the percentage, rounding of non-integer sizes and the message text.
- Quota.UsageStaysWithinQuota: assumes one job at a time, which the worker's default concurrency gives.
- HostKeyPin: connections that are not saved have no pin and accept any key; the tunnel itself.
- LoginLockout.FailuresAreRationed: attempts from one address do not overlap; overlapping ones can pass the check together.
- CrossIpAlert: the five-minute throttle of failure mails.
- Passkeys.NobodyLockedOut: a serializable database commits a transaction's writes only where its body would make them on the rows committed by then; this is the isolation assumption.
- SseStreams: heartbeats, the Redis subscriber and message contents other than being terminal.
- The configuration bundle, restore drills, health checks, the sync engine, migration executors, validation schemas, admin views, logging and all React code: plain data access or not shown.
