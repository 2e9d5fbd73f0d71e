# agent-corp: verified models

This project models the parts of the repository whose correctness is hard to see from the code, and proves
what they promise. `dafny verify dfyconfig.toml` checks everything.

## What is modelled

**Drive, the artifact store** (the `Drive*` files). A state machine over the store's tables, the ordered version
journal, the content-addressed disk, the staging area and the quota ledger. Its operations are register, stage,
charge, touch, commit, abort, expire, sweep, delete marker, restore, garbage collection, boot, and a crash inside a
commit, delete marker or restore, before or after a commit moved its file. A commit can fail at the rename or at the
audit write, behind its own durable line. `DriveStore.Store` is the same store as an object: its methods update the
fields in place, statement by statement, and each is proved to take exactly the machine's step.

- `DriveReplay`, `DriveSafety`, `DriveRuns`: rebuilding from the journal refines the live index; booting over a live
  index is a no-op; rebuilding twice is rebuilding once.
- `DriveJournal`, `DriveCrash`: what the reader makes of any prefix of a journal file, and crash atomicity down to the
  character at which the line being written was cut.
- `DriveFacts`, `DriveAlways`: what holds over every run whatever: refcounts, links and keys, and that no row, name or
  pointer is ever told two ways.
- `DriveFaults`, `DriveBoots`, `DriveHealing`: commits rolled back behind their line, with boots and crashes in any
  order: exact conditions for rebuilding from nothing and for booting over the live tables, and what the boot behind
  them heals.
- `DrivePurge`, `DriveRevival`, `DriveRestoring`, `DriveRestarts`: collections, boots and crashes in any order: when the
  journal rebuilds the tables, when a boot comes up, and what it brings back, also behind half a collection.
- `DriveLive`, `DriveDisk`: what a collection removes, bytes conserved, and files that match their hashes.
- `DriveFencing`, `DriveTokens`: tokens and high-waters over runs with crashes, boots, I/O faults and collections, stale
  commits, retries after a crash.
- `DriveAnswers`: what every operation answers and when, and what one replayed line does, in the words of the tables.
- `DriveOrigins`, `DriveMarked`: where every session and row comes from, and what outlives every collection.
- `DriveSessions`, `DriveRecords`: caps, quota, idempotent registration and absorbing commits over every run whatever.
- `DriveUpload`: the PUT stream with its charges and releases. `DrivePaging`: keyset pagination.

**The agent runtime's kill switch** (`Drain`, `Claims`, `AgentLoop`, `Worker`). The drain machine, fed by pushed
commands and polled levels in any order; the auth client with its breaker; restarts that seed from the kill-epoch log;
the claim gate; the bounded loop of a worker under an arbitrary driver, Board, clock and drain schedule; one poll.

**Board restore** (`BoardRestore`). The reconciliation of a restored database as one transaction of loops over four
tables, and fencing tokens over whole histories of acquires, releases, boots, a snapshot, a crash and a restore.

**CMDB change log** (`Chain`). Appending and verifying the hash chain, and what tampering can and cannot hide.

**ULIDs** (`Ulid`). The four encoders, what number a string denotes, how strings compare, when the monotonic source is
monotonic.

## Where the code and its documentation part

The model follows the code. Each of these is stated as a theorem, except the last sentence about the Board, which only
says who calls it.

- A rolled-back commit is compensated by an `aborted` line. Replaying it deletes the row, but the artifact row, the
  pointer, the fencing high-water and the blob row the first line produced stay (`DriveHealing.RebuildAfterFaults`,
  `DriveHealing.RollbackDangles`), although a rebuild is documented as restoring the index; when the same content is
  committed again later, the rebuilt blob row keeps the creation time of the attempt that failed. A boot over the live
  tables, documented as a safe superset, moves pointers and raises fences in the same way
  (`DriveHealing.BootAfterFaults`, `DriveHealing.BootDangles`).
- A delete marker or restore whose audit throws reports a failure, and the next boot performs it
  (`DriveHealing.AuditThrows`).
- The purge of a delete-marked artifact and its version rows is not journaled, so the next boot undoes it. If no blob
  was purged and the names are still free, the artifacts and all their byte-holding versions are back in the live
  tables, and a restore of them succeeds; a rebuild from nothing agrees with those tables again
  (`DriveRestarts.CollectionUndone`, `DriveRestarts.BootOutcome`, `DriveRestarts.BootForgives`). If meanwhile another
  artifact was registered under the ticket and name of a purged one, the boot throws (`DriveRevival.SucceedsIff`).
- Once a collection has purged a blob, in runs without rolled-back commits, no replay of the journal succeeds again
  (`DriveRestarts.PurgeStopsRebuild`, `DriveRestarts.ReclaimingPurges`): the replayed rows hold the blob by its foreign
  key. Every boot replays the journal, so the process does not start again (`apps/drive/src/index.ts`, `main`).
- A commit interrupted by a crash after its line is complete leaves its session pending although the boot brings the
  version back, and each retry, which the operation id exists to make safe, is refused while the version is there
  (`DriveFencing.RetryAfterCrash`, `DriveFencing.OperationTaken`).
- `gcPreview` reports no blob and no byte to reclaim in any run in which nothing boots once a commit was rolled back
  behind its line (`DriveRestarts.PreviewBlind`).
- A torn tail is tolerated once. After the next append the reader throws on the whole file unless the two texts glued
  together happen to parse (`DriveJournal.AppendAfterTornTail`).
- Aborting an aborted or expired session releases its quota again (`DriveUpload.SecondAbortReleases`). A failed upload
  that ran past midnight releases on the wrong day (`DriveUpload.ReleaseExactIff`).
- An idempotency key that names two commands at one epoch loses the higher one (`Drain.ReusedKeyLosesKill`). An unknown
  level name in auth's answer lifts a drain or kill as RUN does (`Claims.UnknownLevelLifts`).
- The worker's loop reports COMPLETED when the Board refused the final transition with any error but a stale fence
  (`AgentLoop.Run`), though loop.py calls that ending externally verifiable.
- A poll that gets no lease leaves its liveness frame in the registry for good, so the roster that monitoring takes for
  the population keeps growing (`Worker.RosterCountsIdlePolls`).
- The restore floor is raised under execution holds too, so the token the executor was given stops matching
  (`BoardRestore.ExecutionTokenSurvivesIff`), though the comment says these holds are left as they are. A lock row
  created in the lost window restarts at generation 1 and its tokens are minted again
  (`BoardRestore.LostRowsStartOver`). The method's comment says it runs at every boot;
  `apps/board/server/src/index.js` runs it on an operator's flag only.
- The hash chain's `session`, `confirm_token_id` and non-zero value of `weakening` can be rewritten unnoticed
  (`Chain.UncoveredColumns`); cutting rows off the end verifies (`Chain.TruncationShowsAtTheTip`).
- Library's ids agree with the other apps' only while the clock fits 48 bits (`Ulid.LibraryAgreesIff`).

## Model

| member | source | states |
|---|---|---|
| DriveRuns.RebuildRefinesLive | apps/drive/src/storage/maintenance.ts:35-117 | After every safe run, replaying the journal from an empty index succeeds and gives the live byte-holding version rows, the ticket, name and pointer of every artifact that holds bytes and no other artifact, the whole blob rows, and the per-ticket fencing high-waters. |
| DriveRuns.RebuildGives | apps/drive/src/storage/maintenance.ts:55-117 | The same column by column: a rebuilt row is the live row without the MIME hint, and there is one exactly for each row with bytes; ticket, name and pointer of each artifact, all blob rows and all fences are the live ones. |
| DriveRuns.RebootIsNoOp | apps/drive/src/storage/maintenance.ts:171-173 | Booting over the live index of any safe run, crashes and earlier boots included, changes no table, although pointers move back and forth during the replay. |
| DriveRuns.RebuildIdempotent | apps/drive/src/storage/maintenance.ts:31-53 | Replaying the same journal over what a rebuild produced gives it back unchanged. |
| DriveReplay.ReplayOverLive | apps/drive/src/storage/maintenance.ts:55-117 | Over any consistent index of which every line holds and whose pointers are where the last line of each artifact put them, a replay with its final recount is the identity. |
| DriveReplay.ReapplyLine | apps/drive/src/storage/maintenance.ts:86-106 | One line replayed over an index that differs from the live one only in pointers never fails, keeps everything but the pointer it moves, and lands that pointer by the sequence-number guard. |
| DriveAnswers.CommittedLineReplays | apps/drive/src/storage/maintenance.ts:59-100 | What a replay makes of a committed line: the row is added without the hint unless its id, place or operation is taken, the blob and the artifact unless they are there, the pointer moves unless it leads to a version at least as new, the high-water only rises; it fails exactly if the artifact is absent, its name is taken by another and its row is not there. |
| DriveAnswers.OtherLineReplays | apps/drive/src/storage/maintenance.ts:101-113 | What it makes of any other line: a delete marker clears the pointer, a pointer move sets it, an aborted line drops the row, and a purge line drops the blob row or, while a version names it, fails. |
| DriveRuns.StepKeepsSafe | apps/drive/src/storage/store.ts:209-559 | Every operation of a safe run, interrupted ones and boots included, keeps the invariant that ties tables and journal together: tables consistent, every line true of the live row, every pointer the last line about it, and the replay a mirror of the tables. |
| DriveSafety.CommitKeepsSafe | apps/drive/src/storage/store.ts:454-525 | A commit's row, reference, pointer and fence, together with the line that describes them, keep that invariant; the row's sequence number being above all others of its artifact is what makes the guarded pointer move of a replay agree with the unconditional live one. |
| DriveSafety.CommitReplayed | apps/drive/src/storage/maintenance.ts:58-100 | Booting the tables from before a commit over a journal that already has its line yields exactly the tables after it, up to the unjournaled MIME hint. |
| DriveSafety.PointerReplayed | apps/drive/src/storage/maintenance.ts:101-106 | The same for the lines of delete markers and restores: the boot sets the pointer and nothing else. |
| DriveSafety.MarkerKeepsSafe | apps/drive/src/storage/store.ts:704-723 | A delete marker's own row, which no line carries, does not disturb the invariant. |
| DriveSafety.PurgeKeepsSafe | apps/drive/src/storage/gc.ts:98-110 | Purging delete-marked chains that never held bytes keeps the invariant and leaves no blob unreferenced. |
| DriveSafety.CompensationKeepsSafe | apps/drive/src/storage/store.ts:549-556 | An `aborted` line for a version that never got its own line keeps the invariant. |
| DriveRuns.CommitEffect | apps/drive/src/storage/store.ts:454-541 | A commit transaction either inserts one row that met the fence and clashed with nothing, moves the pointer, marks the session and answers with the receipt of that row, or leaves tables and sessions as they were; the ledger never moves. |
| DriveAnswers.CommitAnswers | apps/drive/src/storage/store.ts:426-558 | The exact answer of every commit, guard by guard: not found, not the owner, the old receipt, wrong state, executable, other digest than announced, token below the high-water, artifact gone or operation taken, file that cannot be placed or audit that throws; otherwise the row column by column with the next sequence number of its chain, the pointer, the session, the file and the receipt. |
| DriveOrigins.RowOrigin | apps/drive/src/storage/store.ts:426-558 | Over every run whatever, each byte-holding row, also one a boot brought back, was made by a registration and a later commit of that run: ticket, note, subject, operation and token (the integer an agent echoed, none for others) are the registration's, hash, size, type and name the commit's, the digest is the one announced, and the type is no executable unless allowed. |
| DriveFencing.CommitCrashOutcome | apps/drive/src/storage/store.ts:505-548 | A crash anywhere in a commit, before or after its file was moved, followed by a boot, leaves either nothing, or the compensation line alone, or the whole version with its line; the sessions are as before, and so are disk and staging unless the file was moved to its address, which happens only where the version survives. |
| DriveFencing.RetryAfterCrash | apps/drive/src/storage/store.ts:443-558 | After a crash inside a commit and a boot the session is still pending. If the version survived by its line, a retry is refused by UNIQUE (created_by, op_id), whatever it carries; if not, a retry succeeds exactly when it would have without the crash, whether or not the file was moved. |
| DriveFencing.OperationTaken | apps/drive/src/storage/store.ts:443-558 | For as long as a row with the session's subject and operation id is in the table, in whatever state, every commit of the session that gets past the guards is refused: as stale exactly when its token is below the high-water, by UNIQUE otherwise. |
| DriveHealing.RebuildAfterFaults | apps/drive/src/storage/maintenance.ts:86-113 | After every run without collections, with commits that fail behind their line, boots and crashes in any order, a rebuild succeeds and restores exactly the version rows. Pointers, fences, whole blob rows (size and creation time too) and the set of artifacts are each restored if and only if no rolled-back line that no boot has replayed yet makes a difference there, by conditions read off the journal and the places of the boots in it; so the rebuilt index agrees with the live one if and only if all four hold. |
| DriveHealing.BootHeals | apps/drive/src/storage/maintenance.ts:171-173 | Behind the boot that follows such faults pointers and fences are what every rebuild gives, a second boot changes nothing, and a rebuild agrees if and only if the blob rows and the set of artifacts do. |
| DriveHealing.BootDangles | apps/drive/src/storage/maintenance.ts:91-113 | What that boot leaves broken: a pointer dangles exactly where a rolled-back line was the last to move it, and a blob row has no version exactly where no commit that stands names it. |
| DriveHealing.RollbackDangles | apps/drive/src/storage/maintenance.ts:91-113 | After every run without collections: a commit that fails behind its line leaves the live index alone, and the next rebuild points the artifact at the version that was rolled back, for which there is no row. |
| DriveHealing.BootAfterFaults | apps/drive/src/storage/maintenance.ts:55-117 | In the same runs a boot over the live tables succeeds and keeps the version rows; pointers, fences and blob rows it keeps each if and only if no rolled-back line that no boot has replayed makes a difference there; so it changes nothing if and only if all three hold. |
| DriveHealing.AuditThrows | apps/drive/src/storage/store.ts:704-739 | A delete marker or restore whose audit throws behind its durable line, after any safe run, leaves the tables as they were; the next boot sets the pointer all the same, and a rebuild from nothing agrees with the tables exactly when the artifact has no bytes or its pointer was there already. |
| DriveRestarts.RebuildableIff | apps/drive/src/storage/gc.ts:98-127 | In every run whose commits are not rolled back behind their line, with collections, boots (also ones that throw) and crashes whose boot comes up, the journal rebuilds the live index, and a boot over it changes nothing, if and only if since the last boot that came up every collection met only delete-marked artifacts that never held bytes. |
| DriveRestarts.RebuildableIffNothingPurged | apps/drive/src/storage/gc.ts:98-127 | In those of these runs that neither boot nor crash: if and only if every collection of the run met only such artifacts, that is, the run is safe. |
| DriveRestarts.BootOutcome | apps/drive/src/storage/maintenance.ts:55-117 | In the same runs a boot comes up if and only if no blob was purged and no missing artifact's name is taken by another; then every version the journal committed is in the table again, with its artifact and at the pointer the journal last gave it, all rows that were there are unchanged, and the journal rebuilds the tables again. If it throws nothing changes. |
| DriveRestarts.CollectionUndone | apps/drive/src/storage/gc.ts:98-110 | In particular a collection that purged chains but found no blob to reclaim is undone by the next boot: all byte-holding rows, pointers and refcounts are back, and every purged version can be restored. |
| DriveRestarts.BootForgives | apps/drive/src/storage/gc.ts:98-110 | So a run with an unsafe collection can end in tables the journal rebuilds. |
| DriveRestarts.HalfCollectionUndone | apps/drive/src/storage/gc.ts:98-110 | The same of a collection that ended, by a crash, after the transactions of any of its chains. |
| DriveRestarts.HalfReclaimedStuck | apps/drive/src/storage/gc.ts:112-127 | Behind the first purge line of a collection, wherever it ended and however many of its blob rows are gone, no replay succeeds. |
| DriveRevival.SucceedsIff | apps/drive/src/storage/maintenance.ts:68-110 | Over the live tables, over none, and over any set of whole chains of them, a replay of a journal without rolled-back commits succeeds exactly if it holds no purge line and the names of the artifacts missing from the start are free and distinct. |
| DriveRestoring.PartRestored | apps/drive/src/storage/maintenance.ts:31-53 | While nothing is missing from the live tables, a replay over any whole chains of them restores all rows with bytes, the blobs with their refcounts, the fences and the pointers. |
| DriveRestarts.PurgeStopsRebuild | apps/drive/src/storage/maintenance.ts:107-110 | In the same runs, once the journal holds a purge line no replay of it succeeds, whatever is appended later: neither a rebuild from nothing nor the replay over the live tables that every boot performs. |
| DriveRestarts.ReclaimingPurges | apps/drive/src/storage/gc.ts:112-127 | Every collection that reclaims a blob in such a run leaves such a journal. |
| DriveJournal.SplitText | apps/drive/src/storage/journal.ts:78 | The split at newlines: joining the parts gives the text back and no part holds a newline. |
| DriveJournal.SplitUnique | apps/drive/src/storage/journal.ts:78 | It is the only such cut: parts without newlines are what splitting their join gives. |
| DriveJournal.ReadNdjson | apps/drive/src/storage/journal.ts:75-93 | The reading loop returns the specified events and torn flag, or the index of the corrupt line, for every file and every parser; a missing file reads as empty. |
| DriveJournal.CutMeans | apps/drive/src/storage/journal.ts:60-72 | The cut of a prefix counts exactly the events whose text lies wholly inside it and says torn exactly when something of the next one remains. |
| DriveJournal.ReadsPrefix | apps/drive/src/storage/journal.ts:75-93 | For every list of events and every prefix of the file that writing them produces, the reader never throws, returns exactly the wholly written events in order, and reports a torn tail exactly when a partial line remains. |
| DriveJournal.AppendAfterTornTail | apps/drive/src/storage/journal.ts:60-93 | After an append behind a torn tail the reader throws exactly when the two glued texts do not parse as one. |
| DriveCrash.CrashAtomic | apps/drive/src/storage/store.ts:454-548 | A commit, delete marker or restore is interrupted at any character of its line with its transaction lost: booting yields exactly the tables before it if any character of the text is missing, and the tables after it if none is. |
| DriveCrash.CommittedSurvives | apps/drive/src/storage/store.ts:505-548 | When the transaction did reach the database, booting over the complete line changes nothing. |
| DriveAlways.RefcountAccounting | apps/drive/src/storage/store.ts:465-472 | Over every run whatever, crashes, boots, I/O faults and collections included, each blob's refcount is the number of version rows naming it, every row has its artifact and its blob, and no two rows share a place in a chain, an operation or a name. |
| DriveRestarts.PointersResolve | apps/drive/src/storage/store.ts:488-500 | In every run in which nothing boots or crashes once a commit was rolled back behind its line (and no boot of a crash throws), collections included, every pointer resolves to a byte-holding row of its artifact and every blob has a row naming it. |
| DriveLive.CollectRemovesExactly | apps/drive/src/storage/gc.ts:88-127 | A collection removes a version row exactly if the pointer of its artifact is NULL, such an artifact exactly if it had a row, exactly the blobs no surviving row names and exactly their files; every other row, count and file is as it was. |
| DriveMarked.PointedOutlives | apps/drive/src/storage/gc.ts:96-110 | Over every run whatever, an artifact with a current version stays, with a current version and all its versions, until it is delete-marked: no collection, fault, crash or boot takes any of them (given that no crashed delete marker was left without a boot that came up before). |
| DriveLive.CollectConserves | apps/drive/src/storage/gc.ts:112-132 | The blob table's bytes before a collection are its bytes after plus the reported reclaimed bytes. |
| DriveRestarts.PreviewBlind | apps/drive/src/storage/gc.ts:73-81 | In the same runs the dry run finds no unreferenced blob; what the purge will find are blobs named only by rows of marked chains. |
| DriveDisk.DiskSafety | apps/drive/src/storage/store.ts:527-548 | In every run without a crash between a commit's line and its rename, other crashes, boots, I/O faults and collections included, each row's hash resolves to a stored file whose bytes have that hash, including content committed again after a purge and dedup hits whose file is missing. |
| DriveDisk.DiskSafeIff | apps/drive/src/storage/store.ts:527-548 | That limit is exact: a safe step behind such a run keeps disk safety if and only if it is not such a crash. |
| DriveDisk.CommittedBytesServed | apps/drive/src/storage/cas.ts:84-95 | In the same runs, the hash not colliding, a committed version serves exactly the bytes that were staged for it for as long as its row is there, also if it was purged and brought back. |
| DriveAlways.RowsNeverChange | apps/drive/src/storage/store.ts:474-497 | Over every run whatever a version's row never changes but for the MIME hint that no line carries, and no id is used twice: a row with an old id was in the table then or comes back from a line the journal had then. |
| DriveAlways.RunAppends | apps/drive/src/storage/store.ts:474-497 | While one process lives, rows that survive do not change at all, and none comes back. |
| DriveFencing.FencedRuns | apps/drive/src/storage/store.ts:166-188 | Over every safe run, crashes and boots included, the tokens of one ticket's committed lines never decrease and the stored high-water is their maximum. |
| DriveTokens.TokensTracked | apps/drive/src/storage/store.ts:166-188 | Over every run in which each crash's boot comes up, whatever is collected, whichever commits fail and whatever boots, the tokens of a ticket's lines that were not rolled back never decrease, and the high-water is the largest token of the lines that were not rolled back or that a boot has replayed. |
| DriveTokens.FencedUnlessRolledBack | apps/drive/src/storage/store.ts:166-188 | So while no commit was rolled back behind its line, all tokens of a ticket are sorted and the high-water is their maximum. |
| DriveTokens.UncollectedSurvives | apps/drive/src/storage/maintenance.ts:92-98 | In every run without collections each boot comes up. |
| DriveFencing.StaleCommitInert | apps/drive/src/storage/store.ts:166-188 | A commit is refused as stale if and only if its token lies below the high-water, and then no table, ledger, file or journal line changes. |
| DriveOrigins.EchoFences | apps/drive/src/storage/store.ts:143-188 | An agent is fenced by its echo: whatever happened since it opened a session, a commit of that session which passes the guards before is refused as stale if and only if the high-water of its ticket is above the integer it echoed, and a version it commits carries that integer and leaves the high-water no lower. |
| DriveRecords.CommittedAbsorbing | apps/drive/src/storage/store.ts:426-441 | Whatever operations, crashes, boots, I/O faults and collections came since a commit succeeded, a repeated commit of the session, whatever material it carries, changes nothing and is answered with the same receipt while the version is there and as an internal error once it is not; only a collection takes the version away. |
| DriveSessions.LimitsAlways | apps/drive/src/storage/store.ts:239-246 | Over every run whatever, crashes and collections included, no principal has more pending sessions than the cap, no account is past the daily quota, and owner and operation id name one session. |
| DriveAnswers.RegisterAnswers | apps/drive/src/storage/store.ts:209-306 | The exact answer of every registration: malformed by ticket, name, note or operation id, an agent without a non-negative integer echo, the session the operation already has, the cap of pending sessions; otherwise a fresh session that remembers the intent and the echo, on the artifact of that ticket and name, made if there was none. Refusals and repeats change nothing. |
| DriveOrigins.SessionOrigin | apps/drive/src/storage/store.ts:209-306 | Over every run whatever each session was opened by a well-formed registration of that run and still has its owner, operation, ticket, name, note, hint, digest, artifact and echoed token. |
| DriveSessions.RegisterIdempotent | apps/drive/src/storage/store.ts:226-237 | Repeating a registration that once succeeded, under the same subject and operation id and whatever happened in between, answers with the same session and artifact and changes nothing. |
| DriveSessions.RunKeepsSessions | apps/drive/src/storage/store.ts:322-337 | Sessions never go or change owner, operation or artifact, and none becomes pending again. |
| DriveAnswers.AbortAnswers | apps/drive/src/storage/store.ts:328-337 | The exact answer and effect of every abort: a committed session is left alone, any other is closed, its file dropped and its staged bytes taken off the day's account, not below zero. |
| DriveAnswers.ExpireAnswers | apps/drive/src/storage/gc.ts:35-41 | A session expires exactly if it is pending and was not touched for longer than the limit, and its staged bytes are released. |
| DriveAnswers.TouchRenews | apps/drive/src/storage/store.ts:322-326 | Touching a session records the staged bytes and renews its time, so that the sweeper leaves it alone for another limit. |
| DriveAnswers.DeleteAnswers | apps/drive/src/storage/store.ts:704-723 | A delete marker adds one row without bytes, with the next sequence number of its chain, clears the pointer and journals its line. |
| DriveAnswers.RestoreAnswers | apps/drive/src/storage/store.ts:725-737 | A restore is refused unless the version is one of the artifact and holds bytes; then it moves the pointer and journals its line. |
| DriveStore.Store.Register | apps/drive/src/storage/store.ts:209-306 | Registering takes exactly the machine's step: validation, fencing echo, idempotent replay by subject and operation id, pending cap, artifact found or made, session opened; the lookups it used are the unique rows of those keys. |
| DriveStore.Store.ChargeQuota | apps/drive/src/storage/store.ts:353-368 | Charges the day's account, or refuses and changes nothing, exactly when the sum passes the quota. |
| DriveStore.Store.ReleaseQuota | apps/drive/src/storage/store.ts:370-375 | Takes the amount off the day's account down to zero and touches no other account. |
| DriveStore.Store.TouchUpload | apps/drive/src/storage/store.ts:322-326 | Updates activity and staged bytes of the session, of no other, and makes none. |
| DriveStore.Store.EnforceFencing | apps/drive/src/storage/store.ts:166-188 | Refuses exactly stale tokens, leaving the table alone; otherwise raises the high-water to the maximum. |
| DriveStore.Store.PlaceFile | apps/drive/src/storage/cas.ts:84-95 | Moves the staged file to its address unless that is occupied or the rename fails, and says which. |
| DriveStore.Store.Commit | apps/drive/src/storage/store.ts:426-558 | The whole commit is the machine's step: guards in order, idempotent replay, transaction, rollback, compensation line, discarded temp. |
| DriveStore.Store.CommitPending | apps/drive/src/storage/store.ts:454-557 | The transaction body is the specified one: a stale fence touches nothing, a constraint failure leaves a compensation line only, anything else goes through to the settled outcome. |
| DriveStore.Store.CommitRow | apps/drive/src/storage/store.ts:464-525 | Steps (c) to (g): reference, row, pointer, session, line, in that order. |
| DriveStore.Store.InsertVersion | apps/drive/src/storage/store.ts:464-500 | The blob gains one reference or a row with one, the version row is added, the pointer moves; nothing else changes. |
| DriveStore.Store.SettleCommit | apps/drive/src/storage/store.ts:527-557 | Step (h) and what follows: on success the file is in place and the temp gone; on a failed rename or audit every table is back where the transaction began and a compensation line is added. |
| DriveStore.Store.RollBack | apps/drive/src/storage/store.ts:544-556 | A throw after the line puts every table back where the transaction began and appends the compensation line; file and temp stay as they are. |
| DriveStore.Store.AbortUpload | apps/drive/src/storage/store.ts:328-337 | Aborting is the machine's step, the second release for a session that was already closed included. |
| DriveStore.Store.DeleteMarker | apps/drive/src/storage/store.ts:704-723 | Adds the marker row, clears the pointer and journals the line, or refuses. |
| DriveStore.Store.Restore | apps/drive/src/storage/store.ts:725-739 | Points the artifact at one of its own byte-holding versions and journals the move, or refuses and changes nothing. |
| DriveStore.Store.Phase1Sweep | apps/drive/src/storage/gc.ts:23-65 | Expires exactly the pending sessions not touched for longer than the limit, releasing what they had charged, then drops exactly the staged files of aborted and expired ones, and counts both. |
| DriveStore.Store.ExpireOverdue | apps/drive/src/storage/gc.ts:35-41 | The expiry loop, whatever the order of the query, is the iterated expiry of exactly the overdue sessions. |
| DriveStore.Store.SweepStaging | apps/drive/src/storage/gc.ts:43-63 | The file loop removes exactly the staged files of aborted and expired sessions. |
| DriveStore.Store.GcPreview | apps/drive/src/storage/gc.ts:73-81 | Counts the artifacts with rows whose pointer is NULL and the blobs without references, and sums the sizes of the latter. |
| DriveStore.Store.GcPhase2 | apps/drive/src/storage/gc.ts:88-132 | Outside a backup window takes the machine's collection: rows go exactly if the pointer of their artifact is NULL, and the three numbers it reports are the artifacts with rows whose pointer was NULL, the blobs that went and their bytes. In a backup window nothing changes. |
| DriveStore.Store.PurgeMarkedChains | apps/drive/src/storage/gc.ts:96-110 | Chain by chain, each in its own transaction, down to the tables without the artifacts that had rows and a NULL pointer, refcounts exact, and their number. |
| DriveStore.Store.PurgeChain | apps/drive/src/storage/gc.ts:100-108 | One chain's rows and artifact go, and every refcount is still the number of rows naming the blob. |
| DriveStore.Store.DropVersion | apps/drive/src/storage/gc.ts:102-105 | Dropping one row takes exactly one reference off its blob: the clamp at zero never fires. |
| DriveStore.Store.PurgeEach | apps/drive/src/storage/gc.ts:115-126 | The blob loop removes exactly the given blobs from table and disk, journals one purge line for each, and sums their sizes. |
| DriveStore.Store.RebuildIndex | apps/drive/src/storage/maintenance.ts:35-53 | The nested loops over files and lines apply the whole journal and recount; a corrupt file or a foreign-key failure leaves the tables untouched. |
| DriveStore.Store.ApplyVersionEvent | apps/drive/src/storage/maintenance.ts:55-117 | One event applied in place is the specified event, with the insert-or-ignore rules and the guarded pointer. |
| DriveStore.Store.AdoptRows | apps/drive/src/storage/maintenance.ts:61-65 | Artifact and blob rows are inserted only where key and name are free. |
| DriveStore.Store.PromoteVersion | apps/drive/src/storage/maintenance.ts:87-98 | The pointer moves only to a higher sequence number; the fencing high-water only rises. |
| DriveUpload.ReadStream | apps/drive/src/http/server.ts:117-142 | Charges the body in flushes of at least eight megabytes and fails exactly with the first refusal: a chunk that takes the body past the cap, a flush that finds no room on the volume, or one that would pass the day's quota. Unrefused, the whole body is staged and all but less than a flush is charged. |
| DriveUpload.ModestStream | apps/drive/src/http/server.ts:117-142 | A stream within the cap, with room throughout and a quota that covers the body on each of its days, is not refused. |
| DriveUpload.BrokenIff | apps/drive/src/http/server.ts:117-172 | A request that reached its body is answered as broken off exactly if the stream broke off behind chunks none of which was refused. |
| DriveUpload.FinishUpload | apps/drive/src/http/server.ts:142-157 | The rest is charged and the staged bytes committed: the receipt is that of a row of the table with the hash and size of those bytes, and the session's result; a failure leaves tables and session as they were. |
| DriveUpload.FailUpload | apps/drive/src/http/server.ts:158-167 | The failure path releases what was charged, pushes no account past the quota, closes the session and drops the staged file. |
| DriveUpload.PutUpload | apps/drive/src/http/server.ts:101-172 | Answers exactly the guard that stops it before the body, the first refusal of a chunk, the broken stream, the refusal of the last charge, or what the commit of the whole body answers. A success has charged the size of the body and committed it under its own hash; a failure has released what it charged, on the day of the release, closed the session and left tables and quota within bounds. |
| DriveUpload.ReleaseExactIff | apps/drive/src/storage/store.ts:341-375 | A failed upload returns the principal's ledger to its start on every day if and only if every charge was made on the day of the release. |
| DriveUpload.SecondAbortReleases | apps/drive/src/storage/store.ts:328-337 | Aborting a closed session takes its staged bytes off the day's account again, and leaves the ledger alone exactly when there is nothing to take. |
| DrivePaging.ListByTicket | apps/drive/src/storage/store.ts:562-586 | One page is the specified one: up to a hundred rows looked at, filtered, and a token naming the last one looked at when more follow. |
| DrivePaging.FollowIsQuery | apps/drive/src/storage/store.ts:562-586 | Following the tokens gives the unpaged query, whole pages filtered out or not. |
| DrivePaging.PagedListingComplete | apps/drive/src/storage/store.ts:562-586 | Following the tokens from the start lists, once each and in id order, exactly the artifacts of the ticket that have a version row and, unless deleted ones are asked for, a current version. |
| DrivePaging.PageLooksAtHundred | apps/drive/src/storage/store.ts:562-586 | One page looks at the first hundred artifacts of the ticket behind the cursor, shows the listed ones among them, and ends in a token, the hundredth, exactly if there are more. |
| Drain.DrainMachine.SeedFromPersisted | platform/agent-runtime/src/agent_runtime/drain.py:125-132 | Seeds epoch and level only upwards; the gate stays shut. |
| Drain.DrainMachine.ApplyCommand | platform/agent-runtime/src/agent_runtime/drain.py:155-205 | One pushed command is the specified transition, and is logged exactly when it changed the posture. |
| Drain.DrainMachine.PollLevel | platform/agent-runtime/src/agent_runtime/drain.py:207-224 | One polled level is the specified transition. |
| Drain.DrainMachine.EnterOutage | platform/agent-runtime/src/agent_runtime/drain.py:228-237 | An outage shuts the gate until the next reconcile and moves neither epoch nor level. |
| Drain.DrainMachine.PreClaimGate | platform/agent-runtime/src/agent_runtime/drain.py:248-261 | The gate is open exactly when reconciled, in no outage and at RUN. |
| Drain.DeliverIsJoin | platform/agent-runtime/src/agent_runtime/drain.py:163-224 | One delivery moves (epoch, level) to the lexicographic maximum of both if and only if the idempotency guard does not swallow it; the posture never goes down. |
| Drain.Converges | platform/agent-runtime/src/agent_runtime/drain.py:155-224 | From any boot seed, if a key always names the same command, the posture after any pushes and polls is the lexicographic maximum of the seed and everything delivered. |
| Drain.ConvergesIff | platform/agent-runtime/src/agent_runtime/drain.py:165-173 | For any keys whatever, the posture is that maximum at every moment if and only if no delivery ever meets its own key at its own epoch below its own level. |
| Drain.SamePosture | platform/agent-runtime/src/agent_runtime/drain.py:155-224 | Two histories that carry the same (epoch, level) pairs, reordered, duplicated or moved between push and poll, end in the same posture. |
| Drain.ReusedKeyLosesKill | platform/agent-runtime/src/agent_runtime/drain.py:165-169 | Without the key discipline a kill is lost: the same key first drains, then kills, at one epoch. |
| Drain.GraceAlwaysBounded | platform/agent-runtime/src/agent_runtime/drain.py:181-193 | From a RUN seed with a monotone clock a draining posture has a deadline within the local budget of its last change whatever the command asked for, a kill's has passed at once, and RUN has none. |
| Drain.CommandAdopted | platform/agent-runtime/src/agent_runtime/drain.py:155-205 | A pushed command is adopted at a higher epoch, whatever its level, and at the same epoch if it raises the level under a key not seen there: level, issuer and the exact deadline (now for a kill, the earlier of its own and the local budget for a drain) are its own; any other changes neither. |
| Drain.PollAdopted | platform/agent-runtime/src/agent_runtime/drain.py:207-224 | A polled level is adopted at a higher epoch, and at the same epoch if it raises the level; a lift clears the deadline, a kill sets it to now, a drain keeps the one there is. |
| Drain.DrainRunsItsGrace | platform/agent-runtime/src/agent_runtime/drain.py:186-193 | From the moment a drain is adopted until anything else is, its grace runs out exactly at the earlier of the deadline it brought and the local budget. |
| Drain.ExpiryNeverRevoked | platform/agent-runtime/src/agent_runtime/drain.py:263-267 | Within one epoch a budget that has run out stays run out, whatever else is delivered. |
| Claims.AuthClient.OnMintFailure | platform/agent-runtime/src/agent_runtime/auth_client.py:134-138 | The breaker opens at the threshold and stays open; an open breaker puts the machine in outage. |
| Claims.AuthClient.NextBackoffSleep | platform/agent-runtime/src/agent_runtime/auth_client.py:127-132 | The sleep lies between zero and the cap and below the base doubled once per failure. |
| Claims.AuthClient.ReconcileKillEpoch | platform/agent-runtime/src/agent_runtime/auth_client.py:146-169 | Polls auth and adopts what a 200 answer says, ends the outage and opens the gate; any other answer, or none, changes nothing. |
| Claims.ReconcileAdopts | platform/agent-runtime/src/agent_runtime/auth_client.py:146-169 | What a 200 answer says: the level is KILL exactly if it names "kill" or "g2", DRAIN exactly if it names "drain" or "g1", in any letter case, and RUN otherwise; a missing level counts as "run", a missing epoch as 0. At a higher epoch it is adopted with its deadline, at the same epoch if it stops more, below not at all. |
| Claims.StaleForGood | platform/agent-runtime/src/agent_runtime/drain.py:125-132 | Once a pushed command was adopted no command of a lower epoch ever changes anything again, across restarts that seed from the log and whatever auth answers. |
| Claims.RestartStartsOver | platform/agent-runtime/src/agent_runtime/drain.py:125-132 | A restart keeps the log and nothing else: the machine is at RUN, unreconciled, at the highest epoch of the log, and the breaker is closed. |
| Claims.ReplySays | platform/agent-runtime/src/agent_runtime/auth_client.py:162-166 | The client reads exactly what a reply says: its epoch and the level it names in any letter case. |
| Claims.BoardClient.ClaimNext | platform/agent-runtime/src/agent_runtime/board_client.py:82-101 | The transport is asked exactly when the gate is open, and a lease comes back exactly when it was granted. |
| Claims.ReadMaxEpoch | platform/agent-runtime/src/agent_runtime/db.py:100-102 | The largest logged epoch, zero on an empty log. |
| Claims.BootSupervisor | platform/agent-runtime/src/agent_runtime/supervisor.py:46-52 | A boot seeds the machine from the surviving log at level RUN with the gate shut. |
| Claims.ReconciledAboveAll | platform/agent-runtime/src/agent_runtime/supervisor.py:68-73 | Against an auth that only moves up and issued every command, a reconciled machine is at or above every posture the runtime ever held, across any restarts. |
| Claims.EveryClaimSafe | platform/agent-runtime/src/agent_runtime/drain.py:248-261 | Over any interleaving of commands, reconciles, outages, recoveries and restarts, whenever the transport is asked the machine is at RUN, in no outage, reconciled since the last boot or outage, and, if it ever stopped at some epoch, now in a strictly higher one. |
| Claims.UnknownLevelLifts | platform/agent-runtime/src/agent_runtime/auth_client.py:159-170 | For every stopped posture and every reply: the reconcile opens the gate if and only if the reply is a 200 at a higher epoch whose level is not drain, g1, kill or g2; so a name the client does not know lifts a kill exactly as run does. |
| AgentLoop.Run | platform/agent-runtime/src/agent_runtime/loop.py:80-133 | The trace is the one the world calls for: the k-th look reads the k-th state of the drain machine and carries the work class of the last question, the k-th question gets the k-th decision, clock and Board answer in turn; each question is asked behind a look that found it running and a clock within budget, a wish is sent exactly if an agent may cause it. At most maxSteps questions; progress is what resets the clock and what stepSeq counts; a forbidden wish, and nothing else, gives a violation; a run that nothing else ended is escalated at the cap. |
| AgentLoop.OneTrace | platform/agent-runtime/src/agent_runtime/loop.py:80-133 | The world decides the run: any two ended traces that follow these rules are equal. |
| AgentLoop.Execute | platform/agent-runtime/src/agent_runtime/loop.py:109-129 | A transition sends one event and nothing else does; reading and writing notes, and nothing else, is progress. |
| AgentLoop.OnDrain | platform/agent-runtime/src/agent_runtime/loop.py:137-150 | Abandons SoD-adjacent work without a word, checkpoints benign work to blocked. |
| AgentLoop.OnTransition | platform/agent-runtime/src/agent_runtime/loop.py:110-125 | Exactly the transition asked for is sent, or blocked in place of a target outside the agent's set; the loop goes on only after a transition that ends nothing. |
| AgentLoop.AtMostOneEnding | platform/agent-runtime/src/agent_runtime/loop.py:120-125 | At most one of needs_review, awaiting_approval and blocked reaches the Board in a run. |
| Worker.WorkerSlot.PollOnce | platform/agent-runtime/src/agent_runtime/worker.py:65-93 | Nothing is asked of the driver and nothing sent unless the gate was open and a lease granted; the session's frame is dropped in that case only. |
| Worker.RosterCountsIdlePolls | platform/agent-runtime/src/agent_runtime/worker.py:65-93 | Over any polls with fresh sessions the registry holds exactly one frame for every poll that got no lease. |
| BoardRestore.Board.ReconcileOnBoot | apps/board/server/src/service/backup.js:60-88 | The transaction leaves exactly the specified tables, whatever order the queries return rows in, and one audit row with the floor and the three counts. |
| BoardRestore.Board.ExpireClaims | apps/board/server/src/service/backup.js:66-70 | The loop frees exactly the claim rows that name a ticket, one generation up, and requeues exactly their tickets. |
| BoardRestore.Board.RevokeGrants | apps/board/server/src/service/backup.js:72-76 | The loop revokes exactly the granted approvals and sends exactly their approved tickets back to await one. |
| BoardRestore.Board.EscalateHuddles | apps/board/server/src/service/backup.js:78-82 | The loop sends exactly the tickets of open huddles still in progress to review. |
| BoardRestore.LegalMovesOnly | apps/board/server/src/core/state-machine.js:18-34 | Each ticket's new status is given by one rule, every change is legal, and none gains an approval, an execution or an ending. |
| BoardRestore.TicketsAfterRestore | apps/board/server/src/service/backup.js:60-82 | Each ticket column by column: requeued with its lease cleared if a lease still names it, sent to review if it is in progress under no lease with an open huddle, back to awaiting approval if approved on a granted approval, and untouched otherwise. |
| BoardRestore.HuddlesAndCounts | apps/board/server/src/service/backup.js:65-85 | Exactly the open huddles of tickets in progress under no lease are escalated, and the audit row counts the stale lease rows, the granted approvals and those huddles. |
| BoardRestore.LocksAfterRestore | apps/board/server/src/service/backup.js:63-69 | No lock row appears or goes, no generation falls below its old value or the clock, no claim names a ticket any more, execution holds keep everything but the generation; a claim row is left exactly if one named no ticket, which none of a run does. |
| BoardRestore.NoClaimLeft | apps/board/server/src/service/backup.js:63-69 | Whatever acquires, releases and boots went before the snapshot, its reconciliation leaves no claim hold. |
| BoardRestore.ApprovalsAfterRestore | apps/board/server/src/service/backup.js:72-74 | No approval is granted afterwards, and only granted ones changed. |
| BoardRestore.ExecutionTokenSurvivesIff | apps/board/server/src/service/backup.js:63-64 | The token of an execution hold still matches its lock exactly when the generation had already reached the clock and no stale claim names the ticket. |
| BoardRestore.SecondRun | apps/board/server/src/service/backup.js:54-58 | A second run at a clock that did not advance changes no table; at a later one it only raises generations. |
| BoardRestore.RowsMove | apps/board/server/src/service/claim.js:61-78 | What an acquire and a release leave of the one lock row they name, lease deadline included, and a boot of every row. |
| BoardRestore.TokensAscend | apps/board/server/src/service/claim.js:61-76 | Over any acquires, releases and boots the tokens of one resource strictly ascend, from the least possible one up to the stored generation. |
| BoardRestore.OutrankedIff | apps/board/server/src/service/claim.js:61-76 | A token is below everything any continuation can mint exactly when it is below the least next token of the row. |
| BoardRestore.RestoreFence | apps/board/server/src/service/backup.js:60-64 | Every token minted before the crash, in the lost window too, is below every token minted after the restore exactly when it is below the restored row's least next token; for rows in the snapshot a clock that has reached the generation at the crash suffices. |
| BoardRestore.LostRowsStartOver | apps/board/server/src/service/claim.js:61-63 | A resource first locked in the lost window mints tokens again that were minted before. |
| BoardRestore.TokensNeverRepeat | apps/board/server/src/service/claim.js:61-76 | Without a restore no token of a resource is minted twice. |
| Chain.ChainLog.Append | apps/cmdb/backend/app/chainlog.py:43-65 | The new row links to the tip; the log is intact afterwards if and only if it was before. |
| Chain.ChainLog.Verify | apps/cmdb/backend/app/chainlog.py:67-86 | Intact exactly on a chain; otherwise the first bad row and the first check it fails. |
| Chain.AppendsVerify | apps/cmdb/backend/app/chainlog.py:43-86 | Every log built by appends verifies and holds exactly the edits in order. |
| Chain.ChainMeans | apps/cmdb/backend/app/chainlog.py:18-86 | In an intact log rows are numbered from zero and each carries the hash of the one before it, the first 64 zeros. |
| Chain.TamperEvident | apps/cmdb/backend/app/chainlog.py:21-86 | The hash not colliding, another log verifies with the same tip hash as an intact one if and only if it agrees on every covered field of every row; lengths need not be compared. |
| Chain.EditDetectedIff | apps/cmdb/backend/app/chainlog.py:67-86 | A row with an altered covered field, its hash recomputed or not, escapes the verifier only at the tip and only relinked, and then the tip hash has changed. |
| Chain.TruncationShowsAtTheTip | apps/cmdb/backend/app/chainlog.py:34-40 | Cutting rows off the end verifies, with a different tip hash. |
| Chain.UncoveredColumns | apps/cmdb/backend/app/chainlog.py:21-31 | Session, confirmation token and the size of a non-zero weakening flag can be rewritten without changing the verdict. |
| Ulid.EncodeDigits | apps/chat/backend/app/ids.py:26-31 | The divmod loop with its final reversal denotes the low digits of the value, for every integer and length. |
| Ulid.ChatUlid | apps/chat/backend/app/ids.py:34-39 | Ten characters of clock, then sixteen of randomness. |
| Ulid.GatewayUlid | apps/gateway/backend/app/ids.py:24-33 | The 26 low digits of the clock shifted over the random bits. |
| Ulid.LibraryUlid | apps/library/src/library/ids.py:27-50 | The 26 digits of the packed bytes; fails exactly for clocks that do not fit 64 unsigned bits. |
| Ulid.UlidSource.Mint | apps/mission-control/backend/app/ids.py:23-42 | The counter moves on within a millisecond and restarts with fresh noise otherwise, and the string is that of the new state. |
| Ulid.DigitsDenote | apps/chat/backend/app/ids.py:26-31 | n digits denote the value modulo the base to the n. |
| Ulid.NumberRoundTrip | apps/library/src/library/ids.py:27-34 | A digit string is the digits of the number it denotes. |
| Ulid.ChatIsGateway | apps/gateway/backend/app/ids.py:24-33 | The split and the joint encoding are the same string, for every clock and every 80-bit random part. |
| Ulid.LibraryAgreesIff | apps/library/src/library/ids.py:48-50 | Library's string is the others' exactly when the clock's low 50 bits are its low 48. |
| Ulid.EncodingOrders | apps/chat/backend/app/ids.py:26-31 | Fixed-length encodings compare, equality included, as the values modulo 32 to the length. |
| Ulid.AlphabetIsCrockford | apps/chat/backend/app/ids.py:23 | The 32 symbols are exactly the digits and the capital letters without I, L, O and U, in ascending order. |
| Ulid.UlidOrders | apps/mission-control/backend/app/ids.py:23-42 | Two 26-character ids compare as the numbers they denote. |
| Ulid.MonotonicIff | apps/mission-control/backend/app/ids.py:27-34 | The strings of a run are strictly increasing, each below every later one, if and only if every call advances. |
| Ulid.AdvancesBelowTheEnd | apps/mission-control/backend/app/ids.py:27-34 | Below 2^50 milliseconds a call advances exactly when the clock does not go back and the 80-bit counter does not wrap. |

## Left out

- Ticket state and ticket checks (`ticket_state`, `verified`/`verified_absent`), audit rows and the audit journal, `updated_at` of fences: no compared field depends on them.
- `created_by` of artifacts is replayed from the first committed version, not from the registration, and registration-only artifacts and delete-marker rows are not rebuilt; the rebuild theorems compare ticket, name and pointer of artifacts with committed bytes, and byte-holding rows.
- The MIME hint is not journaled; a replayed row has none, and rows are compared without it.
- Quarantine directory and its grace period: a purged file leaves the store at once.
- Day-named journal files: one ordered journal, except that `DriveStore.Store.RebuildIndex` does read a list of files.
- File system, fsync, statfs and SQLite: a transaction is one atomic step, UNIQUE and foreign-key failures are written out where a statement depends on them; the watermark is a boolean that each check is given.
- JSON: an arbitrary codec whose texts hold no newline, that reads back what it writes, and of whose texts no proper prefix parses.
- Identifiers minted by the store are a counter, so that two of them never collide; the cursor order of artifact ids is the order of that counter.
- JavaScript's coercion of a fencing echo that is a string: an echo is absent, a number or something else.
- The MIME sniffer and SHA-256 in the upload stream: the type is given, the hash is a parameter.
- Two requests interleaved on one upload session, and the concurrency ceiling of the PUT handler.
- Views over the tables (getArtifact, resolveContent, listTickets, health) and `drive verify`.
- The Board's claim, approval and ceremony engines: `BoardRestore` has their effect on lock rows, acquire and release; each clock reading within one reconciliation is the same.
- Heartbeats to the Board, fence re-checks, frames emitted on each progress step, provenance, custody and status views of the runtime; a level is only what the claim path reads of it.
- Letter case beyond ASCII in auth's level names: only A to Z are lowered.
- Floating point: deadlines and backoff are over reals, so the overflow of the doubling ceiling after 1024 failures is not seen.
- Threads: the append lock of the change log and the drain machine's lock make each call one step.
- The validators, prefixes and other identifiers of the ids modules.
- RebuildRefinesLive: holds for runs without commits rolled back behind their line and without collections of chains that held bytes; `DriveHealing.RebuildAfterFaults` (faults, boots and crashes, no collections) and `DriveRestarts.RebuildableIff` (collections, boots and crashes, no rolled-back commits) say exactly what happens in each. Runs with both a rolled-back commit and a collection that purges bytes have no such condition here, only what holds over every run (`DriveAlways`, `DriveTokens`, `DriveRecords`, `DriveSessions`, `DriveDisk`).
- PointersResolve: not for runs that boot after a commit was rolled back behind its line; `DriveHealing.BootDangles` says exactly which pointers and blobs such a boot leaves broken.
- A boot whose replay throws: `DriveMachine.Reboot` keeps the tables and the run goes on, whereas the process exits. `DriveRestarts.RebuildableIff` and `DriveTokens.TokensTracked` ask that the boot of a crash comes up.
- An audit that throws within a delete marker or a restore is not an operation of the runs; `DriveHealing.AuditThrows` adds one to the end of any safe run.
- A crash inside a collection, between its transactions, is not an operation of the runs; `DriveRestarts.HalfCollectionUndone` and `DriveRestarts.HalfReclaimedStuck` say what the boot makes of one at the end of a run.
- DiskSafety: not for a crash between a commit's line and its rename, which leaves a replayed row without a file; `DriveDisk.DiskSafeIff` shows that of the safe operations nothing else does.
- RestoreFence: for resources whose row is in the snapshot; for the others `BoardRestore.LostRowsStartOver` shows that it fails.
