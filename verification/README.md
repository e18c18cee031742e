# CloudSync, modelled and proved in Dafny

CloudSync keeps a directory tree in step with a multi-tenant server. This project models both sides and the
protocol between them, and proves what their correctness rests on.

**Server.** `Tables` has the file rows, pending uploads, usage rows and tenants, the content-addressed blobs and the
staging directories, and what each service call does to them. `Machine` takes the calls apart into their smallest
steps: one write transaction at a time, but chunk files written under a running reassembly, deletes split into a read
and a write transaction, directory changes after commits, rollbacks, and crashes between storing a blob and
committing. `Quota`, `Invariants`, `Safety`, `Overcommit`, `Integrity`, `Conservation`, `Isolation` and `Deletes`
prove claims about every run of that machine. `Service` has the calls as atomic operations, each shown to be a run of
the machine, and what chunked uploading adds up to; `Transfers` shows that overlapping chunk requests amount to atomic
ones. `ServerClass` is the service as a class that updates its fields; each method is proved equal to its atomic
operation, and keeps the invariants.

**Client.** `ClientModel` is the local tree (partial downloads are files in it) and the sync records, and pulling one
file. `PushModel` and `PullModel` are whole pushes and pulls; `Resume` is resuming an upload that may have been opened
for another content, and `Acceptance` when the server takes what it is offered. `SyncRuns` lets any number of clients,
users and other programs of a tenant act at once, on the row changes the server makes. `Status` compares the status
labels with what push and pull do. `SyncClientClass` is the client as a class, loops and all, over `Api`, in which any
request or reply may get lost and what is not lost is exact; its methods `RoundTrip` and
`InterruptedThenResumed` are push followed by pull, and a push that breaks off and is tried again, through the actual
code paths of both classes.

**Beside these,** `Migration` is the move to per-tenant keys and `WorkerPool` the browser's upload pool.

Guarantees one might expect, and false of the code, include these. Each has a concrete case and the exact condition
under which the code meets it:

- counting all reservations against the quota: `Overcommit.BoundIsBroken`, `Overcommit.RunKeepsBoundIff`;
- versions that never go back: `Deletes.DeleteUndoesPut`, `Deletes.VersionsAdvanceIff`, `Deletes.StaleIffPutSince`;
- local edits that survive a pull: `SyncRuns.EditDuringDownloadIsLost`, `SyncRuns.EditsSurvivePullIff`;
- records that tell the truth after a resumed upload: `Resume.EditAfterLastChunkIsLost`, `Resume.ResumedIsTrueIff`.

Assumptions. BLAKE3 and the namespace hash are fixed but arbitrary functions. Freedom from collisions is a hypothesis
of exactly the claims that need it, and there only as far as they need it. Upload ids are fresh. The limits do not
change during a run, and the quota fits 64 bits. Versions do not reach 64 bits. A blob is written as a whole or not at
all.

Where the documentation and the code differ, the code is followed: README.md promises monotonic versioning, which the
split delete breaks; `storage.rs` speaks of SHA-256 where the code uses BLAKE3; `finalize_upload` documents a quota
error that it never returns.

`dafny verify dfyconfig.toml` checks everything.

## Model

| member | source | states |
|---|---|---|
| `Safety.QuotaIsSafe` | crates/cloudsync-server/src/service.rs:186-223 | in every state reachable by any interleaving, crashes and rollbacks included, usage plus the sizes of the tenant's pending uploads whose blob is not stored is within the quota, in the committed tables and in those about to be committed; so usage alone is too |
| `Safety.ChargeIsExact` | crates/cloudsync-server/src/service.rs:299-309 | the two additions to usage that the code leaves unchecked never wrap: the step that readies a commit either stores nothing and charges nothing, or stores one new blob and charges exactly its length, staying within the quota |
| `Quota.CreateKeepsQuota` | crates/cloudsync-server/src/service.rs:125-147 | an accepted create keeps the quota invariant whether or not its commit follows, and its 64-bit addition is exact |
| `Quota.InitKeepsQuota` | crates/cloudsync-server/src/service.rs:159-171 | an accepted upload request keeps the quota invariant, also when its check was skipped because the blob is stored |
| `Quota.FinalizeKeepsQuota` | crates/cloudsync-server/src/service.rs:299-309 | finalizing turns a reservation into a charge of the same size, so no quota check is needed there and the 64-bit addition is exact |
| `Quota.MoreBlobs` | crates/cloudsync-server/src/service.rs:193-201 | storing further blobs, committed or orphaned, never breaks the quota invariant |
| `Overcommit.RunKeepsBoundIff` | crates/cloudsync-server/src/service.rs:193-217 | over every run from an empty server: usage plus every reservation stays within the quota in all its states, about-to-commit tables included, if and only if the run never accepts an upload request for a stored blob that would not pass the check skipped for it |
| `Overcommit.StepKeepsBoundIff` | crates/cloudsync-server/src/service.rs:125-331 | creates, chunks, finalizes, commits, rollbacks, crashes, deletes and all other steps keep that stronger bound; a step breaks it if and only if it is an upload request of that one kind |
| `Overcommit.UploadKeepsBoundIff` | crates/cloudsync-server/src/service.rs:159-171 | an accepted upload request keeps the bound if and only if it would pass the test that is skipped for stored blobs |
| `Overcommit.FinalizeKeepsBound` | crates/cloudsync-server/src/service.rs:299-326 | closing an upload gives back at least what its charge takes |
| `Overcommit.BoundIsBroken` | crates/cloudsync-server/src/service.rs:199-201 | the bound is false of the code: after a run of four steps from an empty server under a quota of 3, a tenant's usage plus reservations are 6 |
| `Invariants.StepKeeps` | crates/cloudsync-server/src/service.rs:125-331 | every step of every service call keeps the server invariant: quota, upload numbering, staged chunks behind each received index, usage rows, tenant limit, and what half-done requests rely on |
| `Invariants.RunKeeps` | crates/cloudsync-server/src/service.rs:125-331 | the server invariant holds after any sequence of steps |
| `Safety.AllReceived` | crates/cloudsync-server/src/db/db_upload.rs:122-126 | as many distinct in-range chunk numbers as the chunk count are all of them |
| `Safety.NothingMissing` | crates/cloudsync-server/src/service.rs:283-309 | a running finalize finds the owner's usage row and every chunk file, and its next copy succeeds, whatever is read of a chunk that is being rewritten |
| `Safety.CountingIsEnough` | crates/cloudsync-server/src/service.rs:283-290 | in every reachable state an upload whose received list is as long as its chunk count has every chunk staged, and a running finalize never fails on a missing chunk |
| `Safety.ServerIsBounded` | crates/cloudsync-server/src/app.rs:512-547 | at most the tenant limit of tenants exists in any reachable state, and all usages together are within limit times quota |
| `Tables.Admit` | crates/cloudsync-server/src/app.rs:512-547 | a caller is admitted if and only if it is registered afterwards, refused if and only if it is new and the limit is reached; nobody else is registered or removed and nothing else changes |
| `Safety.NeverRefusedLater` | crates/cloudsync-server/src/app.rs:517-523 | a tenant once admitted is admitted in every later state |
| `Safety.AdmittedForGood` | crates/cloudsync-server/src/app.rs:531-540 | no step of any kind removes a tenant |
| `Integrity.StorageIsSound` | crates/cloudsync-server/src/storage.rs:98-141 | with a collision-free hash, in every reachable state every blob hashes to its name, every row (deleted ones and those a half-done delete is about to write back) points to a stored blob of the row's size, and no later step changes a blob; chunks may be torn by rewrites while they are copied |
| `Integrity.RunKeepsStored` | crates/cloudsync-server/src/storage.rs:133-138 | without any assumption on the hash: blobs keep hashing to their names and rows keep pointing to stored blobs, while chunks are rewritten under a running reassembly |
| `Integrity.RunKeepsBlobs` | crates/cloudsync-server/src/service.rs:134-139 | no run changes a stored blob |
| `Integrity.CreateRowBackedIff` | crates/cloudsync-server/src/service.rs:134-142 | a create writes a row of the right size if and only if the blob already under that hash, if any, has the content's length |
| `Conservation.UsageMatchesStorage` | crates/cloudsync-server/src/service.rs:134-144 | in any run a tenant's usage is at most the bytes of its distinct blobs; without crashes and rollbacks, when no commit is pending and namespaces are distinct, it equals them |
| `Conservation.StepCharges` | crates/cloudsync-server/src/service.rs:299-326 | every step keeps usage at or below stored bytes, and every step but a crash or a rollback keeps them equal |
| `Conservation.StorageIsBounded` | crates/cloudsync-server/src/service.rs:134-139 | without crashes and rollbacks all stored bytes are within the tenant limit times the quota |
| `Conservation.CreateRetried` | crates/cloudsync-server/src/service.rs:134-144 | a create that crashed after writing its blob succeeds when repeated after any run in between, and that charges nothing: the blob is not charged twice, nor indeed once |
| `Conservation.FinalizeRetried` | crates/cloudsync-server/src/service.rs:299-326 | the same for a finalize that crashed after renaming its file into place, whenever its upload is still pending; the upload is closed and no usage row changes |
| `Conservation.RunKeepsComplete` | crates/cloudsync-server/src/db/db_upload.rs:122-126 | an upload that has all its chunks does not change any more, in any run, until it is gone |
| `Isolation.StepIsolated` | crates/cloudsync-server/src/db/db_file.rs:35-57 | a step by another tenant leaves a tenant's rows, pending uploads, usage, blobs and staged chunks exactly as they were |
| `Isolation.RunIsolated` | crates/cloudsync-server/src/db/db_upload.rs:35-67 | so does any run by other tenants, crashes included |
| `Isolation.RunKeepsIsolation` | crates/cloudsync-server/src/db/db_file.rs:105-141 | every row stays under the key of its own tenant and path, for NUL-free tenant ids |
| `Isolation.TenantsAreIsolated` | crates/cloudsync-server/src/db/db_file.rs:35-57 | from an empty server with NUL-free tenant ids: in every reachable state a tenant lists exactly its own live rows, and no later run by the others changes its rows, pending uploads, usage, blobs or staged chunks |
| `Isolation.ListedAreOwn` | crates/cloudsync-server/src/db/db_file.rs:40-53 | the key-prefix filter returns exactly the caller's own live rows |
| `Tables.NamespacesDisjoint` | crates/cloudsync-server/src/db/db_file.rs:42-44 | no key starts with the prefixes of two NUL-free tenants |
| `Tables.KeyInjective` | crates/cloudsync-server/src/db/db_file.rs:164-166 | different tenants or paths have different keys |
| `Deletes.StepAdvancesIff` | crates/cloudsync-server/src/db/db_file.rs:143-162 | row versions never go back, and no row vanishes, in a step, if and only if the step is not the write of a delete whose row was replaced since it was read |
| `Deletes.VersionsAdvanceIff` | crates/cloudsync-server/src/db/db_file.rs:124-161 | over every run from an empty server: between any two of its states no row vanishes and no version goes back, if and only if no delete in it writes back an out-of-date row |
| `Deletes.StaleIffPutSince` | crates/cloudsync-server/src/db/db_file.rs:143-162 | in a run without earlier such writes, a delete's write is out of date if and only if a commit has put a new version in the row since the delete read it; exactly otherwise it does what deleting in one transaction would |
| `Deletes.RowSince` | crates/cloudsync-server/src/db/db_file.rs:124-134 | over such a run a row's version grows if and only if some commit puts a new version in it, and else the row changes at most its deleted mark |
| `Deletes.DeleteUndoesPut` | crates/cloudsync-server/src/db/db_file.rs:144-161 | a create between the two transactions is undone: the row returns to its old version and content |
| `Service.CreateFileRuns` | crates/cloudsync-server/src/service.rs:125-147 | the atomic create is a run of the step machine |
| `Service.CreateUploadRuns` | crates/cloudsync-server/src/service.rs:159-171 | the atomic upload request is a run of the step machine |
| `Service.ReplaceChunkRuns` | crates/cloudsync-server/src/service.rs:230-259 | the atomic chunk write is a run of the step machine |
| `Service.FinalizeRuns` | crates/cloudsync-server/src/service.rs:270-331 | the atomic finalize is a run of the step machine: begin, one copy for each chunk, persist, commit, clean up, or the error the run meets |
| `Service.DeleteFileRuns` | crates/cloudsync-server/src/db/db_file.rs:143-162 | the atomic delete is a run of the step machine |
| `Chunks.SplitThenJoin` | crates/cloudsync-server/src/storage.rs:117-131 | joining the 4 MiB slices of a file, with any number of extra empty chunks, gives the file back |
| `Chunks.ChunkCountCovers` | crates/cloudsync-client/src/sync/push.rs:92-93 | the rounded-up chunk count is the least number of slices that reaches the end of the file |
| `Service.Sending` | crates/cloudsync-server/src/db/db_upload.rs:104-137 | after sending chunks in any order with any repetitions, the upload lists exactly the old and the new indices, without duplicates, and all hold their slices |
| `Service.ResumeThenFinalize` | crates/cloudsync-server/src/service.rs:270-331 | from any received set holding the right slices, sending the missing ones in any order makes finalize pass its count, size and hash checks and store exactly the file |
| `Service.ChunkedEqualsDirect` | crates/cloudsync-server/src/service.rs:159-171 | a chunked upload and a direct create are accepted alike, return the same row and leave the same server, but for the upload number used |
| `Transfers.OverlapIsSequence` | crates/cloudsync-server/src/service.rs:230-259 | however the three steps of any number of chunk requests for one upload interleave, once all are answered the server is as if they had come one after another in the order in which their chunks were added |
| `ServerClass.Server.constructor` | crates/cloudsync-server/src/db/db_file.rs:10-23 | a new database, with nothing stored, satisfies the invariants |
| `ServerClass.AnyOrderSum` | crates/cloudsync-server/src/service.rs:205-211 | adding the reservations in whatever order they are listed gives the sum over the table |
| `ServerClass.Server.ListUploads` | crates/cloudsync-server/src/db/db_upload.rs:52-67 | lists each pending upload of the tenant exactly once and no other's |
| `ServerClass.CheckedSum` | crates/cloudsync-server/src/service.rs:207-211 | the fold of checked additions over a list fails if and only if the whole sum does not fit 64 bits, else gives it |
| `ServerClass.Server.SumReservations` | crates/cloudsync-server/src/service.rs:205-211 | yields the sum of all the tenant's reservations, and fails exactly when that does not fit 64 bits |
| `ServerClass.Server.CheckQuota` | crates/cloudsync-server/src/service.rs:186-223 | accepts if and only if the blob is stored or usage plus size plus all reservations, as unbounded integers, is within the quota; reports whether the blob is stored |
| `ServerClass.Server.CreateFile` | crates/cloudsync-server/src/service.rs:125-147 | is the atomic create, keeps the invariants, refuses exactly for lack of quota and then changes nothing; the row it returns is the caller's, live, and can be downloaded |
| `ServerClass.Server.PutFile` | crates/cloudsync-server/src/db/db_file.rs:105-141 | writes version 1 or the next version, never a deleted row |
| `ServerClass.Server.CreateUpload` | crates/cloudsync-server/src/service.rs:159-171 | is the atomic upload request, keeps the invariants, refuses exactly for lack of quota and then changes nothing |
| `ServerClass.Server.ReplaceChunk` | crates/cloudsync-server/src/service.rs:230-259 | is the atomic chunk write: not found exactly for an upload that is not the caller's, invalid exactly for an index out of range, nothing changed on any error, and on success the chunk is staged with this body and listed |
| `ServerClass.Server.GetUpload` | crates/cloudsync-server/src/db/db_upload.rs:35-50 | finds the caller's own uploads only |
| `ServerClass.Server.Reassemble` | crates/cloudsync-server/src/storage.rs:98-141 | joins the chunks in order; fails exactly on a missing chunk, a wrong size or a wrong hash, in that order |
| `ServerClass.Server.FinalizeUpload` | crates/cloudsync-server/src/service.rs:270-331 | is the atomic finalize, keeps the invariants, changes nothing on any error, and on success the upload and its staging directory are gone and its blob is stored |
| `ServerClass.Server.DeleteFile` | crates/cloudsync-server/src/service.rs:115-119 | marks the row deleted and touches nothing else |
| `ServerClass.Server.ListFiles` | crates/cloudsync-server/src/db/db_file.rs:35-57 | lists each live row of the tenant exactly once |
| `ServerClass.Server.AdmitTenant` | crates/cloudsync-server/src/app.rs:512-547 | admits known tenants, and new ones below the limit, changing the tenant table only |
| `Api.ValidateRequest` | crates/cloudsync-server/src/app.rs:250-295 | accepts exactly the requests with 64 lower-case hexadecimal digits, a size within the limit and 1 to 10,000 chunks |
| `Api.SyncApi.InitUpload` | crates/cloudsync-client/src/sync/core.rs:30 | a success is a validated, accepted request; with no message lost the answer is exactly the server's; a failure changed nothing or was carried out with its reply lost |
| `Api.SyncApi.SendChunk` | crates/cloudsync-client/src/sync/core.rs:31-36 | the same for a chunk, whose number travels as 32 bits |
| `Api.SyncApi.FinalizeUpload` | crates/cloudsync-client/src/sync/core.rs:38 | the same for a finalize |
| `Api.SyncApi.CreateFile` | crates/cloudsync-client/src/sync/core.rs:26-27 | the same for a create |
| `Api.SyncApi.GetFile` | crates/cloudsync-client/src/sync/core.rs:28 | a download that is not cut short is what the server serves from the asked-for byte on, or its refusal |
| `ClientModel.ConflictPathIsNew` | crates/cloudsync-client/src/sync/pull.rs:47-61 | the conflict copy and its partial file never take the file's own name |
| `ClientModel.SplitsIff` | crates/cloudsync-client/src/sync/pull.rs:47-52 | directory, stem and extension are the one split at the last slash, and at the last dot of the name unless that is its first character |
| `ClientModel.ConflictPathSplits` | crates/cloudsync-client/src/sync/pull.rs:53-57 | the conflict copy's name is directory, stem, marker, time and extension in this order |
| `ClientModel.PullIsVerified` | crates/cloudsync-client/src/sync/pull.rs:28-124 | whatever the partial file held and whatever was sent: the listed file is unchanged or has the listed hash, the record is unchanged or is the listed hash and version with the file agreeing, a conflict copy has the listed hash and leaves the record alone, and only the target, its partial file and the copy are written |
| `ClientModel.PlanIsVerified` | crates/cloudsync-client/src/sync/pull.rs:43-123 | the same when the plan was made on an earlier state of the tree: the target is replaced, by verified bytes, exactly if the plan is to install and the download succeeds |
| `ClientModel.FetchCompletesIff` | crates/cloudsync-client/src/sync/pull.rs:95-113 | an unbroken download installs exactly the content if and only if the partial file was empty or a strict prefix of it |
| `ClientModel.FetchCompletes` | crates/cloudsync-client/src/sync/pull.rs:95-113 | that it completes from nothing or from a strict prefix needs nothing of the hash |
| `ClientModel.StartedOver` | crates/cloudsync-client/src/sync/pull.rs:139-143 | an answer that is not a continuation replaces any leftover |
| `ClientModel.FailedFetchLeaves` | crates/cloudsync-client/src/sync/pull.rs:104-112 | a fetch that fails leaves all as it was after a refusal, the bytes that came behind those they continue after a broken stream, no part file after a wrong hash, and never changes anything else |
| `ClientModel.LongLeftoverBlocks` | crates/cloudsync-client/src/sync/pull.rs:132-136 | a leftover partial file as long as the content or longer blocks every retry and changes nothing |
| `ClientModel.EditOverwrittenIff` | crates/cloudsync-client/src/sync/pull.rs:37-90 | pull installs over an edited file if and only if it has no record, or a record ahead of the server |
| `ClientModel.PlanIff` | crates/cloudsync-client/src/sync/pull.rs:35-90 | over all cases of record and file: nothing is done exactly if the record is of the listed version, a copy is kept exactly if the record is behind and the file present and edited, and else the file is installed, in particular when it is missing locally |
| `SyncRuns.StepKeeps` | crates/cloudsync-client/src/sync/push.rs:54-224 | every step of any client, user or foreign program keeps: row versions count the puts, records and half-done pulls name puts that happened; a push reads, puts and records in separate steps, a pull decides and finishes in separate steps |
| `SyncRuns.RunKeeps` | crates/cloudsync-client/src/sync/pull.rs:10-124 | the same for whole runs of any number of clients |
| `SyncRuns.VersionsNameContents` | crates/cloudsync-server/src/db/db_file.rs:124-134 | over whole runs a row's version is the number of puts at its path, deletes neither raising nor resetting it, and two records with the same path and version carry the same hash |
| `SyncRuns.RecordsBehindServer` | crates/cloudsync-client/src/sync/push.rs:73-80 | over whole runs a record's version is at most the row's, and equal versions mean equal hashes |
| `SyncRuns.EditsSurvivePullIff` | crates/cloudsync-client/src/sync/pull.rs:37-113 | in every reachable state, whatever is received: finishing a pull keeps every tracked file that was edited when the pull decided about it, and changes a tracked, edited file if and only if it is the one pulled, the edit came after the decision, and the download succeeds |
| `SyncRuns.EditDuringDownloadIsLost` | crates/cloudsync-client/src/sync/pull.rs:101-113 | that happens: a run from nothing in which a tracked file is edited during its download and the edit is gone after the rename |
| `PushModel.PushConverges` | crates/cloudsync-client/src/sync/push.rs:14-52 | a push with no failed call, from records the server bears out, leaves every scanned path live with the local hash and every recorded but missing path deleted and forgotten |
| `PushModel.PushIsIdempotent` | crates/cloudsync-client/src/sync/push.rs:67-72 | pushing again without a local change is the identity |
| `PushModel.FailedUploadRetriedIff` | crates/cloudsync-client/src/sync/push.rs:101-105 | after an upload fails past its first record write, the next push tries the file again if and only if it had a record before |
| `PushModel.MarkOneMore` | crates/cloudsync-client/src/sync/push.rs:42-50 | deleting missing paths one by one marks exactly their rows |
| `PullModel.PushedIsUpToDate` | crates/cloudsync-client/src/sync/push.rs:73-80 | a pull skips what the same client has just pushed |
| `Acceptance.NextFitsIff` | crates/cloudsync-server/src/service.rs:186-223 | part-way through a push the next content is let in if and only if it and all so far, as far as new to the server, fit what usage and reservations left of the quota at the start |
| `Acceptance.TakesNext` | crates/cloudsync-server/src/service.rs:125-147 | an accepted file adds its size to usage if it was new, and leaves reservations as they were, whatever its size and way of upload |
| `Acceptance.TracksNext` | crates/cloudsync-client/src/sync/push.rs:21-39 | one more scanned path keeps: nothing has failed if and only if all that needed uploading so far is valid and fits |
| `Acceptance.AskedThenFinished` | crates/cloudsync-client/src/sync/push.rs:122-146 | an upload just opened for a valid file that fits can be finished, which leaves the server as a direct create would |
| `Acceptance.RefusalsDoNotSpread` | crates/cloudsync-client/src/sync/push.rs:21-52 | whatever is refused in a push with nothing lost: every path that needs uploading and that the server takes when its turn comes ends live with the local hash and recorded at the row's version, and every recorded path missing locally ends deleted and forgotten |
| `Acceptance.SweepTouchesNoOther` | crates/cloudsync-client/src/sync/push.rs:21-52 | no rows and records change but those of scanned and of missing paths |
| `Acceptance.SweepKeepsGood` | crates/cloudsync-client/src/sync/push.rs:110-119 | taking one path leaves the pending uploads of the others resumable |
| `Resume.ResumedTables` | crates/cloudsync-client/src/sync/push.rs:207-214 | a resumed upload leaves the row its opening request named, whatever file is sent |
| `Resume.ResumingSucceeds` | crates/cloudsync-client/src/sync/push.rs:173-207 | for a pending upload opened for this file, whatever chunks it has already, sending what the server lacks makes finalize succeed |
| `Resume.InterruptedKeepsResumable` | crates/cloudsync-client/src/sync/push.rs:178-207 | whatever chunks arrive, and wherever a push breaks off, an upload that is still pending stays resumable |
| `Resume.InterruptedCanResume` | crates/cloudsync-client/src/sync/push.rs:110-170 | the record that a broken-off push leaves names an upload that, if still pending, can be resumed with the file, whether it was the recorded one or a new one |
| `Resume.ResumedIsTrueIff` | crates/cloudsync-client/src/sync/push.rs:110-119 | after a resumed upload the server holds the local content if and only if the upload was opened for the local hash; either way the next push skips the file |
| `Resume.EditAfterLastChunkIsLost` | crates/cloudsync-client/src/sync/push.rs:178-189 | an edit made once all chunks are received is not sent: the old content goes live and the record claims the new hash |
| `SyncClientClass.SyncClient.SendAll` | crates/cloudsync-client/src/sync/push.rs:192-198 | every chunk of a batch is sent once, in some order, failures or not, and some of them have arrived, all if none failed; with nothing lost none fails while the upload is open (that overlapping requests amount to some order is `Transfers.OverlapIsSequence`) |
| `SyncClientClass.SyncClient.Flush` | crates/cloudsync-client/src/sync/push.rs:193-198 | every chunk of the batch is sent once even if one fails, and the batch succeeds only if all do |
| `SyncClientClass.SyncClient.SendMissing` | crates/cloudsync-client/src/sync/push.rs:173-205 | for every file, received list, chunk count and batch size, 0 included: the calls made are of missing indices only, none twice, and if it succeeds of all of them, each with its own slice; all batches but the last have the batch size; on failure exactly some of them have arrived; with nothing lost it succeeds while the upload is open |
| `SyncClientClass.SyncClient.SendAndFinalize` | crates/cloudsync-client/src/sync/push.rs:173-207 | success is the missing chunks followed by the server's finalize; with nothing lost, an upload opened for this file and holding right slices is always finished, and the server then stores exactly the file |
| `SyncClientClass.SyncClient.ResumeUpload` | crates/cloudsync-client/src/sync/push.rs:148-217 | the same, with the record carrying the row's new version on success; on failure it names this upload, and an earlier record keeps its hash and version |
| `SyncClientClass.SyncClient.PushSingleFile` | crates/cloudsync-client/src/sync/push.rs:54-83 | success is the specified push of one file; with nothing lost it succeeds if and only if the quota allows the file; a skipped file makes no call |
| `SyncClientClass.SyncClient.PushSingleFileChunked` | crates/cloudsync-client/src/sync/push.rs:85-146 | success is the same specified push, when a resumed upload was opened for the file as it is; with nothing lost, a pending upload that fits goes through, and without one the push succeeds if and only if the request is valid and the quota allows the file, leaving the server as a direct create would; however it is interrupted, what it leaves can be resumed; no other record changes |
| `SyncClientClass.SyncClient.OpenUpload` | crates/cloudsync-client/src/sync/push.rs:106-131 | settles on an upload the caller owns, with the server's own received list and chunk count; with nothing lost it is the recorded one if the server still has it, and else what asking for a new one gives |
| `SyncClientClass.SyncClient.DeleteFile` | crates/cloudsync-client/src/sync/push.rs:219-224 | the record goes only after the server's row is marked |
| `SyncClientClass.SyncClient.PushMissingFiles` | crates/cloudsync-client/src/sync/push.rs:41-50 | with nothing lost deletes and forgets exactly the recorded paths that are missing locally, whatever failed before |
| `SyncClientClass.SyncClient.Push` | crates/cloudsync-client/src/sync/push.rs:14-52 | with nothing lost, server, client and outcome are those of sweeping the scanned paths one by one, refusals included, and then deleting the missing ones; without a failed call the outcome is the specified one; with nothing to resume, no call fails if and only if all that needs uploading is valid and what of it is new to the server fits the quota; a settled client makes no call at all |
| `SyncClientClass.SyncClient.DownloadToFile` | crates/cloudsync-client/src/sync/pull.rs:126-150 | appends to or replaces the partial file according to the answer |
| `SyncClientClass.SyncClient.FetchVerified` | crates/cloudsync-client/src/sync/pull.rs:104-113 | downloads, compares with the listed hash, and renames or removes; with nothing lost, a part file that is empty or a strict prefix of what the server has stored is completed to exactly that |
| `SyncClientClass.SyncClient.PullSingleFile` | crates/cloudsync-client/src/sync/pull.rs:28-124 | is the specified pull of one file, success and failure; with nothing lost and a good start: nothing changes if the record is of the listed version, the copy gets the stored content if both sides changed, and else the file gets it and the record the listed hash and version, also when the file is missing locally |
| `SyncClientClass.SyncClient.Pull` | crates/cloudsync-client/src/sync/pull.rs:10-26 | with nothing lost, is the specified pull of every listed file, whatever the server answers |
| `SyncClientClass.RoundTrip` | crates/cloudsync-client/src/sync/pull.rs:10-150 | pushing any tree to a tenant without rows and pulling into an empty directory, with no message lost, gives the same tree path for path and byte for byte if and only if its files pass validation and what of them is new to the server fits the quota, whatever the sizes, batch size and order |
| `SyncClientClass.InterruptedThenResumed` | crates/cloudsync-client/src/sync/push.rs:85-217 | a chunked push of a recorded file that breaks off in any way and is tried again with nothing lost finishes the very upload its record names, opens no other, and leaves the file live with its bytes stored |
| `PullModel.FirstPushMirrors` | crates/cloudsync-client/src/sync/push.rs:14-52 | a first push makes the tenant's live rows exactly the tree |
| `PullModel.PullRebuildsTree` | crates/cloudsync-client/src/sync/pull.rs:10-150 | pulling into an empty directory rebuilds the tree that the live rows mirror |
| `PullModel.PushThenPull` | crates/cloudsync-client/src/sync/pull.rs:10-150 | push then pull is the identity on trees without part-file names |
| `PullModel.PullConverges` | crates/cloudsync-client/src/sync/pull.rs:10-124 | a whole pull with nothing lost, into any tree: each listed file ends with the stored content and recorded at the listed version, unless it was up to date or changed on both sides, and then it stays as it was |
| `PullModel.ServedRange` | crates/cloudsync-server/src/app.rs:206-231 | a download from some byte on delivers exactly the rest of the content, or is refused at or past its end |
| `PullModel.ServedThenFetched` | crates/cloudsync-client/src/sync/pull.rs:126-150 | a download continued from a good start completes to what the server has stored |
| `PullModel.RowsAreServed` | crates/cloudsync-server/src/app.rs:206-231 | any row, deleted or not, is served with content of its own hash |
| `PullModel.UnlistedStaysAway` | crates/cloudsync-client/src/sync/pull.rs:10-26 | a pull into an empty directory creates no path that is neither listed nor the partial file of one that is |
| `Status.ConflictIsPullConflict` | crates/cloudsync-client/src/sync/status.rs:33-42 | a scanned and listed file is labelled a conflict exactly when pull takes the conflict branch |
| `Status.LocalLabelIff` | crates/cloudsync-client/src/sync/status.rs:25-49 | what each label of a scanned file says: new exactly without a record, updated or in conflict exactly if it differs from its record, updated on the server or up to date exactly if it does not and the listed hash does or does not differ from the file's |
| `Status.ServerLabelIff` | crates/cloudsync-client/src/sync/status.rs:52-65 | a listed file is labelled new exactly without a record, and deleted exactly if recorded and missing locally |
| `Status.UploadedIsLabelled` | crates/cloudsync-client/src/sync/status.rs:25-50 | push uploads exactly the files labelled new, updated locally or in conflict |
| `Status.DeletedIsLabelled` | crates/cloudsync-client/src/sync/status.rs:60-65 | push deletes exactly the listed files labelled deleted and the recorded, missing files that are no longer listed |
| `Status.NewServerIsInstalled` | crates/cloudsync-client/src/sync/status.rs:61-62 | every file labelled new on the server is installed by pull |
| `Status.UpdateServerIsInstalled` | crates/cloudsync-client/src/sync/status.rs:43-48 | so is every file labelled updated on the server; of those labelled up to date pull installs exactly the ones whose version moved |
| `Status.RunsFit` | crates/cloudsync-client/src/sync/pull.rs:37-41 | the agreement of versions and hashes this needs holds in every reachable state |
| `Migration.MeaningPreserved` | crates/cloudsync-server/src/migrations/m001_tenant_namespace.rs:8-52 | when each old key is its row's path and no new key is taken: every row of a key without a NUL is found under the default tenant's key for it with only the owner changed, every other row is untouched, no row comes from elsewhere, and no key without a NUL is left |
| `Migration.LoopMigrates` | crates/cloudsync-server/src/migrations/m001_tenant_namespace.rs:36-47 | the insert-and-remove loop, rows read in any order, does exactly that |
| `Migration.MigratingTwice` | crates/cloudsync-server/src/migrations/m001_tenant_namespace.rs:13-16 | migrating what is already migrated changes nothing |
| `Migration.RowCountKeptIff` | crates/cloudsync-server/src/migrations/m001_tenant_namespace.rs:41-45 | the number of rows is kept if and only if no new key was taken |
| `Migration.KeyLeftBehindIff` | crates/cloudsync-server/src/migrations/m001_tenant_namespace.rs:45 | an old key survives if and only if it is no old row's path: rows are removed by path, not by key |
| `Migration.MigrationDb.Inc` | crates/cloudsync-server/src/migrations/meta.rs:25-44 | raises the version by one, from 0 when there is none |
| `Migration.MigrationDb.ReadOldRows` | crates/cloudsync-server/src/migrations/m001_tenant_namespace.rs:18-32 | reads the rows of exactly the keys without a NUL, each once |
| `Migration.MigrationDb.Migrate` | crates/cloudsync-server/src/migrations/m001_tenant_namespace.rs:8-52 | at version 0 moves every row of a key without a NUL as above; at version 1 or above changes no row; stopped before the increment it stays at version 0 |
| `Migration.MigrationDb.MigrateUntilDone` | crates/cloudsync-server/src/migrations/m001_tenant_namespace.rs:48-51 | however often it is stopped between commit and increment, completing it leaves what one run would have |
| `WorkerPool.RunOk` | crates/cloudsync-server/static/upload.js:196-211 | under every interleaving and failure pattern each claimed index is in exactly one place: in flight, completed or failed |
| `WorkerPool.PoolIsBounded` | crates/cloudsync-server/static/upload.js:212-212 | at most min(concurrency, total) transfers are under way, of different indices none of which settled before |
| `WorkerPool.PoolOutcome` | crates/cloudsync-server/static/upload.js:213-215 | a pool that resolves has completed every index exactly once if and only if it had a worker or nothing to do; a finished pool with a failure rejects with the first recorded error, one without resolves, and none is settled before all workers are done |
| `WorkerPool.FailedWorkerStops` | crates/cloudsync-server/static/upload.js:205-208 | a worker whose transfer failed takes no more in any later turn, its error is recorded last, and the others are not affected |
| `WorkerPool.FirstErrorStays` | crates/cloudsync-server/static/upload.js:205-208 | the first error recorded stays the first |
| `WorkerPool.BrowserSlicesAgree` | crates/cloudsync-server/static/upload.js:156-159 | the browser's slices are the client's, also for an empty file's single chunk |
| `WorkerPool.BrowserUploadIsCreate` | crates/cloudsync-server/static/upload.js:121-171 | a browser upload whose pool resolves is a direct create of the file, however its transfers overlap in the browser and step by step on the server |

## Left out

- HTTP routing, multipart bodies, TLS, logging and progress bars. A call is a server operation that may fail, before or after it was carried out.
- Byte ranges beyond "from this byte on", the only one the client asks for.
- Sign-in, tokens and cookies. The caller's tenant and user arrive as given.
- The hash functions themselves, JSON and redb. Tables are maps; one write transaction is open at a time.
- The directory level named by a hash's first two characters. A blob's place is its namespace and its name.
- Timestamps, except as the part of a conflict copy's name that the clock decides, which is a parameter.
- Random upload ids. They are numbered instead, so a new one is always fresh.
- Overflow of a row's version and of the byte counter in `reassemble_chunks`, which would need 2^64 puts or bytes.
- Directory scanning, ignore files, and creating parent directories. The scanned paths are a parameter; a tree is a map from paths to contents.
- Disk errors and torn writes, apart from crashes, missing staging directories and rollbacks.
- Temporary files of a failed reassembly; they never become blobs.
- Printing. `Status` returns labels.
- The browser beyond its upload pool and slicing. The pool is a state machine over its workers' turns, since they interleave; it allows more interleavings than a browser does.
- SyncRuns.StepKeeps: deletes are one step there. Split deletes move versions back; `Deletes` has exactly when.
- SyncRuns.EditsSurvivePullIff: excludes files that happen to have the name of another file's conflict copy or partial download, and, for the if-and-only-if, edits that happen to be what the server has.
- SyncClientClass.SyncClient.PullSingleFile: the user does not touch the tree during the call; `SyncRuns` has what happens if so.
- SyncClientClass.SyncClient.Push: its outcomes for resumed uploads suppose they were opened for the files as they are, and its if-and-only-if that there are none; `Resume` has the other case.
- PullModel.PullConverges: excludes listed files that have the name of another's part file or conflict copy.
- Deletes.StaleIffPutSince: supposes that no earlier write of a delete was stale, since one that was can bring an old version back and make a later read look current.
- Migration.MigrationDb.Migrate: the version row is updated by a read and a write transaction with no other writer, as at start-up.
- Progress after a leftover partial file that is too long, and after a failed first chunked upload: the code does not make any, as `ClientModel.LongLeftoverBlocks` and `PushModel.FailedUploadRetriedIff` show.
