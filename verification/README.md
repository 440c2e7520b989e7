# GetLatestVersion of DXVcs2Git, modelled in Dafny

DXVcs2Git mirrors a DXVCS project into a Git working tree. To fill the
local tree it uses `DXVcsRepository.GetLatestVersion`. That method first
cleans the local project folder except `.git`. It then reads the project
from the server block by block. Each block is a list of records. A
project marker opens a remote project and its local folder, and its name
is appended to `pathList`. A file record names a file of any project
opened so far: its back-reference indexes `pathList`, which keeps the
markers of earlier blocks too.

For every file record the method compares the local copy with the server's
record: it checks whether the copy exists, is locked, is read-only, and
whether its hash matches. From that it decides to fetch the file, leave it,
or check it out. Exceptions of the fetch-and-write stage and of the
prefetch of the next block are queued and thrown at the next checkpoint;
those of the classification and the checkout propagate at once. After
classifying a block it fetches the block's data, decompresses
it and writes the files. Finally it checks out the files it marked and makes
them writable.

The project models that run and proves properties of it:

- `wrappers.dfy`: `Option` and `Result`.
- `paths.dfy`: path strings.
  - Windows-style comparison (case-folded, `/` and `\` alike).
  - `RemoveFinishSlash`, `Combine`, `GetDirectory`, `GetFile`.
  - Splitting on `/`.
- `vcs_types.dfy`: the records of the server protocol, the local file, the
  per-record slots and the exceptions.
- `vcs_helpers.dfy`: the small helpers.
  - `SelectFileTime`, `EqualsCheckOutParams`, `GetLocalFileModified`.
  - `PrepareProjectHistoryRequest`.
  - `CreateAccessDict` and its specification.
  - The exception queue with `ProcessException`.
  - `AddFile` and `AddProject`.
- `file_system.dfy`: the disk as a `FileSystem` class (files and
  directories keyed by canonical path), and `CleanUpDirectory`.
- `reconcile.dfy`: the decisions of the record loop, as functions.
  - The local-path resolver for project markers.
  - The per-file classifier with the `makeWritable` override of its
    `finally` block.
  - Their fold over a block.
- `pipeline.dfy`: the stages that follow classification.
  - The write stage of `QueueAll`.
  - The checkout stage.
  - What one file record ends as on disk.
- `run.dfy`: the whole run as a function of the server's replies.
  - The block loop with its prefetch of the next block.
  - The checkpoints that hand queued exceptions over.
- `repository.dfy`: the imperative methods. Each is proved against the
  functions above. `GetLatestVersion` runs over a `FileSystem` object, a
  fresh slot array per block and the exception queue. Its postcondition is
  the run function.
- `project_extractor.dfy`: `ProjectExtractor`, which hands commits one by
  one to an extraction handler.

Points where the model follows the code closely:

- `BlockInfo.Last` is true while more blocks follow. The loop stops as
  soon as it is false.
- With `Replace`, a writable file is always fetched, and its `restData`
  slot is the hash comparison.
- The `CheckOut` action applies no ownership test before marking a file.
- The `makeWritable` override in the `finally` block also runs after every
  `continue` of the classifier: after a locked file, a read-only file, or
  an unchanged writable one.
- A failed `QueueBlock` keeps the previous block in `blockInfo` and queues
  the exception. The exception surfaces at the next checkpoint.
- `QueueBlock` and `QueueAll` are called synchronously in this code. The
  events only order the calls, so the model is sequential.

## Model

| member | source | states |
|---|---|---|
| `Paths.RemoveFinishSlash` | DXVcs2Git.Core/Vcs/DXVcsRepository.cs:162-163 | a trailing `/` or `\` is dropped, and only one; any other string is unchanged |
| `Paths.Split` | DXVcs2Git.Core/Vcs/DXVcsRepository.cs:608 | `String.Split` on `/` with empty entries removed: every segment is non-empty and holds no `/` |
| `Paths.SplitNoSlash` | DXVcs2Git.Core/Vcs/DXVcsRepository.cs:608 | a non-empty string without `/` splits into itself alone |
| `Paths.SplitSlash` | DXVcs2Git.Core/Vcs/DXVcsRepository.cs:623 | splitting at a `/` splits the two sides separately and concatenates the results; with the empty string splitting to nothing, this fixes the result for every input, so leading, trailing and doubled `/` give no segment |
| `Paths.SplitJoin` | DXVcs2Git.Core/Vcs/DXVcsRepository.cs:620-631 | splitting on `/` with empty entries removed undoes joining non-empty, slash-free segments |
| `VcsHelpers.SelectFileTime` | DXVcs2Git.Core/Vcs/DXVcsRepository.cs:448-456 | CheckIn gives the version date, Modification the modification date, every other choice the current UTC time |
| `VcsHelpers.EqualsCheckOutParams` | DXVcs2Git.Core/Vcs/DXVcsRepository.cs:491-498 | differentHost exactly when the checkout host differs ignoring case; same exactly when the checkout folder equals the file's directory ignoring case and the host matches |
| `VcsHelpers.GetLocalFileModified` | DXVcs2Git.Core/Vcs/DXVcsRepository.cs:499-512 | a locked file gives (false, Locked); otherwise the state is Modified and needWrite holds exactly when the hashes differ |
| `VcsHelpers.PrepareProjectHistoryRequest` | DXVcs2Git.Core/Vcs/DXVcsRepository.cs:89-99 | empty user or comment becomes null; project history is hidden exactly for Labels; file history only when not hidden and asked for; labels except for WithoutLabels |
| `VcsHelpers.AccessDictFromSpec` | DXVcs2Git.Core/Vcs/DXVcsRepository.cs:360-370 | building the dictionary fails exactly when two entries carry the same int; otherwise its keys are exactly the int data and each maps to an entry carrying that key |
| `VcsHelpers.AccessDictErrSticks` | DXVcs2Git.Core/Vcs/DXVcsRepository.cs:363-368 | once Dictionary.Add has thrown, later entries do not change the outcome |
| `VcsHelpers.CreateAccessDict` | DXVcs2Git.Core/Vcs/DXVcsRepository.cs:360-370 | null gives null; otherwise an exception exactly for a duplicate int key, else the dictionary of the int-keyed entries |
| `VcsHelpers.Drain` | DXVcs2Git.Core/Vcs/DXVcsRepository.cs:516-524 | an empty queue raises nothing; otherwise the head is raised wrapped as an in-process thread error and removed |
| `VcsHelpers.ErrorFunnel.constructor` | DXVcs2Git.Core/Vcs/DXVcsRepository.cs:161 | the queue starts empty |
| `VcsHelpers.ErrorFunnel.Report` | DXVcs2Git.Core/Vcs/DXVcsRepository.cs:542-545 | an exception is appended at the tail |
| `VcsHelpers.ErrorFunnel.ProcessException` | DXVcs2Git.Core/Vcs/DXVcsRepository.cs:516-524 | takes exactly the head off the queue and raises it wrapped, or raises nothing on an empty queue |
| `VcsHelpers.AddProject` | DXVcs2Git.Core/Vcs/DXVcsRepository.cs:620-632 | empty path throws ArgumentException; no segment throws on Dequeue; otherwise one CreateProject per segment after the first, each under the join of the segments before it |
| `VcsHelpers.AddFile` | DXVcs2Git.Core/Vcs/DXVcsRepository.cs:605-619 | as AddProject, except that the last segment is created as a file |
| `FileSystems.FileSystem.GetAttributes` | DXVcs2Git.Core/Vcs/DXVcsRepository.cs:243 | a file is reported exactly when one exists at the canonical path, with its stored attributes |
| `FileSystems.FileSystem.CreateDirectory` | DXVcs2Git.Core/Vcs/DXVcsRepository.cs:513-515 | adds the directory, files unchanged |
| `FileSystems.FileSystem.SetAttributes` | DXVcs2Git.Core/Vcs/DXVcsRepository.cs:399-404 | only the ReadOnly flag of that one file changes |
| `FileSystems.FileSystem.WriteAllBytes` | DXVcs2Git.Core/Vcs/DXVcsRepository.cs:426 | the file holds the new bytes and is stamped now; no other file changes |
| `FileSystems.FileSystem.SetLastWriteTimeUtc` | DXVcs2Git.Core/Vcs/DXVcsRepository.cs:428 | only that file's stamp changes |
| `FileSystems.FileSystem.DeleteFile` | DXVcs2Git.Core/Vcs/DXVcsRepository.cs:352 | removes exactly that file |
| `FileSystems.FileSystem.DeleteTree` | DXVcs2Git.Core/Vcs/DXVcsRepository.cs:357 | removes the directory and everything under it, nothing else |
| `FileSystems.DeleteListedFiles` | DXVcs2Git.Core/Vcs/DXVcsRepository.cs:351-352 | exactly the listed files are gone; directories are unchanged |
| `FileSystems.DeleteListedDirs` | DXVcs2Git.Core/Vcs/DXVcsRepository.cs:353-358 | every file and directory inside a listed subdirectory other than `.git` is gone, and nothing else |
| `FileSystems.CleanedKeepsRoot` | DXVcs2Git.Core/Vcs/DXVcsRepository.cs:349-359 | when every listed subdirectory lies inside the root, the root exists after the cleanup and no listed top-level file remains |
| `FileSystems.CleanUpDirectory` | DXVcs2Git.Core/Vcs/DXVcsRepository.cs:349-359 | the root is created, then every listed top-level file and every listed subdirectory tree except `.git` is removed; nothing else changes |
| `Reconcile.MarkerFolder` | DXVcs2Git.Core/Vcs/DXVcsRepository.cs:217-224 | with buildTree the folder is, on the disk, the local root joined by `\` with the marker's segment, without a trailing separator; it starts with the local root and has only `\` separators below it; otherwise it is the record's CheckOutFolder without a trailing separator |
| `Reconcile.ResolveMarker` | DXVcs2Git.Core/Vcs/DXVcsRepository.cs:208-227 | appends the segment to pathList and creates the folder; throws exactly when the project key is present ignoring case, otherwise adds exactly that key; the resolver only grows and recorded folders keep existing |
| `Reconcile.ClassifyExisting` | DXVcs2Git.Core/Vcs/DXVcsRepository.cs:243-278 | locked: skipped; read-only: fetched exactly when the hash differs; writable and unchanged under makeWritable: skipped; otherwise Replace fetches (restData is the hash test), CheckOut marks for checkout and Normal, any other action skips |
| `Reconcile.ClassifyMissing` | DXVcs2Git.Core/Vcs/DXVcsRepository.cs:279-288 | without the folder nothing happens; with it the file is fetched in full, stamped by SelectFileTime, and left writable exactly when checked out by this user into this folder on this machine and makeWritable or the checkout flag holds |
| `Reconcile.ForceWritable` | DXVcs2Git.Core/Vcs/DXVcsRepository.cs:290-296 | with makeWritable every file record ends with its local path, Normal and a fetch, its other slots kept |
| `Reconcile.ClassifyFile` | DXVcs2Git.Core/Vcs/DXVcsRepository.cs:228-298 | an out-of-range back-reference throws; an unresolved project leaves all slots untouched; a resolved one throws nothing, any remote path it records is the project path joined with the file name, and under makeWritable it always gets its local path, Normal and a fetch |
| `Reconcile.ClassifyFileShape` | DXVcs2Git.Core/Vcs/DXVcsRepository.cs:228-298 | every decision has well-formed slots, raises doGetData exactly when it has a local path and is not a pure checkout, and raises wasCheckOut exactly when marked for checkout |
| `Reconcile.StepRecord` | DXVcs2Git.Core/Vcs/DXVcsRepository.cs:207-298 | one iteration of the record loop keeps the earlier slots and fills at most the next one; a record index past the info array throws IndexOutOfRange |
| `Reconcile.ClassifyRecords` | DXVcs2Git.Core/Vcs/DXVcsRepository.cs:207-298 | the record loop over n records fills at most n slots |
| `Reconcile.StepRecordResolver` | DXVcs2Git.Core/Vcs/DXVcsRepository.cs:207-227 | one record only grows the resolver and keeps recorded folders existing |
| `Reconcile.StepRecordShape` | DXVcs2Git.Core/Vcs/DXVcsRepository.cs:207-298 | a record that throws nothing adds one well-formed slot (untouched for a marker) and raises the flags that slot asks for |
| `Reconcile.ClassifyRecordsResolver` | DXVcs2Git.Core/Vcs/DXVcsRepository.cs:207-298 | over a whole block, exception or not, pathList is only appended to, keys are only added, folders only created, and every recorded folder exists |
| `Reconcile.ClassifyRecordsShape` | DXVcs2Git.Core/Vcs/DXVcsRepository.cs:207-298 | a block without exception has one well-formed slot per record, markers untouched, doGetData exactly when some slot wants data, wasCheckOut exactly when some slot is marked |
| `Pipeline.DecompressAll` | DXVcs2Git.Core/Vcs/DXVcsRepository.cs:387-390 | null entries stay null; each other entry is replaced by its decompression; the length is kept |
| `Pipeline.WriteEntry` | DXVcs2Git.Core/Vcs/DXVcsRepository.cs:397-409 | a slot with data, both paths and no checkout rewrites its file with the new bytes, the slot's stamp and ReadOnly unless setNormal; any other slot with an existing local file only gets Normal or ReadOnly; no other file changes |
| `Pipeline.WriteUpTo` | DXVcs2Git.Core/Vcs/DXVcsRepository.cs:397-413 | the save loop over the first n slots deletes no file |
| `Pipeline.WriteStage` | DXVcs2Git.Core/Vcs/DXVcsRepository.cs:396-414 | an exception is queued exactly when the data array is longer than the slot arrays, and it names the first missing index |
| `Pipeline.FetchAndWrite` | DXVcs2Git.Core/Vcs/DXVcsRepository.cs:372-421 | a failed GetBlockData queues its exception and touches no file; otherwise the decompressed data goes through the write stage |
| `Pipeline.WriteUpToFrame` | DXVcs2Git.Core/Vcs/DXVcsRepository.cs:397-413 | the write loop deletes no file and touches no file outside the slots' local paths |
| `Pipeline.WriteUpToOwnFile` | DXVcs2Git.Core/Vcs/DXVcsRepository.cs:397-413 | a file named by one slot only ends as that slot alone leaves it |
| `Pipeline.CheckOutList` | DXVcs2Git.Core/Vcs/DXVcsRepository.cs:313-323 | the batch has exactly one item per slot marked for checkout, in index order: the item of marked slot i comes after the items of the marked slots before it, and holds the slot's remote path and the directory of its local path |
| `Pipeline.ApplyGrants` | DXVcs2Git.Core/Vcs/DXVcsRepository.cs:326-334 | the grant loop only changes attributes: no file appears or disappears |
| `Pipeline.ApplyGrantsSpec` | DXVcs2Git.Core/Vcs/DXVcsRepository.cs:326-334 | exactly the files of items the server did not refuse become writable; no file appears, disappears or changes content |
| `Pipeline.CheckOutStage` | DXVcs2Git.Core/Vcs/DXVcsRepository.cs:313-335 | a failing CheckOut or TakeAccessInfo, or a duplicate index, propagates with the disk unchanged; otherwise the grants are applied to the batch |
| `Pipeline.GrantTargetsMarkedFile` | DXVcs2Git.Core/Vcs/DXVcsRepository.cs:317-329 | the file made writable after checkout is the same file that was marked: Combine of GetDirectory of the local path and GetFile of the remote path names it on a case-insensitive disk |
| `Pipeline.UpToDateCopyUntouched` | DXVcs2Git.Core/Vcs/DXVcsRepository.cs:249-258 | a read-only copy whose hash matches asks for no data, and one classification and write step leaves it exactly as it is, whatever data arrives |
| `Pipeline.LeaveKeepsWritableCopy` | DXVcs2Git.Core/Vcs/DXVcsRepository.cs:259-270 | with Leave a writable copy is neither rewritten nor re-attributed |
| `Pipeline.ReplaceOverwritesWritableCopy` | DXVcs2Git.Core/Vcs/DXVcsRepository.cs:262-268 | with Replace a writable unlocked copy gets the server's bytes, ReadOnly and the SelectFileTime stamp |
| `Pipeline.CheckOutNeverOverwritten` | DXVcs2Git.Core/Vcs/DXVcsRepository.cs:271-277 | a file marked for checkout keeps its content through the write loop and only becomes writable |
| `Pipeline.MissingFileCreated` | DXVcs2Git.Core/Vcs/DXVcsRepository.cs:280-288 | a missing file in an existing folder is created with the server's bytes, read-only unless makeWritable or a checkout by this user into this folder on this machine |
| `Run.CheckpointAsWritten` | DXVcs2Git.Core/Vcs/DXVcsRepository.cs:300-311 | the checkpoint drains exactly one queued exception, as ProcessException does |
| `Run.CheckpointAsWrittenHangs` | DXVcs2Git.Core/Vcs/DXVcsRepository.cs:308-311 | with no fetch and a pending exception, the exception is raised and getDataEvent stays unsignalled, so the wait in the finally block never returns |
| `Run.Checkpoint` | DXVcs2Git.Core/Vcs/DXVcsRepository.cs:300-311 | the corrected checkpoint drains as ProcessException does and always leaves getDataEvent signalled |
| `Run.CheckpointAgrees` | DXVcs2Git.Core/Vcs/DXVcsRepository.cs:300-311 | the corrected and the written checkpoint raise the same exception; the written one leaves the event signalled exactly when data is fetched or nothing is pending |
| `Run.RunFrom` | DXVcs2Git.Core/Vcs/DXVcsRepository.cs:183-338 | the block loop from any iteration ends in `return true` or an exception, never in false |
| `Run.GetLatestVersionSpec` | DXVcs2Git.Core/Vcs/DXVcsRepository.cs:158-348 | the whole run, cleanup included, returns true or throws; it never returns false |
| `Run.PlanReady` | DXVcs2Git.Core/Vcs/DXVcsRepository.cs:271-277 | every slot marked for checkout of a classified block carries both paths |
| `Run.AfterClassify` | DXVcs2Git.Core/Vcs/DXVcsRepository.cs:300-333 | a pending exception is thrown before any fetch or checkout; the resolver is the one classification produced |
| `Run.ProcessBlock` | DXVcs2Git.Core/Vcs/DXVcsRepository.cs:194-335 | a block only grows pathList, localPathDict and the directories |
| `Run.Prefetch` | DXVcs2Git.Core/Vcs/DXVcsRepository.cs:537-548 | a delivered block replaces blockInfo; a failure is queued and blockInfo is kept; the stream advances by one either way |
| `Run.Start` | DXVcs2Git.Core/Vcs/DXVcsRepository.cs:179-181 | the first QueueBlock into a fresh BlockInfo leaves the loop at a readable stream position |
| `Run.QueuedErrorSurfaces` | DXVcs2Git.Core/Vcs/DXVcsRepository.cs:185-187 | a queued exception is thrown at the top of the next iteration, ahead of anything else |
| `Run.ProcessBlockKeepsFiles` | DXVcs2Git.Core/Vcs/DXVcsRepository.cs:194-335 | one block deletes no file |
| `Run.RunFromGrows` | DXVcs2Git.Core/Vcs/DXVcsRepository.cs:183-337 | from any iteration on, the run deletes no file and removes no directory |
| `Run.EmptyStreamRun` | DXVcs2Git.Core/Vcs/DXVcsRepository.cs:158-188 | with no block the run returns true after the cleanup alone |
| `Run.QuietBlockWithFailedPrefetch` | DXVcs2Git.Core/Vcs/DXVcsRepository.cs:181-311 | a marker-only block followed by a failed prefetch: the block's plan fetches nothing and the queue holds the failure at its checkpoint; with the corrected checkpoint the run throws the failure; the written checkpoint, given that plan and queue, leaves the event unsignalled |
| `Repository.ClassifyRecordsErrSticks` | DXVcs2Git.Core/Vcs/DXVcsRepository.cs:207-298 | once a record of the block has thrown, the later records change nothing |
| `Repository.ClassifyRecord` | DXVcs2Git.Core/Vcs/DXVcsRepository.cs:208-298 | one iteration of the record loop does what one classification step specifies, filling only its own slot |
| `Repository.ClassifyBlock` | DXVcs2Git.Core/Vcs/DXVcsRepository.cs:194-298 | the record loop over fresh arrays ends with the slots, flags, resolver, directories and exception of the block's classification |
| `Repository.GetLatestReplaceFile` | DXVcs2Git.Core/Vcs/DXVcsRepository.cs:423-433 | the file holds the new bytes, the stamp (the write time when fileTime is MinValue) and ReadOnly; its lock state is kept; nothing else changes |
| `Repository.DecompressData` | DXVcs2Git.Core/Vcs/DXVcsRepository.cs:386-390 | the data array is decompressed in place |
| `Repository.SaveEntry` | DXVcs2Git.Core/Vcs/DXVcsRepository.cs:398-409 | one index of the save loop leaves the disk as one write-loop step specifies |
| `Repository.SaveData` | DXVcs2Git.Core/Vcs/DXVcsRepository.cs:396-414 | the save loop leaves the disk and the queue as the write stage specifies |
| `Repository.QueueAll` | DXVcs2Git.Core/Vcs/DXVcsRepository.cs:372-421 | fetch, decompression and save leave the disk and the queue as the fetch-and-write stage specifies |
| `Repository.CheckOutBlock` | DXVcs2Git.Core/Vcs/DXVcsRepository.cs:313-335 | the checkout block leaves the disk and throws as the checkout stage specifies |
| `Repository.QueueBlock` | DXVcs2Git.Core/Vcs/DXVcsRepository.cs:537-548 | blockInfo and the queue change as the prefetch specifies |
| `Repository.RunBlock` | DXVcs2Git.Core/Vcs/DXVcsRepository.cs:194-335 | the loop body for a block with records leaves the resolver, disk and queue, and throws, as the per-block function specifies |
| `Repository.GetLatestVersion` | DXVcs2Git.Core/Vcs/DXVcsRepository.cs:158-348 | the result, the files and the directories are those of the run function, with the corrected checkpoint |
| `Extraction.HandlerCalls` | DXVcs2Git.Core/ProjectExtractor.cs:16-23 | the first n calls hand over the first n commits' track and time stamp, in order |
| `Extraction.HandlerCallsPrefix` | DXVcs2Git.Core/ProjectExtractor.cs:16-23 | the calls of a longer run extend those of a shorter one |
| `Extraction.ProjectExtractor.constructor` | DXVcs2Git.Core/ProjectExtractor.cs:12-15 | the extractor starts before the first commit, with no call made |
| `Extraction.ProjectExtractor.PerformExtraction` | DXVcs2Git.Core/ProjectExtractor.cs:16-23 | false exactly when every commit was handed over, with nothing changed; a throwing handler passes its exception on and leaves the index, so the same commit is handed over again next time; otherwise the next commit goes to the handler and the index advances by one |

## Left out

- The remote service is not modelled; only its answers are. Each block's
  metadata, data and checkout access list is a `BlockReply`, and an error
  in one stands for the exception the call throws. Past the end of the
  replies the service says that no more blocks follow.
  - The initial `Service.Get` and its `option` and `recursive` arguments are
    left out.
  - So are the warning messages for the first `TakeAccessInfo` and for
    refused checkouts, the `GetBlockDataReq` call, `ConfirmGetEnd` and the
    session touch thread.
- Timeouts are not modelled: `DXVCSGetNextTimeoutException` is swallowed
  by `QueueBlock` and `QueueAll`, and the remote retry loop
  `while (data == null)` is not modelled either.
- The events are not modelled as threads. `QueueBlock` and `QueueAll` run
  synchronously, so the model is sequential. Only `getDataEvent` is
  modelled, by the gate of the checkpoint finding.
- Progress (`magicPos`, `lastMagic`, `step`) and `curProjectDate` affect no
  decision and are left out. So is the unused `replaceWriteableState`
  parameter.
- MD5 hashing and `TryToDecompressData` are functions passed in with the
  options. `OpenRead` failing with an IOException is the `locked` flag of a
  local file.
- The clock is frozen: `DateTime.UtcNow` is one value for the whole run.
  Times are tick counts and `DateTime.MinValue` is 0.
- The `FileSystem` wrapper class and the `HelperPaths` helper are not part
  of this model. The model assumes the following of them:
  - `RemoveFinishSlash` drops one trailing `/` or `\`.
  - `Combine(a, b)` is `a` when `b` is empty, else `a + "/" + b`.
  - `GetDirectory` and `GetFile` split at the last separator.
  - The disk compares paths ignoring ASCII case and treating `/` as `\`.
  - `WriteAllBytes` keeps a file's attributes and stamps it with the
    current time.
  - `SetAttributes` on a missing file does nothing.
- I/O exceptions of `GetAttributes`, `WriteAllBytes` and `SetAttributes`,
  and an access-denied write to a read-only file, are not modelled. No
  file operation of the model fails. In particular, `CleanUpDirectory`
  deletes read-only files and trees, where `File.Delete` throws
  `UnauthorizedAccessException` on a read-only file.
- `VcsHelpers.AddProject` and `VcsHelpers.AddFile` return the list of
  remote calls they make. Each `CreateCall` keeps the parent and the name;
  the `comment` and `fileBytes` arguments are dropped, since neither
  method looks at them.
- `VcsHelpers.AddProject` and `VcsHelpers.AddFile`: a failing remote
  `CreateProject` or `CreateFile` is not modelled. In the source its
  exception ends the method after the calls before it; the model assumes
  every call returns.
- `FileSystems.FileSystem.CreateDirectory` adds only the named directory.
  `Directory.CreateDirectory` also creates every missing parent; the model
  records none of them.
- `Reconcile.ResolveMarker`: `localPathDict` compares keys with
  `StringComparer.InvariantCultureIgnoreCase`. The model folds ASCII
  letters only, so two markers that differ only in a non-ASCII letter
  (`Ä` and `ä`) are two keys in the model, where `Dictionary.Add` throws.
  `Reconcile.ClassifyFile` looks keys up with the same ASCII fold.
- `VcsHelpers.EqualsCheckOutParams`: `CurrentCultureIgnoreCase` depends on
  the current culture (under tr-TR, `I` and `i` do not match). The model
  folds ASCII letters only, in every culture. So a file checked out into
  a folder that differs only in a non-ASCII letter is left read-only in
  the model and writable in the source.
- `Pipeline.UpToDateCopyUntouched` is about one classification and write
  step. A second `GetLatestVersion` is not idempotent: it first runs
  `CleanUpDirectory`, which deletes every listed top-level file and every
  listed subdirectory except `.git`. With buildTree that is the whole mirror.
- Directory keys are not normalised for a trailing separator: `C:\work\`
  and `C:\work` are two keys in the model, one folder on Windows.
  `CleanUpDirectory` creates the local project path as given, while the
  markers create folders under its trimmed form. Every later lookup uses a
  key that a marker created, so no decision depends on the difference.
- The directory listing of `CleanUpDirectory` is a parameter: the paths of
  the top-level files and subdirectories of the local project folder.
- The seven parallel slot arrays of a block are one array of `Entry`
  records, one per index.
- `BlockInfo` is a value that `QueueBlock` replaces. On a failed call the
  previous block is kept; out parameters partly written by the service are
  not modelled.
- `Repository.ClassifyRecord` decides a file record by calling the
  classifier function instead of re-stating its branches as statements.
- `Extraction.ProjectExtractor.PerformExtraction`: the extraction handler
  is a callback outside this model. Whether a call throws is a parameter,
  the calls that returned are recorded as a log of (track, time stamp)
  pairs, and a change of the commit list by another holder of it is not
  modelled.
- `Run.RunFromGrows` states only that files and directories are kept. That
  every recorded folder exists at the end is proved per block
  (`Reconcile.ClassifyRecordsResolver`), not carried to the run outcome.
- The other operations of `DXVcsRepository` are not modelled: history,
  diff, single-file get, check-in, undo checkout, delete and the
  constructor's service validation. Neither are the UI and GitTools files.

## Findings

| source | as written | input that shows it | evidently intended | confidence | as-written member | corrected member |
|---|---|---|---|---|---|---|
| DXVcs2Git.Core/Vcs/DXVcsRepository.cs:308-311 | when a block needs no fetch, the loop waits on `getDataEvent`, calls `ProcessException`, then `Set`; a thrown exception skips the `Set`, and the `finally` block at line 341 waits on the unsignalled event forever | a block with records but nothing to fetch (for example only a project marker), whose prefetch of the next block (line 193) throws: the exception is queued and thrown at line 310 | the event is signalled before the queue is drained (as the fetch branch does at lines 302-304), so the exception reaches the caller | not executed | `Run.CheckpointAsWrittenHangs` | `Run.Checkpoint` |
