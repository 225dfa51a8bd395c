# FilesToBlob, modelled in Dafny

FilesToBlob is a background agent. It watches a local folder and uploads the
files there to an Azure Blob Storage container. Each polling cycle:

1. normalises the settings;
2. makes sure the source folder exists;
3. lists the top-level files that match a search pattern (`*.pdf` by default);
4. processes each file:
   - a file whose name is not yet a blob is uploaded, with an optional tag, and deleted afterwards when `DeleteAfterUpload` is set;
   - a file whose name is already a blob is moved to a duplicate folder, under a timestamped name if its own name is taken there;
5. logs four counters: found, processed, deleted and duplicates;
6. waits `max(1, PollingIntervalSeconds)` seconds.

The loop stops when cancellation is requested, or with an exception when the interval is longer than Task.Delay accepts. The storage gateway creates
the container once, guarded by a flag and a lock.

This project models that core over an abstract world:

- the local file system: `LocalFolder.Local`, a map from path to bytes and a set of directories;
- the remote side: `Storage.Remote`, with the gateway's flag, the number of successful create calls, and the container's blobs by name;
- the settings: `Settings.AppOptions`.

Each operation has a pure step function from the old state to the new state
and a result. Those step functions are the specification. Where the source
changes state in place, there is a class:

- `Storage.BlobStorageService`;
- `LocalFolder.FileSystem`;
- `Processing.FileProcessor`;
- `Polling.FolderPollingService`.

The class methods are proved to compute exactly their step functions. The
lemmas, proved about the step functions, are the system's promises:

- results are consistent;
- no blob is ever overwritten;
- the container is created at most once in any run;
- a file that throws is left where it was;
- the counters count flags;
- the loop ends only on cancellation, or when Task.Delay refuses the configured interval.

What the environment decides is passed in as a parameter:

- which call throws, as `Failures.FileFaults` and the `CycleEnv` flags;
- the clock reading, as a `Clock.Timestamp`;
- the order in which the file system lists paths, as `entries`;
- the glob matcher of `Directory.EnumerateFiles`, as `matches`;
- the cancellation signals, as `Polling.Tick`.

Modules, following the source files:

- `Results`: FileProcessResult.cs.
- `Settings`: Options.cs.
- `Scanning`: FileScanner.cs.
- `Storage`: BlobStorageService.cs.
- `Processing`: FileProcessor.cs.
- `Polling`: FolderPollingService.cs.
- `Scenarios`: two complete cycles worked out end to end.
- Support modules:
  - `Wrappers`: Option and Result;
  - `Failures`: which call threw;
  - `Text`: `string.IsNullOrWhiteSpace`;
  - `Clock`: the `yyyyMMddHHmmssfff` format;
  - `Paths`: `GetFileName`, `GetExtension` and friends over a segment model of paths;
  - `LocalFolder`: the .NET file-system calls as a class over the local state.

Where the .NET semantics matter, the model follows them:

- `Path.GetExtension("a.")` is `""` and `GetFileNameWithoutExtension("a.")` is `"a"`.
- `Path.Combine(d, "")` is `d`.
- `Directory.CreateDirectory("")` throws. So with `SourceFolder` unset, every cycle ends at the folder step with an error that is caught, and the loop goes on.
- `File.Delete` of a missing file is no error.
- `File.Move` onto an existing file throws.

## Model

| member | source | states |
|---|---|---|
| Results.NoAction | FileProcessResult.cs:3 | NoAction has Uploaded, Deleted and Duplicated all false |
| Results.NoActionByValue | FileProcessResult.cs:1-3 | records compare by value: a record equals NoAction exactly when all three flags are false |
| Results.ConsistentResults | FileProcessor.cs:26-49 | the consistent results (Deleted implies Uploaded, never Uploaded and Duplicated) are exactly the four the processor builds |
| Settings.DefaultAppOptions | Options.cs:1-10 | DeleteAfterUpload defaults to true, PollingIntervalSeconds to 5, DuplicateFolderName to "duplicate"; SourceFolder, SearchPattern, TagName and TagValue are null |
| Settings.DefaultBlobOptions | Options.cs:12-16 | ConnectionString and ContainerName have no default |
| Text.IsWhiteSpace | FileScanner.cs:5 | char.IsWhiteSpace over the Unicode space, line and paragraph separators, U+0009 to U+000D and U+0085; among ASCII characters exactly tab, line feed, vertical tab, form feed, carriage return and space |
| Text.IsNullOrWhiteSpace | FileScanner.cs:5 | string.IsNullOrWhiteSpace: true for null and for "", and for any other string exactly when every character in it is white space |
| Scanning.EffectivePattern | FileScanner.cs:5-8 | a null, empty or whitespace pattern becomes "*.pdf", any other pattern is kept, and the result is never blank |
| Scanning.EffectivePatternIdempotent | FileScanner.cs:5-8 | defaulting an already defaulted pattern changes nothing |
| Scanning.TopLevelMatches | FileScanner.cs:10 | a path is listed iff the file system enumerates it, it is a file, it lies directly in the folder and its name matches the pattern; no more entries than were enumerated |
| Scanning.TopLevelMatchesDistinct | FileScanner.cs:10 | an enumeration without repeats gives a listing without repeats |
| Scanning.TopLevelMatchesNone | FileScanner.cs:10 | a folder in which no file matches the pattern lists nothing, whatever the enumeration |
| Scanning.EnumerateFiles | FileScanner.cs:10 | Directory.EnumerateFiles succeeds iff the folder exists and enumeration does not throw, and then lists exactly TopLevelMatches of the enumeration, so no more paths than were enumerated |
| Scanning.Scan | FileScanner.cs:3-11 | succeeds iff the folder exists and enumeration does not throw; every path returned is a top-level file of the folder matching the effective pattern; when the enumeration covers the folder, every such file is returned |
| Storage.Fresh | BlobStorageService.cs:10-18 | a new gateway has the flag unset and no create call behind it, over the container's existing blobs |
| Storage.EnsureContainerStep | BlobStorageService.cs:39-62 | with the flag set, nothing happens and no create is made; otherwise the flag is set exactly when create succeeds, and the success count rises only then; blobs are untouched |
| Storage.BlobExistsStep | BlobStorageService.cs:20-25 | the container is ensured first and a failure to create is passed on; the answer is membership of the name in the container's current blobs |
| Storage.UploadStep | BlobStorageService.cs:27-37 | the container is ensured first; a successful upload stores contents and tags under the name, a failed one stores nothing |
| Storage.CreateSucceedsAtMostOnce | BlobStorageService.cs:39-62 | over any sequence of EnsureContainer calls and backend answers, create succeeds at most once, the flag is never reset, and it ends set iff it was set already or some create succeeded |
| Storage.BlobStorageService.constructor | BlobStorageService.cs:10-18 | the flag starts false and the lock free |
| Storage.BlobStorageService.EnsureContainer | BlobStorageService.cs:39-62 | the check, lock, re-check, create and set sequence computes EnsureContainerStep and leaves the lock free on every path |
| Storage.BlobStorageService.BlobExists | BlobStorageService.cs:20-25 | computes BlobExistsStep on the gateway's state, lock free afterwards |
| Storage.BlobStorageService.Upload | BlobStorageService.cs:27-37 | computes UploadStep on the gateway's state, lock free afterwards |
| LocalFolder.CreateDirectoryStep | FileProcessor.cs:68 | Directory.CreateDirectory succeeds iff the path is not empty, the call does not throw, and the directory exists already or no file stands at its path; it then adds the directory; files never change, and a failure changes nothing |
| LocalFolder.DeleteStep | FileProcessor.cs:44 | File.Delete succeeds unless it throws; the path is then gone and every other file kept with its contents, a missing path being no error; directories never change |
| LocalFolder.MoveStep | FileProcessor.cs:79 | File.Move succeeds iff it does not throw, the source exists, neither a file nor a directory stands at the destination, and the destination's directory exists; the contents then leave the source for the destination and every other file is kept; a failure changes nothing |
| LocalFolder.ReadStep | FileProcessor.cs:38 | File.OpenRead succeeds iff the file exists and the call does not throw, and then yields the file's contents |
| LocalFolder.FileSystem.constructor | FileProcessor.cs:24-27 | the file system object holds the given files and directories |
| LocalFolder.FileSystem.FileExists | FileProcessor.cs:71 | File.Exists holds exactly when opening the path for reading would succeed, barring a thrown error |
| LocalFolder.FileSystem.CreateDirectory | FileProcessor.cs:68 | Directory.CreateDirectory adds the directory; the empty path, a file standing in its place, or a thrown error changes nothing |
| LocalFolder.FileSystem.Delete | FileProcessor.cs:44 | File.Delete removes the path from the files, and succeeds for a path that is not there |
| LocalFolder.FileSystem.Move | FileProcessor.cs:79 | File.Move moves the contents to a destination occupied by no file or directory, in an existing directory, and otherwise throws and changes nothing |
| LocalFolder.FileSystem.ReadAll | FileProcessor.cs:38 | File.OpenRead yields the file's contents and changes nothing |
| Clock.Digits | FileProcessor.cs:75 | a field is written with exactly its width in decimal digits |
| Clock.DigitsRoundTrip | FileProcessor.cs:75 | a field that fits its width is read back from its digits unchanged |
| Clock.Format | FileProcessor.cs:75 | yyyyMMddHHmmssfff is 17 decimal digits |
| Clock.FormatInjective | FileProcessor.cs:75 | two readings give the same timestamp text only when they are the same millisecond |
| Paths.FolderOf | FolderPollingService.cs:31 | the configured folder string as a path: "" is the empty path, any other string one segment |
| Paths.Combine | FileProcessor.cs:67 | Path.Combine appends a non-empty segment to the directory and leaves it as it is for an empty one |
| Paths.GetFileName | FileProcessor.cs:29 | the base name: with the path's directory it gives the path back |
| Paths.GetFileNameWithoutExtension | FileProcessor.cs:73 | the name up to its last period, or the whole name when it has none |
| Paths.GetExtension | FileProcessor.cs:74 | a suffix of the name: "" when the name has no period or ends in one, otherwise a period, then at least one character and no further period |
| Paths.LastIndexOf | FileProcessor.cs:73-74 | finds the last occurrence of the character, or reports that there is none |
| Paths.StemAndExtension | FileProcessor.cs:73-74 | stem and extension put the name back together, except that a trailing period belongs to neither |
| Processing.BuildTags | FileProcessor.cs:52-63 | exactly {TagName: TagValue} when both are non-blank, and null otherwise |
| Processing.DuplicateFolder | FileProcessor.cs:67 | SourceFolder/DuplicateFolderName: with a non-empty DuplicateFolderName, that name as one more segment below the source folder, and the source folder itself when it is empty; the empty path exactly when both are empty |
| Processing.TimestampedName | FileProcessor.cs:73-76 | the timestamped name is longer than, so never equal to, the original name |
| Processing.TimestampedNameParts | FileProcessor.cs:73-76 | the timestamped name parses back as stem + "-" + timestamp and keeps the original extension |
| Processing.DuplicateDestination | FileProcessor.cs:67-77 | the destination lies in SourceFolder/DuplicateFolderName; it has the base name when that is free there, and otherwise the timestamped name |
| Processing.MoveToDuplicateStep | FileProcessor.cs:65-81 | succeeds iff the duplicate folder is a real path that exists or has no file in its place, neither call throws, the file exists, and no file or directory stands at the destination; it then moves the contents to the returned destination, and on failure leaves the files as they were; the duplicate folder exists afterwards whenever its creation succeeded, even if the move then failed, and no other directory changes |
| Processing.ProcessStep | FileProcessor.cs:20-50 | ProcessAsync as a step on the file system and the remote side; processing removes no directory and creates none but the duplicate folder (FileProcessor.cs:68); its other promises are the lemmas below |
| Processing.MissingFileIsNoAction | FileProcessor.cs:24-27 | a path that is not an existing file gives NoAction and changes neither side |
| Processing.ProcessResultConsistent | FileProcessor.cs:26-49 | every result returned is consistent |
| Processing.ProcessGrowsRemote | FileProcessor.cs:30-39 | processing never resets the flag and never overwrites or drops an existing blob, and keeps the create count in step with the flag |
| Processing.FailureKeepsFiles | FileProcessor.cs:30-47 | when processing throws, the local files are as they were |
| Processing.UploadedMeansNewBlob | FileProcessor.cs:38-49 | an upload result means the name was free; the blob then holds the file's contents under its base name with the configured tags; Deleted equals DeleteAfterUpload; the file is gone exactly when it is set; every other file is unchanged |
| Processing.UploadedAndDeletedRemovesFile | FileProcessor.cs:42-46 | an uploaded-and-deleted result removes exactly that file |
| Processing.DuplicatedMeansMoved | FileProcessor.cs:30-35 | a duplicate result means the name was a blob and nothing was uploaded; the file left its path, its contents lie at a free destination in the duplicate folder, and that folder now exists |
| Processing.NewFileIsUploaded | FileProcessor.cs:38-49 | with no call throwing, an existing file whose name is not a blob gives (true, DeleteAfterUpload, false) |
| Processing.KnownFileIsDiverted | FileProcessor.cs:30-35 | with no call throwing, an existing file whose name is a blob gives (false, false, true), provided its duplicate folder can be created and no file or directory stands at its destination |
| Processing.ClashBlocksDiversion | FileProcessor.cs:65-81 | a file standing where the duplicate folder would be created, or a directory at the destination, makes a known file's processing throw and leaves the files as they were |
| Processing.CollisionKeepsBoth | FileProcessor.cs:70-79 | when the base name is taken in the duplicate folder, the file already there is kept and the incoming one lands under the timestamped name |
| Processing.FileProcessor.Process | FileProcessor.cs:20-50 | ProcessAsync computes ProcessStep on the file system and the gateway |
| Processing.FileProcessor.MoveToDuplicateFolder | FileProcessor.cs:65-81 | computes MoveToDuplicateStep on the file system |
| Polling.NormalizeSettings | FolderPollingService.cs:30-33 | a null SourceFolder becomes "", a blank pattern becomes "*.pdf" and any other is kept, and the interval is max(1, PollingIntervalSeconds), so at least 1 |
| Polling.Record | FolderPollingService.cs:49-63 | one file raises each counter by at most one, and raises it exactly when its result has that flag set; a file that threw changes no counter |
| Polling.Tally | FolderPollingService.cs:40-63 | the counters over a cycle's outcomes, each at most the number of files |
| Polling.TallyCountsFlags | FolderPollingService.cs:49-63 | each counter equals the number of files whose result has its flag set; a file that threw is in no counter |
| Polling.TallyBounds | FolderPollingService.cs:49-63 | with consistent results, deleted <= processed and processed + duplicates <= the number of files |
| Polling.AllDeleted | FolderPollingService.cs:55-58 | the deleted counter equals the number of files only when every file was uploaded and deleted |
| Polling.ProcessAll | FolderPollingService.cs:45-69 | every scanned file yields an outcome |
| Polling.ProcessAllAttemptsEach | FolderPollingService.cs:45-69 | the i-th file is attempted, in scan order, in the world the earlier files left, whether or not they threw |
| Polling.ProcessAllInvariants | FolderPollingService.cs:45-69 | all results of a cycle are consistent, and the remote side only grows |
| Polling.AllDeletedRemovesScanned | FolderPollingService.cs:45-69 | a cycle that uploads and deletes every scanned file removes exactly those files |
| Polling.CycleStep | FolderPollingService.cs:30-79 | one loop body: the delay is the normalised interval; the cycle completes iff the source folder is set, it exists or no file stands in its place, and neither the folder creation nor the enumeration throws; an aborted cycle changes no file and nothing remote; fileFound is at most the number of enumerated entries |
| Polling.CycleCountsFlags | FolderPollingService.cs:39-63 | in a completed cycle, fileFound is the number of paths the scan returned, and each counter is the number of those files whose result has its flag set |
| Polling.CycleReportBounds | FolderPollingService.cs:30-79 | the delay is at least a second; in a completed cycle, deleted <= processed and processed + duplicates <= fileFound |
| Polling.CycleGrowsRemote | FolderPollingService.cs:35-79 | a cycle, completed or aborted, never resets the flag or overwrites a blob |
| Polling.FirstCycleClearsFolder | FolderPollingService.cs:35-75 | a cycle that saw every file and deleted every file it found leaves no file directly in the source folder that matches the pattern |
| Polling.NothingToFind | FolderPollingService.cs:35-75 | a cycle over an existing source folder in which no file matches completes with 0 found and all counters 0 |
| Polling.SecondCycleFindsNothing | FolderPollingService.cs:35-75 | after a cycle that saw every file and deleted every file it found, a second cycle finds nothing and counts nothing |
| Polling.ExecuteStep | FolderPollingService.cs:24-90 | ExecuteAsync over a schedule of turns: at most one cycle log per turn, one per turn when no turn stopped the run |
| Polling.ExecuteStopsOnlyWhenCancelledOrRejected | FolderPollingService.cs:28-88 | the loop runs a cycle per turn until the first turn that stops it: cancellation at the loop check (no further cycle), an interval Task.Delay refuses (that cycle logged, the loop left with the exception, cancellation or not), or a cancelled delay (that cycle logged); an aborted cycle never ends the loop |
| Polling.ExecuteDelayAt | FolderPollingService.cs:30-83 | the i-th cycle of a run waits max(1, PollingIntervalSeconds) of the options its turn read |
| Polling.ExecuteDelays | FolderPollingService.cs:30-83 | every cycle of a run waits max(1, PollingIntervalSeconds) of the options its own turn read |
| Polling.EveryDelayAtLeastOneSecond | FolderPollingService.cs:33-83 | every delay of a run is at least one second |
| Polling.OnlyTheLastDelayIsRejected | FolderPollingService.cs:81-88 | every delay before the last one of a run is accepted by Task.Delay, and the last is refused exactly when the run ended with DelayOutOfRange |
| Polling.ExecuteGrowsRemote | FolderPollingService.cs:28-89 | over a whole run the flag is never reset and no blob is overwritten |
| Polling.CreateSucceedsAtMostOnceInAnyRun | BlobStorageService.cs:39-62 | from a fresh gateway, over any run and any backend answers, the container is created at most once, the flag ends set iff that one create succeeded, and pre-existing blobs are kept |
| Polling.FolderPollingService.RunCycle | FolderPollingService.cs:30-79 | one loop body computes CycleStep on the file system and the gateway |
| Polling.FolderPollingService.ProcessBatch | FolderPollingService.cs:39-69 | the foreach with its three counters computes ProcessAll's final world and Tally of its outcomes |
| Polling.FolderPollingService.Execute | FolderPollingService.cs:24-90 | the while loop computes ExecuteStep: its cycles' logs, final world and exit reason, including the exit on a delay Task.Delay refuses |
| Scenarios.TwoNewFilesAreUploadedAndDeleted | FolderPollingService.cs:30-75 | with defaults, two new files end as two blobs with their contents, the folder is empty, and the counters are 2 found, 2 processed, 2 deleted, 0 duplicates |
| Scenarios.KnownFileGoesToDuplicateFolder | FileProcessor.cs:29-35 | with defaults, a file whose name is a blob lands in inbox/duplicate with its contents, the stored blob is unchanged, and the counters are 1 found, 0 processed, 1 duplicate |

## Left out

- Logging: none of it affects state.
- Concurrency: `SemaphoreSlim`, async/await and double-checked locking across threads are modelled sequentially. The lock is a flag that each call which finds the container flag unset takes and releases.
- `CancellationToken` inside the processing calls: a cancellation mid-file surfaces as an exception, which the per-file catch contains. The model shows this as a failed file. Cancellation is only acted on at the loop check and during the delay.
- Azure SDK:
  - the container client, `CreateIfNotExistsAsync`, `ExistsAsync` and `UploadAsync` are a map of blobs plus a boolean per call saying whether it throws;
  - a bad connection string in the gateway's constructor is not modelled;
  - an upload that fails is assumed to store nothing.
- Streams: a file's contents are read as a whole byte sequence. Stream lifetime is not modelled. In the source the read stream stays open until `ProcessAsync` returns, so `File.Delete` runs on an open file. On a platform that refuses to delete an open file, such as Windows, the delete throws, the uploaded file stays in place, and the next cycle diverts it as a duplicate. The model reaches that outcome only through the `deleteFile` fault.
- Glob matching: `Directory.EnumerateFiles`'s pattern semantics are the `matches` parameter. The enumeration order is the `entries` parameter.
- LocalFolder.CreateDirectoryStep: adds only the directory it is given. .NET's `Directory.CreateDirectory` also creates every missing parent. No cycle can observe this, because each cycle creates the source folder before anything below it. For the same reason, only a file standing at the given path itself makes the call throw: a file standing in place of a parent directory is not checked.
- Platform path rules: a path is a sequence of directory segments plus a name.
  - A SourceFolder string is one segment, and a DuplicateFolderName one more.
  - Separators inside those strings, rooted names and `..` are not interpreted.
- Clock: `DateTimeOffset.UtcNow` is the `now` field of each file's environment.
- Processing.TimestampedName: a timestamped name is not claimed to be unique. Two renames within one millisecond collide, and the move then fails as a failed file.
- Processing.TimestampedNameParts: does not cover names ending in a period. .NET gives those no extension, so the renamed name's extension may differ.
- Polling.CycleStep: uses one options value for every file of a cycle. The source re-reads the current options at the start of each `ProcessAsync` call, so a configuration change during a cycle is not modelled.
- Polling.Tally: the counters are unbounded naturals. The source's `int` counters would only wrap past 2^31 files in one cycle.
- Polling.ExecuteStep: takes Task.Delay's limit as 0xFFFF_FFFE milliseconds (`MaxDelaySeconds` = 4294967 s), as in .NET 6 and later. Earlier runtimes refuse delays above int.MaxValue milliseconds (2147483 s), and the model does not cover those.
- Polling.ExecuteStep: runs over a finite schedule of turns. The `ScheduleEnded` exit stands for "the run has not stopped yet".
- The environment changing files between calls, for example a file deleted by another program after `File.Exists`, shows up only as a failing call.
- Program.cs is not part of this model: configuration loading, host start-up and its one-shot upload loop.
- Interfaces.cs has no behaviour.
