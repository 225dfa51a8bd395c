/**
 * FileProcessor.cs: the per-file decision. A file that is gone is left
 * alone; a file whose name is already a blob is moved to the duplicate
 * folder; any other file is uploaded, with the configured tag, and deleted
 * afterwards when the settings say so.
 */
module Processing {
  import opened Wrappers
  import opened Failures
  import opened Text
  import opened Clock
  import opened Paths
  import opened LocalFolder
  import opened Results
  import opened Settings
  import opened Storage

  /** Everything processing can change: the local file system and the remote side. */
  datatype World = World(local: Local, remote: Remote)

  /** What the environment decides while one file is processed. */
  datatype FileEnv = FileEnv(faults: FileFaults, now: Timestamp)

  /**
   * BuildTags: the single pair TagName = TagValue when both are set and not
   * blank, and null otherwise.
   */
  function BuildTags(o: AppOptions): (r: Option<map<string, string>>)
    ensures r.Some? <==> !IsNullOrWhiteSpace(o.tagName) && !IsNullOrWhiteSpace(o.tagValue)
    ensures r.Some? ==> r.value.Keys == {o.tagName.value} && r.value[o.tagName.value] == o.tagValue.value
  {
    if !IsNullOrWhiteSpace(o.tagName) && !IsNullOrWhiteSpace(o.tagValue) then
      Some(map[o.tagName.value := o.tagValue.value])
    else
      None
  }

  /**
   * Path.Combine(SourceFolder ?? "", DuplicateFolderName). It is the empty
   * path, which no directory can be created at, exactly when both settings
   * are empty; an empty DuplicateFolderName puts duplicates in the source
   * folder itself.
   */
  function DuplicateFolder(o: AppOptions): (d: Dir)
    ensures d == [] <==> o.sourceFolder.GetOr("") == "" && o.duplicateFolderName == ""
    ensures o.duplicateFolderName == "" ==> d == FolderOf(o.sourceFolder.GetOr(""))
    ensures o.duplicateFolderName != "" ==> |d| > 0 && d[|d| - 1] == o.duplicateFolderName
    ensures o.duplicateFolderName != "" ==> d[..|d| - 1] == FolderOf(o.sourceFolder.GetOr(""))
  {
    Combine(FolderOf(o.sourceFolder.GetOr("")), o.duplicateFolderName)
  }

  /**
   * "<stem>-<yyyyMMddHHmmssfff><ext>": the name a duplicate gets when its
   * own name is taken in the duplicate folder. It is always longer than the
   * original name, so never equal to it.
   */
  function TimestampedName(name: string, now: Timestamp): (r: string)
    ensures |r| > |name|
  {
    StemAndExtension(name);
    GetFileNameWithoutExtension(name) + "-" + Format(now) + GetExtension(name)
  }

  /**
   * The timestamped name reads back as the original stem, a hyphen and the
   * timestamp, with the original extension, so a renamed "report.pdf" is
   * still a ".pdf". A name ending in a period is excepted: .NET gives it no
   * extension, so its stem is put back without that period.
   */
  lemma TimestampedNameParts(name: string, now: Timestamp)
    requires |name| == 0 || name[|name| - 1] != '.'
    ensures GetExtension(TimestampedName(name, now)) == GetExtension(name)
    ensures GetFileNameWithoutExtension(TimestampedName(name, now))
      == GetFileNameWithoutExtension(name) + "-" + Format(now)
  {
    var stem, ext := GetFileNameWithoutExtension(name), GetExtension(name);
    var prefix := stem + "-" + Format(now);
    var r := TimestampedName(name, now);
    assert r == prefix + ext;
    assert LastIndexOf("-" + Format(now), '.').None? by {
      assert forall j :: 0 <= j < |"-" + Format(now)| ==> ("-" + Format(now))[j] != '.' by {
        forall j | 0 <= j < |"-" + Format(now)|
          ensures ("-" + Format(now))[j] != '.'
        {
          if j > 0 {
            assert ("-" + Format(now))[j] == Format(now)[j - 1];
          }
        }
      }
    }
    LastIndexOfAppend(stem, "-" + Format(now), '.');
    LastIndexOfAppend(prefix, ext, '.');
    match LastIndexOf(name, '.')
    case None =>
      assert stem == name && ext == [];
      assert prefix + ext == prefix;
    case Some(i) =>
      assert ext == name[i..] && |ext| >= 2 && ext[0] == '.';
      assert LastIndexOf(ext, '.') == Some(0);
      assert r[..|prefix|] == prefix && r[|prefix|..] == ext;
  }

  /**
   * Where MoveToDuplicateFolder sends a duplicate: under its own name in the
   * duplicate folder when that name is free there, and otherwise under the
   * timestamped name in the same folder.
   */
  function DuplicateDestination(files: map<Path, Bytes>, o: AppOptions, path: Path, now: Timestamp)
    : (d: Path)
    ensures d.dir == DuplicateFolder(o)
    ensures Path(DuplicateFolder(o), path.name) !in files ==> d.name == path.name
    ensures Path(DuplicateFolder(o), path.name) in files ==>
      d.name == TimestampedName(path.name, now) && d.name != path.name
  {
    var folder := DuplicateFolder(o);
    var plain := Path(folder, GetFileName(path));
    if plain in files then Path(folder, TimestampedName(path.name, now)) else plain
  }

  /**
   * Whether the duplicate folder can be created: it is a real path, and it
   * exists already or no file stands in its place.
   */
  predicate DuplicateFolderCreatable(l: Local, o: AppOptions) {
    DuplicateFolder(o) != [] && (DuplicateFolder(o) in l.dirs || !FileAt(l, DuplicateFolder(o)))
  }

  /**
   * MoveToDuplicateFolder: create the duplicate folder, pick the
   * destination, move the file there; each of the two file-system calls may
   * throw.
   */
  function MoveToDuplicateStep(l: Local, path: Path, o: AppOptions, env: FileEnv)
    : (res: (Local, Result<Path, Error>))
    ensures res.1.Success? <==>
      && DuplicateFolderCreatable(l, o)
      && !env.faults.createDirectory && !env.faults.moveFile
      && path in l.files
      && DuplicateDestination(l.files, o, path, env.now) !in l.files
      && !DirectoryAt(l, DuplicateDestination(l.files, o, path, env.now))
    ensures res.1.Success? ==>
      && res.1.value == DuplicateDestination(l.files, o, path, env.now)
      && res.0.files == (l.files - {path})[res.1.value := l.files[path]]
    ensures res.1.Failure? ==> res.0.files == l.files
    ensures DuplicateFolderCreatable(l, o) && !env.faults.createDirectory ==>
      res.0.dirs == l.dirs + {DuplicateFolder(o)}
    ensures !(DuplicateFolderCreatable(l, o) && !env.faults.createDirectory) ==> res.0.dirs == l.dirs
  {
    var (l1, made) := CreateDirectoryStep(l, DuplicateFolder(o), env.faults.createDirectory);
    if made.Fail? then (l1, Failure(made.error))
    else
      var destination := DuplicateDestination(l1.files, o, path, env.now);
      var (l2, moved) := MoveStep(l1, path, destination, env.faults.moveFile);
      if moved.Fail? then (l2, Failure(moved.error)) else (l2, Success(destination))
  }

  /**
   * ProcessAsync as a transition of the world. A thrown exception is a
   * `Failure`: whatever was done before it stays done, and no result is
   * returned. Processing removes no directory and creates none but the
   * duplicate folder.
   */
  function ProcessStep(w: World, o: AppOptions, path: Path, env: FileEnv)
    : (r: (World, Result<FileProcessResult, Error>))
    ensures w.local.dirs <= r.0.local.dirs <= w.local.dirs + {DuplicateFolder(o)}
  {
    if path !in w.local.files then (w, Success(NoAction()))
    else
      var name := GetFileName(path);
      var f := env.faults;
      var (r1, found) := BlobExistsStep(w.remote, name, f.containerCreate, f.blobExists);
      if found.Failure? then (World(w.local, r1), Failure(found.error))
      else if found.value then
        var (l1, moved) := MoveToDuplicateStep(w.local, path, o, env);
        if moved.Failure? then (World(l1, r1), Failure(moved.error))
        else (World(l1, r1), Success(FileProcessResult(false, false, true)))
      else
        var content := ReadStep(w.local, path, f.openRead);
        if content.Failure? then (World(w.local, r1), Failure(content.error))
        else
          var (r2, uploaded) := UploadStep(r1, name, content.value, BuildTags(o), f.containerCreate, f.upload);
          if uploaded.Fail? then (World(w.local, r2), Failure(uploaded.error))
          else if o.deleteAfterUpload then
            var (l3, deleted) := DeleteStep(w.local, path, f.deleteFile);
            if deleted.Fail? then (World(l3, r2), Failure(deleted.error))
            else (World(l3, r2), Success(FileProcessResult(true, true, false)))
          else (World(w.local, r2), Success(FileProcessResult(true, false, false)))
  }

  /** A path that is not an existing file is left alone: NoAction, nothing changes. */
  lemma MissingFileIsNoAction(w: World, o: AppOptions, path: Path, env: FileEnv)
    requires path !in w.local.files
    ensures ProcessStep(w, o, path, env) == (w, Success(NoAction()))
  {
  }

  /**
   * Every result the processor returns is consistent: deleted only after
   * uploaded, never uploaded and duplicated at once.
   */
  lemma ProcessResultConsistent(w: World, o: AppOptions, path: Path, env: FileEnv)
    ensures var r := ProcessStep(w, o, path, env).1;
      r.Success? ==> Consistent(r.value)
  {
  }

  /**
   * Processing only grows the remote side: the flag is never reset, and an
   * existing blob is never overwritten, because the upload is reached only
   * when the existence query said the name is free. It also keeps the
   * gateway's create count in step with its flag.
   */
  lemma ProcessGrowsRemote(w: World, o: AppOptions, path: Path, env: FileEnv)
    ensures Grows(w.remote, ProcessStep(w, o, path, env).0.remote)
    ensures CreatedOnce(w.remote) ==> CreatedOnce(ProcessStep(w, o, path, env).0.remote)
  {
  }

  /**
   * A file that throws is left where it was, with its contents, for a later
   * cycle to try again.
   */
  lemma FailureKeepsFiles(w: World, o: AppOptions, path: Path, env: FileEnv)
    ensures var (w', r) := ProcessStep(w, o, path, env);
      r.Failure? ==> w'.local.files == w.local.files
  {
  }

  /**
   * An upload result means the name was free, the blob now holds the file's
   * contents and the configured tags, the result's Deleted flag is
   * DeleteAfterUpload, and the file is gone exactly when it is set.
   */
  lemma UploadedMeansNewBlob(w: World, o: AppOptions, path: Path, env: FileEnv)
    ensures var (w', r) := ProcessStep(w, o, path, env);
      r.Success? && r.value.uploaded ==>
        && path in w.local.files
        && path.name !in w.remote.blobs
        && w'.remote.blobs == w.remote.blobs[path.name := Blob(w.local.files[path], BuildTags(o))]
        && r.value == FileProcessResult(true, o.deleteAfterUpload, false)
        && (path in w'.local.files <==> !o.deleteAfterUpload)
        && w'.local.files - {path} == w.local.files - {path}
  {
  }

  /** A file uploaded and then deleted is the only file that changes. */
  lemma UploadedAndDeletedRemovesFile(w: World, o: AppOptions, path: Path, env: FileEnv)
    requires ProcessStep(w, o, path, env).1 == Success(FileProcessResult(true, true, false))
    ensures ProcessStep(w, o, path, env).0.local.files == w.local.files - {path}
  {
    var after := ProcessStep(w, o, path, env).0.local.files;
    UploadedMeansNewBlob(w, o, path, env);
    assert after == after - {path};
  }

  /**
   * A duplicate result means the name was already a blob, nothing was
   * uploaded, the file left its path, and its contents now lie in the
   * duplicate folder at a path that was free; every other file is kept.
   */
  lemma DuplicatedMeansMoved(w: World, o: AppOptions, path: Path, env: FileEnv)
    ensures var (w', r) := ProcessStep(w, o, path, env);
      var d := DuplicateDestination(w.local.files, o, path, env.now);
      r.Success? && r.value.duplicated ==>
        && path in w.local.files
        && path.name in w.remote.blobs
        && w'.remote.blobs == w.remote.blobs
        && r.value == FileProcessResult(false, false, true)
        && d.dir == DuplicateFolder(o)
        && d !in w.local.files
        && w'.local.files == (w.local.files - {path})[d := w.local.files[path]]
        && w'.local.dirs == w.local.dirs + {DuplicateFolder(o)}
  {
  }

  /**
   * A file whose name is not yet a blob is uploaded, when the environment
   * makes no call throw: (true, DeleteAfterUpload, false).
   */
  lemma NewFileIsUploaded(w: World, o: AppOptions, path: Path, env: FileEnv)
    requires path in w.local.files && path.name !in w.remote.blobs
    requires env.faults == NoFaults
    ensures ProcessStep(w, o, path, env).1 == Success(FileProcessResult(true, o.deleteAfterUpload, false))
  {
  }

  /**
   * A file whose name is already a blob is diverted, when no call throws,
   * the duplicate folder is a real path and the chosen destination is free.
   */
  lemma KnownFileIsDiverted(w: World, o: AppOptions, path: Path, env: FileEnv)
    requires path in w.local.files && path.name in w.remote.blobs
    requires env.faults == NoFaults
    requires DuplicateFolderCreatable(w.local, o)
    requires DuplicateDestination(w.local.files, o, path, env.now) !in w.local.files
    requires !DirectoryAt(w.local, DuplicateDestination(w.local.files, o, path, env.now))
    ensures ProcessStep(w, o, path, env).1 == Success(FileProcessResult(false, false, true))
  {
  }

  /**
   * A known file cannot be diverted when a file stands where the duplicate
   * folder would be created, or a directory stands at its destination:
   * Directory.CreateDirectory or File.Move throws, and the file stays where
   * it was.
   */
  lemma ClashBlocksDiversion(w: World, o: AppOptions, path: Path, env: FileEnv)
    requires path in w.local.files && path.name in w.remote.blobs
    requires !DuplicateFolderCreatable(w.local, o)
      || DirectoryAt(w.local, DuplicateDestination(w.local.files, o, path, env.now))
    ensures var (w', r) := ProcessStep(w, o, path, env);
      r.Failure? && w'.local.files == w.local.files
  {
  }

  /**
   * When the plain name is taken in the duplicate folder, the incoming file
   * is stored under its timestamped name and the file already there is kept
   * as it was.
   */
  lemma CollisionKeepsBoth(w: World, o: AppOptions, path: Path, env: FileEnv)
    requires Path(DuplicateFolder(o), path.name) in w.local.files
    requires path.dir != DuplicateFolder(o)
    ensures var (w', r) := ProcessStep(w, o, path, env);
      var taken := Path(DuplicateFolder(o), path.name);
      r.Success? && r.value.duplicated ==>
        && taken in w'.local.files && w'.local.files[taken] == w.local.files[taken]
        && var renamed := Path(DuplicateFolder(o), TimestampedName(path.name, env.now));
           renamed in w'.local.files && w'.local.files[renamed] == w.local.files[path]
  {
  }

  /** The processor: it reaches the blob gateway and the local file system. */
  class FileProcessor {
    const storage: BlobStorageService
    const fs: FileSystem

    constructor (storage: BlobStorageService, fs: FileSystem)
      ensures this.storage == storage && this.fs == fs
    {
      this.storage := storage;
      this.fs := fs;
    }

    ghost function Current(): World
      reads fs, storage
    {
      World(fs.State(), storage.State())
    }

    /** ProcessAsync; `o` is the options' current value. */
    method Process(path: Path, o: AppOptions, env: FileEnv) returns (r: Result<FileProcessResult, Error>)
      requires storage.Valid()
      modifies fs, storage
      ensures storage.Valid()
      ensures (Current(), r) == ProcessStep(old(Current()), o, path, env)
    {
      if !fs.FileExists(path) {
        return Success(NoAction());
      }
      var blobName := GetFileName(path);
      var found := storage.BlobExists(blobName, env.faults.containerCreate, env.faults.blobExists);
      if found.Failure? {
        return Failure(found.error);
      }
      if found.value {
        var destination := MoveToDuplicateFolder(path, o, env);
        if destination.Failure? {
          return Failure(destination.error);
        }
        return Success(FileProcessResult(false, false, true));
      }
      var content := fs.ReadAll(path, env.faults.openRead);
      if content.Failure? {
        return Failure(content.error);
      }
      var uploaded := storage.Upload(blobName, content.value, BuildTags(o), env.faults.containerCreate, env.faults.upload);
      if uploaded.Fail? {
        return Failure(uploaded.error);
      }
      if o.deleteAfterUpload {
        var deleted := fs.Delete(path, env.faults.deleteFile);
        if deleted.Fail? {
          return Failure(deleted.error);
        }
        return Success(FileProcessResult(true, true, false));
      }
      return Success(FileProcessResult(true, false, false));
    }

    /** MoveToDuplicateFolder; returns the destination it moved the file to. */
    method MoveToDuplicateFolder(path: Path, o: AppOptions, env: FileEnv) returns (r: Result<Path, Error>)
      modifies fs
      ensures (fs.State(), r) == MoveToDuplicateStep(old(fs.State()), path, o, env)
    {
      var duplicateFolder := DuplicateFolder(o);
      var made := fs.CreateDirectory(duplicateFolder, env.faults.createDirectory);
      if made.Fail? {
        return Failure(made.error);
      }
      var destination := Path(duplicateFolder, GetFileName(path));
      if fs.FileExists(destination) {
        destination := Path(duplicateFolder, TimestampedName(path.name, env.now));
      }
      var moved := fs.Move(path, destination, env.faults.moveFile);
      if moved.Fail? {
        return Failure(moved.error);
      }
      return Success(destination);
    }
  }
}
