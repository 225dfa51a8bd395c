/**
 * The two worked scenarios of the agent's design, as lemmas about one cycle
 * with default settings over a folder "inbox" and no failure anywhere.
 */
module Scenarios {
  import opened Wrappers
  import opened Failures
  import opened Clock
  import opened Paths
  import opened LocalFolder
  import opened Results
  import opened Settings
  import opened Scanning
  import opened Storage
  import opened Processing
  import opened Polling

  const Inbox: Dir := ["inbox"]
  const A := Path(Inbox, "a.pdf")
  const B := Path(Inbox, "b.pdf")

  /** The default settings with SourceFolder = "inbox". */
  function InboxOptions(): AppOptions {
    DefaultAppOptions().(sourceFolder := Some("inbox"))
  }

  /** A cycle in which nothing throws and the folder lists `entries`. */
  function Quiet(entries: seq<Path>, now: Timestamp): CycleEnv {
    CycleEnv(entries, false, false, i => FileEnv(NoFaults, now))
  }

  /** ProcessAll over one file is one ProcessStep with the first environment. */
  lemma ProcessAllOne(w: World, o: AppOptions, a: Path, env: nat -> FileEnv)
    ensures ProcessAll(w, o, [a], env) == (ProcessStep(w, o, a, env(0)).0, [ProcessStep(w, o, a, env(0)).1])
  {
    assert [a][..0] == [];
    assert ProcessAll(w, o, [], env) == (w, []);
    var (w1, r1) := ProcessStep(w, o, a, env(0));
    assert [] + [r1] == [r1];
  }

  /** ProcessAll over two files is two ProcessSteps, the second in the world the first left. */
  lemma ProcessAllTwo(w: World, o: AppOptions, a: Path, b: Path, env: nat -> FileEnv)
    ensures var (w1, r1) := ProcessStep(w, o, a, env(0));
      var (w2, r2) := ProcessStep(w1, o, b, env(1));
      ProcessAll(w, o, [a, b], env) == (w2, [r1, r2])
  {
    assert [a, b][..1] == [a];
    ProcessAllOne(w, o, a, env);
    var (w1, r1) := ProcessStep(w, o, a, env(0));
    var (w2, r2) := ProcessStep(w1, o, b, env(1));
    assert [r1] + [r2] == [r1, r2];
  }

  /** Tally over two outcomes records them in order. */
  lemma TallyTwo(r1: Result<FileProcessResult, Error>, r2: Result<FileProcessResult, Error>)
    ensures Tally([r1, r2]) == Record(Record(Counters(0, 0, 0), r1), r2)
  {
  }

  /** Listing a.pdf and b.pdf of inbox, both matching, yields both in order. */
  lemma ScanFindsBoth(l: Local, matches: (string, string) -> bool)
    requires A in l.files && B in l.files && Inbox in l.dirs
    requires matches(DefaultPattern, "a.pdf") && matches(DefaultPattern, "b.pdf")
    ensures Scan(l, [A, B], Inbox, Some(DefaultPattern), matches, false) == Success([A, B])
  {
    EffectivePatternIdempotent(None);
    assert [A, B][..1] == [A] && [A][..0] == [];
    assert TopLevelMatches(l.files, [], Inbox, DefaultPattern, matches) == [];
    assert TopLevelMatches(l.files, [A], Inbox, DefaultPattern, matches) == [A];
    assert TopLevelMatches(l.files, [A, B], Inbox, DefaultPattern, matches) == [A] + [B];
    assert [A] + [B] == [A, B];
    assert EnumerateFiles(l, [A, B], Inbox, DefaultPattern, matches, false) == Success([A, B]);
  }

  /** Listing a.pdf of inbox, matching, yields it. */
  lemma ScanFindsOne(l: Local, matches: (string, string) -> bool)
    requires A in l.files && Inbox in l.dirs
    requires matches(DefaultPattern, "a.pdf")
    ensures Scan(l, [A], Inbox, Some(DefaultPattern), matches, false) == Success([A])
  {
    EffectivePatternIdempotent(None);
    assert [A][..0] == [];
    assert TopLevelMatches(l.files, [], Inbox, DefaultPattern, matches) == [];
    assert TopLevelMatches(l.files, [A], Inbox, DefaultPattern, matches) == [] + [A];
    assert [] + [A] == [A];
    assert EnumerateFiles(l, [A], Inbox, DefaultPattern, matches, false) == Success([A]);
  }

  /**
   * a.pdf and b.pdf, neither stored yet, DeleteAfterUpload on: after one
   * cycle both are blobs with their contents, the folder is empty and the
   * counters read found 2, uploaded 2, deleted 2, duplicates 0.
   */
  lemma TwoNewFilesAreUploadedAndDeleted(
    ca: Bytes, cb: Bytes, now: Timestamp, matches: (string, string) -> bool)
    requires matches(DefaultPattern, "a.pdf") && matches(DefaultPattern, "b.pdf")
    ensures var (w, log) := CycleStep(
        World(Local(map[A := ca, B := cb], {Inbox}), Fresh(map[])),
        InboxOptions(), Quiet([A, B], now), matches);
      && log.outcome == Completed(CycleReport(2, Counters(2, 2, 0)))
      && w.local.files == map[]
      && w.remote.blobs == map["a.pdf" := Blob(ca, None), "b.pdf" := Blob(cb, None)]
  {
    var o := InboxOptions();
    var w0 := World(Local(map[A := ca, B := cb], {Inbox}), Fresh(map[]));
    var env := Quiet([A, B], now);
    var s := NormalizeSettings(o);
    assert FolderOf(s.sourceFolder) == Inbox;
    EffectivePatternIdempotent(None);
    assert s.searchPattern == DefaultPattern;
    assert CreateDirectoryStep(w0.local, Inbox, false) == (w0.local, Pass) by {
      assert w0.local.dirs + {Inbox} == w0.local.dirs;
    }
    ScanFindsBoth(w0.local, matches);
    var (w1, r1) := ProcessStep(w0, o, A, env.files(0));
    NewFileIsUploaded(w0, o, A, env.files(0));
    UploadedMeansNewBlob(w0, o, A, env.files(0));
    UploadedAndDeletedRemovesFile(w0, o, A, env.files(0));
    assert w1.local.files == map[B := cb];
    var (w2, r2) := ProcessStep(w1, o, B, env.files(1));
    NewFileIsUploaded(w1, o, B, env.files(1));
    UploadedMeansNewBlob(w1, o, B, env.files(1));
    UploadedAndDeletedRemovesFile(w1, o, B, env.files(1));
    assert w2.local.files == map[];
    ProcessAllTwo(w0, o, A, B, env.files);
    TallyTwo(r1, r2);
  }

  /**
   * a.pdf whose name is already a blob, empty duplicate folder: after one
   * cycle a.pdf lies in inbox/duplicate with its contents, the source no
   * longer has it, the stored blob is unchanged, and the counters read
   * found 1, uploaded 0, duplicates 1.
   */
  lemma KnownFileGoesToDuplicateFolder(
    ca: Bytes, stored: Blob, now: Timestamp, matches: (string, string) -> bool)
    requires matches(DefaultPattern, "a.pdf")
    ensures var (w, log) := CycleStep(
        World(Local(map[A := ca], {Inbox}), Fresh(map["a.pdf" := stored])),
        InboxOptions(), Quiet([A], now), matches);
      && log.outcome == Completed(CycleReport(1, Counters(0, 0, 1)))
      && w.local.files == map[Path(["inbox", "duplicate"], "a.pdf") := ca]
      && w.remote.blobs == map["a.pdf" := stored]
  {
    var o := InboxOptions();
    var w0 := World(Local(map[A := ca], {Inbox}), Fresh(map["a.pdf" := stored]));
    var env := Quiet([A], now);
    var s := NormalizeSettings(o);
    assert FolderOf(s.sourceFolder) == Inbox;
    EffectivePatternIdempotent(None);
    assert s.searchPattern == DefaultPattern;
    assert CreateDirectoryStep(w0.local, Inbox, false) == (w0.local, Pass) by {
      assert w0.local.dirs + {Inbox} == w0.local.dirs;
    }
    ScanFindsOne(w0.local, matches);
    var dup := Path(["inbox", "duplicate"], "a.pdf");
    assert DuplicateFolder(o) == ["inbox", "duplicate"];
    assert DuplicateDestination(w0.local.files, o, A, now) == dup;
    var (w1, r1) := ProcessStep(w0, o, A, env.files(0));
    KnownFileIsDiverted(w0, o, A, env.files(0));
    DuplicatedMeansMoved(w0, o, A, env.files(0));
    assert w1.local.files == map[dup := ca];
    ProcessAllOne(w0, o, A, env.files);
    assert Tally([r1]) == Record(Counters(0, 0, 0), r1) by {
      assert [r1][..0] == [];
    }
  }
}
