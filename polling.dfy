/**
 * FolderPollingService.cs: the loop that, until cancelled, normalises the
 * settings, makes sure the source folder exists, scans it, processes every
 * file found with each file's exceptions contained, reports four counters
 * and waits for the polling interval.
 */
module Polling {
  import opened Wrappers
  import opened Failures
  import opened Text
  import opened Paths
  import opened LocalFolder
  import opened Results
  import opened Settings
  import opened Scanning
  import opened Storage
  import opened Processing

  /** The values one cycle works with (FolderPollingService.cs:31-33). */
  datatype CycleSettings = CycleSettings(sourceFolder: string, searchPattern: string, pollingInterval: int32)

  /**
   * A null folder becomes "", a blank pattern "*.pdf", and the interval is
   * Math.Max(1, PollingIntervalSeconds).
   */
  function NormalizeSettings(o: AppOptions): (s: CycleSettings)
    ensures s.sourceFolder == if o.sourceFolder.None? then "" else o.sourceFolder.value
    ensures IsNullOrWhiteSpace(o.searchPattern) ==> s.searchPattern == DefaultPattern
    ensures !IsNullOrWhiteSpace(o.searchPattern) ==> s.searchPattern == o.searchPattern.value
    ensures !IsNullOrWhiteSpace(Some(s.searchPattern))
    ensures s.pollingInterval >= 1 && s.pollingInterval >= o.pollingIntervalSeconds
    ensures s.pollingInterval == 1 || s.pollingInterval == o.pollingIntervalSeconds
  {
    CycleSettings(
      o.sourceFolder.GetOr(""),
      EffectivePattern(o.searchPattern),
      if o.pollingIntervalSeconds < 1 then 1 else o.pollingIntervalSeconds)
  }

  /** `processed`, `deleted` and `duplicates`. */
  datatype Counters = Counters(processed: nat, deleted: nat, duplicates: nat)

  /** The increments of FolderPollingService.cs:50-63 for one file; a file that threw adds nothing. */
  function Record(c: Counters, item: Result<FileProcessResult, Error>): (r: Counters)
    ensures item.Failure? ==> r == c
    ensures c.processed <= r.processed <= c.processed + 1
    ensures c.deleted <= r.deleted <= c.deleted + 1
    ensures c.duplicates <= r.duplicates <= c.duplicates + 1
    ensures r.processed > c.processed <==> item.Success? && item.value.uploaded
    ensures r.deleted > c.deleted <==> item.Success? && item.value.deleted
    ensures r.duplicates > c.duplicates <==> item.Success? && item.value.duplicated
  {
    match item
    case Failure(_) => c
    case Success(r) => Counters(
      c.processed + (if r.uploaded then 1 else 0),
      c.deleted + (if r.deleted then 1 else 0),
      c.duplicates + (if r.duplicated then 1 else 0))
  }

  /**
   * The counters after the files whose outcomes are `items`, in order; none
   * exceeds the number of files.
   */
  function Tally(items: seq<Result<FileProcessResult, Error>>): (c: Counters)
    ensures c.processed <= |items| && c.deleted <= |items| && c.duplicates <= |items|
    decreases |items|
  {
    if items == [] then Counters(0, 0, 0)
    else Record(Tally(items[..|items| - 1]), items[|items| - 1])
  }

  /** Tally over one more outcome records it on top of the earlier counters. */
  lemma TallySnoc(items: seq<Result<FileProcessResult, Error>>, item: Result<FileProcessResult, Error>)
    ensures Tally(items + [item]) == Record(Tally(items), item)
  {
  }

  /** One of a result's three flags, and the counter that counts it. */
  datatype Flag = Uploaded | Deleted | Duplicated

  function Has(r: FileProcessResult, f: Flag): bool {
    match f
    case Uploaded => r.uploaded
    case Deleted => r.deleted
    case Duplicated => r.duplicated
  }

  function CounterOf(c: Counters, f: Flag): nat {
    match f
    case Uploaded => c.processed
    case Deleted => c.deleted
    case Duplicated => c.duplicates
  }

  /** The positions of the files whose result has flag `f` set. */
  ghost function Indices(items: seq<Result<FileProcessResult, Error>>, f: Flag): set<int> {
    set i | 0 <= i < |items| && items[i].Success? && Has(items[i].value, f)
  }

  /**
   * Each counter is the number of files whose result has its flag set;
   * files that threw are in no counter.
   */
  lemma {:induction false} TallyCountsFlags(items: seq<Result<FileProcessResult, Error>>, f: Flag)
    ensures CounterOf(Tally(items), f) == |Indices(items, f)|
    decreases |items|
  {
    if items != [] {
      var n := |items| - 1;
      var init := items[..n];
      var item := items[n];
      TallyCountsFlags(init, f);
      IndicesSnoc(items, f);
      assert Tally(items) == Record(Tally(init), item);
      match f
      case Uploaded =>
      case Deleted =>
      case Duplicated =>
    }
  }

  /** One more outcome adds its position to the flagged positions exactly when it has the flag. */
  lemma IndicesSnoc(items: seq<Result<FileProcessResult, Error>>, f: Flag)
    requires items != []
    ensures var n := |items| - 1;
      |Indices(items, f)| == |Indices(items[..n], f)|
        + (if items[n].Success? && Has(items[n].value, f) then 1 else 0)
  {
    var n := |items| - 1;
    var init := items[..n];
    var extra: set<int> := if items[n].Success? && Has(items[n].value, f) then {n} else {};
    forall i | i in Indices(items, f) ensures i in Indices(init, f) + extra {
      if i < n {
        assert init[i] == items[i];
      }
    }
    forall i | i in Indices(init, f) + extra ensures i in Indices(items, f) {
      if i < n {
        assert init[i] == items[i];
      }
    }
    assert Indices(items, f) == Indices(init, f) + extra;
    assert n !in Indices(init, f);
  }

  /** Every result among `items` that is not a thrown error is consistent. */
  predicate AllConsistent(items: seq<Result<FileProcessResult, Error>>) {
    forall i :: 0 <= i < |items| && items[i].Success? ==> Consistent(items[i].value)
  }

  /**
   * With consistent results no more files are deleted than uploaded, and no
   * file is counted both as uploaded and as a duplicate.
   */
  lemma {:induction false} TallyBounds(items: seq<Result<FileProcessResult, Error>>)
    requires AllConsistent(items)
    ensures Tally(items).deleted <= Tally(items).processed
    ensures Tally(items).processed + Tally(items).duplicates <= |items|
    decreases |items|
  {
    if items != [] {
      var n := |items| - 1;
      assert AllConsistent(items[..n]) by {
        assert forall i :: 0 <= i < n ==> items[..n][i] == items[i];
      }
      TallyBounds(items[..n]);
      assert items[n].Success? ==> Consistent(items[n].value);
    }
  }

  /** The deleted counter reaches the number of files only when every file was uploaded and deleted. */
  lemma {:induction false} AllDeleted(items: seq<Result<FileProcessResult, Error>>)
    requires AllConsistent(items)
    requires Tally(items).deleted == |items|
    ensures forall i :: 0 <= i < |items| ==> items[i] == Success(FileProcessResult(true, true, false))
    decreases |items|
  {
    if items != [] {
      var n := |items| - 1;
      var init := items[..n];
      assert forall i :: 0 <= i < n ==> init[i] == items[i];
      TallyBounds(init);
      assert items[n].Success? && items[n].value.deleted;
      AllDeleted(init);
    }
  }

  /**
   * A foreach that carries a state: the i-th file is taken in the state the
   * files before it left, and the outcomes are collected in order.
   */
  function Batch<S, R>(step: (S, Path, nat) -> (S, R), s: S, files: seq<Path>): (res: (S, seq<R>))
    ensures |res.1| == |files|
    decreases |files|
  {
    if files == [] then (s, [])
    else
      var n := |files| - 1;
      var (s1, items) := Batch(step, s, files[..n]);
      var (s2, r) := step(s1, files[n], n);
      (s2, items + [r])
  }

  /** A batch over one more file is the batch so far followed by one step. */
  lemma BatchSnoc<S, R>(step: (S, Path, nat) -> (S, R), s: S, files: seq<Path>, i: nat)
    requires i < |files|
    ensures var (s1, items) := Batch(step, s, files[..i]);
      var (s2, r) := step(s1, files[i], i);
      Batch(step, s, files[..i + 1]) == (s2, items + [r])
  {
    assert files[..i + 1][..i] == files[..i];
  }

  /** The outcomes of a batch over a prefix of the files are that prefix of its outcomes. */
  lemma {:induction false} BatchPrefix<S, R>(step: (S, Path, nat) -> (S, R), s: S, files: seq<Path>, j: nat)
    requires j <= |files|
    ensures Batch(step, s, files[..j]).1 == Batch(step, s, files).1[..j]
    decreases |files|
  {
    if j == |files| {
      assert files[..j] == files;
    } else {
      var n := |files| - 1;
      var all := Batch(step, s, files).1;
      assert all[..n] == Batch(step, s, files[..n]).1;
      BatchPrefix(step, s, files[..n], j);
      assert files[..n][..j] == files[..j];
      assert all[..j] == all[..n][..j];
    }
  }

  /** The body of the foreach: ProcessAsync of the i-th file in that file's environment. */
  function FileStep(o: AppOptions, env: nat -> FileEnv): (World, Path, nat) -> (World, Result<FileProcessResult, Error>) {
    (w: World, p: Path, i: nat) => ProcessStep(w, o, p, env(i))
  }

  /**
   * The foreach of FolderPollingService.cs:45-69: every scanned file, in order, processed in
   * the world the files before it left, whether or not they threw.
   */
  function ProcessAll(w: World, o: AppOptions, files: seq<Path>, env: nat -> FileEnv)
    : (res: (World, seq<Result<FileProcessResult, Error>>))
    ensures |res.1| == |files|
  {
    Batch(FileStep(o, env), w, files)
  }

  /** The batch over one more file is the batch so far followed by one ProcessStep. */
  lemma ProcessAllSnoc(w: World, o: AppOptions, files: seq<Path>, env: nat -> FileEnv, i: nat)
    requires i < |files|
    ensures var (w1, items) := ProcessAll(w, o, files[..i], env);
      var (w2, r) := ProcessStep(w1, o, files[i], env(i));
      ProcessAll(w, o, files[..i + 1], env) == (w2, items + [r])
  {
    BatchSnoc(FileStep(o, env), w, files, i);
  }

  /**
   * No file is skipped because an earlier one threw: the i-th outcome is
   * what processing the i-th file gives in the world the first i left.
   */
  lemma ProcessAllAttemptsEach(w: World, o: AppOptions, files: seq<Path>, env: nat -> FileEnv, i: nat)
    requires i < |files|
    ensures ProcessAll(w, o, files, env).1[i]
      == ProcessStep(ProcessAll(w, o, files[..i], env).0, o, files[i], env(i)).1
  {
    BatchPrefix(FileStep(o, env), w, files, i + 1);
    ProcessAllSnoc(w, o, files, env, i);
    assert ProcessAll(w, o, files, env).1[i] == ProcessAll(w, o, files[..i + 1], env).1[i];
  }

  /** All results of a batch are consistent; the remote side only grows. */
  lemma {:induction false} ProcessAllInvariants(w: World, o: AppOptions, files: seq<Path>, env: nat -> FileEnv)
    ensures AllConsistent(ProcessAll(w, o, files, env).1)
    ensures w.local.dirs <= ProcessAll(w, o, files, env).0.local.dirs
    ensures Grows(w.remote, ProcessAll(w, o, files, env).0.remote)
    ensures CreatedOnce(w.remote) ==> CreatedOnce(ProcessAll(w, o, files, env).0.remote)
    decreases |files|
  {
    if files != [] {
      var n := |files| - 1;
      ProcessAllInvariants(w, o, files[..n], env);
      var (w1, items) := ProcessAll(w, o, files[..n], env);
      ProcessResultConsistent(w1, o, files[n], env(n));
      ProcessGrowsRemote(w1, o, files[n], env(n));
      GrowsTransitive(w.remote, w1.remote, ProcessAll(w, o, files, env).0.remote);
    }
  }

  /** A batch in which every file was uploaded and deleted removes exactly the scanned files. */
  lemma {:induction false} AllDeletedRemovesScanned(w: World, o: AppOptions, files: seq<Path>, env: nat -> FileEnv)
    requires forall i :: 0 <= i < |files| ==>
      ProcessAll(w, o, files, env).1[i] == Success(FileProcessResult(true, true, false))
    ensures ProcessAll(w, o, files, env).0.local.files == w.local.files - set p | p in files
    decreases |files|
  {
    if files != [] {
      var n := |files| - 1;
      var (w1, items) := ProcessAll(w, o, files[..n], env);
      var (w2, r) := ProcessStep(w1, o, files[n], env(n));
      var all := items + [r];
      assert ProcessAll(w, o, files, env) == (w2, all);
      assert |items| == n;
      assert forall i :: 0 <= i < n ==> all[i] == items[i];
      assert all[n] == r;
      AllDeletedRemovesScanned(w, o, files[..n], env);
      UploadedAndDeletedRemovesFile(w1, o, files[n], env(n));
      assert (set p | p in files) == (set p | p in files[..n]) + {files[n]} by {
        assert files == files[..n] + [files[n]];
      }
    }
  }

  /** What the environment decides during one cycle. */
  datatype CycleEnv = CycleEnv(
    entries: seq<Path>,           // the order in which the file system lists paths
    createFolderFails: bool,      // Directory.CreateDirectory of the source folder throws
    enumerateFails: bool,         // the enumeration throws
    files: nat -> FileEnv)        // what happens while the i-th file is processed

  /** The four summary lines: found, processed, deleted, duplicates. */
  datatype CycleReport = CycleReport(fileFound: nat, counters: Counters)

  /** How a cycle ended: with its summary, or with an error caught at cycle level. */
  datatype CycleOutcome = Completed(report: CycleReport) | Aborted(error: Error)

  /** A cycle's outcome and the delay that follows it, in seconds. */
  datatype CycleLog = CycleLog(outcome: CycleOutcome, delaySeconds: int32)

  /** One pass of the loop body up to the delay (FolderPollingService.cs:30-79). */
  function CycleStep(w: World, o: AppOptions, env: CycleEnv, matches: (string, string) -> bool)
    : (r: (World, CycleLog))
    ensures r.1.delaySeconds == NormalizeSettings(o).pollingInterval
    ensures var folder := FolderOf(NormalizeSettings(o).sourceFolder);
      r.1.outcome.Completed? <==>
        && folder != [] && (folder in w.local.dirs || !FileAt(w.local, folder))
        && !env.createFolderFails && !env.enumerateFails
    ensures r.1.outcome.Aborted? ==> r.0.remote == w.remote && r.0.local.files == w.local.files
    ensures r.1.outcome.Completed? ==> r.1.outcome.report.fileFound <= |env.entries|
  {
    var s := NormalizeSettings(o);
    var folder := FolderOf(s.sourceFolder);
    var (l1, made) := CreateDirectoryStep(w.local, folder, env.createFolderFails);
    if made.Fail? then (World(l1, w.remote), CycleLog(Aborted(made.error), s.pollingInterval))
    else
      var scanned := Scan(l1, env.entries, folder, Some(s.searchPattern), matches, env.enumerateFails);
      if scanned.Failure? then (World(l1, w.remote), CycleLog(Aborted(scanned.error), s.pollingInterval))
      else
        var (w2, items) := ProcessAll(World(l1, w.remote), o, scanned.value, env.files);
        (w2, CycleLog(Completed(CycleReport(|scanned.value|, Tally(items))), s.pollingInterval))
  }

  /**
   * A completed cycle's counters: none exceeds the files found, no more are
   * deleted than uploaded, and uploads and duplicates together do not
   * exceed the files found. The delay is at least a second.
   */
  lemma CycleReportBounds(w: World, o: AppOptions, env: CycleEnv, matches: (string, string) -> bool)
    ensures CycleStep(w, o, env, matches).1.delaySeconds >= 1
    ensures match CycleStep(w, o, env, matches).1.outcome
      case Aborted(_) => true
      case Completed(report) =>
        var c := report.counters;
        && c.deleted <= c.processed
        && c.processed + c.duplicates <= report.fileFound
        && c.duplicates <= report.fileFound
  {
    var s := NormalizeSettings(o);
    var folder := FolderOf(s.sourceFolder);
    var (l1, made) := CreateDirectoryStep(w.local, folder, env.createFolderFails);
    var scanned := Scan(l1, env.entries, folder, Some(s.searchPattern), matches, env.enumerateFails);
    if made.Pass? && scanned.Success? {
      ProcessAllInvariants(World(l1, w.remote), o, scanned.value, env.files);
      TallyBounds(ProcessAll(World(l1, w.remote), o, scanned.value, env.files).1);
    }
  }

  /** A cycle only grows the remote side. */
  lemma CycleGrowsRemote(w: World, o: AppOptions, env: CycleEnv, matches: (string, string) -> bool)
    ensures Grows(w.remote, CycleStep(w, o, env, matches).0.remote)
    ensures CreatedOnce(w.remote) ==> CreatedOnce(CycleStep(w, o, env, matches).0.remote)
  {
    var s := NormalizeSettings(o);
    var folder := FolderOf(s.sourceFolder);
    var (l1, made) := CreateDirectoryStep(w.local, folder, env.createFolderFails);
    var scanned := Scan(l1, env.entries, folder, Some(s.searchPattern), matches, env.enumerateFails);
    if made.Pass? && scanned.Success? {
      ProcessAllInvariants(World(l1, w.remote), o, scanned.value, env.files);
    }
  }

  /**
   * A completed cycle reports as found exactly the paths the scan returned,
   * and each counter is the number of those files whose result has its flag
   * set.
   */
  lemma CycleCountsFlags(w: World, o: AppOptions, env: CycleEnv, matches: (string, string) -> bool)
    requires CycleStep(w, o, env, matches).1.outcome.Completed?
    ensures var s := NormalizeSettings(o);
      var folder := FolderOf(s.sourceFolder);
      var l1 := CreateDirectoryStep(w.local, folder, env.createFolderFails).0;
      var scanned := Scan(l1, env.entries, folder, Some(s.searchPattern), matches, env.enumerateFails);
      var report := CycleStep(w, o, env, matches).1.outcome.report;
      && scanned.Success?
      && report.fileFound == |scanned.value|
      && (forall f :: CounterOf(report.counters, f)
            == |Indices(ProcessAll(World(l1, w.remote), o, scanned.value, env.files).1, f)|)
  {
    var s := NormalizeSettings(o);
    var folder := FolderOf(s.sourceFolder);
    var l1 := CreateDirectoryStep(w.local, folder, env.createFolderFails).0;
    var scanned := Scan(l1, env.entries, folder, Some(s.searchPattern), matches, env.enumerateFails).value;
    var items := ProcessAll(World(l1, w.remote), o, scanned, env.files).1;
    assert CycleStep(w, o, env, matches).1.outcome.report == CycleReport(|scanned|, Tally(items));
    forall f: Flag ensures CounterOf(Tally(items), f) == |Indices(items, f)| {
      TallyCountsFlags(items, f);
    }
  }

  /**
   * A cycle that saw every file of the world and deleted every file it found
   * leaves no file directly in the source folder that matches the pattern.
   */
  lemma FirstCycleClearsFolder(w: World, o: AppOptions, env: CycleEnv, matches: (string, string) -> bool)
    requires forall p :: p in w.local.files ==> p in env.entries
    requires CycleStep(w, o, env, matches).1.outcome.Completed?
    requires var report := CycleStep(w, o, env, matches).1.outcome.report;
      report.counters.deleted == report.fileFound
    ensures FolderOf(NormalizeSettings(o).sourceFolder) in CycleStep(w, o, env, matches).0.local.dirs
    ensures var s := NormalizeSettings(o);
      forall p :: p in CycleStep(w, o, env, matches).0.local.files ==>
        !(p.dir == FolderOf(s.sourceFolder) && matches(s.searchPattern, p.name))
  {
    var s := NormalizeSettings(o);
    var folder := FolderOf(s.sourceFolder);
    EffectivePatternIdempotent(o.searchPattern);
    var (l1, _) := CreateDirectoryStep(w.local, folder, env.createFolderFails);
    var scanned := Scan(l1, env.entries, folder, Some(s.searchPattern), matches, env.enumerateFails).value;
    var start := World(l1, w.remote);
    var (w2, items) := ProcessAll(start, o, scanned, env.files);
    assert CycleStep(w, o, env, matches).0 == w2;
    assert CycleStep(w, o, env, matches).1.outcome.report == CycleReport(|scanned|, Tally(items));
    ProcessAllInvariants(start, o, scanned, env.files);
    AllDeleted(items);
    AllDeletedRemovesScanned(start, o, scanned, env.files);
    forall p | p in w2.local.files
      ensures !(p.dir == folder && matches(s.searchPattern, p.name))
    {
      assert p in l1.files && p !in scanned;
    }
  }

  /** A cycle over a folder in which no file matches the pattern finds nothing and counts nothing. */
  lemma NothingToFind(w: World, o: AppOptions, env: CycleEnv, matches: (string, string) -> bool)
    requires FolderOf(NormalizeSettings(o).sourceFolder) != []
    requires FolderOf(NormalizeSettings(o).sourceFolder) in w.local.dirs
    requires !env.createFolderFails && !env.enumerateFails
    requires var s := NormalizeSettings(o);
      forall p :: p in w.local.files ==>
        !(p.dir == FolderOf(s.sourceFolder) && matches(s.searchPattern, p.name))
    ensures CycleStep(w, o, env, matches).1.outcome == Completed(CycleReport(0, Counters(0, 0, 0)))
  {
    var s := NormalizeSettings(o);
    var folder := FolderOf(s.sourceFolder);
    EffectivePatternIdempotent(o.searchPattern);
    var (l1, _) := CreateDirectoryStep(w.local, folder, false);
    var scanned := Scan(l1, env.entries, folder, Some(s.searchPattern), matches, false);
    assert scanned.Success?;
    TopLevelMatchesNone(l1.files, env.entries, folder, s.searchPattern, matches);
    assert ProcessAll(World(l1, w.remote), o, [], env.files) == (World(l1, w.remote), []);
    assert Tally([]) == Counters(0, 0, 0);
  }

  /**
   * After a cycle that saw every file and deleted every file it found, a
   * second cycle over the same folder finds nothing and counts nothing.
   */
  lemma SecondCycleFindsNothing(
    w: World, o: AppOptions, first: CycleEnv, second: CycleEnv, matches: (string, string) -> bool)
    requires forall p :: p in w.local.files ==> p in first.entries
    requires CycleStep(w, o, first, matches).1.outcome.Completed?
    requires var report := CycleStep(w, o, first, matches).1.outcome.report;
      report.counters.deleted == report.fileFound
    requires !second.createFolderFails && !second.enumerateFails
    ensures CycleStep(CycleStep(w, o, first, matches).0, o, second, matches).1.outcome
      == Completed(CycleReport(0, Counters(0, 0, 0)))
  {
    FirstCycleClearsFolder(w, o, first, matches);
    NothingToFind(CycleStep(w, o, first, matches).0, o, second, matches);
  }

  /** What the environment does during one turn of the loop. */
  datatype Tick = Tick(
    options: AppOptions,          // the options' current value at the start of the turn
    env: CycleEnv,
    cancelAtCheck: bool,          // cancellation requested when the while condition is tested
    cancelDuringDelay: bool)      // cancellation requested before or during the delay

  /**
   * How ExecuteAsync leaves its loop: cancellation seen at the loop check,
   * a cancelled delay, or a delay Task.Delay refuses (an exception the
   * loop does not catch). ScheduleEnded stands for a run still going.
   */
  datatype ExitReason = CancelledAtCheck | CancelledDuringDelay | DelayOutOfRange | ScheduleEnded

  /**
   * The longest delay, in whole seconds, Task.Delay accepts: .NET (6 and
   * later) rejects a TimeSpan above 0xFFFF_FFFE milliseconds.
   */
  const MaxDelaySeconds: int := 0xFFFF_FFFE / 1000

  /** Task.Delay(TimeSpan.FromSeconds(seconds), token) throws ArgumentOutOfRangeException. */
  predicate DelayTooLong(seconds: int32) {
    seconds as int > MaxDelaySeconds
  }

  /**
   * ExecuteAsync over a finite schedule of turns: each turn runs a cycle
   * unless cancellation is seen at the loop check; after the cycle, a delay
   * Task.Delay refuses ends the loop with its exception, whether or not
   * cancellation was requested, and a cancelled delay returns.
   */
  function ExecuteStep(w: World, ticks: seq<Tick>, matches: (string, string) -> bool)
    : (r: (World, seq<CycleLog>, ExitReason))
    ensures |r.1| <= |ticks|
    ensures r.2 == ScheduleEnded ==> |r.1| == |ticks|
    decreases |ticks|
  {
    if ticks == [] then (w, [], ScheduleEnded)
    else if ticks[0].cancelAtCheck then (w, [], CancelledAtCheck)
    else
      var (w1, log) := CycleStep(w, ticks[0].options, ticks[0].env, matches);
      if DelayTooLong(log.delaySeconds) then (w1, [log], DelayOutOfRange)
      else if ticks[0].cancelDuringDelay then (w1, [log], CancelledDuringDelay)
      else
        var (w2, logs, exit) := ExecuteStep(w1, ticks[1..], matches);
        (w2, [log] + logs, exit)
  }

  /** A run's result with the logs of the cycles already run put in front. */
  function After(logs: seq<CycleLog>, run: (World, seq<CycleLog>, ExitReason)): (World, seq<CycleLog>, ExitReason) {
    (run.0, logs + run.1, run.2)
  }

  /** A turn after which the loop does not go on to another. */
  predicate Stops(t: Tick) {
    t.cancelAtCheck || t.cancelDuringDelay || DelayTooLong(NormalizeSettings(t.options).pollingInterval)
  }

  /** The number of turns before the first one after which the loop stops. */
  function FirstStop(ticks: seq<Tick>): (n: nat)
    ensures n <= |ticks|
    ensures n < |ticks| ==> Stops(ticks[n])
    ensures forall i :: 0 <= i < n ==> !Stops(ticks[i])
    decreases |ticks|
  {
    if ticks == [] || Stops(ticks[0]) then 0
    else 1 + FirstStop(ticks[1..])
  }

  /**
   * The loop stops only for cancellation or for a delay Task.Delay refuses:
   * a cycle that ends with an error is followed by the delay and the next
   * cycle like any other, so how many cycles run depends on the
   * cancellation signals and the configured intervals alone.
   */
  lemma {:induction false} ExecuteStopsOnlyWhenCancelledOrRejected(w: World, ticks: seq<Tick>, matches: (string, string) -> bool)
    ensures var (_, logs, exit) := ExecuteStep(w, ticks, matches);
      var n := FirstStop(ticks);
      && (n == |ticks| ==> |logs| == n && exit == ScheduleEnded)
      && (n < |ticks| && ticks[n].cancelAtCheck ==> |logs| == n && exit == CancelledAtCheck)
      && (n < |ticks| && !ticks[n].cancelAtCheck
          && DelayTooLong(NormalizeSettings(ticks[n].options).pollingInterval) ==>
            |logs| == n + 1 && exit == DelayOutOfRange)
      && (n < |ticks| && !ticks[n].cancelAtCheck
          && !DelayTooLong(NormalizeSettings(ticks[n].options).pollingInterval) ==>
            |logs| == n + 1 && exit == CancelledDuringDelay)
    decreases |ticks|
  {
    if ticks != [] && !Stops(ticks[0]) {
      var (w1, _) := CycleStep(w, ticks[0].options, ticks[0].env, matches);
      ExecuteStopsOnlyWhenCancelledOrRejected(w1, ticks[1..], matches);
    }
  }

  /** A turn that passes the loop check logs its cycle, and the run goes on after it unless it stops. */
  lemma ExecuteHead(w: World, ticks: seq<Tick>, matches: (string, string) -> bool)
    requires ticks != [] && !ticks[0].cancelAtCheck
    ensures var (w1, log) := CycleStep(w, ticks[0].options, ticks[0].env, matches);
      ExecuteStep(w, ticks, matches).1
        == [log] + (if Stops(ticks[0]) then [] else ExecuteStep(w1, ticks[1..], matches).1)
  {
  }

  /** The i-th cycle of a run waits for the interval of the options the i-th turn read. */
  lemma {:induction false} ExecuteDelayAt(w: World, ticks: seq<Tick>, matches: (string, string) -> bool, i: nat)
    requires i < |ExecuteStep(w, ticks, matches).1|
    ensures ExecuteStep(w, ticks, matches).1[i].delaySeconds
      == NormalizeSettings(ticks[i].options).pollingInterval
    decreases i
  {
    ExecuteHead(w, ticks, matches);
    if i > 0 {
      var w1 := CycleStep(w, ticks[0].options, ticks[0].env, matches).0;
      ExecuteDelayAt(w1, ticks[1..], matches, i - 1);
      assert ticks[i] == ticks[1..][i - 1];
    }
  }

  /** Every cycle of a run waits for the interval of the options its turn read. */
  lemma ExecuteDelays(w: World, ticks: seq<Tick>, matches: (string, string) -> bool)
    ensures var logs := ExecuteStep(w, ticks, matches).1;
      forall i :: 0 <= i < |logs| ==>
        logs[i].delaySeconds == NormalizeSettings(ticks[i].options).pollingInterval
  {
    forall i | 0 <= i < |ExecuteStep(w, ticks, matches).1|
      ensures ExecuteStep(w, ticks, matches).1[i].delaySeconds
        == NormalizeSettings(ticks[i].options).pollingInterval
    {
      ExecuteDelayAt(w, ticks, matches, i);
    }
  }

  /** Every cycle of a run waits at least one second before the next. */
  lemma EveryDelayAtLeastOneSecond(w: World, ticks: seq<Tick>, matches: (string, string) -> bool)
    ensures forall i :: 0 <= i < |ExecuteStep(w, ticks, matches).1| ==>
      ExecuteStep(w, ticks, matches).1[i].delaySeconds >= 1
  {
    ExecuteDelays(w, ticks, matches);
  }

  /**
   * Every delay the loop waits through is one Task.Delay accepts: only the
   * last cycle of a run that ended with DelayOutOfRange has a delay out of
   * range.
   */
  lemma OnlyTheLastDelayIsRejected(w: World, ticks: seq<Tick>, matches: (string, string) -> bool)
    ensures var r := ExecuteStep(w, ticks, matches);
      forall i :: 0 <= i < |r.1| - 1 ==> !DelayTooLong(r.1[i].delaySeconds)
    ensures var r := ExecuteStep(w, ticks, matches);
      |r.1| > 0 ==> (DelayTooLong(r.1[|r.1| - 1].delaySeconds) <==> r.2 == DelayOutOfRange)
  {
    ExecuteDelays(w, ticks, matches);
    ExecuteStopsOnlyWhenCancelledOrRejected(w, ticks, matches);
    var n := FirstStop(ticks);
    var (_, logs, exit) := ExecuteStep(w, ticks, matches);
    assert |logs| == n || (n < |ticks| && |logs| == n + 1);
    assert forall i :: 0 <= i < n ==> !DelayTooLong(NormalizeSettings(ticks[i].options).pollingInterval);
  }

  /**
   * Over a whole run the flag is never reset, no blob is overwritten, and
   * the create count stays in step with the flag.
   */
  lemma {:induction false} ExecuteGrowsRemote(w: World, ticks: seq<Tick>, matches: (string, string) -> bool)
    ensures Grows(w.remote, ExecuteStep(w, ticks, matches).0.remote)
    ensures CreatedOnce(w.remote) ==> CreatedOnce(ExecuteStep(w, ticks, matches).0.remote)
    decreases |ticks|
  {
    if ticks != [] && !ticks[0].cancelAtCheck {
      var (w1, _) := CycleStep(w, ticks[0].options, ticks[0].env, matches);
      CycleGrowsRemote(w, ticks[0].options, ticks[0].env, matches);
      if !Stops(ticks[0]) {
        ExecuteGrowsRemote(w1, ticks[1..], matches);
        GrowsTransitive(w.remote, w1.remote, ExecuteStep(w, ticks, matches).0.remote);
      }
    }
  }

  /**
   * From a freshly constructed gateway, however many cycles run and
   * whatever the backend answers, the container is created successfully at
   * most once, and blobs that were there before are never changed.
   */
  lemma CreateSucceedsAtMostOnceInAnyRun(
    local: Local, blobs: map<string, Blob>, ticks: seq<Tick>, matches: (string, string) -> bool)
    ensures var r := ExecuteStep(World(local, Fresh(blobs)), ticks, matches).0.remote;
      && r.creates <= 1
      && (r.initialized <==> r.creates == 1)
      && forall k :: k in blobs ==> k in r.blobs && r.blobs[k] == blobs[k]
  {
    ExecuteGrowsRemote(World(local, Fresh(blobs)), ticks, matches);
  }

  /** The polling service: its processor reaches the file system and the gateway. */
  class FolderPollingService {
    const processor: FileProcessor

    constructor (processor: FileProcessor)
      ensures this.processor == processor
    {
      this.processor := processor;
    }

    /** One cycle of the loop body, up to the delay. */
    method RunCycle(o: AppOptions, env: CycleEnv, matches: (string, string) -> bool) returns (log: CycleLog)
      requires processor.storage.Valid()
      modifies processor.fs, processor.storage
      ensures processor.storage.Valid()
      ensures (processor.Current(), log) == CycleStep(old(processor.Current()), o, env, matches)
    {
      var s := NormalizeSettings(o);
      var folder := FolderOf(s.sourceFolder);
      var made := processor.fs.CreateDirectory(folder, env.createFolderFails);
      if made.Fail? {
        return CycleLog(Aborted(made.error), s.pollingInterval);
      }
      var scanned := Scan(processor.fs.State(), env.entries, folder, Some(s.searchPattern), matches, env.enumerateFails);
      if scanned.Failure? {
        return CycleLog(Aborted(scanned.error), s.pollingInterval);
      }
      var files := scanned.value;
      var fileFound := |files|;
      var counters := ProcessBatch(files, o, env.files);
      return CycleLog(Completed(CycleReport(fileFound, counters)), s.pollingInterval);
    }

    /**
     * The foreach of FolderPollingService.cs:45-69: each file is processed in turn; a file
     * whose processing throws is logged and adds to no counter, and the
     * next file is attempted.
     */
    method ProcessBatch(files: seq<Path>, o: AppOptions, env: nat -> FileEnv) returns (counters: Counters)
      requires processor.storage.Valid()
      modifies processor.fs, processor.storage
      ensures processor.storage.Valid()
      ensures processor.Current() == ProcessAll(old(processor.Current()), o, files, env).0
      ensures counters == Tally(ProcessAll(old(processor.Current()), o, files, env).1)
    {
      var processed: nat, deleted: nat, duplicates: nat := 0, 0, 0;
      ghost var start := processor.Current();
      ghost var items: seq<Result<FileProcessResult, Error>> := [];
      for i := 0 to |files|
        invariant processor.storage.Valid()
        invariant (processor.Current(), items) == ProcessAll(start, o, files[..i], env)
        invariant Counters(processed, deleted, duplicates) == Tally(items)
      {
        var result := processor.Process(files[i], o, env(i));
        ProcessAllSnoc(start, o, files, env, i);
        assert (processor.Current(), items + [result]) == ProcessAll(start, o, files[..i + 1], env);
        TallySnoc(items, result);
        if result.Success? {
          if result.value.uploaded {
            processed := processed + 1;
          }
          if result.value.deleted {
            deleted := deleted + 1;
          }
          if result.value.duplicated {
            duplicates := duplicates + 1;
          }
        }
        items := items + [result];
      }
      assert files[..|files|] == files;
      counters := Counters(processed, deleted, duplicates);
    }

    /** ExecuteAsync, over the turns `ticks` the environment schedules. */
    method Execute(ticks: seq<Tick>, matches: (string, string) -> bool)
      returns (logs: seq<CycleLog>, exit: ExitReason)
      requires processor.storage.Valid()
      modifies processor.fs, processor.storage
      ensures processor.storage.Valid()
      ensures (processor.Current(), logs, exit) == ExecuteStep(old(processor.Current()), ticks, matches)
    {
      ghost var w0 := processor.Current();
      logs := [];
      var i := 0;
      assert ticks[i..] == ticks;
      assert [] + ExecuteStep(w0, ticks, matches).1 == ExecuteStep(w0, ticks, matches).1;
      while i < |ticks| && !ticks[i].cancelAtCheck
        invariant 0 <= i <= |ticks|
        invariant processor.storage.Valid()
        invariant ExecuteStep(w0, ticks, matches) == After(logs, ExecuteStep(processor.Current(), ticks[i..], matches))
        decreases |ticks| - i
      {
        ghost var before := processor.Current();
        var log := RunCycle(ticks[i].options, ticks[i].env, matches);
        assert ticks[i..][0] == ticks[i] && ticks[i..][1..] == ticks[i + 1..];
        if DelayTooLong(log.delaySeconds) {
          logs := logs + [log];
          return logs, DelayOutOfRange;
        }
        if ticks[i].cancelDuringDelay {
          logs := logs + [log];
          return logs, CancelledDuringDelay;
        }
        ghost var rest := ExecuteStep(processor.Current(), ticks[i + 1..], matches);
        assert ExecuteStep(before, ticks[i..], matches) == After([log], rest);
        assert logs + ([log] + rest.1) == (logs + [log]) + rest.1;
        logs := logs + [log];
        i := i + 1;
      }
      exit := if i < |ticks| then CancelledAtCheck else ScheduleEnded;
      assert i < |ticks| ==> ticks[i..][0] == ticks[i];
      assert logs + [] == logs;
    }
  }
}
