/**
 * FileScanner.cs: the files of one folder, not its sub-folders, whose names
 * match a search pattern, with "*.pdf" standing in for a blank pattern.
 */
module Scanning {
  import opened Wrappers
  import opened Failures
  import opened Text
  import opened Paths
  import opened LocalFolder

  const DefaultPattern := "*.pdf"

  /** The pattern Scan searches with. */
  function EffectivePattern(pattern: Option<string>): (r: string)
    ensures IsNullOrWhiteSpace(pattern) ==> r == DefaultPattern
    ensures !IsNullOrWhiteSpace(pattern) ==> r == pattern.value
    ensures !IsNullOrWhiteSpace(Some(r))
  {
    assert !IsWhiteSpace(DefaultPattern[0]);
    if IsNullOrWhiteSpace(pattern) then DefaultPattern else pattern.value
  }

  /** Defaulting a pattern a second time changes nothing. */
  lemma EffectivePatternIdempotent(pattern: Option<string>)
    ensures EffectivePattern(Some(EffectivePattern(pattern))) == EffectivePattern(pattern)
  {
  }

  /**
   * The entries of `entries`, in their order, that are files directly in
   * `folder` whose names `matches` the pattern. `entries` is the order in
   * which the file system enumerates paths; `matches` stands for its glob
   * matcher.
   */
  function TopLevelMatches(
    files: map<Path, Bytes>, entries: seq<Path>, folder: Dir,
    pattern: string, matches: (string, string) -> bool): (r: seq<Path>)
    ensures |r| <= |entries|
    ensures forall p :: p in r <==>
      p in entries && p in files && p.dir == folder && matches(pattern, p.name)
  {
    if entries == [] then []
    else
      var rest := TopLevelMatches(files, entries[..|entries| - 1], folder, pattern, matches);
      var p := entries[|entries| - 1];
      assert entries == entries[..|entries| - 1] + [p];
      if p in files && p.dir == folder && matches(pattern, p.name) then rest + [p] else rest
  }

  /** A folder none of whose files matches the pattern lists nothing. */
  lemma {:induction false} TopLevelMatchesNone(
    files: map<Path, Bytes>, entries: seq<Path>, folder: Dir,
    pattern: string, matches: (string, string) -> bool)
    requires forall p :: p in files ==> !(p.dir == folder && matches(pattern, p.name))
    ensures TopLevelMatches(files, entries, folder, pattern, matches) == []
    decreases |entries|
  {
    if entries != [] {
      TopLevelMatchesNone(files, entries[..|entries| - 1], folder, pattern, matches);
    }
  }

  /** No path occurs twice. */
  predicate Distinct(s: seq<Path>) {
    forall i, j :: 0 <= i < j < |s| ==> s[i] != s[j]
  }

  /** Listing distinct entries lists no file twice. */
  lemma {:induction false} TopLevelMatchesDistinct(
    files: map<Path, Bytes>, entries: seq<Path>, folder: Dir,
    pattern: string, matches: (string, string) -> bool)
    requires Distinct(entries)
    ensures Distinct(TopLevelMatches(files, entries, folder, pattern, matches))
  {
    if entries != [] {
      var init := entries[..|entries| - 1];
      TopLevelMatchesDistinct(files, init, folder, pattern, matches);
      var p := entries[|entries| - 1];
      assert p !in init;
      var rest := TopLevelMatches(files, init, folder, pattern, matches);
      assert p !in rest;
      var r := TopLevelMatches(files, entries, folder, pattern, matches);
      assert r == if p in files && p.dir == folder && matches(pattern, p.name) then rest + [p] else rest;
      forall i, j | 0 <= i < j < |r| ensures r[i] != r[j] {
        if j < |rest| {
          assert r[i] == rest[i] && r[j] == rest[j];
        } else {
          assert r[i] == rest[i] && r[j] == p;
          assert rest[i] in rest;
        }
      }
    }
  }

  /**
   * Directory.EnumerateFiles(folder, pattern), materialised: throws when the
   * folder does not exist or the environment makes the enumeration fail.
   */
  function EnumerateFiles(
    l: Local, entries: seq<Path>, folder: Dir, pattern: string,
    matches: (string, string) -> bool, fails: bool): (r: Result<seq<Path>, Error>)
    ensures r.Success? <==> !fails && folder in l.dirs
    ensures r.Success? ==> |r.value| <= |entries|
    ensures r.Success? ==> r.value == TopLevelMatches(l.files, entries, folder, pattern, matches)
  {
    if fails || folder !in l.dirs then Failure(IoError(DirectoryEnumerate))
    else Success(TopLevelMatches(l.files, entries, folder, pattern, matches))
  }

  /**
   * FileScanner.Scan: every path returned is a file directly inside `folder`
   * matching the effective pattern, and when `entries` covers the folder's
   * files every such file is returned. Being a function, it changes nothing.
   */
  function Scan(
    l: Local, entries: seq<Path>, folder: Dir, pattern: Option<string>,
    matches: (string, string) -> bool, fails: bool): (r: Result<seq<Path>, Error>)
    ensures r.Success? <==> !fails && folder in l.dirs
    ensures r.Success? ==> forall p :: p in r.value ==>
      p in l.files && p.dir == folder && matches(EffectivePattern(pattern), p.name)
    ensures r.Success? && (forall p :: p in l.files ==> p in entries) ==>
      forall p :: p in l.files && p.dir == folder && matches(EffectivePattern(pattern), p.name) ==>
        p in r.value
  {
    EnumerateFiles(l, entries, folder, EffectivePattern(pattern), matches, fails)
  }
}
