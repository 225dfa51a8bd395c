/**
 * A segment model of file-system paths, standing for the parts of
 * System.IO.Path the agent uses: Combine, GetFileName,
 * GetFileNameWithoutExtension and GetExtension.
 */
module Paths {
  import opened Wrappers

  /** A directory as its list of segments; [] is the empty path "". */
  type Dir = seq<string>

  /** A file: the directory that holds it and its file name. */
  datatype Path = Path(dir: Dir, name: string)

  /**
   * A configured folder string as a directory: the empty string is the
   * empty path, any other string one opaque segment.
   */
  function FolderOf(folder: string): (r: Dir)
    ensures r == [] <==> folder == ""
    ensures |r| <= 1 && (r != [] ==> r[0] == folder)
  {
    if folder == "" then [] else [folder]
  }

  /** Path.Combine(dir, segment): an empty segment leaves `dir` as it is. */
  function Combine(dir: Dir, segment: string): (r: Dir)
    ensures |r| == |dir| + (if segment == "" then 0 else 1)
    ensures r[..|dir|] == dir
    ensures segment != "" ==> r[|dir|] == segment
  {
    if segment == "" then dir else dir + [segment]
  }

  /** Path.GetFileName: the path with its directory stripped. */
  function GetFileName(p: Path): (r: string)
    ensures Path(p.dir, r) == p
  {
    p.name
  }

  /** string.LastIndexOf(c). */
  function LastIndexOf(s: string, c: char): (r: Option<nat>)
    ensures r.Some? ==> r.value < |s| && s[r.value] == c
    ensures r.Some? ==> forall j :: r.value < j < |s| ==> s[j] != c
    ensures r.None? ==> forall j :: 0 <= j < |s| ==> s[j] != c
  {
    if s == [] then None
    else if s[|s| - 1] == c then Some(|s| - 1)
    else LastIndexOf(s[..|s| - 1], c)
  }

  /** The last `c` of `s + t` is the last one of `t` when `t` has one, and otherwise the last of `s`. */
  lemma {:induction false} LastIndexOfAppend(s: string, t: string, c: char)
    ensures LastIndexOf(s + t, c) == match LastIndexOf(t, c)
      case Some(k) => Some(|s| + k)
      case None => LastIndexOf(s, c)
    decreases |t|
  {
    if t == [] {
      assert s + t == s;
    } else {
      var n := |t| - 1;
      assert (s + t)[..|s + t| - 1] == s + t[..n];
      LastIndexOfAppend(s, t[..n], c);
    }
  }

  /** Path.GetFileNameWithoutExtension: the name up to its last period. */
  function GetFileNameWithoutExtension(name: string): (r: string)
    ensures |r| <= |name| && r == name[..|r|]
    ensures |r| < |name| ==> name[|r|] == '.' && forall j :: |r| < j < |name| ==> name[j] != '.'
    ensures |r| == |name| ==> forall j :: 0 <= j < |name| ==> name[j] != '.'
  {
    match LastIndexOf(name, '.')
    case None => name
    case Some(i) => name[..i]
  }

  /**
   * Path.GetExtension: from the last period on, or "" when there is no
   * period or the period is the name's last character.
   */
  function GetExtension(name: string): (r: string)
    ensures |r| <= |name| && r == name[|name| - |r|..]
    ensures r != "" ==> |r| >= 2 && r[0] == '.' && forall j :: 0 < j < |r| ==> r[j] != '.'
    ensures r == "" ==> (forall j :: 0 <= j < |name| ==> name[j] != '.') || name[|name| - 1] == '.'
  {
    match LastIndexOf(name, '.')
    case None => ""
    case Some(i) => if i == |name| - 1 then "" else name[i..]
  }

  /**
   * The stem and the extension put the name back together, except for a
   * name that ends in a period: that period belongs to neither.
   */
  lemma StemAndExtension(name: string)
    ensures |name| > 0 && name[|name| - 1] == '.' ==>
      GetFileNameWithoutExtension(name) + "." == name && GetExtension(name) == ""
    ensures (|name| == 0 || name[|name| - 1] != '.') ==>
      GetFileNameWithoutExtension(name) + GetExtension(name) == name
  {
    match LastIndexOf(name, '.')
    case None =>
    case Some(i) =>
      assert name[..i] + name[i..] == name;
  }
}
