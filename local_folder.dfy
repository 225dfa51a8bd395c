/**
 * The local file system the agent watches, as a value and as an object:
 * the calls of System.IO.File and System.IO.Directory the processor and the
 * polling loop make, each able to throw when the environment says so.
 */
module LocalFolder {
  import opened Wrappers
  import opened Failures
  import opened Paths

  type Bytes = seq<bv8>

  /** The files, each with its contents, and the directories that exist. */
  datatype Local = Local(files: map<Path, Bytes>, dirs: set<Dir>)

  /** Whether a file stands where the directory `d` would be: its last segment, as a name in its parent. */
  predicate FileAt(l: Local, d: Dir) {
    d != [] && Path(d[..|d| - 1], d[|d| - 1]) in l.files
  }

  /** Whether a directory stands where the file `p` would be. */
  predicate DirectoryAt(l: Local, p: Path) {
    p.dir + [p.name] in l.dirs
  }

  /**
   * Directory.CreateDirectory: the empty path is refused; an existing
   * directory is returned as it is; a file standing at the path makes it
   * throw. Files are never touched.
   */
  function CreateDirectoryStep(l: Local, d: Dir, fails: bool): (res: (Local, Outcome<Error>))
    ensures res.0.files == l.files
    ensures res.1.Pass? <==> d != [] && !fails && (d in l.dirs || !FileAt(l, d))
    ensures res.1.Pass? ==> res.0.dirs == l.dirs + {d}
    ensures res.1.Fail? ==> res.0 == l
  {
    if d == [] || fails || (d !in l.dirs && FileAt(l, d)) then (l, Fail(IoError(DirectoryCreate)))
    else (l.(dirs := l.dirs + {d}), Pass)
  }

  /** File.Delete: deleting a file that is not there is no error. */
  function DeleteStep(l: Local, p: Path, fails: bool): (res: (Local, Outcome<Error>))
    ensures res.0.dirs == l.dirs
    ensures res.1.Pass? <==> !fails
    ensures res.1.Pass? ==> forall q :: q in res.0.files <==> q in l.files && q != p
    ensures forall q :: q in res.0.files ==> q in l.files && res.0.files[q] == l.files[q]
    ensures res.1.Fail? ==> res.0 == l
  {
    if fails then (l, Fail(IoError(FileDelete)))
    else (l.(files := l.files - {p}), Pass)
  }

  /** Whether File.Move(src, dst) without overwriting can succeed. */
  predicate CanMove(l: Local, src: Path, dst: Path) {
    src in l.files && dst !in l.files && !DirectoryAt(l, dst) && dst.dir in l.dirs
  }

  /**
   * File.Move(src, dst): throws when the source is missing, the destination
   * is taken by a file or a directory, or its directory does not exist;
   * otherwise the contents leave `src` and appear at `dst`.
   */
  function MoveStep(l: Local, src: Path, dst: Path, fails: bool): (res: (Local, Outcome<Error>))
    ensures res.0.dirs == l.dirs
    ensures res.1.Pass? <==> !fails && CanMove(l, src, dst)
    ensures res.1.Pass? ==>
      && src !in res.0.files
      && dst in res.0.files && res.0.files[dst] == l.files[src]
      && forall q :: q != src && q != dst ==>
        (q in res.0.files <==> q in l.files) && (q in l.files ==> res.0.files[q] == l.files[q])
    ensures res.1.Fail? ==> res.0 == l
  {
    if fails || !CanMove(l, src, dst) then (l, Fail(IoError(FileMove)))
    else (l.(files := (l.files - {src})[dst := l.files[src]]), Pass)
  }

  /** File.OpenRead followed by reading the stream to its end. */
  function ReadStep(l: Local, p: Path, fails: bool): (r: Result<Bytes, Error>)
    ensures r.Success? <==> !fails && p in l.files
    ensures r.Success? ==> r.value == l.files[p]
  {
    if fails || p !in l.files then Failure(IoError(FileOpenRead))
    else Success(l.files[p])
  }

  /** The machine's file system, which the agent changes in place. */
  class FileSystem {
    var files: map<Path, Bytes>
    var dirs: set<Dir>

    constructor (initial: Local)
      ensures State() == initial
    {
      files := initial.files;
      dirs := initial.dirs;
    }

    function State(): Local
      reads this
    {
      Local(files, dirs)
    }

    /** File.Exists. */
    predicate FileExists(p: Path): (b: bool)
      reads this
      ensures b <==> ReadStep(State(), p, false).Success?
    {
      p in files
    }

    method CreateDirectory(d: Dir, fails: bool) returns (r: Outcome<Error>)
      modifies this
      ensures (State(), r) == CreateDirectoryStep(old(State()), d, fails)
    {
      if d == [] || fails {
        r := Fail(IoError(DirectoryCreate));
      } else if d !in dirs && Path(d[..|d| - 1], d[|d| - 1]) in files {
        r := Fail(IoError(DirectoryCreate));
      } else {
        dirs := dirs + {d};
        r := Pass;
      }
    }

    method Delete(p: Path, fails: bool) returns (r: Outcome<Error>)
      modifies this
      ensures (State(), r) == DeleteStep(old(State()), p, fails)
    {
      if fails {
        r := Fail(IoError(FileDelete));
      } else {
        files := files - {p};
        r := Pass;
      }
    }

    method Move(src: Path, dst: Path, fails: bool) returns (r: Outcome<Error>)
      modifies this
      ensures (State(), r) == MoveStep(old(State()), src, dst, fails)
    {
      if fails || src !in files || dst in files || dst.dir + [dst.name] in dirs || dst.dir !in dirs {
        r := Fail(IoError(FileMove));
      } else {
        var contents := files[src];
        files := (files - {src})[dst := contents];
        r := Pass;
      }
    }

    method ReadAll(p: Path, fails: bool) returns (r: Result<Bytes, Error>)
      ensures r == ReadStep(State(), p, fails)
    {
      if fails || p !in files {
        r := Failure(IoError(FileOpenRead));
      } else {
        r := Success(files[p]);
      }
    }
  }
}
