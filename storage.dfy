/**
 * BlobStorageService.cs: the gateway to the remote container. It makes sure,
 * once, that the container exists, answers whether a blob exists and uploads
 * blobs with optional tags.
 */
module Storage {
  import opened Wrappers
  import opened Failures
  import opened LocalFolder

  /** A stored blob: its contents and the tags it was uploaded with. */
  datatype Blob = Blob(content: Bytes, tags: Option<map<string, string>>)

  /**
   * What the gateway and the backend hold between calls: the
   * `_containerInitialized` flag, how many create calls have succeeded, and
   * the container's blobs by name.
   */
  datatype Remote = Remote(initialized: bool, creates: nat, blobs: map<string, Blob>)

  /** A gateway as its constructor leaves it, over a container holding `blobs`. */
  function Fresh(blobs: map<string, Blob>): (s: Remote)
    ensures !s.initialized && s.creates == 0 && s.blobs == blobs
  {
    Remote(false, 0, blobs)
  }

  /**
   * The flag records exactly whether the one successful create call has
   * happened.
   */
  predicate CreatedOnce(s: Remote) {
    s.creates == if s.initialized then 1 else 0
  }

  /**
   * EnsureContainerAsync: when the flag is set, return at once; otherwise,
   * under the lock, check again, call create and set the flag only when
   * create returned. `createFails` is the backend's answer to the create call.
   */
  function EnsureContainerStep(s: Remote, createFails: bool): (res: (Remote, Outcome<Error>))
    ensures res.0.blobs == s.blobs
    ensures res.1.Pass? <==> res.0.initialized
    ensures s.initialized ==> res == (s, Pass)
    ensures !s.initialized ==> (res.0.initialized <==> !createFails)
    ensures res.0.creates == if !s.initialized && !createFails then s.creates + 1 else s.creates
  {
    if s.initialized then (s, Pass)
    else if createFails then (s, Fail(IoError(ContainerCreate)))
    else (s.(initialized := true, creates := s.creates + 1), Pass)
  }

  /** BlobExistsAsync: ensure the container, then ask the backend, with no caching. */
  function BlobExistsStep(s: Remote, name: string, createFails: bool, existsFails: bool)
    : (res: (Remote, Result<bool, Error>))
    ensures res.0 == EnsureContainerStep(s, createFails).0
    ensures EnsureContainerStep(s, createFails).1.Fail? ==> res.1 == Failure(IoError(ContainerCreate))
    ensures res.1.Success? <==> res.0.initialized && !existsFails
    ensures res.1.Success? ==> res.1.value == (name in s.blobs)
  {
    var (s1, ready) := EnsureContainerStep(s, createFails);
    if ready.Fail? then (s1, Failure(ready.error))
    else if existsFails then (s1, Failure(IoError(BlobExistsQuery)))
    else (s1, Success(name in s1.blobs))
  }

  /**
   * UploadAsync: ensure the container, then store the contents and tags
   * under `name`. The backend fails atomically: a failed upload stores
   * nothing.
   */
  function UploadStep(
    s: Remote, name: string, content: Bytes, tags: Option<map<string, string>>,
    createFails: bool, uploadFails: bool): (res: (Remote, Outcome<Error>))
    ensures res.0.initialized == EnsureContainerStep(s, createFails).0.initialized
    ensures res.0.creates == EnsureContainerStep(s, createFails).0.creates
    ensures EnsureContainerStep(s, createFails).1.Fail? ==> res.1 == Fail(IoError(ContainerCreate))
    ensures res.1.Pass? <==> res.0.initialized && !uploadFails
    ensures res.1.Pass? ==> res.0.blobs == s.blobs[name := Blob(content, tags)]
    ensures res.1.Fail? ==> res.0.blobs == s.blobs
  {
    var (s1, ready) := EnsureContainerStep(s, createFails);
    if ready.Fail? then (s1, ready)
    else if uploadFails then (s1, Fail(IoError(BlobUpload)))
    else (s1.(blobs := s1.blobs[name := Blob(content, tags)]), Pass)
  }

  /**
   * `b` is `a` after any number of gateway calls: the flag is never reset,
   * the create count never drops, and no blob already stored is changed or
   * lost.
   */
  predicate Grows(a: Remote, b: Remote) {
    && (a.initialized ==> b.initialized)
    && a.creates <= b.creates
    && (forall k :: k in a.blobs ==> k in b.blobs && b.blobs[k] == a.blobs[k])
  }

  lemma GrowsTransitive(a: Remote, b: Remote, c: Remote)
    requires Grows(a, b) && Grows(b, c)
    ensures Grows(a, c)
  {
  }

  /**
   * Whatever the backend answers, repeated EnsureContainer calls leave the
   * flag set after the first successful create, never reset it, and keep
   * CreatedOnce, so create succeeds at most once.
   */
  lemma {:induction false} CreateSucceedsAtMostOnce(s: Remote, answers: seq<bool>)
    requires CreatedOnce(s)
    decreases |answers|
    ensures var t := RunEnsureContainer(s, answers);
      && CreatedOnce(t) && t.creates <= 1 && Grows(s, t)
      && (t.initialized <==> s.initialized || false in answers)
  {
    if answers != [] {
      var t := EnsureContainerStep(s, answers[0]).0;
      CreateSucceedsAtMostOnce(t, answers[1..]);
      assert answers == [answers[0]] + answers[1..];
    }
  }

  /** The state after a run of EnsureContainer calls, one per create answer. */
  function RunEnsureContainer(s: Remote, answers: seq<bool>): Remote
    decreases |answers|
  {
    if answers == [] then s
    else RunEnsureContainer(EnsureContainerStep(s, answers[0]).0, answers[1..])
  }

  /**
   * The gateway object: it holds the flag and the lock; the backend's
   * container is reached through `blobs`.
   */
  class BlobStorageService {
    var initialized: bool
    var lockHeld: bool
    ghost var creates: nat
    var blobs: map<string, Blob>

    /** Between calls the lock is free and the flag tells whether create succeeded. */
    ghost predicate Valid()
      reads this
    {
      !lockHeld && CreatedOnce(State())
    }

    ghost function State(): Remote
      reads this
    {
      Remote(initialized, creates, blobs)
    }

    /** The flag starts false; the container already holds `existing`. */
    constructor (existing: map<string, Blob>)
      ensures Valid() && State() == Fresh(existing)
    {
      initialized := false;
      lockHeld := false;
      creates := 0;
      blobs := existing;
    }

    /**
     * The double-checked initialisation, run sequentially: the lock is
     * taken only when the flag is unset, and released on every path.
     */
    method EnsureContainer(createFails: bool) returns (r: Outcome<Error>)
      requires Valid()
      modifies this
      ensures Valid()
      ensures (State(), r) == EnsureContainerStep(old(State()), createFails)
    {
      if initialized {
        return Pass;
      }
      lockHeld := true;
      if initialized {
        r := Pass;
      } else if createFails {
        r := Fail(IoError(ContainerCreate));
      } else {
        creates := creates + 1;
        initialized := true;
        r := Pass;
      }
      lockHeld := false;
    }

    method BlobExists(name: string, createFails: bool, existsFails: bool)
      returns (r: Result<bool, Error>)
      requires Valid()
      modifies this
      ensures Valid()
      ensures (State(), r) == BlobExistsStep(old(State()), name, createFails, existsFails)
    {
      var ready := EnsureContainer(createFails);
      if ready.Fail? {
        return Failure(ready.error);
      }
      if existsFails {
        return Failure(IoError(BlobExistsQuery));
      }
      return Success(name in blobs);
    }

    method Upload(
      name: string, content: Bytes, tags: Option<map<string, string>>,
      createFails: bool, uploadFails: bool) returns (r: Outcome<Error>)
      requires Valid()
      modifies this
      ensures Valid()
      ensures (State(), r) == UploadStep(old(State()), name, content, tags, createFails, uploadFails)
    {
      r := EnsureContainer(createFails);
      if r.Fail? {
        return;
      }
      if uploadFails {
        return Fail(IoError(BlobUpload));
      }
      blobs := blobs[name := Blob(content, tags)];
    }
  }
}
