/** FileProcessResult.cs: what processing one file did. */
module Results {

  /**
   * The positional record FileProcessResult(Uploaded, Deleted, Duplicated):
   * an immutable value compared field by field.
   */
  datatype FileProcessResult = FileProcessResult(uploaded: bool, deleted: bool, duplicated: bool)

  /** FileProcessResult.NoAction: the file was gone before it could be processed. */
  function NoAction(): (r: FileProcessResult)
    ensures !r.uploaded && !r.deleted && !r.duplicated
  {
    FileProcessResult(false, false, false)
  }

  /**
   * The combinations the processor builds: a file is deleted only after it
   * was uploaded, and an uploaded file is never also a duplicate.
   */
  predicate Consistent(r: FileProcessResult) {
    && (r.deleted ==> r.uploaded)
    && !(r.uploaded && r.duplicated)
  }

  /**
   * The consistent results are exactly the four the processor returns:
   * no action, duplicate, uploaded and kept, uploaded and deleted.
   */
  lemma ConsistentResults(r: FileProcessResult)
    ensures Consistent(r) <==> r in {
      NoAction(),
      FileProcessResult(false, false, true),
      FileProcessResult(true, false, false),
      FileProcessResult(true, true, false) }
  {
  }

  /** Equality is by value: a freshly built all-false record is NoAction. */
  lemma NoActionByValue(uploaded: bool, deleted: bool, duplicated: bool)
    ensures FileProcessResult(uploaded, deleted, duplicated) == NoAction()
      <==> !uploaded && !deleted && !duplicated
  {
  }
}
