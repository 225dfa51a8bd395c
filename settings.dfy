/** Options.cs: the settings the agent reads from its configuration. */
module Settings {
  import opened Wrappers

  /** A C# int. */
  newtype int32 = x: int | -0x8000_0000 <= x < 0x8000_0000

  /** AppOptions; a `string?` property is an Option, `None` standing for null. */
  datatype AppOptions = AppOptions(
    sourceFolder: Option<string>,
    searchPattern: Option<string>,
    deleteAfterUpload: bool,
    tagName: Option<string>,
    tagValue: Option<string>,
    pollingIntervalSeconds: int32,
    duplicateFolderName: string)

  /** BlobOptions. */
  datatype BlobOptions = BlobOptions(
    connectionString: Option<string>,
    containerName: Option<string>)

  /**
   * `new AppOptions()`: what the agent uses for every setting the
   * configuration leaves out.
   */
  function DefaultAppOptions(): (o: AppOptions)
    ensures o.deleteAfterUpload
    ensures o.pollingIntervalSeconds == 5
    ensures o.duplicateFolderName == "duplicate"
    ensures o.sourceFolder.None? && o.searchPattern.None?
    ensures o.tagName.None? && o.tagValue.None?
  {
    AppOptions(None, None, true, None, None, 5, "duplicate")
  }

  /** `new BlobOptions()`: neither setting has a default. */
  function DefaultBlobOptions(): (o: BlobOptions)
    ensures o.connectionString.None? && o.containerName.None?
  {
    BlobOptions(None, None)
  }
}
