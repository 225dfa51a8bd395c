/**
 * The exceptions the agent's collaborators can throw, and the record through
 * which the environment decides, for one file, which of its calls throw.
 */
module Failures {

  /** The environment call that threw. */
  datatype Operation =
    | ContainerCreate     // BlobContainerClient.CreateIfNotExistsAsync
    | BlobExistsQuery     // BlobClient.ExistsAsync
    | BlobUpload          // BlobClient.UploadAsync
    | FileOpenRead        // File.OpenRead
    | FileDelete          // File.Delete
    | DirectoryCreate     // Directory.CreateDirectory
    | FileMove            // File.Move
    | DirectoryEnumerate  // Directory.EnumerateFiles

  datatype Error = IoError(operation: Operation)

  /**
   * For each call the processing of one file can make, whether the
   * environment makes it throw (network, authorisation, I/O failure).
   * Failures that follow from the state itself are not listed here: the
   * model derives them. They are a missing file, moving onto an existing
   * file or directory, moving into a missing directory, and creating a
   * directory where a file stands.
   */
  datatype FileFaults = FileFaults(
    containerCreate: bool,
    blobExists: bool,
    openRead: bool,
    upload: bool,
    deleteFile: bool,
    createDirectory: bool,
    moveFile: bool)

  const NoFaults := FileFaults(false, false, false, false, false, false, false)
}
