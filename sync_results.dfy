/**
 * What a synchronisation reports: an UploadInfo per file it processed, and a
 * SynchronizationResult holding those, whether the run completed, and the
 * exception that stopped it.
 */
module Synchronization {
  import opened Errors
  import opened Text

  /** UploadInfo: the local path (null for an uploaded stream), the destination, whether it was changed, and its hash. */
  class UploadInfo {
    const filePath: Option<string>
    const serverRelativeUrl: string
    const changed: bool
    const hashValue: array<byte>

    /**
     * The constructor keeps its own copy of the hash, so a later change to the
     * caller's array does not reach it.
     */
    constructor (filePath: Option<string>, serverRelativeUrl: string, changed: bool, hash: array<byte>)
      ensures this.filePath == filePath && this.serverRelativeUrl == serverRelativeUrl && this.changed == changed
      ensures fresh(hashValue) && hashValue[..] == hash[..]
    {
      this.filePath := filePath;
      this.serverRelativeUrl := serverRelativeUrl;
      hashValue := new byte[hash.Length](i reads hash requires 0 <= i < hash.Length => hash[i]);
      this.changed := changed;
    }

    /** The Hash getter hands out the stored array itself, not a copy. */
    function Hash(): (h: array<byte>)
      ensures h == hashValue
    {
      hashValue
    }
  }

  /** SynchronizationResult: the files are a snapshot of the list passed in, in its order. */
  class SynchronizationResult {
    const files: seq<UploadInfo>
    const successful: bool
    const error: Option<Exception>

    constructor (files: seq<UploadInfo>, successful: bool, error: Option<Exception>)
      ensures this.files == files && this.successful == successful && this.error == error
    {
      this.files := files;
      this.successful := successful;
      this.error := error;
    }
  }
}
