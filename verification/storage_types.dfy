/**
 * Types shared by every storage backend: the batch entry, the per-user link
 * record and the errors a backend can report.
 */
module StorageTypes {

  datatype Option<+T> = None | Some(value: T)

  /** One entry of a batch insert: the code chosen by the caller, the target
      URL and the client's correlation token. */
  datatype BatchEntry = BatchEntry(shortURL: string, originalURL: string, correlationID: string)

  /** One link as listed for its owner. */
  datatype UserURL = UserURL(shortURL: string, originalURL: string, deletedFlag: bool)

  /** Errors a backend reports.  `Conflict` is the "url already exists"
      sentinel, `NotImplemented` the capability gap of the map-only backends,
      `NotExist` the missing-file error of the file system, and `Failure`
      stands for any other I/O or database error. */
  datatype StoreError = Conflict | NotImplemented | NotExist | Failure(reason: string)

  /** The code-to-URL map that the map-based backends own. */
  type UrlMap = map<string, string>
}
