/** The error values the configuration code produces or passes through. */
module Errors {

  datatype Error =
    | SamePath                            // errSamePath: a relocation onto itself
    | MigrateNotExist                     // errNotExist: nothing to relocate (not os.ErrNotExist)
    | NotExist(path: string)              // an os error wrapping ENOENT
    | NotDir(path: string)                // an *os.PathError wrapping ENOTDIR
    | IsDirectory(path: string)           // EISDIR: reading or truncating a directory
    | RenameFailed(from: string, to: string)
    | RemoveRegularFile(path: string)     // pathError: "remove or rename regular file ..."
    | Yaml(message: string)               // any error of the yaml library
    | ExpectedTopLevelMap
    | LegacyDecode(cause: Error)          // "error decoding legacy format"
    | SetRejected(host: string, key: string, value: string)   // Config.Set refused the entry
    | BackupFailed(cause: Error)          // "failed to back up existing config"
    | MigratingLegacy(cause: Error)       // "error migrating legacy config"
    | Reparse(cause: Error)               // "failed to reparse migrated config"

  datatype Option<+T> = None | Some(value: T)

  datatype Result<+T> = Ok(value: T) | Err(error: Error)
}
