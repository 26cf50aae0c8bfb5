/** The failures the core raises, with the Python exception class each one
    surfaces as. */
module Errors {

  datatype Error =
    | UnsupportedFileType                         // parse_asset_file: file_type not "csv"/"xlsx"
    | UnsupportedExtension(suffix: string)        // update_asset_file: lower-cased suffix
    | EmptyInput(fileType: string)                // the input file holds no row at all
    | MissingParquetName                          // convert_to_parquet_and_store: no name
    | DirectoryNotCreated(dir: string)            // the assets directory cannot be made
    | ParquetWriteFailed(path: string)            // the wrapped write failure
    | AssetNotFound(path: string)                 // no packaged asset file on a cache miss
    | AssetUnreadable(path: string, raised: string) // the asset exists but cannot be decoded
    | MissingColumns(columns: set<string>, path: string) // required columns absent
    | AmbiguousTruthValue(key: string)            // a cached object whose truth test raises

  /** The Python exception class a caller catches. */
  function ExceptionClass(e: Error): string
  {
    match e
    case UnsupportedFileType => "ValueError"
    case UnsupportedExtension(_) => "ValueError"
    case EmptyInput(t) => if t == "csv" then "EmptyDataError" else "IndexError"
    case MissingParquetName => "ValueError"
    case DirectoryNotCreated(_) => "OSError"
    case ParquetWriteFailed(_) => "RuntimeError"
    case AssetNotFound(_) => "FileNotFoundError"
    case AssetUnreadable(_, raised) => raised
    case MissingColumns(_, _) => "ValueError"
    case AmbiguousTruthValue(_) => "ValueError"
  }
}
