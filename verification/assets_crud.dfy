/** Asset ingestion: turning a CSV or Excel file into the packaged Parquet
    asset. Reading the file is outside the model: the reader's output is the
    raw grid, one row per non-blank line or sheet row (`read_csv` skips blank
    lines, so the first row is the first non-blank one), each cell a value or null.
    Every missing cell the reader produces (NaN, None, NaT) is `None` in the
    grid, so `NonText` never stands for NaN there, and the grid is
    rectangular, since pandas pads short lines.
    `astype(str)` is the parameter `stringify`, a total function on cells
    including null ones. Parquet writing and directory creation are success
    oracles, and the filesystem actions are recorded as effects. */
module AssetsCrud {
  import opened Wrappers
  import opened Errors
  import opened Frames
  import opened Paths
  import opened Seqs

  type Row = seq<Option<Value>>
  type RawGrid = seq<Row>

  /** The parsed DataFrame: column labels taken from the first raw row, and
      data rows of strings. */
  datatype ParsedTable = ParsedTable(columns: Row, rows: seq<seq<string>>)

  /** A filesystem action, in the order it happens. A `WriteParquet` is an
      attempted write: the oracle decides whether it succeeds. */
  datatype Effect =
    | ReadInput(path: string, fileType: string)
    | MakeDirs(dir: string)
    | WriteParquet(path: string, table: ParsedTable)

  datatype Outcome = Outcome(result: Result<string, Error>, effects: seq<Effect>)

  // ---------------------------------------------------------------- parsing

  /** `dropna(how="all")` drops a row when every cell is null. */
  predicate AllNull(row: Row)
  {
    forall k :: 0 <= k < |row| ==> row[k].None?
  }

  predicate KeepRow(row: Row)
  {
    !AllNull(row)
  }

  function StringifyRow(row: Row, stringify: Option<Value> -> string): seq<string>
  {
    seq(|row|, k requires 0 <= k < |row| => stringify(row[k]))
  }

  function Stringifier(stringify: Option<Value> -> string): Row -> seq<string>
  {
    row => StringifyRow(row, stringify)
  }

  /** The data rows: null rows dropped, then every cell stringified. */
  function DataRows(body: RawGrid, stringify: Option<Value> -> string): seq<seq<string>>
  {
    FilterMap(body, KeepRow, Stringifier(stringify))
  }

  /** `parse_asset_file(file_path, file_type)` on the grid the reader
      produced. An empty grid fails: `read_csv` raises on an empty file, and
      an empty sheet has no first row to promote. */
  function ParseAssetFile(grid: RawGrid, fileType: string, stringify: Option<Value> -> string): (r: Result<ParsedTable, Error>)
    ensures r == Failure(UnsupportedFileType) <==> fileType != "csv" && fileType != "xlsx"
    ensures r.Success? <==> (fileType == "csv" || fileType == "xlsx") && |grid| > 0
    ensures r.Success? ==> r.value.columns == grid[0] && |r.value.rows| <= |grid| - 1
  {
    if fileType == "csv" || fileType == "xlsx" then
      if |grid| == 0 then Failure(EmptyInput(fileType))
      else Success(ParsedTable(grid[0], DataRows(grid[1..], stringify)))
    else
      Failure(UnsupportedFileType)
  }

  /** The first raw row only names the columns: whatever it holds, the data
      rows are those of the rest of the grid. */
  lemma HeaderNeverBecomesData(header: Row, other: Row, body: RawGrid, fileType: string, stringify: Option<Value> -> string)
    requires fileType == "csv" || fileType == "xlsx"
    ensures ParseAssetFile([header] + body, fileType, stringify).value.columns == header
    ensures ParseAssetFile([header] + body, fileType, stringify).value.rows
         == ParseAssetFile([other] + body, fileType, stringify).value.rows
  {
  }

  /** A string row is in the output exactly when it is the stringified form
      of a non-null raw row after the first. */
  lemma ParsedRowsAreNonNullDataRows(grid: RawGrid, fileType: string, stringify: Option<Value> -> string, row: seq<string>)
    requires fileType == "csv" || fileType == "xlsx"
    requires |grid| > 0
    ensures row in ParseAssetFile(grid, fileType, stringify).value.rows
        <==> exists i :: 1 <= i < |grid| && !AllNull(grid[i]) && StringifyRow(grid[i], stringify) == row
  {
    var body := grid[1..];
    FilterMapMembership(body, KeepRow, Stringifier(stringify), row);
    if exists j :: 0 <= j < |body| && KeepRow(body[j]) && Stringifier(stringify)(body[j]) == row {
      var j :| 0 <= j < |body| && KeepRow(body[j]) && Stringifier(stringify)(body[j]) == row;
      assert grid[j + 1] == body[j];
    }
    if exists i :: 1 <= i < |grid| && !AllNull(grid[i]) && StringifyRow(grid[i], stringify) == row {
      var i :| 1 <= i < |grid| && !AllNull(grid[i]) && StringifyRow(grid[i], stringify) == row;
      assert body[i - 1] == grid[i];
    }
  }

  /** Rows keep their relative order: parsing a grid split into two blocks
      of data rows gives the rows of the first block, then those of the second. */
  lemma ParsedRowsKeepOrder(header: Row, a: RawGrid, b: RawGrid, fileType: string, stringify: Option<Value> -> string)
    requires fileType == "csv" || fileType == "xlsx"
    ensures ParseAssetFile([header] + a + b, fileType, stringify).value.rows
         == DataRows(a, stringify) + DataRows(b, stringify)
  {
    assert ([header] + a + b)[1..] == a + b;
    FilterMapAppend(a, b, KeepRow, Stringifier(stringify));
  }

  /** Exactly the all-null rows are lost: the output row count plus the
      number of all-null data rows is the raw row count less the header. */
  lemma ParsedRowCount(grid: RawGrid, fileType: string, stringify: Option<Value> -> string)
    requires fileType == "csv" || fileType == "xlsx"
    requires |grid| > 0
    ensures |ParseAssetFile(grid, fileType, stringify).value.rows| + Dropped(grid[1..], KeepRow) == |grid| - 1
    ensures |ParseAssetFile(grid, fileType, stringify).value.rows| == |grid| - 1
        <==> forall i :: 1 <= i < |grid| ==> !AllNull(grid[i])
  {
    var body := grid[1..];
    DroppedZeroIff(body, KeepRow);
    if forall i :: 1 <= i < |grid| ==> !AllNull(grid[i]) {
      forall j | 0 <= j < |body| ensures KeepRow(body[j]) {
        assert body[j] == grid[j + 1];
      }
    } else {
      var i :| 1 <= i < |grid| && AllNull(grid[i]);
      assert body[i - 1] == grid[i];
    }
  }

  /** Stringification runs after the null-row drop, so a null cell in a kept
      row comes out as the string form of null rather than as null. */
  lemma NullCellsInKeptRowsBecomeStrings(grid: RawGrid, fileType: string, stringify: Option<Value> -> string, i: int, k: int)
    requires fileType == "csv" || fileType == "xlsx"
    requires 1 <= i < |grid| && !AllNull(grid[i])
    requires 0 <= k < |grid[i]| && grid[i][k].None?
    ensures exists row :: row in ParseAssetFile(grid, fileType, stringify).value.rows && k < |row| && row[k] == stringify(None)
  {
    var row := StringifyRow(grid[i], stringify);
    ParsedRowsAreNonNullDataRows(grid, fileType, stringify, row);
    assert row in ParseAssetFile(grid, fileType, stringify).value.rows && k < |row| && row[k] == stringify(None);
  }

  /** `astype(str)` leaves a Python `str` as it is. */
  ghost predicate KeepsStrings(stringify: Option<Value> -> string)
  {
    forall s: string :: stringify(Some(Text(s))) == s
  }

  /** A header row `a,b` and a data row `1,2` give one row of strings under
      the columns `a` and `b`. Read without a header, each column holds a
      label and a number, so pandas keeps its cells as `str`. */
  lemma CsvHeaderAndOneRow(stringify: Option<Value> -> string)
    requires KeepsStrings(stringify)
    ensures ParseAssetFile([[Some(Text("a")), Some(Text("b"))], [Some(Text("1")), Some(Text("2"))]], "csv", stringify)
         == Success(ParsedTable([Some(Text("a")), Some(Text("b"))], [["1", "2"]]))
  {
    var grid := [[Some(Text("a")), Some(Text("b"))], [Some(Text("1")), Some(Text("2"))]];
    assert stringify(Some(Text("1"))) == "1" && stringify(Some(Text("2"))) == "2";
    assert KeepRow(grid[1]) by { assert grid[1][0].Some?; }
    assert grid[1..] == [grid[1]];
    assert StringifyRow(grid[1], stringify) == ["1", "2"];
    assert DataRows([grid[1]], stringify) == [["1", "2"]] by {
      assert [grid[1]][1..] == [];
    }
  }

  // ------------------------------------------------------ storing the asset

  /** The assets directory: the explicit one, or the package's own. */
  function ResolveAssetsDir(assetsDir: Option<string>, packageAssets: string): string
  {
    match assetsDir
    case Some(d) => d
    case None => packageAssets
  }

  /** `convert_to_parquet_and_store(df, parquet_name, assets_dir)`. The
      directory is created before the name is checked; a failing write is
      reported as a `RuntimeError`, never as the writer's own exception. */
  function ConvertToParquetAndStore(df: ParsedTable, parquetName: Option<string>, assetsDir: Option<string>, packageAssets: string,
                                    canMakeDir: string -> bool, canWrite: (string, ParsedTable) -> bool): (r: Outcome)
    ensures var dir := ResolveAssetsDir(assetsDir, packageAssets);
      && |r.effects| >= 1 && r.effects[0] == MakeDirs(dir)
      && (!canMakeDir(dir) ==> r.result == Failure(DirectoryNotCreated(dir)) && r.effects == [MakeDirs(dir)])
      && (canMakeDir(dir) && parquetName.None? ==> r.result == Failure(MissingParquetName) && r.effects == [MakeDirs(dir)])
      && (r.result.Success? <==> canMakeDir(dir) && parquetName.Some? && canWrite(Join(dir, parquetName.value), df))
      && (r.result.Success? ==> r.result.value == Join(dir, parquetName.value)
                                && r.effects == [MakeDirs(dir), WriteParquet(r.result.value, df)])
      && (canMakeDir(dir) && parquetName.Some? && !canWrite(Join(dir, parquetName.value), df) ==>
            && ExceptionClass(r.result.error) == "RuntimeError"
            && r.effects == [MakeDirs(dir), WriteParquet(Join(dir, parquetName.value), df)])
  {
    var dir := ResolveAssetsDir(assetsDir, packageAssets);
    if !canMakeDir(dir) then
      Outcome(Failure(DirectoryNotCreated(dir)), [MakeDirs(dir)])
    else if parquetName.None? then
      Outcome(Failure(MissingParquetName), [MakeDirs(dir)])
    else
      var outPath := Join(dir, parquetName.value);
      var effects := [MakeDirs(dir), WriteParquet(outPath, df)];
      if canWrite(outPath, df) then Outcome(Success(outPath), effects)
      else Outcome(Failure(ParquetWriteFailed(outPath)), effects)
  }

  // ------------------------------------------------------------- ingestion

  /** The file type chosen from the path's suffix, ignoring case. */
  function DetectFileType(filePath: string): (r: Result<string, Error>)
    ensures r.Success? ==> r.value == "csv" || r.value == "xlsx"
    ensures r.Failure? ==> r.error == UnsupportedExtension(Lower(Suffix(filePath)))
  {
    var s := Lower(Suffix(filePath));
    if s == ".csv" then Success("csv")
    else if s == ".xls" || s == ".xlsx" then Success("xlsx")
    else Failure(UnsupportedExtension(s))
  }

  /** Dispatch depends only on how the suffix is spelled up to case: ".csv"
      picks CSV, ".xls" and ".xlsx" pick Excel, and nothing else is accepted. */
  lemma DispatchIgnoresCase(filePath: string)
    ensures DetectFileType(filePath) == Success("csv") <==> SpelledIgnoringCase(Suffix(filePath), ".csv")
    ensures DetectFileType(filePath) == Success("xlsx")
        <==> SpelledIgnoringCase(Suffix(filePath), ".xls") || SpelledIgnoringCase(Suffix(filePath), ".xlsx")
  {
    SuffixSpellings(Suffix(filePath));
  }

  /** The three accepted suffixes, matched through lower-casing. */
  lemma SuffixSpellings(suffix: string)
    ensures Lower(suffix) == ".csv" <==> SpelledIgnoringCase(suffix, ".csv")
    ensures Lower(suffix) == ".xls" <==> SpelledIgnoringCase(suffix, ".xls")
    ensures Lower(suffix) == ".xlsx" <==> SpelledIgnoringCase(suffix, ".xlsx")
  {
  }

  /** The output file name: the input's stem when none is given, otherwise
      the given name with ".parquet" appended unless already there. */
  function NormaliseParquetName(parquetName: Option<string>, stem: string): (r: string)
    ensures EndsWith(r, ".parquet")
    ensures parquetName.None? ==> r[..|r| - |".parquet"|] == stem
    ensures parquetName.Some? ==> |parquetName.value| <= |r| && r[..|parquetName.value|] == parquetName.value
    ensures parquetName.Some? && EndsWith(parquetName.value, ".parquet") ==> r == parquetName.value
    ensures parquetName.Some? && !EndsWith(parquetName.value, ".parquet") ==> r == parquetName.value + ".parquet"
  {
    match parquetName
    case None =>
      EndsWithAppended(stem, ".parquet");
      stem + ".parquet"
    case Some(name) =>
      if EndsWith(name, ".parquet") then name
      else
        EndsWithAppended(name, ".parquet");
        name + ".parquet"
  }

  /** Normalising an already normalised name changes nothing. */
  lemma NormaliseIsIdempotent(parquetName: Option<string>, stem: string, stem': string)
    ensures NormaliseParquetName(Some(NormaliseParquetName(parquetName, stem)), stem')
         == NormaliseParquetName(parquetName, stem)
  {
  }

  /** `update_asset_file(file_path, parquet_name)`: dispatch on the suffix,
      parse, normalise the output name, then store in the package assets. */
  function UpdateAssetFile(filePath: string, parquetName: Option<string>, grid: RawGrid, stringify: Option<Value> -> string,
                           packageAssets: string, canMakeDir: string -> bool, canWrite: (string, ParsedTable) -> bool): (r: Outcome)
    ensures DetectFileType(filePath).Failure? ==>
      && r.effects == []
      && r.result == Failure(UnsupportedExtension(Lower(Suffix(filePath))))
      && ExceptionClass(r.result.error) == "ValueError"
    ensures DetectFileType(filePath).Success? ==>
      |r.effects| >= 1 && r.effects[0] == ReadInput(filePath, DetectFileType(filePath).value)
    ensures var fileType := DetectFileType(filePath);
      fileType.Success? ==> var parsed := ParseAssetFile(grid, fileType.value, stringify);
      parsed.Failure? ==> r == Outcome(Failure(parsed.error), [ReadInput(filePath, fileType.value)])
    ensures var fileType := DetectFileType(filePath);
      fileType.Success? ==> var parsed := ParseAssetFile(grid, fileType.value, stringify);
      var path := Join(packageAssets, NormaliseParquetName(parquetName, Stem(filePath)));
      parsed.Success? ==>
        && (r.result.Success? <==> canMakeDir(packageAssets) && canWrite(path, parsed.value))
        && (r.result.Success? ==>
              && r.result.value == path
              && r.effects == [ReadInput(filePath, fileType.value), MakeDirs(packageAssets), WriteParquet(path, parsed.value)])
        && (!canMakeDir(packageAssets) ==>
              r == Outcome(Failure(DirectoryNotCreated(packageAssets)), [ReadInput(filePath, fileType.value), MakeDirs(packageAssets)]))
        && (canMakeDir(packageAssets) && !canWrite(path, parsed.value) ==>
              && ExceptionClass(r.result.error) == "RuntimeError"
              && r.effects == [ReadInput(filePath, fileType.value), MakeDirs(packageAssets), WriteParquet(path, parsed.value)])
    ensures r.result.Success? ==> DetectFileType(filePath).Success?
  {
    match DetectFileType(filePath)
    case Failure(e) => Outcome(Failure(e), [])
    case Success(fileType) =>
      var read := ReadInput(filePath, fileType);
      match ParseAssetFile(grid, fileType, stringify)
      case Failure(e) => Outcome(Failure(e), [read])
      case Success(df) =>
        StoreAfterRead(read, df, NormaliseParquetName(parquetName, Stem(filePath)), packageAssets, canMakeDir, canWrite)
  }

  /** The store step of ingestion, into the package assets directory, after
      the read: the effects of each path through the store, preceded by the read. */
  function StoreAfterRead(read: Effect, df: ParsedTable, name: string, packageAssets: string,
                          canMakeDir: string -> bool, canWrite: (string, ParsedTable) -> bool): (r: Outcome)
    ensures var path := Join(packageAssets, name);
      && (!canMakeDir(packageAssets) ==>
            r == Outcome(Failure(DirectoryNotCreated(packageAssets)), [read, MakeDirs(packageAssets)]))
      && (r.result.Success? <==> canMakeDir(packageAssets) && canWrite(path, df))
      && (r.result.Success? ==> r.result.value == path && r.effects == [read, MakeDirs(packageAssets), WriteParquet(path, df)])
      && (canMakeDir(packageAssets) && !canWrite(path, df) ==>
            && ExceptionClass(r.result.error) == "RuntimeError"
            && r.effects == [read, MakeDirs(packageAssets), WriteParquet(path, df)])
  {
    var stored := ConvertToParquetAndStore(df, Some(name), None, packageAssets, canMakeDir, canWrite);
    Outcome(stored.result, [read] + stored.effects)
  }

  /** Ingesting a CSV file `a,b` / `1,2` under a name writes, after making
      the package assets directory, a table with columns `a`, `b` and the
      single row `["1", "2"]`. */
  lemma CsvIngestionWritesParsedRow(filePath: string, name: string, stringify: Option<Value> -> string,
                                    packageAssets: string, canMakeDir: string -> bool, canWrite: (string, ParsedTable) -> bool)
    requires Suffix(filePath) == ".csv" && EndsWith(name, ".parquet")
    requires KeepsStrings(stringify) && canMakeDir(packageAssets)
    ensures var table := ParsedTable([Some(Text("a")), Some(Text("b"))], [["1", "2"]]);
      var r := UpdateAssetFile(filePath, Some(name), [[Some(Text("a")), Some(Text("b"))], [Some(Text("1")), Some(Text("2"))]],
                               stringify, packageAssets, canMakeDir, canWrite);
      r.effects == [ReadInput(filePath, "csv"), MakeDirs(packageAssets), WriteParquet(Join(packageAssets, name), table)]
      && (r.result.Success? <==> canWrite(Join(packageAssets, name), table))
  {
    assert Lower(".csv") == ".csv";
    CsvHeaderAndOneRow(stringify);
  }

  /** Whatever name the caller gives, a successful ingestion writes a file
      whose path ends in ".parquet". */
  lemma UpdateWritesParquetFile(filePath: string, parquetName: Option<string>, grid: RawGrid, stringify: Option<Value> -> string,
                                packageAssets: string, canMakeDir: string -> bool, canWrite: (string, ParsedTable) -> bool)
    ensures var r := UpdateAssetFile(filePath, parquetName, grid, stringify, packageAssets, canMakeDir, canWrite);
      r.result.Success? ==> EndsWith(r.result.value, ".parquet")
  {
    JoinKeepsSuffix(packageAssets, NormaliseParquetName(parquetName, Stem(filePath)), ".parquet");
  }

  /** Joining onto a directory keeps the name's ending. */
  lemma JoinKeepsSuffix(dir: string, name: string, tail: string)
    requires EndsWith(name, tail)
    ensures EndsWith(Join(dir, name), tail)
  {
  }

  /** Any casing of ".csv" selects the CSV reader. */
  lemma MixedCaseCsvIsCsv(filePath: string)
    requires Suffix(filePath) == ".CsV"
    ensures DetectFileType(filePath) == Success("csv")
  {
  }

  /** The older Excel suffix, in capitals, selects the Excel reader. */
  lemma UpperXlsIsXlsx(filePath: string)
    requires Suffix(filePath) == ".XLS"
    ensures DetectFileType(filePath) == Success("xlsx")
  {
  }

  /** A text file is refused, naming its suffix, before anything is read
      or written. */
  lemma TextFileIsRefused(filePath: string, parquetName: Option<string>, grid: RawGrid, stringify: Option<Value> -> string,
                          packageAssets: string, canMakeDir: string -> bool, canWrite: (string, ParsedTable) -> bool)
    requires Suffix(filePath) == ".txt"
    ensures UpdateAssetFile(filePath, parquetName, grid, stringify, packageAssets, canMakeDir, canWrite)
         == Outcome(Failure(UnsupportedExtension(".txt")), [])
  {
    assert Lower(".txt") == ".txt";
  }

  /** A leading dot does not start a suffix, so a file named ".csv" is refused. */
  lemma HiddenFileHasNoSuffix()
    ensures DetectFileType(".csv") == Failure(UnsupportedExtension(""))
  {
    LastIndexOfSplit("", '.', "csv");
    assert ".csv" == "" + ['.'] + "csv";
  }
}
