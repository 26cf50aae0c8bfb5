# TornoTradeCraft symbol-universe core in Dafny

This project models the custom logic of TornoTradeCraft's market-data layer
that sits around pandas, Parquet and the disk cache:

- **asset ingestion**: turning a CSV or Excel ticker file into the packaged
  Parquet asset. This covers the extension dispatch, header promotion,
  null-row drop, stringification, output-name normalisation and the store
  step with its error wrapping;
- **the tabular cache adapter**: a best-effort `save_df_to_cache` and a
  `load_df_from_cache` that swallows decoding failures, over a string-keyed
  cache;
- **the Yahoo Finance symbol loader**: `get_supported_symbols`, a
  cache-then-asset fallback, then the "Ticker" column check, then the
  record-to-`SymbolInfo` mapping. `update_supported_symbols` ingests a file
  under the provider's name.

Everything is a pure function over immutable data. The disk cache is a
`map<string, CachedValue>` threaded through the calls. Environment-dependent
behaviour is passed in as parameters:

- the reader's output grid;
- `astype(str)`;
- the Parquet encoder and decoder, each able to fail;
- whether `cache.set` fails;
- whether the assets directory can be made and the Parquet file written;
- whether the packaged asset is absent, corrupt or readable.

Filesystem actions of ingestion are recorded, in order, as `Effect`s.

Modules, one per file: `Wrappers` (Option/Result), `Seqs` (the filter-then-map
shared by the null-row drop and the ticker filter), `Paths` (the `pathlib`
name/suffix/stem/join and `str.lower` behaviour used), `Errors` (failures and
the Python exception class each surfaces as), `Frames` (cell values, records,
tables), `Providers` (`SymbolInfo`), `AssetsCrud`, `CacheCrud`,
`YahooFinanceProvider`.

## Model

| member | source | states |
|---|---|---|
| AssetsCrud.DetectFileType | tornotradingcraft/utils/assets_crud.py:121-129 | dispatch yields only "csv" or "xlsx"; any other suffix fails with a ValueError carrying the lower-cased suffix |
| AssetsCrud.DispatchIgnoresCase | tornotradingcraft/utils/assets_crud.py:121-129 | "csv" exactly when the suffix spells ".csv" in any mix of cases; "xlsx" exactly when it spells ".xls" or ".xlsx" so |
| AssetsCrud.SuffixSpellings | tornotradingcraft/utils/assets_crud.py:122-127 | lower-casing the suffix matches each accepted suffix exactly when the suffix is a case variant of it |
| AssetsCrud.MixedCaseCsvIsCsv | tornotradingcraft/utils/assets_crud.py:121-125 | a ".CsV" suffix selects the CSV reader |
| AssetsCrud.UpperXlsIsXlsx | tornotradingcraft/utils/assets_crud.py:121-127 | an ".XLS" suffix selects the Excel reader |
| AssetsCrud.TextFileIsRefused | tornotradingcraft/utils/assets_crud.py:121-132 | a ".txt" input fails with a ValueError naming ".txt" and nothing is read or written |
| AssetsCrud.HiddenFileHasNoSuffix | tornotradingcraft/utils/assets_crud.py:121-129 | a file named ".csv" has no suffix under pathlib's rule and is refused |
| AssetsCrud.ParseAssetFile | tornotradingcraft/utils/assets_crud.py:23-56 | a file type other than "csv"/"xlsx" raises ValueError; otherwise parsing succeeds exactly when there is a first row; the columns are that row and there is at most one output row per raw row after it |
| AssetsCrud.HeaderNeverBecomesData | tornotradingcraft/utils/assets_crud.py:28-46 | the columns are the first raw row, and the data rows do not depend on what the first row holds |
| AssetsCrud.ParsedRowsAreNonNullDataRows | tornotradingcraft/utils/assets_crud.py:34-54 | a row is output exactly when it is the stringified form of some raw row after the first that is not entirely null |
| AssetsCrud.ParsedRowsKeepOrder | tornotradingcraft/utils/assets_crud.py:34-51 | output rows keep the raw rows' relative order (parsing distributes over splitting the data rows) |
| AssetsCrud.ParsedRowCount | tornotradingcraft/utils/assets_crud.py:34-51 | output rows plus all-null rows equal raw rows minus one; the count is raw rows minus one exactly when no data row is all null |
| AssetsCrud.NullCellsInKeptRowsBecomeStrings | tornotradingcraft/utils/assets_crud.py:51-54 | a null cell in a surviving row comes out as the string form of null, since stringification runs after the drop |
| AssetsCrud.CsvHeaderAndOneRow | tornotradingcraft/utils/assets_crud.py:23-54 | header `a,b` and row `1,2`, read as `str` cells, give columns a, b and the single string row ["1", "2"] under any stringification that leaves a `str` unchanged |
| AssetsCrud.ConvertToParquetAndStore | tornotradingcraft/utils/assets_crud.py:76-98 | the directory is made first and a failure there ends the call; a missing name then raises ValueError; otherwise exactly one write to the joined path is attempted, success returns that path and a failed write surfaces as RuntimeError |
| AssetsCrud.NormaliseParquetName | tornotradingcraft/utils/assets_crud.py:134-137 | no name gives the stem followed by ".parquet"; a name already ending in ".parquet" is kept as is; any other name gets exactly ".parquet" appended; the result always ends in ".parquet" |
| AssetsCrud.NormaliseIsIdempotent | tornotradingcraft/utils/assets_crud.py:134-137 | normalising a normalised name changes nothing |
| AssetsCrud.UpdateAssetFile | tornotradingcraft/utils/assets_crud.py:101-140 | an unsupported suffix fails with ValueError and no effect; a parse failure propagates with the read as the only effect; if the directory cannot be made the effects are the read and the mkdir and the error is DirectoryNotCreated; otherwise the parsed table is written to the normalised name after the read and the mkdir, and the call succeeds exactly when that write does, a failed write surfacing as RuntimeError |
| AssetsCrud.CsvIngestionWritesParsedRow | tornotradingcraft/utils/assets_crud.py:121-140 | ingesting a ".csv" file `a,b` / `1,2` reads it as CSV, makes the assets directory and writes the table with columns a, b and the one row ["1", "2"]; it succeeds exactly when that write does |
| AssetsCrud.UpdateWritesParquetFile | tornotradingcraft/utils/assets_crud.py:134-140 | a successful ingestion's output path ends in ".parquet" |
| AssetsCrud.JoinKeepsSuffix | tornotradingcraft/utils/assets_crud.py:88 | joining a name onto a directory keeps the name's ending |
| Paths.BaseNameIsLastComponent | tornotradingcraft/utils/assets_crud.py:121 | the final component has no separator, is a tail of the path, and is the whole path when there is no separator |
| Paths.StemAndSuffix | tornotradingcraft/utils/assets_crud.py:122-135 | stem followed by suffix is the final component; a component with a suffix has a non-empty stem |
| Paths.SuffixShape | tornotradingcraft/utils/assets_crud.py:122 | a suffix is empty or a dot and at least one more character, none of them a dot |
| Paths.SuffixOfName | tornotradingcraft/utils/assets_crud.py:122-135 | a final component "stem.ext" has suffix ".ext" and stem "stem" |
| Paths.JoinEndsInName | tornotradingcraft/utils/assets_crud.py:88 | joining a separator-free name onto any directory gives a path whose final component is that name |
| Paths.LowerIsCaseInsensitive | tornotradingcraft/utils/assets_crud.py:122 | lower-casing gives a capital-free word exactly when the input spells it in some mix of cases |
| CacheCrud.Save | tornotradingcraft/utils/cache_crud.py:23-36 | a non-table or empty table is skipped with the cache unchanged; a failed encode or store leaves the cache unchanged; otherwise only the key changes, to the encoded bytes |
| CacheCrud.Branch | tornotradingcraft/utils/cache_crud.py:48-69 | the truth test of the first condition raises exactly for an object with an ambiguous truth value; the "not bytes" warning branch is never taken; decoding happens exactly for non-empty bytes; the None branch exactly for None; the final else for empty bytes or any other object |
| CacheCrud.Load | tornotradingcraft/utils/cache_crud.py:48-69 | raises ValueError exactly when the stored object has an ambiguous truth value; otherwise returns None for an absent key, None, empty bytes or any other non-bytes object, and what the decoder gives for non-empty bytes, None on decode failure |
| CacheCrud.SavedSlotsNeverRaise | tornotradingcraft/utils/cache_crud.py:23-50 | a save never makes a later load of its key raise, since it only ever stores bytes |
| CacheCrud.SaveThenLoad | tornotradingcraft/utils/cache_crud.py:27-56 | if the codec round-trips to non-empty bytes and nothing is evicted, loading a just-saved non-empty table gives it back |
| CacheCrud.EmptyEncodingReadsAsMiss | tornotradingcraft/utils/cache_crud.py:33-50 | bytes that are empty would be stored yet read back as a miss, so the round trip needs non-empty encodings |
| CacheCrud.SaveIsolatesOtherKeys | tornotradingcraft/utils/cache_crud.py:23-36 | a save under one key never changes what another key loads |
| YahooFinanceProvider.KeyAndFileNameAgree | tornotradingcraft/providers/yahoofinance_provider.py:13-43 | the cache key and the asset file name are both "YahooFinance.parquet" |
| YahooFinanceProvider.ToSymbolInfo | tornotradingcraft/providers/yahoofinance_provider.py:77-84 | the symbol is the str() of the ticker, str or not, and "None" without one; each optional field is None when its column is missing and the column's value when present |
| YahooFinanceProvider.SymbolsFrom | tornotradingcraft/providers/yahoofinance_provider.py:64-87 | fails with a ValueError naming "Ticker" exactly when that column is missing; otherwise returns the symbols of the records with a ticker, at most one per row |
| YahooFinanceProvider.SymbolsAreTickeredRecords | tornotradingcraft/providers/yahoofinance_provider.py:69-87 | a SymbolInfo is returned exactly when it is built from some record whose Ticker is not None |
| YahooFinanceProvider.SymbolsKeepSourceOrder | tornotradingcraft/providers/yahoofinance_provider.py:69-87 | symbols follow the records' order (the mapping distributes over concatenation) |
| YahooFinanceProvider.EveryTickeredRowIsKept | tornotradingcraft/providers/yahoofinance_provider.py:69-87 | if every record has a ticker, the i-th symbol comes from the i-th record and none is skipped |
| YahooFinanceProvider.StringCellsKeepEveryRow | tornotradingcraft/providers/yahoofinance_provider.py:71-78 | a table whose every cell is a string, as ingestion writes, loses no row, and each symbol is that row's ticker text |
| YahooFinanceProvider.AppleExample | tornotradingcraft/providers/yahoofinance_provider.py:69-87 | records AAPL/Apple and a null ticker give exactly one SymbolInfo, AAPL named Apple |
| YahooFinanceProvider.SupportedSymbols | tornotradingcraft/providers/yahoofinance_provider.py:40-87 | a raising load propagates with the cache unchanged; a cache hit maps the cached table and writes nothing; on a miss an absent asset raises FileNotFoundError, a corrupt one its reader's exception, and a readable one is saved under the key and mapped; no other cache slot ever changes |
| YahooFinanceProvider.GetSupportedSymbols | tornotradingcraft/providers/yahoofinance_provider.py:40-87 | the loop over records, as the source writes it, computes the same result and cache as the functional definition |
| YahooFinanceProvider.CacheHitIgnoresAsset | tornotradingcraft/providers/yahoofinance_provider.py:46-48 | on a cache hit the cache is unchanged and the outcome is the same for every asset, encoder and store state |
| YahooFinanceProvider.AmbiguousCachedObjectEscapes | tornotradingcraft/providers/yahoofinance_provider.py:40-48 | a cached object whose truth test raises makes the call fail with ValueError before the asset is consulted, the cache unchanged |
| YahooFinanceProvider.MissWithoutAssetFails | tornotradingcraft/providers/yahoofinance_provider.py:48-51 | a miss with no asset raises FileNotFoundError for assets_dir/YahooFinance.parquet and leaves the cache unchanged |
| YahooFinanceProvider.TickerColumnRequired | tornotradingcraft/providers/yahoofinance_provider.py:46-67 | the missing-column ValueError is raised exactly when the table in use, from the cache or the asset, lacks "Ticker" |
| YahooFinanceProvider.TickerlessAssetIsCachedThenRefused | tornotradingcraft/providers/yahoofinance_provider.py:53-67 | on a miss a non-empty Ticker-less asset is written to the cache before it is refused |
| YahooFinanceProvider.SaveFailuresDoNotPropagate | tornotradingcraft/providers/yahoofinance_provider.py:53-60 | on a miss with a readable asset the result is the same whether encoding or storing fails or not |
| YahooFinanceProvider.SecondCallServedFromCache | tornotradingcraft/providers/yahoofinance_provider.py:46-60 | with a round-tripping codec, a call after a successful fill gives the same result and cache, whatever the asset |
| YahooFinanceProvider.UpdateSupportedSymbols | tornotradingcraft/providers/yahoofinance_provider.py:16-22 | updating is ingesting into the loader's own file name "YahooFinance.parquet", with the same effects and failures; the call returns nothing, and a success has written package-assets/YahooFinance.parquet as its last effect; the cache itself is not touched |
| YahooFinanceProvider.UpdateLeavesCachedTableInPlace | tornotradingcraft/providers/yahoofinance_provider.py:16-22 | while a table is cached, the loader's outcome after a successful update does not depend on the asset the update wrote (the update is given no cache, so this is the cache-hit property read after an update) |
| YahooFinanceProvider.StaleSymbolsAfterUpdate | tornotradingcraft/providers/yahoofinance_provider.py:16-48 | with table T cached, a call after a successful update still returns the symbols of T and not those of a different table now in the asset |
| YahooFinanceProvider.RefreshSupportedSymbols | tornotradingcraft/providers/yahoofinance_provider.py:16-22 | the update as documented: the same ingestion, and on success the provider's cache slot, and only it, is dropped |
| YahooFinanceProvider.RefreshIsSeenByLoader | tornotradingcraft/providers/yahoofinance_provider.py:16-22 | after a successful refresh the loader's result is that of the table now in the asset file |
| YahooFinanceProvider.NormalisedProviderName | tornotradingcraft/utils/assets_crud.py:137 | the name "YahooFinance" normalises to "YahooFinance.parquet" |

## Left out

- Reading CSV and Excel files is not modelled. The raw grid stands for what the reader returns: one row per non-blank line or sheet row, in a rectangular grid in which every missing cell (NaN, None, NaT) is `None`, so `NonText` never stands for NaN there and `dropna(how="all")` is the all-`None` test, and `stringify` stands for `astype(str)`. Reader failures other than an empty input (a missing file, a malformed CSV, pandas type inference on the CSV path without `dtype=str`) are not modelled.
- The empty-input failure (`EmptyInput`) comes from pandas, not from the repository's own code. `read_csv` raises `EmptyDataError` on an empty file. An empty sheet leaves no row for `iloc[0]`, which raises `IndexError`.
- Parquet encoding and decoding are parameters. Round-trip fidelity is an explicit hypothesis (`CacheCrud.RoundTrips`), not a proved fact.
- The disk cache is a plain map. Eviction, the size limit, expiry, sharding, the lazy singleton, directory creation and the exit hook (`tornotradingcraft/cache.py`) are library and filesystem plumbing. The adapter's own cache module is not part of this model.
- `Paths.BaseName`: paths are strings split on '/'. pathlib's removal of trailing separators and `.` components is not modelled, and neither are Windows separators or the resolution of the default directory.
- `Paths.Lower` folds ASCII letters only. Dispatch is unaffected, because no other character lower-cases to the letters of ".csv", ".xls" or ".xlsx".
- `SymbolInfo` fields other than `symbol` hold any cell value. They are not narrowed to strings, because the dataclass stores what it is given.
- `ConvertToParquetAndStore` does not model the contents or atomicity of a failed write. It records only that the write was attempted.
- Whether the package's default assets directory equals `ASSETS_PATH` is not modelled. `update_supported_symbols` writes under the `packageAssets` parameter, and the loader reads under the `assetsDir` parameter.
- Logging is not modelled. `CacheCrud.Save` returns a `SaveOutcome` in place of the log line; the source itself returns nothing.
- The provider stubs are not modelled: `get_symbol_info`, `get_quote`, `fetch_bulk_quotes`, `get_historical_prices`, `get_historical_data` and `search_symbols` only raise NotImplementedError.
- `Quote`, `OHLCV` and the abstract `DataProvider` base class carry no behaviour and are not modelled. `Quote` and `OHLCV` also use floats and datetimes.
- `config.py` (the resource path lookup) and the package `__init__` re-exports are not modelled.
- Duplicate column names in a table are not modelled. Records are taken as given, as `to_dict` would produce them.

## Findings

| source | as written | input that shows it | evidently intended | confidence | as-written member | corrected member |
|---|---|---|---|---|---|---|
| tornotradingcraft/providers/yahoofinance_provider.py:16-22 | `update_supported_symbols` rewrites the asset file but never touches the cache, so the loader keeps serving the table cached under "YahooFinance.parquet" | table T cached under "YahooFinance.parquet", then an update from a file whose tickers differ from T's; the next `get_supported_symbols` still returns T's symbols | the docstring says the update refreshes the cached list, so the cached table should be dropped once the new file is written | not executed; medium, since "cached list" may refer to the asset file itself | YahooFinanceProvider.StaleSymbolsAfterUpdate | YahooFinanceProvider.RefreshIsSeenByLoader |
