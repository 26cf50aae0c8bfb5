/** The Yahoo Finance provider's symbol universe: a cache-then-asset
    fallback that loads the provider's table, checks it has a "Ticker"
    column and maps each row with a ticker to a `SymbolInfo`. Whether the
    packaged asset exists and what it decodes to is the `asset` parameter;
    the asset directory is the `assetsDir` parameter. */
module YahooFinanceProvider {
  import opened Wrappers
  import opened Errors
  import opened Frames
  import opened Paths
  import opened Seqs
  import opened Providers
  import CacheCrud
  import AssetsCrud

  /** The provider's `name` property. */
  const ProviderName: string := "YahooFinance"

  /** The key the table is cached under. */
  const CacheKey: string := ProviderName + ".parquet"

  /** The name of the packaged asset file. */
  const AssetFileName: string := ProviderName + ".parquet"

  /** The packaged asset file as the loader finds it. */
  datatype Asset = Absent | Corrupt(raised: string) | Readable(frame: Frame)

  datatype Outcome = Outcome(result: Result<seq<SymbolInfo>, Error>, cache: CacheCrud.Cache)

  /** The cache key and the asset file share one name. */
  lemma KeyAndFileNameAgree()
    ensures CacheKey == AssetFileName == "YahooFinance.parquet"
  {
  }

  function AssetPath(assetsDir: string): string
  {
    Join(assetsDir, AssetFileName)
  }

  // ------------------------------------------------------ record -> symbol

  /** `rec.get("Ticker") is not None`. */
  predicate HasTicker(rec: Record)
  {
    Get(rec, "Ticker").Some?
  }

  /** The `SymbolInfo` built from one record: the ticker rendered by `str`,
      the other fields read from their columns, `None` when absent. */
  function ToSymbolInfo(rec: Record): (si: SymbolInfo)
    ensures HasTicker(rec) && rec["Ticker"].value.Text? ==> si.symbol == rec["Ticker"].value.s
    ensures HasTicker(rec) && rec["Ticker"].value.NonText? ==> si.symbol == rec["Ticker"].value.repr
    ensures !HasTicker(rec) ==> si.symbol == "None"
    ensures "Name" !in rec ==> si.name == None
    ensures "Exchange" !in rec ==> si.exchange == None
    ensures "Category Name" !in rec ==> si.categoryName == None
    ensures "Country" !in rec ==> si.country == None
    ensures "Currency" !in rec ==> si.currency == None
    ensures "Name" in rec ==> si.name == rec["Name"]
    ensures "Exchange" in rec ==> si.exchange == rec["Exchange"]
    ensures "Category Name" in rec ==> si.categoryName == rec["Category Name"]
    ensures "Country" in rec ==> si.country == rec["Country"]
    ensures "Currency" in rec ==> si.currency == rec["Currency"]
  {
    SymbolInfo(
      symbol := Str(Get(rec, "Ticker")),
      name := Get(rec, "Name"),
      exchange := Get(rec, "Exchange"),
      categoryName := Get(rec, "Category Name"),
      country := Get(rec, "Country"),
      currency := Get(rec, "Currency"))
  }

  /** The records with a ticker, in order, as symbols. */
  function Symbols(records: seq<Record>): seq<SymbolInfo>
  {
    FilterMap(records, HasTicker, ToSymbolInfo)
  }

  /** The column check followed by the mapping. */
  function SymbolsFrom(df: Frame, path: string): (r: Result<seq<SymbolInfo>, Error>)
    ensures r.Failure? <==> "Ticker" !in df.columns
    ensures r.Failure? ==> r.error == MissingColumns({"Ticker"}, path) && ExceptionClass(r.error) == "ValueError"
    ensures r.Success? ==> r.value == Symbols(df.records) && |r.value| <= |df.records|
  {
    if "Ticker" !in df.columns then Failure(MissingColumns({"Ticker"}, path))
    else Success(Symbols(df.records))
  }

  /** A symbol is produced exactly for each record that has a ticker. */
  lemma SymbolsAreTickeredRecords(records: seq<Record>, si: SymbolInfo)
    ensures si in Symbols(records) <==> exists i :: 0 <= i < |records| && HasTicker(records[i]) && ToSymbolInfo(records[i]) == si
  {
    FilterMapMembership(records, HasTicker, ToSymbolInfo, si);
  }

  /** Source order is kept: the symbols of two blocks of records are those
      of the first block followed by those of the second. */
  lemma SymbolsKeepSourceOrder(a: seq<Record>, b: seq<Record>)
    ensures Symbols(a + b) == Symbols(a) + Symbols(b)
  {
    FilterMapAppend(a, b, HasTicker, ToSymbolInfo);
  }

  /** When every record has a ticker no row is skipped, and the i-th symbol
      comes from the i-th record. */
  lemma EveryTickeredRowIsKept(records: seq<Record>)
    requires forall i :: 0 <= i < |records| ==> HasTicker(records[i])
    ensures |Symbols(records)| == |records|
    ensures forall i :: 0 <= i < |records| ==> Symbols(records)[i] == ToSymbolInfo(records[i])
  {
    FilterMapAllKept(records, HasTicker, ToSymbolInfo);
  }

  /** A table written by ingestion holds a string in every cell, so once its
      "Ticker" column is there, no row of it is skipped: a ticker that was
      missing in the raw file arrives as the string form of null. */
  lemma StringCellsKeepEveryRow(records: seq<Record>)
    requires forall i :: 0 <= i < |records| ==> "Ticker" in records[i]
    requires forall i, key :: 0 <= i < |records| && key in records[i] ==> records[i][key].Some? && records[i][key].value.Text?
    ensures |Symbols(records)| == |records|
    ensures forall i :: 0 <= i < |records| ==> Symbols(records)[i].symbol == records[i]["Ticker"].value.s
  {
    assert forall i :: 0 <= i < |records| ==> HasTicker(records[i]) by {
      forall i | 0 <= i < |records| ensures HasTicker(records[i]) {
        assert records[i]["Ticker"].Some?;
      }
    }
    EveryTickeredRowIsKept(records);
  }

  /** Of `[{Ticker: "AAPL", Name: "Apple"}, {Ticker: None}]` only the first
      row becomes a symbol. */
  lemma AppleExample()
    ensures Symbols([map["Ticker" := Some(Text("AAPL")), "Name" := Some(Text("Apple"))], map["Ticker" := None]])
         == [SymbolInfo("AAPL", Some(Text("Apple")), None, None, None, None)]
  {
  }

  // ------------------------------------------------------- the fallback

  /** The cache holds nothing usable under the key and the load did not raise. */
  predicate Miss(cache: CacheCrud.Cache, decode: CacheCrud.Bytes -> Option<Frame>)
  {
    CacheCrud.Load(cache, CacheKey, decode) == Success(None)
  }

  /** The cache yields a table under the key. */
  predicate Hit(cache: CacheCrud.Cache, decode: CacheCrud.Bytes -> Option<Frame>)
  {
    var loaded := CacheCrud.Load(cache, CacheKey, decode);
    loaded.Success? && loaded.value.Some?
  }

  /** `get_supported_symbols()`, as a function of the cache it starts from:
      the result and the cache it leaves behind. */
  function SupportedSymbols(cache: CacheCrud.Cache, assetsDir: string, asset: Asset,
                            encode: Frame -> Option<CacheCrud.Bytes>, decode: CacheCrud.Bytes -> Option<Frame>,
                            storeFails: bool): (r: Outcome)
    ensures forall k :: k in cache && k != CacheKey ==> k in r.cache && r.cache[k] == cache[k]
    ensures r.cache.Keys <= cache.Keys + {CacheKey}
    ensures var loaded := CacheCrud.Load(cache, CacheKey, decode);
      loaded.Failure? ==> r == Outcome(Failure(loaded.error), cache)
    ensures var loaded := CacheCrud.Load(cache, CacheKey, decode);
      loaded.Success? && loaded.value.Some? ==> r == Outcome(SymbolsFrom(loaded.value.value, AssetPath(assetsDir)), cache)
    ensures Miss(cache, decode) && asset.Absent? ==> r == Outcome(Failure(AssetNotFound(AssetPath(assetsDir))), cache)
    ensures Miss(cache, decode) && asset.Corrupt? ==> r == Outcome(Failure(AssetUnreadable(AssetPath(assetsDir), asset.raised)), cache)
    ensures Miss(cache, decode) && asset.Readable? ==>
      && r.result == SymbolsFrom(asset.frame, AssetPath(assetsDir))
      && r.cache == CacheCrud.Save(cache, CacheKey, CacheCrud.DataFrame(asset.frame), encode, storeFails).cache
  {
    var path := AssetPath(assetsDir);
    match CacheCrud.Load(cache, CacheKey, decode)
    case Failure(e) => Outcome(Failure(e), cache)
    case Success(Some(df)) => Outcome(SymbolsFrom(df, path), cache)
    case Success(None) =>
      match asset
      case Absent => Outcome(Failure(AssetNotFound(path)), cache)
      case Corrupt(raised) => Outcome(Failure(AssetUnreadable(path, raised)), cache)
      case Readable(df) =>
        var saved := CacheCrud.Save(cache, CacheKey, CacheCrud.DataFrame(df), encode, storeFails);
        Outcome(SymbolsFrom(df, path), saved.cache)
  }

  /** The same, with the mapping done by a loop over the records as in the
      source. */
  method GetSupportedSymbols(cache: CacheCrud.Cache, assetsDir: string, asset: Asset,
                             encode: Frame -> Option<CacheCrud.Bytes>, decode: CacheCrud.Bytes -> Option<Frame>,
                             storeFails: bool)
    returns (result: Result<seq<SymbolInfo>, Error>, cache': CacheCrud.Cache)
    ensures Outcome(result, cache') == SupportedSymbols(cache, assetsDir, asset, encode, decode, storeFails)
  {
    var path := AssetPath(assetsDir);
    var df: Frame;
    cache' := cache;
    var cached := CacheCrud.Load(cache, CacheKey, decode);
    if cached.Failure? {
      return Failure(cached.error), cache';
    }
    if cached.value.Some? {
      df := cached.value.value;
    } else {
      match asset {
        case Absent =>
          return Failure(AssetNotFound(path)), cache';
        case Corrupt(raised) =>
          return Failure(AssetUnreadable(path, raised)), cache';
        case Readable(f) =>
          df := f;
          cache' := CacheCrud.Save(cache, CacheKey, CacheCrud.DataFrame(df), encode, storeFails).cache;
      }
    }
    if "Ticker" !in df.columns {
      return Failure(MissingColumns({"Ticker"}, path)), cache';
    }
    var symbols: seq<SymbolInfo> := [];
    var i := 0;
    while i < |df.records|
      invariant 0 <= i <= |df.records|
      invariant symbols == Symbols(df.records[..i])
    {
      var rec := df.records[i];
      SymbolsKeepSourceOrder(df.records[..i], [rec]);
      assert df.records[..i + 1] == df.records[..i] + [rec];
      if Get(rec, "Ticker").Some? {
        symbols := symbols + [ToSymbolInfo(rec)];
      }
      i := i + 1;
    }
    assert df.records[..i] == df.records;
    return Success(symbols), cache';
  }

  /** On a cache hit the asset is not looked at and nothing is written:
      the outcome is the same whatever the asset, the codec's encoder or
      the store's health. */
  lemma CacheHitIgnoresAsset(cache: CacheCrud.Cache, assetsDir: string, asset: Asset, asset': Asset,
                             encode: Frame -> Option<CacheCrud.Bytes>, encode': Frame -> Option<CacheCrud.Bytes>,
                             decode: CacheCrud.Bytes -> Option<Frame>, storeFails: bool, storeFails': bool)
    requires Hit(cache, decode)
    ensures SupportedSymbols(cache, assetsDir, asset, encode, decode, storeFails).cache == cache
    ensures SupportedSymbols(cache, assetsDir, asset, encode, decode, storeFails)
         == SupportedSymbols(cache, assetsDir, asset', encode', decode, storeFails')
  {
  }

  /** A cached object whose truth value is ambiguous makes the load raise
      `ValueError`, and nothing catches it: the call fails before the asset
      is looked at, leaving the cache as it was. */
  lemma AmbiguousCachedObjectEscapes(cache: CacheCrud.Cache, assetsDir: string, asset: Asset,
                                     encode: Frame -> Option<CacheCrud.Bytes>, decode: CacheCrud.Bytes -> Option<Frame>, storeFails: bool)
    requires CacheKey in cache && cache[CacheKey] == CacheCrud.OtherObject(None)
    ensures var r := SupportedSymbols(cache, assetsDir, asset, encode, decode, storeFails);
      && r.result == Failure(AmbiguousTruthValue("YahooFinance.parquet"))
      && ExceptionClass(r.result.error) == "ValueError"
      && r.cache == cache
  {
    KeyAndFileNameAgree();
  }

  /** A miss with no asset file fails with `FileNotFoundError` and leaves
      the cache as it was. */
  lemma MissWithoutAssetFails(cache: CacheCrud.Cache, assetsDir: string,
                              encode: Frame -> Option<CacheCrud.Bytes>, decode: CacheCrud.Bytes -> Option<Frame>, storeFails: bool)
    requires Miss(cache, decode)
    ensures var r := SupportedSymbols(cache, assetsDir, Absent, encode, decode, storeFails);
      && r.result == Failure(AssetNotFound(Join(assetsDir, "YahooFinance.parquet")))
      && ExceptionClass(r.result.error) == "FileNotFoundError"
      && r.cache == cache
  {
    KeyAndFileNameAgree();
  }

  /** A table without a "Ticker" column is refused with a `ValueError`,
      whether it came from the cache or from the asset. */
  lemma TickerColumnRequired(cache: CacheCrud.Cache, assetsDir: string, asset: Asset,
                             encode: Frame -> Option<CacheCrud.Bytes>, decode: CacheCrud.Bytes -> Option<Frame>, storeFails: bool)
    ensures var loaded := CacheCrud.Load(cache, CacheKey, decode);
      var r := SupportedSymbols(cache, assetsDir, asset, encode, decode, storeFails);
      ((Hit(cache, decode) && "Ticker" !in loaded.value.value.columns)
        || (Miss(cache, decode) && asset.Readable? && "Ticker" !in asset.frame.columns))
        <==> r.result.Failure? && r.result.error.MissingColumns?
  {
  }

  /** The cache write comes before the column check: on a miss, a
      non-empty asset without a "Ticker" column is stored in the cache and
      then refused. */
  lemma TickerlessAssetIsCachedThenRefused(cache: CacheCrud.Cache, assetsDir: string, df: Frame,
                                           encode: Frame -> Option<CacheCrud.Bytes>, decode: CacheCrud.Bytes -> Option<Frame>)
    requires Miss(cache, decode)
    requires !IsEmpty(df) && "Ticker" !in df.columns && encode(df).Some?
    ensures var r := SupportedSymbols(cache, assetsDir, Readable(df), encode, decode, false);
      && r.result == Failure(MissingColumns({"Ticker"}, AssetPath(assetsDir)))
      && CacheKey in r.cache && r.cache[CacheKey] == CacheCrud.Blob(encode(df).value)
  {
  }

  /** Save failures never reach the caller: on a miss with a readable
      asset, the result does not depend on the encoder or on the store. */
  lemma SaveFailuresDoNotPropagate(cache: CacheCrud.Cache, assetsDir: string, df: Frame,
                                   encode: Frame -> Option<CacheCrud.Bytes>, encode': Frame -> Option<CacheCrud.Bytes>,
                                   decode: CacheCrud.Bytes -> Option<Frame>, storeFails: bool, storeFails': bool)
    requires Miss(cache, decode)
    ensures SupportedSymbols(cache, assetsDir, Readable(df), encode, decode, storeFails).result
         == SupportedSymbols(cache, assetsDir, Readable(df), encode', decode, storeFails').result
         == SymbolsFrom(df, AssetPath(assetsDir))
  {
  }

  /** With a codec that round-trips and no eviction, a second call after a
      successful fill is served from the cache: same result, no further
      write, and the asset no longer matters. */
  lemma SecondCallServedFromCache(cache: CacheCrud.Cache, assetsDir: string, df: Frame, asset': Asset,
                                  encode: Frame -> Option<CacheCrud.Bytes>, decode: CacheCrud.Bytes -> Option<Frame>,
                                  storeFails': bool)
    requires Miss(cache, decode)
    requires !IsEmpty(df) && CacheCrud.RoundTrips(df, encode, decode)
    ensures var first := SupportedSymbols(cache, assetsDir, Readable(df), encode, decode, false);
      var second := SupportedSymbols(first.cache, assetsDir, asset', encode, decode, storeFails');
      second == first
  {
  }

  // ---------------------------------------------------------- ingestion

  /** What an update leaves behind: it returns nothing or raises, and its
      filesystem actions. */
  datatype UpdateOutcome = UpdateOutcome(result: Result<(), Error>, effects: seq<AssetsCrud.Effect>)

  /** `update_supported_symbols(filepath)`: ingest under the provider's name
      and discard the path the ingestion returns. */
  function UpdateSupportedSymbols(filePath: string, grid: AssetsCrud.RawGrid, stringify: Option<Value> -> string,
                                  packageAssets: string, canMakeDir: string -> bool,
                                  canWrite: (string, AssetsCrud.ParsedTable) -> bool): (r: UpdateOutcome)
    ensures var ingested := AssetsCrud.UpdateAssetFile(filePath, Some(AssetFileName), grid, stringify, packageAssets, canMakeDir, canWrite);
      && r.effects == ingested.effects
      && (r.result.Success? <==> ingested.result.Success?)
      && (r.result.Failure? ==> r.result.error == ingested.result.error)
    ensures r.result.Success? ==>
      && |r.effects| > 0
      && r.effects[|r.effects| - 1].WriteParquet?
      && r.effects[|r.effects| - 1].path == Join(packageAssets, AssetFileName)
      && BaseName(r.effects[|r.effects| - 1].path) == AssetFileName
  {
    NormalisedProviderName(Stem(filePath));
    JoinEndsInName(packageAssets, AssetFileName);
    var ingested := AssetsCrud.UpdateAssetFile(filePath, Some(ProviderName), grid, stringify, packageAssets, canMakeDir, canWrite);
    match ingested.result
    case Success(_) => UpdateOutcome(Success(()), ingested.effects)
    case Failure(e) => UpdateOutcome(Failure(e), ingested.effects)
  }

  /** The update writes the asset file but leaves the cache alone: while a
      table is cached under the key, the loader's outcome after a successful
      update is the same whatever the asset now holds. That the cache is left
      alone is structural (the update is given no cache), so this is the
      cache-hit property read at the moment after an update. */
  lemma UpdateLeavesCachedTableInPlace(cache: CacheCrud.Cache, assetsDir: string, asset: Asset, asset': Asset,
                                       filePath: string, grid: AssetsCrud.RawGrid, stringify: Option<Value> -> string,
                                       packageAssets: string, canMakeDir: string -> bool,
                                       canWrite: (string, AssetsCrud.ParsedTable) -> bool,
                                       encode: Frame -> Option<CacheCrud.Bytes>, decode: CacheCrud.Bytes -> Option<Frame>,
                                       storeFails: bool)
    requires Hit(cache, decode)
    ensures UpdateSupportedSymbols(filePath, grid, stringify, packageAssets, canMakeDir, canWrite).result.Success? ==>
      SupportedSymbols(cache, assetsDir, asset', encode, decode, storeFails)
        == SupportedSymbols(cache, assetsDir, asset, encode, decode, storeFails)
  {
  }

  /** Concretely: with table `cached` in the cache, a call after an update
      that wrote any other table `written` still returns the symbols of `cached`, and
      so not those of `written` when the two differ. */
  lemma StaleSymbolsAfterUpdate(cache: CacheCrud.Cache, assetsDir: string, cached: Frame, written: Frame,
                                filePath: string, grid: AssetsCrud.RawGrid, stringify: Option<Value> -> string,
                                packageAssets: string, canMakeDir: string -> bool,
                                canWrite: (string, AssetsCrud.ParsedTable) -> bool,
                                encode: Frame -> Option<CacheCrud.Bytes>, decode: CacheCrud.Bytes -> Option<Frame>,
                                storeFails: bool)
    requires CacheCrud.RoundTrips(cached, encode, decode) && "Ticker" in cached.columns
    requires CacheKey in cache && cache[CacheKey] == CacheCrud.Blob(encode(cached).value)
    requires "Ticker" in written.columns && Symbols(written.records) != Symbols(cached.records)
    ensures UpdateSupportedSymbols(filePath, grid, stringify, packageAssets, canMakeDir, canWrite).result.Success? ==>
      var r := SupportedSymbols(cache, assetsDir, Readable(written), encode, decode, storeFails);
      r.result == Success(Symbols(cached.records)) && r.result != SymbolsFrom(written, AssetPath(assetsDir))
  {
  }

  datatype Refreshed = Refreshed(stored: UpdateOutcome, cache: CacheCrud.Cache)

  /** The update as its documentation describes it: ingest under the
      provider's name and, once the file is written, drop the cached table
      so the next call reads the new asset. */
  function RefreshSupportedSymbols(cache: CacheCrud.Cache, filePath: string, grid: AssetsCrud.RawGrid,
                                   stringify: Option<Value> -> string, packageAssets: string, canMakeDir: string -> bool,
                                   canWrite: (string, AssetsCrud.ParsedTable) -> bool): (r: Refreshed)
    ensures r.stored == UpdateSupportedSymbols(filePath, grid, stringify, packageAssets, canMakeDir, canWrite)
    ensures r.stored.result.Failure? ==> r.cache == cache
    ensures r.stored.result.Success? ==> CacheKey !in r.cache && r.cache.Keys == cache.Keys - {CacheKey}
    ensures forall k :: k in cache && k != CacheKey ==> k in r.cache && r.cache[k] == cache[k]
  {
    var stored := UpdateSupportedSymbols(filePath, grid, stringify, packageAssets, canMakeDir, canWrite);
    if stored.result.Success? then Refreshed(stored, cache - {CacheKey}) else Refreshed(stored, cache)
  }

  /** After a successful refresh the loader reads the asset again, whatever
      was cached before: the result is that of the new table. */
  lemma RefreshIsSeenByLoader(cache: CacheCrud.Cache, assetsDir: string, written: Frame,
                              filePath: string, grid: AssetsCrud.RawGrid, stringify: Option<Value> -> string,
                              packageAssets: string, canMakeDir: string -> bool,
                              canWrite: (string, AssetsCrud.ParsedTable) -> bool,
                              encode: Frame -> Option<CacheCrud.Bytes>, decode: CacheCrud.Bytes -> Option<Frame>,
                              storeFails: bool)
    ensures var r := RefreshSupportedSymbols(cache, filePath, grid, stringify, packageAssets, canMakeDir, canWrite);
      r.stored.result.Success? ==>
        SupportedSymbols(r.cache, assetsDir, Readable(written), encode, decode, storeFails).result == SymbolsFrom(written, AssetPath(assetsDir))
  {
  }

  /** The provider name normalises to the file name the loader reads. */
  lemma NormalisedProviderName(stem: string)
    ensures AssetsCrud.NormaliseParquetName(Some(ProviderName), stem) == AssetFileName
    ensures '/' !in AssetFileName && |AssetFileName| > 0
  {
  }
}
