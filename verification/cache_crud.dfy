/** The tabular cache adapter: a best-effort save and a load that swallows
    every decoding failure, of tables over a string-keyed disk cache. The cache is a plain map;
    eviction, size limits and expiry belong to the cache library and are not
    part of this model. Parquet encoding and decoding are parameters: an
    encoder that may fail and a decoder that may reject its input. */
module CacheCrud {
  import opened Wrappers
  import opened Frames
  import opened Errors

  type Bytes = seq<bv8>

  /** What a cache slot can hold: a `bytes` object, `None`, or any other
      Python object. For the latter, `truthy` is its truth value, or `None`
      when `bool()` of it raises, as it does for a DataFrame or an array of
      several elements. */
  datatype CachedValue = Blob(data: Bytes) | PyNone | OtherObject(truthy: Option<bool>)

  type Cache = map<string, CachedValue>

  /** The argument handed to `save_df_to_cache`: a DataFrame or anything else. */
  datatype Candidate = DataFrame(frame: Frame) | NotDataFrame

  /** What became of a save; the source only logs it. */
  datatype SaveOutcome = Skipped | Stored | SaveFailed

  datatype Saved = Saved(cache: Cache, outcome: SaveOutcome)

  /** `save_df_to_cache(key, df)`. `encode` is the in-memory Parquet write
      (`None` when it raises); `storeFails` says whether `cache.set` raises. */
  function Save(cache: Cache, key: string, df: Candidate, encode: Frame -> Option<Bytes>, storeFails: bool): (r: Saved)
    ensures r.outcome == Stored <==> df.DataFrame? && !IsEmpty(df.frame) && encode(df.frame).Some? && !storeFails
    ensures r.outcome == Skipped <==> df.NotDataFrame? || IsEmpty(df.frame)
    ensures r.outcome != Stored ==> r.cache == cache
    ensures r.outcome == Stored ==>
      && key in r.cache && r.cache[key] == Blob(encode(df.frame).value)
      && r.cache.Keys == cache.Keys + {key}
      && forall k :: k in cache && k != key ==> r.cache[k] == cache[k]
  {
    if df.NotDataFrame? || IsEmpty(df.frame) then
      Saved(cache, Skipped)
    else
      match encode(df.frame)
      case None => Saved(cache, SaveFailed)
      case Some(b) => if storeFails then Saved(cache, SaveFailed) else Saved(cache[key := Blob(b)], Stored)
  }

  /** `cache.get(key)`: `None` when the key is absent. */
  function Lookup(cache: Cache, key: string): CachedValue
  {
    if key in cache then cache[key] else PyNone
  }

  /** Python's `bool(v)`: `None` when the truth test raises. */
  function Truth(v: CachedValue): Option<bool>
  {
    match v
    case Blob(data) => Some(|data| > 0)
    case PyNone => Some(false)
    case OtherObject(t) => t
  }

  /** The branches of `load_df_from_cache`, in source order, preceded by
      the truth test of the first condition raising. */
  datatype LoadBranch = TruthTestRaises | Decode | NotBytesWarning | NoneMiss | OtherMiss

  /** The `if`/`elif`/`else` of the load, written as in the source: the
      first condition tests the value's truth before its type, and the inner
      `isinstance` test repeats the outer one, so the warning branch is dead. */
  function Branch(v: CachedValue): (b: LoadBranch)
    ensures b != NotBytesWarning
    ensures b == TruthTestRaises <==> v.OtherObject? && v.truthy.None?
    ensures b == Decode <==> v.Blob? && |v.data| > 0
    ensures b == NoneMiss <==> v.PyNone?
    ensures b == OtherMiss <==> (v.Blob? && |v.data| == 0) || v == OtherObject(Some(true)) || v == OtherObject(Some(false))
  {
    match Truth(v)
    case None => TruthTestRaises
    case Some(truthy) =>
      if truthy && v.Blob? then
        (if v.Blob? then Decode else NotBytesWarning)
      else if v.PyNone? then NoneMiss
      else OtherMiss
  }

  /** `load_df_from_cache(key)`. `decode` is `pd.read_parquet` on the bytes
      (`None` when it raises). Every failure of the decoder is caught; the
      only exception that escapes is the `ValueError` of a stored object
      whose truth value is ambiguous. */
  function Load(cache: Cache, key: string, decode: Bytes -> Option<Frame>): (r: Result<Option<Frame>, Error>)
    ensures r.Failure? <==> key in cache && cache[key].OtherObject? && cache[key].truthy.None?
    ensures r.Failure? ==> r.error == AmbiguousTruthValue(key) && ExceptionClass(r.error) == "ValueError"
    ensures key !in cache ==> r == Success(None)
    ensures key in cache && (cache[key].PyNone? || cache[key] == Blob([])) ==> r == Success(None)
    ensures key in cache && cache[key].OtherObject? && cache[key].truthy.Some? ==> r == Success(None)
    ensures key in cache && cache[key].Blob? && |cache[key].data| > 0 ==> r == Success(decode(cache[key].data))
  {
    var v := Lookup(cache, key);
    match Branch(v)
    case TruthTestRaises => Failure(AmbiguousTruthValue(key))
    case Decode => Success(decode(v.data))
    case NotBytesWarning => Success(None)
    case NoneMiss => Success(None)
    case OtherMiss => Success(None)
  }

  /** A value the adapter itself stored never makes the load raise: every
      slot written by `Save` holds bytes. */
  lemma SavedSlotsNeverRaise(cache: Cache, key: string, df: Candidate, encode: Frame -> Option<Bytes>,
                             storeFails: bool, decode: Bytes -> Option<Frame>)
    requires Load(cache, key, decode).Success?
    ensures Load(Save(cache, key, df, encode, storeFails).cache, key, decode).Success?
  {
  }

  /** Parquet round trip as an explicit assumption about the codec: the
      table encodes, to non-empty bytes, that decode back to it. */
  predicate RoundTrips(t: Frame, encode: Frame -> Option<Bytes>, decode: Bytes -> Option<Frame>)
  {
    encode(t).Some? && |encode(t).value| > 0 && decode(encode(t).value) == Some(t)
  }

  /** With no eviction in between, loading what was just saved gives back
      the table. */
  lemma SaveThenLoad(cache: Cache, key: string, t: Frame, encode: Frame -> Option<Bytes>, decode: Bytes -> Option<Frame>)
    requires !IsEmpty(t)
    requires RoundTrips(t, encode, decode)
    ensures Save(cache, key, DataFrame(t), encode, false).outcome == Stored
    ensures Load(Save(cache, key, DataFrame(t), encode, false).cache, key, decode) == Success(Some(t))
  {
  }

  /** The non-empty-bytes half of the assumption is needed: an encoder that
      produced no bytes would make the load treat the stored value as a miss. */
  lemma EmptyEncodingReadsAsMiss(cache: Cache, key: string, t: Frame, encode: Frame -> Option<Bytes>, decode: Bytes -> Option<Frame>)
    requires !IsEmpty(t)
    requires encode(t) == Some([])
    ensures Load(Save(cache, key, DataFrame(t), encode, false).cache, key, decode) == Success(None)
  {
  }

  /** A save under one key leaves the load of every other key as it was. */
  lemma SaveIsolatesOtherKeys(cache: Cache, key: string, other: string, df: Candidate, encode: Frame -> Option<Bytes>,
                              storeFails: bool, decode: Bytes -> Option<Frame>)
    requires other != key
    ensures Load(Save(cache, key, df, encode, storeFails).cache, other, decode) == Load(cache, other, decode)
  {
  }
}
