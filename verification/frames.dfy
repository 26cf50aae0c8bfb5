/** Tables as the symbol loader and the cache adapter see them: a column
    list and the rows as `to_dict(orient="records")` yields them. */
module Frames {
  import opened Wrappers

  /** A non-null cell. `Text` is a Python `str`; `NonText` is any other
      object (a number, a timestamp, or NaN in a table read back from
      Parquet) carrying what `str()` renders it as. In the reader's raw grid
      a missing cell is never a `NonText`: there it is `None`. */
  datatype Value = Text(s: string) | NonText(repr: string)

  /** One row as a dictionary; a `None` entry is Python's `None`. */
  type Record = map<string, Option<Value>>

  datatype Frame = Frame(columns: seq<string>, records: seq<Record>)

  /** `DataFrame.empty`: no rows or no columns. */
  predicate IsEmpty(f: Frame)
  {
    |f.columns| == 0 || |f.records| == 0
  }

  /** `rec.get(key)`: `None` both for a missing key and a stored `None`. */
  function Get(rec: Record, key: string): Option<Value>
  {
    if key in rec then rec[key] else None
  }

  /** `str(v)`. */
  function Str(v: Option<Value>): string
  {
    match v
    case None => "None"
    case Some(Text(s)) => s
    case Some(NonText(repr)) => repr
  }
}
