/** The provider data-transfer objects: only `SymbolInfo` takes part in the
    modelled behaviour. */
module Providers {
  import opened Wrappers
  import opened Frames

  /** Identity of a tradable instrument. The optional fields are typed
      `Optional[str]` in the source, but the dataclass stores whatever value
      it is handed, so they hold any cell value. */
  datatype SymbolInfo = SymbolInfo(
    symbol: string,
    name: Option<Value>,
    exchange: Option<Value>,
    categoryName: Option<Value>,
    country: Option<Value>,
    currency: Option<Value>)
}
