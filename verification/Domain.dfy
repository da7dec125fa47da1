/** Entities shared by every component (packages/shared-types/src). */
module Domain {

  datatype Exchange = Bybit | Mexc

  datatype Side = Buy | Sell

  datatype Regime = LowVol | NormalVol | HighVol | Chaotic

  datatype Mode = ReadOnly | PaperMode | Normal | Defensive | Halt

  datatype DriftStatus = Match | SoftDrift | HardDrift | CriticalDrift

  type OrderId = string

  /** Fill ids keep the parts the source formats into a string: its formats are injective and never clash. */
  datatype FillId =
    | PaperFillId(order: OrderId, at: int)
    | LedgerFillId(at: int, tag: string)
    | OpeningFillId
    | ExchangeFillId(text: string)

  /** What a fee was charged in, against the treasury's base and quote assets. */
  datatype FeeAsset = FeeInQuote | FeeInBase | FeeElsewhere

  datatype Fill = Fill(fillId: FillId, clientOrderId: OrderId, side: Side, price: real, size: real, fee: real,
    feeAsset: FeeAsset, filledAt: int)

  function FilledAt(f: Fill): int { f.filledAt }
}
