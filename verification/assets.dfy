/**
 * The items of the investment simulator's portfolio.
 *
 * The script handles two shapes of item. Equities come from `dict.items()`
 * as `(ticker, last close)` pairs and cryptocurrencies as
 * `(coin, {'brl': price})` pairs; both are tuples ranked by a price, so both
 * are a label with that price here (the crypto pair keeps only its BRL
 * price). The fixed-income and fund catalogues are records
 * `{nome, rentabilidade}` holding a stated monthly rate. Both shapes are one tagged variant here; the ranking key, the
 * display label and the daily growth rate are dispatched on the tag.
 */
module Assets {

  datatype Asset =
    | PricePair(name: string, price: real)              // (ticker, last close) or (coin, BRL spot price)
    | RateRecord(nome: string, rentabilidade: real)     // catalogue product with its monthly rate

  /**
   * The ranking key, one per `key=lambda`: the price of a pair (`x[1]`, or
   * `x[1]['brl']` for a coin), the monthly rate of a record (`x['rentabilidade']`).
   */
  function Key(a: Asset): real {
    match a
    case PricePair(_, v) => v
    case RateRecord(_, m) => m
  }

  /** The label shown next to an item: the first component of a pair, `nome` of a record. */
  function Label(a: Asset): (l: string)
    ensures a.PricePair? ==> l == a.name
    ensures a.RateRecord? ==> l == a.nome
  {
    match a
    case PricePair(l, _) => l
    case RateRecord(n, _) => n
  }

  /** The fixed daily growth assumed for every priced asset, whatever its price. */
  const PriceDailyRate: real := 0.001

  /** The number of days a monthly rate is spread over, linearly. */
  const DaysPerMonth: real := 30.0

  /**
   * The daily rate an item is projected with: the fixed policy rate for a
   * priced asset, and the monthly rate divided by 30 for a catalogue record.
   */
  function DailyRate(a: Asset): (r: real)
    ensures a.PricePair? ==> r == PriceDailyRate
    ensures a.RateRecord? ==> r * DaysPerMonth == a.rentabilidade
    ensures a.RateRecord? ==> (r > 0.0 <==> a.rentabilidade > 0.0)
  {
    match a
    case PricePair(_, _) => PriceDailyRate
    case RateRecord(_, m) => m / DaysPerMonth
  }

  predicate AllPricePairs(s: seq<Asset>) {
    forall i :: 0 <= i < |s| ==> s[i].PricePair?
  }

  /** The simulated fixed-income catalogue, in the order the script lists it. */
  const FixedIncomeCatalogue: seq<Asset> := [
    RateRecord("CDB 110% CDI", 0.11),
    RateRecord("LCI 100% CDI", 0.10),
    RateRecord("CDB 120% CDI", 0.12)
  ]

  /** The simulated fund catalogue, in the order the script lists it. */
  const FundCatalogue: seq<Asset> := [
    RateRecord("Fundo Ações", 0.08),
    RateRecord("Fundo Renda Fixa", 0.05),
    RateRecord("Fundo Multimercado", 0.07)
  ]

  /** A monthly rate of 12% becomes a daily rate of 0.4%. */
  lemma DailyRateOfTwelvePercent()
    ensures DailyRate(RateRecord("CDB 120% CDI", 0.12)) == 0.004
  {
  }
}
