# Investment simulator: rank, allocate, project

This project models in Dafny the decision logic of a single-script Streamlit
investment simulator (`app.py`). It also proves properties of that model. The
script does three things:

1. **Ranks each asset class.** Equities are `(ticker, last close)` pairs.
   Cryptocurrencies are `(coin, {'brl': price})` pairs, which the model
   flattens to `(coin, BRL price)`. Each class is sorted by price, highest
   first, and cut to its top three. The fixed-income and fund catalogues are
   `{nome, rentabilidade}` records that hold a monthly rate. Each catalogue is
   sorted by that rate, highest first, and is not cut.
2. **Allocates equally.** The four rankings are put one after the other:
   equities, crypto, fixed income, funds. The capital is then divided equally
   over all of the items.
3. **Projects.** Each item's share is compounded daily for days 1 to 30. A
   priced asset grows at a fixed 0.1% a day. A catalogue record grows at its
   monthly rate divided by 30.

Python floats are modelled as exact `real`s. Python's stable `sorted(...,
reverse=True)` is modelled as a stable insertion sort, and the model proves
that this is the only possible stable descending sort. The result therefore
equals what `sorted` returns, whatever algorithm `sorted` uses.

Files, one module each:

- `assets.dfy`: the item variant `PricePair | RateRecord`, plus the ranking key, the label, the daily-rate dispatch and the two catalogue constants.
- `ranking.dfy`: the stable descending sort, the top three, stability, uniqueness and the truncation bound.
- `allocation.dfy`: the equal share and the suggested distribution.
- `projection.dfy`: the 30-day compound series and its monotonicity.
- `pipeline.dfy`: the portfolio concatenation, one whole run, and facts about the script's own catalogues.

Stability is stated with `KeyFilter(s, k)`: the items of `s` whose key is
`k`, in the order they appear in `s`. A sort is stable when it leaves every
`KeyFilter` unchanged.

## Model

| member | source | states |
|---|---|---|
| `Assets.Key` | app.py:25-53 | The ranking key of the four `key=lambda` expressions at lines 25, 33, 43 and 53: a pair's price (`x[1]`, or `x[1]['brl']` for a coin), a record's monthly rate (`x['rentabilidade']`). |
| `Assets.Label` | app.py:69-88 | The name an item is listed under (lines 69-72) and plotted under (lines 84-85, 87-88): the first component of a pair, or `nome` of a record. |
| `Assets.DailyRate` | app.py:84-89 | A price pair gets the fixed rate 0.001, whatever its price. A rate record gets a daily rate `r` with `30 * r == rentabilidade`, and `r` is positive exactly when the monthly rate is. |
| `Assets.DailyRateOfTwelvePercent` | app.py:89 | A monthly rate of 0.12 becomes a daily rate of exactly 0.004. |
| `Ranking.Insert` | app.py:43 | Inserting into a descending sequence keeps it descending and adds exactly the one item, as a multiset. |
| `Ranking.SortDesc` | app.py:43 | `sorted(..., reverse=True)` gives a non-increasing key order and a permutation of the input, of the same length. |
| `Ranking.SortDescStable` | app.py:53 | For every key, the sorted items with that key are the input's items with that key, in input order. |
| `Ranking.SortDescIsStableSort` | app.py:43 | The sort's result is a stable descending sort of its input. |
| `Ranking.StableSortUnique` | app.py:53 | Two descending sequences that agree on every key's items and their order are equal. |
| `Ranking.StableSortIsSortDesc` | app.py:43 | Any stable descending sort of the input is equal to the model's sort. |
| `Ranking.RankCatalogueKeepsProducts` | app.py:43-53 | The uncut catalogue rankings lose no product and add none: an item is in the catalogue exactly when it is in its ranking. |
| `Ranking.TopThree` | app.py:25 | `sorted(...)[:3]` has length `min(3, n)`, is in non-increasing key order, and holds only items of the input, with no more copies of any item than the input. |
| `Ranking.TopThreeStable` | app.py:33 | For every key, the top three's items with that key are the first ones of that key in the input, in input order. |
| `Ranking.TopThreeDropsOnlyLower` | app.py:25 | Every item the `[:3]` cut drops has a key no greater than that of every item it keeps. |
| `Allocation.Share` | app.py:65 | `share * count == total` exactly, and the share is positive when the capital is at least 1. |
| `Allocation.Distribution` | app.py:65-73 | Each portfolio item is listed with its label (the pair's first component or `nome`). Every amount is the one equal share, so all amounts are equal. They add up to exactly the capital, and each is positive when the capital is at least 1. |
| `Projection.Series` | app.py:94 | The 30-value list comprehension: day 1 is `share * (1 + r)`, and each day multiplies the previous day by `1 + r`. |
| `Projection.SeriesUnique` | app.py:94 | The recurrence determines the series: any 30 values that start at `share * (1 + r)` and grow by `1 + r` a day are exactly the comprehension's list. |
| `Projection.SeriesPositive` | app.py:94 | Every value is positive when the share is positive and `r > -1`. |
| `Projection.SeriesIncreasing` | app.py:94 | With `share > 0` and `r > 0`, the series is strictly increasing. |
| `Projection.SeriesConstant` | app.py:94 | With `r == 0`, every value equals the share. |
| `Projection.SeriesDecreasing` | app.py:94 | With `share > 0` and `-1 < r < 0`, the series is strictly decreasing. |
| `Pipeline.Portfolio` | app.py:64 | The portfolio's length is `min(3, #equities) + min(3, #crypto) + #fixed income + #funds`. |
| `Pipeline.PortfolioOrder` | app.py:25-64 | Stated in terms of the four inputs, the portfolio is four segments: the first `min(3, #equities)` items, the next `min(3, #crypto)`, the next `#fixed income`, then the rest. Each segment is in non-increasing key order. The equity and crypto segments are sub-multisets of their class, and no item of the class left out of a segment has a higher key than any item kept in it. The catalogue segments are permutations of their catalogue. Nothing is re-sorted across classes. |
| `Pipeline.PortfolioShapes` | app.py:64 | When the priced classes hold only pairs and the catalogues only records with positive rates, every item in the first `min(3, ·) + min(3, ·)` positions is a pair and every later item is such a record. |
| `Pipeline.Simulate` | app.py:65-95 | Over a non-empty portfolio there is one distribution line and one plotted line per item. Each line's name is the item's label and its daily rate is the dispatched rate. Each line's values are the series of its amount. Every amount is the equal share (so amount times item count is the capital), and the amounts add up to the capital. |
| `Pipeline.Run` | app.py:64-95 | A run has `min(3, #equities) + min(3, #crypto) + #fixed income + #funds` lines. Over the concatenated portfolio, line `i` carries item `i`'s label and daily rate. Every amount is the capital's equal share over the whole portfolio, and the amounts add up to the capital. |
| `Pipeline.ScriptRun` | app.py:38-65 | With the script's two three-product catalogues, a run has `min(3, #equities) + min(3, #crypto) + 6` lines, so the division is always defined. |
| `Pipeline.SimulationGrows` | app.py:83-94 | When every item is priced or has a positive monthly rate and the capital is at least 1, every plotted line rises strictly from day to day. |
| `Pipeline.SimulationRates` | app.py:84-92 | When the priced items come first, they are all projected at 0.001 a day, every later item at a positive rate, and every line rises. |
| `Pipeline.RunRates` | app.py:64-94 | The same holds for a whole run whose equities and crypto are priced pairs and whose catalogues have positive rates. |
| `Pipeline.RankedCatalogues` | app.py:38-53 | The fixed-income ranking is CDB 120%, CDB 110%, LCI 100%. The fund ranking is Fundo Ações, Fundo Multimercado, Fundo Renda Fixa. |
| `Pipeline.CataloguesPositive` | app.py:38-52 | Every catalogue product has a positive monthly rate. |
| `Pipeline.ScriptPortfolioCatalogues` | app.py:38-64 | In the script's portfolio, the priced items are followed by exactly these six products, in this order. |
| `Pipeline.ScriptRunGrows` | app.py:61-94 | In the script's own run, with priced equities and crypto and a capital of at least 1, every plotted line rises strictly. |

## Left out

- Streamlit output is not modelled (app.py:10-11, 17, 26-27, 34-35, 44-45, 54-55, 60, 67-73, 78). This covers page setup, headers and `st.write`. It also covers the numbering and the `:.2f` and `*100:.1f` formatting, and the `capitalize()` applied to coin names on display. The distribution is modelled as the (label, amount) pairs the loop at 68-73 writes.
- The capital widget (app.py:61) becomes a `real` parameter. Its `min_value=1.0` appears as the `total >= 1.0` precondition of the lemmas that need a positive share.
- The yfinance fetch loop (app.py:19-23) is network I/O. The equities are a parameter: a sequence of `(ticker, last close)` pairs in the ticker list's order. The `IndexError` on an empty price history is not modelled. A `dict` cannot hold the same ticker twice; the model accepts any sequence of pairs.
- The CoinGecko request (app.py:30-32) is network I/O. The cryptocurrencies are a parameter: `(coin, BRL price)` pairs in the response's order. A missing `brl` field (a `KeyError`) is not modelled.
- Each crypto item is `(coin, {'brl': price})` in the script, ranked by `x[1]['brl']` (app.py:33). The model flattens it to a price pair holding only the BRL price. The inner dictionary, and any other currency it could hold, is not modelled. Since the pair's second component is never read in the allocation or projection (app.py:69-72, 84-86), only the ranking uses the price.
- Matplotlib plotting (app.py:81, 95, 97-101) is not modelled. Only the plotted values, labels and rates are.
- Float rounding and IEEE semantics are not modelled. The arithmetic is exact over reals.
- The fallback branch at app.py:90-92 is not modelled. Every portfolio item is a tuple or a dict holding `rentabilidade`, so the branch cannot be reached, and the two-case variant leaves no third shape.
- `Allocation.Share` requires a non-empty portfolio. The script would raise `ZeroDivisionError` on an empty one, but its catalogues always contribute six items (`Pipeline.ScriptRun`).
- The fixed-income and fund rankings are sorted but not cut to three, although their headers and variable names say top 3 (app.py:37, 43, 47, 53). The model follows the code.
- The code has no error path for a non-positive capital. The widget's `min_value=1.0` (app.py:61) is the only guard.
- `Projection.SeriesDecreasing` requires `r > -1`. At `r <= -1` the factor `1 + r` is zero or negative, so the series is not decreasing. The script never produces such a rate.
- Running the simulation twice on the same inputs gives the same result. This holds because every member is a function of its inputs, so it has no separate lemma.
