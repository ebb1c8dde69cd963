/**
 * The whole simulation: rank each class, concatenate the four rankings into
 * the portfolio, divide the capital equally, and project every item over the
 * horizon at its class's daily rate.
 *
 * The equities' `(ticker, last close)` pairs and the cryptocurrencies'
 * `(coin, BRL price)` pairs are parameters (they come from the network); the
 * two catalogues are the script's constants.
 */
module Pipeline {
  import opened Assets
  import opened Ranking
  import opened Allocation
  import opened Projection

  /** One plotted line: an item's label, its daily rate and its values over the horizon. */
  datatype GrowthSeries = GrowthSeries(name: string, dailyRate: real, values: seq<real>)

  /** Everything a run computes for display: the distribution and the plotted lines. */
  datatype Simulation = Simulation(distribution: seq<Allocation>, series: seq<GrowthSeries>)

  /** `[*top3_acoes, *top3_cripto, *top3_renda_fixa, *top3_fundos]`. */
  function Portfolio(acoes: seq<Asset>, cripto: seq<Asset>, rendaFixa: seq<Asset>, fundos: seq<Asset>)
    : (p: seq<Asset>)
    ensures |p| == Min(TopCount, |acoes|) + Min(TopCount, |cripto|) + |rendaFixa| + |fundos|
  {
    TopThree(acoes) + TopThree(cripto) + SortDesc(rendaFixa) + SortDesc(fundos)
  }

  /**
   * `p` is four segments, one per class, in the order equities, crypto,
   * fixed income, funds, of lengths `na`, `nc`, `nf` and the rest. Each
   * segment is ranked highest first and holds items of its own class only:
   * the priced segments a sub-multiset of their class that nothing left out
   * outranks, the catalogue segments all of theirs.
   */
  predicate ClassSegments(p: seq<Asset>, na: nat, nc: nat, nf: nat,
                          acoes: seq<Asset>, cripto: seq<Asset>, rendaFixa: seq<Asset>, fundos: seq<Asset>) {
    && na + nc + nf <= |p|
    && Descending(p[..na]) && multiset(p[..na]) <= multiset(acoes) && KeepsHighest(p[..na], acoes)
    && Descending(p[na..na + nc]) && multiset(p[na..na + nc]) <= multiset(cripto) && KeepsHighest(p[na..na + nc], cripto)
    && Descending(p[na + nc..na + nc + nf]) && multiset(p[na + nc..na + nc + nf]) == multiset(rendaFixa)
    && Descending(p[na + nc + nf..]) && multiset(p[na + nc + nf..]) == multiset(fundos)
  }

  /**
   * The portfolio keeps the classes apart: the equity top three, the crypto
   * top three, then the two whole catalogues, each ranked within itself and
   * none re-sorted across classes.
   */
  lemma PortfolioOrder(acoes: seq<Asset>, cripto: seq<Asset>, rendaFixa: seq<Asset>, fundos: seq<Asset>)
    ensures ClassSegments(Portfolio(acoes, cripto, rendaFixa, fundos), Min(TopCount, |acoes|), Min(TopCount, |cripto|),
                          |rendaFixa|, acoes, cripto, rendaFixa, fundos)
  {
    var a, c, f, u := TopThree(acoes), TopThree(cripto), SortDesc(rendaFixa), SortDesc(fundos);
    assert Portfolio(acoes, cripto, rendaFixa, fundos) == a + c + f + u;
    assert |a| == Min(TopCount, |acoes|) && |c| == Min(TopCount, |cripto|) && |f| == |rendaFixa|;
    TopThreeDropsOnlyLower(acoes);
    TopThreeDropsOnlyLower(cripto);
    RankedSegments(a, c, f, u, acoes, cripto, rendaFixa, fundos);
  }

  /** Four ranked segments, each drawn from its own class, stay apart once concatenated. */
  lemma RankedSegments(a: seq<Asset>, c: seq<Asset>, f: seq<Asset>, u: seq<Asset>,
                       acoes: seq<Asset>, cripto: seq<Asset>, rendaFixa: seq<Asset>, fundos: seq<Asset>)
    requires Descending(a) && multiset(a) <= multiset(acoes) && KeepsHighest(a, acoes)
    requires Descending(c) && multiset(c) <= multiset(cripto) && KeepsHighest(c, cripto)
    requires Descending(f) && multiset(f) == multiset(rendaFixa)
    requires Descending(u) && multiset(u) == multiset(fundos)
    ensures ClassSegments(a + c + f + u, |a|, |c|, |f|, acoes, cripto, rendaFixa, fundos)
  {
    ConcatParts(a, c, f, u);
  }

  lemma ConcatParts(a: seq<Asset>, c: seq<Asset>, f: seq<Asset>, u: seq<Asset>)
    ensures var p := a + c + f + u;
            && |p| == |a| + |c| + |f| + |u|
            && p[..|a|] == a
            && p[|a|..|a| + |c|] == c
            && p[|a| + |c|..|a| + |c| + |f|] == f
            && p[|a| + |c| + |f|..] == u
  {
    var p := a + c + f + u;
    assert p == a + (c + (f + u));
    assert p[|a|..] == c + (f + u);
    assert p[|a| + |c|..] == f + u;
  }

  /**
   * What the distribution and the plotting loop show for a portfolio: one
   * distribution line and one plotted line per item, named by its label,
   * projected at its daily rate from an equal share of the capital, and the
   * amounts adding up to the capital.
   */
  predicate Accounts(sim: Simulation, ativos: seq<Asset>, total: real) {
    && |sim.distribution| == |sim.series| == |ativos| > 0
    && TotalAmount(sim.distribution) == total
    && forall i :: 0 <= i < |ativos| ==>
         && sim.distribution[i].name == sim.series[i].name == Label(ativos[i])
         && sim.distribution[i].amount == Share(total, |ativos|)
         && sim.series[i].dailyRate == DailyRate(ativos[i])
         && sim.series[i].values == Series(sim.distribution[i].amount, DailyRate(ativos[i]))
  }

  /**
   * The plotting loop: item `i` is drawn under the name of distribution line
   * `i`, from that line's amount, at the item's own daily rate.
   */
  function Plot(ativos: seq<Asset>, d: seq<Allocation>): (lines: seq<GrowthSeries>)
    requires |d| == |ativos|
  {
    seq(|ativos|, i requires 0 <= i < |ativos| =>
      GrowthSeries(d[i].name, DailyRate(ativos[i]), Series(d[i].amount, DailyRate(ativos[i]))))
  }

  /** The distribution and the plotting loop over a non-empty portfolio. */
  function Simulate(ativos: seq<Asset>, total: real): (sim: Simulation)
    requires |ativos| > 0
    ensures Accounts(sim, ativos, total)
  {
    var d := Distribution(ativos, total);
    Simulation(d, Plot(ativos, d))
  }

  /**
   * One run on the four classes: the capital is divided equally over the whole
   * concatenated portfolio, and line `i` belongs to portfolio item `i`.
   */
  function Run(acoes: seq<Asset>, cripto: seq<Asset>, rendaFixa: seq<Asset>, fundos: seq<Asset>, total: real)
    : (sim: Simulation)
    requires |acoes| + |cripto| + |rendaFixa| + |fundos| > 0
    ensures |sim.series| == Min(TopCount, |acoes|) + Min(TopCount, |cripto|) + |rendaFixa| + |fundos|
    ensures Accounts(sim, Portfolio(acoes, cripto, rendaFixa, fundos), total)
  {
    var p := Portfolio(acoes, cripto, rendaFixa, fundos);
    assert |p| > 0;
    Simulate(p, total)
  }

  /** The run the script performs: its two constant catalogues after the fetched prices. */
  function ScriptRun(acoes: seq<Asset>, cripto: seq<Asset>, total: real): (sim: Simulation)
    ensures |sim.series| == Min(TopCount, |acoes|) + Min(TopCount, |cripto|) + 6
  {
    Run(acoes, cripto, FixedIncomeCatalogue, FundCatalogue, total)
  }

  /** Every item of `s` is a catalogue record with a positive monthly rate. */
  predicate PositiveRateRecords(s: seq<Asset>) {
    forall i :: 0 <= i < |s| ==> s[i].RateRecord? && s[i].rentabilidade > 0.0
  }

  /** Every item is priced, or a catalogue record with a positive monthly rate. */
  predicate Growing(s: seq<Asset>) {
    forall i :: 0 <= i < |s| ==> s[i].PricePair? || s[i].rentabilidade > 0.0
  }

  /** Every plotted line rises strictly from each day to every later one. */
  predicate EveryLineRises(lines: seq<GrowthSeries>) {
    forall n, i, j :: 0 <= n < |lines| && 0 <= i < j < |lines[n].values| ==>
      lines[n].values[i] < lines[n].values[j]
  }

  /** Ranking neither invents items nor changes them. */
  lemma RankedFrom(s: seq<Asset>, r: seq<Asset>, i: int)
    requires multiset(r) <= multiset(s) && 0 <= i < |r|
    ensures r[i] in s
  {
    assert r[i] in multiset(r);
  }

  /**
   * The portfolio's shape: the priced equities and crypto come first, the
   * catalogue records after them.
   */
  lemma PortfolioShapes(acoes: seq<Asset>, cripto: seq<Asset>, rendaFixa: seq<Asset>, fundos: seq<Asset>)
    requires AllPricePairs(acoes) && AllPricePairs(cripto)
    requires PositiveRateRecords(rendaFixa) && PositiveRateRecords(fundos)
    ensures var p := Portfolio(acoes, cripto, rendaFixa, fundos);
            var priced := Min(TopCount, |acoes|) + Min(TopCount, |cripto|);
            && (forall i :: 0 <= i < priced ==> p[i].PricePair?)
            && (forall i :: priced <= i < |p| ==> p[i].RateRecord? && p[i].rentabilidade > 0.0)
  {
    var p := Portfolio(acoes, cripto, rendaFixa, fundos);
    var a, c, f, u := TopThree(acoes), TopThree(cripto), SortDesc(rendaFixa), SortDesc(fundos);
    ConcatParts(a, c, f, u);
    assert p == a + c + f + u;
    assert |a| == Min(TopCount, |acoes|) && |c| == Min(TopCount, |cripto|);
    forall i | 0 <= i < |p|
      ensures i < |a| + |c| ==> p[i].PricePair?
      ensures i >= |a| + |c| ==> p[i].RateRecord? && p[i].rentabilidade > 0.0
    {
      if i < |a| {
        assert p[i] == a[i];
        RankedFrom(acoes, a, i);
      } else if i < |a| + |c| {
        assert p[i] == c[i - |a|];
        RankedFrom(cripto, c, i - |a|);
      } else if i < |a| + |c| + |f| {
        assert p[i] == f[i - |a| - |c|];
        RankedFrom(rendaFixa, f, i - |a| - |c|);
      } else {
        assert p[i] == u[i - |a| - |c| - |f|];
        RankedFrom(fundos, u, i - |a| - |c| - |f|);
      }
    }
  }

  /**
   * With a capital of at least 1 and every item priced or at a positive
   * monthly rate, every plotted line rises strictly from day to day.
   */
  lemma SimulationGrows(ativos: seq<Asset>, total: real)
    requires |ativos| > 0 && Growing(ativos) && total >= 1.0
    ensures EveryLineRises(Simulate(ativos, total).series)
  {
    var sim := Simulate(ativos, total);
    forall n | 0 <= n < |sim.series|
      ensures forall i, j :: 0 <= i < j < |sim.series[n].values| ==> sim.series[n].values[i] < sim.series[n].values[j]
    {
      assert sim.series[n].dailyRate > 0.0;
      assert sim.distribution[n].amount > 0.0;
      SeriesIncreasing(sim.distribution[n].amount, sim.series[n].dailyRate);
    }
  }

  /**
   * The dispatch on shape over a portfolio whose priced items come first:
   * those are all projected at the fixed daily rate, the catalogue records
   * after them at a positive one; with a capital of at least 1 every line rises.
   */
  lemma SimulationRates(ativos: seq<Asset>, priced: nat, total: real)
    requires |ativos| > 0 && priced <= |ativos|
    requires forall i :: 0 <= i < priced ==> ativos[i].PricePair?
    requires forall i :: priced <= i < |ativos| ==> ativos[i].RateRecord? && ativos[i].rentabilidade > 0.0
    requires total >= 1.0
    ensures var sim := Simulate(ativos, total);
            && (forall i :: 0 <= i < priced ==> sim.series[i].dailyRate == PriceDailyRate)
            && (forall i :: priced <= i < |sim.series| ==> sim.series[i].dailyRate > 0.0)
            && EveryLineRises(sim.series)
  {
    SimulationGrows(ativos, total);
  }

  /**
   * A run with priced equities and crypto and catalogues of positive rates:
   * the priced items come first, all at the fixed daily rate, the catalogue
   * items after them at a positive one, and every line rises.
   */
  lemma RunRates(acoes: seq<Asset>, cripto: seq<Asset>, rendaFixa: seq<Asset>, fundos: seq<Asset>, total: real)
    requires |acoes| + |cripto| + |rendaFixa| + |fundos| > 0
    requires AllPricePairs(acoes) && AllPricePairs(cripto)
    requires PositiveRateRecords(rendaFixa) && PositiveRateRecords(fundos)
    requires total >= 1.0
    ensures var sim := Run(acoes, cripto, rendaFixa, fundos, total);
            var priced := Min(TopCount, |acoes|) + Min(TopCount, |cripto|);
            && (forall i :: 0 <= i < priced ==> sim.series[i].dailyRate == PriceDailyRate)
            && (forall i :: priced <= i < |sim.series| ==> sim.series[i].dailyRate > 0.0)
            && EveryLineRises(sim.series)
  {
    PortfolioShapes(acoes, cripto, rendaFixa, fundos);
    SimulationRates(Portfolio(acoes, cripto, rendaFixa, fundos), Min(TopCount, |acoes|) + Min(TopCount, |cripto|), total);
  }

  lemma SortTwo(x: Asset, y: Asset)
    requires Key(x) < Key(y)
    ensures SortDesc([x, y]) == [y, x]
  {
    assert [x, y][1..] == [y];
    assert SortDesc([y]) == [y];
    assert Insert(x, [y]) == [y] + Insert(x, []);
  }

  /** Three items of which the last ranks first and the middle one last. */
  lemma SortLastFirst(x: Asset, y: Asset, z: Asset)
    requires Key(y) < Key(x) < Key(z)
    ensures SortDesc([x, y, z]) == [z, x, y]
  {
    assert [x, y, z][1..] == [y, z];
    SortTwo(y, z);
    assert [z, y][1..] == [y];
    assert Insert(x, [y]) == [x, y];
    assert Insert(x, [z, y]) == [z] + Insert(x, [y]);
    assert [z] + [x, y] == [z, x, y];
  }

  /** Three items of which the first ranks first and the middle one last. */
  lemma SortFirstFirst(x: Asset, y: Asset, z: Asset)
    requires Key(y) < Key(z) < Key(x)
    ensures SortDesc([x, y, z]) == [x, z, y]
  {
    assert [x, y, z][1..] == [y, z];
    SortTwo(y, z);
    assert Insert(x, [z, y]) == [x, z, y];
  }

  /** The script's catalogues ranked by monthly rate, highest first. */
  lemma RankedCatalogues()
    ensures SortDesc(FixedIncomeCatalogue) ==
      [RateRecord("CDB 120% CDI", 0.12), RateRecord("CDB 110% CDI", 0.11), RateRecord("LCI 100% CDI", 0.10)]
    ensures SortDesc(FundCatalogue) ==
      [RateRecord("Fundo Ações", 0.08), RateRecord("Fundo Multimercado", 0.07), RateRecord("Fundo Renda Fixa", 0.05)]
  {
    SortLastFirst(FixedIncomeCatalogue[0], FixedIncomeCatalogue[1], FixedIncomeCatalogue[2]);
    SortFirstFirst(FundCatalogue[0], FundCatalogue[1], FundCatalogue[2]);
  }

  /** Every catalogue product has a positive monthly rate. */
  lemma CataloguesPositive()
    ensures PositiveRateRecords(FixedIncomeCatalogue) && PositiveRateRecords(FundCatalogue)
  {
  }

  /**
   * The script's own run never divides by zero (its catalogues are not
   * empty), and with fetched prices and a capital of at least 1 every
   * plotted line rises.
   */
  lemma ScriptRunGrows(acoes: seq<Asset>, cripto: seq<Asset>, total: real)
    requires AllPricePairs(acoes) && AllPricePairs(cripto) && total >= 1.0
    ensures EveryLineRises(ScriptRun(acoes, cripto, total).series)
  {
    CataloguesPositive();
    RunRates(acoes, cripto, FixedIncomeCatalogue, FundCatalogue, total);
  }

  /** After the priced items the portfolio holds the two ranked catalogues. */
  lemma PortfolioTail(acoes: seq<Asset>, cripto: seq<Asset>, rendaFixa: seq<Asset>, fundos: seq<Asset>)
    ensures Portfolio(acoes, cripto, rendaFixa, fundos)[Min(TopCount, |acoes|) + Min(TopCount, |cripto|)..]
         == SortDesc(rendaFixa) + SortDesc(fundos)
  {
    var a, c, f, u := TopThree(acoes), TopThree(cripto), SortDesc(rendaFixa), SortDesc(fundos);
    assert a + c + f + u == (a + c) + (f + u);
    assert |a + c| == Min(TopCount, |acoes|) + Min(TopCount, |cripto|);
  }

  /**
   * In the script's portfolio the six catalogue products follow the priced
   * items, best monthly rate first within each catalogue.
   */
  lemma ScriptPortfolioCatalogues(acoes: seq<Asset>, cripto: seq<Asset>)
    ensures Portfolio(acoes, cripto, FixedIncomeCatalogue, FundCatalogue)[Min(TopCount, |acoes|) + Min(TopCount, |cripto|)..]
         == [RateRecord("CDB 120% CDI", 0.12), RateRecord("CDB 110% CDI", 0.11), RateRecord("LCI 100% CDI", 0.10),
             RateRecord("Fundo Ações", 0.08), RateRecord("Fundo Multimercado", 0.07), RateRecord("Fundo Renda Fixa", 0.05)]
  {
    PortfolioTail(acoes, cripto, FixedIncomeCatalogue, FundCatalogue);
    RankedCatalogues();
    JoinThrees(SortDesc(FixedIncomeCatalogue), SortDesc(FundCatalogue),
      RateRecord("CDB 120% CDI", 0.12), RateRecord("CDB 110% CDI", 0.11), RateRecord("LCI 100% CDI", 0.10),
      RateRecord("Fundo Ações", 0.08), RateRecord("Fundo Multimercado", 0.07), RateRecord("Fundo Renda Fixa", 0.05));
  }

  lemma JoinThrees(a: seq<Asset>, b: seq<Asset>, a0: Asset, a1: Asset, a2: Asset, b0: Asset, b1: Asset, b2: Asset)
    requires a == [a0, a1, a2] && b == [b0, b1, b2]
    ensures a + b == [a0, a1, a2, b0, b1, b2]
  {
  }
}
