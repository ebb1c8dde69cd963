/**
 * The 30-day growth projection: for days 1 to 30, the share compounded daily
 * at the item's daily rate, `valor_por_ativo * (1 + taxa)**i`.
 */
module Projection {

  /** The projection horizon in days. */
  const Horizon: nat := 30

  /** `list(range(1, 31))`: the days plotted. */
  const Days: seq<nat> := seq(Horizon, k => k + 1)

  /** `b ** n` for a natural exponent. */
  function Pow(b: real, n: nat): real {
    if n == 0 then 1.0 else b * Pow(b, n - 1)
  }

  /**
   * The value of `share` on each day of the horizon. Day 1 is one day of
   * growth, and each following day multiplies the previous one by `1 + rate`.
   */
  function Series(share: real, rate: real): (values: seq<real>)
    ensures |values| == Horizon
    ensures values[0] == share * (1.0 + rate)
    ensures forall k :: 0 <= k < Horizon - 1 ==> values[k + 1] == values[k] * (1.0 + rate)
  {
    var values := seq(|Days|, k requires 0 <= k < |Days| => share * Pow(1.0 + rate, Days[k]));
    assert Pow(1.0 + rate, 1) == 1.0 + rate;
    assert forall k :: 0 <= k < Horizon - 1 ==>
      Pow(1.0 + rate, Days[k + 1]) == Pow(1.0 + rate, Days[k]) * (1.0 + rate);
    values
  }

  lemma {:induction false} PowPositive(b: real, n: nat)
    requires b > 0.0
    ensures Pow(b, n) > 0.0
  {
    if n > 0 {
      PowPositive(b, n - 1);
    }
  }

  lemma {:induction false} PowOfOne(n: nat)
    ensures Pow(1.0, n) == 1.0
  {
    if n > 0 {
      PowOfOne(n - 1);
    }
  }

  /** In a sequence that grows at every step, a later value exceeds an earlier one. */
  lemma {:induction false} IncreasingBetween(v: seq<real>, i: nat, j: nat)
    requires forall k :: 0 <= k < |v| - 1 ==> v[k] < v[k + 1]
    requires i < j < |v|
    ensures v[i] < v[j]
    decreases j - i
  {
    if i + 1 < j {
      IncreasingBetween(v, i, j - 1);
    }
  }

  /** In a sequence that shrinks at every step, a later value is below an earlier one. */
  lemma {:induction false} DecreasingBetween(v: seq<real>, i: nat, j: nat)
    requires forall k :: 0 <= k < |v| - 1 ==> v[k + 1] < v[k]
    requires i < j < |v|
    ensures v[j] < v[i]
    decreases j - i
  {
    if i + 1 < j {
      DecreasingBetween(v, i, j - 1);
    }
  }

  /** Every projected value is positive when the share is and the rate exceeds -100%. */
  lemma SeriesPositive(share: real, rate: real)
    requires share > 0.0 && rate > -1.0
    ensures forall k :: 0 <= k < Horizon ==> Series(share, rate)[k] > 0.0
  {
    var values := Series(share, rate);
    forall k | 0 <= k < Horizon ensures values[k] > 0.0 {
      PowPositive(1.0 + rate, k + 1);
      assert values[k] == share * Pow(1.0 + rate, k + 1);
    }
  }

  /** A positive share at a positive rate grows strictly from day to day. */
  lemma SeriesIncreasing(share: real, rate: real)
    requires share > 0.0 && rate > 0.0
    ensures forall i, j :: 0 <= i < j < Horizon ==> Series(share, rate)[i] < Series(share, rate)[j]
  {
    var values := Series(share, rate);
    SeriesPositive(share, rate);
    forall k | 0 <= k < |values| - 1 ensures values[k] < values[k + 1] {
      assert values[k + 1] == values[k] * (1.0 + rate) == values[k] + values[k] * rate;
    }
    forall i, j | 0 <= i < j < Horizon ensures values[i] < values[j] {
      IncreasingBetween(values, i, j);
    }
  }

  /** A positive share at a rate between -100% and 0 shrinks strictly from day to day. */
  lemma SeriesDecreasing(share: real, rate: real)
    requires share > 0.0 && -1.0 < rate < 0.0
    ensures forall i, j :: 0 <= i < j < Horizon ==> Series(share, rate)[j] < Series(share, rate)[i]
  {
    var values := Series(share, rate);
    SeriesPositive(share, rate);
    forall k | 0 <= k < |values| - 1 ensures values[k + 1] < values[k] {
      assert values[k + 1] == values[k] * (1.0 + rate) == values[k] + values[k] * rate;
    }
    forall i, j | 0 <= i < j < Horizon ensures values[j] < values[i] {
      DecreasingBetween(values, i, j);
    }
  }

  /** At a zero rate every day's value is the share itself. */
  lemma SeriesConstant(share: real)
    ensures forall k :: 0 <= k < Horizon ==> Series(share, 0.0)[k] == share
  {
    forall k | 0 <= k < Horizon ensures Series(share, 0.0)[k] == share {
      PowOfOne(k + 1);
    }
  }

  /** Predicate form of the recurrence `Series` promises: day 1 and the daily factor. */
  predicate CompoundsDaily(v: seq<real>, share: real, rate: real) {
    && |v| == Horizon
    && v[0] == share * (1.0 + rate)
    && forall k :: 0 <= k < Horizon - 1 ==> v[k + 1] == v[k] * (1.0 + rate)
  }

  /** Two sequences that both compound daily from the same share agree up to position `k`. */
  lemma {:induction false} CompoundsDailyAgree(v: seq<real>, w: seq<real>, share: real, rate: real, k: nat)
    requires CompoundsDaily(v, share, rate) && CompoundsDaily(w, share, rate) && k < Horizon
    ensures v[k] == w[k]
  {
    if k > 0 {
      CompoundsDailyAgree(v, w, share, rate, k - 1);
      assert v[k] == v[k - 1] * (1.0 + rate);
      assert w[k] == w[k - 1] * (1.0 + rate);
    }
  }

  /**
   * The recurrence determines the series: any 30 values that start at
   * `share * (1 + rate)` and grow by `1 + rate` a day are exactly `Series`.
   */
  lemma SeriesUnique(v: seq<real>, share: real, rate: real)
    requires CompoundsDaily(v, share, rate)
    ensures v == Series(share, rate)
  {
    var w := Series(share, rate);
    forall k | 0 <= k < Horizon ensures v[k] == w[k] {
      CompoundsDailyAgree(v, w, share, rate, k);
    }
  }
}
