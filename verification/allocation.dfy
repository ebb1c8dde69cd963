/**
 * Equal-weight allocation: the capital is divided by the number of portfolio
 * items, and every item is listed with its label and that same amount.
 */
module Allocation {
  import opened Assets

  /** One line of the suggested distribution: an item's label and the amount put into it. */
  datatype Allocation = Allocation(name: string, amount: real)

  /** `valor_total / len(ativos)`: the one amount every item receives. */
  function Share(total: real, count: nat): (r: real)
    requires count > 0
    ensures r * count as real == total
    ensures total >= 1.0 ==> r > 0.0
  {
    total / count as real
  }

  function TotalAmount(d: seq<Allocation>): real {
    if d == [] then 0.0 else d[0].amount + TotalAmount(d[1..])
  }

  /** A distribution whose every amount is `a` totals `|d| * a`. */
  lemma {:induction false} TotalOfEqualAmounts(d: seq<Allocation>, a: real)
    requires forall i :: 0 <= i < |d| ==> d[i].amount == a
    ensures TotalAmount(d) == |d| as real * a
  {
    if d != [] {
      TotalOfEqualAmounts(d[1..], a);
      assert TotalAmount(d) == a + (|d| - 1) as real * a;
    }
  }

  /**
   * The suggested distribution: each item's label with the equal share. The
   * amounts are all the same and add up to exactly the capital.
   */
  function Distribution(ativos: seq<Asset>, total: real): (d: seq<Allocation>)
    requires |ativos| > 0
    ensures |d| == |ativos|
    ensures forall i :: 0 <= i < |d| ==> d[i].name == Label(ativos[i])
    ensures forall i, j :: 0 <= i < |d| && 0 <= j < |d| ==> d[i].amount == d[j].amount
    ensures forall i :: 0 <= i < |d| ==> d[i].amount == Share(total, |ativos|)
    ensures TotalAmount(d) == total
    ensures total >= 1.0 ==> forall i :: 0 <= i < |d| ==> d[i].amount > 0.0
  {
    var share := Share(total, |ativos|);
    var d := seq(|ativos|, i requires 0 <= i < |ativos| => Allocation(Label(ativos[i]), share));
    TotalOfEqualAmounts(d, share);
    d
  }
}
