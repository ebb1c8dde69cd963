/**
 * Per-class ranking: `sorted(items, key=..., reverse=True)`, and for equities
 * and cryptocurrencies the top three of that (`[:3]`).
 *
 * Python's sort is stable, also with `reverse=True`: items whose keys are
 * equal keep their input order. The model sorts by insertion, which is
 * stable too, and proves that its result is the ONLY sequence that is in
 * non-increasing key order and keeps, for every key, the input's items of
 * that key in their input order; so it is what `sorted` returns, whatever
 * algorithm `sorted` uses.
 */
module Ranking {
  import opened Assets

  /** Non-increasing in ranking key. */
  predicate Descending(s: seq<Asset>) {
    forall i, j :: 0 <= i < j < |s| ==> Key(s[j]) <= Key(s[i])
  }

  /** `[a]` when `a` has key `k`, else `[]`. */
  function Pick(a: Asset, k: real): seq<Asset> {
    if Key(a) == k then [a] else []
  }

  /** The items of `s` whose key is `k`, in the order they appear in `s`. */
  function KeyFilter(s: seq<Asset>, k: real): seq<Asset> {
    if s == [] then [] else Pick(s[0], k) + KeyFilter(s[1..], k)
  }

  /**
   * `r` is a stable descending sort of `s`: descending, and for every key the
   * items with that key appear in `r` exactly as (and in the order) they do in `s`.
   */
  ghost predicate StableDescendingSortOf(r: seq<Asset>, s: seq<Asset>) {
    Descending(r) && forall k :: KeyFilter(r, k) == KeyFilter(s, k)
  }

  function Min(a: int, b: int): int {
    if a <= b then a else b
  }

  /** The number of items kept per priced class. */
  const TopCount: nat := 3

  /**
   * Inserts `x` into the descending `t` in front of the first item whose key
   * does not exceed `x`'s, i.e. after every item with a strictly larger key
   * and before those with an equal one.
   */
  function Insert(x: Asset, t: seq<Asset>): (r: seq<Asset>)
    requires Descending(t)
    ensures Descending(r)
    ensures multiset(r) == multiset(t) + multiset{x}
    ensures r[0] == x || r[0] == t[0]
  {
    if t == [] || Key(t[0]) <= Key(x) then
      ConsDescending(x, t);
      [x] + t
    else
      var rest := Insert(x, t[1..]);
      assert t == [t[0]] + t[1..];
      ConsDescending(t[0], rest);
      [t[0]] + rest
  }

  /** Putting an item no smaller than the head in front keeps a sequence descending. */
  lemma ConsDescending(a: Asset, t: seq<Asset>)
    requires Descending(t)
    requires t != [] ==> Key(t[0]) <= Key(a)
    ensures Descending([a] + t)
  {
    var r := [a] + t;
    forall i, j | 0 <= i < j < |r| ensures Key(r[j]) <= Key(r[i]) {
      if i == 0 {
        assert r[j] == t[j - 1];
      } else {
        assert r[i] == t[i - 1] && r[j] == t[j - 1];
      }
    }
  }

  /** `sorted(s, key=Key, reverse=True)` by stable insertion sort. */
  function SortDesc(s: seq<Asset>): (r: seq<Asset>)
    ensures Descending(r)
    ensures multiset(r) == multiset(s)
    ensures |r| == |s|
  {
    if s == [] then []
    else
      assert s == [s[0]] + s[1..];
      Insert(s[0], SortDesc(s[1..]))
  }

  /** `sorted(s, key=Key, reverse=True)[:3]`. */
  function TopThree(s: seq<Asset>): (r: seq<Asset>)
    ensures |r| == Min(TopCount, |s|)
    ensures Descending(r)
    ensures multiset(r) <= multiset(s)
  {
    var sorted := SortDesc(s);
    PrefixOfDescending(sorted, Min(TopCount, |s|));
    sorted[..Min(TopCount, |s|)]
  }

  /** A prefix of a descending sequence is descending and takes nothing the sequence does not hold. */
  lemma PrefixOfDescending(s: seq<Asset>, n: nat)
    requires Descending(s) && n <= |s|
    ensures Descending(s[..n])
    ensures multiset(s[..n]) <= multiset(s)
  {
    assert s == s[..n] + s[n..];
  }

  lemma {:induction false} KeyFilterAppend(a: seq<Asset>, b: seq<Asset>, k: real)
    ensures KeyFilter(a + b, k) == KeyFilter(a, k) + KeyFilter(b, k)
  {
    if a == [] {
      assert a + b == b;
    } else {
      assert (a + b)[1..] == a[1..] + b;
      KeyFilterAppend(a[1..], b, k);
    }
  }

  lemma {:induction false} KeyFilterMembership(s: seq<Asset>, k: real, x: Asset)
    ensures x in KeyFilter(s, k) <==> x in s && Key(x) == k
  {
    if s != [] {
      KeyFilterMembership(s[1..], k, x);
      assert s == [s[0]] + s[1..];
    }
  }

  /** Inserting `x` adds it to the front of its own key's items and changes no other key's. */
  lemma {:induction false} InsertKeyFilter(x: Asset, t: seq<Asset>, k: real)
    requires Descending(t)
    ensures KeyFilter(Insert(x, t), k) == Pick(x, k) + KeyFilter(t, k)
  {
    if t == [] || Key(t[0]) <= Key(x) {
      KeyFilterAppend([x], t, k);
    } else {
      var rest := Insert(x, t[1..]);
      KeyFilterAppend([t[0]], rest, k);
      InsertKeyFilter(x, t[1..], k);
      // t[0]'s key is strictly above x's, so at most one of them has key k
      assert Pick(t[0], k) + Pick(x, k) == Pick(x, k) + Pick(t[0], k);
    }
  }

  /** Items with equal keys keep their input order. */
  lemma {:induction false} SortDescStable(s: seq<Asset>, k: real)
    ensures KeyFilter(SortDesc(s), k) == KeyFilter(s, k)
  {
    if s != [] {
      SortDescStable(s[1..], k);
      InsertKeyFilter(s[0], SortDesc(s[1..]), k);
    }
  }

  lemma SortDescIsStableSort(s: seq<Asset>)
    ensures StableDescendingSortOf(SortDesc(s), s)
  {
    forall k ensures KeyFilter(SortDesc(s), k) == KeyFilter(s, k) {
      SortDescStable(s, k);
    }
  }

  /** In a descending sequence no item has a key above the first one's. */
  lemma HeadIsMaximal(r: seq<Asset>, x: Asset)
    requires Descending(r) && x in r
    ensures Key(x) <= Key(r[0])
  {
    var i :| 0 <= i < |r| && r[i] == x;
  }

  /**
   * Two descending sequences that agree, key by key, on which items they hold
   * and in what order, are equal.
   */
  lemma {:induction false} StableSortUnique(r1: seq<Asset>, r2: seq<Asset>)
    requires Descending(r1) && Descending(r2)
    requires forall k :: KeyFilter(r1, k) == KeyFilter(r2, k)
    ensures r1 == r2
    decreases |r1|
  {
    if r1 == [] || r2 == [] {
      if r1 != [] {
        KeyFilterMembership(r1, Key(r1[0]), r1[0]);
      } else if r2 != [] {
        KeyFilterMembership(r2, Key(r2[0]), r2[0]);
      }
    } else {
      var m1, m2 := Key(r1[0]), Key(r2[0]);
      KeyFilterMembership(r2, m2, r2[0]);
      KeyFilterMembership(r1, m2, r2[0]);
      HeadIsMaximal(r1, r2[0]);
      KeyFilterMembership(r1, m1, r1[0]);
      KeyFilterMembership(r2, m1, r1[0]);
      HeadIsMaximal(r2, r1[0]);
      assert m1 == m2;
      assert KeyFilter(r1, m1) == [r1[0]] + KeyFilter(r1[1..], m1);
      assert KeyFilter(r2, m1) == [r2[0]] + KeyFilter(r2[1..], m1);
      var t1, t2 := KeyFilter(r1[1..], m1), KeyFilter(r2[1..], m1);
      assert ([r1[0]] + t1)[1..] == t1 && ([r2[0]] + t2)[1..] == t2;
      forall k ensures KeyFilter(r1[1..], k) == KeyFilter(r2[1..], k) {
        assert KeyFilter(r1, k) == Pick(r1[0], k) + KeyFilter(r1[1..], k);
        assert KeyFilter(r2, k) == Pick(r2[0], k) + KeyFilter(r2[1..], k);
        assert KeyFilter(r1, k) == KeyFilter(r2, k);
        if k != m1 {
          assert Pick(r1[0], k) == [] && Pick(r2[0], k) == [];
          assert KeyFilter(r1, k) == KeyFilter(r1[1..], k);
          assert KeyFilter(r2, k) == KeyFilter(r2[1..], k);
        }
      }
      StableSortUnique(r1[1..], r2[1..]);
      assert r1 == [r1[0]] + r1[1..];
      assert r2 == [r2[0]] + r2[1..];
    }
  }

  /** Any stable descending sort of `s` (as Python's `sorted(..., reverse=True)` is) equals `SortDesc(s)`. */
  lemma StableSortIsSortDesc(r: seq<Asset>, s: seq<Asset>)
    requires StableDescendingSortOf(r, s)
    ensures r == SortDesc(s)
  {
    SortDescIsStableSort(s);
    StableSortUnique(r, SortDesc(s));
  }

  /**
   * Truncation keeps stability: for every key, the items of that key in the
   * top three are the first ones of that key in the input, in input order.
   */
  lemma TopThreeStable(s: seq<Asset>, k: real)
    ensures |KeyFilter(TopThree(s), k)| <= |KeyFilter(s, k)|
    ensures KeyFilter(TopThree(s), k) == KeyFilter(s, k)[..|KeyFilter(TopThree(s), k)|]
  {
    var sorted := SortDesc(s);
    var top := TopThree(s);
    assert sorted == top + sorted[|top|..];
    KeyFilterAppend(top, sorted[|top|..], k);
    SortDescStable(s, k);
  }

  /** Every item of `s` left out of `kept` ranks no higher than every item of `kept`. */
  predicate KeepsHighest(kept: seq<Asset>, s: seq<Asset>) {
    forall i, y :: 0 <= i < |kept| && y in multiset(s) - multiset(kept) ==> Key(y) <= Key(kept[i])
  }

  /** Every item the truncation drops ranks no higher than every item it keeps. */
  lemma TopThreeDropsOnlyLower(s: seq<Asset>)
    ensures KeepsHighest(TopThree(s), s)
  {
    var sorted := SortDesc(s);
    var top := TopThree(s);
    DroppedItems(s);
    forall i, y | 0 <= i < |top| && y in multiset(s) - multiset(top)
      ensures Key(y) <= Key(top[i])
    {
      TailBelowPrefix(sorted, |top|, i, y);
    }
  }

  lemma TailBelowPrefix(r: seq<Asset>, c: nat, i: nat, y: Asset)
    requires Descending(r) && i < c <= |r| && y in multiset(r[c..])
    ensures Key(y) <= Key(r[i])
  {
    var j :| 0 <= j < |r[c..]| && r[c..][j] == y;
    DescendingAt(r, i, c + j);
  }

  lemma DescendingAt(r: seq<Asset>, i: int, j: int)
    requires Descending(r) && 0 <= i < j < |r|
    ensures Key(r[j]) <= Key(r[i])
  {
  }

  /** What the truncation drops is the tail of the full sort. */
  lemma DroppedItems(s: seq<Asset>)
    ensures SortDesc(s) == TopThree(s) + SortDesc(s)[|TopThree(s)|..]
    ensures multiset(s) - multiset(TopThree(s)) == multiset(SortDesc(s)[|TopThree(s)|..])
  {
    var sorted := SortDesc(s);
    var top := TopThree(s);
    assert sorted == top + sorted[|top|..];
    assert multiset(sorted) == multiset(top) + multiset(sorted[|top|..]);
  }

  /**
   * The catalogue classes are sorted whole: every product of the catalogue is
   * in its ranking and the ranking holds nothing else.
   */
  lemma RankCatalogueKeepsProducts(s: seq<Asset>)
    ensures forall x :: x in s <==> x in SortDesc(s)
  {
    var r := SortDesc(s);
    assert forall x :: x in s <==> x in multiset(s);
    assert forall x :: x in r <==> x in multiset(r);
  }
}
