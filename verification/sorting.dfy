/** `sortTradeups`: the comparator's choice of key, its defaults for missing values
    and its direction, and the sort of the filtered view by that comparator. */
module Sorting {
  import opened Wrappers
  import opened ExtReals
  import opened Tradeups

  /** The options of the sort selector. */
  datatype SortKey = Profitability | Odds | Cost | ProfitPerTrade

  /** The `switch (sortBy)`: the three named cases, and `profitability` for anything else. */
  function ParseSortKey(value: string): (k: SortKey)
    ensures k == Odds <==> value == "odds"
    ensures k == Cost <==> value == "cost"
    ensures k == ProfitPerTrade <==> value == "profitPerTrade"
    ensures k == Profitability <==> value != "odds" && value != "cost" && value != "profitPerTrade"
  {
    if value == "odds" then Odds
    else if value == "cost" then Cost
    else if value == "profitPerTrade" then ProfitPerTrade
    else Profitability
  }

  /** The value the comparator reads: a missing cost is +Infinity, any other missing field -Infinity. */
  function SortValue(t: Tradeup, k: SortKey): (v: ExtReal)
    ensures Missing(t, k) <==> !v.Finite?
    ensures Missing(t, k) ==> (v == PosInf <==> k == Cost)
  {
    match k
    case Cost => (match t.cost case Some(c) => Finite(c) case None => PosInf)
    case Odds => (match t.odds case Some(o) => Finite(o) case None => NegInf)
    case ProfitPerTrade => (match t.meanProfit case Some(p) => Finite(p) case None => NegInf)
    case Profitability => (match t.profitability case Some(p) => Finite(p) case None => NegInf)
  }

  /** The field the key reads is missing from the record. */
  predicate Missing(t: Tradeup, k: SortKey) {
    match k
    case Cost => t.cost.None?
    case Odds => t.odds.None?
    case ProfitPerTrade => t.meanProfit.None?
    case Profitability => t.profitability.None?
  }

  /** `a` may stand before `b`: the comparator does not put `b` first. Ascending for
      cost (`valA - valB`), descending for every other key (`valB - valA`). */
  predicate InOrder(a: Tradeup, b: Tradeup, k: SortKey)
    ensures !Missing(a, k) && Missing(b, k) ==> InOrder(a, b, k)
    ensures Missing(a, k) && !Missing(b, k) ==> !InOrder(a, b, k)
    ensures Missing(a, k) && Missing(b, k) ==> InOrder(a, b, k)
    ensures k == Cost && !Missing(a, k) && !Missing(b, k) ==> (InOrder(a, b, k) <==> a.cost.value <= b.cost.value)
    ensures k == Odds && !Missing(a, k) && !Missing(b, k) ==> (InOrder(a, b, k) <==> a.odds.value >= b.odds.value)
    ensures k == ProfitPerTrade && !Missing(a, k) && !Missing(b, k) ==>
      (InOrder(a, b, k) <==> a.meanProfit.value >= b.meanProfit.value)
    ensures k == Profitability && !Missing(a, k) && !Missing(b, k) ==>
      (InOrder(a, b, k) <==> a.profitability.value >= b.profitability.value)
  {
    if k == Cost then Le(SortValue(a, k), SortValue(b, k)) else Le(SortValue(b, k), SortValue(a, k))
  }

  predicate Sorted(s: seq<Tradeup>, k: SortKey) {
    forall i, j :: 0 <= i < j < |s| ==> InOrder(s[i], s[j], k)
  }

  lemma InOrderTotal(a: Tradeup, b: Tradeup, k: SortKey)
    ensures InOrder(a, b, k) || InOrder(b, a, k)
  {
    LeTotal(SortValue(a, k), SortValue(b, k));
  }

  lemma InOrderTransitive(a: Tradeup, b: Tradeup, c: Tradeup, k: SortKey)
    requires InOrder(a, b, k) && InOrder(b, c, k)
    ensures InOrder(a, c, k)
  {
    if k == Cost {
      LeTransitive(SortValue(a, k), SortValue(b, k), SortValue(c, k));
    } else {
      LeTransitive(SortValue(c, k), SortValue(b, k), SortValue(a, k));
    }
  }

  /** Insert `x` before the first element it may precede. */
  function Insert(x: Tradeup, s: seq<Tradeup>, k: SortKey): (r: seq<Tradeup>)
    ensures |r| == |s| + 1
  {
    if s == [] then [x]
    else if InOrder(x, s[0], k) then [x] + s
    else [s[0]] + Insert(x, s[1..], k)
  }

  /** Insertion adds `x` and loses nothing. */
  lemma {:induction false} InsertPermutation(x: Tradeup, s: seq<Tradeup>, k: SortKey)
    ensures multiset(Insert(x, s, k)) == multiset(s) + multiset{x}
  {
    if s != [] && !InOrder(x, s[0], k) {
      InsertPermutation(x, s[1..], k);
      assert s == [s[0]] + s[1..];
    }
  }

  /** Inserting into a sorted sequence keeps it sorted. */
  lemma {:induction false} InsertSorted(x: Tradeup, s: seq<Tradeup>, k: SortKey)
    requires Sorted(s, k)
    ensures Sorted(Insert(x, s, k), k)
  {
    if s == [] {
    } else if InOrder(x, s[0], k) {
      InsertFront(x, s, k);
    } else {
      InOrderTotal(x, s[0], k);
      InsertSorted(x, s[1..], k);
      InsertPermutation(x, s[1..], k);
      InsertBehind(s[0], Insert(x, s[1..], k), x, s[1..], k);
    }
  }

  lemma InsertFront(x: Tradeup, s: seq<Tradeup>, k: SortKey)
    requires Sorted(s, k) && s != [] && InOrder(x, s[0], k)
    ensures Sorted([x] + s, k)
  {
    forall j | 0 <= j < |s|
      ensures InOrder(x, s[j], k)
    {
      if j > 0 {
        InOrderTransitive(x, s[0], s[j], k);
      }
    }
    assert forall j :: 0 < j < |s| + 1 ==> ([x] + s)[j] == s[j - 1];
  }

  lemma InsertBehind(y: Tradeup, rest: seq<Tradeup>, x: Tradeup, tail: seq<Tradeup>, k: SortKey)
    requires Sorted(rest, k) && multiset(rest) == multiset(tail) + multiset{x}
    requires InOrder(y, x, k) && forall j :: 0 <= j < |tail| ==> InOrder(y, tail[j], k)
    ensures Sorted([y] + rest, k)
  {
    forall j | 0 <= j < |rest|
      ensures InOrder(y, rest[j], k)
    {
      assert rest[j] in multiset(rest);
      if rest[j] != x {
        assert rest[j] in multiset(tail);
        var m :| 0 <= m < |tail| && tail[m] == rest[j];
      }
    }
  }

  /** The filtered view ordered by the comparator, as an insertion sort.
      `Array.prototype.sort` is stable and so is this sort, though only order and
      permutation are claimed. */
  function SortView(s: seq<Tradeup>, k: SortKey): (r: seq<Tradeup>)
    ensures |r| == |s|
  {
    if s == [] then [] else Insert(s[0], SortView(s[1..], k), k)
  }

  /** Sorting keeps exactly the records it was given. */
  lemma {:induction false} SortViewPermutation(s: seq<Tradeup>, k: SortKey)
    ensures multiset(SortView(s, k)) == multiset(s)
  {
    if s != [] {
      SortViewPermutation(s[1..], k);
      InsertPermutation(s[0], SortView(s[1..], k), k);
      assert s == [s[0]] + s[1..];
    }
  }

  /** The sorted view is in comparator order. */
  lemma {:induction false} SortViewSorted(s: seq<Tradeup>, k: SortKey)
    ensures Sorted(SortView(s, k), k)
  {
    if s != [] {
      SortViewSorted(s[1..], k);
      InsertSorted(s[0], SortView(s[1..], k), k);
    }
  }

  /** Records missing the key's field sort last: nothing with the field stands after one without. */
  lemma MissingSortLast(s: seq<Tradeup>, k: SortKey, i: int, j: int)
    requires Sorted(s, k) && 0 <= i < j < |s| && Missing(s[i], k)
    ensures Missing(s[j], k)
  {
    assert InOrder(s[i], s[j], k);
  }

  /** Between two records that both have the field, cost sorts ascending and every
      other key descending. */
  lemma SortedByField(s: seq<Tradeup>, k: SortKey, i: int, j: int)
    requires Sorted(s, k) && 0 <= i < j < |s| && !Missing(s[i], k) && !Missing(s[j], k)
    ensures k == Cost ==> s[i].cost.value <= s[j].cost.value
    ensures k == Odds ==> s[i].odds.value >= s[j].odds.value
    ensures k == ProfitPerTrade ==> s[i].meanProfit.value >= s[j].meanProfit.value
    ensures k == Profitability ==> s[i].profitability.value >= s[j].profitability.value
  {
    assert InOrder(s[i], s[j], k);
  }
}
