/** The filter callback of `filterAndSortData`: the weighted average input float,
    the missing-field defaults and the four inclusive range checks, and the view
    that `allTradeupData.filter(...)` produces from them. */
module Filtering {
  import opened Wrappers
  import opened ExtReals
  import opened Tradeups

  // ---------------------------------------------------------------------------
  // Average input float
  // ---------------------------------------------------------------------------

  /** How many times an input skin counts: `Math.floor(times)` when `times` is a
      positive number, 1 otherwise. A `times` strictly between 0 and 1 counts 0. */
  function Quantity(s: Skin): (q: nat)
    ensures s.times.None? || s.times.value <= 0.0 ==> q == 1
    ensures s.times.Some? && s.times.value > 0.0 ==> q as real <= s.times.value < q as real + 1.0
  {
    match s.times
    case Some(t) => if t > 0.0 then t.Floor else 1
    case None => 1
  }

  /** The weight a skin adds to `totalSkinCount`: its quantity when it has a numeric float. */
  function Weight(s: Skin): nat {
    if s.float.Some? then Quantity(s) else 0
  }

  /** What a skin adds to `totalFloatSum`. */
  function Contribution(s: Skin): real {
    if s.float.Some? then s.float.value * Quantity(s) as real else 0.0
  }

  /** `totalSkinCount` after visiting `skins` left to right. */
  function CountedWeight(skins: seq<Skin>): nat {
    if skins == [] then 0 else CountedWeight(skins[..|skins| - 1]) + Weight(skins[|skins| - 1])
  }

  /** `totalFloatSum` after visiting `skins` left to right. */
  function CountedSum(skins: seq<Skin>): real {
    if skins == [] then 0.0 else CountedSum(skins[..|skins| - 1]) + Contribution(skins[|skins| - 1])
  }

  /** The average input float: Σ(float·q)/Σq over the skins that have a numeric float,
      undefined (None, the page's NaN) when there is no input list or Σq is 0. */
  function AverageFloat(inputs: Option<seq<Skin>>): (avg: Option<real>)
    ensures avg.Some? ==> inputs.Some? && CountedWeight(inputs.value) > 0
    ensures avg.Some? ==> avg.value * CountedWeight(inputs.value) as real == CountedSum(inputs.value)
  {
    match inputs
    case None => None
    case Some(skins) =>
      if CountedWeight(skins) > 0 then Some(CountedSum(skins) / CountedWeight(skins) as real) else None
  }

  /** The `forEach` loop of the filter callback that accumulates the average input float. */
  method AverageInputFloat(inputs: Option<seq<Skin>>) returns (avgFloat: Option<real>)
    ensures avgFloat == AverageFloat(inputs)
  {
    avgFloat := None;
    if inputs.Some? {
      var skins := inputs.value;
      var totalFloatSum := 0.0;
      var totalSkinCount := 0;
      var i := 0;
      while i < |skins|
        invariant 0 <= i <= |skins|
        invariant totalFloatSum == CountedSum(skins[..i])
        invariant totalSkinCount == CountedWeight(skins[..i])
      {
        var skin := skins[i];
        if skin.float.Some? {
          var quantity := if skin.times.Some? && skin.times.value > 0.0 then skin.times.value.Floor else 1;
          totalFloatSum := totalFloatSum + skin.float.value * quantity as real;
          totalSkinCount := totalSkinCount + quantity;
        }
        assert skins[..i + 1][..i] == skins[..i];
        i := i + 1;
      }
      assert skins[..i] == skins;
      if totalSkinCount > 0 {
        avgFloat := Some(totalFloatSum / totalSkinCount as real);
      }
    }
  }

  lemma {:induction false} CountedWeightZero(skins: seq<Skin>)
    ensures CountedWeight(skins) == 0 <==> forall i :: 0 <= i < |skins| ==> Weight(skins[i]) == 0
  {
    if skins != [] {
      var init := skins[..|skins| - 1];
      CountedWeightZero(init);
      assert forall i :: 0 <= i < |init| ==> init[i] == skins[i];
    }
  }

  /** The average is undefined exactly when there is no input list, or no input skin
      has both a numeric float and a positive quantity. */
  lemma AverageUndefinedIff(inputs: Option<seq<Skin>>)
    ensures AverageFloat(inputs).None? <==>
      inputs.None? ||
      forall i :: 0 <= i < |inputs.value| ==> inputs.value[i].float.None? || Quantity(inputs.value[i]) == 0
  {
    if inputs.Some? {
      CountedWeightZero(inputs.value);
    }
  }

  /** Every float that counts lies in [lo, hi]. */
  ghost predicate CountedFloatsWithin(skins: seq<Skin>, lo: real, hi: real) {
    forall i :: 0 <= i < |skins| && Weight(skins[i]) > 0 ==> lo <= skins[i].float.value <= hi
  }

  /** Scaling a float in [lo, hi] by a non-negative weight. */
  lemma ScaleWithin(lo: real, f: real, hi: real, w: real)
    requires lo <= f <= hi && w >= 0.0
    ensures lo * w <= f * w <= hi * w
  {
    assert (f - lo) * w >= 0.0;
    assert (hi - f) * w >= 0.0;
  }

  /** lo·w <= s <= hi·w: a sum of weight w whose terms lie in [lo, hi]. */
  predicate ScaledWithin(lo: real, hi: real, w: real, s: real) {
    lo * w <= s <= hi * w
  }

  /** One more counted skin (float f, weight q) keeps the running sums between lo·Σq and hi·Σq. */
  lemma AddWithin(lo: real, hi: real, w0: real, s0: real, f: real, q: real, total: real, sum: real)
    requires ScaledWithin(lo, hi, w0, s0)
    requires q >= 0.0 && (q > 0.0 ==> lo <= f <= hi)
    requires total == w0 + q && sum == s0 + f * q
    ensures ScaledWithin(lo, hi, total, sum)
  {
    if q > 0.0 {
      ScaleWithin(lo, f, hi, q);
    }
    assert lo * total == lo * w0 + lo * q;
    assert hi * total == hi * w0 + hi * q;
  }

  lemma ZeroScale(lo: real, hi: real, total: real, sum: real)
    requires total == 0.0 && sum == 0.0
    ensures ScaledWithin(lo, hi, total, sum)
  {
  }

  /** CountedFloatsWithin, stated skin by skin from the right. */
  ghost predicate CountedFloatsWithinRec(skins: seq<Skin>, lo: real, hi: real) {
    skins != [] ==>
      && CountedFloatsWithinRec(skins[..|skins| - 1], lo, hi)
      && (Weight(skins[|skins| - 1]) > 0 ==> lo <= skins[|skins| - 1].float.value <= hi)
  }

  lemma {:induction false} CountedFloatsWithinRecursively(skins: seq<Skin>, lo: real, hi: real)
    requires CountedFloatsWithin(skins, lo, hi)
    ensures CountedFloatsWithinRec(skins, lo, hi)
  {
    if skins != [] {
      var init := skins[..|skins| - 1];
      assert forall i :: 0 <= i < |init| ==> init[i] == skins[i];
      CountedFloatsWithinRecursively(init, lo, hi);
    }
  }

  lemma {:induction false} CountedSumBetween(skins: seq<Skin>, lo: real, hi: real)
    requires CountedFloatsWithinRec(skins, lo, hi)
    ensures ScaledWithin(lo, hi, CountedWeight(skins) as real, CountedSum(skins))
  {
    if skins == [] {
      ZeroScale(lo, hi, CountedWeight(skins) as real, CountedSum(skins));
    } else {
      CountedSumBetween(skins[..|skins| - 1], lo, hi);
      CountedSumStep(skins, lo, hi);
    }
  }

  lemma CountedSumStep(skins: seq<Skin>, lo: real, hi: real)
    requires skins != [] && CountedFloatsWithinRec(skins, lo, hi)
    requires
      var init := skins[..|skins| - 1];
      ScaledWithin(lo, hi, CountedWeight(init) as real, CountedSum(init))
    ensures ScaledWithin(lo, hi, CountedWeight(skins) as real, CountedSum(skins))
  {
    var init, last := skins[..|skins| - 1], skins[|skins| - 1];
    var f := if last.float.Some? then last.float.value else 0.0;
    var q := if last.float.Some? then Quantity(last) as real else 0.0;
    assert CountedWeight(skins) as real == CountedWeight(init) as real + q;
    assert CountedSum(skins) == CountedSum(init) + f * q;
    assert q >= 0.0 && (q > 0.0 ==> lo <= f <= hi);
    AddWithin(lo, hi, CountedWeight(init) as real, CountedSum(init), f, q,
      CountedWeight(skins) as real, CountedSum(skins));
  }

  /** A quotient whose numerator lies between lo·w and hi·w lies between lo and hi. */
  lemma QuotientWithin(s: real, w: real, lo: real, hi: real)
    requires w > 0.0 && ScaledWithin(lo, hi, w, s)
    ensures lo <= s / w <= hi
  {
    assert (s / w) * w == s;
  }

  /** A weighted mean lies between the smallest and the largest counted float; in
      particular, floats in [0, 1] give an average in [0, 1]. */
  lemma AverageWithin(inputs: Option<seq<Skin>>, lo: real, hi: real)
    requires inputs.Some? && CountedFloatsWithin(inputs.value, lo, hi)
    ensures AverageFloat(inputs).Some? ==> lo <= AverageFloat(inputs).value <= hi
  {
    var skins := inputs.value;
    if CountedWeight(skins) > 0 {
      CountedFloatsWithinRecursively(skins, lo, hi);
      CountedSumBetween(skins, lo, hi);
      QuotientWithin(CountedSum(skins), CountedWeight(skins) as real, lo, hi);
    }
  }

  // ---------------------------------------------------------------------------
  // Range checks and defaults
  // ---------------------------------------------------------------------------

  /** An inclusive range read from a min/max pair of input boxes; an empty box is an infinity. */
  datatype Range = Range(lo: ExtReal, hi: ExtReal)

  datatype Bounds = Bounds(cost: Range, profit: Range, odds: Range, float: Range)

  const Unbounded: Range := Range(NegInf, PosInf)

  /** The bounds with every input box empty (after "clear filters"). */
  const NoFilters: Bounds := Bounds(Unbounded, Unbounded, Unbounded, Unbounded)

  predicate InRange(v: ExtReal, r: Range) {
    Le(r.lo, v) && Le(v, r.hi)
  }

  /** `tradeup_cost ?? 0` */
  function CostValue(t: Tradeup): (v: ExtReal)
    ensures v.Finite?
    ensures t.cost.Some? ==> v.value == t.cost.value
    ensures t.cost.None? ==> v.value == 0.0
  {
    Finite(t.cost.GetOr(0.0))
  }

  /** `mean_profit ?? -Infinity` */
  function ProfitValue(t: Tradeup): (v: ExtReal)
    ensures v != PosInf
    ensures v == NegInf <==> t.meanProfit.None?
    ensures t.meanProfit.Some? ==> v == Finite(t.meanProfit.value)
  {
    match t.meanProfit
    case Some(p) => Finite(p)
    case None => NegInf
  }

  /** `odds_to_profit ?? -Infinity` */
  function OddsValue(t: Tradeup): (v: ExtReal)
    ensures v != PosInf
    ensures v == NegInf <==> t.odds.None?
    ensures t.odds.Some? ==> v == Finite(t.odds.value)
  {
    match t.odds
    case Some(o) => Finite(o)
    case None => NegInf
  }

  /** `avgFloat >= floatMin && avgFloat <= floatMax`, where an undefined average is NaN
      and so fails both comparisons whatever the bounds. */
  predicate FloatMatch(avg: Option<real>, r: Range) {
    avg.Some? && InRange(Finite(avg.value), r)
  }

  /** The filter callback's verdict. */
  predicate Matches(t: Tradeup, b: Bounds)
    ensures Matches(t, b) ==> AverageFloat(t.inputs).Some?
    ensures Matches(t, b) && t.cost.None? ==> Le(b.cost.lo, Finite(0.0))
    ensures Matches(t, b) && t.meanProfit.None? ==> b.profit.lo == NegInf
    ensures Matches(t, b) && t.odds.None? ==> b.odds.lo == NegInf
  {
    && InRange(CostValue(t), b.cost)
    && InRange(ProfitValue(t), b.profit)
    && InRange(OddsValue(t), b.odds)
    && FloatMatch(AverageFloat(t.inputs), b.float)
  }

  /** The filter callback as the page runs it: the loop, then the four checks. */
  method KeepTradeup(t: Tradeup, b: Bounds) returns (keep: bool)
    ensures keep <==> Matches(t, b)
  {
    var avgFloat := AverageInputFloat(t.inputs);
    var cost := CostValue(t);
    var profit := ProfitValue(t);
    var odds := OddsValue(t);
    var costMatch := Le(b.cost.lo, cost) && Le(cost, b.cost.hi);
    var profitMatch := Le(b.profit.lo, profit) && Le(profit, b.profit.hi);
    var oddsMatch := Le(b.odds.lo, odds) && Le(odds, b.odds.hi);
    var floatMatch := avgFloat.Some? && Le(b.float.lo, Finite(avgFloat.value)) && Le(Finite(avgFloat.value), b.float.hi);
    keep := costMatch && profitMatch && oddsMatch && floatMatch;
  }

  /** A missing cost is checked as the cost 0. */
  lemma MissingCostIsZero(t: Tradeup, r: Range)
    requires t.cost.None?
    ensures InRange(CostValue(t), r) <==> Le(r.lo, Finite(0.0)) && Le(Finite(0.0), r.hi)
  {
  }

  /** A missing mean profit or odds is -Infinity: it passes its range exactly when the
      lower box is empty, whatever the upper bound. */
  lemma MissingProfitOrOddsIsNegInf(t: Tradeup, b: Bounds)
    ensures t.meanProfit.None? ==> (InRange(ProfitValue(t), b.profit) <==> b.profit.lo == NegInf)
    ensures t.odds.None? ==> (InRange(OddsValue(t), b.odds) <==> b.odds.lo == NegInf)
  {
  }

  /** With every box empty a record is kept exactly when its average float is defined:
      the undefined average fails even the unbounded float range. */
  lemma NoFiltersKeepsDefinedAverages(t: Tradeup)
    ensures Matches(t, NoFilters) <==> AverageFloat(t.inputs).Some?
  {
  }

  // ---------------------------------------------------------------------------
  // The filtered view
  // ---------------------------------------------------------------------------

  /** `all.filter(callback)`: the matching records, in their original order. */
  function FilterView(all: seq<Tradeup>, b: Bounds): (view: seq<Tradeup>)
    ensures |view| <= |all|
  {
    if all == [] then []
    else
      var last := all[|all| - 1];
      FilterView(all[..|all| - 1], b) + if Matches(last, b) then [last] else []
  }

  /** `x` is `y` with some elements removed, the rest kept in order. */
  ghost predicate Subsequence<T>(x: seq<T>, y: seq<T>)
    decreases |y|
  {
    && |x| <= |y|
    && (|| x == []
        || (x[|x| - 1] == y[|y| - 1] && Subsequence(x[..|x| - 1], y[..|y| - 1]))
        || Subsequence(x, y[..|y| - 1]))
  }

  lemma {:induction false} FilterIsSubsequence(all: seq<Tradeup>, b: Bounds)
    ensures Subsequence(FilterView(all, b), all)
  {
    if all != [] {
      var init, last := all[..|all| - 1], all[|all| - 1];
      FilterIsSubsequence(init, b);
      var view := FilterView(all, b);
      if Matches(last, b) {
        assert view[..|view| - 1] == FilterView(init, b);
      } else {
        assert view == FilterView(init, b);
      }
    }
  }

  /** A record occurs in the view as often as in the input when it matches, and not at all otherwise. */
  lemma {:induction false} FilterOccurrences(all: seq<Tradeup>, b: Bounds, t: Tradeup)
    ensures multiset(FilterView(all, b))[t] == if Matches(t, b) then multiset(all)[t] else 0
  {
    if all != [] {
      var init, last := all[..|all| - 1], all[|all| - 1];
      FilterOccurrences(init, b, t);
      assert all == init + [last];
    }
  }

  /** Membership: a record is in the view iff it is in the input and passes every range. */
  lemma FilterMembership(all: seq<Tradeup>, b: Bounds, t: Tradeup)
    ensures t in FilterView(all, b) <==> t in all && Matches(t, b)
  {
    FilterOccurrences(all, b, t);
  }

  /** Filtering a concatenation filters each part: new records land after the old ones. */
  lemma {:induction false} FilterAppend(prefix: seq<Tradeup>, suffix: seq<Tradeup>, b: Bounds)
    ensures FilterView(prefix + suffix, b) == FilterView(prefix, b) + FilterView(suffix, b)
  {
    if suffix == [] {
      assert prefix + suffix == prefix;
    } else {
      var init, last := suffix[..|suffix| - 1], suffix[|suffix| - 1];
      assert (prefix + suffix)[..|prefix + suffix| - 1] == prefix + init;
      FilterAppend(prefix, init, b);
    }
  }

  /** Filtering twice with the same bounds is filtering once. */
  lemma {:induction false} FilterIdempotent(all: seq<Tradeup>, b: Bounds)
    ensures FilterView(FilterView(all, b), b) == FilterView(all, b)
  {
    if all != [] {
      var init, last := all[..|all| - 1], all[|all| - 1];
      var v0 := FilterView(init, b);
      FilterIdempotent(init, b);
      if Matches(last, b) {
        assert FilterView(all, b) == v0 + [last];
        FilterAppend(v0, [last], b);
        FilterSingle(last, b);
      } else {
        assert FilterView(all, b) == v0;
      }
    }
  }

  lemma FilterSingle(t: Tradeup, b: Bounds)
    ensures FilterView([t], b) == if Matches(t, b) then [t] else []
  {
    assert [t][..0] == [];
  }

  /** When every record passes, the view is the whole input in the same order. */
  lemma {:induction false} FilterKeepsAll(all: seq<Tradeup>, b: Bounds)
    requires forall t :: t in all ==> Matches(t, b)
    ensures FilterView(all, b) == all
  {
    if all != [] {
      var init, last := all[..|all| - 1], all[|all| - 1];
      assert all == init + [last];
      assert forall t :: t in init ==> t in all;
      assert Matches(last, b);
      FilterKeepsAll(init, b);
      assert FilterView(all, b) == FilterView(init, b) + [last];
    }
  }

  /** The worked example: inputs of float 0.1 twice and 0.3 once average (0.2 + 0.3) / 3,
      which a float minimum of 0.2 excludes and one of 0.1 keeps. */
  lemma WorkedExample()
    ensures
      var skin1 := Skin(None, None, Some(0.1), Some(2.0), None);
      var skin2 := Skin(None, None, Some(0.3), Some(1.0), None);
      var t := Tradeup(Some(10.0), Some(5.0), Some(50.0), None, Some([skin1, skin2]), None);
      && AverageFloat(t.inputs) == Some(0.5 / 3.0)
      && !Matches(t, NoFilters.(float := Range(Finite(0.2), PosInf)))
      && Matches(t, NoFilters.(float := Range(Finite(0.1), PosInf)))
  {
    var skin1 := Skin(None, None, Some(0.1), Some(2.0), None);
    var skin2 := Skin(None, None, Some(0.3), Some(1.0), None);
    var skins := [skin1, skin2];
    assert skins[..1] == [skin1];
    assert [skin1][..0] == [];
    assert Quantity(skin1) == 2 && Quantity(skin2) == 1;
    assert CountedWeight([skin1]) == 2 && CountedSum([skin1]) == 0.2;
    assert CountedWeight(skins) == 3;
    assert CountedSum(skins) == 0.5;
  }
}
