/**
 * The Good-Better-Best pricing engine: square footage to tonnage, a fixed
 * four-row price matrix, the x1.85 multi-system multiplier and the
 * system-count heuristic.
 *
 * Tonnage is kept in tenths of a ton (2.5 is 25). Python's
 * `int(x * 1.85)` is written `Scale(x)`: truncation of x * 185 / 100
 * toward zero.
 */
module Pricing {
  import opened Outcomes
  import opened Text
  import opened Bson

  /** The price range of one tier: a `{"minPrice", "maxPrice"}` dict. */
  datatype Band = Band(minPrice: int, maxPrice: int)

  /** One row of the pricing matrix. */
  datatype Row = Row(tonnage: nat, good: Band, better: Band, best: Band)

  /** One tier of a returned estimate. */
  datatype Tier = Tier(title: string, minPrice: int, maxPrice: int)

  /**
   * The estimate returned to the client. `failed` marks the fallback that
   * `calculate_pricing_estimate` substitutes when the pricing call raises
   * (that dict carries an extra "error" key).
   */
  datatype Estimate = Estimate(good: Tier, better: Tier, best: Tier, tonnage: nat, systemCount: int, failed: bool)

  const BaseMatrix: seq<Row> := [
    Row(25, Band(8500, 10500), Band(11000, 13000), Band(14000, 16500)),
    Row(35, Band(9500, 11500), Band(13500, 15500), Band(17000, 19500)),
    Row(40, Band(10500, 12500), Band(14500, 16500), Band(18000, 21000)),
    Row(50, Band(11500, 14000), Band(15500, 18000), Band(19500, 23000))
  ]

  /** Tonnage of each square-footage bucket, in the order the buckets are tested. */
  const BucketTonnage: seq<nat> := [25, 35, 40, 50]

  /** The two spellings `determine_tonnage` accepts for bucket `k`. */
  predicate BucketMatches(s: string, k: nat)
    requires k < 4
  {
    if k == 0 then Contains(s, "Under 1,500") || Contains(Lower(s), "under 1500")
    else if k == 1 then Contains(s, "1,500 - 2,200") || Contains(s, "1500-2200")
    else if k == 2 then Contains(s, "2,200 - 3,000") || Contains(s, "2200-3000")
    else Contains(s, "Over 3,000") || Contains(Lower(s), "over 3000")
  }

  /**
   * `determine_tonnage`: the first bucket whose label occurs wins; a label
   * matching none of them falls back to 3.5 tons.
   */
  function DetermineTonnage(squareFootage: string): (t: nat)
    ensures t == 25 || t == 35 || t == 40 || t == 50
  {
    if Contains(squareFootage, "Under 1,500") || Contains(Lower(squareFootage), "under 1500") then 25
    else if Contains(squareFootage, "1,500 - 2,200") || Contains(squareFootage, "1500-2200") then 35
    else if Contains(squareFootage, "2,200 - 3,000") || Contains(squareFootage, "2200-3000") then 40
    else if Contains(squareFootage, "Over 3,000") || Contains(Lower(squareFootage), "over 3000") then 50
    else 35
  }

  /**
   * The buckets are tried in order and the first that matches decides the
   * tonnage; a label matching none of them gives 3.5 tons.
   */
  lemma DetermineTonnageFirstMatch(squareFootage: string, k: nat)
    requires k < 4 && BucketMatches(squareFootage, k)
    requires forall j :: 0 <= j < k ==> !BucketMatches(squareFootage, j)
    ensures DetermineTonnage(squareFootage) == BucketTonnage[k]
  {
    if k > 0 { assert !BucketMatches(squareFootage, 0); }
    if k > 1 { assert !BucketMatches(squareFootage, 1); }
    if k > 2 { assert !BucketMatches(squareFootage, 2); }
  }

  lemma DetermineTonnageDefault(squareFootage: string)
    requires forall k :: 0 <= k < 4 ==> !BucketMatches(squareFootage, k)
    ensures DetermineTonnage(squareFootage) == 35
  {
    assert !BucketMatches(squareFootage, 0) && !BucketMatches(squareFootage, 1);
    assert !BucketMatches(squareFootage, 2) && !BucketMatches(squareFootage, 3);
  }

  /** The four answer labels of the square-footage question give four distinct tonnages. */
  lemma SmallLabelTonnage()
    ensures DetermineTonnage("Under 1,500 sq ft") == 25
  {
    ContainsAt("Under 1,500 sq ft", "Under 1,500", 0);
  }

  lemma MidLabelTonnage()
    ensures DetermineTonnage("1,500 - 2,200 sq ft") == 35
  {
    var b := "1,500 - 2,200 sq ft";
    SkipsSmall(b);
    assert BucketMatches(b, 1) by { ContainsAt(b, "1,500 - 2,200", 0); }
    DetermineTonnageFirstMatch(b, 1);
  }

  lemma LargeLabelTonnage()
    ensures DetermineTonnage("2,200 - 3,000 sq ft") == 40
  {
    var c := "2,200 - 3,000 sq ft";
    SkipsSmall(c);
    SkipsBucket(c, 1, '5');
    assert BucketMatches(c, 2) by { ContainsAt(c, "2,200 - 3,000", 0); }
    DetermineTonnageFirstMatch(c, 2);
  }

  lemma LargestLabelTonnage()
    ensures DetermineTonnage("Over 3,000 sq ft") == 50
  {
    var d := "Over 3,000 sq ft";
    LargestLabelLacks(d);
    SkipsSmall(d);
    SkipsBucket(d, 1, '5');
    SkipsBucket(d, 2, '2');
    assert BucketMatches(d, 3) by { ContainsAt(d, "Over 3,000", 0); }
    DetermineTonnageFirstMatch(d, 3);
  }

  lemma LargestLabelLacks(d: string)
    requires d == "Over 3,000 sq ft"
    ensures 'U' !in d && 'u' !in d && '5' !in d && '2' !in d
  {
  }

  /** A label with no `u` in either case matches neither spelling of the smallest bucket. */
  lemma SkipsSmall(s: string)
    requires 'U' !in s && 'u' !in s
    ensures !BucketMatches(s, 0)
  {
    NotContainsMissingChar(s, "Under 1,500", 'U');
    LowerMissingChar(s, 'u');
    NotContainsMissingChar(Lower(s), "under 1500", 'u');
  }

  /** A label missing a digit both spellings of bucket 1 or 2 hold does not match that bucket. */
  lemma SkipsBucket(s: string, k: nat, c: char)
    requires (k == 1 && c == '5') || (k == 2 && c == '2')
    requires c !in s
    ensures !BucketMatches(s, k)
  {
    if k == 1 {
      NotContainsMissingChar(s, "1,500 - 2,200", c);
      NotContainsMissingChar(s, "1500-2200", c);
    } else {
      NotContainsMissingChar(s, "2,200 - 3,000", c);
      NotContainsMissingChar(s, "2200-3000", c);
    }
  }

  /**
   * `determine_tonnage` applied to whatever value the stored answer holds:
   * a list or dict is first searched for "Under 1,500" (element or key) and
   * then fails on `.lower()`; any other non-string raises on `in`.
   * `None` stands for the raised exception.
   */
  function TonnageOf(squareFootage: Value): (r: Option<nat>)
    ensures squareFootage.Str? ==> r == Some(DetermineTonnage(squareFootage.s))
    ensures r.Some? ==> r.value in BucketTonnage
  {
    match squareFootage
    case Str(s) => Some(DetermineTonnage(s))
    case List(_) => if PyContains("Under 1,500", squareFootage) == Some(true) then Some(25) else None
    case Dict(_) => if PyContains("Under 1,500", squareFootage) == Some(true) then Some(25) else None
    case _ => None
  }

  function Distance(a: int, b: int): nat
  {
    if a <= b then b - a else a - b
  }

  /** Row `i` is what `get_pricing_for_tonnage(t)` returns from matrix `m`. */
  ghost predicate IsPricingRow(m: seq<Row>, t: nat, i: nat)
  {
    && i < |m|
    && ((exists j :: 0 <= j < |m| && m[j].tonnage == t) ==>
          m[i].tonnage == t && forall j :: 0 <= j < i ==> m[j].tonnage != t)
    && ((forall j :: 0 <= j < |m| ==> m[j].tonnage != t) ==>
          (forall j :: 0 <= j < |m| ==> Distance(m[i].tonnage, t) <= Distance(m[j].tonnage, t))
          && (forall j :: 0 <= j < i ==> Distance(m[i].tonnage, t) < Distance(m[j].tonnage, t)))
  }

  /** The first row at least as close to `t` as every row from `from` on. */
  function NearestFrom(m: seq<Row>, t: nat, from: nat): (i: nat)
    requires from < |m|
    ensures from <= i < |m|
    ensures forall j :: from <= j < |m| ==> Distance(m[i].tonnage, t) <= Distance(m[j].tonnage, t)
    ensures forall j :: from <= j < i ==> Distance(m[i].tonnage, t) < Distance(m[j].tonnage, t)
    decreases |m| - from
  {
    if from == |m| - 1 then from
    else
      var rest := NearestFrom(m, t, from + 1);
      if Distance(m[from].tonnage, t) <= Distance(m[rest].tonnage, t) then from else rest
  }

  /** The row `get_pricing_for_tonnage` picks, as a value. */
  function RowFor(m: seq<Row>, t: nat): (i: nat)
    requires |m| > 0
    ensures IsPricingRow(m, t, i)
    decreases |m|
  {
    if m[0].tonnage == t then 0
    else if |m| == 1 then 0
    else
      var j := RowFor(m[1..], t);
      if m[1..][j].tonnage == t then j + 1 else NearestFrom(m, t, 0)
  }

  /** Python `int(x * 1.85)`: truncation toward zero. */
  function Scale(x: int): int
  {
    if x >= 0 then x * 185 / 100 else -((-x) * 185 / 100)
  }

  /** The truncating multiply keeps strict order between prices. */
  lemma ScaleStrictlyMonotone(x: int, y: int)
    requires 0 <= x < y
    ensures Scale(x) < Scale(y)
  {
    assert y * 185 >= x * 185 + 100;
    DivStep(x * 185, y * 185);
  }

  lemma ScaleMonotone(x: int, y: int)
    requires 0 <= x <= y
    ensures Scale(x) <= Scale(y)
  {
    if x < y { ScaleStrictlyMonotone(x, y); }
  }

  lemma DivStep(a: nat, b: nat)
    requires a + 100 <= b
    ensures a / 100 < b / 100
  {
    var q, r := a / 100, a % 100;
    assert a == q * 100 + r;
    assert b >= (q + 1) * 100;
  }

  function ScaleBand(b: Band): Band
  {
    Band(Scale(b.minPrice), Scale(b.maxPrice))
  }

  /** `apply_multi_system_multiplier` on a value: every price scaled when two or more systems. */
  function ApplyMultiplier(r: Row, systemCount: int): (s: Row)
    ensures s.tonnage == r.tonnage
  {
    if systemCount >= 2 then Row(r.tonnage, ScaleBand(r.good), ScaleBand(r.better), ScaleBand(r.best))
    else r
  }

  /** Every band is a proper range and the tiers do not overlap. */
  predicate WellOrdered(r: Row)
  {
    && 0 <= r.good.minPrice < r.good.maxPrice < r.better.minPrice < r.better.maxPrice
    && r.better.maxPrice < r.best.minPrice < r.best.maxPrice
  }

  /** The matrix as shipped: four rows, increasing tonnage, every row well ordered. */
  lemma BaseMatrixFacts()
    ensures |BaseMatrix| == 4
    ensures forall i, j :: 0 <= i < j < 4 ==> BaseMatrix[i].tonnage < BaseMatrix[j].tonnage
    ensures forall i :: 0 <= i < 4 ==> WellOrdered(BaseMatrix[i]) && BaseMatrix[i].tonnage == BucketTonnage[i]
  {
  }

  /** The multiplier keeps a row well ordered (min below max, tiers apart). */
  lemma MultiplierKeepsOrder(r: Row, systemCount: int)
    requires WellOrdered(r)
    ensures WellOrdered(ApplyMultiplier(r, systemCount))
  {
    if systemCount >= 2 {
      ScaleStrictlyMonotone(r.good.minPrice, r.good.maxPrice);
      ScaleStrictlyMonotone(r.good.maxPrice, r.better.minPrice);
      ScaleStrictlyMonotone(r.better.minPrice, r.better.maxPrice);
      ScaleStrictlyMonotone(r.better.maxPrice, r.best.minPrice);
      ScaleStrictlyMonotone(r.best.minPrice, r.best.maxPrice);
      ScaleMonotone(0, r.good.minPrice);
    }
  }

  /** Python's `d in answer` holds: a substring of a string, an element of a list, a key of a dict. */
  predicate Mentions(answer: Value, d: string)
  {
    PyContains(d, answer) == Some(true)
  }

  /**
   * `extract_system_count` on the stored answer: 1 for a falsy answer,
   * otherwise the first of "1", "2", "3", "4" found by Python's `in`, else 1.
   * `None` stands for the `TypeError` a number or boolean raises.
   */
  function ExtractSystemCount(answer: Value): (r: Option<int>)
    ensures !Truthy(answer) ==> r == Some(1)
    ensures r.Some? ==> 1 <= r.value <= 4
    ensures r.None? <==> Truthy(answer) && !(answer.Str? || answer.List? || answer.Dict?)
    ensures Mentions(answer, "1") ==> r == Some(1)
    ensures !Mentions(answer, "1") && Mentions(answer, "2") ==> r == Some(2)
    ensures !Mentions(answer, "1") && !Mentions(answer, "2") && Mentions(answer, "3") ==> r == Some(3)
    ensures !Mentions(answer, "1") && !Mentions(answer, "2") && !Mentions(answer, "3") && Mentions(answer, "4") ==>
      r == Some(4)
    ensures (answer.Str? || answer.List? || answer.Dict?)
            && !Mentions(answer, "1") && !Mentions(answer, "2") && !Mentions(answer, "3") && !Mentions(answer, "4") ==>
      r == Some(1)
    ensures answer.Str? && r.Some? && r.value > 1 ==>
      Contains(answer.s, NatToString(r.value))
      && forall d: nat :: 1 <= d < r.value ==> !Contains(answer.s, NatToString(d))
  {
    if !Truthy(answer) then Some(1)
    else match PyContains("1", answer)
      case None => None
      case Some(has1) =>
        if has1 then Some(1)
        else if PyContains("2", answer) == Some(true) then Some(2)
        else if PyContains("3", answer) == Some(true) then Some(3)
        else if PyContains("4", answer) == Some(true) then Some(4)
        else Some(1)
  }

  /** The estimate built from a (possibly multiplied) row. */
  function EstimateFromRow(r: Row, tonnage: nat, systemCount: int): (e: Estimate)
    ensures e.good == Tier("Budget-Focused", r.good.minPrice, r.good.maxPrice)
    ensures e.better == Tier("Efficiency & Value", r.better.minPrice, r.better.maxPrice)
    ensures e.best == Tier("Ultimate Comfort", r.best.minPrice, r.best.maxPrice)
    ensures e.tonnage == tonnage && e.systemCount == systemCount && !e.failed
  {
    Estimate(Tier("Budget-Focused", r.good.minPrice, r.good.maxPrice),
             Tier("Efficiency & Value", r.better.minPrice, r.better.maxPrice),
             Tier("Ultimate Comfort", r.best.minPrice, r.best.maxPrice),
             tonnage, systemCount, false)
  }

  /** The fallback `calculate_pricing_estimate` returns when pricing raises. */
  const FallbackEstimate: Estimate := Estimate(
    Tier("Budget-Focused", 9500, 11500),
    Tier("Efficiency & Value", 13500, 15500),
    Tier("Ultimate Comfort", 17000, 19500),
    35, 1, true)

  /**
   * `calculate_estimate` as its authors meant it: the shipped matrix is
   * never changed, so the answer depends only on the two inputs.
   */
  function IntendedEstimate(squareFootage: string, systemCount: int): (e: Estimate)
  {
    var t := DetermineTonnage(squareFootage);
    EstimateFromRow(ApplyMultiplier(BaseMatrix[RowFor(BaseMatrix, t)], systemCount), t, systemCount)
  }

  /**
   * The intended estimate takes the row of the computed tonnage, multiplies
   * it for two or more systems, and keeps every tier a proper range.
   */
  lemma IntendedEstimateSpec(squareFootage: string, systemCount: int)
    ensures var e := IntendedEstimate(squareFootage, systemCount);
      var row := BaseMatrix[RowFor(BaseMatrix, e.tonnage)];
      && e.tonnage == DetermineTonnage(squareFootage)
      && row.tonnage == e.tonnage
      && e.systemCount == systemCount && !e.failed
      && e == EstimateFromRow(ApplyMultiplier(row, systemCount), e.tonnage, systemCount)
      && e.good.minPrice < e.good.maxPrice < e.better.minPrice < e.better.maxPrice < e.best.minPrice < e.best.maxPrice
  {
    var t := DetermineTonnage(squareFootage);
    BaseMatrixFacts();
    assert BaseMatrix[BucketIndex(t)].tonnage == t;
    var i := RowFor(BaseMatrix, t);
    MultiplierKeepsOrder(BaseMatrix[i], systemCount);
  }

  /** Position of a bucket tonnage in the table. */
  function BucketIndex(t: nat): (k: nat)
    requires t in BucketTonnage
    ensures k < 4 && BucketTonnage[k] == t
  {
    if t == 25 then 0 else if t == 35 then 1 else if t == 40 then 2 else 3
  }

  /** The concrete case: 1,500 - 2,200 sq ft is 3.5 tons, 9500-11500 for one system, 17575 for two. */
  lemma MidSizeEstimate()
    ensures IntendedEstimate("1,500 - 2,200 sq ft", 1).tonnage == 35
    ensures IntendedEstimate("1,500 - 2,200 sq ft", 1).good == Tier("Budget-Focused", 9500, 11500)
    ensures IntendedEstimate("1,500 - 2,200 sq ft", 2).good.minPrice == 17575
  {
    MidLabelTonnage();
    assert RowFor(BaseMatrix, 35) == 1;
  }

  /**
   * The process-wide `PricingService`. `calculate_estimate` hands a shallow
   * copy of the chosen row to the multiplier, so the tier dicts it scales
   * are the matrix's own: the matrix row changes with every multi-system
   * estimate.
   */
  class PricingService {
    var matrix: seq<Row>

    /** Only the prices change; the four tonnages stay those of the shipped table. */
    ghost predicate Valid()
      reads this
    {
      |matrix| == 4 && forall i :: 0 <= i < 4 ==> matrix[i].tonnage == BaseMatrix[i].tonnage
    }

    constructor ()
      ensures Valid() && matrix == BaseMatrix
    {
      matrix := BaseMatrix;
    }

    /** `get_pricing_for_tonnage`: the first exact row, else the first nearest one. */
    method GetPricingForTonnage(t: nat) returns (i: nat)
      requires Valid()
      ensures IsPricingRow(matrix, t, i)
    {
      var k := 0;
      while k < |matrix|
        invariant 0 <= k <= |matrix|
        invariant forall j :: 0 <= j < k ==> matrix[j].tonnage != t
      {
        if matrix[k].tonnage == t {
          return k;
        }
        k := k + 1;
      }
      // min(matrix, key=|tonnage - t|) keeps the first of equally close rows
      i := 0;
      k := 1;
      while k < |matrix|
        invariant 1 <= k <= |matrix| && i < k
        invariant forall j :: 0 <= j < k ==> Distance(matrix[i].tonnage, t) <= Distance(matrix[j].tonnage, t)
        invariant forall j :: 0 <= j < i ==> Distance(matrix[i].tonnage, t) < Distance(matrix[j].tonnage, t)
      {
        if Distance(matrix[k].tonnage, t) < Distance(matrix[i].tonnage, t) {
          i := k;
        }
        k := k + 1;
      }
    }

    /** `apply_multi_system_multiplier` on row `i`, tier by tier, in place. */
    method ApplyMultiSystemMultiplier(i: nat, systemCount: int)
      requires Valid() && i < |matrix|
      modifies this
      ensures Valid()
      ensures matrix == old(matrix)[i := ApplyMultiplier(old(matrix)[i], systemCount)]
    {
      if systemCount >= 2 {
        var r := matrix[i];
        for tier := 0 to 3
          invariant |matrix| == |old(matrix)|
          invariant matrix == old(matrix)[i := matrix[i]]
          invariant matrix[i].tonnage == r.tonnage
          invariant matrix[i].good == (if tier > 0 then ScaleBand(r.good) else r.good)
          invariant matrix[i].better == (if tier > 1 then ScaleBand(r.better) else r.better)
          invariant matrix[i].best == (if tier > 2 then ScaleBand(r.best) else r.best)
        {
          var row := matrix[i];
          if tier == 0 {
            matrix := matrix[i := row.(good := ScaleBand(row.good))];
          } else if tier == 1 {
            matrix := matrix[i := row.(better := ScaleBand(row.better))];
          } else {
            matrix := matrix[i := row.(best := ScaleBand(row.best))];
          }
        }
      }
    }

    /**
     * `calculate_estimate` as written: it returns the estimate of the row
     * as it is now, and leaves that row multiplied behind it. `None` stands
     * for the exception `determine_tonnage` raises on a non-string answer.
     */
    method CalculateEstimate(squareFootage: Value, systemCount: int) returns (r: Option<Estimate>)
      requires Valid()
      modifies this
      ensures Valid()
      ensures TonnageOf(squareFootage).None? ==> r.None? && matrix == old(matrix)
      ensures TonnageOf(squareFootage).Some? ==>
        var t := TonnageOf(squareFootage).value;
        var i := RowFor(old(matrix), t);
        && matrix == old(matrix)[i := ApplyMultiplier(old(matrix)[i], systemCount)]
        && r == Some(EstimateFromRow(matrix[i], t, systemCount))
    {
      var tonnage := TonnageOf(squareFootage);
      if tonnage.None? {
        return None;
      }
      var t := tonnage.value;
      var i := GetPricingForTonnage(t);
      assert i == RowFor(matrix, t) by { PricingRowUnique(matrix, t, i, RowFor(matrix, t)); }
      ApplyMultiSystemMultiplier(i, systemCount);
      r := Some(EstimateFromRow(matrix[i], t, systemCount));
    }
  }

  /** `get_pricing_for_tonnage` is determined by the matrix and the tonnage. */
  lemma PricingRowUnique(m: seq<Row>, t: nat, i: nat, j: nat)
    requires IsPricingRow(m, t, i) && IsPricingRow(m, t, j)
    ensures i == j
  {
  }

  /**
   * A fresh service gives the intended estimate on its first call, and its
   * table is still the shipped one afterwards exactly when that call was
   * for a single system.
   */
  method FreshServiceAgrees(squareFootage: string, systemCount: int) returns (e: Option<Estimate>, svc: PricingService)
    ensures e == Some(IntendedEstimate(squareFootage, systemCount))
    ensures svc.matrix == BaseMatrix <==> systemCount < 2
  {
    svc := new PricingService();
    e := svc.CalculateEstimate(Str(squareFootage), systemCount);
    MultipliedRowChanges(RowFor(BaseMatrix, DetermineTonnage(squareFootage)), systemCount);
  }

  /** The multiplier leaves a shipped row as it is exactly for a single system. */
  lemma MultipliedRowChanges(i: nat, systemCount: int)
    requires i < |BaseMatrix|
    ensures BaseMatrix[i := ApplyMultiplier(BaseMatrix[i], systemCount)] == BaseMatrix <==> systemCount < 2
  {
    if systemCount >= 2 {
      BaseMatrixFacts();
      assert Scale(BaseMatrix[i].good.minPrice) > BaseMatrix[i].good.minPrice;
      assert BaseMatrix[i := ApplyMultiplier(BaseMatrix[i], systemCount)][i] != BaseMatrix[i];
    }
  }

  /**
   * The aliasing shown on the concrete case, for 1,500 - 2,200 sq ft: a
   * 2-system estimate prices the good tier at 17575 as intended, a
   * 1-system estimate after it still says 17575 instead of 9500, and a
   * second 2-system estimate says 32513 instead of 17575.
   */
  method AliasingDrift() returns (first: Option<Estimate>, single: Option<Estimate>, second: Option<Estimate>)
    ensures first == Some(IntendedEstimate("1,500 - 2,200 sq ft", 2))
    ensures single.Some? && single.value.good.minPrice == 17575
    ensures IntendedEstimate("1,500 - 2,200 sq ft", 1).good.minPrice == 9500
    ensures second.Some? && second.value.good.minPrice == 32513
    ensures IntendedEstimate("1,500 - 2,200 sq ft", 2).good.minPrice == 17575
  {
    var sqft := "1,500 - 2,200 sq ft";
    MidLabelTonnage();
    MidSizeEstimate();
    var svc := new PricingService();
    assert RowFor(svc.matrix, 35) == 1;
    first := svc.CalculateEstimate(Str(sqft), 2);
    assert svc.matrix[1].good.minPrice == 17575;
    assert RowFor(svc.matrix, 35) == 1;
    single := svc.CalculateEstimate(Str(sqft), 1);
    assert RowFor(svc.matrix, 35) == 1;
    second := svc.CalculateEstimate(Str(sqft), 2);
  }
}
