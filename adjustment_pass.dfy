/**
 * The adjustment application algorithm, `apply_sage_x3_adjustments` in
 * src/pricing/service.py: one pass over the adjustments in ascending column
 * order that carries the current unit price and the current line total,
 * followed by a clamp at zero and a half-up rounding to cents.
 */
module AdjustmentPass {
  import opened PricingModel
  import opened Sorting
  import opened Rounding

  /** The two running values of the pass. */
  datatype Running = Running(unitPrice: real, lineTotal: real)

  function AdjustmentIndex(a: PriceAdjustment): int { a.index }

  /** The adjustments in the order they are applied: Python's stable
      `sorted(adjustments, key=lambda adj: adj.index)`. */
  function SortedAdjustments(adjs: seq<PriceAdjustment>): (r: seq<PriceAdjustment>)
    ensures multiset(r) == multiset(adjs)
    ensures forall a :: a in r <==> a in adjs
    ensures SortedBy(r, AdjustmentIndex)
    ensures forall k :: WithKey(r, AdjustmentIndex, k) == WithKey(adjs, AdjustmentIndex, k)
  {
    var r := SortBy(adjs, AdjustmentIndex);
    assert forall a :: a in r <==> a in multiset(r);
    SortByOrderedAndStable(adjs, AdjustmentIndex);
    r
  }

  /** Adjustments already in strictly ascending column order, as extracted
      from one line, are applied in the order given. */
  lemma SortedAdjustmentsOfIncreasing(adjs: seq<PriceAdjustment>)
    requires forall i, j :: 0 <= i < j < |adjs| ==> adjs[i].index < adjs[j].index
    ensures SortedAdjustments(adjs) == adjs
  {
    SortByOfIncreasing(adjs, AdjustmentIndex);
  }

  /** The divisions by the quantity that per-line and per-document steps make
      are defined: the quantity is non-zero, or every adjustment is per unit. */
  predicate DivisionSafe(quantity: real, adjs: seq<PriceAdjustment>) {
    quantity != 0.0 || forall a :: a in adjs ==> a.calculationBasis == PerUnit
  }

  /** `apply_sage_x3_adjustments` completes: it returns before any division
      when there is nothing to apply or the base price is zero, and otherwise
      its divisions are defined. */
  predicate PassDefined(basePrice: real, adjs: seq<PriceAdjustment>, quantity: real) {
    adjs == [] || basePrice == 0.0 || DivisionSafe(quantity, adjs)
  }

  /** The amount one adjustment stands for, before its sign is applied. The
      per-line and per-document bases use the same formulas. */
  function StepAmount(a: PriceAdjustment, cur: Running, originalUnit: real, originalLine: real): (r: real)
    ensures a.calculationType == Amount ==> r == a.value
  {
    match a.calculationBasis
    case PerUnit =>
      (match a.calculationType
       case Amount => a.value
       case CumulativePercentage => cur.unitPrice * a.value / 100.0
       case CascadingPercentage => originalUnit * a.value / 100.0)
    case _ =>
      (match a.calculationType
       case Amount => a.value
       case CumulativePercentage => cur.lineTotal * a.value / 100.0
       case CascadingPercentage => originalLine * a.value / 100.0)
  }

  /** A fee adds the amount, a discount subtracts it. */
  function Signed(a: PriceAdjustment, amount: real): real {
    if a.adjustmentType == Discount then -amount else amount
  }

  /** One step: a per-unit adjustment changes the unit price and recomputes the
      line total; a per-line or per-document one changes the line total and
      recomputes the unit price. */
  function Step(a: PriceAdjustment, cur: Running, originalUnit: real, originalLine: real, quantity: real): (r: Running)
    requires a.calculationBasis != PerUnit ==> quantity != 0.0
    ensures a.calculationBasis == PerUnit ==> r.lineTotal == r.unitPrice * quantity
    ensures a.calculationBasis != PerUnit ==> r.unitPrice == r.lineTotal / quantity
  {
    var amount := StepAmount(a, cur, originalUnit, originalLine);
    if a.calculationBasis == PerUnit then
      var u := cur.unitPrice + Signed(a, amount);
      Running(u, u * quantity)
    else
      var l := cur.lineTotal + Signed(a, amount);
      Running(l / quantity, l)
  }

  /** The state after applying `adjs` in the order given. */
  function Pass(adjs: seq<PriceAdjustment>, start: Running, originalUnit: real, originalLine: real, quantity: real): Running
    requires DivisionSafe(quantity, adjs)
  {
    if adjs == [] then start
    else
      var prefix := adjs[..|adjs| - 1];
      assert forall a :: a in prefix ==> a in adjs;
      Step(adjs[|adjs| - 1], Pass(prefix, start, originalUnit, originalLine, quantity), originalUnit, originalLine, quantity)
  }

  /** The state after the ordered pass that starts from the base price. */
  function PassFrom(basePrice: real, adjs: seq<PriceAdjustment>, quantity: real): Running
    requires DivisionSafe(quantity, adjs)
  {
    Pass(adjs, Running(basePrice, basePrice * quantity), basePrice, basePrice * quantity, quantity)
  }

  lemma PassFromUnfold(basePrice: real, adjs: seq<PriceAdjustment>, quantity: real)
    requires DivisionSafe(quantity, adjs)
    ensures PassFrom(basePrice, adjs, quantity)
         == Pass(adjs, Running(basePrice, basePrice * quantity), basePrice, basePrice * quantity, quantity)
  {
  }

  function ClampAtZero(x: real): (r: real)
    ensures r >= 0.0 && r >= x
    ensures x >= 0.0 ==> r == x
  {
    if x < 0.0 then 0.0 else x
  }

  /** `apply_sage_x3_adjustments`: an empty list or a zero base returns the base
      as it is; otherwise the final unit price is non-negative and whole cents. */
  function FinalUnitPrice(basePrice: real, adjs: seq<PriceAdjustment>, quantity: real): (r: real)
    requires PassDefined(basePrice, adjs, quantity)
    ensures adjs == [] || basePrice == 0.0 ==> r == basePrice
    ensures adjs != [] && basePrice != 0.0 ==> r >= 0.0 && WholeCents(r)
  {
    if adjs == [] || basePrice == 0.0 then basePrice
    else
      var sorted := SortedAdjustments(adjs);
      RoundCents(ClampAtZero(PassFrom(basePrice, sorted, quantity).unitPrice))
  }

  lemma DivisionSafeSorted(quantity: real, adjs: seq<PriceAdjustment>)
    requires DivisionSafe(quantity, adjs)
    ensures DivisionSafe(quantity, SortedAdjustments(adjs))
  {
  }

  lemma DivisionSafePrefix(quantity: real, adjs: seq<PriceAdjustment>, i: nat)
    requires DivisionSafe(quantity, adjs) && i <= |adjs|
    ensures DivisionSafe(quantity, adjs[..i])
  {
    assert forall a :: a in adjs[..i] ==> a in adjs;
  }

  lemma PassSnoc(adjs: seq<PriceAdjustment>, i: nat, start: Running, originalUnit: real, originalLine: real, quantity: real)
    requires DivisionSafe(quantity, adjs) && i < |adjs|
    ensures DivisionSafe(quantity, adjs[..i]) && DivisionSafe(quantity, adjs[..i + 1])
    ensures Pass(adjs[..i + 1], start, originalUnit, originalLine, quantity)
         == Step(adjs[i], Pass(adjs[..i], start, originalUnit, originalLine, quantity), originalUnit, originalLine, quantity)
  {
    DivisionSafePrefix(quantity, adjs, i);
    DivisionSafePrefix(quantity, adjs, i + 1);
    assert adjs[..i + 1][..i] == adjs[..i];
  }

  lemma StepCases(a: PriceAdjustment, cur: Running, originalUnit: real, originalLine: real, quantity: real)
    requires a.calculationBasis != PerUnit ==> quantity != 0.0
    ensures var amount := StepAmount(a, cur, originalUnit, originalLine);
            var u := cur.unitPrice + Signed(a, amount);
            var l := cur.lineTotal + Signed(a, amount);
            Step(a, cur, originalUnit, originalLine, quantity)
            == if a.calculationBasis == PerUnit then Running(u, u * quantity) else Running(l / quantity, l)
  {
  }

  /** The amount chain shared by the three bases: the value itself, a
      percentage of the current figure, or a percentage of the original one. */
  method AdjustmentAmount(adjustment: PriceAdjustment, current: real, original: real) returns (amount: real)
    ensures adjustment.calculationType == Amount ==> amount == adjustment.value
    ensures adjustment.calculationType == CumulativePercentage ==> amount == current * adjustment.value / 100.0
    ensures adjustment.calculationType == CascadingPercentage ==> amount == original * adjustment.value / 100.0
  {
    amount := 0.0;
    if adjustment.calculationType == Amount {
      amount := adjustment.value;
    } else if adjustment.calculationType == CumulativePercentage {
      amount := (current * adjustment.value) / 100.0;
    } else if adjustment.calculationType == CascadingPercentage {
      amount := (original * adjustment.value) / 100.0;
    }
  }

  /** A per-unit adjustment: the unit price moves by the amount and the line
      total is recomputed from it. */
  method ApplyUnitAdjustment(adjustment: PriceAdjustment, currentUnitPrice: real, currentLineTotal: real,
                             originalBasePrice: real, originalLineTotal: real, quantity: real)
      returns (unitPrice: real, lineTotal: real)
    requires adjustment.calculationBasis == PerUnit
    ensures Running(unitPrice, lineTotal)
         == Step(adjustment, Running(currentUnitPrice, currentLineTotal), originalBasePrice, originalLineTotal, quantity)
  {
    ghost var cur := Running(currentUnitPrice, currentLineTotal);
    StepCases(adjustment, cur, originalBasePrice, originalLineTotal, quantity);
    unitPrice := currentUnitPrice;
    var amount := AdjustmentAmount(adjustment, unitPrice, originalBasePrice);
    assert amount == StepAmount(adjustment, cur, originalBasePrice, originalLineTotal);
    if adjustment.adjustmentType == Discount {
      unitPrice := unitPrice - amount;
    } else {
      unitPrice := unitPrice + amount;
    }
    lineTotal := unitPrice * quantity;
  }

  /** A per-line or per-document adjustment: the line total moves by the
      amount and the unit price is recomputed from it. */
  method ApplyLineAdjustment(adjustment: PriceAdjustment, currentUnitPrice: real, currentLineTotal: real,
                             originalBasePrice: real, originalLineTotal: real, quantity: real)
      returns (unitPrice: real, lineTotal: real)
    requires adjustment.calculationBasis != PerUnit && quantity != 0.0
    ensures Running(unitPrice, lineTotal)
         == Step(adjustment, Running(currentUnitPrice, currentLineTotal), originalBasePrice, originalLineTotal, quantity)
  {
    ghost var cur := Running(currentUnitPrice, currentLineTotal);
    StepCases(adjustment, cur, originalBasePrice, originalLineTotal, quantity);
    lineTotal := currentLineTotal;
    var amount := AdjustmentAmount(adjustment, lineTotal, originalLineTotal);
    assert amount == StepAmount(adjustment, cur, originalBasePrice, originalLineTotal);
    if adjustment.adjustmentType == Discount {
      lineTotal := lineTotal - amount;
    } else {
      lineTotal := lineTotal + amount;
    }
    unitPrice := lineTotal / quantity;
  }

  /** The body of the loop of `apply_sage_x3_adjustments`: one adjustment
      applied to the running unit price and line total, by its basis. */
  method ApplyOneAdjustment(adjustment: PriceAdjustment, currentUnitPrice: real, currentLineTotal: real,
                            originalBasePrice: real, originalLineTotal: real, quantity: real)
      returns (unitPrice: real, lineTotal: real)
    requires adjustment.calculationBasis != PerUnit ==> quantity != 0.0
    ensures Running(unitPrice, lineTotal)
         == Step(adjustment, Running(currentUnitPrice, currentLineTotal), originalBasePrice, originalLineTotal, quantity)
  {
    if adjustment.calculationBasis == PerUnit {
      unitPrice, lineTotal := ApplyUnitAdjustment(adjustment, currentUnitPrice, currentLineTotal,
                                                  originalBasePrice, originalLineTotal, quantity);
    } else if adjustment.calculationBasis == PerLine {
      unitPrice, lineTotal := ApplyLineAdjustment(adjustment, currentUnitPrice, currentLineTotal,
                                                  originalBasePrice, originalLineTotal, quantity);
    } else {
      unitPrice, lineTotal := ApplyLineAdjustment(adjustment, currentUnitPrice, currentLineTotal,
                                                  originalBasePrice, originalLineTotal, quantity);
    }
  }

  /** `apply_sage_x3_adjustments`: the ordered pass, the clamp at zero and the
      rounding to cents. */
  method ApplySageX3Adjustments(basePrice: real, adjustments: seq<PriceAdjustment>, quantity: real)
      returns (finalPrice: real)
    requires PassDefined(basePrice, adjustments, quantity)
    ensures finalPrice == FinalUnitPrice(basePrice, adjustments, quantity)
    ensures adjustments == [] || basePrice == 0.0 ==> finalPrice == basePrice
    ensures adjustments != [] && basePrice != 0.0 ==> finalPrice >= 0.0 && WholeCents(finalPrice)
  {
    if adjustments == [] || basePrice == 0.0 {
      return basePrice;
    }
    var sorted := SortedAdjustments(adjustments);
    DivisionSafeSorted(quantity, adjustments);
    var currentUnitPrice := basePrice;
    var originalBasePrice := basePrice;
    var originalLineTotal := basePrice * quantity;
    var currentLineTotal := originalLineTotal;
    ghost var start := Running(basePrice, originalLineTotal);
    for i := 0 to |sorted|
      invariant Running(currentUnitPrice, currentLineTotal) == Pass(sorted[..i], start, originalBasePrice, originalLineTotal, quantity)
    {
      PassSnoc(sorted, i, start, originalBasePrice, originalLineTotal, quantity);
      currentUnitPrice, currentLineTotal :=
        ApplyOneAdjustment(sorted[i], currentUnitPrice, currentLineTotal, originalBasePrice, originalLineTotal, quantity);
    }
    assert sorted[..|sorted|] == sorted;
    PassFromUnfold(basePrice, sorted, quantity);
    if currentUnitPrice < 0.0 {
      currentUnitPrice := 0.0;
    }
    finalPrice := RoundCents(currentUnitPrice);
  }
}
