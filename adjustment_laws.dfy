/**
 * Properties of the adjustment pass: independence from the order in which
 * the adjustments are supplied, the direction in which fees and discounts
 * move the price, and the closed form of a run of cascading percentages.
 */
module AdjustmentLaws {
  import opened PricingModel
  import opened Sorting
  import opened Rounding
  import opened AdjustmentPass

  predicate AllFees(adjs: seq<PriceAdjustment>) {
    forall a :: a in adjs ==> a.adjustmentType == Fee
  }

  predicate AllDiscounts(adjs: seq<PriceAdjustment>) {
    forall a :: a in adjs ==> a.adjustmentType == Discount
  }

  /** Extracted adjustments carry the absolute value of their column. */
  predicate NonNegativeValues(adjs: seq<PriceAdjustment>) {
    forall a :: a in adjs ==> a.value >= 0.0
  }

  /** No cumulative percentage takes away more than everything. */
  predicate CumulativeAtMostHundred(adjs: seq<PriceAdjustment>) {
    forall a :: a in adjs && a.calculationType == CumulativePercentage ==> a.value <= 100.0
  }

  /** The adjustments occupy different columns, as those extracted from one
      price line do. */
  ghost predicate DistinctColumns(adjs: seq<PriceAdjustment>) {
    DistinctKeys(adjs, AdjustmentIndex)
  }

  /** The result depends on the set of adjustments, not on the order in which
      they are supplied, because the pass sorts them by column first. */
  lemma FinalUnitPricePermutation(basePrice: real, adjs: seq<PriceAdjustment>, other: seq<PriceAdjustment>, quantity: real)
    requires multiset(adjs) == multiset(other)
    requires DistinctColumns(adjs)
    requires DivisionSafe(quantity, adjs)
    ensures DivisionSafe(quantity, other)
    ensures FinalUnitPrice(basePrice, adjs, quantity) == FinalUnitPrice(basePrice, other, quantity)
  {
    assert forall a :: a in other <==> a in multiset(other);
    assert forall a :: a in adjs <==> a in multiset(adjs);
    SortByPermutationInvariant(adjs, other, AdjustmentIndex);
    if adjs == [] {
      assert |other| == |multiset(other)| == 0;
    } else {
      assert |other| == |multiset(other)| == |adjs| > 0;
    }
  }

  lemma MulMonotone(x: real, y: real, q: real)
    requires x <= y && q > 0.0
    ensures x * q <= y * q
  {
  }

  lemma DivMonotone(x: real, y: real, q: real)
    requires x <= y && q > 0.0
    ensures x / q <= y / q
  {
  }

  lemma DivCancel(b: real, q: real)
    requires q > 0.0
    ensures (b * q) / q == b
  {
  }

  lemma FeeStep(a: PriceAdjustment, cur: Running, b: real, q: real)
    requires b > 0.0 && q > 0.0
    requires a.adjustmentType == Fee && a.value >= 0.0
    requires cur.unitPrice >= b && cur.lineTotal >= b * q
    ensures Step(a, cur, b, b * q, q).unitPrice >= b
    ensures Step(a, cur, b, b * q, q).lineTotal >= b * q
  {
    var amount := StepAmount(a, cur, b, b * q);
    assert b * q > 0.0;
    assert amount >= 0.0;
    if a.calculationBasis == PerUnit {
      MulMonotone(b, cur.unitPrice + amount, q);
    } else {
      DivMonotone(b * q, cur.lineTotal + amount, q);
      DivCancel(b, q);
    }
  }

  lemma {:induction false} FeePassInvariant(adjs: seq<PriceAdjustment>, b: real, q: real)
    requires b > 0.0 && q > 0.0
    requires AllFees(adjs) && NonNegativeValues(adjs)
    ensures Pass(adjs, Running(b, b * q), b, b * q, q).unitPrice >= b
    ensures Pass(adjs, Running(b, b * q), b, b * q, q).lineTotal >= b * q
  {
    if adjs != [] {
      var prefix := adjs[..|adjs| - 1];
      assert forall a :: a in prefix ==> a in adjs;
      FeePassInvariant(prefix, b, q);
      FeeStep(adjs[|adjs| - 1], Pass(prefix, Running(b, b * q), b, b * q, q), b, q);
    }
  }

  /** With a positive base and quantity, a non-empty list of fees never gives
      less than the rounded base price. */
  lemma FeesNeverLower(basePrice: real, adjs: seq<PriceAdjustment>, quantity: real)
    requires basePrice > 0.0 && quantity > 0.0 && adjs != []
    requires AllFees(adjs) && NonNegativeValues(adjs)
    ensures FinalUnitPrice(basePrice, adjs, quantity) >= RoundCents(basePrice)
  {
    var sorted := SortedAdjustments(adjs);
    FeePassInvariant(sorted, basePrice, quantity);
    PassFromUnfold(basePrice, sorted, quantity);
    RoundCentsMonotone(basePrice, ClampAtZero(PassFrom(basePrice, sorted, quantity).unitPrice));
  }

  /** Taking a percentage of at most 100 of the current value never raises it
      above a positive bound, whatever the sign of the current value. */
  lemma CumulativeDiscountBound(x: real, v: real, bound: real)
    requires 0.0 <= v <= 100.0 && x <= bound && bound > 0.0
    ensures x - x * v / 100.0 <= bound
  {
    if x >= 0.0 {
      assert x * v >= 0.0;
    } else {
      assert x - x * v / 100.0 == x * (100.0 - v) / 100.0;
      assert x * (100.0 - v) <= 0.0;
    }
  }

  lemma DiscountAmountBound(a: PriceAdjustment, current: real, original: real, amount: real)
    requires a.value >= 0.0 && original > 0.0 && current <= original
    requires a.calculationType == CumulativePercentage ==> a.value <= 100.0
    requires a.calculationType == Amount ==> amount == a.value
    requires a.calculationType == CumulativePercentage ==> amount == current * a.value / 100.0
    requires a.calculationType == CascadingPercentage ==> amount == original * a.value / 100.0
    ensures current - amount <= original
  {
    if a.calculationType == CumulativePercentage {
      CumulativeDiscountBound(current, a.value, original);
    } else if a.calculationType == CascadingPercentage {
      assert original * a.value >= 0.0;
    }
  }

  lemma DiscountStepUnit(a: PriceAdjustment, cur: Running, b: real, q: real)
    requires b > 0.0 && q > 0.0 && a.calculationBasis == PerUnit
    requires a.adjustmentType == Discount && a.value >= 0.0
    requires a.calculationType == CumulativePercentage ==> a.value <= 100.0
    requires cur.unitPrice <= b
    ensures Step(a, cur, b, b * q, q).unitPrice <= b
    ensures Step(a, cur, b, b * q, q).lineTotal <= b * q
  {
    var amount := StepAmount(a, cur, b, b * q);
    var u := cur.unitPrice - amount;
    assert u <= b by { DiscountAmountBound(a, cur.unitPrice, b, amount); }
    assert Step(a, cur, b, b * q, q) == Running(u, u * q) by {
      StepCases(a, cur, b, b * q, q);
      assert Signed(a, amount) == -amount;
    }
    MulMonotone(u, b, q);
  }

  lemma DiscountStepLine(a: PriceAdjustment, cur: Running, b: real, q: real)
    requires b > 0.0 && q > 0.0 && a.calculationBasis != PerUnit
    requires a.adjustmentType == Discount && a.value >= 0.0
    requires a.calculationType == CumulativePercentage ==> a.value <= 100.0
    requires cur.lineTotal <= b * q
    ensures Step(a, cur, b, b * q, q).unitPrice <= b
    ensures Step(a, cur, b, b * q, q).lineTotal <= b * q
  {
    var amount := StepAmount(a, cur, b, b * q);
    var l := cur.lineTotal - amount;
    assert l <= b * q by {
      assert b * q > 0.0;
      DiscountAmountBound(a, cur.lineTotal, b * q, amount);
    }
    assert Step(a, cur, b, b * q, q) == Running(l / q, l) by {
      StepCases(a, cur, b, b * q, q);
      assert Signed(a, amount) == -amount;
    }
    DividedBound(l, b, q);
  }

  lemma DividedBound(l: real, b: real, q: real)
    requires q > 0.0 && l <= b * q
    ensures l / q <= b
  {
    DivMonotone(l, b * q, q);
    DivCancel(b, q);
  }

  lemma DiscountStep(a: PriceAdjustment, cur: Running, b: real, q: real)
    requires b > 0.0 && q > 0.0
    requires a.adjustmentType == Discount && a.value >= 0.0
    requires a.calculationType == CumulativePercentage ==> a.value <= 100.0
    requires cur.unitPrice <= b && cur.lineTotal <= b * q
    ensures Step(a, cur, b, b * q, q).unitPrice <= b
    ensures Step(a, cur, b, b * q, q).lineTotal <= b * q
  {
    if a.calculationBasis == PerUnit {
      DiscountStepUnit(a, cur, b, q);
    } else {
      DiscountStepLine(a, cur, b, q);
    }
  }

  lemma {:induction false} DiscountPassInvariant(adjs: seq<PriceAdjustment>, b: real, q: real)
    requires b > 0.0 && q > 0.0
    requires AllDiscounts(adjs) && NonNegativeValues(adjs) && CumulativeAtMostHundred(adjs)
    ensures Pass(adjs, Running(b, b * q), b, b * q, q).unitPrice <= b
    ensures Pass(adjs, Running(b, b * q), b, b * q, q).lineTotal <= b * q
  {
    if adjs != [] {
      var prefix := adjs[..|adjs| - 1];
      assert forall a :: a in prefix ==> a in adjs;
      DiscountPassInvariant(prefix, b, q);
      DiscountStep(adjs[|adjs| - 1], Pass(prefix, Running(b, b * q), b, b * q, q), b, q);
    }
  }

  /** With a positive base and quantity, a non-empty list of discounts none of
      whose cumulative percentages exceeds 100 never gives more than the
      rounded base price. */
  lemma DiscountsNeverRaise(basePrice: real, adjs: seq<PriceAdjustment>, quantity: real)
    requires basePrice > 0.0 && quantity > 0.0 && adjs != []
    requires AllDiscounts(adjs) && NonNegativeValues(adjs) && CumulativeAtMostHundred(adjs)
    ensures FinalUnitPrice(basePrice, adjs, quantity) <= RoundCents(basePrice)
  {
    var sorted := SortedAdjustments(adjs);
    DiscountPassInvariant(sorted, basePrice, quantity);
    PassFromUnfold(basePrice, sorted, quantity);
    RoundCentsMonotone(ClampAtZero(PassFrom(basePrice, sorted, quantity).unitPrice), basePrice);
  }

  /** A per-unit discount, with the INCDCR / VALTYP / CLCRUL codes that
      decode to it. */
  function UnitDiscount(index: int, kind: ValueKind, value: real): PriceAdjustment {
    var valtyp := match kind
      case Amount => "1"
      case CumulativePercentage => "2"
      case CascadingPercentage => "3";
    PriceAdjustment(index, value, Discount, kind, PerUnit, "", "2", valtyp, "1")
  }

  /** A per-line amount fee, with the codes that decode to it. */
  function LineFee(index: int, value: real): PriceAdjustment {
    PriceAdjustment(index, value, Fee, Amount, PerLine, "", "1", "1", "2")
  }

  /** A zero base price returns before any division: a per-line fee with a
      zero quantity, which would divide by zero, leaves the price at 0. */
  lemma ZeroBaseSkipsDivision(fee: real)
    ensures !DivisionSafe(0.0, [LineFee(0, fee)])
    ensures FinalUnitPrice(0.0, [LineFee(0, fee)], 0.0) == 0.0
  {
  }

  /** For adjustments already in ascending column order, a pass that ends on
      whole cents is the final price. */
  lemma FinalUnitPriceOfPass(basePrice: real, adjs: seq<PriceAdjustment>, quantity: real, cents: nat)
    requires adjs != [] && basePrice != 0.0 && DivisionSafe(quantity, adjs)
    requires forall i, j :: 0 <= i < j < |adjs| ==> adjs[i].index < adjs[j].index
    requires PassFrom(basePrice, adjs, quantity).unitPrice == cents as real / 100.0
    ensures FinalUnitPrice(basePrice, adjs, quantity) == cents as real / 100.0
  {
    SortedAdjustmentsOfIncreasing(adjs);
    RoundCentsIdempotent(cents);
  }

  /** A pass over two adjustments is the two steps in order. */
  lemma PassOfTwo(adjs: seq<PriceAdjustment>, start: Running, originalUnit: real, originalLine: real, quantity: real)
    requires |adjs| == 2 && DivisionSafe(quantity, adjs)
    ensures adjs[0].calculationBasis != PerUnit ==> quantity != 0.0
    ensures adjs[1].calculationBasis != PerUnit ==> quantity != 0.0
    ensures Pass(adjs, start, originalUnit, originalLine, quantity)
         == Step(adjs[1], Step(adjs[0], start, originalUnit, originalLine, quantity), originalUnit, originalLine, quantity)
  {
    assert adjs[0] in adjs && adjs[1] in adjs;
    PassSnoc(adjs, 0, start, originalUnit, originalLine, quantity);
    PassSnoc(adjs, 1, start, originalUnit, originalLine, quantity);
    assert adjs[..0] == [];
    assert adjs[..2] == adjs;
  }

  /** Two adjustments in column order whose second step ends on whole cents
      give that final price. */
  lemma FinalOfTwoSteps(basePrice: real, adjs: seq<PriceAdjustment>, quantity: real, middle: Running, cents: nat)
    requires |adjs| == 2 && adjs[0].index < adjs[1].index && basePrice != 0.0 && DivisionSafe(quantity, adjs)
    requires adjs[0].calculationBasis != PerUnit ==> quantity != 0.0
    requires adjs[1].calculationBasis != PerUnit ==> quantity != 0.0
    requires Step(adjs[0], Running(basePrice, basePrice * quantity), basePrice, basePrice * quantity, quantity) == middle
    requires Step(adjs[1], middle, basePrice, basePrice * quantity, quantity).unitPrice == cents as real / 100.0
    ensures FinalUnitPrice(basePrice, adjs, quantity) == cents as real / 100.0
  {
    PassOfTwo(adjs, Running(basePrice, basePrice * quantity), basePrice, basePrice * quantity, quantity);
    PassFromUnfold(basePrice, adjs, quantity);
    FinalUnitPriceOfPass(basePrice, adjs, quantity, cents);
  }

  /** Without the bound on cumulative percentages the discount-only property
      fails: two 300% cumulative discounts on 100.00 take the price to -200.00
      and then back up to 400.00. */
  lemma DiscountsAboveHundredCanRaise()
    ensures FinalUnitPrice(100.0, [UnitDiscount(0, CumulativePercentage, 300.0),
                                   UnitDiscount(1, CumulativePercentage, 300.0)], 1.0) == 400.0
  {
    var adjs := [UnitDiscount(0, CumulativePercentage, 300.0), UnitDiscount(1, CumulativePercentage, 300.0)];
    StepCases(adjs[0], Running(100.0, 100.0), 100.0, 100.0, 1.0);
    StepCases(adjs[1], Running(-200.0, -200.0), 100.0, 100.0, 1.0);
    FinalOfTwoSteps(100.0, adjs, 1.0, Running(-200.0, -200.0), 40000);
  }

  /** A 10% per-unit discount and a fixed per-line fee of 50.00 on 10 units at
      100.00: the unit price goes to 90.00, the line from 900.00 to 950.00, so
      the unit price is 95.00. */
  lemma LineFeeExample()
    ensures FinalUnitPrice(100.0, [UnitDiscount(0, CumulativePercentage, 10.0), LineFee(1, 50.0)], 10.0) == 95.0
  {
    var adjs := [UnitDiscount(0, CumulativePercentage, 10.0), LineFee(1, 50.0)];
    StepCases(adjs[0], Running(100.0, 1000.0), 100.0, 1000.0, 10.0);
    StepCases(adjs[1], Running(90.0, 900.0), 100.0, 1000.0, 10.0);
    FinalOfTwoSteps(100.0, adjs, 10.0, Running(90.0, 900.0), 9500);
  }

  /** The same two adjustments supplied fee first give the same 95.00. */
  lemma DiscountThenLineFeeExample()
    ensures FinalUnitPrice(100.0, [UnitDiscount(0, CumulativePercentage, 10.0), LineFee(1, 50.0)], 10.0) == 95.0
    ensures FinalUnitPrice(100.0, [LineFee(1, 50.0), UnitDiscount(0, CumulativePercentage, 10.0)], 10.0) == 95.0
  {
    var adjs := [UnitDiscount(0, CumulativePercentage, 10.0), LineFee(1, 50.0)];
    LineFeeExample();
    var swapped := [LineFee(1, 50.0), UnitDiscount(0, CumulativePercentage, 10.0)];
    assert swapped == [adjs[1], adjs[0]];
    assert multiset(adjs) == multiset(swapped);
    FinalUnitPricePermutation(100.0, adjs, swapped, 10.0);
  }

  /** The column walk-through of the pricing module: on 100.00 for 50 units,
      column 0 is a 10% and column 1 a 5% cumulative per-unit discount, column
      2 a fixed per-line fee of 100.00. */
  function FlowAdjustments(): seq<PriceAdjustment> {
    [UnitDiscount(0, CumulativePercentage, 10.0), UnitDiscount(1, CumulativePercentage, 5.0), LineFee(2, 100.0)]
  }

  /** The pass goes 90.00, then 85.50 per unit (line 4275.00), then the fee
      takes the line to 4375.00 and the unit price to 87.50. */
  lemma FlowPass()
    ensures PassFrom(100.0, FlowAdjustments(), 50.0) == Running(87.5, 4375.0)
  {
    var adjs := FlowAdjustments();
    var start := Running(100.0, 5000.0);
    PassSnoc(adjs, 0, start, 100.0, 5000.0, 50.0);
    PassSnoc(adjs, 1, start, 100.0, 5000.0, 50.0);
    PassSnoc(adjs, 2, start, 100.0, 5000.0, 50.0);
    assert adjs[..0] == [];
    FlowSteps();
    assert adjs[..3] == adjs;
    PassFromUnfold(100.0, adjs, 50.0);
  }

  /** The three steps of the walk-through, one at a time. */
  lemma FlowSteps()
    ensures Step(FlowAdjustments()[0], Running(100.0, 5000.0), 100.0, 5000.0, 50.0) == Running(90.0, 4500.0)
    ensures Step(FlowAdjustments()[1], Running(90.0, 4500.0), 100.0, 5000.0, 50.0) == Running(85.5, 4275.0)
    ensures Step(FlowAdjustments()[2], Running(85.5, 4275.0), 100.0, 5000.0, 50.0) == Running(87.5, 4375.0)
  {
    var adjs := FlowAdjustments();
    StepCases(adjs[0], Running(100.0, 5000.0), 100.0, 5000.0, 50.0);
    StepCases(adjs[1], Running(90.0, 4500.0), 100.0, 5000.0, 50.0);
    StepCases(adjs[2], Running(85.5, 4275.0), 100.0, 5000.0, 50.0);
  }

  /** The walk-through's final unit price is 87.50. */
  lemma StructureFlowExample()
    ensures FinalUnitPrice(100.0, FlowAdjustments(), 50.0) == 87.5
  {
    var adjs := FlowAdjustments();
    assert forall i, j :: 0 <= i < j < |adjs| ==> adjs[i].index < adjs[j].index;
    FlowPass();
    FinalUnitPriceOfPass(100.0, adjs, 50.0, 8750);
  }

  /** On 100.00, a 10% then a 5% cumulative discount give 85.50: the second
      is taken of 90.00. */
  lemma CumulativeExample()
    ensures FinalUnitPrice(100.0, [UnitDiscount(0, CumulativePercentage, 10.0),
                                   UnitDiscount(1, CumulativePercentage, 5.0)], 1.0) == 85.5
  {
    var adjs := [UnitDiscount(0, CumulativePercentage, 10.0), UnitDiscount(1, CumulativePercentage, 5.0)];
    StepCases(adjs[0], Running(100.0, 100.0), 100.0, 100.0, 1.0);
    StepCases(adjs[1], Running(90.0, 90.0), 100.0, 100.0, 1.0);
    FinalOfTwoSteps(100.0, adjs, 1.0, Running(90.0, 90.0), 8550);
  }

  /** The same two as cascading discounts give 85.00: both are taken of the
      original 100.00. */
  lemma CascadingExample()
    ensures FinalUnitPrice(100.0, [UnitDiscount(0, CascadingPercentage, 10.0),
                                   UnitDiscount(1, CascadingPercentage, 5.0)], 1.0) == 85.0
  {
    var adjs := [UnitDiscount(0, CascadingPercentage, 10.0), UnitDiscount(1, CascadingPercentage, 5.0)];
    StepCases(adjs[0], Running(100.0, 100.0), 100.0, 100.0, 1.0);
    StepCases(adjs[1], Running(90.0, 90.0), 100.0, 100.0, 1.0);
    FinalOfTwoSteps(100.0, adjs, 1.0, Running(90.0, 90.0), 8500);
  }

  /** The sum of the signed percentages of a list: fees count positive,
      discounts negative. */
  function SignedPercentSum(adjs: seq<PriceAdjustment>): real {
    if adjs == [] then 0.0
    else SignedPercentSum(adjs[..|adjs| - 1]) + Signed(adjs[|adjs| - 1], adjs[|adjs| - 1].value)
  }

  predicate CascadingPerUnit(adjs: seq<PriceAdjustment>) {
    forall a :: a in adjs ==> a.calculationBasis == PerUnit && a.calculationType == CascadingPercentage
  }

  /** Cascading percentages are all taken of the original unit price, so a run
      of them adds up: the unit price moves by the sum of their signed
      percentages of the base, whatever the running line total. */
  lemma CascadingUnitClosedForm(adjs: seq<PriceAdjustment>, b: real, l: real, ol: real, q: real)
    requires CascadingPerUnit(adjs)
    ensures DivisionSafe(q, adjs)
    ensures Pass(adjs, Running(b, l), b, ol, q).unitPrice == b + b * SignedPercentSum(adjs) / 100.0
  {
    CascadingUnitShift(adjs, b, l, ol, q);
    CascadingShiftIsPercent(adjs, b);
  }

  /** The signed amounts of a list of cascading percentages of `b`, summed. */
  function CascadingShift(adjs: seq<PriceAdjustment>, b: real): real {
    if adjs == [] then 0.0
    else CascadingShift(adjs[..|adjs| - 1], b) + Signed(adjs[|adjs| - 1], b * adjs[|adjs| - 1].value / 100.0)
  }

  lemma {:induction false} CascadingUnitShift(adjs: seq<PriceAdjustment>, b: real, l: real, ol: real, q: real)
    requires CascadingPerUnit(adjs)
    ensures DivisionSafe(q, adjs)
    ensures Pass(adjs, Running(b, l), b, ol, q).unitPrice == b + CascadingShift(adjs, b)
  {
    if adjs != [] {
      var n := |adjs| - 1;
      var prefix := adjs[..n];
      var a := adjs[n];
      CascadingParts(adjs);
      CascadingUnitShift(prefix, b, l, ol, q);
      var cur := Pass(prefix, Running(b, l), b, ol, q);
      PassSnoc(adjs, n, Running(b, l), b, ol, q);
      assert adjs[..n + 1] == adjs;
      CascadingStep(a, cur, b, ol, q);
    }
  }

  lemma {:induction false} CascadingShiftIsPercent(adjs: seq<PriceAdjustment>, b: real)
    ensures CascadingShift(adjs, b) == b * SignedPercentSum(adjs) / 100.0
  {
    if adjs != [] {
      var n := |adjs| - 1;
      var a := adjs[n];
      CascadingShiftIsPercent(adjs[..n], b);
      PercentsAdd(b, SignedPercentSum(adjs[..n]), a.value, Signed(a, a.value), Signed(a, b * a.value / 100.0));
    }
  }

  /** The prefix of a run of per-unit cascading adjustments is one, and so is
      its last element. */
  lemma CascadingParts(adjs: seq<PriceAdjustment>)
    requires CascadingPerUnit(adjs) && adjs != []
    ensures CascadingPerUnit(adjs[..|adjs| - 1])
    ensures adjs[|adjs| - 1].calculationBasis == PerUnit
    ensures adjs[|adjs| - 1].calculationType == CascadingPercentage
  {
    assert adjs[|adjs| - 1] in adjs;
    assert forall x :: x in adjs[..|adjs| - 1] ==> x in adjs;
  }

  /** A per-unit cascading step moves the unit price by its signed percentage
      of the original unit price. */
  lemma CascadingStep(a: PriceAdjustment, cur: Running, b: real, ol: real, q: real)
    requires a.calculationBasis == PerUnit && a.calculationType == CascadingPercentage
    ensures Step(a, cur, b, ol, q).unitPrice == cur.unitPrice + Signed(a, b * a.value / 100.0)
  {
    StepCases(a, cur, b, ol, q);
  }

  /** Percentages of one base add up, fee or discount. */
  lemma PercentsAdd(b: real, p: real, v: real, sv: real, sa: real)
    requires sv == v || sv == -v
    requires sv == v ==> sa == b * v / 100.0
    requires sv == -v ==> sa == -(b * v / 100.0)
    ensures b * p / 100.0 + sa == b * (p + sv) / 100.0
  {
  }
}
