/**
 * What the free-goods calculator promises: at most one award, always of a
 * positive quantity in the ordered unit; no award when the mechanism is off,
 * the free quantity is not positive or the threshold is not reached; awards
 * that never shrink as the ordered quantity grows; and the worked examples
 * of the engine's own scenarios.
 */
module FreeGoodsLaws {
  import opened PricingModel
  import opened Rounding
  import opened FreeGoods

  /** The item an award goes to under each mechanism. */
  function AwardedItem(ctx: PricingContext, line: PricingLine, focpro: string): string {
    var itemRef := Strip(line.focitmref);
    if focpro == "1" then ctx.itemCode
    else if itemRef != "" then itemRef
    else ctx.itemCode
  }

  /** The label an award carries under each mechanism. */
  function AwardedType(focpro: string): FreeType {
    if focpro == "1" then NPourM else if focpro == "2" then AutreArticle else TotalCommande
  }

  /** The quantity rule each mechanism uses. */
  function MechanismQuantity(ctx: PricingContext, line: PricingLine, focpro: string, foctyp: string): real {
    var lineAmount := LineAmount(ctx, line);
    if focpro == "1" || Strip(line.focitmref) == "" then NForMQuantity(ctx, line, foctyp, lineAmount)
    else OtherItemQuantity(ctx, line, foctyp, lineAmount)
  }

  /** The complete description of `calculate_free_items`: no award when the
      mechanism is off or unknown, the free quantity per trigger is not
      positive, or Autre Article names no item; otherwise exactly one award
      when the mechanism's free quantity is positive, and none when it is
      not. */
  lemma CalculateFreeItemsSpec(ctx: PricingContext, line: PricingLine, focpro: string, foctyp: string)
    ensures var r := CalculateFreeItems(ctx, line, focpro, foctyp);
            var active := focpro in {"1", "2", "3"} && line.focqty > 0.0
                          && (focpro == "2" ==> Strip(line.focitmref) != "");
            var q := MechanismQuantity(ctx, line, focpro, foctyp);
            (!active || q <= 0.0 ==> r == [])
            && (active && q > 0.0 ==>
                  r == [FreeItemAward(AwardedItem(ctx, line, focpro), q, ctx.unitOfMeasure, AwardedType(focpro))])
  {
  }

  /** Neither threshold configured: no award. */
  lemma NoThresholdNoAward(ctx: PricingContext, line: PricingLine, focpro: string, foctyp: string)
    requires line.focqtymin <= 0.0 && line.focamtmin <= 0.0
    ensures CalculateFreeItems(ctx, line, focpro, foctyp) == []
  {
    CalculateFreeItemsSpec(ctx, line, focpro, foctyp);
  }

  /** A quantity threshold not reached: no award, whatever the amount. */
  lemma BelowQuantityThresholdNoAward(ctx: PricingContext, line: PricingLine, focpro: string, foctyp: string)
    requires line.focqtymin > 0.0 && ctx.quantity < line.focqtymin
    ensures CalculateFreeItems(ctx, line, focpro, foctyp) == []
  {
    CalculateFreeItemsSpec(ctx, line, focpro, foctyp);
  }

  /** Without a quantity threshold, an amount threshold not reached by
      quantity times PRI_0: no award. */
  lemma BelowAmountThresholdNoAward(ctx: PricingContext, line: PricingLine, focpro: string, foctyp: string)
    requires line.focqtymin <= 0.0 && line.focamtmin > 0.0
    requires ctx.quantity * line.pri < line.focamtmin
    ensures CalculateFreeItems(ctx, line, focpro, foctyp) == []
  {
    var lineAmount := LineAmount(ctx, line);
    assert NForMQuantity(ctx, line, foctyp, lineAmount) == 0.0;
    assert OtherItemQuantity(ctx, line, foctyp, lineAmount) == 0.0;
  }

  /** Seuil: a reached quantity threshold awards the free quantity once, to
      the ordered item under N pour M. */
  lemma SeuilAwardsOnce(ctx: PricingContext, line: PricingLine)
    requires line.focqty > 0.0 && line.focqtymin > 0.0 && ctx.quantity >= line.focqtymin
    ensures CalculateFreeItems(ctx, line, "1", "1")
         == [FreeItemAward(ctx.itemCode, line.focqty, ctx.unitOfMeasure, NPourM)]
  {
  }

  /** Multiple under N pour M: one free quantity per bucket of the excess over
      the quantity threshold, the bucket count rounded half up (Scaled is
      the product, by ScaledIsProduct). */
  lemma MultipleCountsExcessBuckets(ctx: PricingContext, line: PricingLine)
    requires line.focqty > 0.0 && line.focqtymin > 0.0 && line.focqtybkt > 0.0
    requires ctx.quantity >= line.focqtymin
    requires RoundHalfUp((ctx.quantity - line.focqtymin) / line.focqtybkt) > 0
    ensures CalculateFreeItems(ctx, line, "1", "2")
         == [FreeItemAward(ctx.itemCode,
                           Scaled(RoundHalfUp((ctx.quantity - line.focqtymin) / line.focqtybkt), line.focqty),
                           ctx.unitOfMeasure, NPourM)]
  {
    var buckets := RoundHalfUp((ctx.quantity - line.focqtymin) / line.focqtybkt);
    var lineAmount := LineAmount(ctx, line);
    var qty := NForMQuantity(ctx, line, "2", lineAmount);
    assert qty == Scaled(buckets, line.focqty);
    assert qty >= line.focqty by {
      ScaledMonotone(1, buckets, line.focqty);
      assert Scaled(1, line.focqty) == line.focqty by {
        assert Scaled(0, line.focqty) == 0.0;
      }
    }
    assert NForMAwards(ctx, line, "2", lineAmount)
        == [FreeItemAward(ctx.itemCode, qty, ctx.unitOfMeasure, NPourM)];
    assert CalculateFreeItems(ctx, line, "1", "2") == NForMAwards(ctx, line, "2", lineAmount);
  }

  /** Scaled is multiplication. */
  lemma {:induction false} ScaledIsProduct(n: int, q: real)
    ensures Scaled(n, q) == n as real * q
    decreases if n < 0 then -n else n, 1
  {
    if n < 0 {
      ScaledDown(n, q);
    } else if n > 0 {
      ScaledUp(n, q);
    }
  }

  /** One step up from a negative count. */
  lemma {:induction false} ScaledDown(n: int, q: real)
    requires n < 0
    ensures Scaled(n, q) == n as real * q
    decreases -n, 0
  {
    var x, y := n as real, (n + 1) as real;
    assert Scaled(n, q) == Scaled(n + 1, q) - q;
    assert Scaled(n + 1, q) == y * q by { ScaledIsProduct(n + 1, q); }
    SuccessorTimes(x, y, q);
  }

  /** One step down from a positive count. */
  lemma {:induction false} ScaledUp(n: int, q: real)
    requires n > 0
    ensures Scaled(n, q) == n as real * q
    decreases n, 0
  {
    var x, y := (n - 1) as real, n as real;
    assert Scaled(n, q) == Scaled(n - 1, q) + q;
    assert Scaled(n - 1, q) == x * q by { ScaledIsProduct(n - 1, q); }
    SuccessorTimes(x, y, q);
  }

  lemma SuccessorTimes(x: real, y: real, q: real)
    requires y == x + 1.0
    ensures y * q == x * q + q
  {
  }

  /** A larger count of a non-negative quantity never scales to less. */
  lemma {:induction false} ScaledMonotone(m: int, n: int, q: real)
    requires m <= n && q >= 0.0
    ensures Scaled(m, q) <= Scaled(n, q)
    decreases n - m
  {
    if m < n {
      ScaledMonotone(m, n - 1, q);
      if n - 1 < 0 {
        assert Scaled(n - 1, q) == Scaled(n, q) - q;
      } else {
        assert Scaled(n, q) == Scaled(n - 1, q) + q;
      }
    }
  }

  lemma BucketsMonotone(x: real, y: real, bucketSize: real, focqty: real)
    requires x <= y && bucketSize > 0.0 && focqty >= 0.0
    ensures Scaled(RoundHalfUp(x / bucketSize), focqty) <= Scaled(RoundHalfUp(y / bucketSize), focqty)
  {
    DivideMonotone(x, y, bucketSize);
    RoundHalfUpMonotone(x / bucketSize, y / bucketSize);
    ScaledMonotone(RoundHalfUp(x / bucketSize), RoundHalfUp(y / bucketSize), focqty);
  }

  lemma DivideMonotone(x: real, y: real, d: real)
    requires x <= y && d > 0.0
    ensures x / d <= y / d
  {
  }

  lemma ScaleMonotone(a: real, b: real, c: real)
    requires a <= b && c >= 0.0
    ensures a * c <= b * c
  {
  }

  /** Bucket awards of a non-negative measure are non-negative. */
  lemma BucketsNonNegative(x: real, bucketSize: real, focqty: real)
    requires x >= 0.0 && bucketSize > 0.0 && focqty >= 0.0
    ensures Scaled(RoundHalfUp(x / bucketSize), focqty) >= 0.0
  {
    ScaledMonotone(0, RoundHalfUp(x / bucketSize), focqty);
  }

  lemma ThresholdAwardMonotone(foctyp: string, m1: real, m2: real, threshold: real, bucketSize: real,
                               b1: real, b2: real, focqty: real)
    requires m1 <= m2 && b1 <= b2 && focqty >= 0.0 && threshold > 0.0
    requires m1 >= threshold ==> b1 >= 0.0
    requires m2 >= threshold ==> b2 >= 0.0
    ensures ThresholdAward(foctyp, m1, threshold, bucketSize, b1, focqty)
         <= ThresholdAward(foctyp, m2, threshold, bucketSize, b2, focqty)
  {
    if m1 < threshold {
      assert ThresholdAward(foctyp, m1, threshold, bucketSize, b1, focqty) == 0.0;
      ThresholdAwardNonNegative(foctyp, m2, threshold, bucketSize, b2, focqty);
    } else {
      ReachedAwardMonotone(foctyp, m1, m2, threshold, bucketSize, b1, b2, focqty);
    }
  }

  lemma ThresholdAwardNonNegative(foctyp: string, m: real, threshold: real, bucketSize: real, b: real, focqty: real)
    requires focqty >= 0.0
    requires m >= threshold ==> b >= 0.0
    ensures ThresholdAward(foctyp, m, threshold, bucketSize, b, focqty) >= 0.0
  {
    if m >= threshold && foctyp == "2" && bucketSize > 0.0 {
      BucketsNonNegative(b, bucketSize, focqty);
    }
  }

  lemma ReachedAwardMonotone(foctyp: string, m1: real, m2: real, threshold: real, bucketSize: real,
                             b1: real, b2: real, focqty: real)
    requires m1 >= threshold && m2 >= threshold && b1 <= b2 && focqty >= 0.0
    ensures ThresholdAward(foctyp, m1, threshold, bucketSize, b1, focqty)
         <= ThresholdAward(foctyp, m2, threshold, bucketSize, b2, focqty)
  {
    if foctyp == "2" && bucketSize > 0.0 {
      BucketAwardMonotone(m1, m2, threshold, bucketSize, b1, b2, focqty);
    }
  }

  lemma BucketAwardMonotone(m1: real, m2: real, threshold: real, bucketSize: real,
                            b1: real, b2: real, focqty: real)
    requires m1 >= threshold && m2 >= threshold && b1 <= b2 && focqty >= 0.0 && bucketSize > 0.0
    ensures ThresholdAward("2", m1, threshold, bucketSize, b1, focqty)
         <= ThresholdAward("2", m2, threshold, bucketSize, b2, focqty)
  {
    BucketsMonotone(b1, b2, bucketSize, focqty);
  }

  /** Under a quantity threshold, ordering more never earns fewer free units,
      under either mechanism's quantity rule. */
  lemma MoreQuantityNeverFewerFree(ctx: PricingContext, line: PricingLine, foctyp: string, more: real)
    requires line.focqtymin > 0.0 && line.focqty >= 0.0 && ctx.quantity <= more
    ensures NForMQuantity(ctx, line, foctyp, LineAmount(ctx, line))
         <= NForMQuantity(ctx.(quantity := more), line, foctyp, LineAmount(ctx.(quantity := more), line))
    ensures OtherItemQuantity(ctx, line, foctyp, LineAmount(ctx, line))
         <= OtherItemQuantity(ctx.(quantity := more), line, foctyp, LineAmount(ctx.(quantity := more), line))
  {
    var q, t := ctx.quantity, line.focqtymin;
    var bigger := ctx.(quantity := more);
    assert NForMQuantity(ctx, line, foctyp, LineAmount(ctx, line))
        == ThresholdAward(foctyp, q, t, line.focqtybkt, q - t, line.focqty);
    assert NForMQuantity(bigger, line, foctyp, LineAmount(bigger, line))
        == ThresholdAward(foctyp, more, t, line.focqtybkt, more - t, line.focqty);
    ThresholdAwardMonotone(foctyp, q, more, t, line.focqtybkt, q - t, more - t, line.focqty);
    assert OtherItemQuantity(ctx, line, foctyp, LineAmount(ctx, line))
        == ThresholdAward(foctyp, q, t, line.focqtybkt, q, line.focqty);
    assert OtherItemQuantity(bigger, line, foctyp, LineAmount(bigger, line))
        == ThresholdAward(foctyp, more, t, line.focqtybkt, more, line.focqty);
    ThresholdAwardMonotone(foctyp, q, more, t, line.focqtybkt, q, more, line.focqty);
  }

  /** Autre Article counts buckets of the whole quantity where N pour M counts
      buckets of the excess, so with the same parameters it never awards
      less. */
  lemma OtherItemNeverBelowNForM(ctx: PricingContext, line: PricingLine, foctyp: string)
    requires line.focqtymin > 0.0 && line.focqty >= 0.0
    ensures NForMQuantity(ctx, line, foctyp, LineAmount(ctx, line))
         <= OtherItemQuantity(ctx, line, foctyp, LineAmount(ctx, line))
  {
    var q, t := ctx.quantity, line.focqtymin;
    assert NForMQuantity(ctx, line, foctyp, LineAmount(ctx, line))
        == ThresholdAward(foctyp, q, t, line.focqtybkt, q - t, line.focqty);
    assert OtherItemQuantity(ctx, line, foctyp, LineAmount(ctx, line))
        == ThresholdAward(foctyp, q, t, line.focqtybkt, q, line.focqty);
    ThresholdAwardMonotone(foctyp, q, q, t, line.focqtybkt, q - t, q, line.focqty);
  }

  function ExampleContext(quantity: real): PricingContext {
    PricingContext("C001", "ITEM01", quantity, "EUR", "UN", "", "", 0, "", "")
  }

  function ExampleLine(threshold: real, bucketSize: real, focqty: real): PricingLine {
    PricingLine("T1", 1, "", 0, 0, 0.0, 0.0, "EUR", "UN", ["", "", "", "", ""],
                [0.0, 0.0, 0.0, 0.0, 0.0, 0.0, 0.0, 0.0, 0.0], 100.0, 0.0,
                threshold, 0.0, bucketSize, 0.0, " GIFT01 ", focqty)
  }

  /** "From 10 bought, 2 free": threshold 10, two free per trigger, Seuil, 20
      ordered: one award of two units of the ordered item. */
  lemma SeuilExample()
    ensures CalculateFreeItems(ExampleContext(20.0), ExampleLine(10.0, 0.0, 2.0), "1", "1")
         == [FreeItemAward("ITEM01", 2.0, "UN", NPourM)]
  {
  }

  /** "Beyond 5 units, 1 free per bucket of 3": 20 ordered leave an excess of
      15, which makes 5 buckets under N pour M. */
  lemma MultipleExample()
    ensures CalculateFreeItems(ExampleContext(20.0), ExampleLine(5.0, 3.0, 1.0), "1", "2")
         == [FreeItemAward("ITEM01", 5.0, "UN", NPourM)]
  {
    var ctx := ExampleContext(20.0);
    var line := ExampleLine(5.0, 3.0, 1.0);
    assert (20.0 - 5.0) / 3.0 == 5.0;
    assert RoundHalfUp(5.0) == 5;
    ScaledIsProduct(5, 1.0);
    assert NForMQuantity(ctx, line, "2", LineAmount(ctx, line)) == 5.0;
  }

  /** The same parameters under Autre Article count the whole 20 in buckets of
      3, 20/3 rounded half up to 7, of the stripped reference item. */
  lemma OtherItemExample()
    ensures CalculateFreeItems(ExampleContext(20.0), ExampleLine(5.0, 3.0, 1.0), "2", "2")
         == [FreeItemAward("GIFT01", 7.0, "UN", AutreArticle)]
  {
    StripExample();
    OtherItemExampleQuantity();
  }

  lemma OtherItemExampleQuantity()
    ensures var ctx := ExampleContext(20.0);
            var line := ExampleLine(5.0, 3.0, 1.0);
            OtherItemQuantity(ctx, line, "2", LineAmount(ctx, line)) == 7.0
  {
    assert RoundHalfUp(20.0 / 3.0) == 7;
    ScaledIsProduct(7, 1.0);
  }

  lemma StripExample()
    ensures Strip(" GIFT01 ") == "GIFT01"
  {
    TrimLeftSkips(" GIFT01 ");
    assert " GIFT01 "[1..] == "GIFT01 ";
    TrimLeftStops("GIFT01 ");
    TrimRightSkips("GIFT01 ");
    assert "GIFT01 "[..6] == "GIFT01";
    TrimRightStops("GIFT01");
  }

  /** A reference made of a unit separator and a no-break space is blank, so
      Autre Article with it awards nothing. */
  lemma SeparatorReferenceIsBlank()
    ensures Strip("\U{1F}\U{A0}") == ""
  {
    StripEmptyIffBlank("\U{1F}\U{A0}");
  }

  lemma TrimLeftSkips(s: string)
    requires s != [] && IsSpace(s[0])
    ensures TrimLeft(s) == TrimLeft(s[1..])
  {
  }

  lemma TrimLeftStops(s: string)
    requires s != [] && !IsSpace(s[0])
    ensures TrimLeft(s) == s
  {
  }

  lemma TrimRightSkips(s: string)
    requires s != [] && IsSpace(s[|s| - 1])
    ensures TrimRight(s) == TrimRight(s[..|s| - 1])
  {
  }

  lemma TrimRightStops(s: string)
    requires s != [] && !IsSpace(s[|s| - 1])
    ensures TrimRight(s) == s
  {
  }
}
