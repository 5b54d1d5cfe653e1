/**
 * The free-goods calculator of src/pricing/service.py: the mechanism FOCPRO
 * (none, N pour M, Autre Article, Total Commande) and the attribution FOCTYP
 * (1 = Seuil, a one-time award at the threshold; 2 = Multiple, an award per
 * bucket), evaluated against a quantity threshold or, failing that, an
 * amount threshold.
 */
module FreeGoods {
  import opened PricingModel
  import opened Rounding

  /** Python's str.isspace: the characters Unicode classes as space
      separators or as bidirectional white space, segment or paragraph
      separators, among them the ASCII file, group, record and unit
      separators U+001C to U+001F. */
  predicate IsSpace(c: char) {
    || '\U{9}' <= c <= '\U{D}' || '\U{1C}' <= c <= '\U{20}'
    || c == '\U{85}' || c == '\U{A0}' || c == '\U{1680}'
    || '\U{2000}' <= c <= '\U{200A}' || c == '\U{2028}' || c == '\U{2029}'
    || c == '\U{202F}' || c == '\U{205F}' || c == '\U{3000}'
  }

  function TrimLeft(s: string): (r: string)
    ensures |r| <= |s| && r == s[|s| - |r|..]
    ensures r == [] || !IsSpace(r[0])
    ensures forall k :: 0 <= k < |s| - |r| ==> IsSpace(s[k])
  {
    if s != [] && IsSpace(s[0]) then TrimLeft(s[1..]) else s
  }

  function TrimRight(s: string): (r: string)
    ensures |r| <= |s| && r == s[..|r|]
    ensures r == [] || !IsSpace(r[|r| - 1])
    ensures forall k :: |r| <= k < |s| ==> IsSpace(s[k])
  {
    if s != [] && IsSpace(s[|s| - 1]) then TrimRight(s[..|s| - 1]) else s
  }

  /** `str.strip()`: the string without its leading and trailing white space. */
  function Strip(s: string): (r: string)
    ensures r == [] || (!IsSpace(r[0]) && !IsSpace(r[|r| - 1]))
  {
    var l := TrimLeft(s);
    var r := TrimRight(l);
    assert r == [] || r[0] == l[0];
    r
  }

  /** Stripping leaves nothing exactly when the string is all white space. */
  lemma StripEmptyIffBlank(s: string)
    ensures Strip(s) == [] <==> forall k :: 0 <= k < |s| ==> IsSpace(s[k])
  {
    var l := TrimLeft(s);
    var r := TrimRight(l);
    assert Strip(s) == r;
    if forall k :: 0 <= k < |s| ==> IsSpace(s[k]) {
      TrimLeftOfBlank(s);
    }
    if r == [] {
      assert l == [];
    }
  }

  lemma {:induction false} TrimLeftOfBlank(s: string)
    requires forall k :: 0 <= k < |s| ==> IsSpace(s[k])
    ensures TrimLeft(s) == []
  {
    if s != [] {
      assert IsSpace(s[0]);
      TrimLeftOfBlank(s[1..]);
    }
  }

  /** `n` times `q`, by repeated addition: the bucketed awards multiply a
      whole bucket count by the free quantity, and keeping that product out
      of the arithmetic keeps the proofs about awards linear.
      FreeGoodsLaws.ScaledIsProduct shows it is the product. */
  function Scaled(n: int, q: real): (r: real)
    ensures n == 0 ==> r == 0.0
    ensures n >= 0 && q >= 0.0 ==> r >= 0.0
    ensures n <= 0 && q >= 0.0 ==> r <= 0.0
    decreases if n < 0 then -n else n
  {
    if n == 0 then 0.0
    else if n < 0 then Scaled(n + 1, q) - q
    else Scaled(n - 1, q) + q
  }

  /** The free quantity earned against one threshold: nothing below it; at
      or above it, `focqty` once under Seuil, or `focqty` per bucket of
      `bucketed` (half-up rounded) under Multiple with a positive bucket size;
      nothing for any other attribution or a zero bucket size. */
  function ThresholdAward(foctyp: string, measure: real, threshold: real, bucketSize: real,
                          bucketed: real, focqty: real): (r: real)
    ensures measure < threshold ==> r == 0.0
    ensures measure >= threshold && foctyp == "1" ==> r == focqty
    ensures measure >= threshold && foctyp == "2" && bucketSize > 0.0
            ==> r == Scaled(RoundHalfUp(bucketed / bucketSize), focqty)
    ensures foctyp != "1" && (foctyp != "2" || bucketSize <= 0.0) ==> r == 0.0
  {
    if measure >= threshold then
      if foctyp == "1" then focqty
      else if foctyp == "2" && bucketSize > 0.0 then Scaled(RoundHalfUp(bucketed / bucketSize), focqty)
      else 0.0
    else 0.0
  }

  /** The free quantity of `calculate_n_for_m_free_items`: buckets count the
      excess over the threshold. A quantity threshold, when positive, takes
      precedence over an amount threshold. */
  function NForMQuantity(ctx: PricingContext, line: PricingLine, foctyp: string, lineAmount: real): (r: real)
    ensures line.focqtymin <= 0.0 && line.focamtmin <= 0.0 ==> r == 0.0
    ensures foctyp != "1" && foctyp != "2" ==> r == 0.0
    ensures line.focqtymin > 0.0 && ctx.quantity < line.focqtymin ==> r == 0.0
    ensures line.focqtymin > 0.0 && ctx.quantity >= line.focqtymin && foctyp == "1" ==> r == line.focqty
    ensures line.focqtymin > 0.0 && ctx.quantity >= line.focqtymin && foctyp == "2"
            ==> r == (if line.focqtybkt > 0.0 then Scaled(RoundHalfUp((ctx.quantity - line.focqtymin) / line.focqtybkt), line.focqty) else 0.0)
    ensures line.focqtymin <= 0.0 && line.focamtmin > 0.0 && lineAmount < line.focamtmin ==> r == 0.0
    ensures line.focqtymin <= 0.0 && line.focamtmin > 0.0 && lineAmount >= line.focamtmin && foctyp == "1"
            ==> r == line.focqty
    ensures line.focqtymin <= 0.0 && line.focamtmin > 0.0 && lineAmount >= line.focamtmin && foctyp == "2"
            ==> r == (if line.focamtbkt > 0.0 then Scaled(RoundHalfUp((lineAmount - line.focamtmin) / line.focamtbkt), line.focqty) else 0.0)
  {
    if line.focqtymin > 0.0 then
      ThresholdAward(foctyp, ctx.quantity, line.focqtymin, line.focqtybkt, ctx.quantity - line.focqtymin, line.focqty)
    else if line.focamtmin > 0.0 then
      ThresholdAward(foctyp, lineAmount, line.focamtmin, line.focamtbkt, lineAmount - line.focamtmin, line.focqty)
    else 0.0
  }

  /** The free quantity of `calculate_other_item_free_items`: buckets count
      the whole quantity or amount, not the excess over the threshold. */
  function OtherItemQuantity(ctx: PricingContext, line: PricingLine, foctyp: string, lineAmount: real): (r: real)
    ensures line.focqtymin <= 0.0 && line.focamtmin <= 0.0 ==> r == 0.0
    ensures foctyp != "1" && foctyp != "2" ==> r == 0.0
    ensures line.focqtymin > 0.0 && ctx.quantity < line.focqtymin ==> r == 0.0
    ensures line.focqtymin > 0.0 && ctx.quantity >= line.focqtymin && foctyp == "1" ==> r == line.focqty
    ensures line.focqtymin > 0.0 && ctx.quantity >= line.focqtymin && foctyp == "2"
            ==> r == (if line.focqtybkt > 0.0 then Scaled(RoundHalfUp(ctx.quantity / line.focqtybkt), line.focqty) else 0.0)
    ensures line.focqtymin <= 0.0 && line.focamtmin > 0.0 && lineAmount < line.focamtmin ==> r == 0.0
    ensures line.focqtymin <= 0.0 && line.focamtmin > 0.0 && lineAmount >= line.focamtmin && foctyp == "1"
            ==> r == line.focqty
    ensures line.focqtymin <= 0.0 && line.focamtmin > 0.0 && lineAmount >= line.focamtmin && foctyp == "2"
            ==> r == (if line.focamtbkt > 0.0 then Scaled(RoundHalfUp(lineAmount / line.focamtbkt), line.focqty) else 0.0)
  {
    if line.focqtymin > 0.0 then
      ThresholdAward(foctyp, ctx.quantity, line.focqtymin, line.focqtybkt, ctx.quantity, line.focqty)
    else if line.focamtmin > 0.0 then
      ThresholdAward(foctyp, lineAmount, line.focamtmin, line.focamtbkt, lineAmount, line.focqty)
    else 0.0
  }

  /** At most one award, and only for a positive free quantity. */
  function AwardIfPositive(itemCode: string, quantity: real, unitOfMeasure: string, freeType: FreeType): (r: seq<FreeItemAward>)
    ensures quantity > 0.0 ==> r == [FreeItemAward(itemCode, quantity, unitOfMeasure, freeType)]
    ensures quantity <= 0.0 ==> r == []
  {
    if quantity > 0.0 then [FreeItemAward(itemCode, quantity, unitOfMeasure, freeType)] else []
  }

  /** `calculate_n_for_m_free_items`: the ordered item itself is awarded. */
  function NForMAwards(ctx: PricingContext, line: PricingLine, foctyp: string, lineAmount: real): (r: seq<FreeItemAward>)
    ensures |r| <= 1 && (r == [] <==> NForMQuantity(ctx, line, foctyp, lineAmount) <= 0.0)
    ensures forall a :: a in r ==> && a.itemCode == ctx.itemCode && a.quantity > 0.0
                                   && a.unitOfMeasure == ctx.unitOfMeasure && a.freeType == NPourM
  {
    AwardIfPositive(ctx.itemCode, NForMQuantity(ctx, line, foctyp, lineAmount), ctx.unitOfMeasure, NPourM)
  }

  /** `calculate_other_item_free_items`: the item FOCITMREF is awarded. */
  function OtherItemAwards(ctx: PricingContext, line: PricingLine, foctyp: string, itemRef: string, lineAmount: real): (r: seq<FreeItemAward>)
    ensures |r| <= 1 && (r == [] <==> OtherItemQuantity(ctx, line, foctyp, lineAmount) <= 0.0)
    ensures forall a :: a in r ==> && a.itemCode == itemRef && a.quantity > 0.0
                                   && a.unitOfMeasure == ctx.unitOfMeasure && a.freeType == AutreArticle
  {
    AwardIfPositive(itemRef, OtherItemQuantity(ctx, line, foctyp, lineAmount), ctx.unitOfMeasure, AutreArticle)
  }

  function Relabel(awards: seq<FreeItemAward>, freeType: FreeType): (r: seq<FreeItemAward>)
    ensures |r| == |awards|
    ensures forall k :: 0 <= k < |r| ==> r[k] == awards[k].(freeType := freeType)
  {
    if awards == [] then [] else [awards[0].(freeType := freeType)] + Relabel(awards[1..], freeType)
  }

  /** `calculate_order_total_free_items`: the current line stands for the
      order; the Autre Article rule when a free item is named, else the
      N pour M rule, relabelled Total Commande. */
  function OrderTotalAwards(ctx: PricingContext, line: PricingLine, foctyp: string, itemRef: string, lineAmount: real): (r: seq<FreeItemAward>)
    ensures |r| <= 1
    ensures forall a :: a in r ==> && a.itemCode == (if itemRef != "" then itemRef else ctx.itemCode)
                                   && a.quantity > 0.0 && a.unitOfMeasure == ctx.unitOfMeasure
                                   && a.freeType == TotalCommande
  {
    var awards := if itemRef != "" then OtherItemAwards(ctx, line, foctyp, itemRef, lineAmount)
                  else NForMAwards(ctx, line, foctyp, lineAmount);
    var r := Relabel(awards, TotalCommande);
    assert forall k :: 0 <= k < |r| ==> awards[k] in awards;
    r
  }

  /** The line amount used for amount thresholds: ordered quantity times the
      line's PRI_0. */
  function LineAmount(ctx: PricingContext, line: PricingLine): real {
    ctx.quantity * line.pri
  }

  /** `calculate_free_items`, given the FOCPRO/FOCTYP pair of the line's
      configuration. */
  function CalculateFreeItems(ctx: PricingContext, line: PricingLine, focpro: string, foctyp: string): (r: seq<FreeItemAward>)
    ensures |r| <= 1
    ensures forall a :: a in r ==> a.quantity > 0.0 && a.unitOfMeasure == ctx.unitOfMeasure
  {
    var itemRef := Strip(line.focitmref);
    var lineAmount := LineAmount(ctx, line);
    if focpro == "0" || focpro == "" || line.focqty <= 0.0 then []
    else if focpro == "1" then NForMAwards(ctx, line, foctyp, lineAmount)
    else if focpro == "2" then
      if itemRef == "" then [] else OtherItemAwards(ctx, line, foctyp, itemRef, lineAmount)
    else if focpro == "3" then OrderTotalAwards(ctx, line, foctyp, itemRef, lineAmount)
    else []
  }

  /** SPRICCONF's first row with the line's PLI_0, the row
      `calculate_free_items` re-reads its FOCPRO_0 and FOCTYP_0 from. */
  function ConfigurationOf(configurations: seq<PricingConfiguration>, pli: string): (c: PricingConfiguration)
    requires exists k :: 0 <= k < |configurations| && configurations[k].pli == pli
    ensures c in configurations && c.pli == pli
    ensures exists k :: 0 <= k < |configurations| && configurations[k] == c
                        && forall j :: 0 <= j < k ==> configurations[j].pli != pli
  {
    if configurations[0].pli == pli then configurations[0]
    else
      var c := ConfigurationOf(configurations[1..], pli);
      assert forall j :: 1 <= j < |configurations| ==> configurations[j] == configurations[1..][j - 1];
      c
  }
}
