/**
 * The base-price and adjustment extractor of src/pricing/service.py:
 * `calculate_price_from_line`, `get_base_price` (as a lookup in the item
 * table) and `calculate_adjustments`.
 */
module Adjustments {
  import opened Wrappers
  import opened PricingModel

  /** `get_base_price`: BASPRI_0 of the first ITMMASTER row for the item, or 0. */
  function ItemBasePrice(items: seq<ItemRow>, itemCode: string): (p: real)
    ensures (forall k :: 0 <= k < |items| ==> items[k].itemCode != itemCode) ==> p == 0.0
    ensures (exists k :: 0 <= k < |items| && items[k].itemCode == itemCode) ==>
              exists k :: 0 <= k < |items| && items[k].itemCode == itemCode && p == items[k].basePrice
  {
    if items == [] then 0.0
    else if items[0].itemCode == itemCode then items[0].basePrice
    else
      assert forall k :: 1 <= k < |items| ==> items[k] == items[1..][k - 1];
      ItemBasePrice(items[1..], itemCode)
  }

  /** `calculate_price_from_line`: PRIPRO '2' (value) and '3' (formula, not
      evaluated) give PRI_0; '1' (coefficient) with a base-price field gives
      the item's base price times PRI_0; anything else gives 0. */
  function PriceFromLine(ctx: PricingContext, line: PricingLine, cfg: PricingConfiguration, items: seq<ItemRow>): (p: real)
  {
    if cfg.pripro == "2" then line.pri
    else if cfg.pripro == "1" && cfg.prifld != "" then ItemBasePrice(items, ctx.itemCode) * line.pri
    else if cfg.pripro == "3" then line.pri
    else 0.0
  }

  /** The three derivation modes. */
  lemma PriceFromLineModes(ctx: PricingContext, line: PricingLine, cfg: PricingConfiguration, items: seq<ItemRow>)
    ensures cfg.pripro == "2" || cfg.pripro == "3" ==> PriceFromLine(ctx, line, cfg, items) == line.pri
    ensures cfg.pripro == "1" && cfg.prifld != "" ==>
              PriceFromLine(ctx, line, cfg, items) == ItemBasePrice(items, ctx.itemCode) * line.pri
  {
  }

  /** The cases in which a line asserts no price: coefficient mode without a
      base-price field or without an item row, and unknown modes. */
  lemma PriceFromLineZero(ctx: PricingContext, line: PricingLine, cfg: PricingConfiguration, items: seq<ItemRow>)
    requires || (cfg.pripro == "1" && cfg.prifld == "")
             || (cfg.pripro == "1" && forall k :: 0 <= k < |items| ==> items[k].itemCode != ctx.itemCode)
             || (cfg.pripro != "1" && cfg.pripro != "2" && cfg.pripro != "3")
    ensures PriceFromLine(ctx, line, cfg, items) == 0.0
  {
  }

  function DecodeAdjustmentKind(incdcr: string): Option<AdjustmentKind> {
    if incdcr == "1" then Some(Fee) else if incdcr == "2" then Some(Discount) else None
  }

  function DecodeValueKind(valtyp: string): Option<ValueKind> {
    if valtyp == "1" then Some(Amount)
    else if valtyp == "2" then Some(CumulativePercentage)
    else if valtyp == "3" then Some(CascadingPercentage)
    else None
  }

  function DecodeBasis(clcrul: string): Option<Basis> {
    if clcrul == "1" then Some(PerUnit)
    else if clcrul == "2" then Some(PerLine)
    else if clcrul == "3" then Some(PerDocument)
    else None
  }

  /** A structure entry whose three flags all decode. */
  predicate ValidCodes(c: ColumnFlags) {
    DecodeAdjustmentKind(c.incdcr).Some? && DecodeValueKind(c.valtyp).Some? && DecodeBasis(c.clcrul).Some?
  }

  function Abs(x: real): real { if x < 0.0 then -x else x }

  /** The adjustment column i contributes, if any: a non-zero raw value and a
      structure entry with valid codes give one adjustment holding |raw|. */
  function AdjustmentAt(i: int, raw: real, structure: StructureMap): (r: Option<PriceAdjustment>)
    ensures r.Some? <==> raw != 0.0 && i in structure && ValidCodes(structure[i])
    ensures r.Some? ==> r.value.index == i && r.value.value == Abs(raw) && r.value.value > 0.0
    ensures r.Some? ==> Some(r.value.adjustmentType) == DecodeAdjustmentKind(structure[i].incdcr)
    ensures r.Some? ==> Some(r.value.calculationType) == DecodeValueKind(structure[i].valtyp)
    ensures r.Some? ==> Some(r.value.calculationBasis) == DecodeBasis(structure[i].clcrul)
    ensures r.Some? ==> r.value.description == structure[i].description
  {
    if raw != 0.0 && i in structure then
      var c := structure[i];
      match (DecodeAdjustmentKind(c.incdcr), DecodeValueKind(c.valtyp), DecodeBasis(c.clcrul))
      case (Some(kind), Some(vk), Some(basis)) =>
        Some(PriceAdjustment(i, Abs(raw), kind, vk, basis, c.description, c.incdcr, c.valtyp, c.clcrul))
      case _ => None
    else None
  }

  /** The adjustments of columns 0 .. n-1, in column order. */
  function AdjustmentsUpTo(line: PricingLine, structure: StructureMap, n: nat): seq<PriceAdjustment>
    requires n <= 9
  {
    if n == 0 then []
    else
      var a := AdjustmentAt(n - 1, line.dcgval[n - 1], structure);
      AdjustmentsUpTo(line, structure, n - 1) + (if a.Some? then [a.value] else [])
  }

  /** All adjustments of a line under a structure. */
  function ExtractAdjustments(line: PricingLine, structure: StructureMap): seq<PriceAdjustment> {
    AdjustmentsUpTo(line, structure, 9)
  }

  /** Column indices are below n and strictly ascending, and column i is
      represented exactly when `AdjustmentAt` yields one, by that adjustment. */
  lemma {:induction false} AdjustmentsUpToSpec(line: PricingLine, structure: StructureMap, n: nat)
    requires n <= 9
    ensures forall k :: 0 <= k < |AdjustmentsUpTo(line, structure, n)| ==>
              0 <= AdjustmentsUpTo(line, structure, n)[k].index < n
    ensures forall j, k :: 0 <= j < k < |AdjustmentsUpTo(line, structure, n)| ==>
              AdjustmentsUpTo(line, structure, n)[j].index < AdjustmentsUpTo(line, structure, n)[k].index
    ensures forall a :: a in AdjustmentsUpTo(line, structure, n) <==>
              0 <= a.index < n && AdjustmentAt(a.index, line.dcgval[a.index], structure) == Some(a)
  {
    if n > 0 {
      AdjustmentsUpToSpec(line, structure, n - 1);
    }
  }

  /** `calculate_adjustments`: at most one adjustment per column, in ascending
      column order; column i yields one exactly when its raw value is non-zero
      and the structure gives it valid codes; the value is |raw|. */
  lemma ExtractAdjustmentsSpec(line: PricingLine, structure: StructureMap)
    ensures forall j, k :: 0 <= j < k < |ExtractAdjustments(line, structure)| ==>
              ExtractAdjustments(line, structure)[j].index < ExtractAdjustments(line, structure)[k].index
    ensures forall i :: 0 <= i < 9 ==>
              ((exists a :: a in ExtractAdjustments(line, structure) && a.index == i) <==>
                 line.dcgval[i] != 0.0 && i in structure && ValidCodes(structure[i]))
    ensures forall a :: a in ExtractAdjustments(line, structure) ==>
              0 <= a.index < 9 && a.value == Abs(line.dcgval[a.index]) &&
              Some(a.adjustmentType) == DecodeAdjustmentKind(structure[a.index].incdcr) &&
              Some(a.calculationType) == DecodeValueKind(structure[a.index].valtyp) &&
              Some(a.calculationBasis) == DecodeBasis(structure[a.index].clcrul)
    ensures |ExtractAdjustments(line, structure)| <= 9
  {
    AdjustmentsUpToSpec(line, structure, 9);
    var r := ExtractAdjustments(line, structure);
    forall i | 0 <= i < 9
      ensures (exists a :: a in r && a.index == i) <==>
                line.dcgval[i] != 0.0 && i in structure && ValidCodes(structure[i])
    {
      var o := AdjustmentAt(i, line.dcgval[i], structure);
      if o.Some? { assert o.value in r; }
    }
    IndicesBound(r);
  }

  lemma IndicesBound(r: seq<PriceAdjustment>)
    requires forall k :: 0 <= k < |r| ==> 0 <= r[k].index < 9
    requires forall j, k :: 0 <= j < k < |r| ==> r[j].index < r[k].index
    ensures |r| <= 9
  {
    if r != [] {
      StrictIndexGrowth(r, |r| - 1);
    }
  }

  lemma {:induction false} StrictIndexGrowth(r: seq<PriceAdjustment>, k: nat)
    requires k < |r|
    requires forall k :: 0 <= k < |r| ==> 0 <= r[k].index
    requires forall j, k :: 0 <= j < k < |r| ==> r[j].index < r[k].index
    ensures r[k].index >= k
  {
    if k > 0 { StrictIndexGrowth(r, k - 1); }
  }

  /** The `for i in range(9)` loop of `calculate_adjustments`. */
  method CalculateAdjustments(line: PricingLine, structure: StructureMap) returns (adjustments: seq<PriceAdjustment>)
    ensures adjustments == ExtractAdjustments(line, structure)
    ensures forall j, k :: 0 <= j < k < |adjustments| ==> adjustments[j].index < adjustments[k].index
  {
    adjustments := [];
    for i := 0 to 9
      invariant adjustments == AdjustmentsUpTo(line, structure, i)
    {
      var raw := line.dcgval[i];
      if raw != 0.0 && i in structure {
        var c := structure[i];
        var kind := DecodeAdjustmentKind(c.incdcr);
        var vk := DecodeValueKind(c.valtyp);
        var basis := DecodeBasis(c.clcrul);
        if kind.Some? && vk.Some? && basis.Some? {
          adjustments := adjustments + [PriceAdjustment(i, Abs(raw), kind.value, vk.value, basis.value,
                                                        c.description, c.incdcr, c.valtyp, c.clcrul)];
        }
      }
    }
    ExtractAdjustmentsSpec(line, structure);
  }
}
