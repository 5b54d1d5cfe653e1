/**
 * The records of the Sage X3-style pricing engine (src/pricing/service.py):
 * the pricing context, the reference tables it reads (SPRICCONF
 * configurations, SPRICLIST lines, PRICSTRUCT structures, ITMMASTER items)
 * and the values it derives (adjustments, free-item awards, the result).
 * Decimal amounts are exact reals and timestamps are integers.
 */
module PricingModel {

  /** The five criteria slots of a configuration or a line. */
  type Slots = s: seq<string> | |s| == 5 witness ["", "", "", "", ""]

  /** The nine raw adjustment values DCGVAL_0 .. DCGVAL_8 of a line. */
  type RawColumns = s: seq<real> | |s| == 9 witness [0.0, 0.0, 0.0, 0.0, 0.0, 0.0, 0.0, 0.0, 0.0]

  /** What the engine is asked to price. */
  datatype PricingContext = PricingContext(
    customerCode: string,
    itemCode: string,
    quantity: real,
    currency: string,
    unitOfMeasure: string,
    site: string,
    salesRep: string,
    orderDate: int,
    customerCategory: string,
    itemCategory: string)

  /** INCDCR: 1 = fee (majoration), 2 = discount (minoration). */
  datatype AdjustmentKind = Fee | Discount

  /** VALTYP: 1 = amount, 2 = cumulative percentage, 3 = cascading percentage. */
  datatype ValueKind = Amount | CumulativePercentage | CascadingPercentage

  /** CLCRUL: 1 = per unit, 2 = per line, 3 = per document. */
  datatype Basis = PerUnit | PerLine | PerDocument

  /** One decoded discount or fee column of a pricing line. */
  datatype PriceAdjustment = PriceAdjustment(
    index: int,
    value: real,
    adjustmentType: AdjustmentKind,
    calculationType: ValueKind,
    calculationBasis: Basis,
    description: string,
    incdcrFlag: string,
    valtypFlag: string,
    clcrulFlag: string)

  /** The raw INCDCR_i / VALTYP_i / CLCRUL_i / LANDESSHO_i group of one
      PRICSTRUCT column. */
  datatype ColumnFlags = ColumnFlags(incdcr: string, valtyp: string, clcrul: string, description: string)

  type ColumnGroups = s: seq<ColumnFlags> | |s| == 9
    witness [ColumnFlags("0", "0", "0", ""), ColumnFlags("0", "0", "0", ""), ColumnFlags("0", "0", "0", ""),
             ColumnFlags("0", "0", "0", ""), ColumnFlags("0", "0", "0", ""), ColumnFlags("0", "0", "0", ""),
             ColumnFlags("0", "0", "0", ""), ColumnFlags("0", "0", "0", ""), ColumnFlags("0", "0", "0", "")]

  /** A PRICSTRUCT row: structure code PLISTC_0 and its nine column groups. */
  datatype StructureRow = StructureRow(code: string, columns: ColumnGroups)

  /** The decoded structure: configured column index to its flags. */
  type StructureMap = map<int, ColumnFlags>

  /** A SPRICCONF row. `tables`/`fields` are FIL_0..FIL_4 / FLD_0..FLD_4. */
  datatype PricingConfiguration = PricingConfiguration(
    pli: string,
    priority: int,
    enableFlag: string,
    plityp: string,
    tables: Slots,
    fields: Slots,
    pripro: string,
    prifld: string,
    plistc: string,
    focpro: string,
    foctyp: string)

  /** A SPRICLIST row. */
  datatype PricingLine = PricingLine(
    pli: string,
    lineNumber: int,
    plicrd: string,
    startDate: int,
    endDate: int,
    minQty: real,
    maxQty: real,
    currency: string,
    unitOfMeasure: string,
    criteria: Slots,
    dcgval: RawColumns,
    pri: real,
    comcoe: real,
    focqtymin: real,
    focamtmin: real,
    focqtybkt: real,
    focamtbkt: real,
    focitmref: string,
    focqty: real)

  /** An ITMMASTER row: ITMREF_0 and BASPRI_0. */
  datatype ItemRow = ItemRow(itemCode: string, basePrice: real)

  /** The read-only reference tables, in table order. */
  datatype Dataset = Dataset(
    configurations: seq<PricingConfiguration>,
    lines: seq<PricingLine>,
    structures: seq<StructureRow>,
    items: seq<ItemRow>)

  /** The mechanism label stored in an award's 'free_type'. */
  datatype FreeType = NPourM | AutreArticle | TotalCommande {
    function Label(): string {
      match this
      case NPourM => "N pour M"
      case AutreArticle => "Autre Article"
      case TotalCommande => "Total Commande (approximated)"
    }
  }

  /** One free-goods award. */
  datatype FreeItemAward = FreeItemAward(itemCode: string, quantity: real, unitOfMeasure: string, freeType: FreeType)

  /** The outcome of one pricing calculation. */
  datatype PricingResult = PricingResult(
    unitPrice: real,
    basePrice: real,
    adjustments: seq<PriceAdjustment>,
    freeItems: seq<FreeItemAward>,
    commissionCoefficient: real,
    pricingRuleCode: string,
    reasonCode: string,
    currency: string,
    unitOfMeasure: string,
    priceStructureCode: string)

  /** The result the engine starts from: zero prices, no adjustments, no
      awards, commission coefficient 1 and empty codes. */
  function EmptyResult(ctx: PricingContext): (r: PricingResult)
    ensures r.unitPrice == 0.0 && r.basePrice == 0.0
    ensures r.adjustments == [] && r.freeItems == []
    ensures r.commissionCoefficient == 1.0
    ensures r.currency == ctx.currency && r.unitOfMeasure == ctx.unitOfMeasure
    ensures r.pricingRuleCode == "" && r.reasonCode == "" && r.priceStructureCode == ""
  {
    PricingResult(0.0, 0.0, [], [], 1.0, "", "", ctx.currency, ctx.unitOfMeasure, "")
  }

  /** The discount adjustments, in order. */
  function Discounts(adjs: seq<PriceAdjustment>): (r: seq<PriceAdjustment>)
    ensures forall a :: a in r <==> a in adjs && a.adjustmentType == Discount
    ensures |r| <= |adjs|
  {
    if adjs == [] then []
    else (if adjs[0].adjustmentType == Discount then [adjs[0]] else []) + Discounts(adjs[1..])
  }

  /** The fee adjustments, in order. */
  function Fees(adjs: seq<PriceAdjustment>): (r: seq<PriceAdjustment>)
    ensures forall a :: a in r <==> a in adjs && a.adjustmentType == Fee
    ensures |r| <= |adjs|
  {
    if adjs == [] then []
    else (if adjs[0].adjustmentType == Fee then [adjs[0]] else []) + Fees(adjs[1..])
  }

  /** Every adjustment is either a discount or a fee: the two views split the
      list without loss. */
  lemma {:induction false} DiscountsAndFeesPartition(adjs: seq<PriceAdjustment>)
    ensures |Discounts(adjs)| + |Fees(adjs)| == |adjs|
    ensures multiset(Discounts(adjs)) + multiset(Fees(adjs)) == multiset(adjs)
  {
    if adjs != [] {
      var h, t := adjs[0], adjs[1..];
      DiscountsAndFeesPartition(t);
      var d := if h.adjustmentType == Discount then [h] else [];
      var f := if h.adjustmentType == Fee then [h] else [];
      assert Discounts(adjs) == d + Discounts(t);
      assert Fees(adjs) == f + Fees(t);
      SplitHead(adjs, d, f, Discounts(t), Fees(t));
    }
  }

  /** The multiset step of the partition: the head goes to exactly one side. */
  lemma SplitHead(adjs: seq<PriceAdjustment>, d: seq<PriceAdjustment>, f: seq<PriceAdjustment>,
                  dt: seq<PriceAdjustment>, ft: seq<PriceAdjustment>)
    requires adjs != []
    requires multiset(d) + multiset(f) == multiset{adjs[0]}
    requires multiset(dt) + multiset(ft) == multiset(adjs[1..])
    ensures multiset(d + dt) + multiset(f + ft) == multiset(adjs)
  {
    assert adjs == [adjs[0]] + adjs[1..];
  }
}
