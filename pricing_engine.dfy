/**
 * The orchestrator of src/pricing/service.py: `calculate_pricing` walks the
 * active configurations in priority order, applies the first matching line
 * of each (price, adjustments, free goods, commission), stops after a grouped
 * configuration, and finally runs the adjustment pass once over everything
 * collected. The engine object keeps a cache of decoded price structures.
 */
module PricingEngine {
  import opened Wrappers
  import opened Sorting
  import opened PricingModel
  import opened PriceStructure
  import opened LineMatching
  import opened Adjustments
  import opened AdjustmentPass
  import opened FreeGoods

  function Priority(c: PricingConfiguration): int { c.priority }

  /** `WHERE PLIENAFLG_0 = '2'`, in table order. */
  function EnabledConfigurations(configs: seq<PricingConfiguration>): (r: seq<PricingConfiguration>)
    ensures forall c :: c in r <==> c in configs && c.enableFlag == "2"
    ensures forall c :: multiset(r)[c] == if c.enableFlag == "2" then multiset(configs)[c] else 0
  {
    if configs == [] then []
    else
      assert configs == [configs[0]] + configs[1..];
      (if configs[0].enableFlag == "2" then [configs[0]] else []) + EnabledConfigurations(configs[1..])
  }

  /** `get_pricing_configurations`: the active configurations by ascending
      PIO_0. */
  function ActiveConfigurations(configs: seq<PricingConfiguration>): (r: seq<PricingConfiguration>)
    ensures forall c :: c in r <==> c in configs && c.enableFlag == "2"
    ensures multiset(r) == multiset(EnabledConfigurations(configs))
    ensures SortedBy(r, Priority)
    ensures forall k :: WithKey(r, Priority, k) == WithKey(EnabledConfigurations(configs), Priority, k)
  {
    var r := SortBy(EnabledConfigurations(configs), Priority);
    assert forall c :: c in r <==> c in multiset(r);
    SortByOrderedAndStable(EnabledConfigurations(configs), Priority);
    r
  }

  /** The structure a configuration's lines are read with: its PLISTC_0
      structure, or none when the code is empty. */
  function StructureOfConfiguration(ds: Dataset, cfg: PricingConfiguration): StructureMap {
    if cfg.plistc != "" then StructureFor(ds.structures, cfg.plistc) else map[]
  }

  /** The configurations all come from the dataset's SPRICCONF table. */
  predicate FromDataset(ds: Dataset, configs: seq<PricingConfiguration>) {
    forall c :: c in configs ==> c in ds.configurations
  }

  /** A line of a configuration of the dataset: its PLI_0 names a SPRICCONF
      row, the one `calculate_free_items` reads FOCPRO_0 and FOCTYP_0 from. */
  predicate KnownPli(ds: Dataset, pli: string) {
    exists k :: 0 <= k < |ds.configurations| && ds.configurations[k].pli == pli
  }

  /** The free goods of a line, with the mechanism of its SPRICCONF row. */
  function FreeItemsOfLine(ctx: PricingContext, ds: Dataset, line: PricingLine): (r: seq<FreeItemAward>)
    requires KnownPli(ds, line.pli)
    ensures |r| <= 1
    ensures forall a :: a in r ==> a.quantity > 0.0 && a.unitOfMeasure == ctx.unitOfMeasure
  {
    var settings := ConfigurationOf(ds.configurations, line.pli);
    CalculateFreeItems(ctx, line, settings.focpro, settings.foctyp)
  }

  /** The effect of applying one line: a positive price replaces the base
      price, the unit price and the rule, reason and structure codes; the
      line's adjustments and free goods are appended; a non-zero COMCOE_0
      replaces the commission coefficient. */
  function ApplyLine(ctx: PricingContext, ds: Dataset, cfg: PricingConfiguration, line: PricingLine,
                     acc: PricingResult): PricingResult
    requires KnownPli(ds, line.pli)
  {
    var price := PriceFromLine(ctx, line, cfg, ds.items);
    var priced := if price > 0.0 then
                    acc.(basePrice := price, unitPrice := price, pricingRuleCode := cfg.pli,
                         reasonCode := cfg.plistc, priceStructureCode := cfg.plistc)
                  else acc;
    var extended := priced.(adjustments := priced.adjustments + ExtractAdjustments(line, StructureOfConfiguration(ds, cfg)),
                            freeItems := priced.freeItems + FreeItemsOfLine(ctx, ds, line));
    if line.comcoe != 0.0 then extended.(commissionCoefficient := line.comcoe) else extended
  }

  /** The first applicable line of a configuration belongs to it, and so to a
      known SPRICCONF row. */
  lemma FirstLineKnown(ctx: PricingContext, ds: Dataset, cfg: PricingConfiguration)
    requires cfg in ds.configurations
    requires FindApplicableLines(ctx, cfg, ds.lines) != []
    ensures FindApplicableLines(ctx, cfg, ds.lines)[0].pli == cfg.pli
    ensures KnownPli(ds, FindApplicableLines(ctx, cfg, ds.lines)[0].pli)
  {
    FindApplicableLinesSpec(ctx, cfg, ds.lines);
    var lines := FindApplicableLines(ctx, cfg, ds.lines);
    assert lines[0] in lines;
    var k :| 0 <= k < |ds.configurations| && ds.configurations[k] == cfg;
  }

  /** The loop of `calculate_pricing` over the remaining configurations. */
  function PricingLoop(ctx: PricingContext, ds: Dataset, configs: seq<PricingConfiguration>, acc: PricingResult): PricingResult
    requires FromDataset(ds, configs)
    decreases |configs|
  {
    if configs == [] then acc
    else
      var cfg := configs[0];
      assert FromDataset(ds, configs[1..]) by {
        assert forall c :: c in configs[1..] ==> c in configs;
      }
      var lines := FindApplicableLines(ctx, cfg, ds.lines);
      if lines == [] then PricingLoop(ctx, ds, configs[1..], acc)
      else
        FirstLineKnown(ctx, ds, cfg);
        var applied := ApplyLine(ctx, ds, cfg, lines[0], acc);
        if cfg.plityp == "2" then applied else PricingLoop(ctx, ds, configs[1..], applied)
  }

  lemma ActiveFromDataset(ds: Dataset)
    ensures FromDataset(ds, ActiveConfigurations(ds.configurations))
  {
  }

  /** `calculate_pricing`: with no active configuration the empty result;
      otherwise the loop, then the adjustment pass over the collected base
      price and adjustments. */
  function Pricing(ctx: PricingContext, ds: Dataset): PricingResult
    requires ctx.quantity != 0.0
  {
    var configs := ActiveConfigurations(ds.configurations);
    if configs == [] then EmptyResult(ctx)
    else
      ActiveFromDataset(ds);
      var acc := PricingLoop(ctx, ds, configs, EmptyResult(ctx));
      acc.(unitPrice := FinalUnitPrice(acc.basePrice, acc.adjustments, ctx.quantity))
  }

  /** `SageX3PricingEngine`: the read-only reference data and the structure
      cache, filled on demand. */
  class Engine {
    const dataset: Dataset
    var structureCache: map<string, StructureMap>

    /** Every cached structure is what the PRICSTRUCT table decodes to. */
    ghost predicate CacheConsistent()
      reads this
    {
      forall code :: code in structureCache ==> structureCache[code] == StructureFor(dataset.structures, code)
    }

    constructor (dataset: Dataset)
      ensures this.dataset == dataset
      ensures structureCache == map[]
      ensures CacheConsistent()
    {
      this.dataset := dataset;
      structureCache := map[];
    }

    /** `get_price_structure`: a cached structure is returned as it is; a
        miss reads the first PRICSTRUCT row with the code, decodes it (an
        empty map when there is none) and caches the result. */
    method GetPriceStructure(code: string) returns (structure: StructureMap)
      requires CacheConsistent()
      modifies this
      ensures structure == StructureFor(dataset.structures, code)
      ensures code in old(structureCache) ==> structure == old(structureCache)[code]
      ensures structureCache == old(structureCache)[code := structure]
      ensures CacheConsistent()
    {
      if code in structureCache {
        return structureCache[code];
      }
      var row := FindStructureRow(dataset.structures, code);
      structure := map[];
      if row.Some? {
        structure := DecodeStructureRow(row.value);
      }
      structureCache := structureCache[code := structure];
    }

    /** The body of `calculate_pricing`'s loop for a configuration and its
        first applicable line. */
    method ApplyPricingLine(ctx: PricingContext, config: PricingConfiguration, line: PricingLine,
                            acc: PricingResult) returns (result: PricingResult)
      requires CacheConsistent()
      requires KnownPli(dataset, line.pli)
      modifies this
      ensures result == ApplyLine(ctx, dataset, config, line, acc)
      ensures CacheConsistent()
      ensures forall code :: code in old(structureCache) ==> code in structureCache
    {
      result := acc;
      var basePrice := PriceFromLine(ctx, line, config, dataset.items);
      if basePrice > 0.0 {
        result := result.(basePrice := basePrice, unitPrice := basePrice, pricingRuleCode := config.pli,
                          reasonCode := config.plistc, priceStructureCode := config.plistc);
      }
      var structureCode := config.plistc;
      var priceStructure: StructureMap := map[];
      if structureCode != "" {
        priceStructure := GetPriceStructure(structureCode);
      }
      assert priceStructure == StructureOfConfiguration(dataset, config);
      var adjustments := CalculateAdjustments(line, priceStructure);
      result := result.(adjustments := result.adjustments + adjustments);
      var settings := ConfigurationOf(dataset.configurations, line.pli);
      var freeItems := CalculateFreeItems(ctx, line, settings.focpro, settings.foctyp);
      result := result.(freeItems := result.freeItems + freeItems);
      if line.comcoe != 0.0 {
        result := result.(commissionCoefficient := line.comcoe);
      }
    }

    /** `calculate_pricing` on the engine's data. */
    method CalculatePricing(ctx: PricingContext) returns (result: PricingResult)
      requires ctx.quantity != 0.0
      requires CacheConsistent()
      modifies this
      ensures result == Pricing(ctx, dataset)
      ensures CacheConsistent()
      ensures forall code :: code in old(structureCache) ==> code in structureCache
    {
      result := EmptyResult(ctx);
      var configs := ActiveConfigurations(dataset.configurations);
      if configs == [] {
        return;
      }
      ActiveFromDataset(dataset);
      ghost var start := result;
      var i := 0;
      while i < |configs|
        invariant 0 <= i <= |configs|
        invariant CacheConsistent()
        invariant forall code :: code in old(structureCache) ==> code in structureCache
        invariant FromDataset(dataset, configs[i..])
        invariant PricingLoop(ctx, dataset, configs, start) == PricingLoop(ctx, dataset, configs[i..], result)
        decreases |configs| - i
      {
        var config := configs[i];
        assert configs[i..][0] == config && configs[i..][1..] == configs[i + 1..];
        assert FromDataset(dataset, configs[i + 1..]) by {
          assert forall c :: c in configs[i + 1..] ==> c in configs[i..];
        }
        var applicableLines := FindApplicableLines(ctx, config, dataset.lines);
        if applicableLines == [] {
          i := i + 1;
          continue;
        }
        var line := applicableLines[0];
        FirstLineKnown(ctx, dataset, config);
        result := ApplyPricingLine(ctx, config, line, result);
        if config.plityp == "2" {
          assert PricingLoop(ctx, dataset, configs, start) == result;
          break;
        }
        i := i + 1;
      }
      assert PricingLoop(ctx, dataset, configs, start) == result;
      var finalPrice := ApplySageX3Adjustments(result.basePrice, result.adjustments, ctx.quantity);
      result := result.(unitPrice := finalPrice);
    }
  }
}
