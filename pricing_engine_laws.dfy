/**
 * A declarative reading of `calculate_pricing`: the rules it applies (each
 * configuration's first matching line, in priority order, up to and
 * including the first grouped configuration), and the result as a function
 * of those rules: all their adjustments and free goods in order, the last
 * positive price, the last non-zero commission coefficient.
 */
module PricingEngineLaws {
  import opened Wrappers
  import opened Sorting
  import opened Rounding
  import opened PricingModel
  import opened LineMatching
  import opened Adjustments
  import opened AdjustmentPass
  import opened FreeGoods
  import opened PricingEngine

  /** A configuration together with the line of it that was applied. */
  datatype AppliedRule = AppliedRule(config: PricingConfiguration, line: PricingLine)

  /** The rules the loop applies, in order. */
  function AppliedRules(ctx: PricingContext, ds: Dataset, configs: seq<PricingConfiguration>): seq<AppliedRule>
    decreases |configs|
  {
    if configs == [] then []
    else
      var lines := FindApplicableLines(ctx, configs[0], ds.lines);
      if lines == [] then AppliedRules(ctx, ds, configs[1..])
      else [AppliedRule(configs[0], lines[0])]
           + (if configs[0].plityp == "2" then [] else AppliedRules(ctx, ds, configs[1..]))
  }

  predicate RulesKnown(ds: Dataset, rules: seq<AppliedRule>) {
    forall r :: r in rules ==> KnownPli(ds, r.line.pli)
  }

  function CollectedAdjustments(ds: Dataset, rules: seq<AppliedRule>): seq<PriceAdjustment> {
    if rules == [] then []
    else ExtractAdjustments(rules[0].line, StructureOfConfiguration(ds, rules[0].config))
         + CollectedAdjustments(ds, rules[1..])
  }

  function CollectedFreeItems(ctx: PricingContext, ds: Dataset, rules: seq<AppliedRule>): seq<FreeItemAward>
    requires RulesKnown(ds, rules)
  {
    if rules == [] then []
    else
      assert rules[0] in rules;
      assert RulesKnown(ds, rules[1..]) by {
        assert forall r :: r in rules[1..] ==> r in rules;
      }
      FreeItemsOfLine(ctx, ds, rules[0].line) + CollectedFreeItems(ctx, ds, rules[1..])
  }

  function RulePrice(ctx: PricingContext, ds: Dataset, r: AppliedRule): real {
    PriceFromLine(ctx, r.line, r.config, ds.items)
  }

  /** The price of the last rule with a positive price, else `default`. */
  function LastPositivePrice(ctx: PricingContext, ds: Dataset, rules: seq<AppliedRule>, default: real): real {
    if rules == [] then default
    else
      var p := RulePrice(ctx, ds, rules[0]);
      LastPositivePrice(ctx, ds, rules[1..], if p > 0.0 then p else default)
  }

  /** The COMCOE_0 of the last rule whose coefficient is non-zero, else
      `default`. */
  function LastCommission(rules: seq<AppliedRule>, default: real): real {
    if rules == [] then default
    else LastCommission(rules[1..], if rules[0].line.comcoe != 0.0 then rules[0].line.comcoe else default)
  }

  /** The last rule whose price is positive, the one whose PLI_0 and
      PLISTC_0 the result carries; `None` when no rule has a positive price. */
  function LastPricedRule(ctx: PricingContext, ds: Dataset, rules: seq<AppliedRule>): Option<AppliedRule> {
    if rules == [] then None
    else
      match LastPricedRule(ctx, ds, rules[1..])
      case Some(r) => Some(r)
      case None => if RulePrice(ctx, ds, rules[0]) > 0.0 then Some(rules[0]) else None
  }

  /** The PLI_0 of the rule, else `default`. */
  function RuleCodeOr(last: Option<AppliedRule>, default: string): string {
    match last
    case Some(r) => r.config.pli
    case None => default
  }

  /** The PLISTC_0 of the rule, else `default`. */
  function StructureCodeOr(last: Option<AppliedRule>, default: string): string {
    match last
    case Some(r) => r.config.plistc
    case None => default
  }

  /** `r` is a configuration of `configs` with its first applicable line. */
  predicate IsRuleOf(ctx: PricingContext, ds: Dataset, configs: seq<PricingConfiguration>, r: AppliedRule) {
    && r.config in configs
    && FindApplicableLines(ctx, r.config, ds.lines) != []
    && r.line == FindApplicableLines(ctx, r.config, ds.lines)[0]
  }

  predicate RulesOf(ctx: PricingContext, ds: Dataset, configs: seq<PricingConfiguration>, rules: seq<AppliedRule>) {
    forall r :: r in rules ==> IsRuleOf(ctx, ds, configs, r)
  }

  lemma ConsRulesOf(ctx: PricingContext, ds: Dataset, configs: seq<PricingConfiguration>, tail: seq<AppliedRule>)
    requires configs != []
    requires RulesOf(ctx, ds, configs[1..], tail)
    requires FindApplicableLines(ctx, configs[0], ds.lines) != []
    ensures RulesOf(ctx, ds, configs, [AppliedRule(configs[0], FindApplicableLines(ctx, configs[0], ds.lines)[0])] + tail)
    ensures RulesOf(ctx, ds, configs, [AppliedRule(configs[0], FindApplicableLines(ctx, configs[0], ds.lines)[0])])
  {
    var h := AppliedRule(configs[0], FindApplicableLines(ctx, configs[0], ds.lines)[0]);
    assert IsRuleOf(ctx, ds, configs, h) by {
      assert configs[0] in configs;
    }
    WidenRulesOf(ctx, ds, configs, tail);
    forall r | r in [h] + tail ensures IsRuleOf(ctx, ds, configs, r) {
      if r != h {
        assert r in tail;
      }
    }
    forall r | r in [h] ensures IsRuleOf(ctx, ds, configs, r) {
      assert r == h;
    }
  }

  lemma WidenRulesOf(ctx: PricingContext, ds: Dataset, configs: seq<PricingConfiguration>, tail: seq<AppliedRule>)
    requires configs != []
    requires RulesOf(ctx, ds, configs[1..], tail)
    ensures RulesOf(ctx, ds, configs, tail)
  {
    assert forall c :: c in configs[1..] ==> c in configs;
  }

  /** Every applied rule is a configuration of the list with its first
      applicable line. */
  lemma {:induction false} AppliedRulesFromConfigs(ctx: PricingContext, ds: Dataset, configs: seq<PricingConfiguration>)
    ensures |AppliedRules(ctx, ds, configs)| <= |configs|
    ensures RulesOf(ctx, ds, configs, AppliedRules(ctx, ds, configs))
  {
    if configs != [] {
      var rest := configs[1..];
      AppliedRulesFromConfigs(ctx, ds, rest);
      var tail := AppliedRules(ctx, ds, rest);
      var lines := FindApplicableLines(ctx, configs[0], ds.lines);
      if lines == [] {
        WidenRulesOf(ctx, ds, configs, tail);
      } else {
        ConsRulesOf(ctx, ds, configs, tail);
      }
    }
  }

  /** A rule taken from the dataset's configurations has a line of that
      configuration, hence a known PLI_0. */
  lemma AppliedRulesKnown(ctx: PricingContext, ds: Dataset, configs: seq<PricingConfiguration>)
    requires FromDataset(ds, configs)
    ensures RulesKnown(ds, AppliedRules(ctx, ds, configs))
    ensures forall r :: r in AppliedRules(ctx, ds, configs) ==> r.line.pli == r.config.pli
  {
    AppliedRulesFromConfigs(ctx, ds, configs);
    var rules := AppliedRules(ctx, ds, configs);
    forall r | r in rules
      ensures r.line.pli == r.config.pli && KnownPli(ds, r.line.pli)
    {
      assert IsRuleOf(ctx, ds, configs, r);
      FirstLineKnown(ctx, ds, r.config);
    }
  }

  /** No rule but the last is grouped (PLITYP_0 = 2). */
  predicate GroupedOnlyLast(rules: seq<AppliedRule>) {
    forall k :: 0 <= k < |rules| - 1 ==> rules[k].config.plityp != "2"
  }

  lemma ConsGroupedOnlyLast(r: AppliedRule, tail: seq<AppliedRule>)
    requires r.config.plityp != "2" && GroupedOnlyLast(tail)
    ensures GroupedOnlyLast([r] + tail)
  {
    assert forall k :: 1 <= k < |tail| + 1 ==> ([r] + tail)[k] == tail[k - 1];
  }

  /** The loop stops after the first grouped configuration with a matching
      line: only the last rule may be grouped. */
  lemma {:induction false} GroupedStopsTheLoop(ctx: PricingContext, ds: Dataset, configs: seq<PricingConfiguration>)
    ensures GroupedOnlyLast(AppliedRules(ctx, ds, configs))
  {
    if configs != [] {
      var rest := configs[1..];
      GroupedStopsTheLoop(ctx, ds, rest);
      var tail := AppliedRules(ctx, ds, rest);
      var lines := FindApplicableLines(ctx, configs[0], ds.lines);
      if lines != [] && configs[0].plityp != "2" {
        ConsGroupedOnlyLast(AppliedRule(configs[0], lines[0]), tail);
      }
    }
  }

  /** Rules in ascending PIO_0. */
  predicate OrderedByPriority(rules: seq<AppliedRule>) {
    forall j, k :: 0 <= j < k < |rules| ==> rules[j].config.priority <= rules[k].config.priority
  }

  lemma ConsOrderedByPriority(r: AppliedRule, tail: seq<AppliedRule>)
    requires OrderedByPriority(tail)
    requires forall t :: t in tail ==> r.config.priority <= t.config.priority
    ensures OrderedByPriority([r] + tail)
  {
    var rules := [r] + tail;
    forall j, k | 0 <= j < k < |rules| ensures rules[j].config.priority <= rules[k].config.priority {
      assert rules[k] == tail[k - 1];
      if j > 0 {
        assert rules[j] == tail[j - 1];
      } else {
        assert tail[k - 1] in tail;
      }
    }
  }

  /** Over configurations sorted by priority, the rules come in priority
      order. */
  lemma {:induction false} AppliedRulesOrdered(ctx: PricingContext, ds: Dataset, configs: seq<PricingConfiguration>)
    requires SortedBy(configs, Priority)
    ensures OrderedByPriority(AppliedRules(ctx, ds, configs))
  {
    if configs != [] {
      var rest := configs[1..];
      TailSorted(configs, Priority);
      AppliedRulesOrdered(ctx, ds, rest);
      var tail := AppliedRules(ctx, ds, rest);
      var lines := FindApplicableLines(ctx, configs[0], ds.lines);
      if lines != [] && configs[0].plityp != "2" {
        LaterRulesNotBefore(ctx, ds, configs);
        ConsOrderedByPriority(AppliedRule(configs[0], lines[0]), tail);
      }
    }
  }

  /** The rules of the later configurations have a priority no smaller than
      the first configuration's. */
  lemma LaterRulesNotBefore(ctx: PricingContext, ds: Dataset, configs: seq<PricingConfiguration>)
    requires configs != [] && SortedBy(configs, Priority)
    ensures forall t :: t in AppliedRules(ctx, ds, configs[1..]) ==> configs[0].priority <= t.config.priority
  {
    var rest := configs[1..];
    AppliedRulesFromConfigs(ctx, ds, rest);
    forall t | t in AppliedRules(ctx, ds, rest) ensures configs[0].priority <= t.config.priority {
      assert IsRuleOf(ctx, ds, rest, t);
      var j :| 0 <= j < |rest| && rest[j] == t.config;
      assert Priority(configs[0]) <= Priority(configs[j + 1]);
    }
  }

  /** `result` is what folding `rules` over `acc` gives. */
  predicate Folded(ctx: PricingContext, ds: Dataset, rules: seq<AppliedRule>, acc: PricingResult, result: PricingResult)
    requires RulesKnown(ds, rules)
  {
    && result.adjustments == acc.adjustments + CollectedAdjustments(ds, rules)
    && result.freeItems == acc.freeItems + CollectedFreeItems(ctx, ds, rules)
    && result.basePrice == LastPositivePrice(ctx, ds, rules, acc.basePrice)
    && result.commissionCoefficient == LastCommission(rules, acc.commissionCoefficient)
    && result.currency == acc.currency && result.unitOfMeasure == acc.unitOfMeasure
  }

  /** The fields the last priced rule sets, as folding `rules` over `acc`
      leaves them. */
  predicate FoldedCodes(ctx: PricingContext, ds: Dataset, rules: seq<AppliedRule>, acc: PricingResult, result: PricingResult) {
    && result.unitPrice == LastPositivePrice(ctx, ds, rules, acc.unitPrice)
    && result.pricingRuleCode == RuleCodeOr(LastPricedRule(ctx, ds, rules), acc.pricingRuleCode)
    && result.reasonCode == StructureCodeOr(LastPricedRule(ctx, ds, rules), acc.reasonCode)
    && result.priceStructureCode == StructureCodeOr(LastPricedRule(ctx, ds, rules), acc.priceStructureCode)
  }

  /** What one application changes in the fields a fold tracks. */
  lemma ApplyLineFields(ctx: PricingContext, ds: Dataset, rule: AppliedRule, acc: PricingResult)
    requires KnownPli(ds, rule.line.pli)
    ensures var applied := ApplyLine(ctx, ds, rule.config, rule.line, acc);
            var p := RulePrice(ctx, ds, rule);
            && applied.adjustments == acc.adjustments + ExtractAdjustments(rule.line, StructureOfConfiguration(ds, rule.config))
            && applied.freeItems == acc.freeItems + FreeItemsOfLine(ctx, ds, rule.line)
            && applied.basePrice == (if p > 0.0 then p else acc.basePrice)
            && applied.unitPrice == (if p > 0.0 then p else acc.unitPrice)
            && applied.pricingRuleCode == (if p > 0.0 then rule.config.pli else acc.pricingRuleCode)
            && applied.reasonCode == (if p > 0.0 then rule.config.plistc else acc.reasonCode)
            && applied.priceStructureCode == (if p > 0.0 then rule.config.plistc else acc.priceStructureCode)
            && applied.commissionCoefficient == (if rule.line.comcoe != 0.0 then rule.line.comcoe else acc.commissionCoefficient)
            && applied.currency == acc.currency && applied.unitOfMeasure == acc.unitOfMeasure
  {
  }

  lemma FoldedCons(ctx: PricingContext, ds: Dataset, rule: AppliedRule, tail: seq<AppliedRule>,
                   acc: PricingResult, result: PricingResult)
    requires KnownPli(ds, rule.line.pli) && RulesKnown(ds, tail)
    requires Folded(ctx, ds, tail, ApplyLine(ctx, ds, rule.config, rule.line, acc), result)
    ensures RulesKnown(ds, [rule] + tail)
    ensures Folded(ctx, ds, [rule] + tail, acc, result)
  {
    var rules := [rule] + tail;
    assert rules[0] == rule && rules[1..] == tail;
    assert RulesKnown(ds, rules);
    var applied := ApplyLine(ctx, ds, rule.config, rule.line, acc);
    ApplyLineFields(ctx, ds, rule, acc);
    assert result.adjustments == acc.adjustments + CollectedAdjustments(ds, rules) by {
      var adjs := ExtractAdjustments(rule.line, StructureOfConfiguration(ds, rule.config));
      var rest := CollectedAdjustments(ds, tail);
      assert CollectedAdjustments(ds, rules) == adjs + rest;
      assert result.adjustments == (acc.adjustments + adjs) + rest;
      ConcatAssociative(acc.adjustments, adjs, rest);
    }
    assert result.freeItems == acc.freeItems + CollectedFreeItems(ctx, ds, rules) by {
      var free := FreeItemsOfLine(ctx, ds, rule.line);
      var rest := CollectedFreeItems(ctx, ds, tail);
      assert CollectedFreeItems(ctx, ds, rules) == free + rest;
      assert result.freeItems == (acc.freeItems + free) + rest;
      ConcatAssociative(acc.freeItems, free, rest);
    }
    assert result.basePrice == LastPositivePrice(ctx, ds, rules, acc.basePrice) by {
      assert LastPositivePrice(ctx, ds, rules, acc.basePrice) == LastPositivePrice(ctx, ds, tail, applied.basePrice);
    }
    assert result.commissionCoefficient == LastCommission(rules, acc.commissionCoefficient) by {
      assert LastCommission(rules, acc.commissionCoefficient) == LastCommission(tail, applied.commissionCoefficient);
    }
  }

  lemma FoldedCodesCons(ctx: PricingContext, ds: Dataset, rule: AppliedRule, tail: seq<AppliedRule>,
                        acc: PricingResult, result: PricingResult)
    requires KnownPli(ds, rule.line.pli)
    requires FoldedCodes(ctx, ds, tail, ApplyLine(ctx, ds, rule.config, rule.line, acc), result)
    ensures FoldedCodes(ctx, ds, [rule] + tail, acc, result)
  {
    var rules := [rule] + tail;
    assert rules[0] == rule && rules[1..] == tail;
    var applied := ApplyLine(ctx, ds, rule.config, rule.line, acc);
    ApplyLineFields(ctx, ds, rule, acc);
    assert LastPositivePrice(ctx, ds, rules, acc.unitPrice) == LastPositivePrice(ctx, ds, tail, applied.unitPrice);
    LastPricedRuleCons(ctx, ds, rule, tail);
  }

  /** A rule put in front matters only when no later rule is priced. */
  lemma LastPricedRuleCons(ctx: PricingContext, ds: Dataset, rule: AppliedRule, tail: seq<AppliedRule>)
    ensures LastPricedRule(ctx, ds, [rule] + tail)
            == (if LastPricedRule(ctx, ds, tail).Some? then LastPricedRule(ctx, ds, tail)
                else if RulePrice(ctx, ds, rule) > 0.0 then Some(rule) else None)
  {
    assert ([rule] + tail)[0] == rule && ([rule] + tail)[1..] == tail;
  }

  lemma FoldedSingle(ctx: PricingContext, ds: Dataset, rule: AppliedRule, acc: PricingResult)
    requires KnownPli(ds, rule.line.pli)
    ensures RulesKnown(ds, [rule])
    ensures Folded(ctx, ds, [rule], acc, ApplyLine(ctx, ds, rule.config, rule.line, acc))
  {
    FoldedCons(ctx, ds, rule, [], acc, ApplyLine(ctx, ds, rule.config, rule.line, acc));
    assert [rule] + [] == [rule];
  }

  lemma FoldedCodesSingle(ctx: PricingContext, ds: Dataset, rule: AppliedRule, acc: PricingResult)
    requires KnownPli(ds, rule.line.pli)
    ensures FoldedCodes(ctx, ds, [rule], acc, ApplyLine(ctx, ds, rule.config, rule.line, acc))
  {
    FoldedCodesCons(ctx, ds, rule, [], acc, ApplyLine(ctx, ds, rule.config, rule.line, acc));
    assert [rule] + [] == [rule];
  }

  /** The loop's result in terms of the rules it applies. */
  lemma {:induction false} PricingLoopSpec(ctx: PricingContext, ds: Dataset, configs: seq<PricingConfiguration>, acc: PricingResult)
    requires FromDataset(ds, configs)
    ensures RulesKnown(ds, AppliedRules(ctx, ds, configs))
    ensures Folded(ctx, ds, AppliedRules(ctx, ds, configs), acc, PricingLoop(ctx, ds, configs, acc))
  {
    AppliedRulesKnown(ctx, ds, configs);
    if configs != [] {
      var rest := configs[1..];
      assert FromDataset(ds, rest) by {
        assert forall c :: c in rest ==> c in configs;
      }
      var lines := FindApplicableLines(ctx, configs[0], ds.lines);
      if lines == [] {
        PricingLoopSpec(ctx, ds, rest, acc);
      } else {
        FirstLineKnown(ctx, ds, configs[0]);
        var rule := AppliedRule(configs[0], lines[0]);
        var applied := ApplyLine(ctx, ds, configs[0], lines[0], acc);
        if configs[0].plityp == "2" {
          FoldedSingle(ctx, ds, rule, acc);
        } else {
          PricingLoopSpec(ctx, ds, rest, applied);
          FoldedCons(ctx, ds, rule, AppliedRules(ctx, ds, rest), acc, PricingLoop(ctx, ds, rest, applied));
        }
      }
    }
  }

  /** The unit price and the codes the loop leaves, in terms of the rules it
      applies. */
  lemma {:induction false} PricingLoopCodes(ctx: PricingContext, ds: Dataset, configs: seq<PricingConfiguration>, acc: PricingResult)
    requires FromDataset(ds, configs)
    ensures FoldedCodes(ctx, ds, AppliedRules(ctx, ds, configs), acc, PricingLoop(ctx, ds, configs, acc))
  {
    if configs != [] {
      var rest := configs[1..];
      assert FromDataset(ds, rest) by {
        assert forall c :: c in rest ==> c in configs;
      }
      var lines := FindApplicableLines(ctx, configs[0], ds.lines);
      if lines == [] {
        PricingLoopCodes(ctx, ds, rest, acc);
      } else {
        FirstLineKnown(ctx, ds, configs[0]);
        var rule := AppliedRule(configs[0], lines[0]);
        var applied := ApplyLine(ctx, ds, configs[0], lines[0], acc);
        if configs[0].plityp == "2" {
          FoldedCodesSingle(ctx, ds, rule, acc);
        } else {
          PricingLoopCodes(ctx, ds, rest, applied);
          FoldedCodesCons(ctx, ds, rule, AppliedRules(ctx, ds, rest), acc, PricingLoop(ctx, ds, rest, applied));
        }
      }
    }
  }

  /** `Pricing` is the fold of the applied rules over the empty result, with
      the adjustment pass as the unit price. */
  lemma PricingFolded(ctx: PricingContext, ds: Dataset)
    requires ctx.quantity != 0.0
    ensures var rules := AppliedRules(ctx, ds, ActiveConfigurations(ds.configurations));
            var r := Pricing(ctx, ds);
            && RulesKnown(ds, rules)
            && Folded(ctx, ds, rules, EmptyResult(ctx), r)
            && FoldedCodes(ctx, ds, rules, EmptyResult(ctx), r.(unitPrice := LastPositivePrice(ctx, ds, rules, 0.0)))
            && r.unitPrice == FinalUnitPrice(r.basePrice, r.adjustments, ctx.quantity)
  {
    var configs := ActiveConfigurations(ds.configurations);
    var empty := EmptyResult(ctx);
    ActiveFromDataset(ds);
    PricingLoopSpec(ctx, ds, configs, empty);
    PricingLoopCodes(ctx, ds, configs, empty);
    PricingIsLoop(ctx, ds);
  }

  /** `calculate_pricing` in full: every applied rule's adjustments and free
      goods in order, the last positive price as base price (0 if none), the
      PLI_0 and PLISTC_0 of the rule that gave it as rule, reason and
      structure codes ("" if none), the last non-zero commission coefficient
      (1 if none), and the adjustment pass over those as the unit price. */
  lemma PricingSpec(ctx: PricingContext, ds: Dataset)
    requires ctx.quantity != 0.0
    ensures var configs := ActiveConfigurations(ds.configurations);
            var rules := AppliedRules(ctx, ds, configs);
            var r := Pricing(ctx, ds);
            && RulesKnown(ds, rules)
            && r.adjustments == CollectedAdjustments(ds, rules)
            && r.freeItems == CollectedFreeItems(ctx, ds, rules)
            && r.basePrice == LastPositivePrice(ctx, ds, rules, 0.0)
            && r.pricingRuleCode == RuleCodeOr(LastPricedRule(ctx, ds, rules), "")
            && r.reasonCode == StructureCodeOr(LastPricedRule(ctx, ds, rules), "")
            && r.priceStructureCode == StructureCodeOr(LastPricedRule(ctx, ds, rules), "")
            && r.commissionCoefficient == LastCommission(rules, 1.0)
            && r.unitPrice == FinalUnitPrice(r.basePrice, r.adjustments, ctx.quantity)
            && r.currency == ctx.currency && r.unitOfMeasure == ctx.unitOfMeasure
  {
    var rules := AppliedRules(ctx, ds, ActiveConfigurations(ds.configurations));
    var r := Pricing(ctx, ds);
    PricingFolded(ctx, ds);
    FoldedFromEmpty(ctx, ds, rules, r);
    FoldedCodesFromEmpty(ctx, ds, rules, r.(unitPrice := LastPositivePrice(ctx, ds, rules, 0.0)));
  }

  /** The fields of a fold that starts from the empty result. */
  lemma FoldedFromEmpty(ctx: PricingContext, ds: Dataset, rules: seq<AppliedRule>, acc: PricingResult)
    requires RulesKnown(ds, rules)
    requires Folded(ctx, ds, rules, EmptyResult(ctx), acc)
    ensures acc.adjustments == CollectedAdjustments(ds, rules)
    ensures acc.freeItems == CollectedFreeItems(ctx, ds, rules)
    ensures acc.basePrice == LastPositivePrice(ctx, ds, rules, 0.0)
    ensures acc.commissionCoefficient == LastCommission(rules, 1.0)
    ensures acc.currency == ctx.currency && acc.unitOfMeasure == ctx.unitOfMeasure
  {
    assert [] + CollectedAdjustments(ds, rules) == CollectedAdjustments(ds, rules);
    assert [] + CollectedFreeItems(ctx, ds, rules) == CollectedFreeItems(ctx, ds, rules);
  }

  /** The codes of a fold that starts from the empty result: "" when no rule
      is priced. */
  lemma FoldedCodesFromEmpty(ctx: PricingContext, ds: Dataset, rules: seq<AppliedRule>, acc: PricingResult)
    requires FoldedCodes(ctx, ds, rules, EmptyResult(ctx), acc)
    ensures acc.pricingRuleCode == RuleCodeOr(LastPricedRule(ctx, ds, rules), "")
    ensures acc.reasonCode == StructureCodeOr(LastPricedRule(ctx, ds, rules), "")
    ensures acc.priceStructureCode == StructureCodeOr(LastPricedRule(ctx, ds, rules), "")
  {
  }

  /** `Pricing` is the loop from the empty result followed by the adjustment
      pass, also when there is no active configuration. */
  lemma PricingIsLoop(ctx: PricingContext, ds: Dataset)
    requires ctx.quantity != 0.0
    ensures FromDataset(ds, ActiveConfigurations(ds.configurations))
    ensures var acc := PricingLoop(ctx, ds, ActiveConfigurations(ds.configurations), EmptyResult(ctx));
            Pricing(ctx, ds) == acc.(unitPrice := FinalUnitPrice(acc.basePrice, acc.adjustments, ctx.quantity))
  {
    ActiveFromDataset(ds);
  }

  /** The last positive price wins: it is the price of the last rule whose
      price is positive, or the default when there is none. */
  lemma {:induction false} LastPositivePriceIsLast(ctx: PricingContext, ds: Dataset, rules: seq<AppliedRule>, default: real)
    ensures (forall k :: 0 <= k < |rules| ==> RulePrice(ctx, ds, rules[k]) <= 0.0)
            ==> LastPositivePrice(ctx, ds, rules, default) == default
    ensures forall k :: (0 <= k < |rules| && RulePrice(ctx, ds, rules[k]) > 0.0
                         && (forall j :: k < j < |rules| ==> RulePrice(ctx, ds, rules[j]) <= 0.0))
                        ==> LastPositivePrice(ctx, ds, rules, default) == RulePrice(ctx, ds, rules[k])
  {
    if rules != [] {
      var p := RulePrice(ctx, ds, rules[0]);
      var next := if p > 0.0 then p else default;
      LastPositivePriceIsLast(ctx, ds, rules[1..], next);
      forall k | 0 <= k < |rules| && RulePrice(ctx, ds, rules[k]) > 0.0
                 && (forall j :: k < j < |rules| ==> RulePrice(ctx, ds, rules[j]) <= 0.0)
        ensures LastPositivePrice(ctx, ds, rules, default) == RulePrice(ctx, ds, rules[k])
      {
        if k > 0 {
          assert rules[1..][k - 1] == rules[k];
          assert forall j :: k - 1 < j < |rules| - 1 ==> rules[1..][j] == rules[j + 1];
        } else {
          assert forall j :: 0 <= j < |rules| - 1 ==> rules[1..][j] == rules[j + 1];
        }
      }
      if forall k :: 0 <= k < |rules| ==> RulePrice(ctx, ds, rules[k]) <= 0.0 {
        assert forall j :: 0 <= j < |rules| - 1 ==> rules[1..][j] == rules[j + 1];
      }
    }
  }

  /** The last priced rule is the last rule with a positive price, and there
      is none exactly when no rule has a positive price. */
  lemma {:induction false} LastPricedRuleIsLast(ctx: PricingContext, ds: Dataset, rules: seq<AppliedRule>)
    ensures LastPricedRule(ctx, ds, rules).None? <==> forall k :: 0 <= k < |rules| ==> RulePrice(ctx, ds, rules[k]) <= 0.0
    ensures LastPricedRule(ctx, ds, rules).Some? ==>
              exists k :: && 0 <= k < |rules| && rules[k] == LastPricedRule(ctx, ds, rules).value
                          && RulePrice(ctx, ds, rules[k]) > 0.0
                          && forall j :: k < j < |rules| ==> RulePrice(ctx, ds, rules[j]) <= 0.0
  {
    if rules != [] {
      var tail := rules[1..];
      LastPricedRuleIsLast(ctx, ds, tail);
      assert forall j :: 0 <= j < |tail| ==> tail[j] == rules[j + 1];
      match LastPricedRule(ctx, ds, tail)
      case Some(r) =>
        var k :| && 0 <= k < |tail| && tail[k] == r && RulePrice(ctx, ds, tail[k]) > 0.0
                 && forall j :: k < j < |tail| ==> RulePrice(ctx, ds, tail[j]) <= 0.0;
        assert rules[k + 1] == r;
        assert forall j :: k + 1 < j < |rules| ==> RulePrice(ctx, ds, rules[j]) <= 0.0 by {
          forall j | k + 1 < j < |rules| ensures RulePrice(ctx, ds, rules[j]) <= 0.0 {
            assert rules[j] == tail[j - 1];
          }
        }
      case None =>
        if RulePrice(ctx, ds, rules[0]) > 0.0 {
          assert forall j :: 0 < j < |rules| ==> RulePrice(ctx, ds, rules[j]) <= 0.0 by {
            forall j | 0 < j < |rules| ensures RulePrice(ctx, ds, rules[j]) <= 0.0 {
              assert rules[j] == tail[j - 1];
            }
          }
        } else {
          forall k | 0 <= k < |rules| ensures RulePrice(ctx, ds, rules[k]) <= 0.0 {
            if k > 0 {
              assert rules[k] == tail[k - 1];
            }
          }
        }
    }
  }

  /** The base price and the codes come from the same rule: the last
      positive price is the price of the last priced rule. */
  lemma {:induction false} LastPositivePriceOfLastPricedRule(ctx: PricingContext, ds: Dataset, rules: seq<AppliedRule>, default: real)
    ensures LastPositivePrice(ctx, ds, rules, default)
            == match LastPricedRule(ctx, ds, rules)
               case Some(r) => RulePrice(ctx, ds, r)
               case None => default
  {
    if rules != [] {
      var p := RulePrice(ctx, ds, rules[0]);
      LastPositivePriceOfLastPricedRule(ctx, ds, rules[1..], if p > 0.0 then p else default);
    }
  }

  lemma {:induction false} LastPositivePriceNonNegative(ctx: PricingContext, ds: Dataset, rules: seq<AppliedRule>, default: real)
    requires default >= 0.0
    ensures LastPositivePrice(ctx, ds, rules, default) >= 0.0
  {
    if rules != [] {
      var p := RulePrice(ctx, ds, rules[0]);
      LastPositivePriceNonNegative(ctx, ds, rules[1..], if p > 0.0 then p else default);
    }
  }

  /** The engine never quotes a negative price; a priced result with
      adjustments is a whole number of cents. */
  lemma PricingNonNegative(ctx: PricingContext, ds: Dataset)
    requires ctx.quantity != 0.0
    ensures Pricing(ctx, ds).basePrice >= 0.0 && Pricing(ctx, ds).unitPrice >= 0.0
    ensures Pricing(ctx, ds).basePrice > 0.0 && Pricing(ctx, ds).adjustments != []
            ==> WholeCents(Pricing(ctx, ds).unitPrice)
  {
    PricingSpec(ctx, ds);
    LastPositivePriceNonNegative(ctx, ds, AppliedRules(ctx, ds, ActiveConfigurations(ds.configurations)), 0.0);
  }

  /** When no active configuration has a matching line, the result is the
      empty one: price 0, no adjustments, no free goods, coefficient 1. */
  lemma NoMatchingLineGivesEmptyResult(ctx: PricingContext, ds: Dataset)
    requires ctx.quantity != 0.0
    requires forall c :: c in ds.configurations && c.enableFlag == "2" ==> FindApplicableLines(ctx, c, ds.lines) == []
    ensures Pricing(ctx, ds) == EmptyResult(ctx)
  {
    var configs := ActiveConfigurations(ds.configurations);
    ActiveFromDataset(ds);
    NoLinesNoRules(ctx, ds, configs);
    NoRulesLeavesResult(ctx, ds, configs, EmptyResult(ctx));
  }

  lemma {:induction false} NoLinesNoRules(ctx: PricingContext, ds: Dataset, configs: seq<PricingConfiguration>)
    requires forall c :: c in configs ==> FindApplicableLines(ctx, c, ds.lines) == []
    ensures AppliedRules(ctx, ds, configs) == []
  {
    if configs != [] {
      assert configs[0] in configs;
      assert forall c :: c in configs[1..] ==> c in configs;
      NoLinesNoRules(ctx, ds, configs[1..]);
    }
  }

  /** A loop that applies no rule leaves its accumulator as it is. */
  lemma {:induction false} NoRulesLeavesResult(ctx: PricingContext, ds: Dataset, configs: seq<PricingConfiguration>, acc: PricingResult)
    requires FromDataset(ds, configs)
    requires AppliedRules(ctx, ds, configs) == []
    ensures PricingLoop(ctx, ds, configs, acc) == acc
  {
    if configs != [] {
      assert FromDataset(ds, configs[1..]) by {
        assert forall c :: c in configs[1..] ==> c in configs;
      }
      NoRulesLeavesResult(ctx, ds, configs[1..], acc);
    }
  }

  /** Active configurations are visited by ascending PIO_0, so the applied
      rules come in priority order. */
  lemma RulesInPriorityOrder(ctx: PricingContext, ds: Dataset)
    ensures var rules := AppliedRules(ctx, ds, ActiveConfigurations(ds.configurations));
            forall j, k :: 0 <= j < k < |rules| ==> rules[j].config.priority <= rules[k].config.priority
  {
    SortBySorted(EnabledConfigurations(ds.configurations), Priority);
    ActiveFromDataset(ds);
    AppliedRulesOrdered(ctx, ds, ActiveConfigurations(ds.configurations));
  }
}
