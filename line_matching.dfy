/**
 * The pricing-line matcher: `build_pricing_criteria` and the SPRICLIST query
 * of `find_applicable_pricing_lines` (src/pricing/service.py), stated as a
 * match predicate over the line table and a sort by line number.
 */
module LineMatching {
  import opened PricingModel
  import opened Sorting

  /** The context attribute a (table, field) criteria mapping stands for;
      an unrecognised mapping yields ''. */
  function CriterionValue(ctx: PricingContext, table: string, field: string): string {
    if table == "ITMMASTER" && field == "ITMREF" then ctx.itemCode
    else if table == "BPCUSTOMER" && field == "BPCNUM" then ctx.customerCode
    else if table == "SPRICLINK" && field == "CUR" then ctx.currency
    else if table == "SPRICLINK" && field == "UOM" then ctx.unitOfMeasure
    else ""
  }

  /** The criteria dictionary, keyed by slot 0..4 (slot i is the source's
      key PLICRI{i+1}_0): one entry per configured FLD_i. */
  function PricingCriteria(ctx: PricingContext, cfg: PricingConfiguration): map<int, string> {
    map i | 0 <= i < 5 && cfg.fields[i] != "" :: CriterionValue(ctx, cfg.tables[i], cfg.fields[i])
  }

  /** `build_pricing_criteria`: the `for i in range(5)` loop that fills the
      dictionary slot by slot. */
  method BuildPricingCriteria(ctx: PricingContext, cfg: PricingConfiguration) returns (criteria: map<int, string>)
    ensures criteria == PricingCriteria(ctx, cfg)
    ensures forall k :: k in criteria <==> 0 <= k < 5 && cfg.fields[k] != ""
  {
    criteria := map[];
    for i := 0 to 5
      invariant forall k :: k in criteria <==> 0 <= k < i && cfg.fields[k] != ""
      invariant forall k :: k in criteria ==> criteria[k] == CriterionValue(ctx, cfg.tables[k], cfg.fields[k])
    {
      if cfg.fields[i] != "" {
        var table := cfg.tables[i];
        var field := cfg.fields[i];
        if table == "ITMMASTER" && field == "ITMREF" {
          criteria := criteria[i := ctx.itemCode];
        } else if table == "BPCUSTOMER" && field == "BPCNUM" {
          criteria := criteria[i := ctx.customerCode];
        } else if table == "SPRICLINK" && field == "CUR" {
          criteria := criteria[i := ctx.currency];
        } else if table == "SPRICLINK" && field == "UOM" {
          criteria := criteria[i := ctx.unitOfMeasure];
        } else {
          criteria := criteria[i := ""];
        }
      }
    }
  }

  /** SQL `LIKE '%~%'`: the slot value holds the wildcard marker. */
  predicate HasWildcard(s: string) {
    '~' in s
  }

  /** Every non-empty criterion equals the line's slot, or that slot holds '~'. */
  predicate CriteriaMatch(criteria: map<int, string>, line: PricingLine) {
    forall k :: 0 <= k < 5 && k in criteria && criteria[k] != "" ==>
      line.criteria[k] == criteria[k] || HasWildcard(line.criteria[k])
  }

  /** The WHERE clause of the SPRICLIST query. */
  predicate LineMatches(ctx: PricingContext, cfg: PricingConfiguration, line: PricingLine) {
    && line.pli == cfg.pli
    && line.startDate <= ctx.orderDate
    && line.endDate >= ctx.orderDate
    && CriteriaMatch(PricingCriteria(ctx, cfg), line)
    && (line.minQty <= ctx.quantity || line.minQty == 0.0)
    && (line.maxQty >= ctx.quantity || line.maxQty == 0.0)
    && line.currency == ctx.currency
    && line.unitOfMeasure == ctx.unitOfMeasure
  }

  /** The matching lines, in table order, with their multiplicities. */
  function MatchingLines(ctx: PricingContext, cfg: PricingConfiguration, table: seq<PricingLine>): (r: seq<PricingLine>)
    ensures forall l :: multiset(r)[l] == if LineMatches(ctx, cfg, l) then multiset(table)[l] else 0
    ensures forall l :: l in r <==> l in table && LineMatches(ctx, cfg, l)
  {
    if table == [] then []
    else
      assert table == [table[0]] + table[1..];
      (if LineMatches(ctx, cfg, table[0]) then [table[0]] else []) + MatchingLines(ctx, cfg, table[1..])
  }

  function LineNumber(l: PricingLine): int { l.lineNumber }

  /** `find_applicable_pricing_lines`: the matching lines ordered by PLILIN_0. */
  function FindApplicableLines(ctx: PricingContext, cfg: PricingConfiguration, table: seq<PricingLine>): seq<PricingLine> {
    SortBy(MatchingLines(ctx, cfg, table), LineNumber)
  }

  /** A line is returned iff it is in the table and matches; the result is in
      line-number order and holds each matching row as often as the table does. */
  lemma FindApplicableLinesSpec(ctx: PricingContext, cfg: PricingConfiguration, table: seq<PricingLine>)
    ensures forall l :: l in FindApplicableLines(ctx, cfg, table) <==> l in table && LineMatches(ctx, cfg, l)
    ensures SortedBy(FindApplicableLines(ctx, cfg, table), LineNumber)
    ensures multiset(FindApplicableLines(ctx, cfg, table)) == multiset(MatchingLines(ctx, cfg, table))
  {
    SortBySorted(MatchingLines(ctx, cfg, table), LineNumber);
    var r := FindApplicableLines(ctx, cfg, table);
    forall l ensures l in r <==> l in MatchingLines(ctx, cfg, table) {
      assert l in multiset(r) <==> l in multiset(MatchingLines(ctx, cfg, table));
    }
  }

  /** The first returned line has the smallest line number of all matching lines. */
  lemma FirstLineIsLowest(ctx: PricingContext, cfg: PricingConfiguration, table: seq<PricingLine>, l: PricingLine)
    requires l in table && LineMatches(ctx, cfg, l)
    ensures FindApplicableLines(ctx, cfg, table) != []
    ensures FindApplicableLines(ctx, cfg, table)[0].lineNumber <= l.lineNumber
  {
    FindApplicableLinesSpec(ctx, cfg, table);
    var r := FindApplicableLines(ctx, cfg, table);
    var k :| 0 <= k < |r| && r[k] == l;
    if k > 0 { assert LineNumber(r[0]) <= LineNumber(r[k]); }
  }

  /** A slot holding '~' satisfies its criterion whatever the context says:
      replacing the configuration's criterion for that slot by any value, or
      adding one, does not change whether the line matches. */
  lemma WildcardMatchesAnything(ctx: PricingContext, cfg: PricingConfiguration, line: PricingLine, k: int, v: string)
    requires 0 <= k < 5 && HasWildcard(line.criteria[k])
    ensures var c := PricingCriteria(ctx, cfg);
            CriteriaMatch(c, line) == CriteriaMatch(c[k := v], line)
  {
  }

  /** An unrecognised (table, field) mapping imposes no condition: whatever the
      line holds in that slot does not change whether it matches. */
  lemma UnrecognisedMappingIgnored(ctx: PricingContext, cfg: PricingConfiguration, line: PricingLine, i: int, other: string)
    requires 0 <= i < 5
    requires CriterionValue(ctx, cfg.tables[i], cfg.fields[i]) == ""
    ensures LineMatches(ctx, cfg, line) == LineMatches(ctx, cfg, line.(criteria := line.criteria[i := other]))
  {
    var line' := line.(criteria := line.criteria[i := other]);
    var c := PricingCriteria(ctx, cfg);
    assert i in c ==> c[i] == "";
    assert forall k :: 0 <= k < 5 && k != i ==> line'.criteria[k] == line.criteria[k];
  }
}
