# Sage X3 pricing, tax-code determination and e-mail sync classification

This project models three parts of the sales back end of a Sage X3
integration and proves properties of the model.

- **The pricing engine** (`SageX3PricingEngine`). The engine works
  through the active pricing configurations (SPRICCONF rows with
  `PLIENAFLG_0 = '2'`) by ascending priority `PIO_0`. For each one it
  takes the configuration's first matching pricing line (SPRICLIST, by
  ascending `PLILIN_0`). A matching line:
  - sets the base price when its price is positive;
  - contributes the discounts and fees its nine `DCGVAL_i` columns carry,
    read through the configuration's price structure (PRICSTRUCT);
  - contributes the free goods (gratuités) its FOC fields describe;
  - can replace the commission coefficient.

  A grouped configuration (`PLITYP_0 = '2'`) stops the loop. One final
  adjustment pass then turns the base price and the collected adjustments
  into the unit price:
  - the adjustments are sorted by column;
  - each is a fee or a discount, an amount or a cumulative or cascading
    percentage, applied per unit, per line or per document;
  - the final price is clamped at zero and rounded half-up to cents.

  The engine object is a `class` (`PricingEngine.Engine`) whose one
  mutable field is the price-structure cache. The rest of the engine is
  pure functions over an immutable `Dataset` holding the SPRICCONF,
  SPRICLIST, PRICSTRUCT and ITMMASTER tables.
- **Tax-code determination** (`DeterminationTaxe`). The sale data is
  validated (both codes present, each at most ten characters). Search
  criteria are built from it, and the first TABVAC rule that passes the
  additional checks gives the tax code. Its TABVAT details are then read.
  Every failure is caught and returned as an `{'erreur': …}` outcome,
  which is modelled as `TaxError(message)`.
- **E-mail sync classification**. Three pieces are modelled:
  - the name loop of `extract_zip`: a `.db` entry is filed under the key
    `db`, and a `.csv` entry under its file stem;
  - `detect_sync_type`: subject keywords first, then the archive contents;
  - the `csv_files` filter, which keeps every key except `db`.

Decimals are exact `real`s. Strings are `seq<char>`. The SQL queries are
functions over the table contents: `WHERE` is a filter and `ORDER BY` is a
stable sort (`Sorting.SortBy`). `ROUND_HALF_UP` quantisation is
`Rounding.RoundHalfUp`, which rounds ties away from zero.

The modules follow the source:
- `Wrappers`, `Sorting` and `Rounding` hold the shared helpers.
- `PricingModel` holds the records (context, configuration, line,
  adjustment, result).
- `PriceStructure` decodes PRICSTRUCT.
- `LineMatching` holds the criteria and the line query.
- `Adjustments` holds the line price, the base price and the column
  extraction.
- `AdjustmentPass` and `AdjustmentLaws` hold `apply_sage_x3_adjustments`
  and its laws.
- `FreeGoods` and `FreeGoodsLaws` hold the free-goods mechanisms and their
  laws.
- `PricingEngine` and `PricingEngineLaws` hold `calculate_pricing`.
- `TaxDetermination` and `EmailSync` hold the other two parts.

The loops of the source are methods proved against the functions that
specify them:
- `CalculatePricing`, `ApplySageX3Adjustments` and `CalculateAdjustments`;
- `BuildPricingCriteria` and `DecodeStructureRow`;
- `BuildCriteria`, `ApplyFirstValidRule` and `DetermineTaxCode`;
- `ClassifyEntries`.

Lemmas about those functions state what the source promises.

Where the code and its own demonstration text disagree, the model follows
the code:
- `test_free_items_scenarios` tests `quantity > focqtymin`;
  `calculate_n_for_m_free_items` tests `>=` at line 605.
- The "first valid rule" of the tax module is always the first rule,
  because both additional checks accept every rule (`FirstRuleDecides`).

## Model

| member | source | states |
|---|---|---|
| Rounding.RoundHalfUp | src/pricing/service.py:613 | the whole number nearest to x, a tie going away from zero (within half a unit on either side), never negative for a non-negative x |
| Rounding.RoundCents | src/pricing/service.py:1012 | a whole number of cents, non-negative and within half a cent of a non-negative x |
| Rounding.RoundCentsUnique | src/pricing/service.py:1012 | any whole number of cents within the half-cent window of x is the rounding of x |
| Rounding.RoundHalfUpMonotone | src/pricing/service.py:613 | rounding to a whole number preserves order |
| Rounding.RoundCentsMonotone | src/pricing/service.py:1012 | rounding to cents preserves order |
| Rounding.RoundCentsIdempotent | src/pricing/service.py:1012 | an amount already in whole cents is left unchanged |
| Sorting.SortBy | src/pricing/service.py:872 | the sort is a permutation of its input (same multiset, same length) |
| Sorting.SortBySorted | src/pricing/service.py:872 | the sort orders its result by ascending key |
| Sorting.SortByOfIncreasing | src/pricing/service.py:872 | a list already strictly ordered by key is returned unchanged |
| Sorting.SortByPermutationInvariant | src/pricing/service.py:872 | with distinct keys, two permutations of the same items sort to the same list |
| Sorting.SortByStable | src/pricing/service.py:872 | the items of any one key come out of the sort in the order they went in |
| Sorting.SortByOrderedAndStable | src/pricing/service.py:872 | the sort is ordered by key and keeps the input order among items of equal key |
| PricingModel.EmptyResult | src/pricing/service.py:50-67 | a fresh result: prices 0, no adjustments, no free goods, commission coefficient 1, empty rule, reason and structure codes, with the context's currency and unit |
| PricingModel.Discounts | src/pricing/service.py:70-73 | exactly the result's adjustments whose type is discount |
| PricingModel.Fees | src/pricing/service.py:75-77 | exactly the result's adjustments whose type is fee |
| PricingModel.DiscountsAndFeesPartition | src/pricing/service.py:69-77 | discounts and fees together are exactly the adjustments, as a multiset and by count |
| PriceStructure.FindStructureRow | src/pricing/service.py:151-157 | no row exactly when no PRICSTRUCT row has the code; a found row is from the table and has the code |
| PriceStructure.FindStructureRowFirst | src/pricing/service.py:151-157 | the row found is the first with the code |
| PriceStructure.StructureForShape | src/pricing/service.py:159-189 | an unknown code gives the empty structure; only columns 0 to 8 appear; a column appears exactly when its three codes are all non-zero, and then holds that column's codes and description from the row |
| PriceStructure.DecodeStructureRow | src/pricing/service.py:161-187 | the loop over the nine columns builds exactly the decoded structure of the row |
| PricingEngine.Engine.constructor | src/pricing/service.py:88-97 | the engine starts with its dataset and an empty, consistent structure cache |
| PricingEngine.Engine.GetPriceStructure | src/pricing/service.py:122-192 | the structure is the decoded PRICSTRUCT row; a cached entry is returned as it was; afterwards the code is cached with that structure and the cache stays consistent |
| PricingEngine.Engine.ApplyPricingLine | src/pricing/service.py:794-823 | applying one line gives the line's effect on the running result, keeps the cache consistent and loses no cached code |
| PricingEngine.Engine.CalculatePricing | src/pricing/service.py:748-843 | the loop and final pass give exactly the specified pricing result, keep the cache consistent and lose no cached code |
| PricingEngine.EnabledConfigurations | src/pricing/service.py:203-207 | exactly the configurations whose enable flag is '2', each as often as in the table |
| PricingEngine.ActiveConfigurations | src/pricing/service.py:194-218 | the active configurations are exactly the enabled ones, each as often as in the table, in ascending PIO_0, with configurations of equal priority kept in table order |
| PricingEngine.FirstLineKnown | src/pricing/service.py:277-278 | the first applicable line has the configuration's PLI, so its SPRICCONF row exists |
| PricingEngine.ActiveFromDataset | src/pricing/service.py:194-218 | each active configuration is a row of SPRICCONF |
| PricingEngine.FreeItemsOfLine | src/pricing/service.py:817-819 | a line contributes at most one free-goods award, and it has a positive quantity in the ordered unit |
| LineMatching.BuildPricingCriteria | src/pricing/service.py:231-254 | the criteria have a key for exactly the criterion slots whose field name is set; each value is the context value that the table and field select, or '' |
| LineMatching.MatchingLines | src/pricing/service.py:273-305 | exactly the SPRICLIST lines satisfying every WHERE condition (PLI, date window, criteria with the '~' wildcard, quantity band with 0 as no bound, currency, unit), each as often as in the table |
| LineMatching.FindApplicableLinesSpec | src/pricing/service.py:309-328 | the applicable lines are exactly the matching lines, in ascending PLILIN_0 order |
| LineMatching.FirstLineIsLowest | src/pricing/service.py:790 | when some line matches, there is an applicable line, and the first one has the lowest line number among the matches |
| LineMatching.WildcardMatchesAnything | src/pricing/service.py:289-292 | a line slot containing '~' accepts any value: changing or adding the configuration's criterion for that slot does not change whether the line matches |
| LineMatching.UnrecognisedMappingIgnored | src/pricing/service.py:251-252 | a criterion slot with an unrecognised table and field puts no constraint on the line's criterion |
| Adjustments.ItemBasePrice | src/pricing/service.py:364-383 | 0 for an item missing from ITMMASTER; otherwise the BASPRI_0 of a row for the item |
| Adjustments.PriceFromLineModes | src/pricing/service.py:342-360 | price treatments '2' and '3' give the line price; treatment '1' with a base-price field gives that price times the coefficient |
| Adjustments.PriceFromLineZero | src/pricing/service.py:342-362 | an unknown treatment gives 0, and so does treatment '1' without a base-price field or without an ITMMASTER row for the item |
| Adjustments.AdjustmentAt | src/pricing/service.py:402-458 | a column yields an adjustment exactly when its value is non-zero and the structure configures it with valid codes; the adjustment has the column's index, the absolute value (positive) and the decoded type, calculation and basis, and the column's description |
| Adjustments.AdjustmentsUpToSpec | src/pricing/service.py:402-458 | the first n columns yield adjustments in strictly increasing column order, below n, exactly for the columns that yield one |
| Adjustments.ExtractAdjustmentsSpec | src/pricing/service.py:399-466 | at most nine adjustments, in increasing column order; a column appears exactly when it yields an adjustment, and each is that column's adjustment |
| Adjustments.CalculateAdjustments | src/pricing/service.py:385-466 | the loop over the nine columns returns exactly the extracted adjustments, ordered by column |
| AdjustmentPass.SortedAdjustments | src/pricing/service.py:872 | a permutation of the adjustments (same multiset) in ascending column order, adjustments of the same column kept in arrival order |
| AdjustmentPass.SortedAdjustmentsOfIncreasing | src/pricing/service.py:872 | adjustments already in increasing column order are not reordered |
| AdjustmentPass.StepAmount | src/pricing/service.py:910-923 | an amount adjustment contributes exactly its value, whatever its basis |
| AdjustmentPass.Step | src/pricing/service.py:906-1002 | after a per-unit adjustment the line total is the unit price times the quantity; after a per-line or per-document adjustment the unit price is the line total divided by the quantity |
| AdjustmentPass.ClampAtZero | src/pricing/service.py:1007-1009 | the result is non-negative and at least x; a non-negative x is unchanged |
| AdjustmentPass.FinalUnitPrice | src/pricing/service.py:845-1037 | with no adjustments or a zero base price the base price is returned untouched; otherwise the result is a non-negative whole number of cents |
| AdjustmentPass.AdjustmentAmount | src/pricing/service.py:910-923 | an amount is the value itself; a cumulative percentage is taken of the current figure; a cascading percentage is taken of the original figure |
| AdjustmentPass.ApplyUnitAdjustment | src/pricing/service.py:907-937 | the running unit price and line total after a per-unit adjustment are the specified step |
| AdjustmentPass.ApplyLineAdjustment | src/pricing/service.py:939-1002 | the running figures after a per-line or per-document adjustment are the specified step |
| AdjustmentPass.ApplyOneAdjustment | src/pricing/service.py:904-1002 | dispatching on the basis gives the specified step |
| AdjustmentPass.ApplySageX3Adjustments | src/pricing/service.py:845-1037 | the method's price is the specified final unit price: the base price when there is nothing to apply, otherwise non-negative whole cents |
| AdjustmentLaws.FinalUnitPricePermutation | src/pricing/service.py:871-872 | the order in which adjustments arrive does not matter: any permutation of adjustments on distinct columns gives the same final price |
| AdjustmentLaws.FeesNeverLower | src/pricing/service.py:868-1012 | with a positive base and quantity, non-negative fees never bring the price below the rounded base price |
| AdjustmentLaws.DiscountsNeverRaise | src/pricing/service.py:868-1012 | with a positive base and quantity, non-negative discounts whose cumulative percentages are at most 100 never bring the price above the rounded base price |
| AdjustmentLaws.DiscountsAboveHundredCanRaise | src/pricing/service.py:915-918 | two 300% cumulative unit discounts on 100 give 400: the discount bound needs percentages of at most 100 |
| AdjustmentLaws.ZeroBaseSkipsDivision | src/pricing/service.py:868-869 | a zero base price is returned before any division, so a zero quantity with a per-line fee still gives 0 |
| AdjustmentLaws.CascadingUnitClosedForm | src/pricing/service.py:920-923 | per-unit cascading percentages shift the unit price by the base times the sum of the signed percentages |
| AdjustmentLaws.FinalUnitPriceOfPass | src/pricing/service.py:868-1012 | for adjustments in column order and a pass ending on whole cents, the final price is that value |
| AdjustmentLaws.LineFeeExample | src/pricing/service.py:1107-1121 | base 100, quantity 10, a 10% unit discount then a 50 line fee give 95.00 |
| AdjustmentLaws.DiscountThenLineFeeExample | src/pricing/service.py:871-872 | the same two adjustments give 95.00 in either arrival order |
| AdjustmentLaws.CumulativeExample | src/pricing/service.py:1137-1139 | cumulative 10% then 5% on 100 give 85.50 |
| AdjustmentLaws.CascadingExample | src/pricing/service.py:1142-1145 | cascading 10% then 5% on 100 give 85.00 |
| AdjustmentLaws.FlowSteps | src/pricing/service.py:1342-1349 | the three steps of the worked example: 100 to 90, 90 to 85.50, then a 100 line fee on 4275 giving 4375 and 87.50 per unit |
| AdjustmentLaws.FlowPass | src/pricing/service.py:1339-1349 | the pass of the worked example ends at unit price 87.50 and line total 4375 |
| AdjustmentLaws.StructureFlowExample | src/pricing/service.py:1339-1350 | the worked example's final unit price is 87.50 |
| FreeGoods.TrimLeft | src/pricing/service.py:506 | removes exactly the leading white space, white space being the characters Python's `str.isspace` accepts |
| FreeGoods.TrimRight | src/pricing/service.py:506 | removes exactly the trailing white space, white space being the characters Python's `str.isspace` accepts |
| FreeGoods.Strip | src/pricing/service.py:506 | the result neither starts nor ends with white space |
| FreeGoods.StripEmptyIffBlank | src/pricing/service.py:535 | the stripped item reference is empty exactly when every character is white space in the sense of `str.isspace` |
| FreeGoods.ThresholdAward | src/pricing/service.py:601-643 | below the threshold nothing; at or above it, Seuil gives FOCQTY once and Multiple gives FOCQTY per rounded bucket; any other attribution, or a Multiple without a bucket, gives nothing |
| FreeGoods.Scaled | src/pricing/service.py:614 | no buckets give nothing; a non-negative bucket count of a non-negative FOCQTY is non-negative, a non-positive one non-positive |
| FreeGoods.NForMQuantity | src/pricing/service.py:588-643 | nothing without a positive threshold or for an attribution other than '1' or '2'; a positive quantity threshold takes precedence: below it nothing, at or above it Seuil gives FOCQTY and Multiple gives FOCQTY per half-up rounded bucket of FOCQTYBKT in the excess over the threshold (nothing for a zero bucket); otherwise the amount threshold does the same with the line amount and FOCAMTBKT |
| FreeGoods.OtherItemQuantity | src/pricing/service.py:655-703 | nothing without a positive threshold or for an attribution other than '1' or '2'; a positive quantity threshold takes precedence: below it nothing, at or above it Seuil gives FOCQTY and Multiple gives FOCQTY per half-up rounded bucket of FOCQTYBKT in the whole ordered quantity (nothing for a zero bucket); otherwise the amount threshold does the same with the whole line amount and FOCAMTBKT |
| FreeGoods.AwardIfPositive | src/pricing/service.py:645-651 | one award of the quantity when it is positive, none otherwise |
| FreeGoods.NForMAwards | src/pricing/service.py:645-653 | at most one award, none exactly when the free quantity is not positive; an award is of the ordered item, positive, in the ordered unit, labelled N pour M |
| FreeGoods.OtherItemAwards | src/pricing/service.py:704-712 | at most one award, none exactly when the free quantity is not positive; an award is of FOCITMREF, positive, in the ordered unit, labelled Autre Article |
| FreeGoods.Relabel | src/pricing/service.py:743-744 | the same awards with the 'Total Commande' label |
| FreeGoods.OrderTotalAwards | src/pricing/service.py:714-746 | at most one award, of FOCITMREF when one is named and of the ordered item otherwise, positive, in the ordered unit, labelled Total Commande |
| FreeGoods.ConfigurationOf | src/pricing/service.py:489-501 | the first SPRICCONF row with the line's PLI |
| FreeGoodsLaws.CalculateFreeItemsSpec | src/pricing/service.py:468-560 | no free goods when FOCPRO is not '1', '2' or '3', when FOCQTY is not positive, or when Autre Article has an empty item reference; otherwise one award exactly when the mechanism's quantity is positive, with the item, unit and label the mechanism names |
| FreeGoods.CalculateFreeItems | src/pricing/service.py:468-560 | a line yields at most one award, and any award has a positive quantity in the ordered unit |
| FreeGoodsLaws.NoThresholdNoAward | src/pricing/service.py:598-643 | a line with neither a quantity nor an amount threshold awards nothing |
| FreeGoodsLaws.BelowQuantityThresholdNoAward | src/pricing/service.py:601-621 | an order below the quantity threshold awards nothing |
| FreeGoodsLaws.BelowAmountThresholdNoAward | src/pricing/service.py:623-643 | an order whose amount is below the amount threshold awards nothing |
| FreeGoodsLaws.SeuilAwardsOnce | src/pricing/service.py:605-608 | at the quantity threshold, Seuil awards exactly FOCQTY of the ordered item |
| FreeGoodsLaws.MultipleCountsExcessBuckets | src/pricing/service.py:610-614 | Multiple awards the rounded number of buckets in the excess over the threshold, times FOCQTY |
| FreeGoodsLaws.ScaledIsProduct | src/pricing/service.py:614 | the bucket count times FOCQTY is the product |
| FreeGoodsLaws.BucketsMonotone | src/pricing/service.py:613-614 | more excess never gives fewer free units |
| FreeGoodsLaws.MoreQuantityNeverFewerFree | src/pricing/service.py:588-712 | with a quantity threshold, ordering more never yields fewer free units, for either mechanism |
| FreeGoodsLaws.OtherItemNeverBelowNForM | src/pricing/service.py:677-680 | Autre Article counts buckets in the whole quantity, so it never gives fewer units than N pour M, which counts only the excess |
| FreeGoodsLaws.SeuilExample | src/pricing/service.py:1367-1380 | 20 ordered with threshold 10 and 2 free give 2 free units of the same item |
| FreeGoodsLaws.MultipleExample | src/pricing/service.py:1382-1396 | 20 ordered, beyond 5 one free per bucket of 3, give 5 free units |
| FreeGoodsLaws.OtherItemExample | src/pricing/service.py:677-680 | the same line with Autre Article and reference ' GIFT01 ' gives 7 units of GIFT01 |
| FreeGoodsLaws.StripExample | src/pricing/service.py:506 | ' GIFT01 ' strips to 'GIFT01' |
| FreeGoodsLaws.SeparatorReferenceIsBlank | src/pricing/service.py:506 | a FOCITMREF of U+001F and U+00A0 strips to the empty reference, so Autre Article awards nothing for it |
| PricingEngineLaws.AppliedRulesFromConfigs | src/pricing/service.py:779-790 | there are no more applied rules than configurations, and each applied rule is a configuration of the list with its first applicable line |
| PricingEngineLaws.AppliedRulesKnown | src/pricing/service.py:489-491 | every applied line has its configuration's PLI, a row of SPRICCONF |
| PricingEngineLaws.GroupedStopsTheLoop | src/pricing/service.py:827-829 | only the last applied rule can come from a grouped configuration |
| PricingEngineLaws.AppliedRulesOrdered | src/pricing/service.py:779 | configurations in priority order give applied rules in priority order |
| PricingEngineLaws.RulesInPriorityOrder | src/pricing/service.py:204-206 | the rules the engine applies come in ascending PIO_0 |
| PricingEngineLaws.ApplyLineFields | src/pricing/service.py:795-823 | one line's effect, field by field: a positive price sets the base and unit price, PLI_0 as rule code and PLISTC_0 as reason and structure code, and otherwise leaves them; adjustments and free goods are appended; a non-zero COMCOE_0 sets the coefficient |
| PricingEngineLaws.PricingLoopSpec | src/pricing/service.py:779-829 | the loop's result folds the applied rules over the starting result |
| PricingEngineLaws.PricingLoopCodes | src/pricing/service.py:779-829 | the loop's unit price is the last positive price and its rule, reason and structure codes are those of the last priced rule, each falling back to the starting value |
| PricingEngineLaws.PricingFolded | src/pricing/service.py:774-832 | pricing folds the applied rules over the empty result, every field included, and then applies the adjustment pass |
| PricingEngineLaws.PricingSpec | src/pricing/service.py:748-832 | the result collects every applied rule's adjustments and free goods in order; the base price is the last positive price (0 if none); the rule code is that rule's PLI_0 and the reason and structure codes its PLISTC_0 ('' if none); the coefficient is the last non-zero one (1 if none); the unit price is the adjustment pass over these; currency and unit come from the context |
| PricingEngineLaws.PricingIsLoop | src/pricing/service.py:774-832 | pricing is the loop from the empty result followed by the pass, also without configurations |
| PricingEngineLaws.LastPositivePriceIsLast | src/pricing/service.py:796-801 | the base price is the price of the last rule with a positive price, or the default when none is positive |
| PricingEngineLaws.LastPricedRuleIsLast | src/pricing/service.py:796-801 | no priced rule exactly when no rule has a positive price; otherwise the priced rule is the last one with a positive price |
| PricingEngineLaws.LastPositivePriceOfLastPricedRule | src/pricing/service.py:796-801 | the base price and the codes come from the same rule: the last positive price is the price of the last priced rule, or the default when there is none |
| PricingEngineLaws.PricingNonNegative | src/pricing/service.py:796-832 | base and unit price are never negative; a priced result with adjustments is a whole number of cents |
| PricingEngineLaws.NoMatchingLineGivesEmptyResult | src/pricing/service.py:774-787 | when no active configuration has a matching line the result is the empty one |
| PricingEngineLaws.NoRulesLeavesResult | src/pricing/service.py:785-787 | a loop that applies no rule leaves the running result unchanged |
| TaxDetermination.ValidationError | src/taxe/components/__init__.py:46-61 | no error exactly when both codes are present and non-empty and neither is longer than ten characters; a missing regime is reported before a missing level |
| TaxDetermination.LengthLimitInclusive | src/taxe/components/__init__.py:57-61 | a ten-character regime passes validation, an eleven-character one fails with the regime message |
| TaxDetermination.PresenceCheckedFirst | src/taxe/components/__init__.py:50-54 | a missing level is reported, or a missing regime before it, whatever the lengths |
| TaxDetermination.BuildCriteria | src/taxe/components/__init__.py:63-83 | the criteria built step by step are the specified criteria |
| TaxDetermination.SearchCriteriaSpec | src/taxe/components/__init__.py:67-83 | the regime and level are always set under their _0 keys, with ENAFLG_0 = 2; legislation, group and tax type are set exactly when they are truthy; there are no other keys |
| TaxDetermination.SearchAsWrittenAlwaysFails | src/taxe/components/__init__.py:152-155 | the query as written looks up 'VACBPR' in criteria that only have 'VACBPR_0', so it always fails with KeyError 'VACBPR' |
| TaxDetermination.SearchParametersOfCriteria | src/taxe/components/__init__.py:141-168 | reading the _0 keys, the query's parameters are the regime, the level, and the optional legislation and group |
| TaxDetermination.AdditionalCriteriaHold | src/taxe/components/__init__.py:100-139 | the additional checks accept every rule |
| TaxDetermination.RuleCode | src/taxe/components/__init__.py:96 | CODE_TAXE when it is truthy, otherwise CODTAXE; the result is truthy exactly when one of them is |
| TaxDetermination.FirstAcceptedCodeSpec | src/taxe/components/__init__.py:89-98 | None when no rule is accepted; otherwise the code of the first accepted rule |
| TaxDetermination.ApplyFirstValidRule | src/taxe/components/__init__.py:85-98 | the early-return loop returns the specified first valid rule's code |
| TaxDetermination.FirstRuleDecides | src/taxe/components/__init__.py:85-139 | no rules give None; otherwise the first rule's code, even an empty one |
| TaxDetermination.OutcomeOfRules | src/taxe/components/__init__.py:26-44 | a code exactly when the first valid rule names a truthy code that TABVAT knows, with its rate, account and exemption defaulting to 0, '' and False; otherwise 'no code found' or the missing-details error |
| TaxDetermination.AsWrittenNeverFindsCode | src/taxe/components/__init__.py:16-44 | as written, every sale data gives an error, and valid data gives the error "'VACBPR'" |
| TaxDetermination.DetermineTaxCode | src/taxe/components/__init__.py:12-44 | the method's outcome is the specified corrected determination |
| TaxDetermination.DetermineSpec | src/taxe/components/__init__.py:16-44 | a code is found exactly when the data is valid, there is a rule, the first rule names a code and TABVAT knows it; the code is that rule's; any other outcome is the validation message, 'no code found' or the missing-details error |
| EmailSync.Upper | database/get_data_email.py:474 | same length, each character upper-cased |
| EmailSync.Lower | database/get_data_email.py:461 | same length, each character lower-cased |
| EmailSync.BaseName | database/get_data_email.py:463 | the part of the path after the last '/': contains no '/', ends the path, and is either the whole path or preceded by a '/' |
| EmailSync.CsvStem | database/get_data_email.py:463-464 | a name ending in .csv (any case) has a base name of at least four characters; its stem is that base name without the last four, unless the base name is the suffix alone |
| EmailSync.CsvEntryKey | database/get_data_email.py:461-464 | a .csv entry is filed under its stem |
| EmailSync.DbCsvEntryKey | database/get_data_email.py:461-464 | a file whose base name is 'db' with the '.csv' suffix in any letter case is filed under the same key 'db' as the database |
| EmailSync.PlainCsvEntryKey | database/get_data_email.py:461-464 | a .csv name without a directory part is filed under the name less its last four characters |
| EmailSync.UpperDbCsvKeepsCase | database/get_data_email.py:463-464 | 'DB.csv' is filed under 'DB': the stem keeps its letter case |
| EmailSync.ClassifyEntries | database/get_data_email.py:455-467 | the loop over the archive's names builds exactly the specified map |
| EmailSync.ClassifiedKeys | database/get_data_email.py:459-465 | the map's keys are exactly the keys of the .db and .csv entries; other entries are skipped |
| EmailSync.ClassifiedLastWins | database/get_data_email.py:459-465 | each key holds the joined path of the last entry filed under it |
| EmailSync.JoinPath | database/get_data_email.py:460 | the joined path ends with the name; an absolute name replaces the directory; otherwise the path starts with the directory, with a '/' right before the name when the directory is not empty |
| EmailSync.CsvFiles | database/get_data_email.py:771 | every entry but 'db', with its path |
| EmailSync.FullKeywordWins | database/get_data_email.py:474-479 | a subject containing FULL DATABASE or INITIAL, in any case, means a full sync, whatever the archive holds |
| EmailSync.DeltaKeywordWins | database/get_data_email.py:481-483 | a subject containing DELTA or CHANGES, in any case, and neither full keyword, means a delta sync, whatever the archive holds |
| EmailSync.ContentsDecide | database/get_data_email.py:485-497 | without a subject keyword, the sync is a delta sync exactly when there is no 'db' entry and some other entry |
| EmailSync.LowerCaseKeywordExample | database/get_data_email.py:474-479 | the subject 'initial' means a full sync |
| EmailSync.DeltaKeywordExample | database/get_data_email.py:481-483 | the subject 'delta' means a delta sync even with a database in the archive |
| EmailSync.CsvArchiveIsDelta | database/get_data_email.py:485-493 | with no subject, an archive of one CSV table is a delta sync |
| EmailSync.CsvNamedDbIsFull | database/get_data_email.py:487-489 | with no subject, an archive whose only entry is 'db.csv' counts as a full sync |

## Left out

- The SQLite connection, the cursors and `connect`/`disconnect`/the
  context manager are not modelled. Each query is a function over the
  table contents passed in as a `Dataset`.
- Logging, the `print` traces, `get_focpro_description` and
  `get_foctyp_description` are left out. They do not affect any result.
- `apply_currency_conversion` and `apply_unit_conversion` are left out.
  Both return the result unchanged, so the model has no conversion step.
- The demonstration functions `create_sample_context`,
  `test_calculation_types`, `test_pricing_engine_complete` and
  `explain_sage_x3_pricing_structure` are not modelled as operations.
  Their worked numbers are proved as example lemmas.
- Decimal arithmetic is exact `real` arithmetic. Decimal's 28-digit
  context precision and the `float(...)` conversion of the quantity in the
  line query are not modelled.
- Dates are integers compared by order. The `strftime` text comparison is
  not modelled.
- PricingEngine.Engine.CalculatePricing: requires a non-zero quantity.
  The source raises a decimal division error only when a non-zero base
  price meets a per-line or per-document adjustment and a zero quantity.
  The adjustment pass (`AdjustmentPass.FinalUnitPrice` and
  `ApplySageX3Adjustments`, through `PassDefined`) requires exactly that
  this does not happen.
- Sorting.SortBy: SQL leaves the order of rows with equal PIO_0 or
  PLILIN_0 unspecified. The model keeps table order for ties, as Python's
  `sorted` does (`SortByStable`).
- FreeGoods.ConfigurationOf: FOCPRO_0 and FOCTYP_0 are re-read from the
  first SPRICCONF row with the line's PLI. The case where no such row
  exists cannot arise for lines the engine applies (`FirstLineKnown`), so
  it is not modelled.
- FreeGoods.OrderTotalAwards: the source approximates the
  order-total mechanism from the single line. The model reproduces that
  approximation, not a real order total.
- AdjustmentPass.StepAmount: the contract states only the amount case.
  The percentage cases are stated by the method `AdjustmentAmount`, whose
  result the two `Apply…Adjustment` methods show equal to this function.
- FreeGoods.Scaled: bucket count times FOCQTY is written as repeated
  addition, and `FreeGoodsLaws.ScaledIsProduct` proves it equal to the
  product.
- EmailSync.Upper, EmailSync.Lower: ASCII case mapping only. Python's
  Unicode case mapping is not modelled.
- EmailSync.BaseName: POSIX paths with '/' as the only separator.
  `os.path.join` is modelled as joining with one '/'.
- A `Subject` header object, as opposed to a string, is not modelled.
  The subject is an optional string.
- POP3 access, opening and extracting the zip file, `merge_delta_into_db`
  and the rest of the mail-sync script are left out. Their effects are I/O.
- AdjustmentLaws.DiscountsNeverRaise: holds only when each cumulative
  percentage is at most 100. Larger cumulative discounts make the running
  price negative and then raise it (`DiscountsAboveHundredCanRaise`).
- TaxDetermination.DetermineTaxCode: the TABVAC query's result is a
  parameter (`rules`, in COD order). The TABVAT lookup is a parameter
  (`details`).
- The TABVAC query's fixed condition `ENAFLG = 1` belongs to the `rules`
  parameter. The criteria also hold `ENAFLG_0 = 2` and the tax type
  `VATTYP_0`, but the query never reads either, and the model keeps them
  only in the criteria.
- Rule and detail rows are dictionary-like records with optional fields.
  Rows returned as plain tuples are not modelled.
- Python's truthiness on the sale-data fields is modelled for strings
  only. Empty and missing fields are falsy.
- The module-level demonstration code at the end of
  `src/taxe/components/__init__.py` is not part of this model.

## Findings

| source | as written | input that shows it | evidently intended | confidence | as-written member | corrected member |
|---|---|---|---|---|---|---|
| src/taxe/components/__init__.py:153 | the tax-rule query reads the criterion `criteres['VACBPR']`, but `_construire_criteres` stores it under 'VACBPR_0' (line 68), so the lookup raises KeyError and `determiner_code_taxe` returns `{'erreur': "'VACBPR'"}` | any valid sale data, e.g. regime 'NAT' and level 'NOR' | read the keys the criteria are built with ('VACBPR_0', 'VACITM_0', 'LEG_0', 'GRP_0') and return the first rule's tax code | not executed | TaxDetermination.AsWrittenNeverFindsCode | TaxDetermination.DetermineSpec |
