/**
 * Tax-code determination (`DeterminationTaxe` in
 * src/taxe/components/__init__.py): validate the sale data, build the TABVAC
 * search criteria, take the tax code of the first rule that passes the
 * additional checks, and read its TABVAT details. Every failure is returned
 * as an error outcome, never raised. The TABVAC rows found by the query are
 * an input sequence and the TABVAT lookup is a function parameter.
 */
module TaxDetermination {
  import opened Wrappers

  /** `donnees_vente`: a key that is absent from the dictionary is `None`. */
  datatype SaleData = SaleData(
    regime: Option<string>,       // regime_taxe_tiers
    level: Option<string>,        // niveau_taxe_article
    legislation: Option<string>,  // legislation
    group: Option<string>,        // groupe_societe
    taxType: Option<string>)      // type_taxe

  /** Python truthiness of an optional string: present and non-empty. */
  predicate Truthy(v: Option<string>) {
    v.Some? && v.value != ""
  }

  /** A value of the criteria dictionary: a text code or the integer flag. */
  datatype CriterionValue = Text(text: string) | Flag(flag: int)

  predicate TruthyValue(v: CriterionValue) {
    match v
    case Text(s) => s != ""
    case Flag(n) => n != 0
  }

  type Criteria = map<string, CriterionValue>

  /** A TABVAC row, as a dictionary: absent columns are `None`. */
  datatype TaxRule = TaxRule(codeTaxe: Option<string>, codTaxe: Option<string>,
                             legislation: Option<string>, group: Option<string>)

  /** A TABVAT row, as a dictionary: absent columns are `None`. */
  datatype TaxDetails = TaxDetails(rate: Option<real>, account: Option<string>, exempt: Option<bool>)

  /** The dictionary `determiner_code_taxe` returns: the code with its
      details, or `{'erreur': message}`. */
  datatype TaxOutcome =
    | TaxCode(code: string, rate: real, account: string, exempt: bool)
    | TaxError(message: string)

  const MaxCodeLength := 10

  function MissingFieldMessage(field: string): string {
    "Le champ " + field + " est obligatoire"
  }

  const RegimeTooLongMessage := "Le régime de taxe tiers ne peut dépasser 10 caractères"
  const LevelTooLongMessage := "Le niveau de taxe article ne peut dépasser 10 caractères"
  const NoCodeMessage := "Aucun code taxe trouvé pour ces critères"
  /** `str(e)` of the AttributeError raised by `.get` on a missing TABVAT row. */
  const MissingDetailsMessage := "'NoneType' object has no attribute 'get'"

  /** `_valider_donnees_entree`: the message of the first failed check, in the
      source's order (both presences, then both lengths), or `None`. */
  function ValidationError(d: SaleData): (r: Option<string>)
    ensures r.None? <==> Truthy(d.regime) && Truthy(d.level)
                         && |d.regime.value| <= MaxCodeLength && |d.level.value| <= MaxCodeLength
    ensures !Truthy(d.regime) ==> r == Some(MissingFieldMessage("regime_taxe_tiers"))
    ensures Truthy(d.regime) && !Truthy(d.level) ==> r == Some(MissingFieldMessage("niveau_taxe_article"))
  {
    if !Truthy(d.regime) then Some(MissingFieldMessage("regime_taxe_tiers"))
    else if !Truthy(d.level) then Some(MissingFieldMessage("niveau_taxe_article"))
    else if |d.regime.value| > MaxCodeLength then Some(RegimeTooLongMessage)
    else if |d.level.value| > MaxCodeLength then Some(LevelTooLongMessage)
    else None
  }

  /** The criteria `_construire_criteres` builds: the two mandatory codes,
      ENAFLG_0 = 2, and each optional code only when it is truthy. */
  function SearchCriteria(d: SaleData): Criteria
    requires d.regime.Some? && d.level.Some?
  {
    var base := map["VACBPR_0" := Text(d.regime.value), "VACITM_0" := Text(d.level.value), "ENAFLG_0" := Flag(2)];
    var withLeg := if Truthy(d.legislation) then base["LEG_0" := Text(d.legislation.value)] else base;
    var withGrp := if Truthy(d.group) then withLeg["GRP_0" := Text(d.group.value)] else withLeg;
    if Truthy(d.taxType) then withGrp["VATTYP_0" := Text(d.taxType.value)] else withGrp
  }

  /** `_construire_criteres`, inserting the optional keys one by one. */
  method BuildCriteria(d: SaleData) returns (criteria: Criteria)
    requires d.regime.Some? && d.level.Some?
    ensures criteria == SearchCriteria(d)
  {
    criteria := map["VACBPR_0" := Text(d.regime.value), "VACITM_0" := Text(d.level.value), "ENAFLG_0" := Flag(2)];
    if Truthy(d.legislation) {
      criteria := criteria["LEG_0" := Text(d.legislation.value)];
    }
    if Truthy(d.group) {
      criteria := criteria["GRP_0" := Text(d.group.value)];
    }
    if Truthy(d.taxType) {
      criteria := criteria["VATTYP_0" := Text(d.taxType.value)];
    }
  }

  /** What the criteria hold: the three fixed entries always, each optional
      entry exactly when its input is truthy, and no other key. */
  lemma SearchCriteriaSpec(d: SaleData)
    requires d.regime.Some? && d.level.Some?
    ensures var c := SearchCriteria(d);
            && "VACBPR_0" in c && c["VACBPR_0"] == Text(d.regime.value)
            && "VACITM_0" in c && c["VACITM_0"] == Text(d.level.value)
            && "ENAFLG_0" in c && c["ENAFLG_0"] == Flag(2)
            && ("LEG_0" in c <==> Truthy(d.legislation))
            && ("LEG_0" in c ==> c["LEG_0"] == Text(d.legislation.value))
            && ("GRP_0" in c <==> Truthy(d.group))
            && ("GRP_0" in c ==> c["GRP_0"] == Text(d.group.value))
            && ("VATTYP_0" in c <==> Truthy(d.taxType))
            && ("VATTYP_0" in c ==> c["VATTYP_0"] == Text(d.taxType.value))
            && c.Keys <= {"VACBPR_0", "VACITM_0", "ENAFLG_0", "LEG_0", "GRP_0", "VATTYP_0"}
  {
  }

  /** The parameters of the TABVAC query. */
  datatype SearchParameters = SearchParameters(regime: CriterionValue, level: CriterionValue,
                                               legislation: Option<CriterionValue>, group: Option<CriterionValue>)

  /** `criteres.get(key)` kept only when truthy. */
  function OptionalCriterion(c: Criteria, key: string): Option<CriterionValue> {
    if key in c && TruthyValue(c[key]) then Some(c[key]) else None
  }

  /** `_rechercher_regles_applicables` as written: it reads the keys 'VACBPR',
      'VACITM', 'LEG' and 'GRP', and a missing mandatory key raises a KeyError
      whose text is the quoted key. */
  function SearchParametersAsWritten(c: Criteria): Result<SearchParameters> {
    if "VACBPR" !in c then Failure("'VACBPR'")
    else if "VACITM" !in c then Failure("'VACITM'")
    else Success(SearchParameters(c["VACBPR"], c["VACITM"], OptionalCriterion(c, "LEG"), OptionalCriterion(c, "GRP")))
  }

  /** The query parameters read with the keys the criteria are built with. */
  function SearchParametersOf(c: Criteria): Result<SearchParameters> {
    if "VACBPR_0" !in c then Failure("'VACBPR_0'")
    else if "VACITM_0" !in c then Failure("'VACITM_0'")
    else Success(SearchParameters(c["VACBPR_0"], c["VACITM_0"], OptionalCriterion(c, "LEG_0"), OptionalCriterion(c, "GRP_0")))
  }

  /** Whatever the sale data, the query as written cannot read the criteria. */
  lemma SearchAsWrittenAlwaysFails(d: SaleData)
    requires d.regime.Some? && d.level.Some?
    ensures SearchParametersAsWritten(SearchCriteria(d)) == Failure("'VACBPR'")
  {
    SearchCriteriaSpec(d);
  }

  /** Read with the built keys, the query gets both codes and each optional
      code exactly when it was given (VATTYP_0 is not part of the query). */
  lemma SearchParametersOfCriteria(d: SaleData)
    requires d.regime.Some? && d.level.Some?
    ensures SearchParametersOf(SearchCriteria(d))
            == Success(SearchParameters(Text(d.regime.value), Text(d.level.value),
                                        if Truthy(d.legislation) then Some(Text(d.legislation.value)) else None,
                                        if Truthy(d.group) then Some(Text(d.group.value)) else None))
  {
    SearchCriteriaSpec(d);
  }

  /** `_verifier_coherence_legislation_groupe`: no group, or no legislation,
      needs no check; the remaining check is not implemented and passes. */
  predicate LegislationGroupConsistent(rule: TaxRule) {
    if !Truthy(rule.group) then true
    else if !Truthy(rule.legislation) then true
    else true
  }

  /** `_valider_criteres_metier`: a placeholder that accepts every rule. */
  predicate BusinessCriteriaHold(rule: TaxRule, d: SaleData) {
    true
  }

  /** `_valider_criteres_additionnels`: both checks; it accepts every rule. */
  predicate AdditionalCriteriaHold(rule: TaxRule, d: SaleData)
    ensures AdditionalCriteriaHold(rule, d)
  {
    LegislationGroupConsistent(rule) && BusinessCriteriaHold(rule, d)
  }

  /** `regle.get('CODE_TAXE') or regle.get('CODTAXE')`. */
  function RuleCode(rule: TaxRule): (r: Option<string>)
    ensures Truthy(r) <==> Truthy(rule.codeTaxe) || Truthy(rule.codTaxe)
    ensures Truthy(rule.codeTaxe) ==> r == rule.codeTaxe
    ensures !Truthy(rule.codeTaxe) ==> r == rule.codTaxe
  {
    if Truthy(rule.codeTaxe) then rule.codeTaxe else rule.codTaxe
  }

  /** The code of the first rule `accept` lets through, or `None`. */
  function FirstAcceptedCode(rules: seq<TaxRule>, accept: TaxRule -> bool): Option<string> {
    if rules == [] then None
    else if accept(rules[0]) then RuleCode(rules[0])
    else FirstAcceptedCode(rules[1..], accept)
  }

  /** The code is that of the first accepted rule, or `None` when no rule is
      accepted. */
  lemma {:induction false} FirstAcceptedCodeSpec(rules: seq<TaxRule>, accept: TaxRule -> bool)
    ensures (forall k :: 0 <= k < |rules| ==> !accept(rules[k])) ==> FirstAcceptedCode(rules, accept) == None
    ensures forall k :: 0 <= k < |rules| && accept(rules[k]) && (forall j :: 0 <= j < k ==> !accept(rules[j]))
                        ==> FirstAcceptedCode(rules, accept) == RuleCode(rules[k])
  {
    if rules != [] {
      FirstAcceptedCodeSpec(rules[1..], accept);
      assert forall k :: 0 < k < |rules| ==> rules[1..][k - 1] == rules[k];
    }
  }

  /** The code of the first rule passing the additional checks, or `None`. */
  function FirstValidRuleCode(rules: seq<TaxRule>, d: SaleData): Option<string> {
    FirstAcceptedCode(rules, rule => AdditionalCriteriaHold(rule, d))
  }

  /** `_appliquer_premiere_regle_valide`: an early-return loop over the rules. */
  method ApplyFirstValidRule(rules: seq<TaxRule>, d: SaleData) returns (code: Option<string>)
    ensures code == FirstValidRuleCode(rules, d)
  {
    if rules == [] {
      return None;
    }
    for i := 0 to |rules|
      invariant FirstValidRuleCode(rules, d) == FirstAcceptedCode(rules[i..], rule => AdditionalCriteriaHold(rule, d))
    {
      assert rules[i..][0] == rules[i] && rules[i..][1..] == rules[i + 1..];
      if AdditionalCriteriaHold(rules[i], d) {
        return RuleCode(rules[i]);
      }
    }
    assert rules[|rules|..] == [];
    return None;
  }

  /** Since every rule passes the checks, the first rule decides: its code,
      even when that code is empty and a later rule has one. */
  lemma FirstRuleDecides(rules: seq<TaxRule>, d: SaleData)
    ensures rules == [] ==> FirstValidRuleCode(rules, d) == None
    ensures rules != [] ==> FirstValidRuleCode(rules, d) == RuleCode(rules[0])
  {
    FirstAcceptedCodeSpec(rules, rule => AdditionalCriteriaHold(rule, d));
  }

  /** Steps 3 to 5 of `determiner_code_taxe` once the query parameters are
      known: the first valid rule's code and its TABVAT details, read with
      defaults 0, '' and False. */
  function OutcomeOfRules(rules: seq<TaxRule>, d: SaleData, details: string -> Option<TaxDetails>): (r: TaxOutcome)
    ensures var code := FirstValidRuleCode(rules, d);
            && (r.TaxCode? <==> Truthy(code) && details(code.value).Some?)
            && (r.TaxCode? ==> && r.code == code.value
                               && r.rate == details(code.value).value.rate.GetOr(0.0)
                               && r.account == details(code.value).value.account.GetOr("")
                               && r.exempt == details(code.value).value.exempt.GetOr(false))
            && (!Truthy(code) ==> r == TaxError(NoCodeMessage))
            && (Truthy(code) && details(code.value).None? ==> r == TaxError(MissingDetailsMessage))
  {
    var code := FirstValidRuleCode(rules, d);
    if !Truthy(code) then TaxError(NoCodeMessage)
    else match details(code.value)
      case None => TaxError(MissingDetailsMessage)
      case Some(t) => TaxCode(code.value, t.rate.GetOr(0.0), t.account.GetOr(""), t.exempt.GetOr(false))
  }

  /** `determiner_code_taxe` as written: after validation the query step
      always raises, and the error is returned. */
  function DetermineAsWritten(d: SaleData, rules: seq<TaxRule>, details: string -> Option<TaxDetails>): TaxOutcome {
    match ValidationError(d)
    case Some(m) => TaxError(m)
    case None =>
      match SearchParametersAsWritten(SearchCriteria(d))
      case Failure(m) => TaxError(m)
      case Success(_) => OutcomeOfRules(rules, d, details)
  }

  /** As written, no sale data ever obtains a tax code. */
  lemma AsWrittenNeverFindsCode(d: SaleData, rules: seq<TaxRule>, details: string -> Option<TaxDetails>)
    ensures DetermineAsWritten(d, rules, details).TaxError?
    ensures ValidationError(d).None? ==> DetermineAsWritten(d, rules, details) == TaxError("'VACBPR'")
  {
    if ValidationError(d).None? {
      SearchAsWrittenAlwaysFails(d);
    }
  }

  /** `determiner_code_taxe` with the query reading the keys the criteria are
      built with; `rules` are the TABVAC rows that query returns, in COD
      order. */
  function Determine(d: SaleData, rules: seq<TaxRule>, details: string -> Option<TaxDetails>): TaxOutcome {
    match ValidationError(d)
    case Some(m) => TaxError(m)
    case None =>
      match SearchParametersOf(SearchCriteria(d))
      case Failure(m) => TaxError(m)
      case Success(_) => OutcomeOfRules(rules, d, details)
  }

  /** `determiner_code_taxe`: the steps in order, every failure caught and
      returned as an error. */
  method DetermineTaxCode(d: SaleData, rules: seq<TaxRule>, details: string -> Option<TaxDetails>)
    returns (outcome: TaxOutcome)
    ensures outcome == Determine(d, rules, details)
  {
    var error := ValidationError(d);
    if error.Some? {
      return TaxError(error.value);
    }
    var criteria := BuildCriteria(d);
    var parameters := SearchParametersOf(criteria);
    if parameters.Failure? {
      return TaxError(parameters.message);
    }
    var code := ApplyFirstValidRule(rules, d);
    if !Truthy(code) {
      return TaxError(NoCodeMessage);
    }
    var found := details(code.value);
    if found.None? {
      return TaxError(MissingDetailsMessage);
    }
    var t := found.value;
    outcome := TaxCode(code.value, t.rate.GetOr(0.0), t.account.GetOr(""), t.exempt.GetOr(false));
  }

  /** A code is found exactly when the data is valid, there is a rule, the
      first rule names a code and TABVAT knows it; the code is the first
      rule's. Otherwise the outcome is one of the four error messages. */
  lemma DetermineSpec(d: SaleData, rules: seq<TaxRule>, details: string -> Option<TaxDetails>)
    ensures var o := Determine(d, rules, details);
            && (o.TaxCode? <==> ValidationError(d).None? && rules != [] && Truthy(RuleCode(rules[0]))
                                && details(RuleCode(rules[0]).value).Some?)
            && (o.TaxCode? ==> o.code == RuleCode(rules[0]).value)
            && (o.TaxError? ==> (ValidationError(d).Some? && o.message == ValidationError(d).value)
                                || o.message == NoCodeMessage || o.message == MissingDetailsMessage)
  {
    FirstRuleDecides(rules, d);
    if ValidationError(d).None? {
      SearchParametersOfCriteria(d);
    }
  }

  /** The length limit is inclusive: ten characters pass, eleven fail. */
  lemma LengthLimitInclusive(d: SaleData)
    requires Truthy(d.regime) && Truthy(d.level)
    requires |d.level.value| <= MaxCodeLength
    ensures |d.regime.value| == 10 ==> ValidationError(d) == None
    ensures |d.regime.value| == 11 ==> ValidationError(d) == Some(RegimeTooLongMessage)
  {
  }

  /** A missing field is reported before any length problem. */
  lemma PresenceCheckedFirst(d: SaleData)
    requires !Truthy(d.level)
    ensures ValidationError(d) == Some(MissingFieldMessage(if Truthy(d.regime) then "niveau_taxe_article" else "regime_taxe_tiers"))
  {
  }
}
