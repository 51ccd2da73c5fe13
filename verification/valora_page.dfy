/**
 * The "valora tu vivienda" page: a three-step form (property, contact, result)
 * with its own valuation formula driven by a configuration from the CRM, and
 * an address box fed by the geocoding route, filtered to Spain and ranked
 * towards Madrid and Toledo. Network answers and timers are events.
 */
module ValoraPage {
  import opened Wrappers
  import opened JsText
  import opened JsNumber
  import opened Seqs
  import opened Nominatim
  import Detalle = ValoradorDetalle

  // ---- the form ----

  /** Step 1: every field is the text of its input or select (`type` is `kind` here). */
  datatype Step1 = Step1(
    address: string, city: string, kind: string, size: string, bedrooms: string,
    bathrooms: string, hasGarage: string, hasTerrace: string, condition: string)

  /** Step 2: contact details. */
  datatype Step2 = Step2(name: string, phone: string, email: string, acceptPrivacy: bool)

  const BlankStep1 := Step1("", "", "", "", "", "", "", "", "")
  const BlankStep2 := Step2("", "", "", false)

  // ---- the configuration ----

  datatype Modifiers = Modifiers(garage: Option<real>, terrace: Option<real>)
  datatype RangePolicy = RangePolicy(min: Option<real>, max: Option<real>)

  /** The configuration as received: any part may be missing. */
  datatype Config = Config(conditions: Option<map<string, real>>, modifiers: Option<Modifiers>, range: Option<RangePolicy>)

  const DefaultConfig := Config(
    Some(map["reformar" := 1400.0, "buen_estado" := 1800.0, "reformado" := 2100.0, "obra_nueva" := 2300.0]),
    Some(Modifiers(Some(0.05), Some(0.05))),
    Some(RangePolicy(Some(0.93), Some(1.05))))

  /** `cfg.conditions?.[condition] ?? cfg.conditions?.buen_estado ?? 1800`. */
  function PricePerM2(cfg: Config, condition: string): (p: real)
    ensures cfg.conditions.Some? && condition in cfg.conditions.value ==> p == cfg.conditions.value[condition]
    ensures cfg.conditions.Some? && condition !in cfg.conditions.value && "buen_estado" in cfg.conditions.value ==>
              p == cfg.conditions.value["buen_estado"]
    ensures cfg.conditions.None? || (condition !in cfg.conditions.value && "buen_estado" !in cfg.conditions.value) ==>
              p == 1800.0
  {
    match cfg.conditions
    case None => 1800.0
    case Some(table) =>
      if condition in table then table[condition]
      else if "buen_estado" in table then table["buen_estado"]
      else 1800.0
  }

  /** With the default configuration the price is one of the four table prices, 1800 for anything unknown. */
  lemma DefaultPrices(condition: string)
    ensures PricePerM2(DefaultConfig, condition) in {1400.0, 1800.0, 2100.0, 2300.0}
    ensures condition !in {"reformar", "reformado", "obra_nueva"} ==> PricePerM2(DefaultConfig, condition) == 1800.0
  {
  }

  /** One amenity's share of the factor: the configured bonus (default 0.05) for "si", nothing otherwise. */
  function Bonus(answer: string, configured: Option<real>): (b: real)
    ensures answer != "si" ==> b == 0.0
    ensures answer == "si" && configured.None? ==> b == 0.05
    ensures answer == "si" && configured.Some? ==> b == configured.value
  {
    if answer == "si" then configured.GetOr(0.05) else 0.0
  }

  function GarageBonus(cfg: Config): Option<real> {
    if cfg.modifiers.Some? then cfg.modifiers.value.garage else None
  }

  function TerraceBonus(cfg: Config): Option<real> {
    if cfg.modifiers.Some? then cfg.modifiers.value.terrace else None
  }

  /** `1 + garagePlus + terracePlus`. */
  function Factor(s: Step1, cfg: Config): real {
    1.0 + Bonus(s.hasGarage, GarageBonus(cfg)) + Bonus(s.hasTerrace, TerraceBonus(cfg))
  }

  /**
   * The factor is 1 plus one bonus per amenity answered "si": the CRM's `modifiers.garage` and
   * `modifiers.terrace` when the configuration has them, 0.05 when it does not.
   */
  lemma FactorFromConfig(s: Step1, cfg: Config)
    ensures var m := cfg.modifiers;
            var g := if m.Some? && m.value.garage.Some? then m.value.garage.value else 0.05;
            var t := if m.Some? && m.value.terrace.Some? then m.value.terrace.value else 0.05;
            Factor(s, cfg) == 1.0 + (if s.hasGarage == "si" then g else 0.0) + (if s.hasTerrace == "si" then t else 0.0)
  {
  }

  /** With bonuses that are not negative, answering "si" for an amenity never lowers the factor. */
  lemma AmenityNeverLowers(s: Step1, cfg: Config)
    requires cfg.modifiers.Some? ==> cfg.modifiers.value.garage.GetOr(0.0) >= 0.0 && cfg.modifiers.value.terrace.GetOr(0.0) >= 0.0
    ensures Factor(s.(hasGarage := "si"), cfg) >= Factor(s, cfg)
    ensures Factor(s.(hasTerrace := "si"), cfg) >= Factor(s, cfg)
    ensures Factor(s, cfg) >= 1.0
  {
    FactorFromConfig(s, cfg);
    FactorFromConfig(s.(hasGarage := "si"), cfg);
    FactorFromConfig(s.(hasTerrace := "si"), cfg);
  }

  /** With the default configuration the factor is 1, 1.05 or 1.10. */
  lemma DefaultFactor(s: Step1)
    ensures Factor(s, DefaultConfig) == 1.0 + (if s.hasGarage == "si" then 0.05 else 0.0)
                                            + (if s.hasTerrace == "si" then 0.05 else 0.0)
    ensures 1.0 <= Factor(s, DefaultConfig) <= 1.1
  {
    FactorFromConfig(s, DefaultConfig);
  }

  function MinMul(cfg: Config): real {
    if cfg.range.Some? then cfg.range.value.min.GetOr(0.93) else 0.93
  }

  function MaxMul(cfg: Config): real {
    if cfg.range.Some? then cfg.range.value.max.GetOr(1.05) else 1.05
  }

  datatype Valuation = Valuation(minPrice: Num, maxPrice: Num)

  /** The size as a number: `Number(step1.size)`. */
  function Size(s: Step1): Num {
    StringToNumber(s.size)
  }

  /** `m2 * pricePerM2 * factor`. */
  function BasePrice(s: Step1, cfg: Config): Num {
    Mul(Mul(Size(s), Fin(PricePerM2(cfg, s.condition))), Fin(Factor(s, cfg)))
  }

  /** `calculateValuation`: no result for a size that is not a number or not positive. */
  function CalculateValuation(s: Step1, cfg: Config): (r: Option<Valuation>)
    ensures r.None? <==> Size(s).NaN? || Size(s).AtMostZero()
  {
    var m2 := Size(s);
    if m2.NaN? || m2.AtMostZero() then None
    else
      var base := BasePrice(s, cfg);
      Some(Valuation(Mul(base, Fin(MinMul(cfg))), Mul(base, Fin(MaxMul(cfg)))))
  }

  lemma ScaleOrdered(b: real, lo: real, hi: real)
    requires b > 0.0 && 0.0 < lo <= hi
    ensures 0.0 < b * lo <= b * hi
  {
  }

  /** A positive size times positive price, factor and multipliers gives ordered ends. */
  lemma EndsOrdered(m2: Num, p: real, f: real, lo: real, hi: real)
    requires (m2.Fin? && m2.v > 0.0) || m2 == PosInf
    requires p > 0.0 && f > 0.0 && 0.0 < lo <= hi
    ensures var base := Mul(Mul(m2, Fin(p)), Fin(f));
            var a := Mul(base, Fin(lo));
            var b := Mul(base, Fin(hi));
            (a.Fin? && b.Fin? && 0.0 < a.v <= b.v) || (a == PosInf && b == PosInf)
  {
    if m2.Fin? {
      ScaleOrdered(m2.v, p, p);
      var mp := m2.v * p;
      ScaleOrdered(mp, f, f);
      ScaleOrdered(mp * f, lo, hi);
    }
  }

  /**
   * Whenever the resolved price and factor are positive and the range multipliers are
   * ordered and positive, the range is ordered: both ends finite with 0 < min <= max,
   * or both infinite for an infinite size.
   */
  lemma RangeOrdered(s: Step1, cfg: Config)
    requires PricePerM2(cfg, s.condition) > 0.0 && Factor(s, cfg) > 0.0
    requires 0.0 < MinMul(cfg) <= MaxMul(cfg)
    requires CalculateValuation(s, cfg).Some?
    ensures var r := CalculateValuation(s, cfg).value;
            (r.minPrice.Fin? && r.maxPrice.Fin? && 0.0 < r.minPrice.v <= r.maxPrice.v)
            || (r.minPrice == PosInf && r.maxPrice == PosInf)
  {
    EndsOrdered(Size(s), PricePerM2(cfg, s.condition), Factor(s, cfg), MinMul(cfg), MaxMul(cfg));
  }

  /** Under the default configuration every valuation is ordered (0.93 and 1.05 of a positive base). */
  lemma DefaultRangeOrdered(s: Step1)
    requires CalculateValuation(s, DefaultConfig).Some?
    ensures var r := CalculateValuation(s, DefaultConfig).value;
            (r.minPrice.Fin? && r.maxPrice.Fin? && 0.0 < r.minPrice.v <= r.maxPrice.v)
            || (r.minPrice == PosInf && r.maxPrice == PosInf)
  {
    DefaultPrices(s.condition);
    DefaultFactor(s);
    RangeOrdered(s, DefaultConfig);
  }

  /** The range of a finite size, price, factor and multipliers, on plain reals. */
  function Range(m: real, p: real, f: real, lo: real, hi: real): Valuation {
    Valuation(Fin(m * p * f * lo), Fin(m * p * f * hi))
  }

  lemma Ends(m: real, p: real, f: real, lo: real, hi: real)
    ensures Valuation(Mul(Mul(Mul(Fin(m), Fin(p)), Fin(f)), Fin(lo)), Mul(Mul(Mul(Fin(m), Fin(p)), Fin(f)), Fin(hi)))
            == Range(m, p, f, lo, hi)
  {
  }

  /**
   * For a finite positive size the range is exactly size × price × factor times the two
   * multipliers: the size is not clamped and nothing is rounded.
   */
  lemma ValuationValue(s: Step1, cfg: Config, m: real)
    requires Size(s) == Fin(m) && m > 0.0
    ensures CalculateValuation(s, cfg) == Some(Range(m, PricePerM2(cfg, s.condition), Factor(s, cfg), MinMul(cfg), MaxMul(cfg)))
  {
    ValuationShape(s, cfg);
    Ends(m, PricePerM2(cfg, s.condition), Factor(s, cfg), MinMul(cfg), MaxMul(cfg));
  }

  lemma ValuationShape(s: Step1, cfg: Config)
    requires Size(s).Fin? && Size(s).v > 0.0
    ensures CalculateValuation(s, cfg)
            == Some(Valuation(Mul(Mul(Mul(Size(s), Fin(PricePerM2(cfg, s.condition))), Fin(Factor(s, cfg))), Fin(MinMul(cfg))),
                              Mul(Mul(Mul(Size(s), Fin(PricePerM2(cfg, s.condition))), Fin(Factor(s, cfg))), Fin(MaxMul(cfg)))))
  {
  }

  /** Sizes are neither clamped nor rounded here: 10 m² in good condition, no extras, is 16740 to 18900. */
  lemma TenMetres(s: Step1)
    requires Size(s) == Fin(10.0) && s.condition == "buen_estado" && s.hasGarage == "no" && s.hasTerrace == "no"
    ensures CalculateValuation(s, DefaultConfig) == Some(Valuation(Fin(16740.0), Fin(18900.0)))
  {
    assert PricePerM2(DefaultConfig, s.condition) == 1800.0;
    assert Factor(s, DefaultConfig) == 1.0;
    assert MinMul(DefaultConfig) == 0.93 && MaxMul(DefaultConfig) == 1.05;
    assert BasePrice(s, DefaultConfig) == Mul(Mul(Fin(10.0), Fin(1800.0)), Fin(1.0));
    TenMetreProducts();
  }

  lemma TenMetreProducts()
    ensures Mul(Mul(Fin(10.0), Fin(1800.0)), Fin(1.0)) == Fin(18000.0)
    ensures Mul(Fin(18000.0), Fin(0.93)) == Fin(16740.0) && Mul(Fin(18000.0), Fin(1.05)) == Fin(18900.0)
  {
  }

  // ---- validation ----

  /** `validateStep1`: every field filled, address and city not blank, size a number. */
  function ValidateStep1(s: Step1): (ok: bool)
    ensures ok <==> Trim(s.address) != [] && Trim(s.city) != [] && s.size != [] && !Size(s).NaN?
                    && s.kind != [] && s.bedrooms != [] && s.bathrooms != []
                    && s.hasGarage != [] && s.hasTerrace != [] && s.condition != []
  {
    && Trim(s.address) != []
    && Trim(s.city) != []
    && s.kind != []
    && s.size != [] && !Size(s).NaN?
    && s.bedrooms != []
    && s.bathrooms != []
    && s.hasGarage != []
    && s.hasTerrace != []
    && s.condition != []
  }

  /** After step 1 is accepted, the valuation can only fail for a size that is zero or negative. */
  lemma ValidStep1Valuation(s: Step1, cfg: Config)
    requires ValidateStep1(s)
    ensures CalculateValuation(s, cfg).None? <==> Size(s).AtMostZero()
  {
  }

  /** Step 1 accepts a size of a single space (`Number(" ")` is 0), which no valuation can be made for. */
  lemma BlankSizePassesStep1(s: Step1, cfg: Config)
    requires ValidateStep1(s)
    ensures ValidateStep1(s.(size := " ")) && CalculateValuation(s.(size := " "), cfg).None?
  {
    assert AllSpace(" ");
  }

  /** `validateStep2`: name and phone not blank, privacy accepted. */
  function ValidateStep2(s: Step2): (ok: bool)
    ensures ok <==> Detalle.LeadError(s.name, s.phone, s.acceptPrivacy).None?
  {
    Trim(s.name) != [] && Trim(s.phone) != [] && s.acceptPrivacy
  }

  // ---- the step machine ----

  const Step1Error := "Falta algún dato o hay un campo incorrecto. Revísalo y seguimos."
  const Step2Error := "Revisa tus datos y acepta la política de privacidad."
  const SizeError := "No hemos podido calcular la valoración. Revisa los m² introducidos."

  datatype Stage = Property | Contact | Result

  /** How the lead POST ended; the page goes on either way. */
  datatype LeadDelivery = Delivered | Lost

  /**
   * A lead the page sent: the two steps and the valuation in the POST body, with the
   * configuration that valuation was priced with (the handler's closure holds all four).
   */
  datatype Submission = Submission(step1: Step1, step2: Step2, cfg: Config, valuation: Valuation)

  /** The lead: not sent yet, sent with its POST pending (`submitting`), or sent and answered. */
  datatype LeadState = NotSent | Pending(sub: Submission) | Landed(sub: Submission)

  /** The form's state: stage, both steps, the configuration in use, the result, the message and the lead. */
  datatype Flow = Flow(stage: Stage, step1: Step1, step2: Step2, cfg: Config, result: Option<Valuation>,
                       errorMsg: Option<string>, lead: LeadState)

  const Start := Flow(Property, BlankStep1, BlankStep2, DefaultConfig, None, None, NotSent)

  /** `handleStep1Submit`. */
  function SubmittedStep1(f: Flow): (r: Flow)
    requires f.stage == Property
    ensures r.stage == Contact <==> ValidateStep1(f.step1)
    ensures r.stage != Contact ==> r.stage == Property && r.errorMsg == Some(Step1Error)
    ensures r.stage == Contact ==> r.errorMsg.None?
    ensures r.step1 == f.step1 && r.step2 == f.step2 && r.cfg == f.cfg && r.result == f.result
    ensures r.lead == f.lead
  {
    if !ValidateStep1(f.step1) then f.(errorMsg := Some(Step1Error))
    else f.(errorMsg := None, stage := Contact)
  }

  /**
   * `handleStep2Submit` up to the await of the lead POST: it validates step 2, computes the
   * valuation and sends the lead. The submit button is disabled while a POST is pending.
   */
  function SubmitStarted(f: Flow): (r: Flow)
    requires f.stage == Contact && !f.lead.Pending?
    ensures r.stage == Contact && r.step1 == f.step1 && r.step2 == f.step2 && r.cfg == f.cfg && r.result == f.result
  {
    if !ValidateStep2(f.step2) then f.(errorMsg := Some(Step2Error))
    else
      var valuation := CalculateValuation(f.step1, f.cfg);
      if valuation.None? then f.(errorMsg := Some(SizeError))
      else f.(errorMsg := None, lead := Pending(Submission(f.step1, f.step2, f.cfg, valuation.value)))
  }

  /**
   * The three outcomes of starting the submit: a lead carrying the inputs and their valuation
   * is sent exactly when step 2 validates and a valuation exists; otherwise only the message
   * changes, to the step-2 message or to the size message.
   */
  lemma SubmitStartedOutcomes(f: Flow)
    requires f.stage == Contact && !f.lead.Pending?
    ensures var r := SubmitStarted(f);
            && (r.lead.Pending? <==> ValidateStep2(f.step2) && CalculateValuation(f.step1, f.cfg).Some?)
            && (r.lead.Pending? ==> r.lead.sub == Submission(f.step1, f.step2, f.cfg, CalculateValuation(f.step1, f.cfg).value)
                                    && r.errorMsg.None?)
            && (!ValidateStep2(f.step2) ==> r == f.(errorMsg := Some(Step2Error)))
            && (ValidateStep2(f.step2) && CalculateValuation(f.step1, f.cfg).None? ==> r == f.(errorMsg := Some(SizeError)))
  {
  }

  /**
   * `handleStep2Submit` after the await: `setResult(valuation); setStep(3)`, on whatever stage
   * the page is in by then, and `submitting` ends. How the POST ended changes nothing.
   */
  function LeadSettled(f: Flow, lead: LeadDelivery): (r: Flow)
    requires f.lead.Pending?
    ensures r.stage == Result && r.result == Some(f.lead.sub.valuation) && r.lead == Landed(f.lead.sub)
    ensures r.step1 == f.step1 && r.step2 == f.step2 && r.cfg == f.cfg && r.errorMsg == f.errorMsg
  {
    f.(result := Some(f.lead.sub.valuation), stage := Result, lead := Landed(f.lead.sub))
  }

  /**
   * Submitting step 2 with nothing else happening before the POST ends: the result stage is
   * reached exactly when step 2 validates and a valuation exists, showing that valuation.
   */
  lemma SubmitStep2Outcomes(f: Flow, lead: LeadDelivery)
    requires f.stage == Contact && !f.lead.Pending?
    ensures var r := SubmitStarted(f);
            var t := if r.lead.Pending? then LeadSettled(r, lead) else r;
            && (t.stage == Result <==> ValidateStep2(f.step2) && CalculateValuation(f.step1, f.cfg).Some?)
            && (t.stage == Result ==> t.result == CalculateValuation(f.step1, f.cfg) && t.errorMsg.None? && t.lead.Landed?)
            && (t.stage != Result ==> t.stage == Contact && t.result == f.result && t.errorMsg.Some? && t.lead == f.lead)
  {
    SubmitStartedOutcomes(f);
  }

  /** A lost lead does not keep the visitor from the result. */
  lemma LeadDeliveryIrrelevant(f: Flow)
    requires f.lead.Pending?
    ensures LeadSettled(f, Lost) == LeadSettled(f, Delivered)
  {
  }

  /** The "Volver" button on step 2 (it stays enabled while the POST is pending). */
  function WentBack(f: Flow): Flow
    requires f.stage == Contact
  {
    f.(stage := Property)
  }

  /** Editing step 1 (its fields are on screen only in the first stage). */
  function EditedStep1(f: Flow, s: Step1): Flow
    requires f.stage == Property
  {
    f.(step1 := s)
  }

  /** Editing step 2 (its fields are on screen only in the second stage). */
  function EditedStep2(f: Flow, s: Step2): Flow
    requires f.stage == Contact
  {
    f.(step2 := s)
  }

  /** The configuration request ends: `j.data` replaces the configuration, anything else keeps it. */
  function ConfigArrived(f: Flow, data: Option<Config>): Flow {
    if data.Some? then f.(cfg := data.value) else f
  }

  /** A lead is sound when both of its steps validated and its valuation is that of its step 1. */
  predicate Sound(sub: Submission) {
    ValidateStep1(sub.step1) && ValidateStep2(sub.step2) && CalculateValuation(sub.step1, sub.cfg) == Some(sub.valuation)
  }

  /**
   * What the stages guarantee: in the second stage step 1 is valid; a lead sent is sound; and
   * the result stage shows the valuation of the lead, whose POST has ended.
   */
  predicate Reached(f: Flow) {
    && (f.stage == Contact ==> ValidateStep1(f.step1))
    && (!f.lead.NotSent? ==> Sound(f.lead.sub))
    && (f.stage == Result ==> f.lead.Landed? && f.result == Some(f.lead.sub.valuation))
  }

  /**
   * Every event keeps `Reached`, including the POST ending after "Volver" or an edit; the
   * result stage is left by no event.
   */
  lemma EventsKeepReached(f: Flow, s1: Step1, s2: Step2, data: Option<Config>, lead: LeadDelivery)
    requires Reached(f)
    ensures Reached(Start)
    ensures f.stage == Property ==> Reached(SubmittedStep1(f)) && Reached(EditedStep1(f, s1))
    ensures f.stage == Contact && !f.lead.Pending? ==> Reached(SubmitStarted(f))
    ensures f.lead.Pending? ==> Reached(LeadSettled(f, lead))
    ensures f.stage == Contact ==> Reached(WentBack(f)) && Reached(EditedStep2(f, s2))
    ensures Reached(ConfigArrived(f, data)) && ConfigArrived(f, data).stage == f.stage
  {
    if f.stage == Contact && !f.lead.Pending? {
      SubmitStartedOutcomes(f);
      var r := SubmitStarted(f);
      assert r.lead.Pending? ==> Sound(r.lead.sub);
    }
  }

  /**
   * The POST is awaited with "Volver" and the step 1 fields live: going back, blanking the
   * address and then the POST ending puts the page straight from step 1 into the result stage,
   * with a step 1 that no longer validates, showing the valuation of the step 1 sent.
   */
  lemma BackDuringPost(f: Flow, lead: LeadDelivery)
    requires f.stage == Contact && !f.lead.Pending?
    requires ValidateStep2(f.step2) && CalculateValuation(f.step1, f.cfg).Some?
    ensures var back := WentBack(SubmitStarted(f));
            var blanked := EditedStep1(back, back.step1.(address := ""));
            var r := LeadSettled(blanked, lead);
            blanked.stage == Property && r.stage == Result && !ValidateStep1(r.step1)
            && r.result == CalculateValuation(f.step1, f.cfg)
  {
    SubmitStartedOutcomes(f);
    assert Trim("") == [];
  }

  // ---- address suggestions ----

  /** `scorePreferZonaSur`: Madrid first (-20), then Toledo (-10), then the rest (0). */
  function Score(p: Place): (score: int)
    ensures score in {-20, -10, 0}
    ensures score == -20 <==> MadridHint(p)
    ensures score == -10 <==> !MadridHint(p) && ToledoHint(p)
  {
    if MadridHint(p) then -20 else if ToledoHint(p) then -10 else 0
  }

  function LowerState(p: Place): string {
    ToLower(if p.address.Some? then p.address.value.state.GetOr("") else "")
  }

  function LowerCounty(p: Place): string {
    ToLower(if p.address.Some? then p.address.value.county.GetOr("") else "")
  }

  predicate MadridHint(p: Place) {
    Contains(LowerState(p), "comunidad de madrid") || Contains(ToLower(p.displayName), "madrid")
  }

  predicate ToledoHint(p: Place) {
    Contains(LowerCounty(p), "toledo") || Contains(ToLower(p.displayName), "toledo")
  }

  /** `raw.filter(isSpain).sort((a, b) => score(a) - score(b))`. */
  function Suggestions(raw: seq<Place>): seq<Place> {
    SortBy(Filter(IsSpain, raw), Score)
  }

  /**
   * The suggestions are exactly the Spanish candidates, each as often as in the response,
   * ordered by score, with candidates of equal score in response order; Madrid comes
   * before everything else.
   */
  lemma SuggestionsRanked(raw: seq<Place>)
    ensures SortedBy(Suggestions(raw), Score)
    ensures multiset(Suggestions(raw)) == multiset(Filter(IsSpain, raw))
    ensures forall k :: WithKey(Suggestions(raw), Score, k) == WithKey(Filter(IsSpain, raw), Score, k)
    ensures forall x :: x in Suggestions(raw) ==> IsSpain(x) && x in raw
    ensures forall i, j :: 0 <= i < j < |Suggestions(raw)| && MadridHint(Suggestions(raw)[j]) ==> MadridHint(Suggestions(raw)[i])
  {
    SortByCorrect(Filter(IsSpain, raw), Score);
    var s := Suggestions(raw);
    forall x | x in s ensures IsSpain(x) && x in raw {
      assert x in multiset(s);
    }
    forall i, j | 0 <= i < j < |s| && MadridHint(s[j]) ensures MadridHint(s[i]) {
      assert Score(s[i]) <= Score(s[j]);
    }
  }

  /** The address box: query text, its debounce timer, and the suggestions on show. */
  datatype Lookup = Lookup(query: string, loading: bool, suggestions: seq<Place>, timer: Option<string>,
                           selected: Option<Place>, showing: bool)

  /** Suggestion lookups need a trimmed query of at least this length. */
  const MinQueryLength: nat := 4

  /** The lookup effect after its cleanup cleared the previous timer (it reruns when the query text changes). */
  function LookupEffect(l: Lookup): (r: Lookup)
    ensures |Trim(l.query)| < MinQueryLength ==> r.suggestions == [] && !r.loading && r.timer.None?
    ensures |Trim(l.query)| >= MinQueryLength ==> r.timer == Some(Trim(l.query)) && r.suggestions == l.suggestions
  {
    var q := Trim(l.query);
    if |q| < MinQueryLength then l.(suggestions := [], loading := false, timer := None)
    else l.(timer := Some(q))
  }

  const Quiet := LookupEffect(Lookup("", false, [], None, None, false))

  /** Typing in the address box: the query changes, the list may show, the selection is dropped. */
  function QueryTyped(l: Lookup, v: string): (r: Lookup)
    ensures r.query == v && r.showing && r.selected.None?
    ensures v != l.query && |Trim(v)| < MinQueryLength ==> r.suggestions == [] && r.timer.None?
    ensures v != l.query && |Trim(v)| >= MinQueryLength ==> r.timer == Some(Trim(v)) && r.suggestions == l.suggestions
  {
    var typed := l.(query := v, showing := true, selected := None);
    if v == l.query then typed else LookupEffect(typed)
  }

  /** The debounce timer fires: a lookup for the timer's query starts (there is no abort here). */
  function TimerFired(l: Lookup): Lookup
    requires l.timer.Some?
  {
    l.(loading := true, timer := None)
  }

  /** A lookup ends; a failure shows no suggestions (`raw` is empty then). */
  function Answered(l: Lookup, raw: seq<Place>): (r: Lookup)
    ensures r.suggestions == Suggestions(raw) && !r.loading
  {
    l.(suggestions := Suggestions(raw), loading := false)
  }

  /** `selectGeo`'s town: city, town, village, municipality or county, else "". */
  function SelectedCity(p: Place): string {
    if p.address.Some? then
      var a := p.address.value;
      FirstTruthy([a.city, a.town, a.village, a.municipality, a.county, Some("")]).GetOr("")
    else ""
  }

  /** Choosing a suggestion: it is kept with numeric lat/lon, the list closes and the query becomes its name. */
  function Chosen(l: Lookup, p: Place): (r: Lookup)
    ensures r.selected == Some(p.(lat := Number(ToNumber(p.lat)), lon := Number(ToNumber(p.lon))))
    ensures r.query == p.displayName && !r.showing && r.suggestions == []
    ensures p.displayName != l.query && |Trim(p.displayName)| >= MinQueryLength ==> r.timer == Some(Trim(p.displayName))
  {
    var picked := l.(selected := Some(p.(lat := Number(ToNumber(p.lat)), lon := Number(ToNumber(p.lon)))),
                     showing := false, suggestions := []);
    if p.displayName == l.query then picked.(query := p.displayName)
    else LookupEffect(picked.(query := p.displayName))
  }

  /** The suggestion list only ever holds Spanish candidates, ranked by score. */
  predicate Ranked(l: Lookup) {
    RankedList(l.suggestions)
  }

  predicate RankedList(s: seq<Place>) {
    SortedBy(s, Score) && forall x :: x in s ==> IsSpain(x)
  }

  lemma QuietRanked()
    ensures Ranked(Quiet)
  {
  }

  lemma TypedKeepsRanked(l: Lookup, v: string)
    requires Ranked(l)
    ensures Ranked(QueryTyped(l, v))
  {
  }

  lemma AnsweredRanked(l: Lookup, raw: seq<Place>)
    ensures Ranked(Answered(l, raw))
  {
    SuggestionsRanked(raw);
  }

  lemma ChosenRanked(l: Lookup, p: Place)
    ensures Ranked(Chosen(l, p))
  {
  }

  // ---- UTM parameters ----

  const UtmKeys: seq<string> := ["utm_source", "utm_medium", "utm_campaign", "utm_term", "utm_content"]

  /**
   * `readUtm`: the five UTM parameters that are present with a non-empty value, or None
   * when there is none (or no browser window, `search` None).
   */
  method ReadUtm(search: Option<map<string, string>>) returns (utm: Option<map<string, string>>)
    ensures search.None? ==> utm.None?
    ensures search.Some? ==>
      (utm.None? <==> forall k :: k in UtmKeys ==> k !in search.value || search.value[k] == "")
    ensures utm.Some? ==> search.Some? && forall k :: k in utm.value ==>
      k in UtmKeys && k in search.value && utm.value[k] == search.value[k] && utm.value[k] != ""
    ensures utm.Some? ==> forall k :: k in UtmKeys && k in search.value && search.value[k] != "" ==> k in utm.value
  {
    if search.None? {
      return None;
    }
    var sp := search.value;
    var out: map<string, string> := map[];
    var any := false;
    for i := 0 to |UtmKeys|
      invariant forall k :: k in out ==> k in UtmKeys[..i] && k in sp && out[k] == sp[k] && out[k] != ""
      invariant forall k :: k in UtmKeys[..i] && k in sp && sp[k] != "" ==> k in out
      invariant any <==> out != map[]
    {
      var k := UtmKeys[i];
      if k in sp && sp[k] != "" {
        out := out[k := sp[k]];
        any := true;
      }
      assert UtmKeys[..i + 1] == UtmKeys[..i] + [k];
    }
    assert UtmKeys[..|UtmKeys|] == UtmKeys;
    if any {
      utm := Some(out);
    } else {
      utm := None;
    }
  }

  // ---- the page ----

  class Page {
    var stage: Stage
    var step1: Step1
    var step2: Step2
    var cfg: Config
    var cfgLoaded: bool
    var result: Option<Valuation>
    var errorMsg: Option<string>
    var lead: LeadState
    var query: string
    var loading: bool
    var suggestions: seq<Place>
    var timer: Option<string>
    var selected: Option<Place>
    var showing: bool

    function Form(): Flow
      reads this`stage, this`step1, this`step2, this`cfg, this`result, this`errorMsg, this`lead
    {
      Flow(stage, step1, step2, cfg, result, errorMsg, lead)
    }

    function Box(): Lookup
      reads this`query, this`loading, this`suggestions, this`timer, this`selected, this`showing
    {
      Lookup(query, loading, suggestions, timer, selected, showing)
    }

    ghost predicate Valid()
      reads this
    {
      Listed() && (stage == Result ==> result.Some?)
    }

    /** The ranked-list half of `Valid`, which depends on the suggestion list alone. */
    ghost predicate Listed()
      reads this`suggestions
    {
      RankedList(suggestions)
    }

    /** First render and the mount run of the suggestion effect. */
    constructor ()
      ensures Form() == Start && Box() == Quiet && !cfgLoaded && Valid()
    {
      stage, step1, step2, cfg, result, errorMsg := Property, BlankStep1, BlankStep2, DefaultConfig, None, None;
      lead := NotSent;
      cfgLoaded := false;
      query, loading, suggestions, timer, selected, showing := "", false, [], None, None, false;
      QuietRanked();
    }

    /** The configuration request ends; `data` is `j.data` when present. */
    method LoadConfig(data: Option<Config>)
      requires Valid()
      modifies this
      ensures Valid()
      ensures Form() == ConfigArrived(old(Form()), data) && Box() == old(Box())
      ensures cfgLoaded <==> data.Some?
    {
      if data.Some? {
        cfg := data.value;
        cfgLoaded := true;
      } else {
        cfgLoaded := false;
      }
    }

    /** The rerun of the suggestion effect. */
    method RunLookupEffect()
      modifies this
      ensures Box() == LookupEffect(old(Box())) && Form() == old(Form())
    {
      var q := Trim(query);
      if |q| < MinQueryLength {
        suggestions, loading, timer := [], false, None;
      } else {
        timer := Some(q);
      }
    }

    /** Typing in the address box, which is also step 1's address. */
    method TypeAddress(v: string)
      requires Valid() && stage == Property
      modifies this
      ensures Valid()
      ensures Box() == QueryTyped(old(Box()), v)
      ensures Form() == EditedStep1(old(Form()), old(step1).(address := v))
    {
      TypedKeepsRanked(Box(), v);
      ghost var typed := Box().(query := v, showing := true, selected := None);
      var changed := v != query;
      query := v;
      showing := true;
      selected := None;
      step1 := step1.(address := v);
      assert Box() == typed;
      if changed {
        RunLookupEffect();
      }
    }

    /** The suggestion timer fires; returns the query sent to the geocoding route. */
    method FireTimer() returns (q: string)
      requires Valid() && timer.Some?
      modifies this
      ensures Valid()
      ensures q == old(timer).value && Box() == TimerFired(old(Box())) && Form() == old(Form())
    {
      q := timer.value;
      loading := true;
      timer := None;
    }

    /** A suggestion lookup ends with the route's results (empty on any failure). */
    method Answer(raw: seq<Place>)
      requires Valid()
      modifies this
      ensures Valid()
      ensures Box() == Answered(old(Box()), raw) && Form() == old(Form())
    {
      AnsweredRanked(Box(), raw);
      var filtered := Filter(IsSpain, raw);
      suggestions := SortBy(filtered, Score);
      loading := false;
    }

    /** `selectGeo`: the chosen place fills the address and, when it names one, the town. */
    method Choose(p: Place)
      requires Valid() && stage == Property
      modifies this
      ensures Valid()
      ensures Box() == Chosen(old(Box()), p)
      ensures var city := SelectedCity(p);
              Form() == EditedStep1(old(Form()), old(step1).(address := p.displayName,
                                                             city := if city != "" then city else old(step1).city))
    {
      ChosenRanked(Box(), p);
      var city := SelectedCity(p);
      var s1 := step1.(address := p.displayName, city := if city != "" then city else step1.city);
      selected := Some(p.(lat := Number(ToNumber(p.lat)), lon := Number(ToNumber(p.lon))));
      showing := false;
      step1 := s1;
      var changed := p.displayName != query;
      query := p.displayName;
      suggestions := [];
      if changed {
        RunLookupEffect();
      }
    }

    /** Editing another step 1 field; the address changes only through the address box. */
    method EditStep1(s: Step1)
      requires Valid() && stage == Property && s.address == step1.address
      modifies this
      ensures Valid()
      ensures Form() == EditedStep1(old(Form()), s) && Box() == old(Box())
    {
      step1 := s;
    }

    method EditStep2(s: Step2)
      requires Valid() && stage == Contact
      modifies this
      ensures Valid()
      ensures Form() == EditedStep2(old(Form()), s) && Box() == old(Box())
    {
      step2 := s;
    }

    method SubmitStep1()
      requires Valid() && stage == Property
      modifies this
      ensures Valid()
      ensures Form() == SubmittedStep1(old(Form())) && Box() == old(Box())
    {
      if !ValidateStep1(step1) {
        errorMsg := Some(Step1Error);
        return;
      }
      errorMsg := None;
      stage := Contact;
    }

    /**
     * `handleStep2Submit` up to the await: returns the lead the POST carries, or nothing when
     * step 2 or the valuation fails.
     */
    method SubmitStep2() returns (body: Option<Submission>)
      requires Valid() && stage == Contact && !lead.Pending?
      modifies this
      ensures Valid()
      ensures Form() == SubmitStarted(old(Form())) && Box() == old(Box())
      ensures body.Some? <==> lead.Pending?
      ensures body.Some? ==> body.value == lead.sub
    {
      if !ValidateStep2(step2) {
        errorMsg, body := Some(Step2Error), None;
        return;
      }
      var valuation := CalculateValuation(step1, cfg);
      if valuation.None? {
        errorMsg, body := Some(SizeError), None;
        return;
      }
      var sub := Submission(step1, step2, cfg, valuation.value);
      errorMsg, lead, body := None, Pending(sub), Some(sub);
    }

    /** The lead POST ends, whatever the page shows by then: the result stage, with the lead's valuation. */
    method LeadLanded(delivery: LeadDelivery)
      requires Valid() && lead.Pending?
      modifies this
      ensures Valid()
      ensures Form() == LeadSettled(old(Form()), delivery) && Box() == old(Box())
    {
      result := Some(lead.sub.valuation);
      stage := Result;
      lead := Landed(lead.sub);
    }

    method GoBack()
      requires Valid() && stage == Contact
      modifies this
      ensures Valid()
      ensures Form() == WentBack(old(Form())) && Box() == old(Box())
    {
      stage := Property;
    }
  }
}
