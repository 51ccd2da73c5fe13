/**
 * The detailed estimator (ValoradorDetalle): the same formula as the quick one,
 * with an area clamp that lets +Infinity through as 400, a form that can be
 * preloaded from the query string, and a lead gate for step 2.
 */
module ValoradorDetalle {
  import opened Wrappers
  import opened JsText
  import opened JsNumber
  import opened Valorador

  /** The page's query string (URLSearchParams): parameter name to value. */
  type Params = map<string, Scalar>

  /** `sp.get(k)`: None stands for `null`. */
  function Get(sp: Params, k: string): Option<Scalar> {
    if k in sp then Some(sp[k]) else None
  }

  /**
   * `isZonaKey(v)`, narrowed to the zone it names. A value written from a number
   * is digits and never a zone key; `null` and "" are not keys either.
   */
  function ZonaParam(v: Option<Scalar>): (z: Option<Zona>)
    ensures z.Some? ==> v == Some(Str(z.value.Key()))
    ensures z.None? ==> forall y: Zona :: v != Some(Str(y.Key()))
  {
    match v
    case Some(Str(s)) => ZonaFromKey(s)
    case _ => None
  }

  /** `isEstado(v)`, narrowed to the condition it names. */
  function EstadoParam(v: Option<Scalar>): (e: Option<Estado>)
    ensures e.Some? ==> v == Some(Str(e.value.Key()))
    ensures e.None? ==> forall y: Estado :: v != Some(Str(y.Key()))
  {
    match v
    case Some(Str(s)) => EstadoFromKey(s)
    case _ => None
  }

  /** `asBool(v)`: only "1", "true" and "yes" are true; String(n) is "1" only for n = 1. */
  function AsBool(v: Scalar): (b: bool)
    ensures b <==> v in {Str("1"), Str("true"), Str("yes"), Number(Fin(1.0))}
  {
    match v
    case Str(s) => s == "1" || s == "true" || s == "yes"
    case Number(n) => n == Fin(1.0)
  }

  /** `Number(v)` of a parameter: `Number(null)` is 0. */
  function ParamNumber(v: Option<Scalar>): (n: Num)
    ensures v.None? ==> n == Fin(0.0)
  {
    match v
    case None => Fin(0.0)
    case Some(x) => ToNumber(x)
  }

  /** `asNum(v, fallback)`: the fallback replaces NaN and the infinities only. */
  function AsNum(v: Option<Scalar>, fallback: real): (r: real)
    ensures v.None? ==> r == 0.0
    ensures ParamNumber(v).IsFinite() ==> r == ParamNumber(v).v
    ensures !ParamNumber(v).IsFinite() ==> r == fallback
  {
    var n := ParamNumber(v);
    if n.IsFinite() then n.v else fallback
  }

  /** An absent or blank parameter reads as 0, never as the fallback. */
  lemma BlankNumberIsZero(v: Option<Scalar>, fallback: real)
    requires v.None? || (v.value.Str? && AllSpace(v.value.s))
    ensures AsNum(v, fallback) == 0.0
  {
  }

  /** `Math.max(20, Math.min(400, isNaN(m2) ? 0 : m2))`. */
  function SafeArea(m2: Num): (a: real)
    ensures 20.0 <= a <= 400.0
    ensures m2.NaN? || m2.NegInf? ==> a == 20.0
    ensures m2.PosInf? ==> a == 400.0
    ensures m2.Fin? && 20.0 <= m2.v <= 400.0 ==> a == m2.v
    ensures m2.Fin? && m2.v < 20.0 ==> a == 20.0
    ensures m2.Fin? && m2.v > 400.0 ==> a == 400.0
  {
    match m2
    case NaN => Max(20.0, Min(400.0, 0.0))
    case Fin(x) => Max(20.0, Min(400.0, x))
    case PosInf => 400.0
    case NegInf => 20.0
  }

  /** The range this form shows for state `v`. */
  function Quote(v: Inputs): (r: PriceRange)
    ensures 0 < r.min <= r.mid <= r.max
  {
    QuoteOrdered(SafeArea(v.m2), EffectiveEurM2(v), v);
    RangeAround(Central(SafeArea(v.m2), EffectiveEurM2(v), Multiplier(v)))
  }

  /** The manual price only matters in the "otro" zone. */
  lemma QuoteIgnoresManualPrice(v: Inputs, p: real)
    requires v.zona != Otro
    ensures Quote(v.(eurM2Manual := p)) == Quote(v)
  {
    var v' := v.(eurM2Manual := p);
    MultiplierCongruent(v', v);
  }

  /** A boolean parameter: the current value when absent, `asBool` of it when present. */
  function FlagParam(v: Option<Scalar>, current: bool): (b: bool)
    ensures v.None? ==> b == current
    ensures v.Some? ==> b == AsBool(v.value)
  {
    if v.Some? then AsBool(v.value) else current
  }

  /** The eurM2Manual parameter: accepted only when it is a finite number of at least 500. */
  function ManualPriceParam(v: Option<Scalar>, current: real): (p: real)
    ensures p != current ==> v.Some? && ToNumber(v.value) == Fin(p) && p >= 500.0
    ensures v.Some? && ToNumber(v.value).Fin? && ToNumber(v.value).v >= 500.0 ==> p == ToNumber(v.value).v
  {
    if v.Some? then
      var n := ToNumber(v.value);
      if n.IsFinite() && n.v >= 500.0 then n.v else current
    else current
  }

  /** The first part of the preload effect: a valid zona or estado parameter is adopted. */
  function WithChoices(w: Inputs, sp: Params): Inputs {
    var z := ZonaParam(Get(sp, "zona"));
    var e := EstadoParam(Get(sp, "estado"));
    w.(zona := if z.Some? then z.value else w.zona, estado := if e.Some? then e.value else w.estado)
  }

  /** The numeric part: m2, habitaciones and banos are always overwritten through `asNum`. */
  function WithNumbers(w: Inputs, sp: Params): Inputs {
    w.(m2 := Fin(AsNum(Get(sp, "m2"), 80.0)),
       habitaciones := AsNum(Get(sp, "habitaciones"), 3.0),
       banos := AsNum(Get(sp, "banos"), 1.0))
  }

  /** The boolean part: a flag is overwritten only when its parameter is present. */
  function WithFlags(w: Inputs, sp: Params): Inputs {
    w.(ascensor := FlagParam(Get(sp, "ascensor"), w.ascensor),
       exterior := FlagParam(Get(sp, "exterior"), w.exterior),
       terraza := FlagParam(Get(sp, "terraza"), w.terraza),
       garaje := FlagParam(Get(sp, "garaje"), w.garaje))
  }

  /** The state after the query-parameter preload effect, starting from `w`. */
  function Preloaded(w: Inputs, sp: Params): Inputs {
    var r := WithFlags(WithNumbers(WithChoices(w, sp), sp), sp);
    r.(eurM2Manual := ManualPriceParam(Get(sp, "eurM2Manual"), w.eurM2Manual))
  }

  /** The preload adopts a valid zona or estado parameter; an invalid one leaves the state alone. */
  lemma PreloadedChoices(w: Inputs, sp: Params)
    ensures var r := Preloaded(w, sp);
      && (forall z: Zona :: Get(sp, "zona") == Some(Str(z.Key())) ==> r.zona == z)
      && ((forall z: Zona :: Get(sp, "zona") != Some(Str(z.Key()))) ==> r.zona == w.zona)
      && (forall e: Estado :: Get(sp, "estado") == Some(Str(e.Key())) ==> r.estado == e)
      && ((forall e: Estado :: Get(sp, "estado") != Some(Str(e.Key()))) ==> r.estado == w.estado)
  {
    var z := ZonaParam(Get(sp, "zona"));
    if z.Some? {
      forall y: Zona | Get(sp, "zona") == Some(Str(y.Key())) ensures y == z.value {
        KeyInjective(y, z.value);
      }
    }
    var e := EstadoParam(Get(sp, "estado"));
    if e.Some? {
      forall y: Estado | Get(sp, "estado") == Some(Str(y.Key())) ensures y == e.value {
        assert y.Key() == e.value.Key();
      }
    }
  }

  /**
   * The numbers are always overwritten, an absent one with 0; the manual price
   * changes only to a finite value of at least 500.
   */
  lemma PreloadedNumbers(w: Inputs, sp: Params)
    ensures var r := Preloaded(w, sp);
      && r.m2.IsFinite()
      && ("m2" !in sp ==> r.m2 == Fin(0.0))
      && ("habitaciones" !in sp ==> r.habitaciones == 0.0)
      && ("banos" !in sp ==> r.banos == 0.0)
      && (r.eurM2Manual != w.eurM2Manual ==>
            "eurM2Manual" in sp && ToNumber(sp["eurM2Manual"]) == Fin(r.eurM2Manual) && r.eurM2Manual >= 500.0)
  {
  }

  /** A flag changes only when its parameter is present, and then to `asBool` of it. */
  lemma PreloadedFlags(w: Inputs, sp: Params)
    ensures var r := Preloaded(w, sp);
      && ("ascensor" !in sp ==> r.ascensor == w.ascensor)
      && ("ascensor" in sp ==> r.ascensor == AsBool(sp["ascensor"]))
      && ("exterior" !in sp ==> r.exterior == w.exterior)
      && ("exterior" in sp ==> r.exterior == AsBool(sp["exterior"]))
      && ("terraza" !in sp ==> r.terraza == w.terraza)
      && ("terraza" in sp ==> r.terraza == AsBool(sp["terraza"]))
      && ("garaje" !in sp ==> r.garaje == w.garaje)
      && ("garaje" in sp ==> r.garaje == AsBool(sp["garaje"]))
  {
  }

  /** The zone-sync effect as it runs for the zone `seen`: outside "otro" the manual price follows the table. */
  function SyncedWith(w: Inputs, seen: Zona): (r: Inputs)
    ensures r.(eurM2Manual := w.eurM2Manual) == w
    ensures seen == Otro ==> r == w
    ensures seen != Otro ==> r.eurM2Manual == seen.EurM2()
  {
    if seen != Otro then w.(eurM2Manual := seen.EurM2()) else w
  }

  /**
   * Mounting as written: both effects run after the first render, so the sync
   * effect sees the zone `w.zona` of that render and queues its reset after the
   * preloaded manual price; it runs again only if the preload changed the zone.
   */
  function MountedAsWritten(w: Inputs, sp: Params): Inputs {
    var p := Preloaded(w, sp);
    var s := SyncedWith(p, w.zona);
    if p.zona != w.zona then SyncedWith(s, p.zona) else s
  }

  /** Mounting as evidently intended: the sync applies to the zone the preload chose. */
  function Mounted(w: Inputs, sp: Params): Inputs {
    var p := Preloaded(w, sp);
    SyncedWith(p, p.zona)
  }

  /** From a start outside "otro", the eurM2Manual parameter never reaches the mounted state. */
  lemma MountedAsWrittenIgnoresManualPrice(w: Inputs, sp: Params)
    requires w.zona != Otro
    ensures MountedAsWritten(w, sp) == MountedAsWritten(w, sp - {"eurM2Manual"})
  {
    var sp' := sp - {"eurM2Manual"};
    assert Get(sp', "zona") == Get(sp, "zona") && Get(sp', "estado") == Get(sp, "estado");
    assert WithChoices(w, sp') == WithChoices(w, sp);
    var c := WithChoices(w, sp);
    assert Get(sp', "m2") == Get(sp, "m2") && Get(sp', "habitaciones") == Get(sp, "habitaciones");
    assert Get(sp', "banos") == Get(sp, "banos");
    assert WithNumbers(c, sp') == WithNumbers(c, sp);
    var n := WithNumbers(c, sp);
    assert Get(sp', "ascensor") == Get(sp, "ascensor") && Get(sp', "exterior") == Get(sp, "exterior");
    assert Get(sp', "terraza") == Get(sp, "terraza") && Get(sp', "garaje") == Get(sp, "garaje");
    assert WithFlags(n, sp') == WithFlags(n, sp);
  }

  /** A link for zone "otro" at 3 500 €/m², 80 m², 3 rooms and 1 bathroom. */
  const ManualLink: Params := map[
    "zona" := Str("otro"), "m2" := Number(Fin(80.0)), "habitaciones" := Number(Fin(3.0)),
    "banos" := Number(Fin(1.0)), "eurM2Manual" := Number(Fin(3500.0))]

  lemma ManualLinkPreload()
    ensures Preloaded(Defaults, ManualLink) == Defaults.(zona := Otro, m2 := Fin(80.0), eurM2Manual := 3500.0)
  {
    assert Get(ManualLink, "zona") == Some(Str("otro"));
    assert Get(ManualLink, "estado") == None;
    assert Get(ManualLink, "m2") == Some(Number(Fin(80.0)));
    assert Get(ManualLink, "habitaciones") == Some(Number(Fin(3.0)));
    assert Get(ManualLink, "banos") == Some(Number(Fin(1.0)));
    assert Get(ManualLink, "eurM2Manual") == Some(Number(Fin(3500.0)));
    assert forall k :: k in {"ascensor", "exterior", "terraza", "garaje"} ==> Get(ManualLink, k) == None;
  }

  /** The link's state with manual price `p`: its quote is centred on 80 m² × p × 1.02 × 1.02. */
  lemma LinkQuote(p: real)
    requires p >= 500.0
    ensures Quote(Defaults.(zona := Otro, m2 := Fin(80.0), eurM2Manual := p)) == RangeAround(80.0 * p * 1.0404)
  {
    var v := Defaults.(zona := Otro, m2 := Fin(80.0), eurM2Manual := p);
    assert RoomsFactor(3.0) == 1.0 && BathsFactor(1.0) == 1.0;
    assert Multiplier(v) == 1.0404;
    assert SafeArea(v.m2) == 80.0 && EffectiveEurM2(v) == p;
  }

  /** As written, the link's 3 500 €/m² is replaced by 2 600 and the quote drops accordingly. */
  lemma ManualPriceLostOnMount()
    ensures MountedAsWritten(Defaults, ManualLink).eurM2Manual == 2600.0
    ensures Quote(MountedAsWritten(Defaults, ManualLink)).mid == 216403
  {
    ManualLinkPreload();
    assert MountedAsWritten(Defaults, ManualLink) == Defaults.(zona := Otro, m2 := Fin(80.0));
    LinkQuote(2600.0);
    assert Round(216403.2) == 216403;
  }

  /** Mounted as intended, the same link keeps its 3 500 €/m² and quotes with it. */
  lemma ManualPriceKeptOnMount()
    ensures Mounted(Defaults, ManualLink).eurM2Manual == 3500.0
    ensures Quote(Mounted(Defaults, ManualLink)).mid == 291312
  {
    ManualLinkPreload();
    assert Mounted(Defaults, ManualLink) == Defaults.(zona := Otro, m2 := Fin(80.0), eurM2Manual := 3500.0);
    LinkQuote(3500.0);
    RoundWhole(291312);
  }

  /** Mounting as intended keeps every preloaded field that reaches the price, so the quote is the preloaded one. */
  lemma MountedQuotesPreload(w: Inputs, sp: Params)
    ensures Quote(Mounted(w, sp)) == Quote(Preloaded(w, sp))
    ensures Mounted(w, sp).zona == Otro ==> Mounted(w, sp) == Preloaded(w, sp)
  {
    var p := Preloaded(w, sp);
    if p.zona != Otro {
      QuoteIgnoresManualPrice(p, p.zona.EurM2());
    }
  }

  /** `submitLead`'s gate: the error shown, or None when the lead may be sent. */
  function LeadError(name: string, phone: string, privacy: bool): (err: Option<string>)
    ensures err.None? <==> Trim(name) != [] && Trim(phone) != [] && privacy
    ensures (Trim(name) == [] || Trim(phone) == []) ==> err == Some("Completa nombre y teléfono.")
    ensures Trim(name) != [] && Trim(phone) != [] && !privacy ==> err == Some("Debes aceptar la política de privacidad.")
  {
    if Trim(name) == [] || Trim(phone) == [] then Some("Completa nombre y teléfono.")
    else if !privacy then Some("Debes aceptar la política de privacidad.")
    else None
  }

  /** The form's state hooks. */
  class DetalleForm {
    var zona: Zona
    var m2: Num
    var habitaciones: real
    var banos: real
    var estado: Estado
    var ascensor: bool
    var exterior: bool
    var terraza: bool
    var garaje: bool
    var eurM2Manual: real

    function Snapshot(): Inputs
      reads this
    {
      Inputs(zona, m2, habitaciones, banos, estado, ascensor, exterior, terraza, garaje, eurM2Manual)
    }

    /** The initial `useState` values; the manual price starts at the initial zone's table price. */
    constructor()
      ensures Snapshot() == Defaults
    {
      zona, m2, habitaciones, banos, estado := Alcorcon, Fin(80.0), 3.0, 1.0, Normal;
      ascensor, exterior, terraza, garaje := true, true, false, false;
      eurM2Manual := Alcorcon.EurM2();
    }

    /** The preload effect: each parameter that is present and valid overwrites its field. */
    method Preload(sp: Params)
      modifies this
      ensures Snapshot() == Preloaded(old(Snapshot()), sp)
    {
      PreloadChoices(sp);
      PreloadNumbers(sp);
      PreloadFlags(sp);
      var em := Get(sp, "eurM2Manual");
      if em.Some? {
        var n := ToNumber(em.value);
        if n.IsFinite() && n.v >= 500.0 { eurM2Manual := n.v; }
      }
    }

    method PreloadChoices(sp: Params)
      modifies this
      ensures Snapshot() == WithChoices(old(Snapshot()), sp)
    {
      var z := Get(sp, "zona");
      var zk := ZonaParam(z);
      if zk.Some? { zona := zk.value; }
      var est := Get(sp, "estado");
      var ek := EstadoParam(est);
      if ek.Some? { estado := ek.value; }
    }

    method PreloadNumbers(sp: Params)
      modifies this
      ensures Snapshot() == WithNumbers(old(Snapshot()), sp)
    {
      m2 := Fin(AsNum(Get(sp, "m2"), 80.0));
      habitaciones := AsNum(Get(sp, "habitaciones"), 3.0);
      banos := AsNum(Get(sp, "banos"), 1.0);
    }

    method PreloadFlags(sp: Params)
      modifies this
      ensures Snapshot() == WithFlags(old(Snapshot()), sp)
    {
      var a := Get(sp, "ascensor");
      if a.Some? { ascensor := AsBool(a.value); }
      var ex := Get(sp, "exterior");
      if ex.Some? { exterior := AsBool(ex.value); }
      var t := Get(sp, "terraza");
      if t.Some? { terraza := AsBool(t.value); }
      var g := Get(sp, "garaje");
      if g.Some? { garaje := AsBool(g.value); }
    }

    /** The zone-sync effect, run with the zone `seen` its render captured. */
    method SyncManualPrice(seen: Zona)
      modifies this
      ensures Snapshot() == SyncedWith(old(Snapshot()), seen)
    {
      if seen != Otro { eurM2Manual := seen.EurM2(); }
    }

    /** The first mount as the component runs it (see MountedAsWritten). */
    method MountAsWritten(sp: Params)
      modifies this
      ensures Snapshot() == MountedAsWritten(old(Snapshot()), sp)
    {
      var rendered := zona;
      Preload(sp);
      SyncManualPrice(rendered);
      if zona != rendered {
        SyncManualPrice(zona);
      }
    }

    /** The first mount with the sync applied to the preloaded zone only. */
    method Mount(sp: Params)
      modifies this
      ensures Snapshot() == Mounted(old(Snapshot()), sp)
      ensures Quote(Snapshot()) == Quote(Preloaded(old(Snapshot()), sp))
    {
      ghost var w := Snapshot();
      Preload(sp);
      SyncManualPrice(zona);
      MountedQuotesPreload(w, sp);
    }

    /** Choosing a zone in the select: the sync effect follows the new zone. */
    method SelectZona(z: Zona)
      modifies this
      ensures Snapshot() == SyncedWith(old(Snapshot()).(zona := z), z)
    {
      zona := z;
      SyncManualPrice(z);
    }

    /** The valuation `useMemo` over the current state. */
    method Valuation() returns (r: PriceRange)
      ensures r == Quote(Snapshot())
      ensures 0 < r.min <= r.mid <= r.max
    {
      var area := SafeArea(m2);
      var eurM2 := if zona == Otro then eurM2Manual else zona.EurM2();
      r := Estimate(area, eurM2, Snapshot());
    }
  }
}
