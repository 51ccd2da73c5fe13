/**
 * The quick estimator (ValoradorVivienda): the shared formula with `clampNum`
 * for the area, a precision badge, and the link that carries the form to the
 * detailed estimator as query parameters.
 */
module ValoradorVivienda {
  import opened Wrappers
  import opened JsNumber
  import opened Seqs
  import opened Valorador
  import Detalle = ValoradorDetalle

  /** `clampNum(n, min, max)`: a non-finite input gives `min`. */
  function ClampNum(n: Num, lo: real, hi: real): (r: real)
    ensures !n.IsFinite() ==> r == lo
    ensures lo <= r
    ensures n.IsFinite() && lo <= hi ==> r <= hi
    ensures n.IsFinite() && lo <= n.v <= hi ==> r == n.v
    ensures n.IsFinite() && n.v < lo ==> r == lo
    ensures n.IsFinite() && lo <= hi && n.v > hi ==> r == hi
  {
    if !n.IsFinite() then lo else Max(lo, Min(hi, n.v))
  }

  /** Clamping twice is clamping once. */
  lemma ClampNumIdempotent(n: Num, lo: real, hi: real)
    requires lo <= hi
    ensures ClampNum(Fin(ClampNum(n, lo, hi)), lo, hi) == ClampNum(n, lo, hi)
  {
  }

  /** The range this form shows for state `v`. */
  function Quote(v: Inputs): (r: PriceRange)
    ensures 0 < r.min <= r.mid <= r.max
  {
    QuoteOrdered(ClampNum(v.m2, 20.0, 400.0), EffectiveEurM2(v), v);
    RangeAround(Central(ClampNum(v.m2, 20.0, 400.0), EffectiveEurM2(v), Multiplier(v)))
  }

  /**
   * The two estimators agree except on an area of +Infinity, which the detailed
   * one reads as 400 m² and this one as 20 m².
   */
  lemma VariantsAgree(v: Inputs)
    ensures v.m2 != PosInf ==> Quote(v) == Detalle.Quote(v)
    ensures v.m2 == PosInf ==> Quote(v).mid < Detalle.Quote(v).mid
  {
    if v.m2 == PosInf {
      MultiplierBounds(v);
      LargestAreaExceedsSmallest(EffectiveEurM2(v), Multiplier(v));
    } else {
      assert Detalle.SafeArea(v.m2) == ClampNum(v.m2, 20.0, 400.0);
    }
  }

  /** The number of amenities ticked. */
  function AmenityCount(v: Inputs): (n: nat)
    ensures n <= 4
    ensures n == 0 <==> !v.ascensor && !v.exterior && !v.terraza && !v.garaje
    ensures n == 4 <==> v.ascensor && v.exterior && v.terraza && v.garaje
  {
    (if v.ascensor then 1 else 0) + (if v.exterior then 1 else 0)
      + (if v.terraza then 1 else 0) + (if v.garaje then 1 else 0)
  }

  /** `[ascensor, exterior, terraza, garaje].filter(Boolean)` has one entry per amenity ticked. */
  lemma {:induction false} ExtrasCounted(v: Inputs)
    ensures |Filter((b: bool) => b, [v.ascensor, v.exterior, v.terraza, v.garaje])| == AmenityCount(v)
  {
    var keep := (b: bool) => b;
    var flags := [v.ascensor, v.exterior, v.terraza, v.garaje];
    assert flags[1..] == [v.exterior, v.terraza, v.garaje];
    assert flags[1..][1..] == [v.terraza, v.garaje];
    assert flags[1..][1..][1..] == [v.garaje];
    assert [v.garaje][1..] == [];
    var n4 := |Filter(keep, [v.garaje])|;
    assert n4 == (if v.garaje then 1 else 0);
    var n3 := |Filter(keep, [v.terraza, v.garaje])|;
    assert n3 == (if v.terraza then 1 else 0) + n4;
    var n2 := |Filter(keep, [v.exterior, v.terraza, v.garaje])|;
    assert n2 == (if v.exterior then 1 else 0) + n3;
    assert |Filter(keep, flags)| == (if v.ascensor then 1 else 0) + n2;
  }

  /** The precision badge: "Rápida" with details hidden, otherwise by the amenities ticked. */
  function PrecisionLabel(showMore: bool, v: Inputs): (badge: string)
    ensures !showMore ==> badge == "Rápida"
    ensures showMore && AmenityCount(v) >= 3 ==> badge == "Alta"
    ensures showMore && 1 <= AmenityCount(v) <= 2 ==> badge == "Media"
    ensures showMore && AmenityCount(v) == 0 ==> badge == "Rápida+"
  {
    if !showMore then "Rápida"
    else
      var extras := |Filter((b: bool) => b, [v.ascensor, v.exterior, v.terraza, v.garaje])|;
      ExtrasCounted(v);
      var score := 3 + extras;
      if score >= 6 then "Alta"
      else if score >= 4 then "Media"
      else "Rápida+"
  }

  /** A boolean as the link writes it. */
  function FlagText(b: bool): Scalar {
    Str(if b then "1" else "0")
  }

  /** A finite number written into the link, within [lo, hi]. */
  predicate NumberIn(x: Scalar, lo: real, hi: real) {
    x.Number? && x.n.Fin? && lo <= x.n.v <= hi
  }

  /** The parameters every link carries. */
  const LinkKeys: set<string> :=
    {"zona", "m2", "habitaciones", "banos", "estado", "ascensor", "exterior", "terraza", "garaje"}

  /** `detailsHref`'s URLSearchParams, as a map. */
  function DetailsQuery(v: Inputs): (q: map<string, Scalar>)
    ensures q.Keys == if v.zona == Otro then LinkKeys + {"eurM2Manual"} else LinkKeys
    ensures Detalle.Get(q, "zona") == Some(Str(v.zona.Key())) && Detalle.Get(q, "estado") == Some(Str(v.estado.Key()))
    ensures Detalle.Get(q, "m2") == Some(Number(Fin(ClampNum(v.m2, 20.0, 400.0))))
    ensures Detalle.Get(q, "habitaciones") == Some(Number(Fin(ClampNum(Fin(v.habitaciones), 0.0, 10.0))))
    ensures Detalle.Get(q, "banos") == Some(Number(Fin(ClampNum(Fin(v.banos), 0.0, 6.0))))
    ensures Detalle.Get(q, "ascensor") == Some(FlagText(v.ascensor)) && Detalle.Get(q, "exterior") == Some(FlagText(v.exterior))
    ensures Detalle.Get(q, "terraza") == Some(FlagText(v.terraza)) && Detalle.Get(q, "garaje") == Some(FlagText(v.garaje))
    ensures Detalle.Get(q, "eurM2Manual") == if v.zona == Otro then Some(Number(Fin(Max(500.0, v.eurM2Manual)))) else None
  {
    var q := LinkParams(v);
    if v.zona == Otro then q["eurM2Manual" := Number(Fin(Max(500.0, v.eurM2Manual)))] else q
  }

  /** The nine parameters every link carries, in the order they are set. */
  function LinkParams(v: Inputs): map<string, Scalar> {
    map[
      "zona" := Str(v.zona.Key()),
      "m2" := Number(Fin(ClampNum(v.m2, 20.0, 400.0))),
      "habitaciones" := Number(Fin(ClampNum(Fin(v.habitaciones), 0.0, 10.0))),
      "banos" := Number(Fin(ClampNum(Fin(v.banos), 0.0, 6.0))),
      "estado" := Str(v.estado.Key()),
      "ascensor" := FlagText(v.ascensor),
      "exterior" := FlagText(v.exterior),
      "terraza" := FlagText(v.terraza),
      "garaje" := FlagText(v.garaje)]
  }

  /**
   * The numbers the link carries are finite and within the clamps; an area already
   * within [20, 400] and a manual price of at least 500 travel unchanged.
   */
  lemma DetailsQueryBounds(v: Inputs)
    ensures var q := DetailsQuery(v);
      && NumberIn(q["m2"], 20.0, 400.0) && NumberIn(q["habitaciones"], 0.0, 10.0) && NumberIn(q["banos"], 0.0, 6.0)
      && (v.m2.Fin? && 20.0 <= v.m2.v <= 400.0 ==> q["m2"] == Number(v.m2))
      && (v.zona == Otro ==> NumberIn(q["eurM2Manual"], 500.0, Max(500.0, v.eurM2Manual)))
      && (v.zona == Otro && v.eurM2Manual >= 500.0 ==> q["eurM2Manual"] == Number(Fin(v.eurM2Manual)))
  {
  }

  /** Every zone key reads back as its zone, every condition key as its condition. */
  lemma KeysRoundTrip(z: Zona, e: Estado)
    ensures Detalle.ZonaParam(Some(Str(z.Key()))) == Some(z)
    ensures Detalle.EstadoParam(Some(Str(e.Key()))) == Some(e)
  {
    match z
    case Alcorcon =>
    case Mostoles =>
    case Leganes =>
    case Getafe =>
    case Fuenlabrada =>
    case Sur =>
    case Otro =>
  }

  /** "1" and "0" read back as the flag they encode. */
  lemma FlagRoundTrip(b: bool)
    ensures Detalle.AsBool(FlagText(b)) == b
  {
  }

  lemma ChoicesRoundTrip(w: Inputs, v: Inputs)
    ensures Detalle.WithChoices(w, DetailsQuery(v)) == w.(zona := v.zona, estado := v.estado)
  {
    KeysRoundTrip(v.zona, v.estado);
  }

  lemma NumbersRoundTrip(w: Inputs, v: Inputs)
    ensures Detalle.WithNumbers(w, DetailsQuery(v)) ==
      w.(m2 := Fin(ClampNum(v.m2, 20.0, 400.0)),
         habitaciones := ClampNum(Fin(v.habitaciones), 0.0, 10.0),
         banos := ClampNum(Fin(v.banos), 0.0, 6.0))
  {
    var q := DetailsQuery(v);
  }

  lemma FlagsRoundTrip(w: Inputs, v: Inputs)
    ensures Detalle.WithFlags(w, DetailsQuery(v)) ==
      w.(ascensor := v.ascensor, exterior := v.exterior, terraza := v.terraza, garaje := v.garaje)
  {
    var q := DetailsQuery(v);
    FlagRoundTrip(v.ascensor);
    FlagRoundTrip(v.exterior);
    FlagRoundTrip(v.terraza);
    FlagRoundTrip(v.garaje);
  }

  lemma ManualPriceRoundTrip(current: real, v: Inputs)
    ensures Detalle.ManualPriceParam(Detalle.Get(DetailsQuery(v), "eurM2Manual"), current)
            == if v.zona == Otro then Max(500.0, v.eurM2Manual) else current
  {
    var q := DetailsQuery(v);
  }

  /**
   * Reading the link back with the detailed estimator's preload restores the
   * form, up to the clamps the link applies and the manual price, which only
   * travels in the "otro" zone.
   */
  lemma DetailsRoundTrip(w: Inputs, v: Inputs)
    ensures Detalle.Preloaded(w, DetailsQuery(v)) ==
      v.(m2 := Fin(ClampNum(v.m2, 20.0, 400.0)),
         habitaciones := ClampNum(Fin(v.habitaciones), 0.0, 10.0),
         banos := ClampNum(Fin(v.banos), 0.0, 6.0),
         eurM2Manual := if v.zona == Otro then Max(500.0, v.eurM2Manual) else w.eurM2Manual)
  {
    var q := DetailsQuery(v);
    ChoicesRoundTrip(w, v);
    var c := Detalle.WithChoices(w, q);
    NumbersRoundTrip(c, v);
    var n := Detalle.WithNumbers(c, q);
    FlagsRoundTrip(n, v);
    ManualPriceRoundTrip(w.eurM2Manual, v);
  }

  /** The room factor saturates at 0 and 6 rooms, so the link's [0, 10] clamp keeps it. */
  lemma RoomsFactorClamped(h: real)
    ensures RoomsFactor(ClampNum(Fin(h), 0.0, 10.0)) == RoomsFactor(h)
  {
  }

  /** The bathroom factor saturates at 3 bathrooms, so the link's [0, 6] clamp keeps it for b >= 0. */
  lemma BathsFactorClamped(b: real)
    requires b >= 0.0
    ensures BathsFactor(ClampNum(Fin(b), 0.0, 6.0)) == BathsFactor(b)
  {
  }

  /**
   * Following the link, the detailed estimator mounted as intended shows the same
   * range as this one, provided the bathrooms are not negative (the link clamps
   * them to 0, which changes the bathroom factor).
   */
  lemma DetailsQuoteSurvives(w: Inputs, v: Inputs)
    requires v.banos >= 0.0
    ensures Detalle.Quote(Detalle.Mounted(w, DetailsQuery(v))) == Quote(v)
  {
    var q := DetailsQuery(v);
    var p := Detalle.Preloaded(w, q);
    Detalle.MountedQuotesPreload(w, q);
    DetailsRoundTrip(w, v);
    RoomsFactorClamped(v.habitaciones);
    BathsFactorClamped(v.banos);
    MultiplierCongruent(p, v);
    assert Detalle.SafeArea(p.m2) == ClampNum(v.m2, 20.0, 400.0);
    CentralCongruent(ClampNum(v.m2, 20.0, 400.0), EffectiveEurM2(p), EffectiveEurM2(v), Multiplier(v));
  }

  /** The quick form's state hooks. */
  class ViviendaForm {
    var zona: Zona
    var m2: Num
    var showMore: bool
    var habitaciones: real
    var banos: real
    var estado: Estado
    var ascensor: bool
    var exterior: bool
    var terraza: bool
    var garaje: bool
    var eurM2Manual: real

    function Snapshot(): Inputs
      reads this
    {
      Inputs(zona, m2, habitaciones, banos, estado, ascensor, exterior, terraza, garaje, eurM2Manual)
    }

    /** The initial `useState` values, details hidden. */
    constructor()
      ensures Snapshot() == Defaults && !showMore
    {
      zona, m2, habitaciones, banos, estado := Alcorcon, Fin(80.0), 3.0, 1.0, Normal;
      ascensor, exterior, terraza, garaje := true, true, false, false;
      eurM2Manual := Alcorcon.EurM2();
      showMore := false;
    }

    /** Choosing a zone also resets the manual price to that zone's table price. */
    method SelectZona(z: Zona)
      modifies this
      ensures Snapshot() == old(Snapshot()).(zona := z, eurM2Manual := z.EurM2())
      ensures showMore == old(showMore)
      ensures EffectiveEurM2(Snapshot()) == z.EurM2()
    {
      zona := z;
      eurM2Manual := z.EurM2();
    }

    /** The valuation `useMemo` over the current state. */
    method Valuation() returns (r: PriceRange)
      ensures r == Quote(Snapshot())
      ensures 0 < r.min <= r.mid <= r.max
    {
      var area := ClampNum(m2, 20.0, 400.0);
      var eurM2 := if zona == Otro then eurM2Manual else zona.EurM2();
      r := Estimate(area, eurM2, Snapshot());
    }

    /** `detailsHref`: the parameters set one after another. */
    method DetailsHref() returns (params: map<string, Scalar>)
      ensures params == DetailsQuery(Snapshot())
    {
      var v := Snapshot();
      params := map[];
      params := params["zona" := Str(v.zona.Key())];
      params := params["m2" := Number(Fin(ClampNum(v.m2, 20.0, 400.0)))];
      params := params["habitaciones" := Number(Fin(ClampNum(Fin(v.habitaciones), 0.0, 10.0)))];
      params := params["banos" := Number(Fin(ClampNum(Fin(v.banos), 0.0, 6.0)))];
      params := params["estado" := Str(v.estado.Key())];
      params := params["ascensor" := FlagText(v.ascensor)];
      params := params["exterior" := FlagText(v.exterior)];
      params := params["terraza" := FlagText(v.terraza)];
      params := params["garaje" := FlagText(v.garaje)];
      assert params == LinkParams(v);
      if v.zona == Otro {
        params := params["eurM2Manual" := Number(Fin(Max(500.0, v.eurM2Manual)))];
      }
    }
  }
}
