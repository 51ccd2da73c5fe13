/**
 * What the two quick estimators (ValoradorDetalle and ValoradorVivienda) have in
 * common: the ZONAS price table, the form state, the adjustment factors and the
 * range built around the central estimate. Each variant clamps the area its own way.
 */
module Valorador {
  import opened Wrappers
  import opened JsNumber

  /** The `key` column of ZONAS; `Otro` is the zone whose price the user types in. */
  datatype Zona = Alcorcon | Mostoles | Leganes | Getafe | Fuenlabrada | Sur | Otro {

    function Key(): string {
      match this
      case Alcorcon => "alcorcon"
      case Mostoles => "mostoles"
      case Leganes => "leganes"
      case Getafe => "getafe"
      case Fuenlabrada => "fuenlabrada"
      case Sur => "sur"
      case Otro => "otro"
    }

    /** The `eurM2` column of ZONAS. */
    function EurM2(): (p: real)
      ensures 2400.0 <= p <= 2900.0
    {
      match this
      case Alcorcon => 2600.0
      case Mostoles => 2500.0
      case Leganes => 2700.0
      case Getafe => 2900.0
      case Fuenlabrada => 2400.0
      case Sur => 2600.0
      case Otro => 2600.0
    }
  }

  /** The zone whose key is `s`, if any (membership in ZONA_KEYS). */
  function ZonaFromKey(s: string): (z: Option<Zona>)
    ensures z.Some? ==> z.value.Key() == s
    ensures z.None? ==> forall y: Zona :: y.Key() != s
  {
    if s == "alcorcon" then Some(Alcorcon)
    else if s == "mostoles" then Some(Mostoles)
    else if s == "leganes" then Some(Leganes)
    else if s == "getafe" then Some(Getafe)
    else if s == "fuenlabrada" then Some(Fuenlabrada)
    else if s == "sur" then Some(Sur)
    else if s == "otro" then Some(Otro)
    else None
  }

  /** Different zones have different keys. */
  lemma KeyInjective(a: Zona, b: Zona)
    requires a.Key() == b.Key()
    ensures a == b
  {
  }

  datatype Estado = Reformar | Normal | Reformado {
    function Key(): string {
      match this
      case Reformar => "reformar"
      case Normal => "normal"
      case Reformado => "reformado"
    }
  }

  /** The estado whose key is `s`, if any (membership in ESTADOS). */
  function EstadoFromKey(s: string): (e: Option<Estado>)
    ensures e.Some? ==> e.value.Key() == s
    ensures e.None? ==> forall y: Estado :: y.Key() != s
  {
    if s == "reformar" then Some(Reformar)
    else if s == "normal" then Some(Normal)
    else if s == "reformado" then Some(Reformado)
    else None
  }

  /** The form state both estimators keep (one React state hook per field). */
  datatype Inputs = Inputs(
    zona: Zona, m2: Num, habitaciones: real, banos: real, estado: Estado,
    ascensor: bool, exterior: bool, terraza: bool, garaje: bool, eurM2Manual: real)

  /** The initial state of both forms. */
  const Defaults: Inputs := Inputs(Alcorcon, Fin(80.0), 3.0, 1.0, Normal, true, true, false, false, 2600.0)

  /** `zona === "otro" ? eurM2Manual : zonaBase.eurM2`. */
  function EffectiveEurM2(v: Inputs): (p: real)
    ensures v.zona != Otro ==> p == v.zona.EurM2()
    ensures v.zona == Otro ==> p == v.eurM2Manual
  {
    if v.zona == Otro then v.eurM2Manual else v.zona.EurM2()
  }

  function Max(a: real, b: real): real { if a >= b then a else b }
  function Min(a: real, b: real): real { if a <= b then a else b }

  /** `Math.min(hi, Math.max(lo, x))`. */
  function Clamp(x: real, lo: real, hi: real): (r: real)
    requires lo <= hi
    ensures lo <= r <= hi
    ensures lo <= x <= hi ==> r == x
    ensures x < lo ==> r == lo
    ensures x > hi ==> r == hi
  {
    Min(hi, Max(lo, x))
  }

  /** Condition factor: a reform needed lowers the price 12%, a recent reform raises it 8%. */
  function EstadoFactor(e: Estado): real {
    match e
    case Reformar => 0.88
    case Normal => 1.0
    case Reformado => 1.08
  }

  /** Bedrooms away from 3 move the price 1% each, at most 3% either way. */
  function RoomsFactor(h: real): (f: real)
    ensures 0.97 <= f <= 1.03
    ensures h <= 0.0 ==> f == 0.97
    ensures h >= 6.0 ==> f == 1.03
  {
    1.0 + Clamp((h - 3.0) * 0.01, -0.03, 0.03)
  }

  /** Bathrooms away from 1 move the price 1.5% each, at most 3% either way. */
  function BathsFactor(b: real): (f: real)
    ensures 0.97 <= f <= 1.03
    ensures b <= -1.0 ==> f == 0.97
    ensures b >= 3.0 ==> f == 1.03
  {
    1.0 + Clamp((b - 1.0) * 0.015, -0.03, 0.03)
  }

  function Bonus(present: bool, factor: real): real {
    if present then factor else 1.0
  }

  /** The multiplier `mult` as the estimators build it, factor by factor, left to right. */
  function Multiplier(v: Inputs): real {
    Product(EstadoFactor(v.estado), RoomsFactor(v.habitaciones), BathsFactor(v.banos),
            Bonus(v.ascensor, 1.02), Bonus(v.exterior, 1.02), Bonus(v.terraza, 1.015), Bonus(v.garaje, 1.03))
  }

  function Product(e: real, r: real, b: real, x1: real, x2: real, x3: real, x4: real): real {
    e * r * b * x1 * x2 * x3 * x4
  }

  /** The smallest and largest multipliers any form state can give. */
  const MultiplierLow: real := 0.88 * 0.97 * 0.97
  const MultiplierHigh: real := 1.08 * 1.03 * 1.03 * 1.02 * 1.02 * 1.015 * 1.03

  lemma ProductBounds(a: real, b: real, lo1: real, hi1: real, lo2: real, hi2: real)
    requires 0.0 <= lo1 <= a <= hi1 && 0.0 <= lo2 <= b <= hi2
    ensures lo1 * lo2 <= a * b <= hi1 * hi2
  {
    assert lo1 * lo2 <= a * lo2 <= a * b;
    assert a * b <= hi1 * b <= hi1 * hi2;
  }

  lemma BonusBounds(present: bool, factor: real)
    requires factor >= 1.0
    ensures 1.0 <= Bonus(present, factor) <= factor
  {
  }

  lemma ChainBounds(e: real, r: real, b: real, x1: real, x2: real, x3: real, x4: real)
    requires 0.88 <= e <= 1.08 && 0.97 <= r <= 1.03 && 0.97 <= b <= 1.03
    requires 1.0 <= x1 <= 1.02 && 1.0 <= x2 <= 1.02 && 1.0 <= x3 <= 1.015 && 1.0 <= x4 <= 1.03
    ensures MultiplierLow <= Product(e, r, b, x1, x2, x3, x4) <= MultiplierHigh
  {
    ProductBounds(e, r, 0.88, 1.08, 0.97, 1.03);
    ProductBounds(e * r, b, 0.88 * 0.97, 1.08 * 1.03, 0.97, 1.03);
    var m := e * r * b;
    ProductBounds(m, x1, MultiplierLow, 1.08 * 1.03 * 1.03, 1.0, 1.02);
    m := m * x1;
    ProductBounds(m, x2, MultiplierLow * 1.0, 1.08 * 1.03 * 1.03 * 1.02, 1.0, 1.02);
    m := m * x2;
    ProductBounds(m, x3, MultiplierLow * 1.0 * 1.0, 1.08 * 1.03 * 1.03 * 1.02 * 1.02, 1.0, 1.015);
    m := m * x3;
    ProductBounds(m, x4, MultiplierLow * 1.0 * 1.0 * 1.0, 1.08 * 1.03 * 1.03 * 1.02 * 1.02 * 1.015, 1.0, 1.03);
  }

  /** Every adjustment together stays within [0.88 * 0.97^2, 1.08 * 1.03^2 * 1.02^2 * 1.015 * 1.03]. */
  lemma MultiplierBounds(v: Inputs)
    ensures MultiplierLow <= Multiplier(v) <= MultiplierHigh
  {
    BonusBounds(v.ascensor, 1.02);
    BonusBounds(v.exterior, 1.02);
    BonusBounds(v.terraza, 1.015);
    BonusBounds(v.garaje, 1.03);
    ChainBounds(EstadoFactor(v.estado), RoomsFactor(v.habitaciones), BathsFactor(v.banos),
                Bonus(v.ascensor, 1.02), Bonus(v.exterior, 1.02), Bonus(v.terraza, 1.015), Bonus(v.garaje, 1.03));
  }

  lemma MoveFirst(p: real, x2: real, x3: real, x4: real, c: real)
    ensures p * c * x2 * x3 * x4 == p * 1.0 * x2 * x3 * x4 * c
  {
  }

  lemma MoveSecond(p: real, x3: real, x4: real, c: real)
    ensures p * c * x3 * x4 == p * 1.0 * x3 * x4 * c
  {
  }

  lemma MoveThird(p: real, x4: real, c: real)
    ensures p * c * x4 == p * 1.0 * x4 * c
  {
  }

  /** The elevator multiplies the estimate by 1.02 whatever the other inputs are. */
  lemma AscensorFactor(v: Inputs)
    ensures Multiplier(v.(ascensor := true)) == Multiplier(v.(ascensor := false)) * 1.02
  {
    var p := EstadoFactor(v.estado) * RoomsFactor(v.habitaciones) * BathsFactor(v.banos);
    var e, t, g := Bonus(v.exterior, 1.02), Bonus(v.terraza, 1.015), Bonus(v.garaje, 1.03);
    assert Multiplier(v.(ascensor := true)) == p * 1.02 * e * t * g;
    assert Multiplier(v.(ascensor := false)) == p * 1.0 * e * t * g;
    MoveFirst(p, e, t, g, 1.02);
  }

  /** Facing outside multiplies the estimate by 1.02 whatever the other inputs are. */
  lemma ExteriorFactor(v: Inputs)
    ensures Multiplier(v.(exterior := true)) == Multiplier(v.(exterior := false)) * 1.02
  {
    var p := EstadoFactor(v.estado) * RoomsFactor(v.habitaciones) * BathsFactor(v.banos) * Bonus(v.ascensor, 1.02);
    var t, g := Bonus(v.terraza, 1.015), Bonus(v.garaje, 1.03);
    assert Multiplier(v.(exterior := true)) == p * 1.02 * t * g;
    assert Multiplier(v.(exterior := false)) == p * 1.0 * t * g;
    MoveSecond(p, t, g, 1.02);
  }

  /** A terrace multiplies the estimate by 1.015 whatever the other inputs are. */
  lemma TerrazaFactor(v: Inputs)
    ensures Multiplier(v.(terraza := true)) == Multiplier(v.(terraza := false)) * 1.015
  {
    var p := EstadoFactor(v.estado) * RoomsFactor(v.habitaciones) * BathsFactor(v.banos)
             * Bonus(v.ascensor, 1.02) * Bonus(v.exterior, 1.02);
    var g := Bonus(v.garaje, 1.03);
    assert Multiplier(v.(terraza := true)) == p * 1.015 * g;
    assert Multiplier(v.(terraza := false)) == p * 1.0 * g;
    MoveThird(p, g, 1.015);
  }

  /** A garage multiplies the estimate by 1.03 whatever the other inputs are. */
  lemma GarajeFactor(v: Inputs)
    ensures Multiplier(v.(garaje := true)) == Multiplier(v.(garaje := false)) * 1.03
  {
  }

  /** `central = m2Safe * Math.max(500, eurM2) * mult`. */
  function Central(area: real, eurM2: real, mult: real): real {
    area * Max(500.0, eurM2) * mult
  }

  /** The multiplier reads only the condition, the room and bathroom factors and the four amenities. */
  lemma MultiplierCongruent(v: Inputs, w: Inputs)
    requires v.estado == w.estado && RoomsFactor(v.habitaciones) == RoomsFactor(w.habitaciones)
    requires BathsFactor(v.banos) == BathsFactor(w.banos)
    requires v.ascensor == w.ascensor && v.exterior == w.exterior && v.terraza == w.terraza && v.garaje == w.garaje
    ensures Multiplier(v) == Multiplier(w)
  {
    assert EstadoFactor(v.estado) == EstadoFactor(w.estado);
  }

  /** The central value depends on the price only through `Math.max(500, eurM2)`. */
  lemma CentralCongruent(area: real, e1: real, e2: real, m: real)
    requires Max(500.0, e1) == Max(500.0, e2)
    ensures Central(area, e1, m) == Central(area, e2, m)
  {
  }

  /** At the same price and multiplier, 400 m² is worth more than 20 m², by at least 1 €. */
  lemma LargestAreaExceedsSmallest(eurM2: real, m: real)
    requires m >= MultiplierLow
    ensures Central(400.0, eurM2, m) >= Central(20.0, eurM2, m) + 1.0
  {
    var p := Max(500.0, eurM2);
    ProductBounds(p, m, 500.0, p, MultiplierLow, m);
    var pm := p * m;
    assert Central(400.0, eurM2, m) == 400.0 * pm;
    assert Central(20.0, eurM2, m) == 20.0 * pm;
  }

  /** The rounded estimate: 7% below, the central value, 7% above. */
  datatype PriceRange = PriceRange(min: int, mid: int, max: int)

  function RangeAround(central: real): PriceRange {
    PriceRange(Round(central * 0.93), Round(central), Round(central * 1.07))
  }

  /** Around a central value of at least 20 m² at 500 €/m², the range is ordered and positive. */
  lemma RangeAroundOrdered(central: real)
    requires central >= 20.0 * 500.0 * MultiplierLow
    ensures var r := RangeAround(central); 0 < r.min <= r.mid <= r.max
  {
    RoundMonotone(central * 0.93, central);
    RoundMonotone(central, central * 1.07);
  }

  /** Whatever the form says, an area of at least 20 m² gives an ordered, positive range. */
  lemma QuoteOrdered(area: real, eurM2: real, v: Inputs)
    requires area >= 20.0
    ensures var r := RangeAround(Central(area, eurM2, Multiplier(v))); 0 < r.min <= r.mid <= r.max
  {
    MultiplierBounds(v);
    var p := Max(500.0, eurM2);
    ProductBounds(area, p, 20.0, area, 500.0, p);
    ProductBounds(area * p, Multiplier(v), 20.0 * 500.0, area * p, MultiplierLow, Multiplier(v));
    RangeAroundOrdered(Central(area, eurM2, Multiplier(v)));
  }

  /**
   * The multiplier half of the valuation `useMemo` shared by both estimators:
   * `mult` starts at 1 and is multiplied by each factor in turn.
   */
  method ComputeMultiplier(v: Inputs) returns (mult: real)
    ensures mult == Multiplier(v)
  {
    mult := 1.0;
    if v.estado == Reformar { mult := mult * 0.88; }
    if v.estado == Reformado { mult := mult * 1.08; }
    ghost var e := mult;
    assert e == EstadoFactor(v.estado);
    var roomsFactor := 1.0 + Clamp((v.habitaciones - 3.0) * 0.01, -0.03, 0.03);
    assert roomsFactor == RoomsFactor(v.habitaciones);
    mult := mult * roomsFactor;
    ghost var r := mult;
    var bathsFactor := 1.0 + Clamp((v.banos - 1.0) * 0.015, -0.03, 0.03);
    assert bathsFactor == BathsFactor(v.banos);
    mult := mult * bathsFactor;
    ghost var m0 := mult;
    if v.ascensor { mult := mult * 1.02; }
    assert mult == m0 * Bonus(v.ascensor, 1.02);
    ghost var m1 := mult;
    if v.exterior { mult := mult * 1.02; }
    assert mult == m1 * Bonus(v.exterior, 1.02);
    ghost var m2 := mult;
    if v.terraza { mult := mult * 1.015; }
    assert mult == m2 * Bonus(v.terraza, 1.015);
    ghost var m3 := mult;
    if v.garaje { mult := mult * 1.03; }
    assert mult == m3 * Bonus(v.garaje, 1.03);
    Assemble(v, e, r, m0, m1, m2, m3, mult);
  }

  /** The running product after each step of ComputeMultiplier is the multiplier's prefix. */
  lemma Assemble(v: Inputs, e: real, r: real, m0: real, m1: real, m2: real, m3: real, m4: real)
    requires e == EstadoFactor(v.estado)
    requires r == e * RoomsFactor(v.habitaciones)
    requires m0 == r * BathsFactor(v.banos)
    requires m1 == m0 * Bonus(v.ascensor, 1.02)
    requires m2 == m1 * Bonus(v.exterior, 1.02)
    requires m3 == m2 * Bonus(v.terraza, 1.015)
    requires m4 == m3 * Bonus(v.garaje, 1.03)
    ensures m4 == Multiplier(v)
  {
    ProductSteps(EstadoFactor(v.estado), RoomsFactor(v.habitaciones), BathsFactor(v.banos),
                 Bonus(v.ascensor, 1.02), Bonus(v.exterior, 1.02), Bonus(v.terraza, 1.015), Bonus(v.garaje, 1.03),
                 m0, m1, m2, m3, m4);
  }

  lemma ProductSteps(e: real, r: real, b: real, x1: real, x2: real, x3: real, x4: real,
                     m0: real, m1: real, m2: real, m3: real, m4: real)
    requires m0 == e * r * b && m1 == m0 * x1 && m2 == m1 * x2 && m3 == m2 * x3 && m4 == m3 * x4
    ensures m4 == Product(e, r, b, x1, x2, x3, x4)
  {
  }

  lemma CentralOfBase(area: real, eurM2: real, base: real, mult: real)
    requires base == area * Max(500.0, eurM2)
    ensures base * mult == Central(area, eurM2, mult)
  {
  }

  /**
   * The valuation `useMemo` shared by both estimators, from the clamped area on:
   * `central = m2Safe * Math.max(500, eurM2) * mult`, then 7% either side, rounded.
   */
  method Estimate(area: real, eurM2: real, v: Inputs) returns (r: PriceRange)
    requires 20.0 <= area <= 400.0
    ensures r == RangeAround(Central(area, eurM2, Multiplier(v)))
    ensures 0 < r.min <= r.mid <= r.max
  {
    var base := area * Max(500.0, eurM2);
    var mult := ComputeMultiplier(v);
    var central := base * mult;
    CentralOfBase(area, eurM2, base, mult);
    r := PriceRange(Round(central * 0.93), Round(central), Round(central * 1.07));
    assert r == RangeAround(central);
    QuoteOrdered(area, eurM2, v);
  }

  /** 80 m² at 2 600 €/m² in average condition with no extras: a central value of 208 000. */
  lemma PlainEightyMetres()
    ensures Central(80.0, 2600.0, Multiplier(Defaults.(ascensor := false, exterior := false))) == 208000.0
  {
    var v := Defaults.(ascensor := false, exterior := false);
    assert v == Inputs(Alcorcon, Fin(80.0), 3.0, 1.0, Normal, false, false, false, false, 2600.0);
    PlainFactors();
    assert EstadoFactor(v.estado) == 1.0 && Bonus(false, 1.02) == 1.0 && Bonus(false, 1.015) == 1.0 && Bonus(false, 1.03) == 1.0;
    assert Multiplier(v) == Product(1.0, 1.0, 1.0, 1.0, 1.0, 1.0, 1.0);
  }

  lemma PlainFactors()
    ensures RoomsFactor(3.0) == 1.0 && BathsFactor(1.0) == 1.0
  {
  }

  /** Around 208 000 the range is 193 440 / 208 000 / 222 560. */
  lemma RangeAroundExample()
    ensures RangeAround(208000.0) == PriceRange(193440, 208000, 222560)
  {
    assert 208000.0 * 0.93 == 193440.0 && 208000.0 * 1.07 == 222560.0;
    RoundWhole(193440);
    RoundWhole(208000);
    RoundWhole(222560);
  }
}
