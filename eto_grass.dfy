/** `eto_grass()`: daily grass reference evapotranspiration ETo (mm day-1)
    at one pixel by the FAO-56 Penman-Monteith equation, from tmin, tmax
    and the mean air temperature (K), the wind speed (m s-1), the daily
    mean shortwave flux (W m-2) and the elevation (m). */
module Eto {
  import opened Pixels
  import opened Calendar
  import opened Radiation

  /** The numerator and denominator constants of the grass reference crop. */
  const Cn: real := 900.0
  const Cd: real := 0.34

  /** P, the atmospheric pressure (kPa) at elevation z (m). */
  function AtmosphericPressure(m: Math, z: real): (r: Pixel)
    ensures z == 0.0 && m.pow(1.0, 5.26) == Value(1.0) ==> r == Value(101.3)
  {
    var p :- m.pow((293.0 - 0.0065 * z) / 293.0, 5.26);
    Value(101.3 * p)
  }

  /** The psychrometric constant (kPa per degree C) at pressure p. */
  function PsychrometricConstant(p: real): (r: real)
    ensures p > 0.0 ==> 0.0 < r < p
    ensures r * 1000.0 == 0.665 * p
  {
    0.000665 * p
  }

  /** es, the mean saturation vapour pressure: the midpoint of the values at
      tmin and tmax. */
  function MeanSaturationVapourPressure(eaMin: real, eaMax: real): (es: real)
    ensures es - eaMin == eaMax - es
    ensures eaMin <= eaMax ==> eaMin <= es <= eaMax
    ensures eaMax <= eaMin ==> eaMax <= es <= eaMin
  {
    (eaMin + eaMax) / 2.0
  }

  /** The slope of the vapour pressure curve as the source computes it:
      4098 es divided by the square of the mean air temperature in degrees
      C. It has no value at exactly 0 degrees C. */
  function VapourPressureSlope(es: real, tairKelvin: real): (r: Pixel)
    ensures r.Value? <==> tairKelvin != 273.15
    ensures r.Value? ==> r.v * ((tairKelvin - 273.15) * (tairKelvin - 273.15)) == 4098.0 * es
  {
    var t := tairKelvin - 273.15;
    Div(4098.0 * es, t * t)
  }

  /** The divisor (T + 237.3)^2 of FAO-56 equation 13 applied to the same
      es; equation 13 itself takes e°(T) at the mean temperature. */
  function FaoSlope(es: real, tCelsius: real): Pixel {
    Div(4098.0 * es, (tCelsius + 237.3) * (tCelsius + 237.3))
  }

  /** A factor of a non-negative product with a positive cofactor is not
      negative. */
  lemma NonNegativeFactor(a: real, b: real)
    requires b > 0.0 && a * b >= 0.0
    ensures a >= 0.0
  {
    assert a == (a * b) / b;
  }

  /** The Penman-Monteith combination of its terms; `ea` is the actual
      vapour pressure and `tairKelvin` the mean air temperature. */
  function PenmanMonteith(delta: real, rn: real, gamma: real, tairKelvin: real, ws: real, es: real, ea: real): (r: Pixel)
    ensures r.Value? <==> tairKelvin != 0.15 && delta + gamma * (1.0 + Cd * ws) != 0.0
  {
    var t := tairKelvin - 273.15;
    var aero :- Div(Cn, t + 273.0);
    Div(0.408 * delta * rn + gamma * aero * ws * (es - ea), delta + gamma * (1.0 + Cd * ws))
  }

  /** `eto_grass(time_start, tmin, tmax, tair, ws, rso24h, elev)` at a pixel
      whose latitude is `latDegrees`. The actual vapour pressure is the
      saturation vapour pressure at tmin. */
  function EtoGrass(m: Math, date: Date, tmin: real, tmax: real, tair: real, ws: real,
                    rso24h: real, elev: real, latDegrees: real): (r: Pixel)
    requires ValidDate(date)
    ensures r.Value? ==> DailyRad(m, date, tmax, tmin, elev, rso24h, latDegrees).Value?
    ensures r.Value? ==> AtmosphericPressure(m, elev).Value? && tair != 273.15
  {
    var rn :- DailyRad(m, date, tmax, tmin, elev, rso24h, latDegrees);
    var p :- AtmosphericPressure(m, elev);
    var gamma := PsychrometricConstant(p);
    var eaMax :- SaturationVapourPressure(m, tmax);
    var eaMin :- SaturationVapourPressure(m, tmin);
    var es := MeanSaturationVapourPressure(eaMin, eaMax);
    var delta :- VapourPressureSlope(es, tair);
    PenmanMonteith(delta, rn, gamma, tair, ws, es, eaMin)
  }

  // ---------------------------------------------------------------------
  // Properties

  /** FAO-56 equation 6 with the denominators cleared: `et` times
      (delta + gamma (1 + Cd u)) equals 0.408 delta Rn plus the aerodynamic
      term gamma Cn/(T + 273) u (es - ea), T in degrees C. */
  ghost predicate SatisfiesPenmanMonteith(et: real, delta: real, rn: real, gamma: real, tCelsius: real,
                                          ws: real, es: real, ea: real) {
    && tCelsius + 273.0 != 0.0
    && et * (delta + gamma * (1.0 + Cd * ws)) * (tCelsius + 273.0)
       == 0.408 * delta * rn * (tCelsius + 273.0) + gamma * Cn * ws * (es - ea)
  }

  /** The combination yields `et` exactly when its two divisors are non-zero
      and `et` solves the Penman-Monteith equation. */
  lemma PenmanMonteithSolves(delta: real, rn: real, gamma: real, tairKelvin: real, ws: real, es: real, ea: real, et: real)
    ensures PenmanMonteith(delta, rn, gamma, tairKelvin, ws, es, ea) == Value(et)
      <==> delta + gamma * (1.0 + Cd * ws) != 0.0
           && SatisfiesPenmanMonteith(et, delta, rn, gamma, tairKelvin - 273.15, ws, es, ea)
  {
    var t := tairKelvin - 273.15;
    var d := delta + gamma * (1.0 + Cd * ws);
    if t + 273.0 != 0.0 {
      var aero := Cn / (t + 273.0);
      assert aero * (t + 273.0) == Cn;
      var num := 0.408 * delta * rn + gamma * aero * ws * (es - ea);
      assert num * (t + 273.0) == 0.408 * delta * rn * (t + 273.0) + gamma * Cn * ws * (es - ea);
      if d != 0.0 {
        assert PenmanMonteith(delta, rn, gamma, tairKelvin, ws, es, ea) == Value(num / d);
        assert (num / d) * d == num;
        if SatisfiesPenmanMonteith(et, delta, rn, gamma, t, ws, es, ea) {
          assert et * d * (t + 273.0) == num * (t + 273.0);
          CancelFactor(et * d, num, t + 273.0);
          CancelFactor(et, num / d, d);
        }
      }
    }
  }

  lemma CancelFactor(a: real, b: real, k: real)
    requires k != 0.0 && a * k == b * k
    ensures a == b
  {
    assert (a - b) * k == 0.0;
  }

  /** In calm air only the radiation term is left. */
  lemma CalmAir(delta: real, rn: real, gamma: real, tairKelvin: real, es: real, ea: real)
    requires tairKelvin - 273.15 + 273.0 != 0.0
    ensures PenmanMonteith(delta, rn, gamma, tairKelvin, 0.0, es, ea) == Div(0.408 * delta * rn, delta + gamma)
  {
  }

  /** Nothing clamps ETo at zero: with a negative net radiation in calm air
      the result is negative. */
  lemma NoClamping(delta: real, rn: real, gamma: real, tairKelvin: real, es: real, ea: real)
    requires tairKelvin - 273.15 + 273.0 != 0.0
    requires delta > 0.0 && gamma > 0.0 && rn < 0.0
    ensures PenmanMonteith(delta, rn, gamma, tairKelvin, 0.0, es, ea).Value?
    ensures PenmanMonteith(delta, rn, gamma, tairKelvin, 0.0, es, ea).v < 0.0
  {
    CalmAir(delta, rn, gamma, tairKelvin, es, ea);
    var q := 0.408 * delta * rn / (delta + gamma);
    assert q * (delta + gamma) == 0.408 * delta * rn;
    assert 0.408 * delta * rn < 0.0;
  }

  /** With non-negative terms and a vapour pressure deficit that is not
      negative, ETo is not negative. */
  lemma NonNegativeTerms(delta: real, rn: real, gamma: real, tairKelvin: real, ws: real, es: real, ea: real)
    requires tairKelvin - 273.15 + 273.0 > 0.0
    requires delta > 0.0 && gamma > 0.0 && rn >= 0.0 && ws >= 0.0 && es >= ea
    ensures PenmanMonteith(delta, rn, gamma, tairKelvin, ws, es, ea).Value?
    ensures PenmanMonteith(delta, rn, gamma, tairKelvin, ws, es, ea).v >= 0.0
  {
    var t := tairKelvin - 273.15;
    var aero := Cn / (t + 273.0);
    assert aero * (t + 273.0) == Cn;
    NonNegativeFactor(aero, t + 273.0);
    var d := delta + gamma * (1.0 + Cd * ws);
    assert d > 0.0;
    var num := 0.408 * delta * rn + gamma * aero * ws * (es - ea);
    ProductNonNegative(0.408 * delta, rn);
    ProductNonNegative(gamma, aero);
    ProductNonNegative(gamma * aero, ws);
    ProductNonNegative(gamma * aero * ws, es - ea);
    var q := num / d;
    assert q * d == num;
    NonNegativeFactor(q, d);
  }

  lemma ProductNonNegative(a: real, b: real)
    requires a >= 0.0 && b >= 0.0
    ensures a * b >= 0.0
  {
  }

  /** When the actual vapour pressure equals es the aerodynamic term
      vanishes and the wind acts only through the denominator. */
  lemma SaturatedAir(delta: real, rn: real, gamma: real, tairKelvin: real, ws: real, e: real)
    requires tairKelvin - 273.15 + 273.0 != 0.0
    ensures PenmanMonteith(delta, rn, gamma, tairKelvin, ws, e, e)
      == Div(0.408 * delta * rn, delta + gamma * (1.0 + Cd * ws))
  {
  }

  /** The quotient 17.27 t / (t + 237.3) grows with t above -237.3 C. */
  lemma MagnusExponentMonotone(t1: real, t2: real)
    requires -237.3 < t1 <= t2
    ensures Div(17.27 * t1, t1 + 237.3).Value? && Div(17.27 * t2, t2 + 237.3).Value?
    ensures Div(17.27 * t1, t1 + 237.3).v <= Div(17.27 * t2, t2 + 237.3).v
  {
    var d1, d2 := t1 + 237.3, t2 + 237.3;
    var q1, q2 := 17.27 * t1 / d1, 17.27 * t2 / d2;
    assert q1 * d1 == 17.27 * t1;
    assert q2 * d2 == 17.27 * t2;
    assert (q2 - q1) * (d1 * d2) == 17.27 * t2 * d1 - 17.27 * t1 * d2;
    assert 17.27 * t2 * d1 - 17.27 * t1 * d2 == 17.27 * 237.3 * (t2 - t1);
    assert d1 * d2 > 0.0;
    NonNegativeFactor(q2 - q1, d1 * d2);
  }

  /** With an exp that is positive and non-decreasing, the saturation vapour
      pressure is defined, positive and grows with the temperature. */
  lemma SaturationVapourPressureMonotone(m: Math, t1: real, t2: real)
    requires ExpMonotone(m)
    requires 35.85 < t1 <= t2
    ensures SaturationVapourPressure(m, t1).Value? && SaturationVapourPressure(m, t2).Value?
    ensures 0.0 < SaturationVapourPressure(m, t1).v <= SaturationVapourPressure(m, t2).v
  {
    MagnusExponentMonotone(t1 - 273.15, t2 - 273.15);
  }

  /** With tmin <= tmax the vapour pressure deficit es - ea of the source,
      whose ea is taken at tmin, is not negative. */
  lemma VapourDeficitNonNegative(m: Math, tmin: real, tmax: real)
    requires ExpMonotone(m)
    requires 35.85 < tmin <= tmax
    ensures SaturationVapourPressure(m, tmin).Value? && SaturationVapourPressure(m, tmax).Value?
    ensures MeanSaturationVapourPressure(SaturationVapourPressure(m, tmin).v, SaturationVapourPressure(m, tmax).v)
            - SaturationVapourPressure(m, tmin).v >= 0.0
  {
    SaturationVapourPressureMonotone(m, tmin, tmax);
  }

  /** ETo has a value exactly when Rn, P, both saturation vapour pressures
      and the slope do, and it is then the Penman-Monteith combination of
      the pixel's Rn, gamma, es, delta and ea. */
  lemma EtoGrassTerms(m: Math, date: Date, tmin: real, tmax: real, tair: real, ws: real,
                      rso24h: real, elev: real, latDegrees: real)
    requires ValidDate(date)
    ensures var rn := DailyRad(m, date, tmax, tmin, elev, rso24h, latDegrees);
      var p := AtmosphericPressure(m, elev);
      var eaMin := SaturationVapourPressure(m, tmin);
      var eaMax := SaturationVapourPressure(m, tmax);
      EtoGrass(m, date, tmin, tmax, tair, ws, rso24h, elev, latDegrees)
        == if rn.Value? && p.Value? && eaMin.Value? && eaMax.Value? && tair != 273.15
           then PenmanMonteith(VapourPressureSlope((eaMin.v + eaMax.v) / 2.0, tair).v,
                               rn.v, 0.000665 * p.v, tair, ws, (eaMin.v + eaMax.v) / 2.0, eaMin.v)
           else NoData
    ensures var rn := DailyRad(m, date, tmax, tmin, elev, rso24h, latDegrees);
      var p := AtmosphericPressure(m, elev);
      var eaMin := SaturationVapourPressure(m, tmin);
      var eaMax := SaturationVapourPressure(m, tmax);
      EtoGrass(m, date, tmin, tmax, tair, ws, rso24h, elev, latDegrees).Value? ==>
        && rn.Value? && p.Value? && eaMin.Value? && eaMax.Value?
        && var es := (eaMin.v + eaMax.v) / 2.0;
           var slope := VapourPressureSlope(es, tair);
           && slope.Value?
           && EtoGrass(m, date, tmin, tmax, tair, ws, rso24h, elev, latDegrees)
              == PenmanMonteith(slope.v, rn.v, 0.000665 * p.v, tair, ws, es, eaMin.v)
  {
  }

  /** An ETo of a pixel solves the Penman-Monteith equation for that pixel's
      Rn, gamma, delta and es, with ea the saturation vapour pressure at tmin. */
  lemma EtoGrassEquation(m: Math, date: Date, tmin: real, tmax: real, tair: real, ws: real,
                         rso24h: real, elev: real, latDegrees: real)
    requires ValidDate(date)
    ensures var et := EtoGrass(m, date, tmin, tmax, tair, ws, rso24h, elev, latDegrees);
      var rn := DailyRad(m, date, tmax, tmin, elev, rso24h, latDegrees);
      var p := AtmosphericPressure(m, elev);
      var eaMin := SaturationVapourPressure(m, tmin);
      var eaMax := SaturationVapourPressure(m, tmax);
      et.Value? ==>
        && rn.Value? && p.Value? && eaMin.Value? && eaMax.Value?
        && var es := (eaMin.v + eaMax.v) / 2.0;
           var slope := VapourPressureSlope(es, tair);
           && slope.Value?
           && SatisfiesPenmanMonteith(et.v, slope.v, rn.v, 0.000665 * p.v, tair - 273.15, ws, es, eaMin.v)
  {
    var et := EtoGrass(m, date, tmin, tmax, tair, ws, rso24h, elev, latDegrees);
    if et.Value? {
      EtoGrassTerms(m, date, tmin, tmax, tair, ws, rso24h, elev, latDegrees);
      var rn := DailyRad(m, date, tmax, tmin, elev, rso24h, latDegrees).v;
      var p := AtmosphericPressure(m, elev).v;
      var eaMin := SaturationVapourPressure(m, tmin).v;
      var es := (eaMin + SaturationVapourPressure(m, tmax).v) / 2.0;
      var delta := VapourPressureSlope(es, tair).v;
      PenmanMonteithSolves(delta, rn, 0.000665 * p, tair, ws, es, eaMin, et.v);
    }
  }

  /** Without a diurnal range (tmin = tmax) es equals the ea of tmin, the
      aerodynamic term vanishes, and the wind only enlarges the denominator. */
  lemma NoDiurnalRange(m: Math, date: Date, t: real, tair: real, ws: real,
                       rso24h: real, elev: real, latDegrees: real)
    requires ValidDate(date)
    ensures var et := EtoGrass(m, date, t, t, tair, ws, rso24h, elev, latDegrees);
      var rn := DailyRad(m, date, t, t, elev, rso24h, latDegrees);
      var p := AtmosphericPressure(m, elev);
      var e := SaturationVapourPressure(m, t);
      et.Value? ==>
        && rn.Value? && p.Value? && e.Value?
        && var slope := VapourPressureSlope(e.v, tair);
           && slope.Value?
           && et == Div(0.408 * slope.v * rn.v, slope.v + 0.000665 * p.v * (1.0 + Cd * ws))
  {
    var et := EtoGrass(m, date, t, t, tair, ws, rso24h, elev, latDegrees);
    if et.Value? {
      EtoGrassTerms(m, date, t, t, tair, ws, rso24h, elev, latDegrees);
      var e := SaturationVapourPressure(m, t).v;
      assert (e + e) / 2.0 == e;
      var delta := VapourPressureSlope(e, tair).v;
      var rn := DailyRad(m, date, t, t, elev, rso24h, latDegrees).v;
      var gamma := 0.000665 * AtmosphericPressure(m, elev).v;
      assert et == PenmanMonteith(delta, rn, gamma, tair, ws, e, e);
      SaturatedAir(delta, rn, gamma, tair, ws, e);
    }
  }

  /** At a mean air temperature of exactly 0 degrees C the slope divides by
      zero, and under the model's zero-divisor rule the pixel has no ETo. */
  lemma FreezingAirGivesNoData(m: Math, date: Date, tmin: real, tmax: real, ws: real,
                               rso24h: real, elev: real, latDegrees: real)
    requires ValidDate(date)
    ensures EtoGrass(m, date, tmin, tmax, 273.15, ws, rso24h, elev, latDegrees) == NoData
  {
  }

  /** At -37500 m the model gives no net radiation, and with it no ETo. */
  lemma DegenerateElevationEto(m: Math, date: Date, tmin: real, tmax: real, tair: real, ws: real,
                               rso24h: real, latDegrees: real)
    requires ValidDate(date)
    ensures EtoGrass(m, date, tmin, tmax, tair, ws, rso24h, -37500.0, latDegrees) == NoData
  {
    DegenerateElevation(m, date, tmax, tmin, rso24h, latDegrees);
  }

  /** At sea level (with pow(1, 5.26) = 1) P is 101.3 kPa and gamma is
      0.0673645 kPa per degree C. */
  lemma GammaAtSeaLevel(m: Math)
    requires m.pow(1.0, 5.26) == Value(1.0)
    ensures AtmosphericPressure(m, 0.0) == Value(101.3)
    ensures PsychrometricConstant(AtmosphericPressure(m, 0.0).v) == 0.0673645
  {
  }

  /** For the same es, the slope the source computes differs from
      equation 13's divisor form by the factor ((T + 237.3) / T)^2, T the
      mean air temperature in degrees C. */
  lemma SlopeAgainstFao(es: real, tairKelvin: real, a: real, b: real)
    requires VapourPressureSlope(es, tairKelvin) == Value(a)
    requires FaoSlope(es, tairKelvin - 273.15) == Value(b)
    ensures a * ((tairKelvin - 273.15) * (tairKelvin - 273.15))
         == b * ((tairKelvin - 273.15 + 237.3) * (tairKelvin - 273.15 + 237.3))
  {
  }

  /** At 20 C with es = 2.3 kPa the source's slope is 23.5635 kPa per
      degree C, where equation 13's divisor on the same es gives about
      0.142. */
  lemma SlopeAtTwentyDegrees()
    ensures VapourPressureSlope(2.3, 293.15) == Value(23.5635)
    ensures FaoSlope(2.3, 20.0).Value? && FaoSlope(2.3, 20.0).v < 0.15
  {
    assert 293.15 - 273.15 == 20.0;
    assert FaoSlope(2.3, 20.0) == Value(9425.4 / 66203.29);
  }
}
