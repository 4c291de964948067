/** `daily_rad()`: daily net radiation Rn (MJ m-2 day-1) at one pixel from
    the day of year, the latitude, the elevation, tmin/tmax (K) and the
    daily mean shortwave flux (W m-2). */
module Radiation {
  import opened Pixels
  import opened Calendar

  /** `math.pi` as a double. */
  const Pi: real := 3.141592653589793
  /** Solar constant, MJ m-2 min-1. */
  const Gsc: real := 0.0820
  const Deg2Rad: real := Pi / 180.0
  const Albedo: real := 0.23
  /** The Stefan-Boltzmann factor as the source writes it. */
  const Sigma: real := 4.901e-9

  /** Rs: a mean flux in W m-2 as energy over a day, MJ m-2 day-1. */
  function DailyShortwave(rso24h: real): (rs: real)
    ensures rs == rso24h * 86400.0 / 1000000.0
  {
    rso24h * 0.0864
  }

  /** The pixel latitude in radians: degrees times pi/180, so that the
      range [-90, 90] maps onto [-pi/2, pi/2]. */
  function Latitude(latDegrees: real): (r: real)
    ensures r * 180.0 == latDegrees * Pi
    ensures -90.0 <= latDegrees <= 90.0 ==> -Pi / 2.0 <= r <= Pi / 2.0
  {
    latDegrees * Deg2Rad
  }

  /** dr, the inverse relative Earth-Sun distance. */
  function InverseRelativeDistance(m: Math, doy: int): real {
    1.0 + 0.033 * m.cos((2.0 * Pi / 365.0) * (doy as real))
  }

  /** The solar declination. */
  function SolarDeclination(m: Math, doy: int): real {
    0.40928 * m.sin((2.0 * Pi / 365.0) * (doy as real) - 1.39)
  }

  /** The sunset hour angle; undefined (NaN) at polar day or night. */
  function SunsetHourAngle(m: Math, lat: real, sd: real): Pixel {
    m.acos(-m.tan(lat) * m.tan(sd))
  }

  function RadA(m: Math, ws: real, lat: real, sd: real): real {
    ws * m.sin(lat) * m.sin(sd) + m.cos(lat) * m.cos(sd) * m.sin(ws)
  }

  /** Ra, the extraterrestrial radiation; defined exactly where the sunset
      hour angle is. */
  function ExtraterrestrialRadiation(m: Math, doy: int, lat: real): (r: Pixel)
    ensures r.Value? <==> SunsetHourAngle(m, lat, SolarDeclination(m, doy)).Value?
  {
    var sd := SolarDeclination(m, doy);
    var ws :- SunsetHourAngle(m, lat, sd);
    Value(((24.0 * 60.0) / Pi) * Gsc * InverseRelativeDistance(m, doy) * RadA(m, ws, lat, sd))
  }

  /** Rso, the clear-sky radiation at elevation z (m). */
  function ClearSkyRadiation(z: real, ra: real): (r: real)
    ensures z == 0.0 ==> r == 0.75 * ra
    ensures z == -37500.0 ==> r == 0.0
    ensures z > -37500.0 && ra > 0.0 ==> r > 0.0
  {
    (0.75 + 2e-5 * z) * ra
  }

  /** Rns, the net shortwave radiation for the grass albedo. */
  function NetShortwave(rs: real): (r: real)
    ensures r == 0.77 * rs
    ensures rs >= 0.0 ==> 0.0 <= r <= rs
  {
    (1.0 - Albedo) * rs
  }

  /** Saturation vapour pressure (kPa) at a temperature given in K. */
  function SaturationVapourPressure(m: Math, tKelvin: real): (r: Pixel)
    ensures tKelvin == 35.85 ==> r == NoData
    ensures tKelvin == 273.15 && m.exp(0.0) == Value(1.0) ==> r == Value(0.6108)
  {
    var t := tKelvin - 273.15;
    var q :- Div(17.27 * t, t + 237.3);
    assert tKelvin == 273.15 ==> q == 0.0;
    var e :- m.exp(q);
    Value(0.6108 * e)
  }

  function FourthPower(x: real): real {
    x * x * x * x
  }

  /** Rnl, the net longwave radiation. Its vapour pressure is computed from
      tmin alone. */
  function NetLongwave(m: Math, tmax: real, tmin: real, rs: real, rso: real): (r: Pixel)
    ensures rso == 0.0 ==> r == NoData
    ensures r.Value? ==> HumidityFactor(m, tmin).Value?
    ensures r.Value? && rs == rso ==> r.v == Sigma * ((FourthPower(tmax) + FourthPower(tmin)) / 2.0) * HumidityFactor(m, tmin).v
  {
    var ea :- SaturationVapourPressure(m, tmin);
    var root :- m.sqrt(ea);
    var ratio :- Div(rs, rso);
    Value(Sigma * ((FourthPower(tmax) + FourthPower(tmin)) / 2.0) * (0.34 - 0.14 * root) * (1.35 * ratio - 0.35))
  }

  /** `daily_rad(time_start, tmax, tmin, elev, rso24h)` at a pixel whose
      latitude is `latDegrees`. */
  function DailyRad(m: Math, date: Date, tmax: real, tmin: real, elev: real, rso24h: real, latDegrees: real): (r: Pixel)
    requires ValidDate(date)
    ensures r.Value? ==> var ra := ExtraterrestrialRadiation(m, DayOfYear(date), Latitude(latDegrees));
      ra.Value? && ClearSkyRadiation(elev, ra.v) != 0.0
  {
    var rs := DailyShortwave(rso24h);
    var doy := DayOfYear(date);
    var lat := Latitude(latDegrees);
    var ra :- ExtraterrestrialRadiation(m, doy, lat);
    var rso := ClearSkyRadiation(elev, ra);
    var rns := NetShortwave(rs);
    var rnl :- NetLongwave(m, tmax, tmin, rs, rso);
    Value(rns - rnl)
  }

  // ---------------------------------------------------------------------
  // Properties

  /** The humidity factor of FAO-56's net longwave term, here of tmin. */
  function HumidityFactor(m: Math, t: real): Pixel {
    var ea :- SaturationVapourPressure(m, t);
    var root :- m.sqrt(ea);
    Value(0.34 - 0.14 * root)
  }

  /** The cloudiness factor 1.35 Rs/Rso - 0.35. */
  function CloudFactor(rs: real, rso: real): Pixel {
    var ratio :- Div(rs, rso);
    Value(1.35 * ratio - 0.35)
  }

  /** Rnl is the product of the mean fourth power of tmax and tmin, a
      humidity factor of tmin only, and the cloudiness factor; it is
      defined exactly when both factors are. */
  lemma NetLongwaveFactors(m: Math, tmax: real, tmin: real, rs: real, rso: real)
    ensures NetLongwave(m, tmax, tmin, rs, rso).Value?
      <==> HumidityFactor(m, tmin).Value? && CloudFactor(rs, rso).Value?
    ensures NetLongwave(m, tmax, tmin, rs, rso).Value? ==>
      NetLongwave(m, tmax, tmin, rs, rso).v
        == Sigma * ((FourthPower(tmax) + FourthPower(tmin)) / 2.0) * HumidityFactor(m, tmin).v * CloudFactor(rs, rso).v
  {
  }

  /** Under a clear sky (Rs = Rso) the cloudiness factor is exactly 1. */
  lemma ClearSkyCloudFactor(rs: real)
    requires rs != 0.0
    ensures CloudFactor(rs, rs) == Value(1.0)
  {
  }

  /** Rn = Rns - Rnl = (1 - 0.23) Rs - Rnl, and Rn is defined exactly
      when Ra and Rnl are. */
  lemma NetRadiationBalance(m: Math, date: Date, tmax: real, tmin: real, elev: real, rso24h: real, latDegrees: real)
    requires ValidDate(date)
    ensures var ra := ExtraterrestrialRadiation(m, DayOfYear(date), Latitude(latDegrees));
      var rs := DailyShortwave(rso24h);
      var rn := DailyRad(m, date, tmax, tmin, elev, rso24h, latDegrees);
      && (rn.Value? <==> ra.Value? && NetLongwave(m, tmax, tmin, rs, ClearSkyRadiation(elev, ra.v)).Value?)
      && (rn.Value? ==> rn.v == (1.0 - 0.23) * rs - NetLongwave(m, tmax, tmin, rs, ClearSkyRadiation(elev, ra.v)).v)
  {
  }

  /** At an elevation of -37500 m, Rso is 0; the model's zero-divisor rule
      then leaves Rs/Rso, and with it Rn, without a value, and nothing is
      raised. */
  lemma DegenerateElevation(m: Math, date: Date, tmax: real, tmin: real, rso24h: real, latDegrees: real)
    requires ValidDate(date)
    ensures DailyRad(m, date, tmax, tmin, -37500.0, rso24h, latDegrees) == NoData
  {
    var ra := ExtraterrestrialRadiation(m, DayOfYear(date), Latitude(latDegrees));
    if ra.Value? {
      assert ClearSkyRadiation(-37500.0, ra.v) == 0.0;
      assert CloudFactor(DailyShortwave(rso24h), 0.0) == NoData;
      NetLongwaveFactors(m, tmax, tmin, DailyShortwave(rso24h), 0.0);
    }
  }
}
