/** `meteorology()`: resolves a product name to a source kind, picks that
    source's band table, and reduces the hourly images of one pixel to the
    five daily variables [tmin, tmax, tair, swdown, wind]. */
module SourceAdapter {
  import opened Pixels
  import opened Text
  import opened Series

  datatype Source = Gldas | Era5

  datatype MeteoError = ValueError(message: string)

  const UnsupportedMessage: string := "Meteorology dataset not supported."

  datatype Result<T> = Ok(value: T) | Failure(error: MeteoError) {

    predicate IsFailure() {
      Failure?
    }

    function PropagateFailure<U>(): Result<U>
      requires Failure?
    {
      Failure(error)
    }

    function Extract(): T
      requires Ok?
    {
      value
    }
  }

  /** Time constants, in seconds after `time_start`. */
  const Hour: int := 3600
  const Day: int := 24 * Hour
  /** The GLDAS shortwave window [time_start + 3 h, time_start + 27 h). */
  const ShiftStart: int := 3 * Hour
  const ShiftEnd: int := 27 * Hour
  /** The divisor that turns a day's accumulated J/m2 into a mean W/m2. */
  const SecondsPerDay: real := 86400.0

  /** The band the non-GLDAS shortwave branch selects by its literal name. */
  const Era5ShortwaveBand: string := "surface_solar_radiation_downwards_hourly"

  /** The lower-cased product name contains `tag`. */
  ghost predicate Mentions(name: string, tag: string) {
    exists i :: OccursAt(Lower(name), tag, i)
  }

  /** Source resolution: `'gldas'` is looked for first, then `'era5'`;
      anything else is a ValueError. */
  function Resolve(name: string): (r: Result<Source>)
    ensures r.Failure? ==> r.error == ValueError(UnsupportedMessage)
  {
    var lowered := Lower(name);
    if Contains(lowered, "gldas") then Ok(Gldas)
    else if Contains(lowered, "era5") then Ok(Era5)
    else Failure(ValueError(UnsupportedMessage))
  }

  /** The per-source band tables. `specific_humidity`, `dew_point_temp` and
      `pressure` are listed but never read. */
  function Bands(k: Source): (b: map<string, string>)
    ensures "temperature" in b && "shortwave_radiation" in b
    ensures "u_wind" in b <==> k == Era5
    ensures "u_wind" in b ==> "v_wind" in b
    ensures "u_wind" !in b ==> "ux" in b
  {
    match k
    case Gldas =>
      map[
        "shortwave_radiation" := "SWdown_f_tavg",
        "specific_humidity" := "Specific humidity",
        "temperature" := "Tair_f_inst",
        "ux" := "Wind_f_inst",
        "pressure" := "Pressure"]
    case Era5 =>
      map[
        "shortwave_radiation" := Era5ShortwaveBand,
        "dew_point_temp" := "dewpoint_temperature_2m",
        "temperature" := "temperature_2m",
        "u_wind" := "u_component_of_wind_10m",
        "v_wind" := "v_component_of_wind_10m",
        "pressure" := "surface_pressure"]
  }

  function SumOfSquares(x: real, y: real): real {
    x * x + y * y
  }

  /** `sqrt(ux_u ** 2 + ux_v ** 2)`: no value when either component has
      none, otherwise sqrt of the sum of squares. */
  function Magnitude(m: Math, u: Pixel, v: Pixel): (r: Pixel)
    ensures u.NoData? || v.NoData? ==> r == NoData
    ensures u.Value? && v.Value? ==> r == m.sqrt(SumOfSquares(u.v, v.v))
    ensures SqrtExact(m) && u.Value? && v.Value? ==>
      r.Value? && r.v >= 0.0 && r.v * r.v == u.v * u.v + v.v * v.v
  {
    var x :- u;
    var y :- v;
    m.sqrt(SumOfSquares(x, y))
  }

  /** Wind: the magnitude of the mean (u, v) vector when the table has
      components, otherwise the mean of the speed band. */
  function WindSpeed(m: Math, day: seq<Image>, b: map<string, string>): (r: Pixel)
    requires "u_wind" in b ==> "v_wind" in b
    requires "u_wind" !in b ==> "ux" in b
    ensures r.Value? ==> |day| > 0
    ensures "u_wind" !in b ==> (r.Value? <==> |day| > 0)
  {
    if "u_wind" in b then
      Magnitude(m, Mean(Select(day, b["u_wind"])), Mean(Select(day, b["v_wind"])))
    else
      Mean(Select(day, b["ux"]))
  }

  /** Daily shortwave: GLDAS averages a flux over the shifted window; any
      other source sums the accumulated energy of the nominal day and
      divides by 86400. */
  function Shortwave(name: string, c: seq<Image>, b: map<string, string>): (r: Pixel)
    requires "shortwave_radiation" in b
    ensures Contains(Lower(name), "gldas") ==> (r.Value? <==> |FilterDate(c, ShiftStart, ShiftEnd)| > 0)
    ensures !Contains(Lower(name), "gldas") ==> (r.Value? <==> |FilterDate(c, 0, Day)| > 0)
  {
    if Contains(Lower(name), "gldas") then
      Mean(Select(FilterDate(c, ShiftStart, ShiftEnd), b["shortwave_radiation"]))
    else
      var total :- Total(Select(FilterDate(c, 0, Day), Era5ShortwaveBand));
      Value(total / SecondsPerDay)
  }

  /** `meteorology(time_start, meteo_source)` at one pixel; `c` is the whole
      collection of the product, with times relative to `time_start`. */
  function Meteorology(m: Math, name: string, c: seq<Image>): (r: Result<seq<Pixel>>)
    ensures r.Failure? <==> Resolve(name).Failure?
    ensures r.Failure? ==> r.error == ValueError(UnsupportedMessage)
    ensures r.Ok? ==> |r.value| == 5
  {
    var day := FilterDate(c, 0, Day);
    var kind :- Resolve(name);
    var b := Bands(kind);
    var wind := WindSpeed(m, day, b);
    var temperature := Select(day, b["temperature"]);
    var tmin := Minimum(temperature);
    var tmax := Maximum(temperature);
    var swdown := Shortwave(name, c, b);
    var tair := Mean(temperature);
    Ok([tmin, tmax, tair, swdown, wind])
  }

  /** The images of the nominal day [time_start, time_start + 1 day). */
  function NominalDay(c: seq<Image>): seq<Image> {
    FilterDate(c, 0, Day)
  }

  /** The five outputs of a resolved name, one unfolding of `Meteorology`. */
  lemma Outputs(m: Math, name: string, c: seq<Image>)
    requires Resolve(name).Ok?
    ensures var b := Bands(Resolve(name).value);
      var t := Select(NominalDay(c), b["temperature"]);
      Meteorology(m, name, c).value
        == [Minimum(t), Maximum(t), Mean(t), Shortwave(name, c, b), WindSpeed(m, NominalDay(c), b)]
  {
  }

  lemma FirstThree(r: seq<Pixel>, a: Pixel, b: Pixel, c: Pixel, d: Pixel, e: Pixel)
    requires r == [a, b, c, d, e]
    ensures r[0] == a && r[1] == b && r[2] == c
  {
  }

  /** The first three outputs of a resolved name: min, max and mean of the
      temperature band over the nominal day. */
  lemma TemperatureOutputs(m: Math, name: string, c: seq<Image>)
    requires Resolve(name).Ok?
    ensures var t := Select(NominalDay(c), Bands(Resolve(name).value)["temperature"]);
      var r := Meteorology(m, name, c).value;
      r[0] == Minimum(t) && r[1] == Maximum(t) && r[2] == Mean(t)
  {
    Outputs(m, name, c);
    var b := Bands(Resolve(name).value);
    var t := Select(NominalDay(c), b["temperature"]);
    FirstThree(Meteorology(m, name, c).value, Minimum(t), Maximum(t), Mean(t),
               Shortwave(name, c, b), WindSpeed(m, NominalDay(c), b));
  }

  /** The fourth output of a resolved name is the daily shortwave. */
  lemma ShortwaveOutput(m: Math, name: string, c: seq<Image>)
    requires Resolve(name).Ok?
    ensures Meteorology(m, name, c).value[3] == Shortwave(name, c, Bands(Resolve(name).value))
  {
    Outputs(m, name, c);
  }

  /** The fifth output of a resolved name is the wind speed of the day. */
  lemma WindOutput(m: Math, name: string, c: seq<Image>)
    requires Resolve(name).Ok?
    ensures Meteorology(m, name, c).value[4] == WindSpeed(m, NominalDay(c), Bands(Resolve(name).value))
  {
    Outputs(m, name, c);
  }

  // ---------------------------------------------------------------------
  // Source resolution

  /** Resolution is a substring test on the lower-cased name, GLDAS first. */
  lemma ResolveByTags(name: string)
    ensures Resolve(name) == Ok(Gldas) <==> Mentions(name, "gldas")
    ensures Resolve(name) == Ok(Era5) <==> !Mentions(name, "gldas") && Mentions(name, "era5")
    ensures Resolve(name).Failure? <==> !Mentions(name, "gldas") && !Mentions(name, "era5")
    ensures Resolve(name).Failure? ==> Resolve(name).error == ValueError(UnsupportedMessage)
  {
    ContainsIff(Lower(name), "gldas");
    ContainsIff(Lower(name), "era5");
  }

  /** Resolution is insensitive to the case of the product name. */
  lemma ResolveIgnoresCase(name: string)
    ensures Resolve(Lower(name)) == Resolve(name)
  {
    LowerIdempotent(name);
  }

  /** A character missing from `s` rules out every needle containing it. */
  lemma {:induction false} AbsentChar(s: string, needle: string, k: int)
    requires 0 <= k < |needle| && needle[k] !in s
    ensures !Contains(s, needle)
    decreases |s|
  {
    if |needle| <= |s| {
      assert s[..|needle|][k] == s[k];
    }
    if s != [] {
      AbsentChar(s[1..], needle, k);
    }
  }

  /** A name carrying the GLDAS tag in capitals. */
  lemma ResolveGldasName()
    ensures Resolve("GLDAS") == Ok(Gldas)
    ensures Contains(Lower("GLDAS"), "gldas")
  {
    assert Lower("GLDAS") == "gldas";
  }

  /** A name carrying the ERA5 tag in capitals. */
  lemma ResolveEra5Name()
    ensures Resolve("ERA5") == Ok(Era5)
    ensures !Contains(Lower("ERA5"), "gldas")
  {
    assert Lower("ERA5") == "era5";
    AbsentChar("era5", "gldas", 0);
  }

  /** A name carrying both tags, in any capitalisation, resolves to GLDAS:
      the GLDAS test comes first. */
  lemma ResolveBothTags(name: string)
    requires Lower(name) == "era5-gldas"
    ensures Resolve(name) == Ok(Gldas)
  {
    var both := Lower(name);
    assert both[5..10] == "gldas";
    ContainsAt(both, "gldas", 5);
  }

  /** An unknown product is refused with the ValueError, whatever images
      the collection holds. */
  lemma UnsupportedSource(m: Math, c: seq<Image>)
    ensures Meteorology(m, "foobar", c) == Failure(ValueError(UnsupportedMessage))
  {
    assert Lower("foobar") == "foobar";
    ResolveUnknownName("foobar");
  }

  lemma ResolveUnknownName(name: string)
    requires Lower(name) == "foobar"
    ensures Resolve(name) == Failure(ValueError(UnsupportedMessage))
  {
    AbsentChar(Lower(name), "gldas", 0);
    AbsentChar(Lower(name), "era5", 0);
  }

  /** The second `'gldas'` test (daily shortwave) agrees with resolution. */
  lemma ShortwaveTestAgrees(name: string)
    requires Resolve(name).Ok?
    ensures Contains(Lower(name), "gldas") <==> Resolve(name).value == Gldas
  {
    ContainsIff(Lower(name), "gldas");
  }

  // ---------------------------------------------------------------------
  // Temperature

  /** tmin, tmax and tair reduce the same band over the nominal day: over a
      non-empty day tmin <= tair <= tmax, over an empty one none has a value. */
  lemma TemperatureOrdered(m: Math, name: string, c: seq<Image>)
    requires Meteorology(m, name, c).Ok?
    ensures var r := Meteorology(m, name, c).value;
      if |NominalDay(c)| > 0 then
        r[0].Value? && r[1].Value? && r[2].Value? && r[0].v <= r[2].v <= r[1].v
      else
        r[0] == NoData && r[1] == NoData && r[2] == NoData
  {
    TemperatureOutputs(m, name, c);
    var b := Bands(Resolve(name).value);
    MeanBetweenMinAndMax(Select(NominalDay(c), b["temperature"]));
  }

  // ---------------------------------------------------------------------
  // Wind

  /** With the ERA5 table, constant components give the magnitude of the
      constant vector. */
  lemma WindOfConstantComponents(m: Math, day: seq<Image>, u: real, v: real)
    requires |day| > 0
    requires forall x :: x in day ==> x.band("u_component_of_wind_10m") == u && x.band("v_component_of_wind_10m") == v
    ensures WindSpeed(m, day, Bands(Era5)) == m.sqrt(SumOfSquares(u, v))
  {
    Era5WindBranch(m, day);
    MeanOfConstantBand(day, "u_component_of_wind_10m", u);
    MeanOfConstantBand(day, "v_component_of_wind_10m", v);
  }

  /** ERA5 wind is the magnitude of the day's mean components. */
  lemma Era5WindBranch(m: Math, day: seq<Image>)
    ensures WindSpeed(m, day, Bands(Era5))
      == Magnitude(m, Mean(Select(day, "u_component_of_wind_10m")), Mean(Select(day, "v_component_of_wind_10m")))
  {
  }

  /** ERA5 with constant u = 3 and v = 4 over the day gives wind 5. */
  lemma Era5WindFromComponents(m: Math, name: string, c: seq<Image>)
    requires SqrtExact(m) && Resolve(name) == Ok(Era5)
    requires |NominalDay(c)| > 0
    requires forall x :: x in NominalDay(c) ==> x.band("u_component_of_wind_10m") == 3.0 && x.band("v_component_of_wind_10m") == 4.0
    ensures Meteorology(m, name, c).value[4] == Value(5.0)
  {
    WindOutput(m, name, c);
    Era5WindOfThreeAndFour(m, NominalDay(c));
  }

  lemma Era5WindOfThreeAndFour(m: Math, day: seq<Image>)
    requires SqrtExact(m) && |day| > 0
    requires forall x :: x in day ==> x.band("u_component_of_wind_10m") == 3.0 && x.band("v_component_of_wind_10m") == 4.0
    ensures WindSpeed(m, day, Bands(Era5)) == Value(5.0)
  {
    WindOfConstantComponents(m, day, 3.0, 4.0);
    assert SumOfSquares(3.0, 4.0) == 5.0 * 5.0;
    SqrtOfSquare(m, 5.0);
  }

  /** Two hourly ERA5 images whose winds are opposite unit vectors. */
  function OppositeWinds(): seq<Image> {
    [Image(0, b => if b == "u_component_of_wind_10m" then 1.0 else 0.0),
     Image(Hour, b => if b == "u_component_of_wind_10m" then -1.0 else 0.0)]
  }

  /** Wind is the magnitude of the mean vector, not the mean of the
      magnitudes: two opposite unit winds give 0, where averaging the two
      speeds would give 1. */
  lemma WindAveragesComponentsFirst(m: Math, name: string)
    requires SqrtExact(m) && Resolve(name) == Ok(Era5)
    ensures Meteorology(m, name, OppositeWinds()).value[4] == Value(0.0)
  {
    WindOutput(m, name, OppositeWinds());
    OppositeWindsInDay();
    OppositeWindsCancel(m);
  }

  lemma OppositeWindsInDay()
    ensures NominalDay(OppositeWinds()) == OppositeWinds()
  {
    FilterDateAllInside(OppositeWinds(), 0, Day);
  }

  lemma OppositeWindsCancel(m: Math)
    requires SqrtExact(m)
    ensures WindSpeed(m, OppositeWinds(), Bands(Era5)) == Value(0.0)
  {
    var c := OppositeWinds();
    Era5WindBranch(m, c);
    var u := Select(c, "u_component_of_wind_10m");
    assert u == [1.0, -1.0];
    assert u[1..] == [-1.0];
    assert u[1..][1..] == [];
    assert Sum(u[1..]) == -1.0;
    assert Sum(u) == 0.0;
    MeanOfConstantBand(c, "v_component_of_wind_10m", 0.0);
    assert SumOfSquares(0.0, 0.0) == 0.0 * 0.0;
    SqrtOfSquare(m, 0.0);
  }

  // ---------------------------------------------------------------------
  // Shortwave

  /** ERA5: n samples of constant accumulated energy F in the day give
      n*F/86400. */
  lemma Era5ShortwaveIsDailySumOver86400(m: Math, name: string, c: seq<Image>, f: real)
    requires Resolve(name) == Ok(Era5)
    requires |NominalDay(c)| > 0
    requires forall x :: x in NominalDay(c) ==> x.band(Era5ShortwaveBand) == f
    ensures Meteorology(m, name, c).value[3] == Value((|NominalDay(c)| as real) * f / 86400.0)
  {
    ShortwaveOutput(m, name, c);
    Era5ShortwaveOfConstantDay(name, c, f);
  }

  lemma Era5ShortwaveOfConstantDay(name: string, c: seq<Image>, f: real)
    requires Resolve(name) == Ok(Era5)
    requires |NominalDay(c)| > 0
    requires forall x :: x in NominalDay(c) ==> x.band(Era5ShortwaveBand) == f
    ensures Shortwave(name, c, Bands(Era5)) == Value((|NominalDay(c)| as real) * f / 86400.0)
  {
    Era5ShortwaveBranch(name, c);
    DailySumOfConstant(c, f);
  }

  /** ERA5 shortwave is the day's sum of the literal band divided by
      86400; an empty day gives no value. */
  lemma Era5ShortwaveBranch(name: string, c: seq<Image>)
    requires Resolve(name) == Ok(Era5)
    ensures Shortwave(name, c, Bands(Era5)).Value? <==> |NominalDay(c)| > 0
    ensures |NominalDay(c)| > 0 ==>
      Shortwave(name, c, Bands(Era5)) == Value(Sum(Select(NominalDay(c), Era5ShortwaveBand)) / SecondsPerDay)
  {
    ShortwaveTestAgrees(name);
  }

  lemma DailySumOfConstant(c: seq<Image>, f: real)
    requires |NominalDay(c)| > 0
    requires forall x :: x in NominalDay(c) ==> x.band(Era5ShortwaveBand) == f
    ensures Sum(Select(NominalDay(c), Era5ShortwaveBand)) == (|NominalDay(c)| as real) * f
  {
    SumOfConstantBand(NominalDay(c), Era5ShortwaveBand, f);
  }

  /** A day of 24 hourly ERA5 images whose every band holds f. */
  function HourlyDay(f: real): seq<Image> {
    seq(24, i => Image(i * Hour, b => f))
  }

  lemma HourlyDayInside(f: real)
    ensures NominalDay(HourlyDay(f)) == HourlyDay(f)
    ensures |HourlyDay(f)| == 24
    ensures forall x :: x in HourlyDay(f) ==> x.band(Era5ShortwaveBand) == f
  {
    FilterDateAllInside(HourlyDay(f), 0, Day);
  }

  /** ERA5: 24 hourly samples of constant F give 24*F/86400. */
  lemma Era5ShortwaveHourly(m: Math, name: string, f: real)
    requires Resolve(name) == Ok(Era5)
    ensures Meteorology(m, name, HourlyDay(f)).value[3] == Value(24.0 * f / 86400.0)
  {
    ShortwaveOutput(m, name, HourlyDay(f));
    Era5HourlyShortwave(name, f);
  }

  lemma Era5HourlyShortwave(name: string, f: real)
    requires Resolve(name) == Ok(Era5)
    ensures Shortwave(name, HourlyDay(f), Bands(Era5)) == Value(24.0 * f / 86400.0)
  {
    HourlyDayInside(f);
    Era5ShortwaveOfConstantDay(name, HourlyDay(f), f);
  }

  /** GLDAS: the fourth output is the mean of `SWdown_f_tavg` over the
      shifted window [3 h, 27 h) of the whole collection. */
  lemma GldasShortwaveBranch(m: Math, name: string, c: seq<Image>)
    requires Resolve(name) == Ok(Gldas)
    ensures Meteorology(m, name, c).value[3] == Mean(Select(FilterDate(c, ShiftStart, ShiftEnd), "SWdown_f_tavg"))
  {
    ShortwaveOutput(m, name, c);
    GldasShortwave(name, c);
  }

  lemma GldasShortwave(name: string, c: seq<Image>)
    requires Resolve(name) == Ok(Gldas)
    ensures Shortwave(name, c, Bands(Gldas)) == Mean(Select(FilterDate(c, ShiftStart, ShiftEnd), "SWdown_f_tavg"))
  {
    ShortwaveTestAgrees(name);
    assert Bands(Gldas)["shortwave_radiation"] == "SWdown_f_tavg";
  }

  /** GLDAS: the first three outputs are the min, max and mean of
      `Tair_f_inst` over the nominal day. */
  lemma GldasTemperatureBranch(m: Math, name: string, c: seq<Image>)
    requires Resolve(name) == Ok(Gldas)
    ensures var t := Select(NominalDay(c), "Tair_f_inst");
      var r := Meteorology(m, name, c).value;
      r[0] == Minimum(t) && r[1] == Maximum(t) && r[2] == Mean(t)
  {
    TemperatureOutputs(m, name, c);
    assert Bands(Gldas)["temperature"] == "Tair_f_inst";
  }

  /** GLDAS: the fifth output is the mean of `Wind_f_inst` over the nominal
      day. */
  lemma GldasWindBranch(m: Math, name: string, c: seq<Image>)
    requires Resolve(name) == Ok(Gldas)
    ensures Meteorology(m, name, c).value[4] == Mean(Select(NominalDay(c), "Wind_f_inst"))
  {
    WindOutput(m, name, c);
  }

  /** GLDAS samples on both sides of every window edge, at 0 h, 2 h, 3 h,
      23 h, 24 h, 26 h and 27 h (times in seconds). Tair is 270, 280, 280,
      290, 320, 320, 320 and every other band 7, 10, 100, 200, 300, 400,
      1000. */
  function WindowEdges(): seq<Image> {
    [Image(0, b => if b == "Tair_f_inst" then 270.0 else 7.0),
     Image(7200, b => if b == "Tair_f_inst" then 280.0 else 10.0),
     Image(10800, b => if b == "Tair_f_inst" then 280.0 else 100.0),
     Image(82800, b => if b == "Tair_f_inst" then 290.0 else 200.0),
     Image(86400, b => if b == "Tair_f_inst" then 320.0 else 300.0),
     Image(93600, b => if b == "Tair_f_inst" then 320.0 else 400.0),
     Image(97200, b => if b == "Tair_f_inst" then 320.0 else 1000.0)]
  }

  /** The nominal day keeps the samples at 0 h to 23 h and drops those from
      24 h on. */
  lemma WindowEdgesDay()
    ensures NominalDay(WindowEdges()) == WindowEdges()[..4]
  {
    var c := WindowEdges();
    assert c == c[..4] + c[4..];
    FilterDateAppend(c[..4], c[4..], 0, Day);
    FilterDateAllInside(c[..4], 0, Day);
    FilterDateAllOutside(c[4..], 0, Day);
  }

  /** The shifted window keeps the samples at 3 h to 26 h and drops those at
      2 h and 27 h. */
  lemma WindowEdgesShifted()
    ensures FilterDate(WindowEdges(), ShiftStart, ShiftEnd) == WindowEdges()[2..6]
  {
    var c := WindowEdges();
    assert c == (c[..2] + c[2..6]) + c[6..];
    FilterDateAppend(c[..2] + c[2..6], c[6..], ShiftStart, ShiftEnd);
    FilterDateAppend(c[..2], c[2..6], ShiftStart, ShiftEnd);
    FilterDateAllOutside(c[..2], ShiftStart, ShiftEnd);
    FilterDateAllInside(c[2..6], ShiftStart, ShiftEnd);
    FilterDateAllOutside(c[6..], ShiftStart, ShiftEnd);
  }

  /** Every window edge, pinned: GLDAS tmin is 270 (the 0 h sample is in the
      day), tmax is 290 (23 h is in the day, 24 h is not) and shortwave is
      250, the mean of the 3 h, 23 h, 24 h and 26 h samples only (without
      3 h or 26 h, or with 2 h or 27 h, the mean would differ). */
  lemma GldasWindowEdges(m: Math, name: string)
    requires Resolve(name) == Ok(Gldas)
    ensures var r := Meteorology(m, name, WindowEdges()).value;
      r[0] == Value(270.0) && r[1] == Value(290.0) && r[3] == Value(250.0)
  {
    GldasTemperatureBranch(m, name, WindowEdges());
    GldasShortwaveBranch(m, name, WindowEdges());
    WindowEdgesTemperature();
    WindowEdgesShortwave();
  }

  lemma WindowEdgesTemperature()
    ensures var t := Select(NominalDay(WindowEdges()), "Tair_f_inst");
      Minimum(t) == Value(270.0) && Maximum(t) == Value(290.0)
  {
    WindowEdgesDayTemperatures();
    WindowEdgesExtremes([270.0, 280.0, 280.0, 290.0]);
  }

  lemma WindowEdgesExtremes(t: seq<real>)
    requires t == [270.0, 280.0, 280.0, 290.0]
    ensures Minimum(t) == Value(270.0) && Maximum(t) == Value(290.0)
  {
    assert Minimum(t).v in t && Minimum(t).v <= t[0];
    assert Maximum(t).v in t && t[3] <= Maximum(t).v;
  }

  lemma WindowEdgesDayTemperatures()
    ensures Select(NominalDay(WindowEdges()), "Tair_f_inst") == [270.0, 280.0, 280.0, 290.0]
  {
    WindowEdgesDay();
  }

  lemma WindowEdgesShortwave()
    ensures Mean(Select(FilterDate(WindowEdges(), ShiftStart, ShiftEnd), "SWdown_f_tavg")) == Value(250.0)
  {
    WindowEdgesShifted();
    var sw := Select(WindowEdges()[2..6], "SWdown_f_tavg");
    assert sw == [100.0, 200.0, 300.0, 400.0];
    assert sw[1..][1..][1..] == [400.0];
    assert Sum(sw) == 1000.0;
  }

  /** A GLDAS collection with one image before and one after 3 h. */
  function StraddlingShift(): seq<Image> {
    [Image(1 * Hour, b => 0.0),
     Image(25 * Hour, b => if b == "SWdown_f_tavg" then 100.0 else 0.0)]
  }

  /** GLDAS: shortwave averages the shifted window [3 h, 27 h): a sample at
      1 h is ignored and a sample at 25 h (the next day) is used. */
  lemma GldasShortwaveShiftedWindow(m: Math)
    ensures Meteorology(m, "GLDAS", StraddlingShift()).value[3] == Value(100.0)
  {
    ResolveGldasName();
    ShortwaveOutput(m, "GLDAS", StraddlingShift());
    StraddlingShiftShortwave();
  }

  lemma StraddlingShiftShortwave()
    ensures Shortwave("GLDAS", StraddlingShift(), Bands(Gldas)) == Value(100.0)
  {
    var c := StraddlingShift();
    ResolveGldasName();
    assert c == [c[0]] + [c[1]];
    FilterDateAppend([c[0]], [c[1]], ShiftStart, ShiftEnd);
    var shifted := FilterDate(c, ShiftStart, ShiftEnd);
    assert shifted == [c[1]];
    MeanOfConstantBand(shifted, "SWdown_f_tavg", 100.0);
  }

  /** The GLDAS case: constant Tair 300 K, wind 2 m/s and shortwave
      250 W/m2 give [300, 300, 300, 250, 2]. */
  lemma GldasConstantDay(m: Math, name: string, c: seq<Image>)
    requires Resolve(name) == Ok(Gldas)
    requires |NominalDay(c)| > 0 && |FilterDate(c, ShiftStart, ShiftEnd)| > 0
    requires forall x :: x in NominalDay(c) ==> x.band("Tair_f_inst") == 300.0 && x.band("Wind_f_inst") == 2.0
    requires forall x :: x in FilterDate(c, ShiftStart, ShiftEnd) ==> x.band("SWdown_f_tavg") == 250.0
    ensures Meteorology(m, name, c) == Ok([Value(300.0), Value(300.0), Value(300.0), Value(250.0), Value(2.0)])
  {
    TemperatureOutputs(m, name, c);
    ShortwaveOutput(m, name, c);
    WindOutput(m, name, c);
    GldasConstantTemperature(NominalDay(c));
    GldasConstantWind(m, NominalDay(c), 2.0);
    GldasConstantShortwave(name, c, 250.0);
  }

  lemma GldasConstantTemperature(day: seq<Image>)
    requires |day| > 0
    requires forall x :: x in day ==> x.band("Tair_f_inst") == 300.0
    ensures var t := Select(day, Bands(Gldas)["temperature"]);
      Minimum(t) == Value(300.0) && Maximum(t) == Value(300.0) && Mean(t) == Value(300.0)
  {
    assert Bands(Gldas)["temperature"] == "Tair_f_inst";
    ReducersOfConstantBand(day, "Tair_f_inst", 300.0);
  }

  /** A GLDAS speed band holding k all day gives wind k. */
  lemma GldasConstantWind(m: Math, day: seq<Image>, k: real)
    requires |day| > 0
    requires forall x :: x in day ==> x.band("Wind_f_inst") == k
    ensures WindSpeed(m, day, Bands(Gldas)) == Value(k)
  {
    MeanOfConstantBand(day, "Wind_f_inst", k);
  }

  /** A GLDAS shortwave band holding k over the shifted window gives k. */
  lemma GldasConstantShortwave(name: string, c: seq<Image>, k: real)
    requires Resolve(name) == Ok(Gldas)
    requires |FilterDate(c, ShiftStart, ShiftEnd)| > 0
    requires forall x :: x in FilterDate(c, ShiftStart, ShiftEnd) ==> x.band("SWdown_f_tavg") == k
    ensures Shortwave(name, c, Bands(Gldas)) == Value(k)
  {
    ShortwaveTestAgrees(name);
    MeanOfConstantBand(FilterDate(c, ShiftStart, ShiftEnd), "SWdown_f_tavg", k);
  }

  /** For ERA5 every output depends on the images of the nominal day only. */
  lemma Era5UsesNominalDayOnly(m: Math, name: string, c1: seq<Image>, c2: seq<Image>)
    requires Resolve(name) == Ok(Era5)
    requires NominalDay(c1) == NominalDay(c2)
    ensures Meteorology(m, name, c1) == Meteorology(m, name, c2)
  {
  }
}
