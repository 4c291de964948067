# gee_eto meteorology core in Dafny

This project models `meteorology.py` from the gee_eto repository. That code estimates daily grass reference evapotranspiration (ETo) on Google Earth Engine. It has three stages:

1. **`meteorology(time_start, meteo_source)`** turns a product name into a source kind. A name containing `gldas` means GLDAS; otherwise a name containing `era5` means ERA5; anything else raises `ValueError('Meteorology dataset not supported.')`.
   - It picks that source's band table.
   - It reduces the images of the day `[time_start, time_start + 1 day)` to five daily values: `[tmin, tmax, tair, swdown, wind]`.
   - Wind is the magnitude of the mean (u, v) vector when the table has components (ERA5). Otherwise it is the mean of the wind band (GLDAS).
   - GLDAS shortwave is the mean flux over the shifted window `[3 h, 27 h)`.
   - Every other source sums `surface_solar_radiation_downwards_hourly` over the nominal day and divides by 86400.
2. **`daily_rad`** computes the daily net radiation `Rn = (1 - 0.23) Rs - Rnl`, with these parts:
   - `Rs = 0.0864 rso24h`;
   - the extraterrestrial radiation Ra, from the day of year and the latitude;
   - the clear-sky radiation `Rso = (0.75 + 2e-5 z) Ra`;
   - the net longwave term Rnl. Its vapour pressure is taken at tmin only.
3. **`eto_grass`** computes:
   - the pressure P and the psychrometric constant `0.000665 P`;
   - the saturation vapour pressures at tmax and tmin, and their mean es;
   - the slope Δ;
   - the Penman-Monteith combination, with the actual vapour pressure taken as the value at tmin.

The model works on one pixel.

**Pixels and Earth Engine functions.**
- A raster value is a `Pixel`, written `Value(v)`.
- `NoData` is the model's "no value". It stands for a domain error of `acos`, `sqrt`, `exp` or `pow`, for a zero divisor and for a reducer over an empty window.
- Division by a variable (`Div`) gives `NoData` when the divisor is zero. This is the model's choice, not Earth Engine's: its `divide` yields 0 there (see "Left out").
- `sin`, `cos`, `tan`, `acos`, `exp`, `sqrt` and `pow` are fields of a `Math` record that every operation takes as a parameter. Each lemma therefore holds for every choice of these functions. A lemma that needs more states it as a hypothesis, for example `SqrtExact` (sqrt is exact on the non-negative reals) or `ExpMonotone`.

**Collections.**
- An image collection is a sequence of `Image(time, band)`. `time` is in seconds after `time_start`.
- `filterDate` keeps the half-open window.
- The model gives `NoData` for `mean`, `min` and `max` of an empty window, and for the ERA5 `sum`. Earth Engine instead yields an image without bands there (see "Left out").

**Dates.** The day of year is computed from a UTC calendar date, in the proleptic Gregorian calendar.

**Flagged behaviour.** The code and the FAO-56 standard differ in places. The model follows the code, and these lemmas make the differences explicit:
- The slope Δ is `4098 es / (Tair - 273.15)²`. It uses the mean saturation vapour pressure es and the square of the Celsius temperature. FAO-56 equation 13 takes e°(T) at the mean temperature and divides by `(T + 237.3)²`. `Eto.SlopeAgainstFao` and `Eto.SlopeAtTwentyDegrees` compare the code's slope with equation 13's divisor applied to the same es.
  - At exactly 0 °C the slope divides by zero; the model then gives no value (`Eto.FreezingAirGivesNoData`).
- The Stefan-Boltzmann factor is `4.901e-9`, as written in the code; FAO-56 gives σ = 4.903e-9 MJ K⁻⁴ m⁻² day⁻¹.

Two features follow FAO-56 and are stated for clarity: the aerodynamic factor is `Cn / (Tair_C + 273)` with `Cn = 900`, as in FAO-56 equation 6, and the result is not clamped at zero (`Eto.NoClamping`).

Files:
- `pixel.dfy` (module `Pixels`): the pixel value type, `Div` and the `Math` record.
- `text.dfy` (module `Text`): ASCII lower-casing and the substring test.
- `series.dfy` (module `Series`): images, `filterDate`, `select` and the reducers.
- `source_adapter.dfy` (module `SourceAdapter`): `meteorology()`.
- `calendar.dfy` (module `Calendar`): the day of year.
- `daily_rad.dfy` (module `Radiation`): `daily_rad()`.
- `eto_grass.dfy` (module `Eto`): `eto_grass()`.

## Model

| member | source | states |
|---|---|---|
| Pixels.Div | meteorology.py:119-120 | a quotient has a value exactly when the divisor is non-zero, and then it times the divisor is the dividend. The zero-divisor case is the model's choice (see "Left out") |
| Text.Lower | meteorology.py:12 | on ASCII, `.lower()` keeps the length and lower-cases each character |
| Text.LowerIdempotent | meteorology.py:12 | lower-casing twice is lower-casing once |
| Text.Contains | meteorology.py:12 | Python's `in`, used at lines 12, 22 and 55, as a scan from the left; `Text.ContainsIff` proves it true exactly when the needle occurs at some index |
| Text.ContainsIff | meteorology.py:12 | the scan behind Python's `in` is true exactly when the needle occurs at some index |
| Text.ContainsAt | meteorology.py:22 | an occurrence at a known index makes `in` true |
| Series.FilterDate | meteorology.py:9-10 | `filterDate` keeps only images inside `[start, end)` and never adds any |
| Series.FilterDateMembers | meteorology.py:9-10 | an image is kept exactly when it is in the collection and inside the window |
| Series.FilterDateAppend | meteorology.py:55-58 | filtering a concatenation filters each part |
| Series.FilterDateAllOutside | meteorology.py:9-10 | a collection wholly outside the window is dropped |
| Series.FilterDateAllInside | meteorology.py:9-10 | a collection wholly inside the window passes unchanged |
| Series.Select | meteorology.py:39-40 | `select(name)`, defined image by image, has one value per image, and its i-th value is that band of the i-th image |
| Series.Sum | meteorology.py:70 | `sum()` totals the series; what it promises is stated by `Series.SumBounds` and `Series.SumConstant` |
| Series.Mean | meteorology.py:75 | `mean()` has a value exactly when the window holds images, and then the mean times their number is their sum |
| Series.Minimum | meteorology.py:51 | `min()` has a value exactly when the window holds images, and then it is one of the samples and at most every sample |
| Series.Maximum | meteorology.py:52 | `max()` has a value exactly when the window holds images, and then it is one of the samples and at least every sample |
| Series.Total | meteorology.py:70 | the ERA5 `sum()` has a value exactly when the window holds images, and then it is the sum of the samples |
| Series.MinOf | meteorology.py:51 | `min()` returns an element that is at most every element |
| Series.MaxOf | meteorology.py:52 | `max()` returns an element that is at least every element |
| Series.SumBounds | meteorology.py:70 | a sum of n values in [lo, hi] lies in [n lo, n hi] |
| Series.SumConstant | meteorology.py:70 | a sum of n copies of c is n c |
| Series.MeanWithin | meteorology.py:75 | the mean of values in [lo, hi] is defined and lies in [lo, hi] |
| Series.MeanBetweenMinAndMax | meteorology.py:51-75 | mean, min and max have no value exactly when the window is empty; otherwise min <= mean <= max |
| Series.MeanOfConstantBand | meteorology.py:48 | the mean of a band that is constant over the images is that constant |
| Series.ReducersOfConstantBand | meteorology.py:48-75 | a band constant over the images gives that constant from mean, min and max, and n times it from the sum |
| Series.SumOfConstantBand | meteorology.py:70 | the sum of a band that holds F in each of n images is n F |
| Series.ReducersOfConstant | meteorology.py:51-75 | mean, min and max of a constant series are the constant; its sum is n times it |
| SourceAdapter.Resolve | meteorology.py:12-34 | a refusal always carries the unsupported-dataset ValueError; which source each name resolves to is stated by `SourceAdapter.ResolveByTags` |
| SourceAdapter.Magnitude | meteorology.py:42-44 | no value when either mean component has none; with an exact sqrt, otherwise a non-negative value whose square is u² + v² |
| SourceAdapter.WindSpeed | meteorology.py:37-48 | no wind without images in the day; from the speed band, a value exactly when the day holds images. The component branch is `SourceAdapter.Era5WindBranch`: the magnitude of the day's mean u and v, so with an exact sqrt the non-negative root of mean(u)² + mean(v)². `SourceAdapter.WindOfConstantComponents` and `SourceAdapter.WindAveragesComponentsFirst` give examples |
| SourceAdapter.Shortwave | meteorology.py:55-72 | for a name with the GLDAS tag, a value exactly when the shifted window holds images; otherwise exactly when the nominal day does. The branch contents are stated by `SourceAdapter.GldasShortwaveBranch` and `SourceAdapter.Era5ShortwaveBranch` |
| SourceAdapter.Bands | meteorology.py:14-31 | each table has the temperature and shortwave keys; it has `u_wind` (and then `v_wind`) exactly for ERA5, and otherwise `ux` |
| SourceAdapter.Meteorology | meteorology.py:7-78 | it fails exactly when resolution fails, with the unsupported-dataset ValueError; otherwise it returns five outputs |
| SourceAdapter.ResolveByTags | meteorology.py:12-34 | GLDAS exactly when the lower-cased name contains `gldas`; ERA5 exactly when it contains `era5` but not `gldas`; otherwise the ValueError |
| SourceAdapter.ResolveIgnoresCase | meteorology.py:12-23 | resolution does not depend on the case of the name |
| SourceAdapter.ResolveGldasName | meteorology.py:12 | `GLDAS` resolves to GLDAS |
| SourceAdapter.ResolveEra5Name | meteorology.py:22 | `ERA5` resolves to ERA5 and does not carry the GLDAS tag |
| SourceAdapter.ResolveBothTags | meteorology.py:12-23 | any capitalisation of `era5-gldas`, which carries both tags, resolves to GLDAS, because that test comes first |
| SourceAdapter.ResolveUnknownName | meteorology.py:33-34 | any capitalisation of `foobar`, which carries neither tag, resolves to the ValueError |
| SourceAdapter.UnsupportedSource | meteorology.py:33-34 | `meteorology` of `foobar` is the ValueError, whatever the collection |
| SourceAdapter.ShortwaveTestAgrees | meteorology.py:55 | in the shortwave step, the second `'gldas'` test agrees with the resolved source |
| SourceAdapter.TemperatureOrdered | meteorology.py:51-75 | over a non-empty day tmin <= tair <= tmax; over an empty day none of the three has a value |
| SourceAdapter.WindOfConstantComponents | meteorology.py:37-44 | constant components u, v give `sqrt(u² + v²)` |
| SourceAdapter.Era5WindFromComponents | meteorology.py:37-44 | for ERA5 with u = 3 and v = 4 all day, wind is 5 |
| SourceAdapter.Era5WindOfThreeAndFour | meteorology.py:37-44 | components 3 and 4 give speed 5 |
| SourceAdapter.WindAveragesComponentsFirst | meteorology.py:39-44 | two opposite unit winds give 0: the vector is averaged before its magnitude is taken |
| SourceAdapter.OppositeWindsCancel | meteorology.py:39-44 | the mean u of +1 and -1 is 0, so the magnitude is 0 |
| SourceAdapter.Era5ShortwaveIsDailySumOver86400 | meteorology.py:64-72 | for ERA5, n samples of constant energy F in the day give n F / 86400 |
| SourceAdapter.Era5ShortwaveBranch | meteorology.py:64-72 | ERA5 shortwave has a value exactly when the nominal day holds images, and then it is the day's sum of the literal band divided by 86400 |
| SourceAdapter.DailySumOfConstant | meteorology.py:64-72 | n samples of F in the nominal day sum to n F |
| SourceAdapter.Era5ShortwaveHourly | meteorology.py:64-72 | 24 hourly samples of F give 24 F / 86400 |
| SourceAdapter.GldasShortwaveBranch | meteorology.py:55-62 | for GLDAS, output 3 is the mean of `SWdown_f_tavg` over `[3 h, 27 h)` of the whole collection |
| SourceAdapter.GldasTemperatureBranch | meteorology.py:51-75 | for GLDAS, outputs 0, 1 and 2 are the min, max and mean of `Tair_f_inst` over the nominal day |
| SourceAdapter.GldasWindBranch | meteorology.py:46-48 | for GLDAS, output 4 is the mean of `Wind_f_inst` over the nominal day |
| SourceAdapter.WindowEdgesDay | meteorology.py:9-10 | for samples at 0, 2, 3, 23, 24, 26 and 27 h, the nominal day keeps exactly those at 0 to 23 h |
| SourceAdapter.WindowEdgesShifted | meteorology.py:57-59 | of the same samples, the GLDAS shortwave window keeps exactly those at 3 to 26 h |
| SourceAdapter.GldasWindowEdges | meteorology.py:51-62 | on those samples GLDAS tmin is 270 (0 h is in the day), tmax is 290 (23 h is in the day, 24 h is not) and shortwave is 250 (exactly 3, 23, 24 and 26 h are in the shifted window) |
| SourceAdapter.GldasShortwaveShiftedWindow | meteorology.py:55-62 | a GLDAS sample at 1 h is ignored and one at 25 h is used |
| SourceAdapter.StraddlingShiftShortwave | meteorology.py:55-62 | the mean over the shifted window of those two samples is 100 |
| SourceAdapter.GldasConstantDay | meteorology.py:7-78 | constant GLDAS inputs Tair 300, wind 2 and shortwave 250 give exactly [300, 300, 300, 250, 2] |
| SourceAdapter.GldasConstantTemperature | meteorology.py:51-75 | a constant Tair band gives min = max = mean = 300 |
| SourceAdapter.GldasConstantWind | meteorology.py:46-48 | a GLDAS speed band holding k in every image of a non-empty day gives wind k |
| SourceAdapter.GldasConstantShortwave | meteorology.py:55-62 | a GLDAS shortwave band holding k in every image of a non-empty shifted window gives k |
| SourceAdapter.Era5UsesNominalDayOnly | meteorology.py:9-10 | for ERA5, images outside the nominal day change no output |
| Calendar.DaysBeforeMonth | meteorology.py:86 | months before month m hold between 28(m-1) and 31(m-1) days |
| Calendar.DaysBeforeMonthOfYear | meteorology.py:86 | the twelve months make up the length of the year |
| Calendar.DayOrdinal | meteorology.py:86 | `getRelative('day', 'year')` lies in [0, days in the year) |
| Calendar.DayOfYear | meteorology.py:86 | doy lies in 1..366 and within the length of its year |
| Calendar.NextDay | meteorology.py:86 | the next calendar day is a valid date |
| Calendar.DayOfYearCountsDays | meteorology.py:86 | doy is 1 on 1 January and the year's length on 31 December; it grows by one per day and restarts at 1 in a new year |
| Calendar.DayOfYearExample | meteorology.py:86 | 1 June 2020 is day 153 |
| Radiation.ExtraterrestrialRadiation | meteorology.py:88-107 | Ra is defined exactly when the sunset hour angle for the day's solar declination is |
| Radiation.DailyRad | meteorology.py:82-127 | a defined Rn needs a defined Ra and a non-zero Rso; its value is stated by `Radiation.NetRadiationBalance` |
| Radiation.DailyShortwave | meteorology.py:84 | Rs is the mean flux times 86400 s, in MJ |
| Radiation.Latitude | meteorology.py:94-95 | degrees become radians: the result times 180 is the latitude times pi, and [-90, 90] maps into [-pi/2, pi/2] |
| Radiation.ClearSkyRadiation | meteorology.py:109-110 | Rso is 0.75 Ra at sea level, 0 at -37500 m, and positive above that height when Ra is positive |
| Radiation.NetShortwave | meteorology.py:112-113 | Rns is 0.77 Rs, so for non-negative Rs it lies between 0 and Rs |
| Radiation.SaturationVapourPressure | meteorology.py:115-116 | no value at -237.3 °C, where the exponent's divisor is zero; 0.6108 kPa at 0 °C when exp(0) = 1. Growth with temperature is `Eto.SaturationVapourPressureMonotone` |
| Radiation.NetLongwave | meteorology.py:118-123 | no value when Rso is 0; a defined Rnl has a defined humidity factor, and under a clear sky (Rs = Rso) it is the mean fourth power times sigma times that factor |
| Radiation.NetLongwaveFactors | meteorology.py:115-123 | Rnl is the mean fourth power times a humidity factor of tmin only times the cloudiness factor; it is defined exactly when both factors are |
| Radiation.ClearSkyCloudFactor | meteorology.py:118-120 | with Rs = Rso the cloudiness factor is 1 |
| Radiation.NetRadiationBalance | meteorology.py:109-125 | Rn is defined exactly when Ra and Rnl are, and then Rn = (1 - 0.23) Rs - Rnl |
| Radiation.DegenerateElevation | meteorology.py:109-125 | at -37500 m, Rso is 0 and Rn has no value |
| Eto.EtoGrass | meteorology.py:130-177 | a defined ETo needs a defined Rn, a defined pressure and a mean air temperature other than 0 °C; `Eto.EtoGrassTerms` gives the converse (with these and both saturation vapour pressures defined, ETo is the Penman-Monteith combination, and otherwise has no value), and `Eto.EtoGrassEquation` the equation it solves |
| Eto.AtmosphericPressure | meteorology.py:134-137 | at sea level, with pow(1, 5.26) = 1, P is 101.3 kPa |
| Eto.PsychrometricConstant | meteorology.py:139-141 | gamma times 1000 is 0.665 P, so for a positive P it is positive and below P |
| Eto.PenmanMonteith | meteorology.py:164-175 | the combination has a value exactly when the mean air temperature is not -273 °C and delta + gamma (1 + 0.34 u) is non-zero; the equation it solves is stated by `Eto.PenmanMonteithSolves` |
| Eto.MeanSaturationVapourPressure | meteorology.py:153-157 | es is the midpoint of ea_min and ea_max, so it lies between them |
| Eto.VapourPressureSlope | meteorology.py:159-162 | delta is defined exactly when tair is not 0 °C, and then delta times (tair °C)² is 4098 es |
| Eto.PenmanMonteithSolves | meteorology.py:164-175 | the combination yields et exactly when both divisors are non-zero and et solves the cleared Penman-Monteith equation |
| Eto.CalmAir | meteorology.py:164-166 | at zero wind only 0.408 delta Rn / (delta + gamma) is left |
| Eto.NoClamping | meteorology.py:177 | a negative Rn in calm air gives a negative ETo: nothing clamps it |
| Eto.NonNegativeTerms | meteorology.py:164-166 | non-negative Rn, wind and deficit with positive delta and gamma give a non-negative ETo |
| Eto.SaturatedAir | meteorology.py:164-166 | with ea = es the aerodynamic term vanishes |
| Eto.MagnusExponentMonotone | meteorology.py:143-151 | 17.27 t / (t + 237.3) is defined and non-decreasing above -237.3 °C |
| Eto.SaturationVapourPressureMonotone | meteorology.py:143-151 | with a monotone exp, the saturation vapour pressure is positive and grows with temperature |
| Eto.VapourDeficitNonNegative | meteorology.py:143-157 | with tmin <= tmax the deficit es - ea_min is not negative |
| Eto.EtoGrassTerms | meteorology.py:130-175 | ETo is the Penman-Monteith combination of the pixel's Rn, gamma, es, delta and ea_min when Rn, P, ea_min and ea_max are defined and the air is not at 0 °C, and has no value otherwise |
| Eto.EtoGrassEquation | meteorology.py:130-175 | a defined ETo solves the Penman-Monteith equation for those terms |
| Eto.NoDiurnalRange | meteorology.py:153-175 | tmin = tmax makes es = ea_min, so ETo = 0.408 delta Rn / (delta + gamma (1 + 0.34 u)) |
| Eto.FreezingAirGivesNoData | meteorology.py:159-162 | a mean air temperature of exactly 273.15 K gives no ETo |
| Eto.DegenerateElevationEto | meteorology.py:132 | at -37500 m ETo has no value, because Rn has none |
| Eto.GammaAtSeaLevel | meteorology.py:134-141 | at sea level P = 101.3 and gamma = 0.0673645 |
| Eto.SlopeAgainstFao | meteorology.py:159-162 | the code's delta times T² equals, for the same es, FAO-56 equation 13's divisor form times (T + 237.3)² |
| Eto.SlopeAtTwentyDegrees | meteorology.py:159-162 | at 20 °C with es = 2.3 the code's delta is 23.5635, where equation 13's divisor on the same es gives less than 0.15 |

## Left out

- Earth Engine plumbing is not modelled: the collection and image objects, `rename`, `pixelLonLat`, band metadata and the server-side evaluation. Each operation works on the values of one pixel, and the pixel's latitude is a parameter.
- Floating point is not modelled. Values are exact reals, so rounding and overflow are not captured.
- Pixels.Div: the model gives no value for a zero divisor. Earth Engine documents that `divide` yields 0 there. The model therefore does not capture what Earth Engine returns when Rso is 0 (`Radiation.DegenerateElevation`, `Eto.DegenerateElevationEto`) or when the mean air temperature is exactly 0 °C (`Eto.VapourPressureSlope`, `Eto.FreezingAirGivesNoData`). Those lemmas state the model's rule.
- Series.Mean, Series.Minimum, Series.Maximum and Series.Total: over an empty window the model gives no value. Earth Engine yields an image without bands, and the later `rename` fails when the image is evaluated. The model does not capture that failure.
- The transcendental functions are uninterpreted parameters. Nothing is proved about their numerical values beyond the stated hypotheses. In particular, `Ra >= 0` is not proved.
- `x ** 2` and `x ** 4` in the expressions are modelled as exact products.
- Lower-casing covers ASCII letters only. Python's Unicode case mapping is not modelled.
- Band lookup is total: a band missing from an image, which fails in Earth Engine, is not modelled.
- The entries `specific_humidity`, `dew_point_temp` and `pressure` appear in the band tables but, as in the code, nothing reads them.
- The date is a calendar date. Time-zone handling, the time of day of `time_start` and the conversion from a timestamp are not modelled.
- Radiation.ExtraterrestrialRadiation, Radiation.SunsetHourAngle, Radiation.InverseRelativeDistance and Radiation.SolarDeclination: modelled as in the code. Ra is proved defined exactly where the sunset hour angle is; nothing is stated about their values beyond their part in `Radiation.NetRadiationBalance`, because those depend only on the uninterpreted trigonometric functions.
- Wind height adjustment to 2 m does not occur in this code, so it is not modelled.
