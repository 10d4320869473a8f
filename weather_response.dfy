/**
 * The weather response records and the display fields that `WeatherInfoCard`
 * derives from them for `WeatherColumn`, null-coalescing every missing value.
 */
module WeatherData {
  import opened Optional
  import opened KotlinNumbers
  import opened WeatherService

  datatype Coord = Coord(lon: real, lat: real)
  datatype Weather = Weather(id: Int32, main: string, description: string, icon: string)
  datatype Main = Main(temp: real, feelsLike: real, tempMin: real, tempMax: real,
                       pressure: Int32, humidity: Int32, seaLevel: Int32, groundLevel: Int32)
  datatype Wind = Wind(speed: real, deg: Int32, gust: real)
  datatype Rain = Rain(oneHour: Option<real>)
  datatype Clouds = Clouds(all: Int32)
  /** `Sys`; its `type` property is called `kind` here. Sunrise and sunset are in epoch seconds. */
  datatype Sys = Sys(kind: Int32, id: Int32, country: string, sunrise: Int64, sunset: Int64)

  /** The weather endpoint's response; `timezone` is the UTC offset in seconds. */
  datatype WeatherResponse = WeatherResponse(
    coord: Coord, weather: seq<Weather>, main: Main, visibility: Int32, wind: Wind,
    rain: Option<Rain>, clouds: Clouds, sys: Sys, timezone: Int32, id: Int32,
    name: string, cod: Int32)

  const NotAvailable: string := "N/A"

  /** Kelvin to Celsius offset. */
  const KelvinOffset: real := 273.15

  // ----- Int.toString -----

  function NatToString(n: nat): (s: string)
    ensures |s| >= 1 && (forall i :: 0 <= i < |s| ==> IsAsciiDigit(s[i]))
    ensures s[0] == '0' ==> n == 0
    decreases n
  {
    if n < 10 then [DigitChar(n)] else NatToString(n / 10) + [DigitChar(n % 10)]
  }

  /** `Int.toString()`: decimal, with a leading '-' for negative numbers. */
  function IntToString(n: int): string
  {
    if n < 0 then "-" + NatToString(-n) else NatToString(n)
  }

  /** The value of a string of decimal digits. */
  function DigitsValue(s: string): nat
    requires forall i :: 0 <= i < |s| ==> IsAsciiDigit(s[i])
  {
    if s == [] then 0 else DigitsValue(s[..|s| - 1]) * 10 + DigitValue(s[|s| - 1])
  }

  /** Reading the decimal digits back gives the number. */
  lemma {:induction false} NatToStringReadsBack(n: nat)
    ensures DigitsValue(NatToString(n)) == n
    decreases n
  {
    if n >= 10 {
      var s := NatToString(n);
      var prefix := NatToString(n / 10);
      assert s[..|s| - 1] == prefix;
      NatToStringReadsBack(n / 10);
    }
  }

  /** The decimal text determines the number: distinct humidities are shown differently. */
  lemma IntToStringInjective(m: int, n: int)
    requires IntToString(m) == IntToString(n)
    ensures m == n
  {
    if m < 0 && n < 0 {
      assert NatToString(-m) == IntToString(m)[1..];
      NatToStringReadsBack(-m);
      NatToStringReadsBack(-n);
    } else if m >= 0 && n >= 0 {
      NatToStringReadsBack(m);
      NatToStringReadsBack(n);
    }
  }

  // ----- WeatherInfoCard: deriving the column's fields -----

  /** The display fields of one column, before the unit suffixes are added. */
  datatype WeatherFields = WeatherFields(
    temperature: string, feelsLike: string, icon: Drawable, description: string,
    humidity: string, sunrise: Option<Int64>, sunset: Option<Int64>, timezone: Option<Int32>)

  /** `weather?.weather?.firstOrNull()`: only the first entry is ever used. */
  function FirstWeather(w: Option<WeatherResponse>): (first: Option<Weather>)
    ensures first.Some? <==> w.Some? && |w.value.weather| > 0
    ensures first.Some? ==> first.value == w.value.weather[0]
  {
    if w.Some? && |w.value.weather| > 0 then Some(w.value.weather[0]) else None
  }

  /** The icon: the first entry's code looked up in `weatherDrawables`, else `R.drawable.empty`. */
  function IconOf(w: Option<WeatherResponse>): (icon: Drawable)
    ensures icon == Empty <==> FirstWeather(w).None? || FirstWeather(w).value.icon !in WeatherDrawables
    ensures icon != Empty ==> icon == WeatherDrawables[FirstWeather(w).value.icon]
  {
    match FirstWeather(w)
    case None => Empty
    case Some(first) => LookupDrawable(first.icon).OrElse(Empty)
  }

  /** A Kelvin reading as formatted Celsius (`formatCelsius` is `String.format("%.2f", ·)`), else "N/A". */
  function CelsiusText(kelvin: Option<real>, formatCelsius: real -> string): (text: string)
    ensures kelvin.None? ==> text == NotAvailable
    ensures kelvin.Some? ==> text == formatCelsius(kelvin.value - KelvinOffset)
  {
    match kelvin
    case None => NotAvailable
    case Some(k) => formatCelsius(k - KelvinOffset)
  }

  /** Epoch seconds as epoch milliseconds: `it * 1000` on a `Long`. */
  function ToMillis(seconds: Int64): (ms: Int64)
    ensures IsInt64(seconds * 1000) ==> ms == seconds * 1000
  {
    WrapLong(seconds * 1000)
  }

  /** The fields `WeatherInfoCard` derives from one (possibly null) response. */
  function DeriveWeatherFields(w: Option<WeatherResponse>, formatCelsius: real -> string): (f: WeatherFields)
    // a null response: every text is "N/A", the icon is empty and the times are null
    ensures w.None? ==> f == WeatherFields(NotAvailable, NotAvailable, Empty, NotAvailable,
                                           NotAvailable, None, None, None)
    // the description is the first entry's, or "N/A" without one
    ensures f.description == if FirstWeather(w).Some? then FirstWeather(w).value.description else NotAvailable
    ensures f.icon == IconOf(w)
    ensures w.Some? ==> f.humidity == IntToString(w.value.main.humidity)
    ensures w.Some? ==> f.temperature == formatCelsius(w.value.main.temp - KelvinOffset)
    ensures w.Some? ==> f.feelsLike == formatCelsius(w.value.main.feelsLike - KelvinOffset)
    // seconds become milliseconds, and the offset is present whenever a time is
    ensures w.Some? ==> f.sunrise == Some(ToMillis(w.value.sys.sunrise)) &&
                        f.sunset == Some(ToMillis(w.value.sys.sunset)) &&
                        f.timezone == Some(w.value.timezone)
  {
    var first := FirstWeather(w);
    WeatherFields(
      CelsiusText(if w.Some? then Some(w.value.main.temp) else None, formatCelsius),
      CelsiusText(if w.Some? then Some(w.value.main.feelsLike) else None, formatCelsius),
      IconOf(w),
      if first.Some? then first.value.description else NotAvailable,
      if w.Some? then IntToString(w.value.main.humidity) else NotAvailable,
      if w.Some? then Some(ToMillis(w.value.sys.sunrise)) else None,
      if w.Some? then Some(ToMillis(w.value.sys.sunset)) else None,
      if w.Some? then Some(w.value.timezone) else None)
  }

  // ----- WeatherColumn -----

  /** What a column shows: the icon, then its lines of text from top to bottom. */
  datatype Column = Column(icon: Drawable, lines: seq<string>)

  /** "Sunrise: HH:mm:ss" or "Sunrise: N/A"; a present time dereferences the offset with `!!`. */
  function SunLine(caption: string, time: Option<Int64>, timezone: Option<Int32>): (line: string)
    requires time.Some? ==> timezone.Some?
    ensures time.None? ==> line == caption + ": " + NotAvailable
    ensures time.Some? ==> line == caption + ": " + EpochToDate(time.value, timezone.value)
    // a present time prints as "HH:mm:ss" after the caption, reading back as the UTC time of
    // day of the instant shifted by the offset
    ensures time.Some? ==>
              && |line| == |caption| + 10
              && line[..|caption| + 2] == caption + ": "
              && ClockSeconds(line[|caption| + 2..]) == SecondOfDay(ShiftedInstant(time.value, timezone.value))
  {
    if time.Some? then
      var clock := EpochToDate(time.value, timezone.value);
      assert (caption + ": " + clock)[|caption| + 2..] == clock;
      EpochToDateReadsBack(time.value, timezone.value);
      caption + ": " + clock
    else caption + ": " + NotAvailable
  }

  /** `WeatherColumn`; the caller must supply the offset whenever it supplies a time (`timezone!!`). */
  function WeatherColumn(temperature: string, feelsLike: string, humidity: string,
                         weatherIcon: Drawable, description: string,
                         sunrise: Option<Int64>, sunset: Option<Int64>, timezone: Option<Int32>): (c: Column)
    requires sunrise.Some? || sunset.Some? ==> timezone.Some?
    ensures c.icon == weatherIcon && |c.lines| == 6 && c.lines[0] == description
  {
    Column(weatherIcon,
      [description,
       "Temperature: " + temperature,
       "Feels Like: " + feelsLike,
       "Humidity: " + humidity,
       SunLine("Sunrise", sunrise, timezone),
       SunLine("Sunset", sunset, timezone)])
  }

  /** One column of `WeatherInfoCard`: the derived fields, with "°C" and "%" appended. */
  function InfoColumn(w: Option<WeatherResponse>, formatCelsius: real -> string): (c: Column)
    ensures c.icon == IconOf(w) && |c.lines| == 6
  {
    var f := DeriveWeatherFields(w, formatCelsius);
    WeatherColumn(f.temperature + "°C", f.feelsLike + "°C", f.humidity + "%",
                  f.icon, f.description, f.sunrise, f.sunset, f.timezone)
  }

  /** `WeatherInfoCard`: the source column and the target column, side by side. */
  function WeatherInfoCard(source: Option<WeatherResponse>, target: Option<WeatherResponse>,
                           formatCelsius: real -> string): (card: (Column, Column))
    // the source column on the left, the target column on the right, each with its own icon
    ensures card.0.icon == DeriveWeatherFields(source, formatCelsius).icon
    ensures card.1.icon == DeriveWeatherFields(target, formatCelsius).icon
    ensures |card.0.lines| == 6 && |card.1.lines| == 6
    // each column leads with its response's first weather description, or "N/A"
    ensures card.0.lines[0] == DeriveWeatherFields(source, formatCelsius).description
    ensures card.1.lines[0] == DeriveWeatherFields(target, formatCelsius).description
  {
    (InfoColumn(source, formatCelsius), InfoColumn(target, formatCelsius))
  }

  /** A null response shows placeholders; note the units are still appended ("N/A°C", "N/A%"). */
  lemma NullResponseColumn(formatCelsius: real -> string)
    ensures InfoColumn(None, formatCelsius)
         == Column(Empty, ["N/A", "Temperature: N/A°C", "Feels Like: N/A°C", "Humidity: N/A%",
                           "Sunrise: N/A", "Sunset: N/A"])
  {
    assert "Temperature: " + ("N/A" + "°C") == "Temperature: N/A°C";
    assert "Feels Like: " + ("N/A" + "°C") == "Feels Like: N/A°C";
    assert "Humidity: " + ("N/A" + "%") == "Humidity: N/A%";
    assert "Sunrise" + ": " + "N/A" == "Sunrise: N/A";
    assert "Sunset" + ": " + "N/A" == "Sunset: N/A";
  }

  /**
   * A present response: its first description (or "N/A"), both temperatures in °C,
   * its humidity in %, and its sunrise and sunset, in milliseconds, at its own offset.
   */
  lemma ResponseColumnTimes(w: WeatherResponse, formatCelsius: real -> string)
    ensures InfoColumn(Some(w), formatCelsius).lines[0]
         == if |w.weather| > 0 then w.weather[0].description else NotAvailable
    ensures InfoColumn(Some(w), formatCelsius).lines[1]
         == "Temperature: " + formatCelsius(w.main.temp - KelvinOffset) + "°C"
    ensures InfoColumn(Some(w), formatCelsius).lines[2]
         == "Feels Like: " + formatCelsius(w.main.feelsLike - KelvinOffset) + "°C"
    ensures InfoColumn(Some(w), formatCelsius).lines[4]
         == "Sunrise: " + EpochToDate(ToMillis(w.sys.sunrise), w.timezone)
    ensures InfoColumn(Some(w), formatCelsius).lines[5]
         == "Sunset: " + EpochToDate(ToMillis(w.sys.sunset), w.timezone)
    ensures InfoColumn(Some(w), formatCelsius).lines[3]
         == "Humidity: " + IntToString(w.main.humidity) + "%"
  {
  }

  /** Each column depends on its own response only. */
  lemma ColumnsIndependent(source: Option<WeatherResponse>, target: Option<WeatherResponse>,
                           other: Option<WeatherResponse>, formatCelsius: real -> string)
    ensures WeatherInfoCard(source, target, formatCelsius).0 == WeatherInfoCard(source, other, formatCelsius).0
    ensures WeatherInfoCard(source, target, formatCelsius).1 == WeatherInfoCard(other, target, formatCelsius).1
  {
  }

  /** Both columns follow the same rules: swapping the responses swaps the columns. */
  lemma ColumnsSwap(source: Option<WeatherResponse>, target: Option<WeatherResponse>, formatCelsius: real -> string)
    ensures WeatherInfoCard(target, source, formatCelsius)
         == (WeatherInfoCard(source, target, formatCelsius).1, WeatherInfoCard(source, target, formatCelsius).0)
  {
  }
}
