/**
 * The pure parts of the weather service file: the icon-to-drawable table,
 * the "UTC±HH:MM" parser of `getTimeForUTCString`, and `epochToDate`.
 */
module WeatherService {
  import opened Optional
  import opened KotlinNumbers

  /** The drawable resources the weather column can show (`R.drawable.*`). */
  datatype Drawable =
    | ClearSky | ClearSkyNight | FewClouds | FewCloudsNight | ScatteredClouds
    | BrokenClouds | ShowerRain | Rain | RainNight | Thunderstorm | Snow | Mist
    | Empty

  /** `weatherDrawables`: weather icon code to drawable. */
  const WeatherDrawables: map<string, Drawable> := map[
    "01d" := ClearSky, "01n" := ClearSkyNight,
    "02d" := FewClouds, "02n" := FewCloudsNight,
    "03d" := ScatteredClouds, "03n" := ScatteredClouds,
    "04d" := BrokenClouds, "04n" := BrokenClouds,
    "09d" := ShowerRain, "09n" := ShowerRain,
    "10d" := Rain, "10n" := RainNight,
    "11d" := Thunderstorm, "11n" := Thunderstorm,
    "13d" := Snow, "13n" := Snow,
    "50d" := Mist, "50n" := Mist]

  /** The nine condition codes; each has a day ('d') and a night ('n') icon. */
  const ConditionCodes: seq<string> := ["01", "02", "03", "04", "09", "10", "11", "13", "50"]

  /** `weatherDrawables[code]`: null for an unknown code. */
  function LookupDrawable(code: string): (d: Option<Drawable>)
    ensures d.Some? <==> code in WeatherDrawables
    ensures d.Some? ==> d.value == WeatherDrawables[code] && d.value != Empty
  {
    if code in WeatherDrawables then Some(WeatherDrawables[code]) else None
  }

  /** The table has 18 keys: a day and a night icon for each of the nine condition codes. */
  lemma WeatherDrawablesKeys()
    ensures WeatherDrawables.Keys == {
      "01d", "01n", "02d", "02n", "03d", "03n", "04d", "04n", "09d", "09n",
      "10d", "10n", "11d", "11n", "13d", "13n", "50d", "50n"}
  {
  }

  /** Day and night share a drawable, except for codes 01, 02 and 10. */
  lemma DayAndNightVariants(c: string)
    requires c in ConditionCodes
    ensures c + "d" in WeatherDrawables && c + "n" in WeatherDrawables
    ensures WeatherDrawables[c + "d"] == WeatherDrawables[c + "n"] <==> c !in ["01", "02", "10"]
  {
    assert c + "d" == [c[0], c[1], 'd'];
    assert c + "n" == [c[0], c[1], 'n'];
  }

  // ----- Decimal digits -----

  predicate IsAsciiDigit(c: char)
  {
    '0' <= c <= '9'
  }

  function DigitValue(c: char): (d: nat)
    requires IsAsciiDigit(c)
    ensures d < 10
  {
    (c as int - '0' as int) as nat
  }

  function DigitChar(d: nat): (c: char)
    requires d < 10
    ensures IsAsciiDigit(c) && DigitValue(c) == d
  {
    ('0' as int + d) as char
  }

  /** Two-digit, zero-padded decimal (`HH`, `mm`, `ss` and the fields of "UTC+HH:MM"). */
  function Pad2(n: nat): (s: string)
    requires n < 100
    ensures |s| == 2 && IsAsciiDigit(s[0]) && IsAsciiDigit(s[1])
    ensures DigitValue(s[0]) * 10 + DigitValue(s[1]) == n
  {
    [DigitChar(n / 10), DigitChar(n % 10)]
  }

  /** `"dd".toInt()` for two ASCII digits. */
  function TwoDigitValue(hi: char, lo: char): (n: nat)
    requires IsAsciiDigit(hi) && IsAsciiDigit(lo)
    ensures n < 100 && Pad2(n) == [hi, lo]
  {
    DigitValue(hi) * 10 + DigitValue(lo)
  }

  // ----- getTimeForUTCString -----

  /** The largest offset the pattern admits: "UTC+99:99", fields are not range-checked. */
  const MaxUtcOffset: int := 99 * 3600 + 99 * 60

  /** Whole-string match of the pattern `UTC([+-])(\d{2}):(\d{2})`, where `\d` is an ASCII digit. */
  predicate MatchesUtcPattern(s: string)
  {
    && |s| == 9
    && s[..3] == "UTC"
    && (s[3] == '+' || s[3] == '-')
    && IsAsciiDigit(s[4]) && IsAsciiDigit(s[5])
    && s[6] == ':'
    && IsAsciiDigit(s[7]) && IsAsciiDigit(s[8])
  }

  /** The offset in seconds that `getTimeForUTCString` computes from a matching string. */
  function ParseUtcOffset(s: string): (offset: Option<int>)
    ensures offset.Some? <==> MatchesUtcPattern(s)
    ensures offset.Some? ==> -MaxUtcOffset <= offset.value <= MaxUtcOffset && offset.value % 60 == 0
  {
    if MatchesUtcPattern(s) then
      var hours := TwoDigitValue(s[4], s[5]);
      var minutes := TwoDigitValue(s[7], s[8]);
      Some((hours * 3600 + minutes * 60) * (if s[3] == '-' then -1 else 1))
    else
      None
  }

  /** The canonical "UTC±HH:MM" text, the inverse of the parser. */
  function FormatUtcOffset(negative: bool, hours: nat, minutes: nat): (s: string)
    requires hours < 100 && minutes < 100
    ensures |s| == 9
  {
    "UTC" + (if negative then "-" else "+") + Pad2(hours) + ":" + Pad2(minutes)
  }

  /** A formatted offset parses to hh·3600 + mm·60, negated iff the sign is '-'. */
  lemma ParseFormatted(negative: bool, hours: nat, minutes: nat)
    requires hours < 100 && minutes < 100
    ensures ParseUtcOffset(FormatUtcOffset(negative, hours, minutes))
         == Some(if negative then -(hours * 3600 + minutes * 60) else hours * 3600 + minutes * 60)
  {
    var s := FormatUtcOffset(negative, hours, minutes);
    var h, m := Pad2(hours), Pad2(minutes);
    assert s[..3] == "UTC";
    assert s[4] == h[0] && s[5] == h[1] && s[6] == ':' && s[7] == m[0] && s[8] == m[1];
  }

  /** Every string the parser accepts is a formatted offset: the pattern admits nothing else. */
  lemma ParsedIsFormatted(s: string)
    requires ParseUtcOffset(s).Some?
    ensures s == FormatUtcOffset(s[3] == '-', TwoDigitValue(s[4], s[5]), TwoDigitValue(s[7], s[8]))
  {
    var t := FormatUtcOffset(s[3] == '-', TwoDigitValue(s[4], s[5]), TwoDigitValue(s[7], s[8]));
    assert s[..3] == "UTC";
    assert forall i :: 0 <= i < 9 ==> s[i] == t[i];
  }

  /** Fields are not range-checked: "UTC+00:99" is 99 minutes, and "UTC-00:00" is 0. */
  lemma UnrangedFields()
    ensures ParseUtcOffset("UTC+00:99") == Some(5940)
    ensures ParseUtcOffset("UTC-00:00") == Some(0)
    ensures ParseUtcOffset("UTC+9:00").None?
  {
    ParseFormatted(false, 0, 99);
    assert FormatUtcOffset(false, 0, 99) == "UTC+00:99";
    ParseFormatted(true, 0, 0);
    assert FormatUtcOffset(true, 0, 0) == "UTC-00:00";
  }

  const InvalidTimezone: string := "Invalid Timezone"

  /**
   * `getTimeForUTCString`; `timeForOffset` is `getTimeForOffset`, which reads
   * the clock and the platform time-zone database.
   */
  function GetTimeForUtcString(s: string, timeForOffset: int -> string): (r: string)
    ensures !MatchesUtcPattern(s) ==> r == InvalidTimezone
    ensures MatchesUtcPattern(s) ==>
              exists negative: bool, hours: nat, minutes: nat ::
                hours < 100 && minutes < 100 && s == FormatUtcOffset(negative, hours, minutes) &&
                r == timeForOffset(if negative then -(hours * 3600 + minutes * 60) else hours * 3600 + minutes * 60)
  {
    match ParseUtcOffset(s)
    case None => InvalidTimezone
    case Some(offset) =>
      ParsedIsFormatted(s);
      ParseFormatted(s[3] == '-', TwoDigitValue(s[4], s[5]), TwoDigitValue(s[7], s[8]));
      timeForOffset(offset)
  }

  // ----- epochToDate -----

  const MillisPerDay: int := 86_400_000
  const SecondsPerDay: int := 86_400

  /** The instant `epoch + timezone * 1000`: an `Int` product, then a `Long` sum. */
  function ShiftedInstant(epoch: Int64, timezone: Int32): Int64
  {
    WrapLong(epoch + WrapInt(timezone * 1000))
  }

  /** The second of the UTC day an instant (milliseconds since the epoch) falls in. */
  function SecondOfDay(instant: int): (sec: nat)
    ensures sec < SecondsPerDay
  {
    (instant % MillisPerDay) / 1000
  }

  /** "HH:mm:ss" of a second of the day. */
  function ClockText(sec: nat): (r: string)
    requires sec < SecondsPerDay
    ensures |r| == 8 && r[2] == ':' && r[5] == ':'
    ensures forall i :: 0 <= i < 8 && i != 2 && i != 5 ==> IsAsciiDigit(r[i])
    ensures TwoDigitValue(r[0], r[1]) < 24 && TwoDigitValue(r[3], r[4]) < 60 && TwoDigitValue(r[6], r[7]) < 60
  {
    Pad2(sec / 3600) + ":" + Pad2(sec / 60 % 60) + ":" + Pad2(sec % 60)
  }

  /** `epochToDate`: "HH:mm:ss" of the UTC time of day at the shifted instant. */
  function EpochToDate(epoch: Int64, timezone: Int32): (r: string)
    ensures |r| == 8 && r[2] == ':' && r[5] == ':'
    ensures forall i :: 0 <= i < 8 && i != 2 && i != 5 ==> IsAsciiDigit(r[i])
    ensures TwoDigitValue(r[0], r[1]) < 24 && TwoDigitValue(r[3], r[4]) < 60 && TwoDigitValue(r[6], r[7]) < 60
  {
    ClockText(SecondOfDay(ShiftedInstant(epoch, timezone)))
  }

  /** Reading "HH:mm:ss" back as a second of the day. */
  function ClockSeconds(t: string): (sec: nat)
    requires |t| == 8 && forall i :: 0 <= i < 8 && i != 2 && i != 5 ==> IsAsciiDigit(t[i])
  {
    TwoDigitValue(t[0], t[1]) * 3600 + TwoDigitValue(t[3], t[4]) * 60 + TwoDigitValue(t[6], t[7])
  }

  lemma HoursMinutesSeconds(sec: nat)
    ensures sec / 3600 * 3600 + sec / 60 % 60 * 60 + sec % 60 == sec
  {
    var q := sec / 60;
    assert sec == q * 60 + sec % 60;
    assert q == q / 60 * 60 + q % 60;
    assert sec / 3600 == q / 60;
  }

  /** The clock text reads back as the second it was made from. */
  lemma ClockTextReadsBack(sec: nat)
    requires sec < SecondsPerDay
    ensures ClockSeconds(ClockText(sec)) == sec
  {
    var r := ClockText(sec);
    var hh, mm, ss := Pad2(sec / 3600), Pad2(sec / 60 % 60), Pad2(sec % 60);
    assert r[0] == hh[0] && r[1] == hh[1] && r[3] == mm[0] && r[4] == mm[1] && r[6] == ss[0] && r[7] == ss[1];
    HoursMinutesSeconds(sec);
  }

  /** The printed clock is exactly the second of the day of the shifted instant. */
  lemma EpochToDateReadsBack(epoch: Int64, timezone: Int32)
    ensures ClockSeconds(EpochToDate(epoch, timezone)) == SecondOfDay(ShiftedInstant(epoch, timezone))
  {
    ClockTextReadsBack(SecondOfDay(ShiftedInstant(epoch, timezone)));
  }

  /** Without overflow, the shifted instant is simply epoch + timezone·1000. */
  lemma ShiftedInstantExact(epoch: Int64, timezone: Int32)
    requires IsInt32(timezone * 1000) && IsInt64(epoch + timezone * 1000)
    ensures ShiftedInstant(epoch, timezone) == epoch + timezone * 1000
  {
  }

  /** Only the time of day is printed: a whole day more of offset changes nothing. */
  lemma EpochToDateIgnoresWholeDays(epoch: Int64, timezone: Int32)
    requires IsInt32((timezone + SecondsPerDay) * 1000) && IsInt32(timezone * 1000)
    requires IsInt64(epoch + (timezone + SecondsPerDay) * 1000) && IsInt64(epoch + timezone * 1000)
    ensures EpochToDate(epoch, timezone) == EpochToDate(epoch, (timezone + SecondsPerDay) as Int32)
  {
    var x := epoch + timezone * 1000;
    assert ShiftedInstant(epoch, (timezone + SecondsPerDay) as Int32) == x + MillisPerDay;
    assert (x + MillisPerDay) % MillisPerDay == x % MillisPerDay;
  }
}
