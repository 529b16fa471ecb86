/**
 * The "Today's Highlights" panel (src/components/TodayHighlights.jsx): the
 * air-quality badge, the 12-hour clock strings for sunrise and sunset, and the
 * day length.
 */
module Highlights {
  import opened Maybe
  import opened Decimal
  import opened Clock

  /** A badge: its label, background colour and text colour. */
  datatype Badge = Badge(text: string, color: string, textColor: string)

  /** The provider's air-quality index that a badge label stands for, if any. */
  function LevelOfLabel(text: string): (level: Option<int>)
    ensures level.Some? ==> 1 <= level.value <= 5
  {
    if text == "Good" then Some(1)
    else if text == "Fair" then Some(2)
    else if text == "Moderate" then Some(3)
    else if text == "Poor" then Some(4)
    else if text == "Very Poor" then Some(5)
    else None
  }

  /**
   * `renderAirQualityDescription(airQualityData?.main?.aqi)`.  An index of 1 to 5
   * gets its own label, which names the index back; anything else, an absent
   * index included, gets the grey "Unknown" badge.
   */
  function AirQualityBadge(aqi: Option<int>): (b: Badge)
    ensures LevelOfLabel(b.text) == (if aqi.Some? && 1 <= aqi.value <= 5 then aqi else None)
    ensures !(aqi.Some? && 1 <= aqi.value <= 5) ==> b == Badge("Unknown", "#9E9E9E", "#FFFFFF")
    ensures b.textColor == "#000000" <==> aqi == Some(2) || aqi == Some(3)
  {
    match aqi
    case Some(1) => Badge("Good", "#4CAF50", "#FFFFFF")
    case Some(2) => Badge("Fair", "#8BC34A", "#000000")
    case Some(3) => Badge("Moderate", "#FFC107", "#000000")
    case Some(4) => Badge("Poor", "#FF5722", "#FFFFFF")
    case Some(5) => Badge("Very Poor", "#9C27B0", "#FFFFFF")
    case _ => Badge("Unknown", "#9E9E9E", "#FFFFFF")
  }

  /** Different indices in 1..5 get different labels and different colours. */
  lemma AirQualityBadgeInjective(a: int, b: int)
    requires 1 <= a <= 5 && 1 <= b <= 5 && a != b
    ensures AirQualityBadge(Some(a)).text != AirQualityBadge(Some(b)).text
    ensures AirQualityBadge(Some(a)).color != AirQualityBadge(Some(b)).color
  {
  }

  /** The hour a 12-hour clock shows for a 24-hour `hours`: `hours % 12`, with 0 shown as 12. */
  function TwelveHour(hours: int): (h: int)
    requires 0 <= hours < 24
    ensures 1 <= h <= 12
    ensures h % 12 == hours % 12
  {
    var h := hours % 12;
    if h != 0 then h else 12
  }

  /** `hours >= 12 ? 'PM' : 'AM'`. */
  function Meridiem(hours: int): (m: string)
    ensures m == "PM" <==> hours >= 12
    ensures m == "AM" <==> hours < 12
  {
    if hours >= 12 then "PM" else "AM"
  }

  /** `minutes < 10 ? '0' + minutes : minutes`: always two digits. */
  function PadMinutes(minutes: int): (s: string)
    requires 0 <= minutes < 60
    ensures |s| == 2 && AllDigits(s) && NatValue(s) == minutes
  {
    NatRoundTrip(minutes);
    if minutes < 10 then "0" + NatString(minutes) else NatString(minutes)
  }

  /**
   * The clock string `h:mm AM|PM` for a 24-hour reading: a one- or two-digit
   * hour without a leading zero, two digits of minutes, and the suffix.
   */
  function FormatTime(hours: int, minutes: int): (s: string)
    requires 0 <= hours < 24 && 0 <= minutes < 60
    ensures 7 <= |s| <= 8
    ensures AllDigits(s[..|s| - 6]) && s[0] != '0'
    ensures s[|s| - 6] == ':' && s[|s| - 3] == ' '
    ensures s[|s| - 2..] == if hours >= 12 then "PM" else "AM"
  {
    var hourText := NatString(TwelveHour(hours));
    ClockLayout(hourText, PadMinutes(minutes), Meridiem(hours));
    hourText + ":" + PadMinutes(minutes) + " " + Meridiem(hours)
  }

  /** Where the parts of `h:mm XM` sit in the joined string. */
  lemma ClockLayout(hourText: string, minuteText: string, suffix: string)
    requires |hourText| >= 1 && |minuteText| == 2 && |suffix| == 2
    ensures var s := hourText + ":" + minuteText + " " + suffix;
      && |s| == |hourText| + 6
      && s[0] == hourText[0]
      && s[..|s| - 6] == hourText
      && s[|s| - 6] == ':'
      && s[|s| - 5..|s| - 3] == minuteText
      && s[|s| - 3] == ' '
      && s[|s| - 2..] == suffix
  {
    var s := hourText + ":" + minuteText + " " + suffix;
    var n := |hourText|;
    assert s == hourText + ([':'] + minuteText + [' '] + suffix);
    assert s[..n] == hourText;
    assert s[n + 1..n + 3] == minuteText;
    assert s[n + 4..] == suffix;
  }

  /** `getTimeString(timestamp)`: the local time of `timestamp` on a 12-hour clock. */
  function TimeString(timestamp: int, offset: int): (s: string)
    ensures ParseTime(s) == Some((LocalHour(timestamp, offset), LocalMinute(timestamp, offset)))
  {
    FormatTimeRoundTrip(LocalHour(timestamp, offset), LocalMinute(timestamp, offset));
    FormatTime(LocalHour(timestamp, offset), LocalMinute(timestamp, offset))
  }

  /** Reads a clock string `h:mm AM|PM` back as a 24-hour (hours, minutes) reading. */
  function ParseTime(s: string): Option<(int, int)>
  {
    if |s| < 7 then None
    else
      var n := |s|;
      var hourText, minuteText, suffix := s[..n - 6], s[n - 5..n - 3], s[n - 2..];
      if s[n - 6] != ':' || s[n - 3] != ' ' || !AllDigits(hourText) || !AllDigits(minuteText) then None
      else if suffix != "AM" && suffix != "PM" then None
      else
        var h, m := NatValue(hourText), NatValue(minuteText);
        if h < 1 || 12 < h || 60 <= m then None
        else Some((h % 12 + (if suffix == "PM" then 12 else 0), m))
  }

  /** The clock string determines the 24-hour reading it was made from. */
  lemma FormatTimeRoundTrip(hours: int, minutes: int)
    requires 0 <= hours < 24 && 0 <= minutes < 60
    ensures ParseTime(FormatTime(hours, minutes)) == Some((hours, minutes))
  {
    var h := TwelveHour(hours);
    NatRoundTrip(h);
    var hourText, minuteText, suffix := NatString(h), PadMinutes(minutes), Meridiem(hours);
    assert FormatTime(hours, minutes) == hourText + ":" + minuteText + " " + suffix;
    ParseJoined(hourText, minuteText, suffix);
    assert h % 12 == hours % 12;
    if hours >= 12 {
      assert hours % 12 == hours - 12;
    } else {
      assert hours % 12 == hours;
    }
  }

  /** A well-formed joined clock string parses to its parts' values. */
  lemma ParseJoined(hourText: string, minuteText: string, suffix: string)
    requires |hourText| >= 1 && AllDigits(hourText) && 1 <= NatValue(hourText) <= 12
    requires |minuteText| == 2 && AllDigits(minuteText) && NatValue(minuteText) < 60
    requires suffix == "AM" || suffix == "PM"
    ensures ParseTime(hourText + ":" + minuteText + " " + suffix)
      == Some((NatValue(hourText) % 12 + (if suffix == "PM" then 12 else 0), NatValue(minuteText)))
  {
    ClockLayout(hourText, minuteText, suffix);
  }

  /** Hours and minutes of a day length, as `${hours}h ${minutes}m` shows them. */
  datatype Duration = Duration(hours: int, minutes: int)

  /** JavaScript's `%`: the remainder takes the sign of the dividend. */
  function JsRemainder(a: int, b: int): (r: int)
    requires b > 0
    ensures a >= 0 ==> 0 <= r < b
    ensures a < 0 ==> -b < r <= 0
  {
    if a >= 0 then a % b else -((-a) % b)
  }

  /** The quotient JavaScript's `%` goes with: `Math.trunc(a / b)`, rounded toward zero. */
  function JsQuotient(a: int, b: int): (q: int)
    requires b > 0
    ensures a >= 0 ==> q >= 0
    ensures a < 0 ==> q <= 0
  {
    if a >= 0 then a / b else -((-a) / b)
  }

  /** The remainder is what is left of `a` after the truncated quotient's multiple of `b`. */
  lemma JsDivision(a: int, b: int)
    requires b > 0
    ensures a == JsQuotient(a, b) * b + JsRemainder(a, b)
  {
    if a < 0 {
      var q, r := (-a) / b, (-a) % b;
      assert -a == q * b + r;
      assert a == (-q) * b + (-r);
    }
  }

  /**
   * The day-length split: `Math.floor(d / 3600)` hours and
   * `Math.floor((d % 3600) / 60)` minutes of `d = sunset - sunrise` seconds.
   */
  function DayLength(sunrise: int, sunset: int): (d: Duration)
    ensures d.hours * 3600 <= sunset - sunrise < d.hours * 3600 + 3600
  {
    var dayLengthSec := sunset - sunrise;
    Duration(dayLengthSec / 3600, JsRemainder(dayLengthSec, 3600) / 60)
  }

  /** For a day that ends after it begins, the split is exact to the minute. */
  lemma DayLengthSplit(sunrise: int, sunset: int)
    requires sunrise <= sunset
    ensures var d := DayLength(sunrise, sunset);
      && d.hours == (sunset - sunrise) / 3600
      && 0 <= d.minutes < 60
      && d.hours * 3600 + d.minutes * 60 <= sunset - sunrise < d.hours * 3600 + d.minutes * 60 + 60
  {
  }

  /**
   * If sunset precedes sunrise the two parts disagree: the hours are rounded
   * down and the minutes are rounded down from a negative remainder, so a
   * 30-second negative span shows as "-1h -1m".
   */
  lemma DayLengthNegative()
    ensures DayLength(30, 0) == Duration(-1, -1)
    ensures DayLengthText(30, 0) == "-1h -1m"
  {
  }

  /**
   * When sunset precedes sunrise, the hours are rounded down (at most -1) while
   * the minutes come from a negative remainder: between -60 and 0.
   */
  lemma DayLengthBeforeSunrise(sunrise: int, sunset: int)
    requires sunset < sunrise
    ensures DayLength(sunrise, sunset).hours <= -1
    ensures -60 <= DayLength(sunrise, sunset).minutes <= 0
  {
    var r := JsRemainder(sunset - sunrise, 3600);
    assert -3600 < r <= 0;
  }

  /** `${hours}h ${minutes}m`. */
  function DayLengthText(sunrise: int, sunset: int): (t: string)
    ensures |t| >= 5 && (t[0] == '-' <==> sunset < sunrise)
    ensures exists k :: DayLengthAt(t, k, DayLength(sunrise, sunset))
  {
    var d := DayLength(sunrise, sunset);
    var hourText, minuteText := IntString(d.hours), IntString(d.minutes);
    IntRoundTrip(d.hours);
    IntRoundTrip(d.minutes);
    DayLengthLayout(hourText, minuteText, d);
    hourText + "h " + minuteText + "m"
  }

  /** Where the parts of `${hours}h ${minutes}m` sit in the joined string. */
  lemma DayLengthLayout(hourText: string, minuteText: string, d: Duration)
    requires IntText(hourText) && IntValue(hourText) == d.hours
    requires IntText(minuteText) && IntValue(minuteText) == d.minutes
    ensures var t := hourText + "h " + minuteText + "m";
      t[0] == hourText[0] && DayLengthAt(t, |hourText|, d)
  {
    var t := hourText + "h " + minuteText + "m";
    var k := |hourText|;
    assert t == hourText + (['h', ' '] + minuteText + ['m']);
    assert t[..k] == hourText;
    assert t[k..k + 2] == "h ";
    assert t[k + 2..|t| - 1] == minuteText;
  }

  /** `t` reads as the hours up to `k`, then "h ", the minutes and a final 'm'. */
  predicate DayLengthAt(t: string, k: int, d: Duration)
  {
    && 0 < k && k + 4 <= |t|
    && t[k..k + 2] == "h " && t[|t| - 1] == 'm'
    && IntText(t[..k]) && IntValue(t[..k]) == d.hours
    && IntText(t[k + 2..|t| - 1]) && IntValue(t[k + 2..|t| - 1]) == d.minutes
  }
}
