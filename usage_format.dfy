/**
 * The usage panel's two display helpers (App/src/content.js): the colour of a
 * utilisation bar and the "time until reset" label. The clock is a parameter.
 */
module UsageFormat {
  import opened Wrappers
  import opened Text

  const Red := "#ef4444"
  const Amber := "#f59e0b"
  const Yellow := "#eab308"
  const Green := "#22c55e"

  /** The bar colour for a utilisation percentage: four bands split at 50, 70 and 90. */
  function ProgressColor(percentage: real): (colour: string)
    ensures colour == Red <==> percentage >= 90.0
    ensures colour == Amber <==> 70.0 <= percentage < 90.0
    ensures colour == Yellow <==> 50.0 <= percentage < 70.0
    ensures colour == Green <==> percentage < 50.0
  {
    if percentage >= 90.0 then Red
    else if percentage >= 70.0 then Amber
    else if percentage >= 50.0 then Yellow
    else Green
  }

  /** How alarming a bar colour is, green lowest. */
  function Severity(colour: string): nat {
    if colour == Red then 3 else if colour == Amber then 2 else if colour == Yellow then 1 else 0
  }

  /** A fuller bar is never shown in a calmer colour. */
  lemma ProgressColorMonotone(p: real, q: real)
    requires p <= q
    ensures Severity(ProgressColor(p)) <= Severity(ProgressColor(q))
  {
  }

  const MinuteMs := 60000
  const HourMs := 3600000

  /**
   * The `resets_at` field as `new Date(...).getTime()` sees it: absent or empty
   * (falsy), a string `Date` cannot parse (NaN), or an instant in epoch milliseconds.
   */
  datatype ResetTime = NoReset | Unparseable | ResetAt(epochMillis: int)

  /** The six shapes of the label. */
  datatype Remaining =
    | Blank
    | Resetting
    | DaysHours(days: nat, hours: nat)
    | HoursMinutes(hours: nat, minutes: nat)
    | Minutes(minutes: nat)
    | Soon

  /**
   * Which label applies and with which numbers. The whole hours h = floor(diff / 1h)
   * and the minutes past them m = floor((diff mod 1h) / 1min) decide it; an
   * unparseable date gives NaN, which fails every comparison and ends in "soon".
   */
  function Classify(reset: ResetTime, now: int): (r: Remaining)
    ensures r == Blank <==> reset == NoReset
    ensures r == Resetting <==> reset.ResetAt? && reset.epochMillis - now <= 0
    ensures r.DaysHours? ==>
              && reset.ResetAt? && r.days >= 1 && r.hours < 24
              && (r.days * 24 + r.hours) * HourMs <= reset.epochMillis - now < (r.days * 24 + r.hours + 1) * HourMs
    ensures r.HoursMinutes? ==>
              && reset.ResetAt? && 1 <= r.hours < 24 && r.minutes < 60
              && r.hours * HourMs + r.minutes * MinuteMs <= reset.epochMillis - now < r.hours * HourMs + (r.minutes + 1) * MinuteMs
    ensures r.Minutes? ==>
              && reset.ResetAt? && 1 <= r.minutes < 60
              && r.minutes * MinuteMs <= reset.epochMillis - now < (r.minutes + 1) * MinuteMs
    ensures r == Soon <==> reset == Unparseable || (reset.ResetAt? && 0 < reset.epochMillis - now < MinuteMs)
  {
    match reset
    case NoReset => Blank
    case Unparseable => Soon
    case ResetAt(t) =>
      var diff := t - now;
      if diff <= 0 then Resetting
      else
        var h := diff / HourMs;
        var m := (diff % HourMs) / MinuteMs;
        if h >= 24 then DaysHours(h / 24, h % 24)
        else if h > 0 then HoursMinutes(h, m)
        else if m > 0 then Minutes(m)
        else Soon
  }

  /** The text of each label shape. */
  function Render(r: Remaining): string {
    match r
    case Blank => ""
    case Resetting => "Resetting..."
    case DaysHours(d, h) => NatToString(d) + "d " + NatToString(h) + "h"
    case HoursMinutes(h, m) => NatToString(h) + "h " + NatToString(m) + "m"
    case Minutes(m) => NatToString(m) + "m"
    case Soon => "soon"
  }

  /** `formatTimeRemaining(resetTimestamp)` with `Date.now()` passed in as `now`. */
  function FormatTimeRemaining(reset: ResetTime, now: int): string {
    Render(Classify(reset, now))
  }

  /** Number of leading decimal digits of `s`. */
  function DigitRun(s: string): (k: nat)
    ensures k <= |s|
    ensures forall i :: 0 <= i < k ==> IsDigit(s[i])
    ensures k < |s| ==> !IsDigit(s[k])
  {
    if |s| > 0 && IsDigit(s[0]) then DigitRun(s[1..]) + 1 else 0
  }

  lemma {:induction false} DigitRunOfNumber(n: nat, rest: string)
    requires rest == [] || !IsDigit(rest[0])
    ensures DigitRun(NatToString(n) + rest) == |NatToString(n)|
  {
    var s := NatToString(n) + rest;
    if rest != [] {
      assert s[|NatToString(n)|] == rest[0];
    }
  }

  /** Reads a leading number followed by a unit letter: the number, the letter and what follows it. */
  function ReadAmount(s: string): Option<(nat, char, string)> {
    var k := DigitRun(s);
    if 0 < k < |s| then
      assert AllDigits(s[..k]);
      Some((DigitsValue(s[..k]), s[k], s[k + 1..]))
    else None
  }

  /** Reads a label back into its shape; `None` for text no label has. */
  function ParseLabel(s: string): Option<Remaining> {
    if s == "" then Some(Blank)
    else if s == "Resetting..." then Some(Resetting)
    else if s == "soon" then Some(Soon)
    else match ReadAmount(s)
      case None => None
      case Some((a, unit, rest)) => ParseAfterAmount(a, unit, rest)
  }

  /** The rest of a numeric label once its first number and unit letter are read. */
  function ParseAfterAmount(a: nat, unit: char, rest: string): Option<Remaining> {
    if unit == 'm' && rest == "" then Some(Minutes(a))
    else if (unit == 'd' || unit == 'h') && |rest| >= 1 && rest[0] == ' ' then
      match ReadAmount(rest[1..])
      case Some((b, unit2, tail)) =>
        if tail == "" && unit == 'd' && unit2 == 'h' then Some(DaysHours(a, b))
        else if tail == "" && unit == 'h' && unit2 == 'm' then Some(HoursMinutes(a, b))
        else None
      case None => None
    else None
  }

  /** A label that starts with a digit is read as a numeric one. */
  lemma ParseNumericLabel(s: string, a: nat, unit: char, rest: string)
    requires |s| > 0 && IsDigit(s[0])
    requires ReadAmount(s) == Some((a, unit, rest))
    ensures ParseLabel(s) == ParseAfterAmount(a, unit, rest)
  {
    assert s != "Resetting..." by { assert "Resetting..."[0] == 'R'; }
    assert s != "soon" by { assert "soon"[0] == 's'; }
  }

  lemma {:induction false} ReadAmountOfNumber(n: nat, unit: char, rest: string)
    requires !IsDigit(unit)
    ensures ReadAmount(NatToString(n) + [unit] + rest) == Some((n, unit, rest))
  {
    var s := NatToString(n) + [unit] + rest;
    assert s == NatToString(n) + ([unit] + rest);
    DigitRunOfNumber(n, [unit] + rest);
    var k := |NatToString(n)|;
    assert s[..k] == NatToString(n);
    assert s[k] == unit && s[k + 1..] == rest;
    NatToStringRoundTrip(n);
  }

  lemma TwoPartRoundTrip(a: nat, unit: char, b: nat, unit2: char)
    requires (unit == 'd' && unit2 == 'h') || (unit == 'h' && unit2 == 'm')
    ensures ParseLabel(NatToString(a) + [unit, ' '] + NatToString(b) + [unit2])
            == Some(if unit == 'd' then DaysHours(a, b) else HoursMinutes(a, b))
  {
    var na, nb := NatToString(a), NatToString(b);
    var tail := nb + [unit2] + [];
    var rest := [' '] + tail;
    var text := na + [unit, ' '] + nb + [unit2];
    assert text == na + [unit] + rest;
    ReadAmountOfNumber(a, unit, rest);
    assert rest[1..] == tail;
    ReadAmountOfNumber(b, unit2, []);
    assert ParseAfterAmount(a, unit, rest) == Some(if unit == 'd' then DaysHours(a, b) else HoursMinutes(a, b));
    assert text[0] == na[0];
    ParseNumericLabel(text, a, unit, rest);
  }

  lemma MinutesRoundTrip(m: nat)
    ensures ParseLabel(Render(Minutes(m))) == Some(Minutes(m))
  {
    var text := Render(Minutes(m));
    assert text == NatToString(m) + ['m'] + [];
    ReadAmountOfNumber(m, 'm', []);
    assert text[0] == NatToString(m)[0];
    ParseNumericLabel(text, m, 'm', []);
  }

  lemma DaysHoursRoundTrip(d: nat, h: nat)
    ensures ParseLabel(Render(DaysHours(d, h))) == Some(DaysHours(d, h))
  {
    TwoPartRoundTrip(d, 'd', h, 'h');
  }

  lemma HoursMinutesRoundTrip(h: nat, m: nat)
    ensures ParseLabel(Render(HoursMinutes(h, m))) == Some(HoursMinutes(h, m))
  {
    TwoPartRoundTrip(h, 'h', m, 'm');
  }

  /**
   * The label is unambiguous: the shape and every number in it can be read
   * back from the text alone.
   */
  lemma {:induction false} LabelRoundTrip(r: Remaining)
    ensures ParseLabel(Render(r)) == Some(r)
  {
    match r
    case Blank =>
    case Resetting =>
    case Soon =>
    case Minutes(m) => MinutesRoundTrip(m);
    case DaysHours(d, h) => DaysHoursRoundTrip(d, h);
    case HoursMinutes(h, m) => HoursMinutesRoundTrip(h, m);
  }

  /** Two instants that get the same label fall in the same classification. */
  lemma SameLabelSameClass(a: ResetTime, b: ResetTime, now: int)
    requires FormatTimeRemaining(a, now) == FormatTimeRemaining(b, now)
    ensures Classify(a, now) == Classify(b, now)
  {
    LabelRoundTrip(Classify(a, now));
    LabelRoundTrip(Classify(b, now));
  }
}
