/**
 * One telemetry reading as the dashboards receive it, and its normalisation:
 * the raw fields are spread into a new record to which two display fields,
 * `time` and `formattedTime`, are added (frontend/src/Dashboard.tsx and
 * frontend/src/MockDashboard.tsx share this transform word for word).
 */
module Telemetry {

  /** The sensor selection, shared by both dashboards, that stands for every sensor. */
  const All := "all"

  /** The fields of a reading as the backend sends them (backend/models/types.go). */
  datatype Reading = Reading(
    sensorId: string,
    temperature: real,
    humidity: real,
    pressure: real,
    visibility: real,
    aqi: int,
    occupancy: int,
    reliabilityScore: real,
    createdAt: string)

  /**
   * What `new Date(created_at)` yields, read back through `getHours`,
   * `getMinutes` and `toLocaleTimeString`: either a wall-clock time in the
   * browser's zone, or the invalid date an unparseable timestamp gives
   * (parsing itself is not modelled; the caller supplies its outcome).
   */
  datatype Clock =
    | WallClock(hours: nat, minutes: nat, localeTime: string)
    | InvalidDate

  /** A normalised sample: the raw fields followed by the two derived ones. */
  datatype Sample = Sample(
    sensorId: string,
    temperature: real,
    humidity: real,
    pressure: real,
    visibility: real,
    aqi: int,
    occupancy: int,
    reliabilityScore: real,
    createdAt: string,
    time: string,
    formattedTime: string)

  /** The raw part of a sample: the sample without its derived display fields. */
  function Raw(s: Sample): Reading {
    Reading(s.sensorId, s.temperature, s.humidity, s.pressure, s.visibility,
            s.aqi, s.occupancy, s.reliabilityScore, s.createdAt)
  }

  predicate IsDigit(c: char) { '0' <= c <= '9' }

  predicate AllDigits(s: string) { forall i :: 0 <= i < |s| ==> IsDigit(s[i]) }

  function DigitValue(c: char): (d: nat)
    requires IsDigit(c)
    ensures d < 10
  {
    (c - '0') as nat
  }

  /** The number a string of decimal digits denotes, most significant first. */
  function DecimalValue(s: string): nat
    requires AllDigits(s)
  {
    if s == [] then 0 else DecimalValue(s[..|s| - 1]) * 10 + DigitValue(s[|s| - 1])
  }

  /** JavaScript's `${n}` / `String(n)` for a non-negative integer: one digit below 10, two below 100. */
  function DecimalString(n: nat): (r: string)
    ensures |r| >= 1
    ensures n < 10 ==> |r| == 1
    ensures 10 <= n < 100 ==> |r| == 2
    decreases n
  {
    var last := [(('0' as int) + n % 10) as char];
    if n < 10 then last else DecimalString(n / 10) + last
  }

  /** The printed number is a string of decimal digits that reads back as the number. */
  lemma {:induction false} DecimalRoundTrip(n: nat)
    ensures AllDigits(DecimalString(n)) && DecimalValue(DecimalString(n)) == n
    decreases n
  {
    if n >= 10 {
      DecimalRoundTrip(n / 10);
      var r := DecimalString(n);
      assert r[..|r| - 1] == DecimalString(n / 10);
    }
  }

  lemma TwoDigitValue(s: string)
    requires |s| == 2 && AllDigits(s)
    ensures DecimalValue(s) == DigitValue(s[0]) * 10 + DigitValue(s[1])
  {
    var first := s[..1];
    assert first[..0] == [] && first[0] == s[0];
    assert DecimalValue(first) == DigitValue(s[0]);
    assert s[..|s| - 1] == first;
  }

  function Repeat(c: char, n: nat): (r: string)
    ensures |r| == n && forall i :: 0 <= i < n ==> r[i] == c
  {
    if n == 0 then [] else Repeat(c, n - 1) + [c]
  }

  /** `s.padStart(width, fill)` with a one-character fill. */
  function PadStart(s: string, width: nat, fill: char): (r: string)
    ensures |r| == if |s| >= width then |s| else width
    ensures r[|r| - |s|..] == s
    ensures forall i :: 0 <= i < |r| - |s| ==> r[i] == fill
  {
    if |s| >= width then s else Repeat(fill, width - |s|) + s
  }

  /** `String(NaN)`: what `getHours()` and `getMinutes()` print for an invalid date. */
  const NotANumber := "NaN"

  /** The hour without padding, a colon, and the minute padded to two digits. */
  function FormattedTime(c: Clock): string {
    match c
    case WallClock(h, m, _) => DecimalString(h) + ":" + PadStart(DecimalString(m), 2, '0')
    case InvalidDate => NotANumber + ":" + PadStart(NotANumber, 2, '0')
  }

  /** An invalid date displays as "NaN:NaN": both fields print `NaN`, and padding leaves three characters alone. */
  lemma InvalidDateDisplay()
    ensures FormattedTime(InvalidDate) == "NaN:NaN"
  {
  }

  /** `toLocaleTimeString()`; an invalid date prints as "Invalid Date". */
  function LocaleTime(c: Clock): string {
    match c
    case WallClock(_, _, t) => t
    case InvalidDate => "Invalid Date"
  }

  /**
   * For any hour and minute a `Date` can report, the display time has four or
   * five characters, a colon third from the end, the hour before it and the
   * minute as exactly two digits after it.
   */
  lemma FormattedTimeShape(h: nat, m: nat, t: string)
    requires h < 24 && m < 60
    ensures var r := FormattedTime(WallClock(h, m, t));
      && (|r| == 4 || |r| == 5)
      && (|r| == 5 <==> h >= 10)
      && r[|r| - 3] == ':'
      && AllDigits(r[..|r| - 3]) && DecimalValue(r[..|r| - 3]) == h
      && AllDigits(r[|r| - 2..]) && DecimalValue(r[|r| - 2..]) == m
  {
    var hs, p := DecimalString(h), PadStart(DecimalString(m), 2, '0');
    DecimalRoundTrip(h);
    MinuteField(m);
    ColonSplit(hs, p);
  }

  /** Joining two fields with a colon: the fields can be read back around it. */
  lemma ColonSplit(hs: string, p: string)
    requires |p| == 2
    ensures var r := hs + ":" + p;
      && |r| == |hs| + 3
      && r[|r| - 3] == ':'
      && r[..|r| - 3] == hs
      && r[|r| - 2..] == p
  {
    var r := hs + ":" + p;
    assert r[..|r| - 3] == hs;
    assert r[|r| - 2..] == p;
  }

  /** The minute field: two digits that read back as the minute. */
  lemma MinuteField(m: nat)
    requires m < 60
    ensures var p := PadStart(DecimalString(m), 2, '0');
      |p| == 2 && AllDigits(p) && DecimalValue(p) == m
  {
    var ms := DecimalString(m);
    DecimalRoundTrip(m);
    var p := PadStart(ms, 2, '0');
    if m < 10 {
      assert p == ['0'] + ms;
      assert DecimalValue(ms) == DigitValue(ms[0]) by {
        assert ms[..0] == [];
      }
      TwoDigitValue(p);
    } else {
      assert p == ms;
    }
  }

  /**
   * The normaliser: every raw field is passed through unchanged (the spread
   * comes first) and the two display fields are derived from the clock.
   */
  function Normalize(raw: Reading, c: Clock): (s: Sample)
    ensures Raw(s) == raw
    ensures s.time == LocaleTime(c) && s.formattedTime == FormattedTime(c)
  {
    Sample(raw.sensorId, raw.temperature, raw.humidity, raw.pressure, raw.visibility,
           raw.aqi, raw.occupancy, raw.reliabilityScore, raw.createdAt,
           LocaleTime(c), FormattedTime(c))
  }
}
