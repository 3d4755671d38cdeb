/**
 * `ValidateDate` of the `verify` package, with the parser it relies on:
 * Go's `time.Parse` under the layout `time.RFC3339`
 * ("2006-01-02T15:04:05Z07:00"). Go first tries a strict reader of
 * RFC 3339 and, when that fails, its general layout-driven parser, which
 * accepts everything the strict one does; the language accepted is
 * therefore the general parser's, modelled here field by field.
 */
module VerifyDate {
  import opened Wrappers

  datatype Offset = UTC | Numeric(sign: char, hours: nat, minutes: nat)

  datatype Timestamp = Timestamp(
    year: nat, month: nat, day: nat,
    hour: nat, minute: nat, second: nat,
    fraction: string, offset: Offset)

  datatype Clock = Clock(hour: nat, minute: nat, second: nat, fraction: string, offset: Offset)

  datatype ValidationError = NotRFC3339(value: string, key: string)

  predicate IsDigit(c: char) {
    '0' <= c <= '9'
  }

  function Digit(c: char): nat
    requires IsDigit(c)
  {
    c as int - '0' as int
  }

  /** The two-digit number at `s[i..i + 2]`. */
  function Two(s: string, i: nat): nat
    requires i + 1 < |s| && IsDigit(s[i]) && IsDigit(s[i + 1])
  {
    10 * Digit(s[i]) + Digit(s[i + 1])
  }

  predicate IsLeap(year: nat) {
    year % 4 == 0 && (year % 100 != 0 || year % 400 == 0)
  }

  /** The number of days of a month (1 to 12) of the given year. */
  function DaysIn(month: nat, year: nat): nat {
    if month == 2 then (if IsLeap(year) then 29 else 28)
    else if month == 4 || month == 6 || month == 9 || month == 11 then 30
    else 31
  }

  /** The length of the run of decimal digits at the start of `s`. */
  function DigitRun(s: string): (n: nat)
    ensures n <= |s|
    ensures forall k :: 0 <= k < n ==> IsDigit(s[k])
    ensures n < |s| ==> !IsDigit(s[n])
    decreases |s|
  {
    if s != [] && IsDigit(s[0]) then 1 + DigitRun(s[1..]) else 0
  }

  /** "YYYY-MM-DD" at the start of `s`, with the digits in place. */
  predicate DateShape(s: string) {
    |s| >= 10 &&
    IsDigit(s[0]) && IsDigit(s[1]) && IsDigit(s[2]) && IsDigit(s[3]) && s[4] == '-' &&
    IsDigit(s[5]) && IsDigit(s[6]) && s[7] == '-' &&
    IsDigit(s[8]) && IsDigit(s[9])
  }

  function Year(s: string): nat
    requires DateShape(s)
  {
    100 * Two(s, 0) + Two(s, 2)
  }

  /** RFC 3339 full-date: the shape plus month 01-12 and a day that exists in that month. */
  predicate FullDate(s: string) {
    DateShape(s) && 1 <= Two(s, 5) <= 12 && 1 <= Two(s, 8) <= DaysIn(Two(s, 5), Year(s))
  }

  /**
   * The time zone as Go reads the "Z07:00" element: "Z", or a sign, two
   * digits, ':' and two digits with hours up to 24 and minutes up to 60;
   * nothing may follow.
   */
  function ParseZone(w: string): Option<Offset> {
    if |w| >= 1 && w[0] == 'Z' then
      (if |w| == 1 then Some(UTC) else None)
    else if |w| == 6 && (w[0] == '+' || w[0] == '-') && w[3] == ':' &&
            IsDigit(w[1]) && IsDigit(w[2]) && IsDigit(w[4]) && IsDigit(w[5]) &&
            Two(w, 1) <= 24 && Two(w, 4) <= 60 then
      Some(Numeric(w[0], Two(w, 1), Two(w, 4)))
    else None
  }

  /** The length of a fraction of a second Go accepts at the start of `u`: '.' or ',' then digits. */
  function GoFractionLength(u: string): (n: nat)
    ensures n <= |u|
  {
    if |u| >= 2 && (u[0] == '.' || u[0] == ',') && IsDigit(u[1]) then 1 + DigitRun(u[1..]) else 0
  }

  /**
   * "15:04:05" plus an optional fraction and the zone: the hour takes one
   * or two digits, minute and second exactly two.
   */
  function ParseClock(t: string): Option<Clock> {
    if |t| == 0 || !IsDigit(t[0]) then None
    else
      var hourLength := if |t| >= 2 && IsDigit(t[1]) then 2 else 1;
      var hour := if hourLength == 2 then Two(t, 0) else Digit(t[0]);
      var r := t[hourLength..];
      if |r| < 6 || r[0] != ':' || !IsDigit(r[1]) || !IsDigit(r[2]) ||
         r[3] != ':' || !IsDigit(r[4]) || !IsDigit(r[5]) then None
      else if hour >= 24 || Two(r, 1) >= 60 || Two(r, 4) >= 60 then None
      else
        var u := r[6..];
        var n := GoFractionLength(u);
        match ParseZone(u[n..])
        case None => None
        case Some(z) => Some(Clock(hour, Two(r, 1), Two(r, 4), u[..n], z))
  }

  /** `time.Parse(time.RFC3339, s)`, the fields it reads, or None for an error. */
  function ParseRFC3339(s: string): Option<Timestamp> {
    if |s| < 11 || !DateShape(s) || s[10] != 'T' then None
    else if !(1 <= Two(s, 5) <= 12) then None
    else
      match ParseClock(s[11..])
      case None => None
      case Some(c) =>
        if 1 <= Two(s, 8) <= DaysIn(Two(s, 5), Year(s)) then
          Some(Timestamp(Year(s), Two(s, 5), Two(s, 8), c.hour, c.minute, c.second, c.fraction, c.offset))
        else None
  }

  predicate Accepted(s: string) {
    ParseRFC3339(s).Some?
  }

  /** `ValidateDate`: never a warning, one error exactly when the value does not parse. */
  function ValidateDate(v: string, k: string): (r: (seq<string>, seq<ValidationError>))
    ensures r.0 == []
    ensures |r.1| <= 1
    ensures |r.1| == 0 <==> ParseRFC3339(v).Some?
    ensures r.1 != [] ==> r.1[0] == NotRFC3339(v, k)
  {
    if ParseRFC3339(v).None? then ([], [NotRFC3339(v, k)]) else ([], [])
  }

  // ---- RFC 3339, section 5.6 ------------------------------------------

  /** time-secfrac: '.' and one or more digits. */
  function SecFracLength(u: string): (n: nat)
    ensures n <= |u|
  {
    if |u| >= 2 && u[0] == '.' && IsDigit(u[1]) then 1 + DigitRun(u[1..]) else 0
  }

  /** time-offset: "Z" (or "z") or time-numoffset with hour 00-23 and minute 00-59. */
  predicate TimeOffset(w: string) {
    w == "Z" || w == "z" ||
    (|w| == 6 && (w[0] == '+' || w[0] == '-') && w[3] == ':' &&
     IsDigit(w[1]) && IsDigit(w[2]) && IsDigit(w[4]) && IsDigit(w[5]) &&
     Two(w, 1) <= 23 && Two(w, 4) <= 59)
  }

  /** partial-time "HH:MM:SS" at `s[11..19]`, seconds up to 60 (a leap second). */
  predicate PartialTime(s: string) {
    |s| >= 19 &&
    IsDigit(s[11]) && IsDigit(s[12]) && s[13] == ':' &&
    IsDigit(s[14]) && IsDigit(s[15]) && s[16] == ':' &&
    IsDigit(s[17]) && IsDigit(s[18]) &&
    Two(s, 11) <= 23 && Two(s, 14) <= 59 && Two(s, 17) <= 60
  }

  /** date-time = full-date "T" full-time; "T" may be written in lower case. */
  predicate IsRFC3339DateTime(s: string) {
    |s| >= 20 && FullDate(s) && (s[10] == 'T' || s[10] == 't') && PartialTime(s) &&
    TimeOffset(s[19..][SecFracLength(s[19..])..])
  }

  lemma ZoneOfStrictOffset(w: string)
    requires TimeOffset(w) && w != "z"
    ensures ParseZone(w).Some?
  {
  }

  lemma FractionLengthsAgree(u: string)
    requires |u| > 0 && u[0] != ','
    ensures GoFractionLength(u) == SecFracLength(u)
  {
  }

  /**
   * Every RFC 3339 date-time with an upper-case "T" and "Z" and no leap
   * second is accepted.
   */
  lemma StrictDateTimeAccepted(s: string)
    requires IsRFC3339DateTime(s)
    requires s[10] == 'T' && s[|s| - 1] != 'z' && Two(s, 17) <= 59
    ensures Accepted(s)
  {
    var t := s[11..];
    assert t[0] == s[11] && t[1] == s[12];
    var r := t[2..];
    assert r == s[13..];
    assert Two(r, 1) == Two(s, 14) && Two(r, 4) == Two(s, 17);
    var u := r[6..];
    assert u == s[19..];
    var n := SecFracLength(u);
    FractionLengthsAgree(u);
    var w := u[n..];
    assert s[|s| - 1] == w[|w| - 1];
    ZoneOfStrictOffset(w);
    assert ParseClock(t).Some?;
  }

  /**
   * What the parser demands of an accepted value: a full date, the "T",
   * a time, and a zone at the end ("Z" or a numeric offset).
   */
  lemma AcceptedHasDateTimeAndZone(s: string)
    requires Accepted(s)
    ensures |s| >= 19 && FullDate(s) && s[10] == 'T'
    ensures s[|s| - 1] == 'Z' || (s[|s| - 6] in "+-" && s[|s| - 3] == ':')
  {
    var t := s[11..];
    var hourLength := if |t| >= 2 && IsDigit(t[1]) then 2 else 1;
    var r := t[hourLength..];
    var u := r[6..];
    var n := GoFractionLength(u);
    var w := u[n..];
    assert ParseZone(w).Some?;
    assert |w| >= 1 && w == s[|s| - |w|..];
    if w[0] == 'Z' {
      assert s[|s| - 1] == w[0];
    } else {
      assert s[|s| - 6] == w[0] && s[|s| - 3] == w[3];
    }
  }

  /** The time zone at the end of `s` is "Z", or a numeric offset within the ranges of RFC 3339. */
  predicate OffsetWithinRFC3339(s: string) {
    (|s| >= 1 && s[|s| - 1] == 'Z') ||
    (|s| >= 5 && IsDigit(s[|s| - 5]) && IsDigit(s[|s| - 4]) && IsDigit(s[|s| - 2]) && IsDigit(s[|s| - 1]) &&
     Two(s, |s| - 5) <= 23 && Two(s, |s| - 2) <= 59)
  }

  /**
   * The converse of `StrictDateTimeAccepted`: an accepted value with a
   * two-digit hour, no comma before a fraction and an offset within the
   * RFC's ranges is an RFC 3339 date-time. So an accepted value that is not
   * one uses a one-digit hour, a comma fraction, or an offset hour of 24 or
   * offset minute of 60.
   */
  lemma AcceptedStrictIsRFC3339(s: string)
    requires Accepted(s)
    requires |s| > 19 && IsDigit(s[12]) && s[19] != ','
    requires OffsetWithinRFC3339(s)
    ensures IsRFC3339DateTime(s)
  {
    var t := s[11..];
    assert t[0] == s[11] && t[1] == s[12];
    var r := t[2..];
    assert r == s[13..];
    assert Two(t, 0) == Two(s, 11) && Two(r, 1) == Two(s, 14) && Two(r, 4) == Two(s, 17);
    var u := r[6..];
    assert u == s[19..];
    FractionLengthsAgree(u);
    var n := SecFracLength(u);
    var w := u[n..];
    assert ParseZone(w).Some?;
    assert |w| >= 1 && w == s[|s| - |w|..];
    if w[0] == 'Z' {
      assert w == "Z";
    } else {
      assert w[1] == s[|s| - 5] && w[2] == s[|s| - 4] && w[4] == s[|s| - 2] && w[5] == s[|s| - 1];
      assert Two(w, 1) == Two(s, |s| - 5) && Two(w, 4) == Two(s, |s| - 2);
    }
    assert TimeOffset(w);
  }

  /** The two values the package accepts in its own unit test. */
  lemma AcceptsTestValues()
    ensures ValidateDate("2025-12-12T12:34:56Z", "date").1 == []
    ensures ValidateDate("2025-12-12T12:34:56.123Z", "date").1 == []
  {
    AcceptsWholeSeconds();
    AcceptsFraction();
  }

  lemma AcceptsWholeSeconds()
    ensures Accepted("2025-12-12T12:34:56Z")
  {
    var a := "2025-12-12T12:34:56Z";
    assert DateShape(a) && Two(a, 5) == 12 && Two(a, 8) == 12 && Year(a) == 2025;
    assert a[11..] == "12:34:56Z";
    assert "12:34:56Z"[2..] == ":34:56Z";
    assert ":34:56Z"[6..] == "Z";
    assert GoFractionLength("Z") == 0 && "Z"[0..] == "Z";
    assert ParseZone("Z") == Some(UTC);
    assert ParseClock("12:34:56Z").Some?;
  }

  lemma AcceptsFraction()
    ensures Accepted("2025-12-12T12:34:56.123Z")
  {
    var a := "2025-12-12T12:34:56.123Z";
    assert DateShape(a) && Two(a, 5) == 12 && Two(a, 8) == 12 && Year(a) == 2025;
    assert a[11..] == "12:34:56.123Z";
    ClockWithFraction();
  }

  lemma ClockWithFraction()
    ensures ParseClock("12:34:56.123Z").Some?
  {
    assert "12:34:56.123Z"[2..] == ":34:56.123Z";
    assert ":34:56.123Z"[6..] == ".123Z";
    ThreeDigitFraction();
    assert ParseZone("Z") == Some(UTC);
  }

  lemma ThreeDigitFraction()
    ensures GoFractionLength(".123Z") == 4 && ".123Z"[4..] == "Z"
  {
    assert ".123Z"[1..] == "123Z" && "123Z"[1..] == "23Z" && "23Z"[1..] == "3Z" && "3Z"[1..] == "Z";
    assert DigitRun("Z") == 0;
    assert DigitRun("3Z") == 1;
    assert DigitRun("23Z") == 2;
    assert DigitRun("123Z") == 3;
  }

  /** The four values the package rejects in its own unit test. */
  lemma RejectsTestValues()
    ensures |ValidateDate("a", "date").1| == 1
    ensures |ValidateDate("1234", "date").1| == 1
    ensures |ValidateDate("0000-00-00", "date").1| == 1
    ensures |ValidateDate("", "date").1| == 1
  {
  }

  /**
   * Where Go departs from section 5.6 of RFC 3339: it takes a one-digit
   * hour, a comma before the fraction and an offset of hour 24 or minute
   * 60, and refuses a lower-case "t" or "z" and a leap second.
   */
  lemma DeparturesFromRFC3339()
    ensures Accepted("2025-12-12T1:34:56Z") && !IsRFC3339DateTime("2025-12-12T1:34:56Z")
    ensures Accepted("2025-12-12T12:34:56,5Z") && !IsRFC3339DateTime("2025-12-12T12:34:56,5Z")
    ensures Accepted("2025-12-12T12:34:56+24:00") && !IsRFC3339DateTime("2025-12-12T12:34:56+24:00")
    ensures Accepted("2025-12-12T12:34:56+00:60") && !IsRFC3339DateTime("2025-12-12T12:34:56+00:60")
    ensures IsRFC3339DateTime("2025-12-12t12:34:56Z") && !Accepted("2025-12-12t12:34:56Z")
    ensures IsRFC3339DateTime("2025-12-12T12:34:56z") && !Accepted("2025-12-12T12:34:56z")
    ensures IsRFC3339DateTime("2016-12-31T23:59:60Z") && !Accepted("2016-12-31T23:59:60Z")
  {
    OneDigitHour();
    CommaFraction();
    OffsetHour24();
    OffsetMinute60();
    LowerCaseT();
    LowerCaseZone();
    LeapSecond();
  }

  lemma OffsetHour24()
    ensures Accepted("2025-12-12T12:34:56+24:00") && !IsRFC3339DateTime("2025-12-12T12:34:56+24:00")
  {
    ClockWithOffsetHour24();
    var a := "2025-12-12T12:34:56+24:00";
    assert DateShape(a) && Two(a, 5) == 12 && Two(a, 8) == 12 && Year(a) == 2025;
    assert a[11..] == "12:34:56+24:00";
    assert a[19..] == "+24:00" && SecFracLength("+24:00") == 0 && "+24:00"[0..] == "+24:00";
    assert Two("+24:00", 1) == 24;
  }

  lemma ClockWithOffsetHour24()
    ensures ParseClock("12:34:56+24:00").Some?
  {
    assert "12:34:56+24:00"[2..] == ":34:56+24:00";
    assert ":34:56+24:00"[6..] == "+24:00";
    assert GoFractionLength("+24:00") == 0 && "+24:00"[0..] == "+24:00";
    assert Two("+24:00", 1) == 24 && Two("+24:00", 4) == 0;
    assert ParseZone("+24:00").Some?;
  }

  lemma OffsetMinute60()
    ensures Accepted("2025-12-12T12:34:56+00:60") && !IsRFC3339DateTime("2025-12-12T12:34:56+00:60")
  {
    var a := "2025-12-12T12:34:56+00:60";
    assert DateShape(a) && Two(a, 5) == 12 && Two(a, 8) == 12 && Year(a) == 2025;
    assert a[11..] == "12:34:56+00:60";
    assert "12:34:56+00:60"[2..] == ":34:56+00:60";
    assert ":34:56+00:60"[6..] == "+00:60";
    assert GoFractionLength("+00:60") == 0 && "+00:60"[0..] == "+00:60";
    assert Two("+00:60", 1) == 0 && Two("+00:60", 4) == 60;
    assert ParseZone("+00:60").Some?;
    assert ParseClock("12:34:56+00:60").Some?;
    assert a[19..] == "+00:60" && SecFracLength("+00:60") == 0;
  }

  lemma LowerCaseT()
    ensures IsRFC3339DateTime("2025-12-12t12:34:56Z") && !Accepted("2025-12-12t12:34:56Z")
  {
    var a := "2025-12-12t12:34:56Z";
    assert DateShape(a) && Two(a, 5) == 12 && Two(a, 8) == 12 && Year(a) == 2025;
    assert Two(a, 11) == 12 && Two(a, 14) == 34 && Two(a, 17) == 56;
    assert a[19..] == "Z" && SecFracLength("Z") == 0 && "Z"[0..] == "Z";
    assert a[10] == 't';
  }

  lemma OneDigitHour()
    ensures Accepted("2025-12-12T1:34:56Z") && !IsRFC3339DateTime("2025-12-12T1:34:56Z")
  {
    var a := "2025-12-12T1:34:56Z";
    assert DateShape(a) && Two(a, 5) == 12 && Two(a, 8) == 12 && Year(a) == 2025;
    assert a[11..] == "1:34:56Z";
    assert "1:34:56Z"[1..] == ":34:56Z";
    assert ":34:56Z"[6..] == "Z";
    assert GoFractionLength("Z") == 0 && "Z"[0..] == "Z";
    assert ParseClock("1:34:56Z").Some?;
    assert !IsDigit(a[12]);
  }

  lemma CommaFraction()
    ensures Accepted("2025-12-12T12:34:56,5Z") && !IsRFC3339DateTime("2025-12-12T12:34:56,5Z")
  {
    var a := "2025-12-12T12:34:56,5Z";
    assert DateShape(a) && Two(a, 5) == 12 && Two(a, 8) == 12 && Year(a) == 2025;
    assert a[11..] == "12:34:56,5Z";
    assert "12:34:56,5Z"[2..] == ":34:56,5Z";
    assert ":34:56,5Z"[6..] == ",5Z";
    assert ",5Z"[1..] == "5Z" && "5Z"[1..] == "Z";
    assert DigitRun("5Z") == 1;
    assert GoFractionLength(",5Z") == 2 && ",5Z"[2..] == "Z";
    assert ParseClock("12:34:56,5Z").Some?;
    assert a[19..] == ",5Z";
    assert SecFracLength(",5Z") == 0 && ",5Z"[0..] == ",5Z";
  }

  lemma LowerCaseZone()
    ensures IsRFC3339DateTime("2025-12-12T12:34:56z") && !Accepted("2025-12-12T12:34:56z")
  {
    var a := "2025-12-12T12:34:56z";
    assert DateShape(a) && Two(a, 5) == 12 && Two(a, 8) == 12 && Year(a) == 2025;
    assert a[19..] == "z" && SecFracLength("z") == 0 && "z"[0..] == "z";
    assert a[11..] == "12:34:56z";
    assert "12:34:56z"[2..] == ":34:56z";
    assert ":34:56z"[6..] == "z";
    assert GoFractionLength("z") == 0;
    assert ParseZone("z").None?;
  }

  lemma LeapSecond()
    ensures IsRFC3339DateTime("2016-12-31T23:59:60Z") && !Accepted("2016-12-31T23:59:60Z")
  {
    var a := "2016-12-31T23:59:60Z";
    assert DateShape(a) && Two(a, 5) == 12 && Two(a, 8) == 31 && Year(a) == 2016;
    assert Two(a, 17) == 60;
    assert a[19..] == "Z" && SecFracLength("Z") == 0 && "Z"[0..] == "Z";
    assert a[11..] == "23:59:60Z";
    assert "23:59:60Z"[2..] == ":59:60Z";
    assert Two(":59:60Z", 4) == 60;
  }
}
