/**
 * The rising sign resolver: it reads an "HH:MM" birth time and gives each
 * sign a two-hour slot of the day, starting with Aries at midnight. The
 * birth date argument and the birthplace coordinates are never read.
 */
module Rising {
  import opened Wrappers
  import opened Zodiac
  import opened JsArith
  import opened Calendar

  /** A wall-clock time as read from the birth-time string. */
  datatype ClockTime = ClockTime(hours: nat, minutes: nat)

  /** Position of the first occurrence of c in s. */
  function FirstIndex(s: string, c: char): (k: nat)
    requires c in s
    ensures k < |s| && s[k] == c && c !in s[..k]
  {
    if s[0] == c then 0 else 1 + FirstIndex(s[1..], c)
  }

  /** The pieces joined back with the separator between them. */
  function Join(parts: seq<string>, sep: char): string
    requires |parts| >= 1
  {
    if |parts| == 1 then parts[0] else parts[0] + [sep] + Join(parts[1..], sep)
  }

  /**
   * `s.split(sep)`: the maximal separator-free pieces of s, in order, which
   * joined back with the separator give s again.
   */
  function Split(s: string, sep: char): (parts: seq<string>)
    ensures |parts| >= 1
    ensures forall i :: 0 <= i < |parts| ==> sep !in parts[i]
    ensures Join(parts, sep) == s
    decreases |s|
  {
    if sep !in s then [s]
    else
      var k := FirstIndex(s, sep);
      var rest := Split(s[k + 1..], sep);
      assert ([s[..k]] + rest)[1..] == rest;
      assert s == s[..k] + [sep] + s[k + 1..];
      [s[..k]] + rest
  }

  predicate IsDigit(c: char) {
    '0' <= c <= '9'
  }

  predicate AllDigits(s: string) {
    forall i :: 0 <= i < |s| ==> IsDigit(s[i])
  }

  function Pow10(n: nat): (p: nat)
    ensures p >= 1
  {
    if n == 0 then 1 else 10 * Pow10(n - 1)
  }

  /**
   * The value of a string of decimal digits; the empty string counts as 0.
   * n digits never reach 10^n.
   */
  function DigitsValue(s: string): (v: nat)
    requires AllDigits(s)
    ensures v < Pow10(|s|)
  {
    if |s| == 0 then 0
    else 10 * DigitsValue(s[..|s| - 1]) + (s[|s| - 1] as int - '0' as int)
  }

  /**
   * Positional notation: the digits of s1 followed by those of s2 are worth
   * s1's value shifted left by |s2| places, plus s2's value.
   */
  lemma {:induction false} DigitsValueAppend(s1: string, s2: string)
    requires AllDigits(s1) && AllDigits(s2)
    ensures AllDigits(s1 + s2)
    ensures DigitsValue(s1 + s2) == DigitsValue(s1) * Pow10(|s2|) + DigitsValue(s2)
    decreases |s2|
  {
    var s := s1 + s2;
    if |s2| == 0 {
      assert s == s1;
    } else {
      var init := s2[..|s2| - 1];
      var c := s2[|s2| - 1] as int - '0' as int;
      assert s[..|s| - 1] == s1 + init && s[|s| - 1] == s2[|s2| - 1];
      DigitsValueAppend(s1, init);
      var a, p, x := DigitsValue(s1), Pow10(|init|), DigitsValue(init);
      assert DigitsValue(s) == 10 * (a * p + x) + c;
      assert DigitsValue(s2) == 10 * x + c;
      assert Pow10(|s2|) == 10 * p;
      ShiftDigit(a, p, x, c);
    }
  }

  lemma ShiftDigit(a: int, p: int, x: int, c: int)
    ensures 10 * (a * p + x) + c == a * (10 * p) + (10 * x + c)
  {
  }

  /** Leading zeros do not change a number's value. */
  lemma LeadingZero(s: string)
    requires AllDigits(s)
    ensures AllDigits("0" + s) && DigitsValue("0" + s) == DigitsValue(s)
  {
    assert ("0")[..0] == [];
    DigitsValueAppend("0", s);
  }

  /**
   * `Number(field)` for the fields this model reads: a run of decimal
   * digits, the empty run giving 0 as `Number("")` does. Any other field is
   * read as NaN (None).
   */
  function NumberOf(field: string): (r: Option<nat>)
    ensures r.Some? <==> AllDigits(field)
    ensures r.Some? ==> r.value == DigitsValue(field)
  {
    if AllDigits(field) then Some(DigitsValue(field)) else None
  }

  /** The digit character for a value below 10. */
  function DigitChar(k: nat): (c: char)
    requires k < 10
    ensures IsDigit(c) && c as int - '0' as int == k
  {
    '0' + (k as char)
  }

  /** n written in decimal without leading zeros, as `String(n)` gives it. */
  function Decimal(n: nat): (s: string)
    ensures |s| > 0 && AllDigits(s)
    ensures s[0] == '0' ==> n == 0
  {
    if n < 10 then [DigitChar(n)] else Decimal(n / 10) + [DigitChar(n % 10)]
  }

  /** Every natural number written in decimal reads back as itself. */
  lemma {:induction false} NumberOfDecimal(n: nat)
    ensures NumberOf(Decimal(n)) == Some(n)
  {
    var s := Decimal(n);
    if n < 10 {
      assert s[..0] == [];
    } else {
      assert s[..|s| - 1] == Decimal(n / 10);
      NumberOfDecimal(n / 10);
    }
  }

  /**
   * `time.split(':').map(Number)` destructured into hours and minutes. A
   * string without a colon leaves the minutes `undefined`, which makes the
   * total NaN: None.
   */
  function ParseTime(time: string): (r: Option<ClockTime>)
    ensures r.Some? <==>
              |Split(time, ':')| >= 2 && AllDigits(Split(time, ':')[0]) && AllDigits(Split(time, ':')[1])
    ensures r.Some? ==> ':' in time
    ensures r.Some? ==>
              var hh := time[..FirstIndex(time, ':')];
              AllDigits(hh) && r.value.hours == DigitsValue(hh)
    ensures r.Some? ==> r.value.minutes == DigitsValue(Split(time, ':')[1])
  {
    var parts := Split(time, ':');
    if |parts| < 2 then None
    else
      var hours :- NumberOf(parts[0]);
      var minutes :- NumberOf(parts[1]);
      Some(ClockTime(hours, minutes))
  }

  /**
   * `Math.floor((totalMinutes / (24 * 60)) * 12) % 12`: the minutes of the
   * day over 1440, times 12, rounded down, taken modulo 12.
   */
  function RisingIndex(t: ClockTime): (i: int)
    ensures 0 <= i < SignCount
    ensures 120 * i <= (60 * t.hours + t.minutes) % 1440 < 120 * (i + 1)
  {
    var totalMinutes := t.hours * 60 + t.minutes;
    TwoHourSlot(totalMinutes);
    JsRem((12 * totalMinutes) / (24 * 60), SignCount)
  }

  /** Twelve slots of a 1440-minute day are two hours each, and they wrap around daily. */
  lemma TwoHourSlot(total: nat)
    ensures (12 * total) / 1440 == total / 120
    ensures 120 * ((total / 120) % 12) <= total % 1440 < 120 * ((total / 120) % 12 + 1)
  {
    var q, r := total / 1440, total % 1440;
    assert total == 1440 * q + r;
    assert total / 120 == 12 * q + r / 120;
    assert (total / 120) % 12 == r / 120;
  }

  /**
   * `calculateRisingSign(time, _date)`. Whenever the time reads, the sign
   * is the one of the two-hour slot holding the hour: hours 0-1 Aries,
   * 2-3 Taurus, ..., 22-23 Pisces, whatever the minutes below 60.
   */
  function RisingSign(time: string, date: CalendarDate): (r: Option<ZodiacSign>)
    ensures r.Some? <==> ParseTime(time).Some?
    ensures ParseTime(time).Some? && ParseTime(time).value.minutes < 60 ==>
              Index(r.value) == (ParseTime(time).value.hours / 2) % SignCount
  {
    match ParseTime(time)
    case None => None
    case Some(t) =>
      assert t.minutes < 60 ==> (12 * (t.hours * 60 + t.minutes)) / 1440 == t.hours / 2;
      Lookup(RisingIndex(t))
  }

  /** The two decimal digits of n, as an "HH" or "MM" field. */
  function TwoDigits(n: nat): (s: string)
    requires n < 100
    ensures |s| == 2 && AllDigits(s)
  {
    ['0' + ((n / 10) as char), '0' + ((n % 10) as char)]
  }

  /** A time as the birth-time field writes it, "HH:MM". */
  function FormatTime(hours: nat, minutes: nat): string
    requires hours < 100 && minutes < 100
  {
    TwoDigits(hours) + ":" + TwoDigits(minutes)
  }

  /** Reading an "HH:MM" string gives back the hours and minutes written. */
  lemma ParseFormatRoundTrip(hours: nat, minutes: nat)
    requires hours < 100 && minutes < 100
    ensures ParseTime(FormatTime(hours, minutes)) == Some(ClockTime(hours, minutes))
  {
    var hh, mm := TwoDigits(hours), TwoDigits(minutes);
    var s := FormatTime(hours, minutes);
    assert ':' !in hh && ':' !in mm;
    assert FirstIndex(s, ':') == 2 by {
      assert s[0] == hh[0] && s[1] == hh[1] && s[2] == ':';
    }
    assert s[..2] == hh && s[3..] == mm;
    assert Split(s, ':') == [hh, mm];
    TwoDigitsValue(hours);
    TwoDigitsValue(minutes);
  }

  /** The two-digit field reads back as the number written. */
  lemma TwoDigitsValue(n: nat)
    requires n < 100
    ensures DigitsValue(TwoDigits(n)) == n
  {
    var s := TwoDigits(n);
    assert s[0] as int - '0' as int == n / 10;
    assert s[1] as int - '0' as int == n % 10;
    assert s[..1][..0] == [];
    assert DigitsValue(s[..1]) == n / 10;
  }

  /**
   * For a well-formed time of day the sign index is the hour halved: the
   * minutes and the date never change the result.
   */
  lemma RisingSignOfClockTime(hours: nat, minutes: nat, date: CalendarDate)
    requires hours < 24 && minutes < 60
    ensures RisingSign(FormatTime(hours, minutes), date) == Some(FromIndex(hours / 2))
  {
    ParseFormatRoundTrip(hours, minutes);
    RisingSignOfParsed(FormatTime(hours, minutes), date, ClockTime(hours, minutes));
  }

  lemma RisingSignOfParsed(time: string, date: CalendarDate, t: ClockTime)
    requires ParseTime(time) == Some(t) && t.hours < 24 && t.minutes < 60
    ensures RisingSign(time, date) == Some(FromIndex(t.hours / 2))
  {
    var k := t.hours / 2;
    assert k % SignCount == k;
    var r := RisingSign(time, date).value;
    assert Index(r) == k;
    assert r == Signs[k];
  }

  /** Midnight opens the Aries slot; a minute before midnight is still Pisces. */
  lemma RisingSignExamples(date: CalendarDate)
    ensures RisingSign("00:00", date) == Some(Aries)
    ensures RisingSign("23:59", date) == Some(Pisces)
  {
    assert FormatTime(0, 0) == "00:00";
    RisingSignOfClockTime(0, 0, date);
    assert FormatTime(23, 59) == "23:59";
    RisingSignOfClockTime(23, 59, date);
  }

  /** A time with no colon leaves the minutes undefined: no rising sign. */
  lemma RisingSignNeedsColon(date: CalendarDate)
    ensures RisingSign("noon", date) == None
  {
    assert ':' !in "noon";
  }
}
