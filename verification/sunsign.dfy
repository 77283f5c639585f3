/**
 * The sun sign resolver: a first-match chain over (month, day) boundary
 * ranges. The year plays no part.
 */
module Sun {
  import opened Zodiac

  /**
   * The range of dates a sign covers: from (fromMonth, fromDay) up to and
   * including (toMonth, toDay), always spanning the turn of one month.
   */
  datatype DateRange = DateRange(fromMonth: int, fromDay: int, toMonth: int, toDay: int)

  /** The boundary table of the zodiac, one range per sign. */
  function RangeOf(s: ZodiacSign): DateRange {
    match s
    case Aries => DateRange(3, 21, 4, 19)
    case Taurus => DateRange(4, 20, 5, 20)
    case Gemini => DateRange(5, 21, 6, 20)
    case Cancer => DateRange(6, 21, 7, 22)
    case Leo => DateRange(7, 23, 8, 22)
    case Virgo => DateRange(8, 23, 9, 22)
    case Libra => DateRange(9, 23, 10, 22)
    case Scorpio => DateRange(10, 23, 11, 21)
    case Sagittarius => DateRange(11, 22, 12, 21)
    case Capricorn => DateRange(12, 22, 1, 19)
    case Aquarius => DateRange(1, 20, 2, 18)
    case Pisces => DateRange(2, 19, 3, 20)
  }

  /** One arm of the chain: the late part of the first month or the early part of the second. */
  predicate InRange(r: DateRange, month: int, day: int) {
    (month == r.fromMonth && day >= r.fromDay) || (month == r.toMonth && day <= r.toDay)
  }

  /**
   * `calculateSunSign` on an already-read (month, day): eleven tests in
   * turn, the first that holds wins, Pisces when none does. For a real
   * month the sign found is one whose range in the table holds the date.
   */
  function SunSign(month: int, day: int): (r: ZodiacSign)
    ensures 1 <= month <= 12 ==> InRange(RangeOf(r), month, day)
    ensures !(1 <= month <= 12) ==> r == Pisces
  {
    if (month == 3 && day >= 21) || (month == 4 && day <= 19) then Aries
    else if (month == 4 && day >= 20) || (month == 5 && day <= 20) then Taurus
    else if (month == 5 && day >= 21) || (month == 6 && day <= 20) then Gemini
    else if (month == 6 && day >= 21) || (month == 7 && day <= 22) then Cancer
    else if (month == 7 && day >= 23) || (month == 8 && day <= 22) then Leo
    else if (month == 8 && day >= 23) || (month == 9 && day <= 22) then Virgo
    else if (month == 9 && day >= 23) || (month == 10 && day <= 22) then Libra
    else if (month == 10 && day >= 23) || (month == 11 && day <= 21) then Scorpio
    else if (month == 11 && day >= 22) || (month == 12 && day <= 21) then Sagittarius
    else if (month == 12 && day >= 22) || (month == 1 && day <= 19) then Capricorn
    else if (month == 1 && day >= 20) || (month == 2 && day <= 18) then Aquarius
    else Pisces
  }

  /**
   * The ranges tile the year: for a real month, the sign returned is the
   * ONLY sign whose range holds the date, so the order of the tests is
   * immaterial.
   */
  lemma SunSignUnique(month: int, day: int, s: ZodiacSign)
    requires 1 <= month <= 12
    ensures InRange(RangeOf(s), month, day) <==> s == SunSign(month, day)
  {
  }

  /** The first and last day of a sign's range map to that sign. */
  lemma RangeEnds(s: ZodiacSign)
    ensures SunSign(RangeOf(s).fromMonth, RangeOf(s).fromDay) == s
    ensures SunSign(RangeOf(s).toMonth, RangeOf(s).toDay) == s
  {
  }

  /**
   * The first and last day of every sign's range map to that sign; the
   * boundary dates the zodiac table fixes are spelled out as well.
   */
  lemma SunSignBoundaries()
    ensures forall s :: SunSign(RangeOf(s).fromMonth, RangeOf(s).fromDay) == s
                        && SunSign(RangeOf(s).toMonth, RangeOf(s).toDay) == s
    ensures SunSign(3, 21) == Aries && SunSign(3, 20) == Pisces
    ensures SunSign(2, 18) == Aquarius && SunSign(2, 19) == Pisces
    ensures SunSign(12, 22) == Capricorn && SunSign(1, 19) == Capricorn
    ensures SunSign(1, 20) == Aquarius && SunSign(12, 21) == Sagittarius
  {
    forall s {
      RangeEnds(s);
    }
  }
}
