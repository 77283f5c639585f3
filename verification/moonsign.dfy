/**
 * The moon sign resolver: the moon is taken to pass through the twelve
 * signs in a fixed 27.3-day period each, starting in Aries on 1970-01-01.
 * The 27.3 and 327.6 (= 27.3 × 12) day lengths are scaled by ten, so all
 * arithmetic here is on whole tenths of a day.
 */
module Moon {
  import opened Wrappers
  import opened Zodiac
  import opened JsArith

  /** The 27.3 days the moon spends in one sign, in tenths of a day. */
  const SignTenths: int := 273

  /** The 327.6-day cycle through all twelve signs, in tenths of a day. */
  const CycleTenths: int := 3276

  /** Whole days after which the scaled cycle repeats: 1638 days are five cycles. */
  const RepeatDays: int := 1638

  /**
   * `daysSinceEpoch % (moonCycle * 12)` in tenths of a day. JavaScript's `%`
   * keeps the sign of the day count, so dates before 1970 give a phase in
   * (-3276, 0].
   */
  function CyclePhase(d: int): (p: int)
    ensures d >= 0 ==> 0 <= p < CycleTenths && p == (10 * d) % CycleTenths
    ensures d < 0 ==> -CycleTenths < p <= 0
    ensures (10 * d - p) % CycleTenths == 0
  {
    JsRem(10 * d, CycleTenths)
  }

  /**
   * `Math.floor(phase / moonCycle) % 12`. Dafny's `/` by a positive divisor
   * rounds down, as `Math.floor` does; the final `%` is JavaScript's.
   */
  function MoonIndex(d: int): (i: int)
    ensures -(SignCount as int) < i < SignCount
    ensures d >= 0 ==> 0 <= i
    ensures d < 0 ==> i <= 0
    ensures (CyclePhase(d) / SignTenths - i) % SignCount == 0
  {
    var x := CyclePhase(d) / SignTenths;
    assert -(SignCount as int) <= x < SignCount;
    assert d >= 0 ==> 0 <= x;
    JsRem(x, SignCount)
  }

  /**
   * `calculateMoonSign` on a day count: `signs[signIndex]`, which is
   * `undefined` (None) when the index is negative. From the epoch on the
   * sign is the one whose 27.3-day slot of the cycle holds the day.
   */
  function MoonSign(d: int): (r: Option<ZodiacSign>)
    ensures d >= 0 ==> r.Some?
    ensures d >= 0 ==> 273 * Index(r.value) <= CyclePhase(d) < 273 * (Index(r.value) + 1)
  {
    Lookup(MoonIndex(d))
  }

  /** From the epoch on, the floored quotient is already a sign index, so the trailing `% 12` changes nothing. */
  lemma MoonOuterRemainderIsIdentity(d: int)
    requires d >= 0
    ensures 0 <= CyclePhase(d) / SignTenths < SignCount
    ensures MoonIndex(d) == CyclePhase(d) / SignTenths
  {
  }

  /**
   * The sign repeats every 1638 days (five 327.6-day cycles, so also every
   * 3276 days), as long as both day counts lie on the same side of the epoch.
   */
  lemma MoonSignPeriodic(d: int, k: nat)
    requires d >= 0 || d + RepeatDays * k <= 0
    ensures MoonSign(d + RepeatDays * k) == MoonSign(d)
  {
    var e := d + RepeatDays * k;
    if d >= 0 {
      WholeCycles(10 * d, 5 * k);
    } else {
      WholeCycles(-10 * e, 5 * k);
    }
    assert CyclePhase(e) == CyclePhase(d);
  }

  /** Adding whole cycles of tenths leaves the remainder unchanged. */
  lemma WholeCycles(a: int, m: int)
    ensures (a + CycleTenths * m) % CycleTenths == a % CycleTenths
  {
  }

  /**
   * The lookup misses exactly for day counts before the epoch whose phase
   * floors to -1 .. -11; a phase of 0, or one below -3003 (index -12, and
   * -12 % 12 is zero), still names Aries.
   */
  lemma MoonSignUndefinedIff(d: int)
    ensures MoonSign(d).None? <==> d < 0 && -3003 <= CyclePhase(d) < 0
    ensures MoonSign(d).None? ==> d < 0
  {
    var p := CyclePhase(d);
    if d < 0 {
      if p == 0 {
        assert MoonIndex(d) == 0;
      } else if p < -3003 {
        assert p / SignTenths == -12;
        assert MoonIndex(d) == 0;
      } else {
        assert -12 < p / SignTenths < 0;
        assert MoonIndex(d) == p / SignTenths;
      }
    }
  }

  /**
   * The day before the epoch (1969-12-31) has no moon sign, although the
   * day five cycles later has one: periodicity breaks across the epoch.
   * The corrected resolver gives that day the sign of its Euclidean phase,
   * Pisces.
   */
  lemma MoonSignUndefinedBeforeEpoch()
    ensures MoonSign(-1) == None
    ensures MoonSign(-1 + RepeatDays) == Some(Pisces)
    ensures CorrectedMoonSign(-1) == Pisces
  {
    assert CyclePhase(-1) == -10;
    assert CyclePhase(-1 + RepeatDays) == 3266;
    assert (10 * -1) % CycleTenths == 3266;
  }

  /** Day 7384 (1990-03-21) sits in the seventh slot of its cycle: Libra. */
  lemma MoonSignExample()
    ensures MoonSign(7384) == Some(Libra)
  {
    assert CyclePhase(7384) == 1768;
  }

  /**
   * The moon sign with the phase taken by Dafny's non-negative `%`, which
   * gives every day count, before the epoch or after, a sign.
   */
  function CorrectedMoonSign(d: int): (r: ZodiacSign)
    ensures 273 * Index(r) <= (10 * d) % CycleTenths < 273 * (Index(r) + 1)
  {
    FromIndex(((10 * d) % CycleTenths) / SignTenths)
  }

  /**
   * Wherever the source's lookup names a sign, the corrected resolver names
   * the same one: the correction only fills in the days the source leaves
   * undefined. This covers every day from the epoch on, and the days before
   * it whose phase is 0 or below -3003.
   */
  lemma CorrectedMoonSignAgrees(d: int)
    requires MoonSign(d).Some?
    ensures MoonSign(d) == Some(CorrectedMoonSign(d))
  {
    if d >= 0 {
      assert Index(MoonSign(d).value) == Index(CorrectedMoonSign(d));
    } else {
      MoonSignUndefinedIff(d);
      var p := CyclePhase(d);
      if p == 0 {
        assert (10 * d) % CycleTenths == 0;
        assert MoonIndex(d) == 0;
      } else {
        assert p < -3003;
        assert (10 * d) % CycleTenths == p + CycleTenths;
        assert p / SignTenths == -12;
        assert MoonIndex(d) == 0;
      }
    }
  }

  /** The corrected resolver repeats every 1638 days across the epoch too. */
  lemma CorrectedMoonSignPeriodic(d: int, k: int)
    ensures CorrectedMoonSign(d + RepeatDays * k) == CorrectedMoonSign(d)
  {
    var e := d + RepeatDays * k;
    assert 10 * e == 10 * d + CycleTenths * (5 * k);
    WholeCycles(10 * d, 5 * k);
    assert (10 * e) % CycleTenths == (10 * d) % CycleTenths;
  }
}
