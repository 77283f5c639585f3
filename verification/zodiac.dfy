/**
 * The twelve zodiac signs in their canonical order. Every resolver of the
 * chart computation repeats the same `signs` array and does its offset
 * arithmetic on positions in it, modulo 12.
 */
module Zodiac {
  import opened Wrappers

  datatype ZodiacSign =
    | Aries | Taurus | Gemini | Cancer | Leo | Virgo
    | Libra | Scorpio | Sagittarius | Capricorn | Aquarius | Pisces

  const SignCount: nat := 12

  /** A position inside a sign, in degrees: `Math.random() * 30` lies in [0, 30). */
  type Degree = r: real | 0.0 <= r < 30.0

  /** The canonical order, Aries first. */
  const Signs: seq<ZodiacSign> :=
    [Aries, Taurus, Gemini, Cancer, Leo, Virgo,
     Libra, Scorpio, Sagittarius, Capricorn, Aquarius, Pisces]

  /** `signs.indexOf(s)`: where a sign stands in the canonical order. */
  function Index(s: ZodiacSign): (i: nat)
    ensures i < SignCount && i < |Signs|
    ensures Signs[i] == s
  {
    match s
    case Aries => 0
    case Taurus => 1
    case Gemini => 2
    case Cancer => 3
    case Leo => 4
    case Virgo => 5
    case Libra => 6
    case Scorpio => 7
    case Sagittarius => 8
    case Capricorn => 9
    case Aquarius => 10
    case Pisces => 11
  }

  /** `signs[k]` for a position inside the array. */
  function FromIndex(k: int): (s: ZodiacSign)
    requires 0 <= k < SignCount
    ensures Index(s) == k
  {
    Signs[k]
  }

  /** The canonical list holds every sign exactly once. */
  lemma SignsArePermutation()
    ensures |Signs| == SignCount
    ensures forall s: ZodiacSign :: s in Signs
    ensures forall i, j :: 0 <= i < j < |Signs| ==> Signs[i] != Signs[j]
  {
    forall s: ZodiacSign
      ensures s in Signs
    {
      assert Signs[Index(s)] == s;
    }
    forall i, j | 0 <= i < j < |Signs|
      ensures Signs[i] != Signs[j]
    {
      assert Index(Signs[i]) == i && Index(Signs[j]) == j;
    }
  }

  /**
   * `signs[k]` for any integer k: JavaScript answers `undefined` for a
   * position outside the array, including every negative one.
   */
  function Lookup(k: int): (r: Option<ZodiacSign>)
    ensures r.Some? <==> 0 <= k < SignCount
    ensures r.Some? ==> Index(r.value) == k
  {
    if 0 <= k < |Signs| then Some(Signs[k]) else None
  }

  /**
   * The sign k places further round the cycle from s, which is what
   * `signs[(signs.indexOf(s) + k) % 12]` denotes for k >= 0.
   */
  function Shift(s: ZodiacSign, k: nat): (t: ZodiacSign)
    ensures Index(t) == (Index(s) + k) % SignCount
  {
    FromIndex((Index(s) + k) % SignCount)
  }

  /** How many places forward from s one has to go to reach t. */
  function Distance(s: ZodiacSign, t: ZodiacSign): (k: nat)
    ensures k < SignCount
    ensures Shift(s, k) == t
  {
    (Index(t) - Index(s)) % SignCount
  }

  /** A shift comes back to its start exactly when it is a whole number of turns. */
  lemma ShiftFixedIff(s: ZodiacSign, k: nat)
    ensures Shift(s, k) == s <==> k % SignCount == 0
  {
    if Shift(s, k) == s {
      assert (Index(s) + k) % 12 == Index(s);
    }
  }

  /** Within one turn, different shifts land on different signs. */
  lemma ShiftInjective(s: ZodiacSign, j: nat, k: nat)
    requires j < SignCount && k < SignCount
    requires Shift(s, j) == Shift(s, k)
    ensures j == k
  {
    assert Index(Shift(s, j)) == Index(Shift(s, k));
  }

  /** Shifting twice is shifting by the sum. */
  lemma ShiftCompose(s: ZodiacSign, j: nat, k: nat)
    ensures Shift(Shift(s, j), k) == Shift(s, j + k)
  {
    var a := Index(s);
    assert ((a + j) % 12 + k) % 12 == (a + j + k) % 12;
    assert Index(Shift(Shift(s, j), k)) == Index(Shift(s, j + k));
  }

  /** The sign names exactly as the source spells them. */
  function Name(s: ZodiacSign): (w: string)
  {
    match s
    case Aries => "Aries"
    case Taurus => "Taurus"
    case Gemini => "Gemini"
    case Cancer => "Cancer"
    case Leo => "Leo"
    case Virgo => "Virgo"
    case Libra => "Libra"
    case Scorpio => "Scorpio"
    case Sagittarius => "Sagittarius"
    case Capricorn => "Capricorn"
    case Aquarius => "Aquarius"
    case Pisces => "Pisces"
  }

  /** The sign a name denotes, if any: the inverse of Name. */
  function SignNamed(w: string): (r: Option<ZodiacSign>)
    ensures r.Some? ==> Name(r.value) == w
  {
    if w == "Aries" then Some(Aries)
    else if w == "Taurus" then Some(Taurus)
    else if w == "Gemini" then Some(Gemini)
    else if w == "Cancer" then Some(Cancer)
    else if w == "Leo" then Some(Leo)
    else if w == "Virgo" then Some(Virgo)
    else if w == "Libra" then Some(Libra)
    else if w == "Scorpio" then Some(Scorpio)
    else if w == "Sagittarius" then Some(Sagittarius)
    else if w == "Capricorn" then Some(Capricorn)
    else if w == "Aquarius" then Some(Aquarius)
    else if w == "Pisces" then Some(Pisces)
    else None
  }

  /** Every name reads back as its own sign, so no two signs share a name. */
  lemma NameRoundTrip(s: ZodiacSign)
    ensures SignNamed(Name(s)) == Some(s)
  {
  }
}
