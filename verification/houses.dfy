/**
 * The house generator: twelve house cusps, house n in the sign n - 1 steps
 * after the rising sign, each with a randomly drawn degree. As for the
 * planets, `draw(i)` stands for the i-th `Math.random() * 30`.
 */
module Houses {
  import opened Zodiac

  datatype House = House(number: int, sign: ZodiacSign, degree: Degree)

  const HouseCount: nat := 12

  /**
   * `generateHouses(risingSign)`: houses numbered 1 to 12 in order, the
   * first on the rising sign (the ascendant) and each next one on the
   * next sign of the cycle.
   */
  function GenerateHouses(rising: ZodiacSign, draw: nat -> Degree): (hs: seq<House>)
    ensures |hs| == HouseCount
    ensures forall i :: 0 <= i < |hs| ==> hs[i].number == i + 1
    ensures forall i :: 0 <= i < |hs| ==> hs[i].sign == Shift(rising, hs[i].number - 1)
    ensures forall i :: 0 <= i < |hs| ==> hs[i].degree == draw(i)
  {
    seq(HouseCount, i requires 0 <= i < HouseCount => House(i + 1, Shift(rising, i), draw(i)))
  }

  /** The shape a chart's house list has: exactly houses 1..12, in ascending order. */
  predicate WellFormedHouses(hs: seq<House>) {
    && |hs| == HouseCount
    && (forall i :: 0 <= i < |hs| ==> hs[i].number == i + 1)
  }

  /** The house signs, in house order. */
  function HouseSigns(hs: seq<House>): (ss: seq<ZodiacSign>)
    ensures |ss| == |hs|
    ensures forall i :: 0 <= i < |hs| ==> ss[i] == hs[i].sign
  {
    seq(|hs|, i requires 0 <= i < |hs| => hs[i].sign)
  }

  /** A list of twelve signs in which every sign occurs exactly once. */
  predicate IsPermutationOfSigns(ss: seq<ZodiacSign>) {
    && |ss| == SignCount
    && (forall s: ZodiacSign :: s in ss)
    && (forall i, j :: 0 <= i < j < |ss| ==> ss[i] != ss[j])
  }

  /** House 1 carries the rising sign, and the houses are well formed. */
  lemma HousesWellFormed(rising: ZodiacSign, draw: nat -> Degree)
    ensures WellFormedHouses(GenerateHouses(rising, draw))
    ensures GenerateHouses(rising, draw)[0].sign == rising
  {
    ShiftFixedIff(rising, 0);
  }

  /** The twelve house signs are the twelve signs, each exactly once. */
  lemma HouseSignsArePermutation(rising: ZodiacSign, draw: nat -> Degree)
    ensures IsPermutationOfSigns(HouseSigns(GenerateHouses(rising, draw)))
  {
    var hs := GenerateHouses(rising, draw);
    var ss := HouseSigns(hs);
    forall s: ZodiacSign
      ensures s in ss
    {
      var k := Distance(rising, s);
      assert ss[k] == s;
    }
    forall i, j | 0 <= i < j < |ss|
      ensures ss[i] != ss[j]
    {
      if ss[i] == ss[j] {
        ShiftInjective(rising, i, j);
      }
    }
  }
}
