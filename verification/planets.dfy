/**
 * The planetary position generator: the eight planets, each placed in a
 * sign a fixed number of steps after the sun sign, with a degree drawn at
 * random. The draws are an input here: `draw(i)` is the i-th value
 * `Math.random() * 30` would return.
 */
module Planets {
  import opened Zodiac

  datatype Planet = Mercury | Venus | Mars | Jupiter | Saturn | Uranus | Neptune | Pluto

  /** The fixed planet list, in the order the chart reports it. */
  const PlanetOrder: seq<Planet> := [Mercury, Venus, Mars, Jupiter, Saturn, Uranus, Neptune, Pluto]

  const PlanetCount: nat := 8

  /** The planet's name as the chart spells it. */
  function PlanetName(p: Planet): string {
    match p
    case Mercury => "Mercury"
    case Venus => "Venus"
    case Mars => "Mars"
    case Jupiter => "Jupiter"
    case Saturn => "Saturn"
    case Uranus => "Uranus"
    case Neptune => "Neptune"
    case Pluto => "Pluto"
  }

  /** The eight names are distinct, so a placement's name determines its planet. */
  lemma PlanetNamesDistinct(p: Planet, q: Planet)
    ensures PlanetName(p) == PlanetName(q) <==> p == q
  {
  }

  datatype PlanetPosition = PlanetPosition(planet: Planet, sign: ZodiacSign, degree: Degree, house: int)

  /**
   * `generatePlanetaryPositions(_date, sunSign)`: planet i of the list sits
   * i + 1 signs after the sun, in house i + 1, at degree `draw(i)`.
   */
  function GeneratePlanetaryPositions(sun: ZodiacSign, draw: nat -> Degree): (ps: seq<PlanetPosition>)
    ensures |ps| == PlanetCount
    ensures forall i :: 0 <= i < |ps| ==> ps[i].planet == PlanetOrder[i]
    ensures forall i :: 0 <= i < |ps| ==> ps[i].sign == Shift(sun, i + 1)
    ensures forall i :: 0 <= i < |ps| ==> ps[i].house == i + 1
    ensures forall i :: 0 <= i < |ps| ==> ps[i].degree == draw(i)
  {
    seq(PlanetCount, i requires 0 <= i < PlanetCount =>
      PlanetPosition(PlanetOrder[i], Shift(sun, i + 1), draw(i), (i % 12) + 1))
  }

  /** The shape a chart's planet list has: one entry per planet, in list order, each in a house 1..12. */
  predicate WellFormedPlanets(ps: seq<PlanetPosition>) {
    && |ps| == PlanetCount
    && (forall i :: 0 <= i < |ps| ==> ps[i].planet == PlanetOrder[i])
    && (forall i :: 0 <= i < |ps| ==> 1 <= ps[i].house <= 12)
  }

  /** The fixed list names every planet exactly once. */
  lemma PlanetOrderIsPermutation()
    ensures forall p: Planet :: p in PlanetOrder
    ensures forall i, j :: 0 <= i < j < |PlanetOrder| ==> PlanetOrder[i] != PlanetOrder[j]
  {
    forall p: Planet
      ensures p in PlanetOrder
    {
      match p
      case Mercury => assert PlanetOrder[0] == p;
      case Venus => assert PlanetOrder[1] == p;
      case Mars => assert PlanetOrder[2] == p;
      case Jupiter => assert PlanetOrder[3] == p;
      case Saturn => assert PlanetOrder[4] == p;
      case Uranus => assert PlanetOrder[5] == p;
      case Neptune => assert PlanetOrder[6] == p;
      case Pluto => assert PlanetOrder[7] == p;
    }
  }

  /** The generated list has the shape every chart's planet list must have. */
  lemma PlanetaryPositionsWellFormed(sun: ZodiacSign, draw: nat -> Degree)
    ensures WellFormedPlanets(GeneratePlanetaryPositions(sun, draw))
    ensures forall pos :: pos in GeneratePlanetaryPositions(sun, draw) ==> 1 <= pos.house <= PlanetCount
  {
  }

  /**
   * No planet shares the sun's sign, and no two planets share one: the
   * eight planets take the eight signs that follow the sun's.
   */
  lemma PlanetSignsDistinct(sun: ZodiacSign, draw: nat -> Degree)
    ensures var ps := GeneratePlanetaryPositions(sun, draw);
      && (forall i :: 0 <= i < |ps| ==> ps[i].sign != sun)
      && (forall i, j :: 0 <= i < j < |ps| ==> ps[i].sign != ps[j].sign)
  {
    var ps := GeneratePlanetaryPositions(sun, draw);
    forall i | 0 <= i < |ps|
      ensures ps[i].sign != sun
    {
      ShiftFixedIff(sun, i + 1);
    }
    forall i, j | 0 <= i < j < |ps|
      ensures ps[i].sign != ps[j].sign
    {
      if ps[i].sign == ps[j].sign {
        ShiftInjective(sun, i + 1, j + 1);
      }
    }
  }
}
