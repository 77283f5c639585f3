/**
 * The chart assembler: it runs the three resolvers on one input record,
 * derives the planets from the sun sign and the houses from the rising
 * sign, and writes the interpretation from the three signs.
 */
module Chart {
  import opened Wrappers
  import opened Zodiac
  import opened Calendar
  import opened Sun
  import opened Moon
  import opened Rising
  import opened Planets
  import opened Houses
  import opened Interpretation

  /**
   * The birth details as the form hands them over, with the date already
   * read into its calendar fields. Latitude and longitude are optional.
   */
  datatype BirthChartData = BirthChartData(
    name: string,
    dateOfBirth: CalendarDate,
    timeOfBirth: string,
    placeOfBirth: string,
    latitude: Option<real>,
    longitude: Option<real>)

  /** The computed chart, minus its creation time stamp. */
  datatype ChartInterpretation = ChartInterpretation(
    birthChartData: BirthChartData,
    sunSign: ZodiacSign,
    moonSign: ZodiacSign,
    risingSign: ZodiacSign,
    planetaryPositions: seq<PlanetPosition>,
    houses: seq<House>,
    interpretation: string)

  /**
   * Why no chart comes out: the birth time does not read as
   * "hours:minutes", so the rising lookup is `undefined`.
   */
  datatype ChartError = RisingSignUndefined

  /**
   * The chart-level invariants every complete chart keeps: the planets and
   * houses are well formed, house 1 carries the rising sign, the houses
   * show every sign once, no planet shares the sun's sign, and the
   * narrative reads back as the chart's own three signs.
   */
  predicate WellFormedChart(c: ChartInterpretation) {
    && WellFormedPlanets(c.planetaryPositions)
    && WellFormedHouses(c.houses)
    && c.houses[0].sign == c.risingSign
    && IsPermutationOfSigns(HouseSigns(c.houses))
    && (forall i :: 0 <= i < |c.planetaryPositions| ==> c.planetaryPositions[i].sign != c.sunSign)
    && ReadSigns(c.interpretation) == Some((c.sunSign, c.moonSign, c.risingSign))
  }

  /**
   * Planets drawn from the sun sign and houses drawn from the rising sign,
   * with any narrative that reads back as the three signs, make a
   * well-formed chart, whatever the draws.
   */
  lemma GeneratedPartsWellFormed(data: BirthChartData, sun: ZodiacSign, moon: ZodiacSign, rising: ZodiacSign,
                                 planetDraw: nat -> Degree, houseDraw: nat -> Degree, text: string)
    requires ReadSigns(text) == Some((sun, moon, rising))
    ensures WellFormedChart(ChartInterpretation(data, sun, moon, rising,
                                                GeneratePlanetaryPositions(sun, planetDraw),
                                                GenerateHouses(rising, houseDraw), text))
  {
    PlanetaryPositionsWellFormed(sun, planetDraw);
    PlanetSignsDistinct(sun, planetDraw);
    HousesWellFormed(rising, houseDraw);
    HouseSignsArePermutation(rising, houseDraw);
  }

  /**
   * The pure part of the assembly once the three signs are known: planets
   * from the sun sign, houses from the rising sign, the narrative from all
   * three. `Math.random()` is called eight times for the planets and then
   * twelve times for the houses; the two runs of draws are the parameters
   * `planetDraw` and `houseDraw`. Whatever the signs and the draws, the
   * result is a well-formed chart that carries the input unchanged.
   */
  function AssembleChart(data: BirthChartData, sun: ZodiacSign, moon: ZodiacSign, rising: ZodiacSign,
                         planetDraw: nat -> Degree, houseDraw: nat -> Degree): (c: ChartInterpretation)
    ensures WellFormedChart(c)
    ensures (c.birthChartData, c.sunSign, c.moonSign, c.risingSign) == (data, sun, moon, rising)
    ensures (c.planetaryPositions, c.houses, c.interpretation)
         == (GeneratePlanetaryPositions(sun, planetDraw), GenerateHouses(rising, houseDraw),
             GenerateInterpretation(sun, moon, rising))
  {
    GeneratedPartsWellFormed(data, sun, moon, rising, planetDraw, houseDraw,
                             GenerateInterpretation(sun, moon, rising));
    ChartInterpretation(data, sun, moon, rising,
                        GeneratePlanetaryPositions(sun, planetDraw),
                        GenerateHouses(rising, houseDraw),
                        GenerateInterpretation(sun, moon, rising))
  }

  /**
   * `generateBirthChart(data)`, with the moon sign taken from the corrected
   * resolver, so that every valid date has one. The source goes on with
   * `undefined` when the rising lookup misses; here that case is an
   * explicit failure, so that a chart is either complete or absent. It
   * succeeds exactly when the time reads, and then its signs are the
   * resolvers' answers on the input.
   */
  function GenerateBirthChart(data: BirthChartData, planetDraw: nat -> Degree, houseDraw: nat -> Degree)
    : (r: Result<ChartInterpretation, ChartError>)
    requires Valid(data.dateOfBirth)
    ensures r.Success? <==> ParseTime(data.timeOfBirth).Some?
    ensures r.Success? ==> WellFormedChart(r.value) && r.value.birthChartData == data
    ensures r.Success? ==>
              && r.value.sunSign == SunSign(data.dateOfBirth.month, data.dateOfBirth.day)
              && r.value.moonSign == CorrectedMoonSign(DaysSinceEpoch(data.dateOfBirth))
              && Some(r.value.risingSign) == RisingSign(data.timeOfBirth, data.dateOfBirth)
    ensures r.Success? ==>
              && r.value.planetaryPositions == GeneratePlanetaryPositions(r.value.sunSign, planetDraw)
              && r.value.houses == GenerateHouses(r.value.risingSign, houseDraw)
              && r.value.interpretation == GenerateInterpretation(r.value.sunSign, r.value.moonSign, r.value.risingSign)
  {
    var date := data.dateOfBirth;
    var rising :- RisingSign(data.timeOfBirth, date).ToResult(RisingSignUndefined);
    Success(AssembleChart(data, SunSign(date.month, date.day), CorrectedMoonSign(DaysSinceEpoch(date)),
                          rising, planetDraw, houseDraw))
  }

  /**
   * Only the date and the time feed the computation: two inputs that agree
   * on them give the same outcome, and the same chart up to the echoed
   * input record. Name, place, latitude and longitude are never read.
   */
  lemma ChartIgnoresPersonalDetails(d1: BirthChartData, d2: BirthChartData,
                                    planetDraw: nat -> Degree, houseDraw: nat -> Degree)
    requires Valid(d1.dateOfBirth)
    requires d1.dateOfBirth == d2.dateOfBirth && d1.timeOfBirth == d2.timeOfBirth
    ensures var r1 := GenerateBirthChart(d1, planetDraw, houseDraw);
            var r2 := GenerateBirthChart(d2, planetDraw, houseDraw);
            && r1.Success? == r2.Success?
            && (r1.Success? ==> r1.value.(birthChartData := d2) == r2.value)
  {
  }

  /**
   * From 1970 on, the chart's moon sign is the one the source's own
   * resolver gives.
   */
  lemma ChartMoonAsSourceFromEpoch(data: BirthChartData, planetDraw: nat -> Degree, houseDraw: nat -> Degree)
    requires Valid(data.dateOfBirth) && data.dateOfBirth.year >= EpochYear
    requires ParseTime(data.timeOfBirth).Some?
    ensures var r := GenerateBirthChart(data, planetDraw, houseDraw);
            r.Success? && Some(r.value.moonSign) == MoonSign(DaysSinceEpoch(data.dateOfBirth))
  {
    DaysSinceEpochSign(data.dateOfBirth);
    CorrectedMoonSignAgrees(DaysSinceEpoch(data.dateOfBirth));
  }

  /**
   * A birth on 1969-12-31, where the source's moon lookup misses, still
   * gets a chart, with a Pisces moon.
   */
  lemma ChartDayBeforeEpoch(data: BirthChartData, planetDraw: nat -> Degree, houseDraw: nat -> Degree)
    requires data.dateOfBirth == CalendarDate(1969, 12, 31) && data.timeOfBirth == "00:00"
    ensures var r := GenerateBirthChart(data, planetDraw, houseDraw);
            r.Success? && r.value.moonSign == Pisces && MoonSign(DaysSinceEpoch(data.dateOfBirth)) == None
  {
    DayBeforeEpoch();
    MoonSignUndefinedBeforeEpoch();
    RisingSignExamples(data.dateOfBirth);
  }

  /**
   * A worked example: 1990-03-21 at midnight is day 7384, which gives an
   * Aries sun, a Libra moon and an Aries ascendant.
   */
  lemma ChartExample(data: BirthChartData, planetDraw: nat -> Degree, houseDraw: nat -> Degree)
    requires data.dateOfBirth == CalendarDate(1990, 3, 21) && data.timeOfBirth == "00:00"
    ensures var r := GenerateBirthChart(data, planetDraw, houseDraw);
            r.Success? && (r.value.sunSign, r.value.moonSign, r.value.risingSign) == (Aries, Libra, Aries)
  {
    DaysSinceEpochExample();
    MoonSignExample();
    CorrectedMoonSignAgrees(7384);
    RisingSignExamples(data.dateOfBirth);
  }
}
