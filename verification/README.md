# Starsign chart core in Dafny

This project models the astrology core of the Starsign birth-chart app. That core is
`src/utils/astrology.ts`. Given a birth date and a birth time it computes three things:

- a **sun sign**, from fixed calendar date ranges;
- a **moon sign**, from a 27.3-day-per-sign cycle counted from 1970-01-01;
- a **rising sign**, from two-hour slots of the clock, starting with Aries at midnight.

From these signs the core then builds the rest of the chart:

- eight **planet placements**, taken from the signs that follow the sun sign;
- twelve **houses**, starting at the rising sign;
- a fixed-template **interpretation** text.

`generateBirthChart` puts these pieces together.

The modules follow the program:

| module | what it holds |
|---|---|
| `Zodiac` | the twelve signs, in the order of the source's `signs` array, with indexing, JavaScript-style array lookup, cyclic shift and names |
| `JsArith` | JavaScript's `%`, whose result takes the sign of the dividend |
| `Calendar` | proleptic Gregorian dates and the signed day count since 1970-01-01 |
| `Sun`, `Moon`, `Rising` | the three resolvers |
| `Planets`, `Houses` | the generated chart parts |
| `Interpretation` | the text tables, the template, and a reader that recovers the three signs from a narrative |
| `Chart` | the assembler |
| `Wrappers` | `Option` and `Result` |

Modelling decisions:

- **The moon.** The moon computation works in tenths of a day, so its integer arithmetic is exact. The phase is `JsRem(10·days, 3276)`. The index is `JsRem(phase / 273, 12)`. The `signs[...]` lookup gives `None` where JavaScript gives `undefined`.
- **Random degrees.** `Math.random() * 30` becomes a parameter, `draw: nat -> Degree`. Here `Degree` is the reals in [0, 30). The assembler takes two runs of draws: the eight for the planets and the twelve for the houses.
- **Moon sign before 1970.** The assembler takes its moon sign from the corrected resolver, which gives every date a sign. See "## Findings".
- **Missing rising sign.** The source puts an `undefined` rising sign into the chart when the time does not read. The model's assembler reports that case as a failure instead.

## Model

| member | source | states |
|---|---|---|
| Zodiac.Index | src/utils/astrology.ts:25 | every sign has a position below 12 in the `signs` array, and the array holds that sign at that position |
| Zodiac.SignsArePermutation | src/types.ts:36-48 | the `signs` array lists each of the twelve signs of the `ZodiacSign` type exactly once |
| Zodiac.Lookup | src/utils/astrology.ts:30 | `signs[k]` yields a sign exactly when 0 <= k < 12, and then the sign at position k; otherwise it yields `undefined` |
| Zodiac.Shift | src/utils/astrology.ts:50 | `signs[(indexOf(s) + k) % 12]` is the sign whose position is (position of s + k) mod 12 |
| Zodiac.ShiftFixedIff | src/utils/astrology.ts:63 | shifting by k returns to the same sign if and only if k is a multiple of 12 |
| Zodiac.ShiftInjective | src/utils/astrology.ts:63 | two shifts of the same sign by amounts below 12 agree only if the amounts are equal |
| Zodiac.ShiftCompose | src/utils/astrology.ts:50 | shifting by j and then by k is shifting by j + k |
| Zodiac.NameRoundTrip | src/types.ts:36-48 | reading a sign's name back gives the sign |
| Sun.SunSign | src/utils/astrology.ts:9-20 | for a month in 1..12 the returned sign's date range contains the date; any other month falls through to Pisces |
| Sun.SunSignUnique | src/utils/astrology.ts:9-20 | the twelve ranges partition the year: a date lies in a sign's range if and only if that sign is returned |
| Sun.RangeEnds | src/utils/astrology.ts:9-20 | the first and the last day of a sign's range both map to that sign |
| Sun.SunSignBoundaries | src/utils/astrology.ts:9-20 | all 24 range ends map to their range's sign, and the fixed boundary dates 3/20, 3/21, 2/18, 2/19, 12/21, 12/22, 1/19 and 1/20 give Pisces, Aries, Aquarius, Pisces, Sagittarius, Capricorn, Capricorn and Aquarius |
| Calendar.DaysSinceEpoch | src/utils/astrology.ts:27 | the signed day count of a valid date lies in its own year's span: at least the count of 1 January of that year and below it plus the year's length |
| Calendar.DaysSinceEpochCounts | src/utils/astrology.ts:27 | 1970-01-01 is day 0, and each following date adds exactly one day |
| Calendar.DaysSinceEpochSign | src/utils/astrology.ts:27 | the day count is negative exactly for dates before 1970 |
| Calendar.DaysSinceEpochWithinYear | src/utils/astrology.ts:27 | a date's day count lies between the counts of 1 January of its year and of the next year |
| Calendar.DayBeforeEpoch | src/utils/astrology.ts:27 | 1969-12-31 is day -1 |
| Calendar.DaysSinceEpochExample | src/utils/astrology.ts:27 | 1990-03-21 is day 7384 |
| JsArith.JsRem | src/utils/astrology.ts:29 | JavaScript's `%`: for a non-negative dividend it is the ordinary remainder, for a negative one it lies in (-b, 0], and in both cases the dividend minus the result is a multiple of b |
| Moon.CyclePhase | src/utils/astrology.ts:28-29 | from the epoch on, the phase is the day count's remainder modulo the 327.6-day cycle, in [0, 3276) tenths; before the epoch it lies in (-3276, 0]; on every day it differs from ten times the day count by whole cycles |
| Moon.MoonIndex | src/utils/astrology.ts:29 | the sign index lies in (-12, 12), is non-negative from the epoch on and non-positive before it, and differs from the phase's floored quotient by 273 by a multiple of 12 |
| Moon.MoonOuterRemainderIsIdentity | src/utils/astrology.ts:29 | from the epoch on the floored quotient is already below 12, so the trailing `% 12` leaves it unchanged |
| Moon.MoonSign | src/utils/astrology.ts:24-31 | from the epoch on a sign always comes out, and it is the one whose 27.3-day slot holds the phase |
| Moon.MoonSignUndefinedIff | src/utils/astrology.ts:29-30 | the lookup is `undefined` if and only if the day is before the epoch and its phase lies in [-3003, 0) |
| Moon.MoonSignPeriodic | src/utils/astrology.ts:28-29 | the sign repeats every 1638 days while both days lie on the same side of the epoch |
| Moon.MoonSignUndefinedBeforeEpoch | src/utils/astrology.ts:29-30 | day -1 (1969-12-31) has no moon sign, although day 1637, which is 1638 days later, is Pisces; the corrected resolver gives day -1 Pisces |
| Moon.MoonSignExample | src/utils/astrology.ts:27-30 | day 7384 gives Libra |
| Moon.CorrectedMoonSign | src/utils/astrology.ts:29 | with a non-negative remainder every day gets the sign whose slot holds its phase |
| Moon.CorrectedMoonSignAgrees | src/utils/astrology.ts:29-30 | wherever the source's lookup names a sign, the corrected sign is that sign: every day from the epoch on, and the earlier days whose phase is 0 or below -3003 |
| Moon.CorrectedMoonSignPeriodic | src/utils/astrology.ts:28-29 | the corrected sign repeats every 1638 days across the epoch too |
| Rising.Split | src/utils/astrology.ts:36 | `split(':')` yields at least one piece, no piece holds a colon, and joining the pieces with colons gives the input back |
| Rising.DigitsValue | src/utils/astrology.ts:36 | a run of n decimal digits is worth less than 10^n |
| Rising.DigitsValueAppend | src/utils/astrology.ts:36 | positional notation: the digits of one run followed by another are worth the first run's value times 10 to the length of the second, plus the second's value |
| Rising.LeadingZero | src/utils/astrology.ts:36 | a leading zero does not change the number read ("07" reads as 7) |
| Rising.NumberOf | src/utils/astrology.ts:36 | a field reads as a number exactly when it is all decimal digits, and then the number is the decimal value of those digits; its partner is Rising.NumberOfDecimal |
| Rising.Decimal | src/utils/astrology.ts:36 | the decimal writing of a number is a non-empty run of digits that starts with '0' only for 0 |
| Rising.NumberOfDecimal | src/utils/astrology.ts:36 | every natural number written in decimal reads back as itself |
| Rising.ParseTime | src/utils/astrology.ts:36 | a time reads exactly when splitting it at ':' gives at least two pieces and the first two are all digits; then it contains a colon, the hours are the value of the digits before the first colon, and the minutes are the value of the second piece |
| Rising.ParseFormatRoundTrip | src/utils/astrology.ts:36 | reading "HH:MM" gives back the hours and minutes written |
| Rising.RisingIndex | src/utils/astrology.ts:37-38 | the slot index is a valid sign position, and it is the two-hour slot that holds the total minutes taken modulo a day, whatever the hours and minutes read ("01:90" is 150 minutes, slot 1) |
| Rising.RisingSign | src/utils/astrology.ts:34-40 | a sign comes out if and only if the time reads; with minutes below 60 it is the sign at position (hours / 2) mod 12 |
| Rising.TwoHourSlot | src/utils/astrology.ts:37-38 | `Math.floor(total / 1440 * 12)` is the number of whole two-hour slots in the total, and taken modulo 12 it is the slot holding the total minutes modulo a day |
| Rising.RisingSignOfParsed | src/utils/astrology.ts:36-39 | a time that reads as hours below 24 and minutes below 60 gives the sign at position hours / 2, whatever the date |
| Rising.RisingSignOfClockTime | src/utils/astrology.ts:36-39 | for any time of day written "HH:MM", the rising sign is the one for the hour's two-hour slot |
| Rising.RisingSignExamples | src/utils/astrology.ts:36-39 | "00:00" is Aries and "23:59" is Pisces |
| Rising.RisingSignNeedsColon | src/utils/astrology.ts:36-39 | a time without a colon ("noon") gives no sign |
| Planets.GeneratePlanetaryPositions | src/utils/astrology.ts:43-54 | eight placements in the order Mercury..Pluto; the i-th sits in the sign i + 1 places after the sun sign, in house i + 1, at draw i |
| Planets.PlanetName | src/utils/astrology.ts:45 | the name the `planets` array gives each planet; no contract, it is data |
| Planets.PlanetNamesDistinct | src/utils/astrology.ts:45 | two planets share a name if and only if they are the same planet |
| Planets.PlanetOrderIsPermutation | src/utils/astrology.ts:45 | the planet list names each of the eight planets exactly once |
| Planets.PlanetaryPositionsWellFormed | src/utils/astrology.ts:48-53 | there are eight placements, the i-th for the i-th planet of the list, each in a house between 1 and 8 |
| Planets.PlanetSignsDistinct | src/utils/astrology.ts:50 | no planet is placed in the sun sign, and no two planets share a sign |
| Houses.GenerateHouses | src/utils/astrology.ts:57-66 | twelve houses numbered 1..12; house n is in the sign n - 1 places after the rising sign, at draw n - 1 |
| Houses.HousesWellFormed | src/utils/astrology.ts:61-65 | the houses are numbered 1..12 in order, and house 1 is in the rising sign |
| Houses.HouseSignsArePermutation | src/utils/astrology.ts:63 | the twelve house signs are the twelve signs, each exactly once |
| Interpretation.SunText | src/utils/astrology.ts:70-83 | the sentence the `sunInterpretations` record gives each sign, for all twelve signs; no contract, it is data that the round trip below reads through |
| Interpretation.MoonText | src/utils/astrology.ts:85-98 | the sentence the `moonInterpretations` record gives each sign, for all twelve signs; no contract, it is data |
| Interpretation.RisingText | src/utils/astrology.ts:100-113 | the sentence the `risingInterpretations` record gives each sign, for all twelve signs; no contract, it is data |
| Interpretation.GenerateInterpretation | src/utils/astrology.ts:69-124 | the narrative is defined for every sign triple, and reading it back yields exactly the sun, moon and rising signs it was written for |
| Interpretation.InterpretationOpensWithSun | src/utils/astrology.ts:115 | the narrative begins "Your Sun in " followed by the sun sign's name |
| Interpretation.InterpretationNamesSigns | src/utils/astrology.ts:115-121 | the narrative contains the names of the sun, moon and rising signs |
| Interpretation.InterpretationInjective | src/utils/astrology.ts:69-124 | different sign triples never produce the same narrative |
| Chart.GeneratedPartsWellFormed | src/utils/astrology.ts:134-135 | planets from the sun sign and houses from the rising sign, with a narrative that reads back as the three signs, form a chart that meets every chart invariant, whatever the draws |
| Chart.AssembleChart | src/utils/astrology.ts:131-145 | the assembled chart meets the chart invariants, echoes the input and the three signs, and carries the generated planets, houses and narrative |
| Chart.GenerateBirthChart | src/utils/astrology.ts:127-148 | a chart comes out exactly when the birth time reads. It then meets the invariants and echoes the input. Its sun and rising signs are the resolvers' answers, its moon sign is the corrected resolver's. Its planets are the ones generated from its sun sign and the planet draws, its houses the ones generated from its rising sign and the house draws, and its narrative the one written for its three signs |
| Chart.ChartIgnoresPersonalDetails | src/utils/astrology.ts:131-136 | two inputs with the same date and time give the same outcome and the same chart, apart from the echoed input |
| Chart.ChartMoonAsSourceFromEpoch | src/utils/astrology.ts:132 | for a birth from 1970 on with a readable time, the chart's moon sign is the source resolver's answer |
| Chart.ChartDayBeforeEpoch | src/utils/astrology.ts:132 | a birth on 1969-12-31 at "00:00", where the source's moon lookup misses, gets a chart with a Pisces moon |
| Chart.ChartExample | src/utils/astrology.ts:131-136 | 1990-03-21 at "00:00" gives an Aries sun, a Libra moon and an Aries ascendant |

## Left out

- Date strings are not parsed. `new Date(date)`, `getMonth()`, `getDate()` and `getTime()` become a calendar date already split into year, month and day. Time zones are not modelled either: the model reads the date in UTC. The source's `getMonth()`/`getDate()` use local time, while `getTime()` is in UTC.
- Floating point is not modelled. The moon and rising arithmetic is computed exactly in integers. JavaScript's 27.3 and 327.6 are binary fractions, so on days that are non-zero multiples of 273 floating-point rounding can put the moon one sign earlier. Moon.MoonSign does not model that rounding. The 1638-day period of Moon.MoonSignPeriodic and Moon.CorrectedMoonSignPeriodic is therefore a property of the exact model only. In doubles 27.3 * 12 is 327.60000000000002, so `1638 % 327.6` evaluates to 327.5999999999999 and day 1638 falls in slot 11 (Pisces), while day 0 is Aries.
- Rising.NumberOf: reads only digit strings, with the empty string as 0. Other strings that `Number` accepts are read as NaN (None): surrounding whitespace, a sign, a decimal point, an exponent, `0x` hex. These cases are therefore reported as no sign.
- Chart.GenerateBirthChart: when the rising lookup yields `undefined`, the model reports the failure `RisingSignUndefined`. The source instead continues with an `undefined` sign, building its houses from index -1 and a narrative that contains "undefined". The moon's `undefined` case is corrected, not reproduced (see "## Findings").
- `Math.random()` becomes the draw parameters.
- The 1500 ms `setTimeout` delay, the `createdAt` time stamp and the optional `id`/`userId` fields are left out. They are I/O or clock values.
- `latitude`, `longitude`, `name` and `placeOfBirth` are carried but never read. The same holds in the source.
- `src/services/geminiService.ts`, `chartService.ts` and `dailyHoroscopeService.ts` are not part of this model. Neither are the React components. These are network, storage and UI code.

## Findings

| source | as written | input that shows it | evidently intended | confidence | as-written member | corrected member |
|---|---|---|---|---|---|---|
| src/utils/astrology.ts:29 | `daysSinceEpoch % (moonCycle * 12)` keeps the sign of a negative day count, so the index is negative for most dates before 1970 and `signs[signIndex]` is `undefined` | dateOfBirth 1969-12-31 (day -1): the phase is -1, the index is -1, and the moon sign is `undefined` | every date gets a moon sign, taking the phase as a non-negative remainder of the cycle | not executed | Moon.MoonSignUndefinedBeforeEpoch | Moon.CorrectedMoonSign |

The as-written resolver is Moon.MoonSign. Moon.MoonSignUndefinedIff gives the exact set of days on which it misses. Moon.CorrectedMoonSign is total. Moon.CorrectedMoonSignAgrees proves that it equals the source's answer wherever the source gives one. So the correction changes only the days on which the source's lookup is `undefined`. The source does answer on every day from 1970 on, and also on the earlier days whose phase is 0 or below -3003; those give Aries in both. Moon.CorrectedMoonSignPeriodic proves that it keeps the 1638-day period across the epoch. The assembler uses the corrected resolver. Chart.ChartMoonAsSourceFromEpoch shows that this changes nothing from 1970 on. Chart.ChartDayBeforeEpoch shows the case the source gets wrong.
