/**
 * The template interpretation: three fixed sign-to-sentence tables, one
 * per placement, joined into a fixed narrative that names the sun, moon
 * and rising signs.
 */
module Interpretation {
  import opened Wrappers
  import opened Zodiac

  /** What the sun sign says of the person. */
  function SunText(s: ZodiacSign): string {
    match s
    case Aries => "Bold and pioneering, you approach life with courage and enthusiasm."
    case Taurus => "Grounded and reliable, you value stability and the finer things in life."
    case Gemini => "Curious and communicative, you thrive on mental stimulation and variety."
    case Cancer => "Nurturing and intuitive, you lead with your heart and value emotional connections."
    case Leo => "Charismatic and creative, you shine brightest when expressing your authentic self."
    case Virgo => "Analytical and service-oriented, you excel at bringing order and improvement to the world."
    case Libra => "Diplomatic and harmonious, you seek balance and beauty in all aspects of life."
    case Scorpio => "Intense and transformative, you possess remarkable depth and investigative power."
    case Sagittarius => "Adventurous and philosophical, you seek truth and expansion through experience."
    case Capricorn => "Ambitious and disciplined, you build lasting structures through determination and wisdom."
    case Aquarius => "Innovative and humanitarian, you envision and create a better future for all."
    case Pisces => "Compassionate and imaginative, you navigate life through intuition and spiritual connection."
  }

  /** What the moon sign says of the person's emotions. */
  function MoonText(s: ZodiacSign): string {
    match s
    case Aries => "Your emotional nature is direct and passionate."
    case Taurus => "You find emotional security through stability and comfort."
    case Gemini => "Your feelings are expressed through communication and intellectual connection."
    case Cancer => "Deeply sensitive, you process emotions with profound care."
    case Leo => "You need recognition and warmth to feel emotionally fulfilled."
    case Virgo => "You analyze your feelings and seek practical ways to address them."
    case Libra => "Emotional harmony and partnership are essential to your wellbeing."
    case Scorpio => "You experience emotions intensely and transformatively."
    case Sagittarius => "Freedom and optimism fuel your emotional landscape."
    case Capricorn => "You approach emotions with maturity and self-control."
    case Aquarius => "Your emotional needs are unique and often unconventional."
    case Pisces => "Highly empathetic, you absorb the emotions of those around you."
  }

  /** What the rising sign says of the person's outward manner. */
  function RisingText(s: ZodiacSign): string {
    match s
    case Aries => "You present yourself as confident and action-oriented."
    case Taurus => "Others see you as calm, reliable, and grounded."
    case Gemini => "Your outward persona is witty, adaptable, and engaging."
    case Cancer => "You come across as caring, protective, and emotionally attuned."
    case Leo => "Your presence is warm, dramatic, and naturally commanding."
    case Virgo => "You appear modest, helpful, and detail-focused to others."
    case Libra => "Grace, charm, and diplomacy characterize your outward expression."
    case Scorpio => "You project intensity, mystery, and magnetic power."
    case Sagittarius => "Your approach to life appears optimistic, open, and adventurous."
    case Capricorn => "You present as responsible, mature, and ambitious."
    case Aquarius => "Others perceive you as unique, progressive, and independent."
    case Pisces => "You appear gentle, artistic, and spiritually inclined."
  }

  const SunLead: string := "Your Sun in "
  const SunLink: string := " reveals that "
  const MoonLead: string := "\n\nWith your Moon in "
  const MoonLink: string := ", "
  const RisingLead: string := "\n\nYour "
  const RisingLink: string := " Rising means that "

  const ClosingLead: string := "\n\nThis unique combination creates a multifaceted personality. Your "
  const ClosingSunLink: string := " core drives your basic identity and life purpose, while your "
  const ClosingMoonLink: string := " Moon shapes your emotional responses and inner needs. Meanwhile, your "
  const ClosingTail: string :=
    " Ascendant influences how you approach new situations and how others initially perceive you."
    + ("\n\nThe interplay between these three key placements forms the foundation of your"
    + (" astrological identity, with each planetary position adding additional layers of"
    + " meaning to your cosmic blueprint."))

  /** The closing paragraphs, which name the three signs once more. */
  function Closing(sun: ZodiacSign, moon: ZodiacSign, rising: ZodiacSign): string {
    ClosingLead + (Name(sun) + (ClosingSunLink + (Name(moon)
      + (ClosingMoonLink + (Name(rising) + ClosingTail)))))
  }

  /** What follows the sun sign's name in the narrative. */
  function AfterSun(sun: ZodiacSign, moon: ZodiacSign, rising: ZodiacSign): string {
    SunLink + (SunText(sun)
      + (MoonLead + (Name(moon) + (MoonLink + (MoonText(moon)
      + (RisingLead + (Name(rising) + (RisingLink + (RisingText(rising)
      + Closing(sun, moon, rising))))))))))
  }

  /**
   * `generateInterpretation(sunSign, moonSign, risingSign)`, total over all
   * 12^3 sign triples. The narrative determines the signs it was written
   * for: reading it back yields exactly the sun, moon and rising signs.
   */
  function GenerateInterpretation(sun: ZodiacSign, moon: ZodiacSign, rising: ZodiacSign): (text: string)
    ensures ReadSigns(text) == Some((sun, moon, rising))
  {
    ReadSignsOfOpening(sun, moon, rising, RisingText(rising) + Closing(sun, moon, rising));
    SunLead + (Name(sun) + AfterSun(sun, moon, rising))
  }

  /** The narrative opens by naming the sun sign. */
  lemma InterpretationOpensWithSun(sun: ZodiacSign, moon: ZodiacSign, rising: ZodiacSign)
    ensures SunLead + Name(sun) <= GenerateInterpretation(sun, moon, rising)
  {
    OpensWith(SunLead, Name(sun), AfterSun(sun, moon, rising));
  }

  lemma OpensWith(a: string, b: string, rest: string)
    ensures a + b <= a + (b + rest)
  {
    assert a + (b + rest) == (a + b) + rest;
  }

  /** `word` occurs in `text` starting at position k. */
  predicate OccursAt(text: string, word: string, k: int) {
    0 <= k && k + |word| <= |text| && text[k..k + |word|] == word
  }

  predicate Contains(text: string, word: string) {
    exists k :: 0 <= k <= |text| && OccursAt(text, word, k)
  }

  /** A word placed after a prefix occurs right where the prefix ends. */
  lemma OccursAfter(prefix: string, word: string, rest: string)
    ensures OccursAt(prefix + (word + rest), word, |prefix|)
  {
    assert (prefix + (word + rest))[|prefix|..] == word + rest;
  }

  /** Five pieces before a word can be read as one prefix before it. */
  lemma Regroup(a: string, b: string, c: string, d: string, e: string, w: string, rest: string)
    ensures a + (b + (c + (d + (e + (w + rest))))) == (a + b + c + d + e) + (w + rest)
  {
  }

  /**
   * In any text laid out as the narrative's opening, whatever its sentences
   * and ending, each of the three sign names occurs.
   */
  lemma OpeningNamesSigns(sun: ZodiacSign, moon: ZodiacSign, rising: ZodiacSign,
                          sunText: string, moonText: string, after: string)
    ensures var text := SunLead + (Name(sun) + (SunLink + (sunText
              + (MoonLead + (Name(moon) + (MoonLink + (moonText
              + (RisingLead + (Name(rising) + after)))))))));
      Contains(text, Name(sun)) && Contains(text, Name(moon)) && Contains(text, Name(rising))
  {
    var tail2 := MoonLink + (moonText + (RisingLead + (Name(rising) + after)));
    var tail1 := SunLink + (sunText + (MoonLead + (Name(moon) + tail2)));
    var text := SunLead + (Name(sun) + tail1);
    OccursAfter(SunLead, Name(sun), tail1);
    var pre2 := SunLead + Name(sun) + SunLink + sunText + MoonLead;
    Regroup(SunLead, Name(sun), SunLink, sunText, MoonLead, Name(moon), tail2);
    OccursAfter(pre2, Name(moon), tail2);
    var pre3 := pre2 + Name(moon) + MoonLink + moonText + RisingLead;
    Regroup(pre2, Name(moon), MoonLink, moonText, RisingLead, Name(rising), after);
    OccursAfter(pre3, Name(rising), after);
    assert OccursAt(text, Name(sun), |SunLead|);
    assert OccursAt(text, Name(moon), |pre2|);
    assert OccursAt(text, Name(rising), |pre3|);
  }

  /** The narrative names the sun, moon and rising signs verbatim. */
  lemma InterpretationNamesSigns(sun: ZodiacSign, moon: ZodiacSign, rising: ZodiacSign)
    ensures var text := GenerateInterpretation(sun, moon, rising);
      Contains(text, Name(sun)) && Contains(text, Name(moon)) && Contains(text, Name(rising))
  {
    OpeningNamesSigns(sun, moon, rising, SunText(sun), MoonText(moon),
      RisingLink + (RisingText(rising) + Closing(sun, moon, rising)));
  }

  // Reading the signs back out of a narrative.

  /** The rest of s after `prefix`, if s starts with it. */
  function Expect(prefix: string, s: string): (r: Option<string>)
    ensures r.Some? ==> s == prefix + r.value
    ensures r.Some? <==> prefix <= s
  {
    if prefix <= s then Some(s[|prefix|..]) else None
  }

  /** What follows a prefix is what is left after expecting it. */
  lemma ExpectPrefix(prefix: string, s: string)
    ensures Expect(prefix, prefix + s) == Some(s)
  {
    assert prefix <= prefix + s;
  }

  /** Characters that end a sign name where the narrative embeds one. */
  predicate IsDelimiter(c: char) {
    c == ' ' || c == ','
  }

  /** A sign name is a non-empty word: it holds no delimiter. */
  lemma NameIsWord(s: ZodiacSign)
    ensures |Name(s)| > 0
    ensures forall i :: 0 <= i < |Name(s)| ==> !IsDelimiter(Name(s)[i])
  {
  }

  /** s split before its first delimiter: the leading word and what follows it. */
  function ReadWord(s: string): (r: (string, string))
    ensures r.0 + r.1 == s
  {
    if |s| == 0 || IsDelimiter(s[0]) then ([], s)
    else
      var (w, rest) := ReadWord(s[1..]);
      ([s[0]] + w, rest)
  }

  /** Reads a sign name that ends at a delimiter, returning the sign and the text after the name. */
  function ReadSign(s: string): (r: Option<(ZodiacSign, string)>)
  {
    var (w, rest) := ReadWord(s);
    var sign :- SignNamed(w);
    Some((sign, rest))
  }

  /**
   * Recovers the three signs from a narrative by reading it left to
   * right: the sun sign after its lead-in, then, once the sun sentence is
   * known, the moon sign, and likewise the rising sign.
   */
  function ReadSigns(text: string): Option<(ZodiacSign, ZodiacSign, ZodiacSign)> {
    var afterSunLead :- Expect(SunLead, text);
    var (sun, afterSun) :- ReadSign(afterSunLead);
    var (moon, rising) :- ReadMoonAndRising(sun, afterSun);
    Some((sun, moon, rising))
  }

  /** Reads past the sun sentence, then the moon sign and what follows. */
  function ReadMoonAndRising(sun: ZodiacSign, s: string): Option<(ZodiacSign, ZodiacSign)> {
    var afterSunLink :- Expect(SunLink, s);
    var afterSunText :- Expect(SunText(sun), afterSunLink);
    var afterMoonLead :- Expect(MoonLead, afterSunText);
    var (moon, afterMoon) :- ReadSign(afterMoonLead);
    var rising :- ReadRising(moon, afterMoon);
    Some((moon, rising))
  }

  /** Reads past the moon sentence, then the rising sign. */
  function ReadRising(moon: ZodiacSign, s: string): Option<ZodiacSign> {
    var afterMoonLink :- Expect(MoonLink, s);
    var afterMoonText :- Expect(MoonText(moon), afterMoonLink);
    var afterRisingLead :- Expect(RisingLead, afterMoonText);
    var (rising, _) :- ReadSign(afterRisingLead);
    Some(rising)
  }

  /** A word followed by a delimiter reads back as that word. */
  lemma {:induction false} ReadWordOfWord(w: string, rest: string)
    requires forall i :: 0 <= i < |w| ==> !IsDelimiter(w[i])
    requires |rest| > 0 && IsDelimiter(rest[0])
    ensures ReadWord(w + rest) == (w, rest)
  {
    if |w| > 0 {
      assert (w + rest)[1..] == w[1..] + rest;
      ReadWordOfWord(w[1..], rest);
      assert [w[0]] + w[1..] == w;
    } else {
      assert w + rest == rest;
    }
  }

  /** A sign name followed by a delimiter reads back as that sign. */
  lemma ReadSignOfName(s: ZodiacSign, rest: string)
    requires |rest| > 0 && IsDelimiter(rest[0])
    ensures ReadSign(Name(s) + rest) == Some((s, rest))
  {
    NameIsWord(s);
    ReadWordOfWord(Name(s), rest);
    NameRoundTrip(s);
  }

  lemma ReadRisingBack(moon: ZodiacSign, rising: ZodiacSign, tail: string)
    requires |tail| > 0 && IsDelimiter(tail[0])
    ensures ReadRising(moon, MoonLink + (MoonText(moon) + (RisingLead + (Name(rising) + tail)))) == Some(rising)
  {
    ExpectPrefix(MoonLink, MoonText(moon) + (RisingLead + (Name(rising) + tail)));
    ExpectPrefix(MoonText(moon), RisingLead + (Name(rising) + tail));
    ExpectPrefix(RisingLead, Name(rising) + tail);
    ReadSignOfName(rising, tail);
  }

  lemma ReadMoonAndRisingBack(sun: ZodiacSign, moon: ZodiacSign, rest: string, rising: ZodiacSign)
    requires |rest| > 0 && IsDelimiter(rest[0])
    requires ReadRising(moon, rest) == Some(rising)
    ensures ReadMoonAndRising(sun, SunLink + (SunText(sun) + (MoonLead + (Name(moon) + rest))))
              == Some((moon, rising))
  {
    ExpectPrefix(SunLink, SunText(sun) + (MoonLead + (Name(moon) + rest)));
    ExpectPrefix(SunText(sun), MoonLead + (Name(moon) + rest));
    ExpectPrefix(MoonLead, Name(moon) + rest);
    ReadSignOfName(moon, rest);
  }

  lemma ReadSignsBack(sun: ZodiacSign, rest: string, moon: ZodiacSign, rising: ZodiacSign)
    requires |rest| > 0 && IsDelimiter(rest[0])
    requires ReadMoonAndRising(sun, rest) == Some((moon, rising))
    ensures ReadSigns(SunLead + (Name(sun) + rest)) == Some((sun, moon, rising))
  {
    ExpectPrefix(SunLead, Name(sun) + rest);
    ReadSignOfName(sun, rest);
  }

  /**
   * Reading stops at the rising sign, so whatever follows the " Rising
   * means that " link plays no part.
   */
  lemma ReadSignsOfOpening(sun: ZodiacSign, moon: ZodiacSign, rising: ZodiacSign, after: string)
    ensures ReadSigns(SunLead + (Name(sun) + (SunLink + (SunText(sun)
              + (MoonLead + (Name(moon) + (MoonLink + (MoonText(moon)
              + (RisingLead + (Name(rising) + (RisingLink + after)))))))))))
            == Some((sun, moon, rising))
  {
    var tail2 := MoonLink + (MoonText(moon) + (RisingLead + (Name(rising) + (RisingLink + after))));
    var tail1 := SunLink + (SunText(sun) + (MoonLead + (Name(moon) + tail2)));
    ReadMoonAndRisingOfOpening(sun, moon, rising, after);
    ReadSignsBack(sun, tail1, moon, rising);
  }

  /** The moon and rising half of the opening reads back as its two signs. */
  lemma ReadMoonAndRisingOfOpening(sun: ZodiacSign, moon: ZodiacSign, rising: ZodiacSign, after: string)
    ensures ReadMoonAndRising(sun, SunLink + (SunText(sun) + (MoonLead + (Name(moon)
              + (MoonLink + (MoonText(moon) + (RisingLead + (Name(rising) + (RisingLink + after)))))))))
            == Some((moon, rising))
  {
    var tail3 := RisingLink + after;
    var tail2 := MoonLink + (MoonText(moon) + (RisingLead + (Name(rising) + tail3)));
    ReadRisingBack(moon, rising, tail3);
    ReadMoonAndRisingBack(sun, moon, tail2, rising);
  }

  /** Distinct sign triples never share a narrative. */
  lemma InterpretationInjective(s1: ZodiacSign, m1: ZodiacSign, r1: ZodiacSign,
                                s2: ZodiacSign, m2: ZodiacSign, r2: ZodiacSign)
    requires GenerateInterpretation(s1, m1, r1) == GenerateInterpretation(s2, m2, r2)
    ensures (s1, m1, r1) == (s2, m2, r2)
  {
  }
}
