/** The keyword-opportunity engine: from one keyword string to a record of
    estimated SEO metrics, a batch ranker and a related-keyword generator.
    `Math.random()` enters as the parameter `variance` and `Math.log10` as
    the parameter `log10`, constrained by `JsMath.IsLog10`. */
module KeywordAnalysis {
  import opened Strings
  import opened JsMath

  // ---------------------------------------------------------------------
  // Lexicons, in the order the source lists them
  // ---------------------------------------------------------------------

  const QuestionWords: seq<string> :=
    ["how", "what", "why", "when", "where", "who", "which",
     "can", "should", "will", "would", "could", "do", "does",
     "is", "are", "was", "were"]

  const CommercialIndicators: seq<string> :=
    ["buy", "purchase", "price", "cost", "cheap", "affordable", "discount",
     "deal", "sale", "shop", "store", "order", "best", "top", "review",
     "compare", "vs", "versus", "alternative", "service", "solution"]

  const TransactionalIndicators: seq<string> :=
    ["buy", "purchase", "order", "download", "get", "hire", "subscribe",
     "register", "signup", "book", "reserve", "apply", "install"]

  const NavigationalIndicators: seq<string> :=
    ["login", "sign in", "official", "website", "contact", "support",
     "customer service", "account", "dashboard", "portal"]

  /** Topic multipliers for the volume estimate; the first entry contained in
      the keyword applies. */
  const IndustryMultipliers: seq<(string, real)> :=
    [("ai", 2.5), ("artificial intelligence", 2.5), ("software", 2.0), ("app", 2.0),
     ("technology", 1.8), ("digital", 1.5), ("online", 1.5), ("business", 1.3),
     ("marketing", 1.3), ("seo", 1.2), ("health", 1.8), ("finance", 1.5),
     ("education", 1.4), ("fitness", 1.3), ("food", 1.4), ("travel", 1.5),
     ("fashion", 1.3)]

  /** Geographic modifiers, matched as plain substrings (so the bare "in",
      "at" and "us" match inside most words). */
  const GeoModifiers: seq<string> :=
    ["near me", "in", "at", "local", "city", "state", "country",
     "usa", "us", "uk", "canada", "australia", "new york", "london"]

  const TechnicalPatterns: seq<string> :=
    ["api", "sdk", "framework", "library", "algorithm", "protocol",
     "integration", "implementation", "architecture", "infrastructure"]

  /** Seasonal terms and their scores; the first entry contained in the
      keyword applies. */
  const SeasonalTerms: seq<(string, int)> :=
    [("christmas", 90), ("holiday", 80), ("summer", 70), ("winter", 70),
     ("spring", 60), ("fall", 60), ("autumn", 60), ("new year", 90),
     ("valentine", 85), ("halloween", 85), ("thanksgiving", 85),
     ("black friday", 95), ("cyber monday", 95), ("tax", 80)]

  const QuestionPrefixes: seq<string> :=
    ["how to", "what is", "why", "when to", "where to find", "best way to"]

  const Modifiers: seq<string> :=
    ["best", "top", "free", "online", "professional", "affordable", "cheap"]

  const Suffixes: seq<string> :=
    ["guide", "tutorial", "tips", "examples", "tools", "software", "service"]

  // ---------------------------------------------------------------------
  // The output record
  // ---------------------------------------------------------------------

  datatype Intent = Informational | Commercial | Transactional | Navigational

  datatype KeywordType = ShortTail | MidTail | LongTail | Question

  datatype DifficultyLabel = Easy | Medium | Hard | VeryHard

  datatype Competition = LowCompetition | MediumCompetition | HighCompetition

  datatype Priority = HighPriority | MediumPriority | LowPriority

  /** The buckets "<100", "100-1K", "1K-10K", "10K-100K" and "100K+". */
  datatype VolumeRange = Under100 | From100To1K | From1KTo10K | From10KTo100K | Over100K

  datatype KeywordMetrics = KeywordMetrics(
    keyword: string,
    searchVolume: int,
    searchVolumeRange: VolumeRange,
    trafficPotential: int,
    difficulty: int,
    difficultyLabel: DifficultyLabel,
    competition: Competition,
    keywordType: KeywordType,
    wordCount: int,
    intent: Intent,
    opportunityScore: int,
    priority: Priority,
    estimatedCpc: real,
    contentLengthRecommendation: int,
    hasFeaturedSnippetPotential: bool,
    seasonalityScore: int)

  // ---------------------------------------------------------------------
  // Classifiers
  // ---------------------------------------------------------------------

  /** `words.some(w => s.startsWith(w + ' '))`. */
  function StartsWithAnyWord(s: string, words: seq<string>): (b: bool)
    ensures b <==> exists i :: 0 <= i < |words| && IsPrefix(words[i] + " ", s)
  {
    if words == [] then false
    else if IsPrefix(words[0] + " ", s) then true
    else
      var rest := StartsWithAnyWord(s, words[1..]);
      assert rest <==> exists i :: 1 <= i < |words| && IsPrefix(words[i] + " ", s) by {
        forall i | 1 <= i < |words| ensures words[1..][i - 1] == words[i] { }
      }
      rest
  }

  /** A keyword is in question form when, lower-cased, it starts with one of
      the question words followed by a space. */
  predicate IsQuestion(keyword: string)
  {
    StartsWithAnyWord(ToLower(keyword), QuestionWords)
  }

  /** Intent by precedence: transactional, then navigational, then
      commercial, otherwise informational. */
  function DetermineIntent(keyword: string): Intent
  {
    var lower := ToLower(keyword);
    if ContainsAny(lower, TransactionalIndicators) then Transactional
    else if ContainsAny(lower, NavigationalIndicators) then Navigational
    else if CountContaining(lower, CommercialIndicators) >= 1 then Commercial
    else Informational
  }

  /** The intent is the first of transactional, navigational and commercial
      whose lexicon has a term occurring in the lower-cased keyword. */
  lemma DetermineIntentPrecedence(keyword: string)
    ensures var r := DetermineIntent(keyword);
      var lower := ToLower(keyword);
      var transactional := exists i :: 0 <= i < |TransactionalIndicators|
                                       && Contains(lower, TransactionalIndicators[i]);
      var navigational := exists i :: 0 <= i < |NavigationalIndicators|
                                      && Contains(lower, NavigationalIndicators[i]);
      var commercial := exists i :: 0 <= i < |CommercialIndicators|
                                    && Contains(lower, CommercialIndicators[i]);
      (r == Transactional <==> transactional)
      && (r == Navigational <==> !transactional && navigational)
      && (r == Commercial <==> !transactional && !navigational && commercial)
      && (r == Informational <==> !transactional && !navigational && !commercial)
  {
  }

  /** Question form first, else by word count: up to 2 short-tail, 3 mid-tail,
      more long-tail. */
  function DetermineKeywordType(keyword: string, wordCount: int): (r: KeywordType)
    ensures r == Question <==> IsQuestion(keyword)
    ensures r == ShortTail <==> !IsQuestion(keyword) && wordCount <= 2
    ensures r == MidTail <==> !IsQuestion(keyword) && wordCount == 3
    ensures r == LongTail <==> !IsQuestion(keyword) && wordCount > 3
  {
    if IsQuestion(keyword) then Question
    else if wordCount <= 2 then ShortTail
    else if wordCount == 3 then MidTail
    else LongTail
  }

  /** Snippet potential: question form; informational with at least three
      space-separated words; a comparison; or a definition phrase. */
  predicate HasFeaturedSnippetPotential(keyword: string, intent: Intent)
  {
    var lower := ToLower(keyword);
    if IsQuestion(keyword) then true
    else if intent == Informational && SpaceSplitCount(keyword) >= 3 then true
    else if Contains(lower, " vs ") || Contains(lower, "difference between") then true
    else if Contains(lower, "what is") || Contains(lower, "meaning of") || Contains(lower, "definition") then true
    else false
  }

  /** Snippet potential holds exactly when one of the four signals does:
      question form, an informational keyword of three or more space-separated
      words, a comparison phrase, or a definition phrase. */
  lemma SnippetPotentialSignals(keyword: string, intent: Intent)
    ensures var lower := ToLower(keyword);
      HasFeaturedSnippetPotential(keyword, intent)
      <==> IsQuestion(keyword)
           || (intent == Informational && SpaceSplitCount(keyword) >= 3)
           || Contains(lower, " vs ") || Contains(lower, "difference between")
           || Contains(lower, "what is") || Contains(lower, "meaning of")
           || Contains(lower, "definition")
  {
  }

  /** `/[A-Z]/`. */
  predicate HasCapital(s: string)
  {
    exists i :: 0 <= i < |s| && IsAsciiUpper(s[i])
  }

  /** `/\d/`. */
  predicate HasDigit(s: string)
  {
    exists i :: 0 <= i < |s| && IsAsciiDigit(s[i])
  }

  /** `/20\d{2}|202[0-9]/`. */
  predicate HasYear(s: string)
  {
    (exists i :: 0 <= i && i + 4 <= |s| && s[i] == '2' && s[i + 1] == '0'
                 && IsAsciiDigit(s[i + 2]) && IsAsciiDigit(s[i + 3]))
    || (exists i :: 0 <= i && i + 4 <= |s| && s[i] == '2' && s[i + 1] == '0'
                    && s[i + 2] == '2' && IsAsciiDigit(s[i + 3]))
  }

  /** `/202[4-9]|203[0-9]/`. */
  predicate HasRecentYear(s: string)
  {
    (exists i :: 0 <= i && i + 4 <= |s| && s[i] == '2' && s[i + 1] == '0'
                 && s[i + 2] == '2' && '4' <= s[i + 3] <= '9')
    || (exists i :: 0 <= i && i + 4 <= |s| && s[i] == '2' && s[i + 1] == '0'
                    && s[i + 2] == '3' && IsAsciiDigit(s[i + 3]))
  }

  /** Index of the first table entry whose key occurs in `s`, or `|table|`. */
  function FirstMatch<V>(s: string, table: seq<(string, V)>): (k: nat)
    ensures k <= |table|
    ensures k < |table| ==> Contains(s, table[k].0)
    ensures forall j :: 0 <= j < k ==> !Contains(s, table[j].0)
  {
    if table == [] then 0
    else if Contains(s, table[0].0) then 0
    else
      var k := 1 + FirstMatch(s, table[1..]);
      assert forall j :: 1 <= j < |table| ==> table[1..][j - 1] == table[j];
      k
  }

  /** One step of a scan for the first match: a key that does not occur at
      `i` moves the first match past `i`. */
  lemma FirstMatchStep<V>(s: string, table: seq<(string, V)>, i: nat)
    requires i <= FirstMatch(s, table) && i < |table| && !Contains(s, table[i].0)
    ensures i + 1 <= FirstMatch(s, table)
  {
  }

  // ---------------------------------------------------------------------
  // Search volume
  // ---------------------------------------------------------------------

  function WordCountBaseVolume(wordCount: int): real
  {
    if wordCount == 1 then 50000.0
    else if wordCount == 2 then 15000.0
    else if wordCount == 3 then 5000.0
    else if wordCount == 4 then 2000.0
    else if wordCount >= 5 then 800.0
    else 1000.0
  }

  /** The intent adjustment; navigational intent leaves the volume as it is. */
  function ScaleForIntent(v: real, intent: Intent): real
  {
    match intent
    case Informational => v * 1.5
    case Commercial => v * 1.2
    case Transactional => v * 0.8
    case Navigational => v
  }

  function ScaleForQuestion(v: real, keyword: string): real
  {
    if IsQuestion(keyword) then v * 1.3 else v
  }

  function ScaleForGeo(v: real, lower: string): real
  {
    if ContainsAny(lower, GeoModifiers) then v * 0.7 else v
  }

  /** `v` scaled by the value of the first entry of `table` whose key occurs
      in `s`; unchanged when there is none. */
  function ScaleByFirstMatch(v: real, s: string, table: seq<(string, real)>): real
  {
    var k := FirstMatch(s, table);
    if k < |table| then v * table[k].1 else v
  }

  /** A scan that stops at index `i` with no earlier key found has found the
      first match. */
  lemma FirstMatchStop<V>(s: string, table: seq<(string, V)>, i: nat)
    requires i <= FirstMatch(s, table) && i <= |table|
    requires i == |table| || Contains(s, table[i].0)
    ensures i == FirstMatch(s, table)
  {
  }

  /** A scan of `table` in order that stops at the first key occurring in `s`. */
  method FirstMatchScan<V>(s: string, table: seq<(string, V)>) returns (k: nat)
    ensures k == FirstMatch(s, table)
  {
    k := 0;
    while k < |table| && !Contains(s, table[k].0)
      invariant k <= FirstMatch(s, table) && k <= |table|
    {
      FirstMatchStep(s, table, k);
      k := k + 1;
    }
    FirstMatchStop(s, table, k);
  }

  /** The loop `for (const [key, factor] of entries) if (s.includes(key)) {
      v *= factor; break; }` over the entries of `table`, in order. */
  method ScaleByFirstMatchScan(v: real, s: string, table: seq<(string, real)>) returns (r: real)
    ensures r == ScaleByFirstMatch(v, s, table)
  {
    r := v;
    var i := 0;
    while i < |table|
      invariant i <= FirstMatch(s, table) && i <= |table|
      invariant r == v
    {
      if Contains(s, table[i].0) {
        r := r * table[i].1;
        break;
      }
      FirstMatchStep(s, table, i);
      i := i + 1;
    }
    FirstMatchStop(s, table, i);
  }

  /** The volume before the random variance: the word-count base scaled for
      intent, question form, industry and geographic modifiers, in that order. */
  function BaseVolume(keyword: string, wordCount: int, intent: Intent): (v: real)
  {
    var lower := ToLower(keyword);
    var v1 := ScaleForIntent(WordCountBaseVolume(wordCount), intent);
    var v2 := ScaleForQuestion(v1, keyword);
    ScaleForGeo(ScaleByFirstMatch(v2, lower, IndustryMultipliers), lower)
  }

  /** The multiplier of the first industry term the lower-cased keyword
      contains, 1 when there is none. */
  function IndustryMultiplier(lower: string): (m: real)
    ensures 1.0 <= m <= 2.5
  {
    var k := FirstMatch(lower, IndustryMultipliers);
    if k < |IndustryMultipliers| then IndustryMultipliers[k].1 else 1.0
  }

  lemma ScaleByIndustry(v: real, lower: string)
    ensures ScaleByFirstMatch(v, lower, IndustryMultipliers) == v * IndustryMultiplier(lower)
  {
  }

  lemma PreIndustryVolumeBounds(keyword: string, wordCount: int, intent: Intent)
    ensures 640.0 <= ScaleForQuestion(ScaleForIntent(WordCountBaseVolume(wordCount), intent), keyword) <= 97500.0
  {
  }

  /** For every keyword, word count and intent the base volume lies between
      448 and 243750. Both ends are reached by some parameter values, but the
      upper one needs a one-word question, which a trimmed keyword cannot be
      (a question word followed by a space leaves at least two words), so no
      record of the engine reaches it. */
  lemma BaseVolumeBounds(keyword: string, wordCount: int, intent: Intent)
    ensures 448.0 <= BaseVolume(keyword, wordCount, intent) <= 243750.0
  {
    var lower := ToLower(keyword);
    var v2 := ScaleForQuestion(ScaleForIntent(WordCountBaseVolume(wordCount), intent), keyword);
    PreIndustryVolumeBounds(keyword, wordCount, intent);
    ScaleByIndustry(v2, lower);
    ScaleBounds(640.0, 97500.0, v2, 1.0, 2.5, IndustryMultiplier(lower));
    var v3 := ScaleByFirstMatch(v2, lower, IndustryMultipliers);
    assert 640.0 <= v3 <= 243750.0;
    assert BaseVolume(keyword, wordCount, intent) == ScaleForGeo(v3, lower);
  }

  /** Rounding to a "clean" figure: thousands from 10000 on, hundreds from
      1000 on, tens below. */
  function CleanRound(n: int): (r: int)
    ensures r % 10 == 0
    ensures n >= 10000 ==> r % 1000 == 0 && n - 500 < r <= n + 500
    ensures 1000 <= n < 10000 ==> r % 100 == 0 && n - 50 < r <= n + 50
    ensures n < 1000 ==> n - 5 < r <= n + 5
  {
    if n >= 10000 then
      RoundToThousand(n);
      Round(n as real / 1000.0) * 1000
    else if n >= 1000 then
      RoundToHundred(n);
      Round(n as real / 100.0) * 100
    else
      RoundToTen(n);
      Round(n as real / 10.0) * 10
  }

  /** A base volume scaled by the variance draw, rounded to a clean figure
      and floored at 10. */
  function VolumeFromBase(base: real, variance: real): (v: int)
    ensures v >= 10 && v % 10 == 0
  {
    Max(10, CleanRound(Round(base * variance)))
  }

  /** The estimated monthly search volume for a given draw of the variance. */
  function SearchVolume(keyword: string, wordCount: int, intent: Intent, variance: real): (v: int)
    ensures v >= 10 && v % 10 == 0
  {
    VolumeFromBase(BaseVolume(keyword, wordCount, intent), variance)
  }

  /** The search-volume estimate up to the random variance. */
  method EstimateBaseVolume(keyword: string, wordCount: int, intent: Intent) returns (baseVolume: real)
    ensures baseVolume == BaseVolume(keyword, wordCount, intent)
  {
    baseVolume := 1000.0;
    if wordCount == 1 {
      baseVolume := 50000.0;
    } else if wordCount == 2 {
      baseVolume := 15000.0;
    } else if wordCount == 3 {
      baseVolume := 5000.0;
    } else if wordCount == 4 {
      baseVolume := 2000.0;
    } else if wordCount >= 5 {
      baseVolume := 800.0;
    }

    if intent == Informational {
      baseVolume := baseVolume * 1.5;
    } else if intent == Commercial {
      baseVolume := baseVolume * 1.2;
    } else if intent == Transactional {
      baseVolume := baseVolume * 0.8;
    }

    assert baseVolume == ScaleForIntent(WordCountBaseVolume(wordCount), intent);

    if IsQuestion(keyword) {
      baseVolume := baseVolume * 1.3;
    }
    assert baseVolume == ScaleForQuestion(ScaleForIntent(WordCountBaseVolume(wordCount), intent), keyword);

    var lower := ToLower(keyword);
    baseVolume := ScaleByFirstMatchScan(baseVolume, lower, IndustryMultipliers);

    if ContainsAny(lower, GeoModifiers) {
      baseVolume := baseVolume * 0.7;
    }
  }

  /** The last steps of the volume estimate: the variance draw, the clean
      rounding and the floor of 10. */
  method RoundVolume(baseVolume: real, variance: real) returns (volume: int)
    ensures volume == VolumeFromBase(baseVolume, variance)
  {
    var rounded := Round(baseVolume * variance);
    if rounded >= 10000 {
      rounded := Round(rounded as real / 1000.0) * 1000;
    } else if rounded >= 1000 {
      rounded := Round(rounded as real / 100.0) * 100;
    } else {
      rounded := Round(rounded as real / 10.0) * 10;
    }
    volume := Max(10, rounded);
  }

  method EstimateSearchVolume(keyword: string, wordCount: int, intent: Intent, variance: real)
    returns (volume: int)
    requires 0.8 <= variance <= 1.2
    ensures volume == SearchVolume(keyword, wordCount, intent, variance)
  {
    var baseVolume := EstimateBaseVolume(keyword, wordCount, intent);
    volume := RoundVolume(baseVolume, variance);
  }

  lemma CleanRoundMonotone(n: int, m: int)
    requires n <= m
    ensures CleanRound(n) <= CleanRound(m)
  {
    RoundMonotone(n as real / 1000.0, m as real / 1000.0);
    RoundMonotone(n as real / 100.0, m as real / 100.0);
    RoundMonotone(n as real / 10.0, m as real / 10.0);
    if n < 10000 <= m {
      RoundMonotone(10.0, m as real / 1000.0);
      RoundOfInteger(10);
      if n >= 1000 {
        RoundMonotone(n as real / 100.0, 100.0);
        RoundOfInteger(100);
      } else {
        RoundMonotone(n as real / 10.0, 100.0);
        RoundOfInteger(100);
      }
    } else if n < 1000 <= m < 10000 {
      RoundMonotone(10.0, m as real / 100.0);
      RoundOfInteger(10);
      RoundMonotone(n as real / 10.0, 100.0);
      RoundOfInteger(100);
    }
  }

  /** A larger base or a larger draw of the variance never gives a smaller
      volume. */
  lemma VolumeFromBaseMonotone(b1: real, b2: real, v1: real, v2: real)
    requires 0.0 <= b1 <= b2 && 0.0 <= v1 <= v2
    ensures VolumeFromBase(b1, v1) <= VolumeFromBase(b2, v2)
  {
    MulMonotone(b1, b2, v1);
    MulMonotone(v1, v2, b2);
    RoundMonotone(b1 * v1, b2 * v2);
    CleanRoundMonotone(Round(b1 * v1), Round(b2 * v2));
  }

  /** A larger draw of the variance never gives a smaller volume. */
  lemma SearchVolumeMonotoneInVariance(keyword: string, wordCount: int, intent: Intent, v1: real, v2: real)
    requires 0.0 <= v1 <= v2
    ensures SearchVolume(keyword, wordCount, intent, v1) <= SearchVolume(keyword, wordCount, intent, v2)
  {
    var base := BaseVolume(keyword, wordCount, intent);
    BaseVolumeBounds(keyword, wordCount, intent);
    VolumeFromBaseMonotone(base, base, v1, v2);
  }

  /** With the variance drawn from [0.8, 1.2] the estimate lies between 360
      and 293000, for every keyword, word count and intent; as with the base
      volume, the upper end is not reached by a record of the engine. */
  lemma SearchVolumeBounds(keyword: string, wordCount: int, intent: Intent, variance: real)
    requires 0.8 <= variance <= 1.2
    ensures 360 <= SearchVolume(keyword, wordCount, intent, variance) <= 293000
  {
    var base := BaseVolume(keyword, wordCount, intent);
    BaseVolumeBounds(keyword, wordCount, intent);
    VolumeFromBaseMonotone(448.0, base, 0.8, variance);
    VolumeFromBaseMonotone(base, 243750.0, variance, 1.2);
    assert VolumeFromBase(448.0, 0.8) == 360;
    assert VolumeFromBase(243750.0, 1.2) == 293000;
  }

  // ---------------------------------------------------------------------
  // Difficulty
  // ---------------------------------------------------------------------

  function WordCountDifficulty(wordCount: int): int
  {
    if wordCount == 1 then 40
    else if wordCount == 2 then 25
    else if wordCount == 3 then 10
    else if wordCount == 4 then -10
    else if wordCount >= 5 then -25
    else 0
  }

  /** The adjustments from the keyword's wording: question form, commercial
      and transactional terms. */
  function WordingDifficulty(keyword: string): int
  {
    var lower := ToLower(keyword);
    (if IsQuestion(keyword) then -15 else 0)
    + 5 * CountContaining(lower, CommercialIndicators)
    + (if ContainsAny(lower, TransactionalIndicators) then 15 else 0)
  }

  /** The adjustments from proper nouns, digits and years. */
  function SpecificityDifficulty(keyword: string, wordCount: int): int
  {
    (if HasCapital(keyword) && wordCount >= 2 then -10 else 0)
    + (if HasDigit(keyword) then -8 else 0)
    + (if HasYear(keyword) then -5 else 0)
  }

  /** The adjustments from technical, geographic and comparison terms. */
  function NicheDifficulty(keyword: string, wordCount: int): int
  {
    var lower := ToLower(keyword);
    (if ContainsAny(lower, TechnicalPatterns) && wordCount >= 3 then -12 else 0)
    + (if ContainsAny(lower, GeoModifiers) then -8 else 0)
    + (if Contains(lower, " vs ") || Contains(lower, " versus ") then 10 else 0)
  }

  /** The difficulty before clamping: 50 plus one adjustment per signal. */
  function RawDifficulty(keyword: string, wordCount: int): int
  {
    50 + WordCountDifficulty(wordCount) + WordingDifficulty(keyword)
    + SpecificityDifficulty(keyword, wordCount) + NicheDifficulty(keyword, wordCount)
  }

  /** Keyword difficulty: a function of the keyword and its word count only. */
  function Difficulty(keyword: string, wordCount: int): (d: int)
    ensures 0 <= d <= 100
    ensures 0 <= RawDifficulty(keyword, wordCount) <= 100 ==> d == RawDifficulty(keyword, wordCount)
  {
    Clamp(0, 100, RawDifficulty(keyword, wordCount))
  }

  /** The `intent` argument is accepted and, as in the source, not used. */
  method CalculateDifficulty(keyword: string, wordCount: int, intent: Intent) returns (difficulty: int)
    ensures difficulty == Difficulty(keyword, wordCount)
  {
    var d: int := 50;
    d := AdjustForWordCount(d, wordCount);
    var lower := ToLower(keyword);
    d := AdjustForWording(d, keyword, lower);
    d := AdjustForSpecificity(d, keyword, wordCount);
    d := AdjustForNiche(d, keyword, lower, wordCount);
    assert d == RawDifficulty(keyword, wordCount);

    RoundOfInteger(d);
    difficulty := Clamp(0, 100, Round(d as real));
  }

  /** The word-count branch of the difficulty estimate. */
  method AdjustForWordCount(d0: int, wordCount: int) returns (d: int)
    ensures d == d0 + WordCountDifficulty(wordCount)
  {
    d := d0;
    if wordCount == 1 {
      d := d + 40;
    } else if wordCount == 2 {
      d := d + 25;
    } else if wordCount == 3 {
      d := d + 10;
    } else if wordCount == 4 {
      d := d - 10;
    } else if wordCount >= 5 {
      d := d - 25;
    }
  }

  /** The question, commercial and transactional steps of the difficulty
      estimate; `lower` is the lower-cased keyword. */
  method AdjustForWording(d0: int, keyword: string, lower: string) returns (d: int)
    requires lower == ToLower(keyword)
    ensures d == d0 + WordingDifficulty(keyword)
  {
    d := d0;
    if IsQuestion(keyword) {
      d := d - 15;
    }

    var commercialCount := CountContaining(lower, CommercialIndicators);
    d := d + commercialCount * 5;

    if ContainsAny(lower, TransactionalIndicators) {
      d := d + 15;
    }
  }

  /** The proper-noun, digit and year steps of the difficulty estimate. */
  method AdjustForSpecificity(d0: int, keyword: string, wordCount: int) returns (d: int)
    ensures d == d0 + SpecificityDifficulty(keyword, wordCount)
  {
    d := d0;
    if HasCapital(keyword) && wordCount >= 2 {
      d := d - 10;
    }
    if HasDigit(keyword) {
      d := d - 8;
    }
    if HasYear(keyword) {
      d := d - 5;
    }
  }

  /** The technical, geographic and comparison steps of the difficulty
      estimate; `lower` is the lower-cased keyword. */
  method AdjustForNiche(d0: int, keyword: string, lower: string, wordCount: int) returns (d: int)
    requires lower == ToLower(keyword)
    ensures d == d0 + NicheDifficulty(keyword, wordCount)
  {
    d := d0;
    if ContainsAny(lower, TechnicalPatterns) && wordCount >= 3 {
      d := d - 12;
    }
    if ContainsAny(lower, GeoModifiers) {
      d := d - 8;
    }
    if Contains(lower, " vs ") || Contains(lower, " versus ") {
      d := d + 10;
    }
  }

  // ---------------------------------------------------------------------
  // Opportunity score
  // ---------------------------------------------------------------------

  /** 60% ease plus 40% of the log-scaled volume (capped at 100). */
  function OpportunityScore(searchVolume: int, difficulty: int, log10: real -> real): (score: int)
    ensures IsLog10(log10) && searchVolume >= 10 && 0 <= difficulty <= 100 ==> 8 <= score <= 100
  {
    var normalizedVolume := MinReal(100.0, log10(searchVolume as real) * 20.0);
    var easiness := 100 - difficulty;
    assert IsLog10(log10) && searchVolume >= 10 ==> log10(searchVolume as real) >= 1.0;
    Round(easiness as real * 0.6 + normalizedVolume * 0.4)
  }

  /** Easier keywords and larger volumes never lower the score. */
  lemma OpportunityScoreMonotone(v1: int, v2: int, d1: int, d2: int, log10: real -> real)
    requires IsLog10(log10)
    requires 0 < v1 <= v2 && d2 <= d1
    ensures OpportunityScore(v1, d1, log10) <= OpportunityScore(v2, d2, log10)
  {
    assert log10(v1 as real) <= log10(v2 as real);
    var n1 := MinReal(100.0, log10(v1 as real) * 20.0);
    var n2 := MinReal(100.0, log10(v2 as real) * 20.0);
    RoundMonotone((100 - d1) as real * 0.6 + n1 * 0.4, (100 - d2) as real * 0.6 + n2 * 0.4);
  }

  // ---------------------------------------------------------------------
  // Cost per click
  // ---------------------------------------------------------------------

  /** The intent adjustment of the CPC; informational and navigational
      intent leave it as it is. */
  function ScaleCpcForIntent(v: real, intent: Intent): real
  {
    match intent
    case Transactional => v * 4.0
    case Commercial => v * 2.5
    case Informational => v
    case Navigational => v
  }

  /** The industry adjustment of the CPC: legal and insurance terms first, then
      finance, then software and services. */
  function ScaleCpcForIndustry(v: real, lower: string): real
  {
    if Contains(lower, "insurance") || Contains(lower, "lawyer") || Contains(lower, "attorney") then v * 8.0
    else if Contains(lower, "finance") || Contains(lower, "loan") || Contains(lower, "mortgage") then v * 5.0
    else if Contains(lower, "software") || Contains(lower, "saas") || Contains(lower, "service") then v * 3.0
    else v
  }

  /** The CPC before rounding: 0.50 dollars, scaled for intent, then by
      1 + difficulty / 200, then for the industry. */
  function UnroundedCpc(keyword: string, intent: Intent, difficulty: int): real
  {
    ScaleCpcForIndustry(ScaleCpcForIntent(0.5, intent) * (1.0 + difficulty as real / 200.0), ToLower(keyword))
  }

  /** Rounding to cents, as `Math.round(x * 100) / 100`. */
  function ToCents(x: real): (r: real)
    ensures (r * 100.0).Floor as real == r * 100.0
    ensures x - 0.005 < r <= x + 0.005
  {
    Round(x * 100.0) as real / 100.0
  }

  /** The CPC estimate, in dollars, rounded to cents. */
  function Cpc(keyword: string, intent: Intent, difficulty: int): (cpc: real)
    ensures (cpc * 100.0).Floor as real == cpc * 100.0
  {
    ToCents(UnroundedCpc(keyword, intent, difficulty))
  }

  /** For a difficulty in 0..100 the CPC lies between 0.50 (informational,
      no premium industry, difficulty 0) and 24.00 (transactional, legal or
      insurance, difficulty 100). */
  lemma CpcBounds(keyword: string, intent: Intent, difficulty: int)
    requires 0 <= difficulty <= 100
    ensures 0.5 <= Cpc(keyword, intent, difficulty) <= 24.0
  {
    var a := ScaleCpcForIntent(0.5, intent);
    var f := 1.0 + difficulty as real / 200.0;
    assert 0.5 <= a <= 2.0 && 1.0 <= f <= 1.5;
    ScaleBounds(0.5, 2.0, a, 1.0, 1.5, f);
    var c := UnroundedCpc(keyword, intent, difficulty);
    assert 0.5 <= c <= 24.0;
    RoundMonotone(50.0, c * 100.0);
    RoundMonotone(c * 100.0, 2400.0);
    RoundOfInteger(50);
    RoundOfInteger(2400);
  }

  /** A harder keyword never gets a lower CPC. */
  lemma CpcMonotoneInDifficulty(keyword: string, intent: Intent, d1: int, d2: int)
    requires 0 <= d1 <= d2
    ensures Cpc(keyword, intent, d1) <= Cpc(keyword, intent, d2)
  {
    var a := ScaleCpcForIntent(0.5, intent);
    MulMonotone(1.0 + d1 as real / 200.0, 1.0 + d2 as real / 200.0, a);
    ScaleCpcForIndustryMonotone(a * (1.0 + d1 as real / 200.0), a * (1.0 + d2 as real / 200.0), ToLower(keyword));
    var c1 := UnroundedCpc(keyword, intent, d1);
    var c2 := UnroundedCpc(keyword, intent, d2);
    RoundMonotone(c1 * 100.0, c2 * 100.0);
  }

  /** The industry adjustment is a non-negative factor, so it keeps order. */
  lemma ScaleCpcForIndustryMonotone(v1: real, v2: real, lower: string)
    requires v1 <= v2
    ensures ScaleCpcForIndustry(v1, lower) <= ScaleCpcForIndustry(v2, lower)
  {
  }

  /** The premium-industry multiplier of `estimateCPC`. */
  method ScaleCpcForIndustryStep(v: real, lower: string) returns (r: real)
    ensures r == ScaleCpcForIndustry(v, lower)
  {
    r := v;
    if Contains(lower, "insurance") || Contains(lower, "lawyer") || Contains(lower, "attorney") {
      r := r * 8.0;
    } else if Contains(lower, "finance") || Contains(lower, "loan") || Contains(lower, "mortgage") {
      r := r * 5.0;
    } else if Contains(lower, "software") || Contains(lower, "saas") || Contains(lower, "service") {
      r := r * 3.0;
    }
  }

  method EstimateCpc(keyword: string, intent: Intent, difficulty: int) returns (cpc: real)
    ensures cpc == Cpc(keyword, intent, difficulty)
  {
    var baseCpc := 0.50;
    if intent == Transactional {
      baseCpc := baseCpc * 4.0;
    } else if intent == Commercial {
      baseCpc := baseCpc * 2.5;
    } else if intent == Informational {
      baseCpc := baseCpc * 1.0;
    }
    assert baseCpc == ScaleCpcForIntent(0.5, intent);

    baseCpc := baseCpc * (1.0 + difficulty as real / 200.0);

    baseCpc := ScaleCpcForIndustryStep(baseCpc, ToLower(keyword));
    assert baseCpc == UnroundedCpc(keyword, intent, difficulty);

    cpc := Round(baseCpc * 100.0) as real / 100.0;
  }

  // ---------------------------------------------------------------------
  // Content length
  // ---------------------------------------------------------------------

  function DifficultyLengthTier(difficulty: int): int
  {
    if difficulty >= 80 then 3000
    else if difficulty >= 60 then 2500
    else if difficulty >= 40 then 2000
    else if difficulty >= 20 then 1500
    else 1200
  }

  function IntentLengthAdjustment(intent: Intent): int
  {
    match intent
    case Informational => 500
    case Transactional => -300
    case Commercial => 0
    case Navigational => 0
  }

  /** Recommended article length in words. */
  function ContentLength(keyword: string, difficulty: int, intent: Intent): (words: int)
    ensures 900 <= words <= 3900
  {
    DifficultyLengthTier(difficulty) + IntentLengthAdjustment(intent)
    + (if IsQuestion(keyword) then 400 else 0)
  }

  /** A harder keyword never gets a shorter recommendation. */
  lemma ContentLengthMonotone(keyword: string, d1: int, d2: int, intent: Intent)
    requires d1 <= d2
    ensures ContentLength(keyword, d1, intent) <= ContentLength(keyword, d2, intent)
  {
  }

  method RecommendContentLength(keyword: string, difficulty: int, intent: Intent) returns (baseLength: int)
    ensures baseLength == ContentLength(keyword, difficulty, intent)
  {
    baseLength := 1200;
    if difficulty >= 80 {
      baseLength := 3000;
    } else if difficulty >= 60 {
      baseLength := 2500;
    } else if difficulty >= 40 {
      baseLength := 2000;
    } else if difficulty >= 20 {
      baseLength := 1500;
    }

    if intent == Informational {
      baseLength := baseLength + 500;
    } else if intent == Transactional {
      baseLength := baseLength - 300;
    }

    if IsQuestion(keyword) {
      baseLength := baseLength + 400;
    }
  }

  // ---------------------------------------------------------------------
  // Seasonality
  // ---------------------------------------------------------------------

  /** The score of the first seasonal term the keyword contains; failing that
      50 for a year from 2024 to 2039, else 0. */
  function Seasonality(keyword: string): (score: int)
    ensures 0 <= score <= 100
  {
    var lower := ToLower(keyword);
    var k := FirstMatch(lower, SeasonalTerms);
    if k < |SeasonalTerms| then SeasonalTerms[k].1
    else if HasRecentYear(keyword) then 50
    else 0
  }

  /** The first seasonal term the lower-cased keyword contains decides the
      score; without one, a year from 2024 to 2039 gives 50 and anything else 0. */
  lemma SeasonalityFirstMatch(keyword: string)
    ensures var lower := ToLower(keyword);
      forall i :: 0 <= i < |SeasonalTerms| && Contains(lower, SeasonalTerms[i].0)
                  && (forall j :: 0 <= j < i ==> !Contains(lower, SeasonalTerms[j].0))
                  ==> Seasonality(keyword) == SeasonalTerms[i].1
    ensures var lower := ToLower(keyword);
      (forall i :: 0 <= i < |SeasonalTerms| ==> !Contains(lower, SeasonalTerms[i].0))
      ==> Seasonality(keyword) == (if HasRecentYear(keyword) then 50 else 0)
  {
  }

  method CalculateSeasonality(keyword: string) returns (score: int)
    ensures score == Seasonality(keyword)
  {
    var lower := ToLower(keyword);
    var k := FirstMatchScan(lower, SeasonalTerms);
    if k < |SeasonalTerms| {
      return SeasonalTerms[k].1;
    }
    if HasRecentYear(keyword) {
      return 50;
    }
    return 0;
  }

  // ---------------------------------------------------------------------
  // Labels and the assembled record
  // ---------------------------------------------------------------------

  function DifficultyLabelOf(difficulty: int): (l: DifficultyLabel)
    ensures l == Easy <==> difficulty < 30
    ensures l == Medium <==> 30 <= difficulty < 60
    ensures l == Hard <==> 60 <= difficulty < 80
    ensures l == VeryHard <==> 80 <= difficulty
  {
    if difficulty < 30 then Easy
    else if difficulty < 60 then Medium
    else if difficulty < 80 then Hard
    else VeryHard
  }

  function CompetitionOf(difficulty: int): (c: Competition)
    ensures c == LowCompetition <==> difficulty < 40
    ensures c == MediumCompetition <==> 40 <= difficulty < 70
    ensures c == HighCompetition <==> 70 <= difficulty
  {
    if difficulty < 40 then LowCompetition
    else if difficulty < 70 then MediumCompetition
    else HighCompetition
  }

  function PriorityOf(opportunityScore: int): (p: Priority)
    ensures p == HighPriority <==> 70 <= opportunityScore
    ensures p == MediumPriority <==> 40 <= opportunityScore < 70
    ensures p == LowPriority <==> opportunityScore < 40
  {
    if opportunityScore >= 70 then HighPriority
    else if opportunityScore >= 40 then MediumPriority
    else LowPriority
  }

  function VolumeRangeOf(searchVolume: int): (r: VolumeRange)
    ensures r == Over100K <==> 100000 <= searchVolume
    ensures r == From10KTo100K <==> 10000 <= searchVolume < 100000
    ensures r == From1KTo10K <==> 1000 <= searchVolume < 10000
    ensures r == From100To1K <==> 100 <= searchVolume < 1000
    ensures r == Under100 <==> searchVolume < 100
  {
    if searchVolume >= 100000 then Over100K
    else if searchVolume >= 10000 then From10KTo100K
    else if searchVolume >= 1000 then From1KTo10K
    else if searchVolume >= 100 then From100To1K
    else Under100
  }

  /** Every label of the record agrees with the numeric field it is derived from. */
  predicate LabelsMatch(m: KeywordMetrics)
  {
    (m.difficultyLabel == Easy <==> m.difficulty < 30)
    && (m.difficultyLabel == Medium <==> 30 <= m.difficulty < 60)
    && (m.difficultyLabel == Hard <==> 60 <= m.difficulty < 80)
    && (m.difficultyLabel == VeryHard <==> 80 <= m.difficulty)
    && (m.competition == LowCompetition <==> m.difficulty < 40)
    && (m.competition == MediumCompetition <==> 40 <= m.difficulty < 70)
    && (m.competition == HighCompetition <==> 70 <= m.difficulty)
    && (m.priority == HighPriority <==> 70 <= m.opportunityScore)
    && (m.priority == MediumPriority <==> 40 <= m.opportunityScore < 70)
    && (m.priority == LowPriority <==> m.opportunityScore < 40)
    && (m.searchVolumeRange == Over100K <==> 100000 <= m.searchVolume)
    && (m.searchVolumeRange == From10KTo100K <==> 10000 <= m.searchVolume < 100000)
    && (m.searchVolumeRange == From1KTo10K <==> 1000 <= m.searchVolume < 10000)
    && (m.searchVolumeRange == From100To1K <==> 100 <= m.searchVolume < 1000)
    && (m.searchVolumeRange == Under100 <==> m.searchVolume < 100)
  }

  /** The record the engine produces for `keyword` and one draw of the variance. */
  function Metrics(keyword: string, variance: real, log10: real -> real): (m: KeywordMetrics)
    ensures m.keyword == Trim(keyword)
  {
    var trimmed := Trim(keyword);
    RecordFor(trimmed, WordCount(trimmed), DetermineIntent(trimmed), variance, log10)
  }

  /** The record for an already trimmed keyword, given its word count and
      intent. */
  function RecordFor(trimmed: string, wordCount: int, intent: Intent, variance: real, log10: real -> real): KeywordMetrics
  {
    var searchVolume := SearchVolume(trimmed, wordCount, intent, variance);
    var difficulty := Difficulty(trimmed, wordCount);
    var opportunityScore := OpportunityScore(searchVolume, difficulty, log10);
    KeywordMetrics(
      keyword := trimmed,
      searchVolume := searchVolume,
      searchVolumeRange := VolumeRangeOf(searchVolume),
      trafficPotential := Round(searchVolume as real * 0.30),
      difficulty := difficulty,
      difficultyLabel := DifficultyLabelOf(difficulty),
      competition := CompetitionOf(difficulty),
      keywordType := DetermineKeywordType(trimmed, wordCount),
      wordCount := wordCount,
      intent := intent,
      opportunityScore := opportunityScore,
      priority := PriorityOf(opportunityScore),
      estimatedCpc := Cpc(trimmed, intent, difficulty),
      contentLengthRecommendation := ContentLength(trimmed, difficulty, intent),
      hasFeaturedSnippetPotential := HasFeaturedSnippetPotential(trimmed, intent),
      seasonalityScore := Seasonality(trimmed))
  }

  /** Thirty percent of a multiple of ten is a whole number, so no rounding
      happens. */
  lemma TrafficPotentialExact(searchVolume: int)
    requires searchVolume % 10 == 0
    ensures Round(searchVolume as real * 0.30) == searchVolume / 10 * 3
  {
    var tens := searchVolume / 10;
    assert searchVolume as real * 0.30 == (tens * 3) as real;
    RoundOfInteger(tens * 3);
  }

  /** The word count and the keyword type of a record: a trimmed keyword's
      `split(/\s+/)` count is its number of tokens, and question-form keywords
      are typed as questions and always have snippet potential. */
  lemma MetricsShape(keyword: string, variance: real, log10: real -> real)
    ensures var m := Metrics(keyword, variance, log10);
      m.wordCount >= 1
      && (m.keyword != [] ==> m.wordCount == TokenCount(m.keyword))
      && (m.keywordType == Question <==> IsQuestion(m.keyword))
      && (m.keywordType == Question ==> m.hasFeaturedSnippetPotential)
  {
    var trimmed := Trim(keyword);
    if trimmed != [] {
      WordCountIsTokenCount(trimmed);
    }
  }

  /** A record's search volume is a multiple of ten within its range, and its
      traffic potential is exactly thirty percent of it. */
  lemma MetricsVolumeRanges(keyword: string, variance: real, log10: real -> real)
    requires 0.8 <= variance <= 1.2
    ensures var m := Metrics(keyword, variance, log10);
      360 <= m.searchVolume <= 293000 && m.searchVolume % 10 == 0
      && m.trafficPotential == m.searchVolume / 10 * 3
  {
    var m := Metrics(keyword, variance, log10);
    SearchVolumeBounds(m.keyword, m.wordCount, m.intent, variance);
    TrafficPotentialExact(m.searchVolume);
  }

  /** Every score of a record stays in its documented range. */
  lemma MetricsScoreRanges(keyword: string, variance: real, log10: real -> real)
    requires 0.8 <= variance <= 1.2
    ensures var m := Metrics(keyword, variance, log10);
      0 <= m.difficulty <= 100
      && (IsLog10(log10) ==> 8 <= m.opportunityScore <= 100)
      && 0.5 <= m.estimatedCpc <= 24.0
      && 900 <= m.contentLengthRecommendation <= 3900
      && 0 <= m.seasonalityScore <= 100
  {
    var m := Metrics(keyword, variance, log10);
    SearchVolumeBounds(m.keyword, m.wordCount, m.intent, variance);
    CpcBounds(m.keyword, m.intent, m.difficulty);
  }

  /** Every label of a record agrees with the numeric field it is derived from. */
  lemma MetricsLabels(keyword: string, variance: real, log10: real -> real)
    ensures LabelsMatch(Metrics(keyword, variance, log10))
  {
    var m := Metrics(keyword, variance, log10);
    assert m.difficultyLabel == DifficultyLabelOf(m.difficulty);
    assert m.competition == CompetitionOf(m.difficulty);
    assert m.priority == PriorityOf(m.opportunityScore);
    assert m.searchVolumeRange == VolumeRangeOf(m.searchVolume);
  }

  /** The variance draw moves only the volume and what is derived from it;
      `log10` moves only the score and the priority. */
  lemma VarianceAffectsOnlyVolumeFields(keyword: string, v1: real, v2: real, log1: real -> real, log2: real -> real)
    ensures var m1, m2 := Metrics(keyword, v1, log1), Metrics(keyword, v2, log2);
      m1.keyword == m2.keyword && m1.wordCount == m2.wordCount
      && m1.difficulty == m2.difficulty && m1.difficultyLabel == m2.difficultyLabel
      && m1.competition == m2.competition && m1.keywordType == m2.keywordType
      && m1.intent == m2.intent && m1.estimatedCpc == m2.estimatedCpc
      && m1.contentLengthRecommendation == m2.contentLengthRecommendation
      && m1.hasFeaturedSnippetPotential == m2.hasFeaturedSnippetPotential
      && m1.seasonalityScore == m2.seasonalityScore
    ensures v1 == v2 ==> Metrics(keyword, v1, log1).searchVolume == Metrics(keyword, v2, log2).searchVolume
  {
  }

  method AnalyzeKeyword(keyword: string, variance: real, log10: real -> real) returns (m: KeywordMetrics)
    requires 0.8 <= variance <= 1.2
    ensures m == Metrics(keyword, variance, log10)
  {
    var trimmedKeyword := Trim(keyword);
    var wordCount := WordCount(trimmedKeyword);
    var intent := DetermineIntent(trimmedKeyword);

    m := AssembleMetrics(trimmedKeyword, wordCount, intent, variance, log10);
  }

  /** The estimator calls and the record literal of `analyzeKeyword`, once the
      keyword is trimmed and its word count and intent are known. */
  method AssembleMetrics(trimmedKeyword: string, wordCount: int, intent: Intent, variance: real, log10: real -> real)
    returns (m: KeywordMetrics)
    requires 0.8 <= variance <= 1.2
    ensures m == RecordFor(trimmedKeyword, wordCount, intent, variance, log10)
  {
    var searchVolume := EstimateSearchVolume(trimmedKeyword, wordCount, intent, variance);
    var difficulty := CalculateDifficulty(trimmedKeyword, wordCount, intent);
    var opportunityScore := OpportunityScore(searchVolume, difficulty, log10);

    var keywordType := DetermineKeywordType(trimmedKeyword, wordCount);
    var difficultyLabel := DifficultyLabelOf(difficulty);
    var competition := CompetitionOf(difficulty);
    var priority := PriorityOf(opportunityScore);
    var searchVolumeRange := VolumeRangeOf(searchVolume);

    var trafficPotential := Round(searchVolume as real * 0.30);

    var cpc := EstimateCpc(trimmedKeyword, intent, difficulty);
    var contentLength := RecommendContentLength(trimmedKeyword, difficulty, intent);
    var snippet := HasFeaturedSnippetPotential(trimmedKeyword, intent);
    var seasonality := CalculateSeasonality(trimmedKeyword);

    m := KeywordMetrics(
      keyword := trimmedKeyword,
      searchVolume := searchVolume,
      searchVolumeRange := searchVolumeRange,
      trafficPotential := trafficPotential,
      difficulty := difficulty,
      difficultyLabel := difficultyLabel,
      competition := competition,
      keywordType := keywordType,
      wordCount := wordCount,
      intent := intent,
      opportunityScore := opportunityScore,
      priority := priority,
      estimatedCpc := cpc,
      contentLengthRecommendation := contentLength,
      hasFeaturedSnippetPotential := snippet,
      seasonalityScore := seasonality);
  }

  // ---------------------------------------------------------------------
  // Batch ranking
  // ---------------------------------------------------------------------

  /** The per-keyword records, in input order. */
  function Analyses(keywords: seq<string>, variances: seq<real>, log10: real -> real): seq<KeywordMetrics>
    requires |variances| == |keywords|
  {
    seq(|keywords|, i requires 0 <= i < |keywords| => Metrics(keywords[i], variances[i], log10))
  }

  predicate SortedByOpportunity(s: seq<KeywordMetrics>)
  {
    forall p, q :: 0 <= p < q < |s| ==> s[p].opportunityScore >= s[q].opportunityScore
  }

  /** Sorts in place by opportunity score, highest first. */
  method SortByOpportunity(a: array<KeywordMetrics>)
    modifies a
    ensures SortedByOpportunity(a[..])
    ensures multiset(a[..]) == multiset(old(a[..]))
  {
    for i := 0 to a.Length
      invariant SortedByOpportunity(a[..i])
      invariant multiset(a[..]) == multiset(old(a[..]))
    {
      InsertLast(a, i);
    }
    assert a[..] == a[..a.Length];
  }

  /** Moves `a[i]` down into the sorted prefix `a[..i]`. */
  method InsertLast(a: array<KeywordMetrics>, i: int)
    requires 0 <= i < a.Length
    requires SortedByOpportunity(a[..i])
    modifies a
    ensures SortedByOpportunity(a[..i + 1])
    ensures multiset(a[..]) == multiset(old(a[..]))
    ensures forall k :: i < k < a.Length ==> a[k] == old(a[k])
  {
    var j := i;
    while j > 0 && a[j - 1].opportunityScore < a[j].opportunityScore
      invariant 0 <= j <= i
      invariant forall k :: i < k < a.Length ==> a[k] == old(a[k])
      invariant forall p, q :: 0 <= p < q <= i && q != j ==> a[p].opportunityScore >= a[q].opportunityScore
      invariant 0 < j < i ==> a[j - 1].opportunityScore >= a[j + 1].opportunityScore
      invariant multiset(a[..]) == multiset(old(a[..]))
    {
      Swap(a, j - 1, j);
      j := j - 1;
    }
  }

  /** Exchanges two elements. */
  method Swap(a: array<KeywordMetrics>, i: int, j: int)
    requires 0 <= i < a.Length && 0 <= j < a.Length
    modifies a
    ensures a[..] == old(a[..])[i := old(a[j])][j := old(a[i])]
    ensures multiset(a[..]) == multiset(old(a[..]))
  {
    a[i], a[j] := a[j], a[i];
  }

  /** Analyses every keyword (each with its own draw of the variance) and
      ranks the records by opportunity score, highest first. */
  method AnalyzeKeywords(keywords: seq<string>, variances: seq<real>, log10: real -> real)
    returns (ranked: seq<KeywordMetrics>)
    requires |variances| == |keywords|
    requires forall i :: 0 <= i < |variances| ==> 0.8 <= variances[i] <= 1.2
    ensures |ranked| == |keywords|
    ensures multiset(ranked) == multiset(Analyses(keywords, variances, log10))
    ensures SortedByOpportunity(ranked)
  {
    var analyses := Analyses(keywords, variances, log10);
    var analyzed := new KeywordMetrics[|analyses|](i requires 0 <= i < |analyses| => analyses[i]);
    assert analyzed[..] == analyses;
    SortByOpportunity(analyzed);
    ranked := analyzed[..];
  }

  // ---------------------------------------------------------------------
  // Related keywords
  // ---------------------------------------------------------------------

  /** The number a string of decimal digits denotes, most significant first. */
  function DigitsValue(s: string): int
    requires forall i :: 0 <= i < |s| ==> IsAsciiDigit(s[i])
  {
    if s == [] then 0
    else DigitsValue(s[..|s| - 1]) * 10 + (s[|s| - 1] as int - 48)
  }

  /** Decimal digits of `n`, as a template literal prints it: digits only,
      no leading zero, denoting `n`. */
  function DecimalString(n: nat): (s: string)
    ensures |s| >= 1
    ensures forall i :: 0 <= i < |s| ==> IsAsciiDigit(s[i])
    ensures s[0] == '0' ==> n == 0 && |s| == 1
    ensures DigitsValue(s) == n
  {
    var digit := ['0' + (n % 10) as char];
    if n < 10 then digit else DecimalString(n / 10) + digit
  }

  /** Ten suggestions: the six question prefixes, then the first four
      modifiers, each followed by a space and the lower-cased keyword. The
      suffix and year variants are built but cut off. */
  method GenerateRelatedKeywords(baseKeyword: string, currentYear: nat) returns (related: seq<string>)
    ensures |related| == 10
    ensures forall k :: 0 <= k < 6 ==> related[k] == QuestionPrefixes[k] + " " + ToLower(baseKeyword)
    ensures forall k :: 6 <= k < 10 ==> related[k] == Modifiers[k - 6] + " " + ToLower(baseKeyword)
  {
    var suggestions: seq<string> := [];
    var lowerKeyword := ToLower(baseKeyword);

    for i := 0 to |QuestionPrefixes|
      invariant |suggestions| == i
      invariant forall k :: 0 <= k < i ==> suggestions[k] == QuestionPrefixes[k] + " " + lowerKeyword
    {
      suggestions := suggestions + [QuestionPrefixes[i] + " " + lowerKeyword];
    }

    for i := 0 to |Modifiers|
      invariant |suggestions| == 6 + i
      invariant forall k :: 0 <= k < 6 ==> suggestions[k] == QuestionPrefixes[k] + " " + lowerKeyword
      invariant forall k :: 6 <= k < 6 + i ==> suggestions[k] == Modifiers[k - 6] + " " + lowerKeyword
    {
      suggestions := suggestions + [Modifiers[i] + " " + lowerKeyword];
    }

    for i := 0 to |Suffixes|
      invariant |suggestions| == 13 + i
      invariant forall k :: 0 <= k < 6 ==> suggestions[k] == QuestionPrefixes[k] + " " + lowerKeyword
      invariant forall k :: 6 <= k < 13 ==> suggestions[k] == Modifiers[k - 6] + " " + lowerKeyword
    {
      suggestions := suggestions + [lowerKeyword + " " + Suffixes[i]];
    }

    suggestions := suggestions + [lowerKeyword + " " + DecimalString(currentYear)];

    related := suggestions[..10];
  }
}
