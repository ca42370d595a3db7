/**
 * The journal screen: a keyword-based analysis of each entry's text, the
 * newest-first entry list with save, delete and select, and the two
 * insights derived from how often emotions and themes occur across entries.
 */
module TextJournal {
  import opened Optional
  import opened Seqs
  import opened Strings
  import opened Ranking

  datatype Sentiment = Positive | Negative | Neutral

  /** The result of analysing one entry's text. */
  datatype Analysis = Analysis(
    sentiment: Sentiment,
    emotions: seq<string>,
    confidence: real,
    keyThemes: seq<string>,
    wordCount: nat)

  /** A saved entry; the id and the timestamp are supplied by the caller (the clock). */
  datatype Entry = Entry(id: string, content: string, timestamp: int, analysis: Analysis)

  /** One row of the keyword table: an emotion and the words that reveal it. */
  datatype EmotionRule = EmotionRule(emotion: string, keywords: seq<string>)

  datatype Topic = FrequentEmotion | ThemeFocus

  /**
   * An insight card: what it is about, the emotion or theme, in how many
   * entries it occurs, and that number as a percentage of the entries.
   */
  datatype Insight = Insight(topic: Topic, key: string, count: nat, frequency: real)

  const PositiveWords: seq<string> :=
    ["happy", "joy", "excited", "grateful", "love", "amazing", "wonderful", "great", "excellent", "good"]

  const NegativeWords: seq<string> :=
    ["sad", "angry", "frustrated", "upset", "worried", "anxious", "terrible", "bad", "awful", "hate"]

  /** The keyword table, in its declaration order (the order of `Object.entries`). */
  const EmotionTable: seq<EmotionRule> := [
    EmotionRule("happy", ["happy", "joy", "excited", "cheerful", "delighted"]),
    EmotionRule("sad", ["sad", "depressed", "melancholy", "down", "upset"]),
    EmotionRule("angry", ["angry", "furious", "annoyed", "irritated", "mad"]),
    EmotionRule("anxious", ["anxious", "worried", "nervous", "stressed", "concerned"]),
    EmotionRule("grateful", ["grateful", "thankful", "blessed", "appreciative"]),
    EmotionRule("confused", ["confused", "lost", "uncertain", "unclear", "puzzled"])
  ]

  const CommonThemes: seq<string> :=
    ["work", "family", "relationship", "health", "goals", "friends", "stress", "happiness"]

  /** The emotion reported when no keyword matches. */
  const NeutralEmotion: string := "neutral"

  /** No two rows of a table name the same emotion. */
  predicate DistinctNames(rules: seq<EmotionRule>)
  {
    forall i, j :: 0 <= i < j < |rules| ==> rules[i].emotion != rules[j].emotion
  }

  /** The table names six different emotions, none of them the fallback. */
  lemma EmotionTableShape()
    ensures |EmotionTable| == 6
    ensures DistinctNames(EmotionTable)
    ensures forall i :: 0 <= i < |EmotionTable| ==> EmotionTable[i].emotion != NeutralEmotion
  {
  }

  lemma CommonThemesDistinct()
    ensures Distinct(CommonThemes)
  {
  }

  /** `words.filter(word => lexicon.includes(word)).length`: tokens equal to a lexicon word. */
  function MatchCount(words: seq<string>, lexicon: seq<string>): (n: nat)
    ensures n <= |words|
    ensures n == 0 <==> forall i :: 0 <= i < |words| ==> words[i] !in lexicon
  {
    var matching := Filter(words, w => w in lexicon);
    assert (exists i :: 0 <= i < |words| && words[i] in lexicon) ==> matching != [] by {
      if exists i :: 0 <= i < |words| && words[i] in lexicon {
        var i :| 0 <= i < |words| && words[i] in lexicon;
        assert words[i] in words;
      }
    }
    assert matching != [] ==> exists i :: 0 <= i < |words| && words[i] in lexicon by {
      if matching != [] {
        assert matching[0] in matching;
      }
    }
    |matching|
  }

  /** The majority vote between the two lexicons; a tie is neutral. */
  function SentimentOf(positive: nat, negative: nat): (s: Sentiment)
    ensures s == Positive <==> positive > negative
    ensures s == Negative <==> negative > positive
    ensures s == Neutral <==> positive == negative
  {
    if positive > negative then Positive
    else if negative > positive then Negative
    else Neutral
  }

  /** `keywords.some(keyword => lower.includes(keyword))`. */
  predicate Fires(lower: string, rule: EmotionRule)
  {
    exists i :: 0 <= i < |rule.keywords| && Contains(lower, rule.keywords[i])
  }

  /** The emotions of the rows that fire, in table order. */
  function Detected(lower: string, rules: seq<EmotionRule>): (r: seq<string>)
    ensures |r| <= |rules|
    ensures forall e :: e in r ==> exists i :: 0 <= i < |rules| && rules[i].emotion == e && Fires(lower, rules[i])
    ensures forall i :: 0 <= i < |rules| && Fires(lower, rules[i]) ==> rules[i].emotion in r
  {
    if rules == [] then []
    else
      var init := rules[..|rules| - 1];
      var last := rules[|rules| - 1];
      assert forall i :: 0 <= i < |init| ==> init[i] == rules[i];
      Detected(lower, init) + (if Fires(lower, last) then [last.emotion] else [])
  }

  /** A table with distinct emotions reports each emotion at most once. */
  lemma {:induction false} DetectedDistinct(lower: string, rules: seq<EmotionRule>)
    requires DistinctNames(rules)
    ensures Distinct(Detected(lower, rules))
  {
    if rules != [] {
      var init := rules[..|rules| - 1];
      var last := rules[|rules| - 1];
      assert DistinctNames(init);
      DetectedDistinct(lower, init);
      if Fires(lower, last) {
        forall i | 0 <= i < |init|
          ensures init[i].emotion != last.emotion
        {
          assert rules[i].emotion != rules[|rules| - 1].emotion;
        }
        DetectedNotNamed(lower, init, last.emotion);
        DistinctSnoc(Detected(lower, init), last.emotion);
      }
    }
  }

  /** An emotion no row of the table names is never reported. */
  lemma {:induction false} DetectedNotNamed(lower: string, rules: seq<EmotionRule>, e: string)
    requires forall i :: 0 <= i < |rules| ==> rules[i].emotion != e
    ensures e !in Detected(lower, rules)
  {
    if rules != [] {
      DetectedNotNamed(lower, rules[..|rules| - 1], e);
    }
  }

  /**
   * The `detectedEmotions.push` loop: walks the table and collects the
   * emotion of every row with a keyword inside the text.
   */
  method DetectEmotions(lower: string, rules: seq<EmotionRule>) returns (detected: seq<string>)
    ensures detected == Detected(lower, rules)
  {
    detected := [];
    for k := 0 to |rules|
      invariant detected == Detected(lower, rules[..k])
    {
      assert rules[..k + 1][..k] == rules[..k];
      var fires := false;
      for j := 0 to |rules[k].keywords|
        invariant fires <==> exists i :: 0 <= i < j && Contains(lower, rules[k].keywords[i])
      {
        fires := fires || Contains(lower, rules[k].keywords[j]);
      }
      if fires {
        detected := detected + [rules[k].emotion];
      }
    }
    assert rules[..|rules|] == rules;
  }

  /** `themes.filter(theme => lower.includes(theme))`: the themes that occur in the text, in list order. */
  function ThemesIn(lower: string, themes: seq<string>): (r: seq<string>)
    ensures forall t :: t in r ==> t in themes && Contains(lower, t)
    ensures forall t :: t in themes && Contains(lower, t) ==> t in r
  {
    if themes == [] then []
    else
      var last := themes[|themes| - 1];
      ThemesIn(lower, themes[..|themes| - 1]) + (if Contains(lower, last) then [last] else [])
  }

  /** It is the filter of the theme list by occurrence in the text. */
  lemma {:induction false} ThemesInIsFilter(lower: string, themes: seq<string>)
    ensures ThemesIn(lower, themes) == Filter(themes, t => Contains(lower, t))
  {
    if themes != [] {
      var init, last := themes[..|themes| - 1], themes[|themes| - 1];
      ThemesInIsFilter(lower, init);
      assert themes == init + [last];
      FilterAppend(init, [last], t => Contains(lower, t));
      assert [last][1..] == [];
    }
  }

  lemma {:induction false} ThemesInDistinct(lower: string, themes: seq<string>)
    requires Distinct(themes)
    ensures Distinct(ThemesIn(lower, themes))
  {
    if themes != [] {
      var init := themes[..|themes| - 1];
      assert Distinct(init);
      ThemesInDistinct(lower, init);
    }
  }

  /** `Math.min(90, 50 + wordCount / 10 + detected * 10)`. */
  function Confidence(wordCount: nat, detected: nat): (c: real)
    ensures 50.0 <= c <= 90.0
    ensures c == 50.0 <==> wordCount == 0 && detected == 0
    ensures detected >= 4 ==> c == 90.0
  {
    var raw := 50.0 + wordCount as real / 10.0 + (detected * 10) as real;
    if raw < 90.0 then raw else 90.0
  }

  /** `analyzeText`, as a value: what the analysis of a text is. */
  function Analyze(text: string): (a: Analysis)
    ensures a.emotions != [] && Distinct(a.emotions)
    ensures Distinct(a.keyThemes)
    ensures 50.0 <= a.confidence <= 90.0
  {
    var lower := Lower(text);
    var words := Words(lower);
    var detected := Detected(lower, EmotionTable);
    EmotionTableShape();
    DetectedDistinct(lower, EmotionTable);
    CommonThemesDistinct();
    ThemesInDistinct(lower, CommonThemes);
    Analysis(
      SentimentOf(MatchCount(words, PositiveWords), MatchCount(words, NegativeWords)),
      if detected == [] then [NeutralEmotion] else detected,
      Confidence(|words|, |detected|),
      ThemesIn(lower, CommonThemes),
      |words|)
  }

  /** The word count is zero exactly for blank text. */
  lemma WordCountOfBlank(text: string)
    ensures Analyze(text).wordCount == 0 <==> IsBlank(text)
  {
    WordsEmptyIffBlank(Lower(text));
    LowerKeepsBlank(text);
  }

  /**
   * A table emotion is reported exactly when one of its keywords is a
   * substring of the lower-cased text; the fallback is reported exactly when
   * none fires, and then alone.
   */
  lemma EmotionsOfText(text: string)
    ensures forall i :: 0 <= i < |EmotionTable| ==>
      (EmotionTable[i].emotion in Analyze(text).emotions <==> Fires(Lower(text), EmotionTable[i]))
    ensures Analyze(text).emotions == [NeutralEmotion] <==>
      forall i :: 0 <= i < |EmotionTable| ==> !Fires(Lower(text), EmotionTable[i])
  {
    var lower := Lower(text);
    var detected := Detected(lower, EmotionTable);
    EmotionTableShape();
    forall i | 0 <= i < |EmotionTable|
      ensures EmotionTable[i].emotion in Analyze(text).emotions <==> Fires(lower, EmotionTable[i])
    {
      if EmotionTable[i].emotion in detected {
        var j :| 0 <= j < |EmotionTable| && EmotionTable[j].emotion == EmotionTable[i].emotion && Fires(lower, EmotionTable[j]);
        assert i == j;
      }
    }
    if detected != [] {
      var e := detected[0];
      assert e in detected;
      var j :| 0 <= j < |EmotionTable| && EmotionTable[j].emotion == e && Fires(lower, EmotionTable[j]);
      assert Analyze(text).emotions != [NeutralEmotion] by {
        if |detected| == 1 {
          assert detected[0] != NeutralEmotion;
        }
      }
    }
  }

  /** A theme is kept exactly when it is a substring of the lower-cased text. */
  lemma ThemesOfText(text: string, theme: string)
    ensures theme in Analyze(text).keyThemes <==> theme in CommonThemes && Contains(Lower(text), theme)
  {
  }

  /** Sentiment compares the numbers of exact token matches against the two lexicons. */
  lemma SentimentOfText(text: string)
    ensures var words := Words(Lower(text));
      var pos := MatchCount(words, PositiveWords);
      var neg := MatchCount(words, NegativeWords);
      (Analyze(text).sentiment == Positive <==> pos > neg)
      && (Analyze(text).sentiment == Negative <==> neg > pos)
      && (Analyze(text).sentiment == Neutral <==> pos == neg)
  {
  }

  /** `analyzeText`: computes the analysis, with the emotion loop run as written. */
  method AnalyzeText(text: string) returns (a: Analysis)
    ensures a == Analyze(text)
  {
    var lower := Lower(text);
    var words := Words(lower);
    var positiveCount := MatchCount(words, PositiveWords);
    var negativeCount := MatchCount(words, NegativeWords);
    var sentiment := SentimentOf(positiveCount, negativeCount);
    var detected := DetectEmotions(lower, EmotionTable);
    var keyThemes := ThemesIn(lower, CommonThemes);
    var confidence := Confidence(|words|, |detected|);
    a := Analysis(sentiment, if |detected| > 0 then detected else [NeutralEmotion], confidence, keyThemes, |words|);
  }

  /** `entries.filter(entry => entry.id !== id)`. */
  function WithoutId(entries: seq<Entry>, id: string): (r: seq<Entry>)
    ensures forall e :: e in r <==> e in entries && e.id != id
  {
    Filter(entries, (e: Entry) => e.id != id)
  }

  /** Deleting an id nobody has changes nothing. */
  lemma WithoutAbsentId(entries: seq<Entry>, id: string)
    requires forall i :: 0 <= i < |entries| ==> entries[i].id != id
    ensures WithoutId(entries, id) == entries
  {
    FilterKeepsAll(entries, (e: Entry) => e.id != id);
  }

  /** Deletion works piecewise, so the remaining entries keep their relative order. */
  lemma WithoutIdAppend(a: seq<Entry>, b: seq<Entry>, id: string)
    ensures WithoutId(a + b, id) == WithoutId(a, id) + WithoutId(b, id)
  {
    FilterAppend(a, b, (e: Entry) => e.id != id);
  }

  /** Deleting the same id twice is deleting it once. */
  lemma WithoutIdTwice(entries: seq<Entry>, id: string)
    ensures WithoutId(WithoutId(entries, id), id) == WithoutId(entries, id)
  {
    FilterIdempotent(entries, (e: Entry) => e.id != id);
  }

  /** The emotions of each entry, entry by entry. */
  function EmotionLists(entries: seq<Entry>): (ls: seq<seq<string>>)
    ensures |ls| == |entries|
    ensures forall i :: 0 <= i < |entries| ==> ls[i] == entries[i].analysis.emotions
  {
    seq(|entries|, i requires 0 <= i < |entries| => entries[i].analysis.emotions)
  }

  /** The themes of each entry, entry by entry. */
  function ThemeLists(entries: seq<Entry>): (ls: seq<seq<string>>)
    ensures |ls| == |entries|
    ensures forall i :: 0 <= i < |entries| ==> ls[i] == entries[i].analysis.keyThemes
  {
    seq(|entries|, i requires 0 <= i < |entries| => entries[i].analysis.keyThemes)
  }

  /**
   * Since an analysis never lists an emotion twice, an emotion's frequency
   * over all entries is the number of entries in which it was detected.
   */
  lemma {:induction false} EmotionListsCount(entries: seq<Entry>, e: string)
    requires forall i :: 0 <= i < |entries| ==> Distinct(entries[i].analysis.emotions)
    ensures Count(Flatten(EmotionLists(entries)), e) == |Filter(entries, (en: Entry) => e in en.analysis.emotions)|
  {
    if entries != [] {
      var init, last := entries[..|entries| - 1], entries[|entries| - 1];
      EmotionListsCount(init, e);
      assert EmotionLists(entries)[..|entries| - 1] == EmotionLists(init);
      CountAppend(Flatten(EmotionLists(init)), last.analysis.emotions, e);
      CountDistinct(last.analysis.emotions, e);
      assert entries == init + [last];
      FilterSnocLength(init, last, (en: Entry) => e in en.analysis.emotions);
    }
  }

  /** Likewise a theme's frequency is the number of entries in which it was found. */
  lemma {:induction false} ThemeListsCount(entries: seq<Entry>, theme: string)
    requires forall i :: 0 <= i < |entries| ==> Distinct(entries[i].analysis.keyThemes)
    ensures Count(Flatten(ThemeLists(entries)), theme) == |Filter(entries, (en: Entry) => theme in en.analysis.keyThemes)|
  {
    if entries != [] {
      var init, last := entries[..|entries| - 1], entries[|entries| - 1];
      ThemeListsCount(init, theme);
      assert ThemeLists(entries)[..|entries| - 1] == ThemeLists(init);
      CountAppend(Flatten(ThemeLists(init)), last.analysis.keyThemes, theme);
      CountDistinct(last.analysis.keyThemes, theme);
      assert entries == init + [last];
      FilterSnocLength(init, last, (en: Entry) => theme in en.analysis.keyThemes);
    }
  }

  function CountOf(t: Tallied<string>): real
  {
    t.count as real
  }

  /** `Object.entries(freq).sort(([,a], [,b]) => b - a)[0]`, or nothing for an empty tally. */
  function Top(tally: seq<Tallied<string>>): (top: Option<Tallied<string>>)
    ensures top.Some? <==> tally != []
  {
    if tally == [] then None else Some(SortDesc(tally, CountOf)[0])
  }

  /** The top entry has the largest count, and ties go to the earliest entry. */
  lemma TopIsFirstMaximum(tally: seq<Tallied<string>>, m: nat)
    requires m < |tally|
    requires forall j :: 0 <= j < |tally| ==> tally[j].count <= tally[m].count
    requires forall j :: 0 <= j < m ==> tally[j].count < tally[m].count
    ensures Top(tally) == Some(tally[m])
  {
    SortDescHead(tally, CountOf, m);
  }

  /** The top entry is an entry of the tally, and no entry has a larger count. */
  lemma TopIsMaximum(tally: seq<Tallied<string>>)
    requires tally != []
    ensures Top(tally).value in tally
    ensures forall j :: 0 <= j < |tally| ==> tally[j].count <= Top(tally).value.count
  {
    var sorted := SortDesc(tally, CountOf);
    SortDescSorted(tally, CountOf);
    SortDescPerm(tally, CountOf);
    assert sorted[0] in multiset(tally);
    forall j | 0 <= j < |tally|
      ensures tally[j].count <= sorted[0].count
    {
      assert tally[j] in multiset(sorted);
      var k :| 0 <= k < |sorted| && sorted[k] == tally[j];
      assert CountOf(sorted[0]) >= CountOf(sorted[k]);
    }
  }

  /** The card for the top entry of a tally, out of `entries` entries. */
  function InsightOf(topic: Topic, top: Tallied<string>, entries: nat): Insight
    requires entries > 0
  {
    Insight(topic, top.key, top.count, Percentage(top.count, entries))
  }

  /** `getInsights`, as a value: the insight about the top emotion, then the one about the top theme. */
  function Insights(entries: seq<Entry>): (insights: seq<Insight>)
    ensures entries == [] ==> insights == []
    ensures |insights| <= 2
  {
    if entries == [] then []
    else
      var n := |entries|;
      var topEmotion := Top(Tally(Flatten(EmotionLists(entries))));
      var topTheme := Top(Tally(Flatten(ThemeLists(entries))));
      (if topEmotion.Some? then [InsightOf(FrequentEmotion, topEmotion.value, n)] else [])
      + (if topTheme.Some? then [InsightOf(ThemeFocus, topTheme.value, n)] else [])
  }

  /**
   * What every analysis guarantees (the contract of `Analyze`): at least one
   * emotion, and no emotion or theme listed twice.
   */
  predicate WellFormed(a: Analysis)
  {
    a.emotions != [] && Distinct(a.emotions) && Distinct(a.keyThemes)
  }

  lemma AnalyzeWellFormed(text: string)
    ensures WellFormed(Analyze(text))
  {
  }

  predicate AllWellFormed(entries: seq<Entry>)
  {
    forall i :: 0 <= i < |entries| ==> WellFormed(entries[i].analysis)
  }

  /**
   * With at least one analysed entry there is always an emotion insight
   * first, and a theme insight second exactly when some entry has a theme.
   */
  lemma InsightsShape(entries: seq<Entry>)
    requires entries != [] && AllWellFormed(entries)
    ensures var insights := Insights(entries);
      var themes := Flatten(ThemeLists(entries));
      1 <= |insights|
      && insights[0] == InsightOf(FrequentEmotion, Top(Tally(Flatten(EmotionLists(entries)))).value, |entries|)
      && (|insights| == 2 <==> themes != [])
      && (|insights| == 2 ==> insights[1] == InsightOf(ThemeFocus, Top(Tally(themes)).value, |entries|))
  {
    var emotions := Flatten(EmotionLists(entries));
    FlattenEmpty(EmotionLists(entries));
    assert EmotionLists(entries)[0] != [];
    TallyEmpty(emotions);
    TallyEmpty(Flatten(ThemeLists(entries)));
  }

  /** A tallied entry's share of the entries lies in (0, 100] when no entry repeats an element. */
  lemma {:induction false} TallyShare(lists: seq<seq<string>>, t: Tallied<string>)
    requires lists != []
    requires forall i :: 0 <= i < |lists| ==> Distinct(lists[i])
    requires t in Tally(Flatten(lists))
    ensures 0 < t.count <= |lists|
    ensures 0.0 < Percentage(t.count, |lists|) <= 100.0
  {
    var xs := Flatten(lists);
    var k :| 0 <= k < |Tally(xs)| && Tally(xs)[k] == t;
    assert t.key in Keys(xs);
    CountFlattenAtMost(lists, t.key);
    PercentageBounds(t.count, |lists|);
  }

  /** The top entry's share lies in (0, 100]. */
  lemma TopShare(lists: seq<seq<string>>)
    requires lists != [] && Tally(Flatten(lists)) != []
    requires forall i :: 0 <= i < |lists| ==> Distinct(lists[i])
    ensures 0.0 < Percentage(Top(Tally(Flatten(lists))).value.count, |lists|) <= 100.0
  {
    TopIsMaximum(Tally(Flatten(lists)));
    TallyShare(lists, Top(Tally(Flatten(lists))).value);
  }

  /**
   * When one emotion appears in every entry, the emotion insight reports a
   * frequency of 100: its top emotion occurs in all entries.
   */
  lemma SharedEmotionInsight(entries: seq<Entry>, e: string)
    requires entries != [] && AllWellFormed(entries)
    requires forall i :: 0 <= i < |entries| ==> e in entries[i].analysis.emotions
    ensures Insights(entries) != []
    ensures Insights(entries)[0].count == |entries|
    ensures Insights(entries)[0].frequency == 100.0
  {
    var n := |entries|;
    var lists := EmotionLists(entries);
    var xs := Flatten(lists);
    CountFlattenAll(lists, e);
    assert e in Keys(xs);
    var k :| 0 <= k < |Keys(xs)| && Keys(xs)[k] == e;
    var tally := Tally(xs);
    assert tally[k].count == n;
    TopIsMaximum(tally);
    TallyShare(lists, Top(tally).value);
    InsightsShape(entries);
    PercentageWhole(n);
  }

  /** Every insight's frequency is a percentage in (0, 100]. */
  predicate FrequenciesInRange(insights: seq<Insight>)
  {
    forall k :: 0 <= k < |insights| ==> 0.0 < insights[k].frequency <= 100.0
  }

  lemma FrequenciesAppend(a: seq<Insight>, b: seq<Insight>)
    requires FrequenciesInRange(a) && FrequenciesInRange(b)
    ensures FrequenciesInRange(a + b)
  {
    assert forall k :: 0 <= k < |a + b| ==> (a + b)[k] == if k < |a| then a[k] else b[k - |a|];
  }

  /** The card for a top entry carries a frequency in (0, 100]. */
  lemma TopInsightInRange(topic: Topic, lists: seq<seq<string>>)
    requires lists != []
    requires forall i :: 0 <= i < |lists| ==> Distinct(lists[i])
    ensures var top := Top(Tally(Flatten(lists)));
      FrequenciesInRange(if top.Some? then [InsightOf(topic, top.value, |lists|)] else [])
  {
    var top := Top(Tally(Flatten(lists)));
    if top.Some? {
      TopShare(lists);
      CardInRange(topic, top.value, |lists|);
    }
  }

  lemma CardInRange(topic: Topic, top: Tallied<string>, entries: nat)
    requires entries > 0 && 0.0 < Percentage(top.count, entries) <= 100.0
    ensures FrequenciesInRange([InsightOf(topic, top, entries)])
  {
  }

  /** Every insight's frequency is a share of the entries in (0, 100]. */
  lemma InsightFrequencies(entries: seq<Entry>)
    requires AllWellFormed(entries)
    ensures FrequenciesInRange(Insights(entries))
  {
    if entries != [] {
      var n := |entries|;
      var els, tls := EmotionLists(entries), ThemeLists(entries);
      var te, tt := Top(Tally(Flatten(els))), Top(Tally(Flatten(tls)));
      var a: seq<Insight> := if te.Some? then [InsightOf(FrequentEmotion, te.value, n)] else [];
      var b: seq<Insight> := if tt.Some? then [InsightOf(ThemeFocus, tt.value, n)] else [];
      assert Insights(entries) == a + b;
      TopInsightInRange(FrequentEmotion, els);
      TopInsightInRange(ThemeFocus, tls);
      FrequenciesAppend(a, b);
    }
  }

  /** `freq` holds the occurrence count of every element of `xs` and nothing else. */
  ghost predicate Counts(freq: map<string, nat>, xs: seq<string>)
  {
    (forall k :: k in freq <==> k in xs)
    && forall k :: k in freq ==> freq[k] == Count(xs, k)
  }

  /** `Object.entries(freq)`, given the object's key order. */
  function EntriesOf(freq: map<string, nat>, keys: seq<string>): (t: seq<Tallied<string>>)
    requires forall k :: k in keys ==> k in freq
    ensures |t| == |keys|
    ensures forall i :: 0 <= i < |keys| ==> t[i] == Tallied(keys[i], freq[keys[i]])
  {
    seq(|keys|, i requires 0 <= i < |keys| => Tallied(keys[i], freq[keys[i]]))
  }

  /** Reading a count object filled from `xs` gives the tally of `xs`. */
  lemma EntriesOfCounts(freq: map<string, nat>, xs: seq<string>)
    requires Counts(freq, xs)
    ensures EntriesOf(freq, Keys(xs)) == Tally(xs)
  {
  }

  /** Counting one more element: its count goes up by one, and a new element is added last to the keys. */
  lemma CountsSnoc(freq: map<string, nat>, xs: seq<string>, x: string)
    requires Counts(freq, xs)
    ensures Counts(freq[x := if x in freq then freq[x] + 1 else 1], xs + [x])
    ensures Keys(xs + [x]) == if x in freq then Keys(xs) else Keys(xs) + [x]
  {
    assert (xs + [x])[..|xs|] == xs;
  }

  lemma SnocPrefix(seen: seq<string>, items: seq<string>, j: nat)
    requires j < |items|
    ensures seen + items[..j] + [items[j]] == seen + items[..j + 1]
  {
    assert items[..j + 1] == items[..j] + [items[j]];
  }

  /** The inner `forEach`: `freq[x] = (freq[x] || 0) + 1` for each `x` of `items`. */
  method CountInto(freq: map<string, nat>, keys: seq<string>, items: seq<string>, ghost seen: seq<string>)
    returns (freq': map<string, nat>, keys': seq<string>)
    requires keys == Keys(seen) && Counts(freq, seen)
    ensures keys' == Keys(seen + items) && Counts(freq', seen + items)
  {
    freq', keys' := freq, keys;
    ghost var counted := seen;
    for j := 0 to |items|
      invariant counted == seen + items[..j]
      invariant keys' == Keys(counted) && Counts(freq', counted)
    {
      var x := items[j];
      CountsSnoc(freq', counted, x);
      if x in freq' {
        freq' := freq'[x := freq'[x] + 1];
      } else {
        freq' := freq'[x := 1];
        keys' := keys' + [x];
      }
      SnocPrefix(seen, items, j);
      counted := counted + [x];
    }
    assert items[..|items|] == items;
  }

  /** Visiting one more entry appends its emotions and its themes. */
  lemma ListsStep(entries: seq<Entry>, i: nat)
    requires i < |entries|
    ensures Flatten(EmotionLists(entries[..i + 1])) == Flatten(EmotionLists(entries[..i])) + entries[i].analysis.emotions
    ensures Flatten(ThemeLists(entries[..i + 1])) == Flatten(ThemeLists(entries[..i])) + entries[i].analysis.keyThemes
  {
    assert EmotionLists(entries[..i + 1]) == EmotionLists(entries)[..i + 1];
    assert EmotionLists(entries[..i]) == EmotionLists(entries)[..i];
    FlattenStep(EmotionLists(entries), i);
    assert ThemeLists(entries[..i + 1]) == ThemeLists(entries)[..i + 1];
    assert ThemeLists(entries[..i]) == ThemeLists(entries)[..i];
    FlattenStep(ThemeLists(entries), i);
  }

  /**
   * The counting pass of `getInsights`: one loop over the entries, counting
   * each entry's emotions into one object and its themes into another.
   */
  method CountOccurrences(entries: seq<Entry>)
    returns (emotionFreq: map<string, nat>, emotionKeys: seq<string>, themeFreq: map<string, nat>, themeKeys: seq<string>)
    ensures emotionKeys == Keys(Flatten(EmotionLists(entries))) && Counts(emotionFreq, Flatten(EmotionLists(entries)))
    ensures themeKeys == Keys(Flatten(ThemeLists(entries))) && Counts(themeFreq, Flatten(ThemeLists(entries)))
  {
    emotionFreq, emotionKeys := map[], [];
    themeFreq, themeKeys := map[], [];
    ghost var emotionsSeen: seq<string> := [];
    ghost var themesSeen: seq<string> := [];
    for i := 0 to |entries|
      invariant emotionsSeen == Flatten(EmotionLists(entries[..i]))
      invariant themesSeen == Flatten(ThemeLists(entries[..i]))
      invariant emotionKeys == Keys(emotionsSeen) && Counts(emotionFreq, emotionsSeen)
      invariant themeKeys == Keys(themesSeen) && Counts(themeFreq, themesSeen)
    {
      ListsStep(entries, i);
      emotionFreq, emotionKeys := CountInto(emotionFreq, emotionKeys, entries[i].analysis.emotions, emotionsSeen);
      themeFreq, themeKeys := CountInto(themeFreq, themeKeys, entries[i].analysis.keyThemes, themesSeen);
      emotionsSeen := emotionsSeen + entries[i].analysis.emotions;
      themesSeen := themesSeen + entries[i].analysis.keyThemes;
    }
    assert entries[..|entries|] == entries;
  }

  /** The journal screen's state. */
  class Journal {
    var draft: string
    var entries: seq<Entry>
    var isAnalyzing: bool
    var selected: Option<Entry>

    /** Every entry holds a non-blank text and a well-formed analysis. */
    ghost predicate Valid()
      reads this
    {
      AllWellFormed(entries) && forall i :: 0 <= i < |entries| ==> !IsBlank(entries[i].content)
    }

    constructor()
      ensures Valid()
      ensures draft == [] && entries == [] && !isAnalyzing && selected == None
    {
      draft := [];
      entries := [];
      isAnalyzing := false;
      selected := None;
    }

    /** Typing into the text area. */
    method SetDraft(text: string)
      modifies this`draft
      ensures draft == text
    {
      draft := text;
    }

    /**
     * `saveEntry`: refuses a blank draft; otherwise puts the analysed entry
     * first and clears the draft. `id` and `now` are the clock's readings.
     */
    method SaveEntry(id: string, now: int) returns (saved: bool)
      requires Valid()
      modifies this`entries, this`draft, this`isAnalyzing
      ensures Valid()
      ensures saved <==> !IsBlank(old(draft))
      ensures !saved ==> entries == old(entries) && draft == old(draft) && isAnalyzing == old(isAnalyzing)
      ensures saved ==> entries == [Entry(id, old(draft), now, Analyze(old(draft)))] + old(entries)
      ensures saved ==> draft == [] && !isAnalyzing
    {
      if IsBlank(draft) {
        return false;
      }
      isAnalyzing := true;
      var analysis := AnalyzeText(draft);
      AnalyzeWellFormed(draft);
      var newEntry := Entry(id, draft, now, analysis);
      entries := [newEntry] + entries;
      draft := [];
      isAnalyzing := false;
      saved := true;
    }

    /** `deleteEntry`: drops every entry with the id and deselects it if it was selected. */
    method DeleteEntry(id: string)
      requires Valid()
      modifies this`entries, this`selected
      ensures Valid()
      ensures entries == WithoutId(old(entries), id)
      ensures selected == if old(selected).Some? && old(selected).value.id == id then None else old(selected)
    {
      entries := WithoutId(entries, id);
      if selected.Some? && selected.value.id == id {
        selected := None;
      }
    }

    /** Clicking an entry card: selects it, or deselects it when it is the selected one. */
    method ToggleSelect(entry: Entry)
      modifies this`selected
      ensures selected == if old(selected).Some? && old(selected).value.id == entry.id then None else Some(entry)
    {
      if selected.Some? && selected.value.id == entry.id {
        selected := None;
      } else {
        selected := Some(entry);
      }
    }

    /** `getInsights`: counts emotions and themes over the entries, then reads off the two tops. */
    method GetInsights() returns (insights: seq<Insight>)
      ensures insights == Insights(entries)
    {
      if |entries| == 0 {
        return [];
      }
      var emotionFreq, emotionKeys, themeFreq, themeKeys := CountOccurrences(entries);
      var emotionEntries := EntriesOf(emotionFreq, emotionKeys);
      var themeEntries := EntriesOf(themeFreq, themeKeys);
      EntriesOfCounts(emotionFreq, Flatten(EmotionLists(entries)));
      EntriesOfCounts(themeFreq, Flatten(ThemeLists(entries)));
      var emotionCard: seq<Insight> := [];
      if |emotionEntries| > 0 {
        var topEmotion := SortDesc(emotionEntries, CountOf)[0];
        emotionCard := [InsightOf(FrequentEmotion, topEmotion, |entries|)];
      }
      var themeCard: seq<Insight> := [];
      if |themeEntries| > 0 {
        var topTheme := SortDesc(themeEntries, CountOf)[0];
        themeCard := [InsightOf(ThemeFocus, topTheme, |entries|)];
      }
      insights := emotionCard + themeCard;
    }
  }
}
