/**
 * The dashboard's statistics: the distribution of recorded emotions, sorted
 * by share; the distribution over input sources, in first-seen order; and the
 * change between the two most recent questionnaire snapshots.
 */
module ProgressDashboard {
  import opened Optional
  import opened Seqs
  import opened Ranking

  datatype Source = Camera | Voice | Text

  /** One recorded emotion reading. */
  datatype Reading = Reading(date: string, emotion: string, confidence: real, source: Source)

  /** One category's score inside a snapshot; a snapshot lists its categories in key order. */
  datatype CategoryScore = CategoryScore(category: string, score: real)

  /** A questionnaire result kept for the progress history. */
  datatype Snapshot = Snapshot(date: string, overallScore: real, categoryScores: seq<CategoryScore>)

  /** A row of a distribution: the key, how often it occurs, and that as a share of all readings. */
  datatype Stat<K> = Stat(key: K, count: nat, percentage: real)

  /** A category's change between two snapshots; `None` where the older snapshot lacks the category (`NaN`). */
  datatype CategoryChange = CategoryChange(category: string, change: Option<real>, current: real)

  datatype Progression = Progression(overallChange: real, categoryChanges: seq<CategoryChange>, latest: real)

  const MockHistory: seq<Snapshot> := [
    Snapshot("2024-01-01", 65.0, [
      CategoryScore("self-awareness", 60.0), CategoryScore("self-regulation", 55.0),
      CategoryScore("motivation", 70.0), CategoryScore("empathy", 68.0), CategoryScore("social-skills", 72.0)]),
    Snapshot("2024-01-15", 72.0, [
      CategoryScore("self-awareness", 68.0), CategoryScore("self-regulation", 65.0),
      CategoryScore("motivation", 75.0), CategoryScore("empathy", 74.0), CategoryScore("social-skills", 78.0)])
  ]

  function EmotionsOf(readings: seq<Reading>): (es: seq<string>)
    ensures |es| == |readings|
    ensures forall i :: 0 <= i < |readings| ==> es[i] == readings[i].emotion
  {
    seq(|readings|, i requires 0 <= i < |readings| => readings[i].emotion)
  }

  function SourcesOf(readings: seq<Reading>): (ss: seq<Source>)
    ensures |ss| == |readings|
    ensures forall i :: 0 <= i < |readings| ==> ss[i] == readings[i].source
  {
    seq(|readings|, i requires 0 <= i < |readings| => readings[i].source)
  }

  /** Counting an emotion among the projected emotions counts the readings that carry it. */
  lemma {:induction false} EmotionsOfCount(readings: seq<Reading>, e: string)
    ensures Count(EmotionsOf(readings), e) == |Filter(readings, (r: Reading) => r.emotion == e)|
  {
    if readings != [] {
      var init, last := readings[..|readings| - 1], readings[|readings| - 1];
      var p := (r: Reading) => r.emotion == e;
      EmotionsOfCount(init, e);
      assert EmotionsOf(readings)[..|readings| - 1] == EmotionsOf(init);
      assert readings == init + [last];
      FilterSnocLength(init, last, p);
    }
  }

  /** Counting a source among the projected sources counts the readings taken from it. */
  lemma {:induction false} SourcesOfCount(readings: seq<Reading>, s: Source)
    ensures Count(SourcesOf(readings), s) == |Filter(readings, (r: Reading) => r.source == s)|
  {
    if readings != [] {
      var init, last := readings[..|readings| - 1], readings[|readings| - 1];
      var p := (r: Reading) => r.source == s;
      SourcesOfCount(init, s);
      assert SourcesOf(readings)[..|readings| - 1] == SourcesOf(init);
      assert readings == init + [last];
      FilterSnocLength(init, last, p);
    }
  }

  /** `Object.entries(counts).map(([key, count]) => ({key, count, percentage: count / total * 100}))`. */
  function StatsOf<K>(t: seq<Tallied<K>>, total: nat): (rows: seq<Stat<K>>)
    requires t != [] ==> total > 0
    ensures |rows| == |t|
    ensures forall i :: 0 <= i < |t| ==> rows[i] == Stat(t[i].key, t[i].count, Percentage(t[i].count, total))
  {
    if t == [] then [] else StatsOf(t[..|t| - 1], total) + [Stat(t[|t| - 1].key, t[|t| - 1].count, Percentage(t[|t| - 1].count, total))]
  }

  function CountOf<K>(s: Stat<K>): real
  {
    s.count as real
  }

  function PercentageOf<K>(s: Stat<K>): real
  {
    s.percentage
  }

  /** `emotionStats`: one row per recorded emotion, by non-increasing share, ties in first-seen order. */
  function EmotionStats(readings: seq<Reading>): seq<Stat<string>>
  {
    TallyEmpty(EmotionsOf(readings));
    SortDesc(StatsOf(Tally(EmotionsOf(readings)), |readings|), PercentageOf)
  }

  /** `sourceStats`: one row per source that occurs, in first-seen order. */
  function SourceStats(readings: seq<Reading>): seq<Stat<Source>>
  {
    TallyEmpty(SourcesOf(readings));
    StatsOf(Tally(SourcesOf(readings)), |readings|)
  }

  /** The rows of a tally of `xs`: each key of `xs` once, with its count and share. */
  predicate RowsOf<K(==)>(rows: seq<Stat<K>>, xs: seq<K>, total: nat)
    requires total > 0
  {
    (forall i :: 0 <= i < |rows| ==>
       (rows[i].key in xs
        && rows[i].count == Count(xs, rows[i].key)
        && rows[i].percentage == Percentage(rows[i].count, total)))
    && (forall x :: x in xs ==> exists i :: 0 <= i < |rows| && rows[i].key == x)
    && (forall i, j :: 0 <= i < j < |rows| ==> rows[i].key != rows[j].key)
  }

  lemma StatsOfTally<K>(xs: seq<K>, total: nat)
    requires total > 0
    ensures RowsOf(StatsOf(Tally(xs), total), xs, total)
  {
    var rows := StatsOf(Tally(xs), total);
    forall x | x in xs
      ensures exists i :: 0 <= i < |rows| && rows[i].key == x
    {
      var k :| 0 <= k < |Keys(xs)| && Keys(xs)[k] == x;
      assert rows[k].key == x;
    }
  }

  /** Reordering rows keeps them the rows of the same tally. */
  lemma RowsOfPermutation<K>(rows: seq<Stat<K>>, rows': seq<Stat<K>>, xs: seq<K>, total: nat)
    requires total > 0
    requires RowsOf(rows, xs, total)
    requires multiset(rows) == multiset(rows')
    ensures RowsOf(rows', xs, total)
  {
    forall i | 0 <= i < |rows'|
      ensures rows'[i] in rows
    {
      assert rows'[i] in multiset(rows');
    }
    forall x | x in xs
      ensures exists i :: 0 <= i < |rows'| && rows'[i].key == x
    {
      var k :| 0 <= k < |rows| && rows[k].key == x;
      assert rows[k] in multiset(rows');
      var i :| 0 <= i < |rows'| && rows'[i] == rows[k];
    }
    assert Distinct(rows) by {
      forall i, j | 0 <= i < j < |rows|
        ensures rows[i] != rows[j]
      {
        assert rows[i].key != rows[j].key;
      }
    }
    DistinctPermutation(rows, rows');
    forall i, j | 0 <= i < j < |rows'|
      ensures rows'[i].key != rows'[j].key
    {
      var a :| 0 <= a < |rows| && rows[a] == rows'[i];
      var b :| 0 <= b < |rows| && rows[b] == rows'[j];
      assert a != b;
    }
  }

  /** The emotion rows are the tally's rows, reordered. */
  lemma EmotionStatsPerm(readings: seq<Reading>)
    ensures multiset(EmotionStats(readings)) == multiset(StatsOf(Tally(EmotionsOf(readings)), |readings|))
  {
    TallyEmpty(EmotionsOf(readings));
    SortDescPerm(StatsOf(Tally(EmotionsOf(readings)), |readings|), PercentageOf);
  }

  /** Each recorded emotion has exactly one row, with its count and share of all readings. */
  lemma EmotionStatsRows(readings: seq<Reading>)
    requires readings != []
    ensures RowsOf(EmotionStats(readings), EmotionsOf(readings), |readings|)
  {
    var xs := EmotionsOf(readings);
    StatsOfTally(xs, |readings|);
    EmotionStatsPerm(readings);
    RowsOfPermutation(StatsOf(Tally(xs), |readings|), EmotionStats(readings), xs, |readings|);
  }

  /** The rows come by non-increasing share. */
  lemma EmotionStatsSorted(readings: seq<Reading>)
    ensures SortedDesc(EmotionStats(readings), PercentageOf)
  {
    TallyEmpty(EmotionsOf(readings));
    SortDescSorted(StatsOf(Tally(EmotionsOf(readings)), |readings|), PercentageOf);
  }

  /** Rows with equal shares keep the order in which their emotions were first recorded. */
  lemma EmotionStatsStable(readings: seq<Reading>, v: real)
    ensures WithKey(EmotionStats(readings), PercentageOf, v) == WithKey(StatsOf(Tally(EmotionsOf(readings)), |readings|), PercentageOf, v)
  {
    TallyEmpty(EmotionsOf(readings));
    SortDescStable(StatsOf(Tally(EmotionsOf(readings)), |readings|), PercentageOf, v);
  }

  /** The counts of the rows add up to the counts of the tally. */
  lemma {:induction false} StatsCountSum<K>(t: seq<Tallied<K>>, total: nat)
    requires t != [] ==> total > 0
    ensures SumBy(StatsOf(t, total), CountOf) == SumCounts(t) as real
  {
    if t != [] {
      var init := t[..|t| - 1];
      var last := t[|t| - 1];
      StatsCountSum(init, total);
      var row := Stat(last.key, last.count, Percentage(last.count, total));
      SumByAppend(StatsOf(init, total), [row], CountOf);
      assert SumBy([row], CountOf) == CountOf(row) + SumBy([row][1..], CountOf);
      assert [row][1..] == [];
    }
  }

  /** The shares of the rows add up to the share of the tally's total count. */
  lemma {:induction false} StatsPercentageSum<K>(t: seq<Tallied<K>>, total: nat)
    requires total > 0
    ensures SumBy(StatsOf(t, total), PercentageOf) == Percentage(SumCounts(t), total)
  {
    if t != [] {
      var init := t[..|t| - 1];
      var last := t[|t| - 1];
      StatsPercentageSum(init, total);
      var row := Stat(last.key, last.count, Percentage(last.count, total));
      SumByAppend(StatsOf(init, total), [row], PercentageOf);
      assert SumBy([row], PercentageOf) == PercentageOf(row) + SumBy([row][1..], PercentageOf);
      assert [row][1..] == [];
      PercentageAdd(SumCounts(init), last.count, total);
    }
  }

  /** The emotion rows account for every reading once: their counts sum to the number of readings. */
  lemma EmotionCountsSum(readings: seq<Reading>)
    ensures SumBy(EmotionStats(readings), CountOf) == |readings| as real
  {
    var xs := EmotionsOf(readings);
    TallyEmpty(xs);
    var rows := StatsOf(Tally(xs), |readings|);
    StatsCountSum(Tally(xs), |readings|);
    TallySumsToLength(xs);
    EmotionStatsPerm(readings);
    SumByPermutation(rows, EmotionStats(readings), CountOf);
  }

  /** With at least one reading the shares of the emotion rows sum to 100. */
  lemma EmotionPercentagesSum(readings: seq<Reading>)
    requires readings != []
    ensures SumBy(EmotionStats(readings), PercentageOf) == 100.0
  {
    var xs := EmotionsOf(readings);
    var rows := StatsOf(Tally(xs), |readings|);
    StatsPercentageSum(Tally(xs), |readings|);
    TallySumsToLength(xs);
    PercentageWhole(|readings|);
    EmotionStatsPerm(readings);
    SumByPermutation(rows, EmotionStats(readings), PercentageOf);
  }

  /** Every share lies in (0, 100]. */
  lemma EmotionPercentagesInRange(readings: seq<Reading>)
    requires readings != []
    ensures forall i :: 0 <= i < |EmotionStats(readings)| ==> 0.0 < EmotionStats(readings)[i].percentage <= 100.0
  {
    var rows := EmotionStats(readings);
    EmotionStatsRows(readings);
    forall i | 0 <= i < |rows|
      ensures 0.0 < rows[i].percentage <= 100.0
    {
      PercentageBounds(rows[i].count, |readings|);
    }
  }

  /** Each source that occurs has one row, in the order sources were first seen, with its count and share. */
  lemma SourceStatsRows(readings: seq<Reading>)
    requires readings != []
    ensures RowsOf(SourceStats(readings), SourcesOf(readings), |readings|)
    ensures forall i :: 0 <= i < |SourceStats(readings)| ==> SourceStats(readings)[i].key == Keys(SourcesOf(readings))[i]
  {
    StatsOfTally(SourcesOf(readings), |readings|);
  }

  /** The source rows account for every reading once. */
  lemma SourceCountsSum(readings: seq<Reading>)
    ensures SumBy(SourceStats(readings), CountOf) == |readings| as real
  {
    TallyEmpty(SourcesOf(readings));
    StatsCountSum(Tally(SourcesOf(readings)), |readings|);
    TallySumsToLength(SourcesOf(readings));
  }

  /** `scores[category]`: the score recorded under the first entry with that key. */
  function ScoreFor(scores: seq<CategoryScore>, category: string): (r: Option<real>)
    ensures r.Some? <==> exists i :: 0 <= i < |scores| && scores[i].category == category
    ensures r.Some? ==> exists i :: 0 <= i < |scores| && scores[i] == CategoryScore(category, r.value)
  {
    if scores == [] then None
    else if scores[0].category == category then Some(scores[0].score)
    else
      var r := ScoreFor(scores[1..], category);
      assert forall i :: 1 <= i < |scores| ==> scores[i] == scores[1..][i - 1];
      assert r.Some? ==> exists i :: 0 <= i < |scores| - 1 && scores[1..][i] == CategoryScore(category, r.value);
      r
  }

  /**
   * A score record read as an object: no category key appears twice. The
   * record is kept as a list of entries, which could repeat a key; a
   * well-formed snapshot does not.
   */
  predicate DistinctCategories(scores: seq<CategoryScore>)
  {
    forall i, j :: 0 <= i < j < |scores| ==> scores[i].category != scores[j].category
  }

  predicate WellFormed(s: Snapshot)
  {
    DistinctCategories(s.categoryScores)
  }

  /** With distinct keys, looking a category up gives the score stored under it. */
  lemma {:induction false} ScoreForKey(scores: seq<CategoryScore>, i: nat)
    requires DistinctCategories(scores) && i < |scores|
    ensures ScoreFor(scores, scores[i].category) == Some(scores[i].score)
  {
    if i > 0 {
      var rest := scores[1..];
      assert scores[0].category != scores[i].category;
      assert DistinctCategories(rest) by {
        forall a, b | 0 <= a < b < |rest|
          ensures rest[a].category != rest[b].category
        {
          assert rest[a] == scores[a + 1] && rest[b] == scores[b + 1];
        }
      }
      assert rest[i - 1] == scores[i];
      ScoreForKey(rest, i - 1);
    }
  }

  /** `Object.keys(latest).map(category => ({category, change, current}))`. */
  function CategoryChanges(latest: seq<CategoryScore>, previous: seq<CategoryScore>): (cs: seq<CategoryChange>)
    ensures |cs| == |latest|
    ensures forall i :: 0 <= i < |latest| ==> cs[i].category == latest[i].category && cs[i].current == latest[i].score
    ensures forall i :: 0 <= i < |latest| ==>
      cs[i].change == (if ScoreFor(previous, latest[i].category).Some?
                       then Some(latest[i].score - ScoreFor(previous, latest[i].category).value) else None)
  {
    seq(|latest|, i requires 0 <= i < |latest| =>
      var before := ScoreFor(previous, latest[i].category);
      CategoryChange(latest[i].category, if before.Some? then Some(latest[i].score - before.value) else None, latest[i].score))
  }

  /** `eqProgression`: nothing before two snapshots exist, otherwise the last one against the one before it. */
  function EqProgression(history: seq<Snapshot>): (p: Option<Progression>)
    ensures p.None? <==> |history| < 2
  {
    if |history| < 2 then None
    else
      var latest := history[|history| - 1];
      var previous := history[|history| - 2];
      Some(Progression(latest.overallScore - previous.overallScore,
                       CategoryChanges(latest.categoryScores, previous.categoryScores),
                       latest.overallScore))
  }

  /**
   * Only the two most recent snapshots count: the overall change is latest
   * minus previous, whatever came before.
   */
  lemma ProgressionUsesLastTwo(older: seq<Snapshot>, previous: Snapshot, latest: Snapshot)
    ensures EqProgression(older + [previous, latest]).Some?
    ensures EqProgression(older + [previous, latest]) == EqProgression([previous, latest])
    ensures EqProgression(older + [previous, latest]).value.overallChange == latest.overallScore - previous.overallScore
    ensures EqProgression(older + [previous, latest]).value.latest == latest.overallScore
  {
    var h := older + [previous, latest];
    assert h[|h| - 1] == latest && h[|h| - 2] == previous;
  }

  /**
   * Between well-formed snapshots, a category's change is its latest score
   * minus the score the previous snapshot stores under the same key.
   */
  lemma ChangeAgainstMatch(latest: seq<CategoryScore>, previous: seq<CategoryScore>, i: nat, j: nat)
    requires DistinctCategories(previous)
    requires i < |latest| && j < |previous| && previous[j].category == latest[i].category
    ensures CategoryChanges(latest, previous)[i] == CategoryChange(latest[i].category, Some(latest[i].score - previous[j].score), latest[i].score)
  {
    ScoreForKey(previous, j);
  }

  /** When the previous snapshot has every category of the latest one, every change is a number. */
  lemma ChangesDefined(latest: seq<CategoryScore>, previous: seq<CategoryScore>)
    requires forall i :: 0 <= i < |latest| ==> exists j :: 0 <= j < |previous| && previous[j].category == latest[i].category
    ensures forall i :: 0 <= i < |latest| ==> CategoryChanges(latest, previous)[i].change.Some?
  {
  }

  /** The bundled history lists each category once per snapshot. */
  lemma MockHistoryWellFormed()
    ensures forall k :: 0 <= k < |MockHistory| ==> WellFormed(MockHistory[k])
  {
    forall k | 0 <= k < |MockHistory|
      ensures WellFormed(MockHistory[k])
    {
      var cs := MockHistory[k].categoryScores;
      assert cs[0].category == "self-awareness" && cs[1].category == "self-regulation" && cs[2].category == "motivation"
          && cs[3].category == "empathy" && cs[4].category == "social-skills";
    }
  }

  /** On the bundled history the overall score went from 65 to 72: a change of 7. */
  lemma MockProgression()
    ensures EqProgression(MockHistory).Some?
    ensures EqProgression(MockHistory).value.overallChange == 7.0
    ensures EqProgression(MockHistory).value.latest == 72.0
    ensures |EqProgression(MockHistory).value.categoryChanges| == 5
    ensures EqProgression(MockHistory).value.categoryChanges[0] == CategoryChange("self-awareness", Some(8.0), 68.0)
    ensures EqProgression(MockHistory).value.categoryChanges[4] == CategoryChange("social-skills", Some(6.0), 78.0)
  {
  }
}
