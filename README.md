# Emotional-intelligence toolkit: a verified model of its screens

This project models the logic of five screens of an emotional-intelligence web
app:

- **EQ assessment.** A twelve-question questionnaire in five categories. It
  produces an overall score, a score per category, a level, and the two
  strongest and two weakest categories.
- **Text journal.** Saves entries newest first. Each entry gets a keyword
  analysis: sentiment, emotions, themes, word count and confidence. The journal
  also derives two insight cards: the most frequent emotion and the most
  frequent theme.
- **Progress dashboard.** Emotion and source distributions over sampled
  readings, and the change between the two latest assessment snapshots.
- **Emotion detector.** A camera screen. Every analysis tick records a reading
  and keeps the ten most recent.
- **Voice analyzer.** A recorder with a seconds counter and a newest-first list
  of recordings. The timer is shown as `m:ss`.

Modules:

- Shared modules:
  - `Optional`: the option type.
  - `Seqs`: filtering, first-occurrence key order, tallies, sums and percentages.
  - `Strings`: whitespace, ASCII lower-casing, word splitting, substring search,
    decimal rendering, padding.
  - `Ranking`: a stable descending sort, and `slice`.
  - `Draws`: `Math.random()` draws taken as parameters.
- One module per screen. The state each screen updates in place is a class:
  - `EQAssessment.Session`
  - `TextJournal.Journal`
  - `EmotionDetector.Detector`
  - `VoiceAnalyzer.Recorder`
- Pure computations are functions. Each has lemmas stating what the screen
  promises.

Where the documented design and the code disagree, the model follows the code:

- **Category seeding.** The scorer seeds a tracker for every category of the
  question bank, whether or not it has answers. An unanswered category is
  therefore not omitted: its score is `0/0`. The model requires every category
  to have an answer, and the questionnaire state guarantees this at completion
  (see "Left out").
- **Improvement order.** `improvements` is `slice(-2)` of the descending
  ranking, so it is in descending order, not ascending.
- **No clamping.** Scores and confidences are not clamped anywhere. The model
  proves instead that they already lie in range.
- **Progression.** The dashboard's change is computed from the last two
  snapshots only.

## Model

| member | source | states |
|---|---|---|
| Seqs.Filter | src/components/TextJournal.tsx:115 | `filter`: the result keeps exactly the elements satisfying the predicate and is no longer than the input |
| Seqs.FilterAppend | src/components/TextJournal.tsx:115 | filtering distributes over concatenation, so kept elements keep their relative order |
| Seqs.FilterSnocLength | src/components/ProgressDashboard.tsx:75-78 | one more element adds one to the number kept exactly when it passes the filter |
| Seqs.FilterKeepsAll | src/components/TextJournal.tsx:115 | filtering changes nothing exactly when every element passes |
| Seqs.FilterIdempotent | src/components/TextJournal.tsx:115 | filtering twice is filtering once |
| Seqs.Count | src/components/ProgressDashboard.tsx:76 | the occurrence count is at most the length and positive exactly for members |
| Seqs.CountAppend | src/components/ProgressDashboard.tsx:75-78 | counts add up over concatenation |
| Seqs.CountDistinct | src/components/TextJournal.tsx:151-154 | an element of a repetition-free list occurs at most once |
| Seqs.Keys | src/components/ProgressDashboard.tsx:75-81 | the keys of an object filled left to right are distinct and are exactly the elements seen |
| Seqs.KeysStep | src/components/TextJournal.tsx:153 | visiting one more element adds it as the last key exactly when it is new |
| Seqs.FlattenEmpty | src/components/TextJournal.tsx:151-158 | the nested loop visits nothing exactly when every list is empty |
| Seqs.CountFlattenAtMost | src/components/TextJournal.tsx:151-158 | when no list repeats an element, each element is counted at most once per list |
| Seqs.CountFlattenAll | src/components/TextJournal.tsx:151-158 | an element present in every repetition-free list is counted once per list |
| Seqs.Tally | src/components/ProgressDashboard.tsx:75-81 | `Object.entries` of the counting object: one entry per key in first-occurrence order, with that key's number of occurrences |
| Seqs.TallyEmpty | src/components/ProgressDashboard.tsx:75-81 | the tally is empty exactly when the input is |
| Seqs.TallySumsToLength | src/components/ProgressDashboard.tsx:75-78 | the tallied counts add up to the number of elements |
| Seqs.SumByPermutation | src/components/ProgressDashboard.tsx:87 | reordering rows does not change a column's sum |
| Seqs.PercentageBounds | src/components/ProgressDashboard.tsx:84 | a positive count out of a larger total is a percentage in (0, 100] |
| Seqs.PercentageAdd | src/components/ProgressDashboard.tsx:84 | percentages of the same total add like their counts |
| Seqs.PercentageWhole | src/components/TextJournal.tsx:168 | the whole total is 100 percent |
| Strings.Lower | src/components/TextJournal.tsx:37 | `toLowerCase` leaves no capital A to Z: each capital becomes its small letter, and every other character stays in place unchanged |
| Strings.LowerIdempotent | src/components/TextJournal.tsx:37 | lower-casing lower-cased text changes nothing |
| Strings.LowerKeepsBlank | src/components/TextJournal.tsx:37 | lower-casing keeps blank text blank and non-blank text non-blank |
| Strings.Words | src/components/TextJournal.tsx:37 | `split(/\s+/).filter(w => w.length > 0)` yields only non-empty tokens without whitespace |
| Strings.WordsEmptyIffBlank | src/components/TextJournal.tsx:37-38 | text has no words exactly when `trim()` leaves nothing |
| Strings.WordsOfJoin | src/components/TextJournal.tsx:37 | splitting words joined by spaces gives the words back |
| Strings.ContainsIffOccurs | src/components/TextJournal.tsx:64 | `includes` holds exactly when the pattern occurs at some position |
| Strings.NatToString | src/components/VoiceAnalyzer.tsx:221 | `toString` of a whole number gives at least one digit and no leading zero, and one digit exactly below 10 |
| Strings.ParseNatToString | src/components/VoiceAnalyzer.tsx:221 | reading the rendered digits back gives the number |
| Strings.PadStart | src/components/VoiceAnalyzer.tsx:221 | `padStart` reaches the width, keeps the text as its suffix and pads only with the pad character |
| Ranking.SortDescPerm | src/components/ProgressDashboard.tsx:87 | the descending sort is a permutation of its input |
| Ranking.SortDescSorted | src/components/ProgressDashboard.tsx:87 | the sort puts keys in non-increasing order |
| Ranking.SortDescStable | src/components/EQAssessment.tsx:242-243 | the sort is stable: elements with equal keys keep their input order |
| Ranking.SortDescHead | src/components/TextJournal.tsx:163 | the first element after sorting is the first maximum of the input |
| Ranking.Take | src/components/EQAssessment.tsx:245 | `slice(0, n)` is a prefix of the input, of length n or the whole input when shorter |
| Ranking.TakeLast | src/components/EQAssessment.tsx:249 | `slice(-n)` is the last n elements, or all when fewer, in order |
| Draws.Pick | src/components/VoiceAnalyzer.tsx:47 | `Math.floor(r * n)` for a draw in [0, 1) is a valid index below `n` |
| Draws.Scale | src/components/VoiceAnalyzer.tsx:48 | `lo + r * width` for a draw in [0, 1) lies in `[lo, lo + width)` |
| EQAssessment.BankShape | src/components/EQAssessment.tsx:28-173 | the bank has twelve questions, each weighted 1, 2, 3, 4 in option order |
| EQAssessment.ContributionRange | src/components/EQAssessment.tsx:215-218 | an answered question adds its option index plus one (1 to 4); an unanswered one adds nothing |
| EQAssessment.Categories | src/components/EQAssessment.tsx:207-211 | the question categories, position by position |
| EQAssessment.TotalBounds | src/components/EQAssessment.tsx:214-222 | the total lies between the number of answers and four times it |
| EQAssessment.CategorySumBounds | src/components/EQAssessment.tsx:219-220 | the same bounds hold for every category's sum and count |
| EQAssessment.TotalUniform | src/components/EQAssessment.tsx:214-222 | answering every question with option `k` totals `(k + 1)` per question |
| EQAssessment.TotalMonotone | src/components/EQAssessment.tsx:184-186 | raising or adding one answer never lowers the total |
| EQAssessment.CategoryPercentRange | src/components/EQAssessment.tsx:228-232 | a category score lies between 25 and 100 |
| EQAssessment.LevelOf | src/components/EQAssessment.tsx:234-239 | each level is exactly one interval of the score: at least 85, [70, 85), [55, 70), below 55 |
| EQAssessment.LevelByTotal | src/components/EQAssessment.tsx:225-239 | the level as thresholds on the integer total: 41+, 34-40, 27-33, 26 or less |
| EQAssessment.UniformAnswers | src/components/EQAssessment.tsx:214-239 | all answers at the last option give 100 and Expert; all at the first give 25 and Developing |
| EQAssessment.OverallMonotone | src/components/EQAssessment.tsx:225-226 | the overall score lies in [0, 100] and never drops when one answer is raised |
| EQAssessment.AnsweredAtMost | src/components/EQAssessment.tsx:214-222 | no more questions are answered than asked |
| EQAssessment.AnsweredQuestionCounts | src/components/EQAssessment.tsx:219-220 | an answered question gives its category a positive count |
| EQAssessment.AllAnsweredCoversCategories | src/components/EQAssessment.tsx:207-232 | a fully answered bank answers every category, so every category score is defined |
| EQAssessment.FirstMentions | src/components/EQAssessment.tsx:207-211 | the bank's category pattern mentions the five categories first in the canonical order |
| EQAssessment.BankCategoryOrder | src/components/EQAssessment.tsx:207-211 | the seeded key order is self-awareness, self-regulation, motivation, empathy, social-skills |
| EQAssessment.ScoresFor | src/components/EQAssessment.tsx:228-232 | one score entry per category, in key order |
| EQAssessment.ScoresForAt | src/components/EQAssessment.tsx:228-232 | each entry is `(sum / (count * 4)) * 100` for its category |
| EQAssessment.ScoresForCategories | src/components/EQAssessment.tsx:228-232 | scoring keeps its categories in order, so the score rows of the bank carry the bank's categories by first mention |
| EQAssessment.CategoryScoresShape | src/components/EQAssessment.tsx:228-232 | the final scores cover the five categories in key order, each a percentage in [25, 100] |
| EQAssessment.ReplaceFirst | src/components/EQAssessment.tsx:246 | `replace` with a one-character pattern keeps the length |
| EQAssessment.CapitalizeFrom | src/components/EQAssessment.tsx:246 | the word-initial upper-casing keeps the length |
| EQAssessment.Capitalize | src/components/EQAssessment.tsx:246 | `replace(/\b\w/g, toUpperCase)` keeps the length |
| EQAssessment.ReplaceFirstInverse | src/components/EQAssessment.tsx:246 | on text without spaces, turning the first `-` into a space is undone by the reverse replacement |
| EQAssessment.ReplaceFirstKeepsUpper | src/components/EQAssessment.tsx:246 | the replacement adds no capital letter |
| EQAssessment.LowerCapitalize | src/components/EQAssessment.tsx:246 | lower-casing undoes the capitalisation on text without capitals |
| EQAssessment.LabelRoundTrip | src/components/EQAssessment.tsx:245-247 | a category key can be read back from its label |
| EQAssessment.ReplaceFirstInFirstGap | src/components/EQAssessment.tsx:246 | in `a-b` with a word `a`, the first `-` is the one replaced |
| EQAssessment.CapitalizeInsideWord | src/components/EQAssessment.tsx:246 | letters inside a word are not capitalised |
| EQAssessment.CapitalizeWord | src/components/EQAssessment.tsx:246 | a word after a boundary gets a capital initial and keeps the rest |
| EQAssessment.LabelOfWord | src/components/EQAssessment.tsx:245-247 | a one-word key is shown with a capital initial |
| EQAssessment.ReplaceFirstAbsent | src/components/EQAssessment.tsx:246 | without a `-` the replacement changes nothing |
| EQAssessment.LabelOfTwoWords | src/components/EQAssessment.tsx:245-247 | a two-word key is shown as two capitalised words separated by a space |
| EQAssessment.LabelExamples | src/components/EQAssessment.tsx:245-247 | `social-skills` is shown as `Social Skills` and `empathy` as `Empathy` |
| EQAssessment.LabelInjective | src/components/EQAssessment.tsx:245-247 | distinct keys get distinct labels |
| EQAssessment.KeyIsPlain | src/components/EQAssessment.tsx:13 | every category key is lower-case text without spaces |
| EQAssessment.KeyInjective | src/components/EQAssessment.tsx:13 | distinct categories have distinct keys |
| EQAssessment.CategoryLabelsDistinct | src/components/EQAssessment.tsx:245-251 | the five category labels are pairwise distinct |
| EQAssessment.Labels | src/components/EQAssessment.tsx:245-251 | each ranked entry maps to its category's label, position by position |
| EQAssessment.Strengths | src/components/EQAssessment.tsx:242-247 | at most two labels: the first two of the ranking |
| EQAssessment.Improvements | src/components/EQAssessment.tsx:249-251 | at most two labels: the last two of the ranking |
| EQAssessment.RankingKeepsCategoriesDistinct | src/components/EQAssessment.tsx:242-243 | ranking keeps distinct categories distinct |
| EQAssessment.RankingEnds | src/components/EQAssessment.tsx:242-251 | no category outranks the first two of the ranking, and none ranks below its last two |
| EQAssessment.RankingSplit | src/components/EQAssessment.tsx:242-251 | with five categories, strengths are the top two and improvements the bottom two in descending order; the lists are disjoint and the middle category is in neither |
| EQAssessment.LabelsDistinct | src/components/EQAssessment.tsx:245-251 | distinct categories give distinct labels |
| EQAssessment.SeedTrackers | src/components/EQAssessment.tsx:206-211 | a zero tracker for exactly the bank's categories, keyed in first-mention order |
| EQAssessment.EveryCategoryKeyed | src/components/EQAssessment.tsx:207-220 | every question's category has a tracker |
| EQAssessment.Accumulate | src/components/EQAssessment.tsx:213-222 | the loop's total is the sum of the answered weights; each category's tracker holds its sum and answer count |
| EQAssessment.Percentages | src/components/EQAssessment.tsx:228-232 | the percentage loop yields the category scores in key order |
| EQAssessment.ScoreAnswers | src/components/EQAssessment.tsx:202-232 | the scorer's total and category scores equal their specifications |
| EQAssessment.CalculateResults | src/components/EQAssessment.tsx:202-261 | the result's overall score, category scores, level, strengths, improvements and time each match their specification |
| EQAssessment.Progress | src/components/EQAssessment.tsx:182 | progress lies in (0, 100] and reaches 100 exactly on the last question |
| EQAssessment.Session.constructor | src/components/EQAssessment.tsx:176-180 | starts at question 0 with no answers, no result, not started |
| EQAssessment.Session.StartAssessment | src/components/EQAssessment.tsx:279-282 | sets started and changes nothing else |
| EQAssessment.Session.HandleAnswer | src/components/EQAssessment.tsx:184-186 | records or replaces one answer and changes nothing else |
| EQAssessment.Session.CompleteAssessment | src/components/EQAssessment.tsx:263-268 | with every question answered, stores the computed result and marks completion |
| EQAssessment.Session.NextQuestion | src/components/EQAssessment.tsx:188-194 | moves on, or on the last question completes with the computed result; keeps every earlier question answered |
| EQAssessment.Session.PreviousQuestion | src/components/EQAssessment.tsx:196-200 | moves back, never before the first question, and changes nothing else |
| EQAssessment.Session.ResetAssessment | src/components/EQAssessment.tsx:270-277 | every field back to its initial value |
| TextJournal.EmotionTableShape | src/components/TextJournal.tsx:53-60 | six emotion rules with distinct names, none called `neutral` |
| TextJournal.CommonThemesDistinct | src/components/TextJournal.tsx:70 | the theme list has no repeats |
| TextJournal.MatchCount | src/components/TextJournal.tsx:44-45 | the number of lexicon words is at most the word count, and zero exactly when no word is in the lexicon |
| TextJournal.SentimentOf | src/components/TextJournal.tsx:47-50 | positive exactly when positive words outnumber negative ones, negative for the converse, neutral on a tie |
| TextJournal.Detected | src/components/TextJournal.tsx:62-67 | an emotion is detected exactly when one of its keywords is a substring of the lower-cased text |
| TextJournal.DetectedDistinct | src/components/TextJournal.tsx:62-67 | no emotion is detected twice |
| TextJournal.DetectEmotions | src/components/TextJournal.tsx:62-67 | the detection loop pushes exactly the detected emotions, in table order |
| TextJournal.ThemesIn | src/components/TextJournal.tsx:70-73 | a theme is kept exactly when it is a substring of the lower-cased text |
| TextJournal.ThemesInIsFilter | src/components/TextJournal.tsx:71-73 | the themes are the theme list filtered by containment, in list order |
| TextJournal.ThemesInDistinct | src/components/TextJournal.tsx:70-73 | no theme is listed twice |
| TextJournal.Confidence | src/components/TextJournal.tsx:76 | confidence lies in [50, 90], is 50 exactly for no words and no emotions, and reaches 90 from four emotions |
| TextJournal.Analyze | src/components/TextJournal.tsx:36-85 | the analysis lists at least one emotion, no emotion or theme twice, and a confidence in [50, 90] |
| TextJournal.WordCountOfBlank | src/components/TextJournal.tsx:37-38 | the word count is zero exactly for blank text |
| TextJournal.EmotionsOfText | src/components/TextJournal.tsx:62-80 | each table emotion is listed exactly when it fires; the list is `[neutral]` exactly when none fires |
| TextJournal.ThemesOfText | src/components/TextJournal.tsx:70-73 | a theme is listed exactly when it is in the theme list and in the lower-cased text |
| TextJournal.SentimentOfText | src/components/TextJournal.tsx:37-50 | the sentiment compares the numbers of positive and negative whole words |
| TextJournal.AnalyzeText | src/components/TextJournal.tsx:36-85 | the analysis routine computes the specified analysis |
| TextJournal.WithoutId | src/components/TextJournal.tsx:115 | the kept entries are exactly those with another id |
| TextJournal.WithoutAbsentId | src/components/TextJournal.tsx:115 | deleting an id no entry has changes nothing |
| TextJournal.WithoutIdAppend | src/components/TextJournal.tsx:115 | deletion works piecewise, so the remaining entries keep their order |
| TextJournal.WithoutIdTwice | src/components/TextJournal.tsx:115 | deleting the same id twice is deleting it once |
| TextJournal.EmotionListsCount | src/components/TextJournal.tsx:151-154 | since no analysis lists an emotion twice, an emotion's frequency over the entries is the number of entries in which it was detected |
| TextJournal.ThemeListsCount | src/components/TextJournal.tsx:155-157 | likewise a theme's frequency is the number of entries in which it was found |
| TextJournal.Top | src/components/TextJournal.tsx:163-164 | there is a top entry exactly when the tally is non-empty |
| TextJournal.TopIsFirstMaximum | src/components/TextJournal.tsx:163 | the top entry is the first entry with the largest count |
| TextJournal.TopIsMaximum | src/components/TextJournal.tsx:163 | the top entry is in the tally and no entry has a larger count |
| TextJournal.Insights | src/components/TextJournal.tsx:145-183 | no entries give no insights, and there are never more than two |
| TextJournal.AnalyzeWellFormed | src/components/TextJournal.tsx:78-84 | every analysis has an emotion and no repeated emotion or theme |
| TextJournal.InsightsShape | src/components/TextJournal.tsx:160-182 | with entries there is always the emotion insight first, and a theme insight second exactly when some entry has a theme |
| TextJournal.TallyShare | src/components/TextJournal.tsx:148-168 | a tallied emotion or theme appears in between 1 and all of the entries, so its share lies in (0, 100] |
| TextJournal.TopShare | src/components/TextJournal.tsx:163-178 | the top entry's share lies in (0, 100] |
| TextJournal.SharedEmotionInsight | src/components/TextJournal.tsx:160-170 | when one emotion appears in every entry, the emotion insight counts all entries and reports 100 percent |
| TextJournal.TopInsightInRange | src/components/TextJournal.tsx:163-180 | a top card carries a frequency in (0, 100] |
| TextJournal.InsightFrequencies | src/components/TextJournal.tsx:145-183 | every insight frequency lies in (0, 100] |
| TextJournal.EntriesOfCounts | src/components/TextJournal.tsx:148-163 | the entries of an object that counts a sequence are that sequence's tally |
| TextJournal.CountsSnoc | src/components/TextJournal.tsx:153 | incrementing `freq[x]` (from 0 when absent) keeps the object counting the visited elements and adds a new key last |
| TextJournal.CountInto | src/components/TextJournal.tsx:152-157 | the inner loop leaves the object counting everything visited so far, with keys in first-occurrence order |
| TextJournal.CountOccurrences | src/components/TextJournal.tsx:148-158 | the two frequency objects count every emotion and every theme of all entries |
| TextJournal.Journal.constructor | src/components/TextJournal.tsx:30-33 | empty draft, no entries, not analysing, nothing selected |
| TextJournal.Journal.SetDraft | src/components/TextJournal.tsx:205 | the draft becomes the typed text |
| TextJournal.Journal.SaveEntry | src/components/TextJournal.tsx:87-112 | saves exactly when the draft is not blank: prepends the analysed entry and clears the draft; otherwise nothing changes |
| TextJournal.Journal.DeleteEntry | src/components/TextJournal.tsx:114-120 | removes the entries with that id and clears the selection exactly when it had that id |
| TextJournal.Journal.ToggleSelect | src/components/TextJournal.tsx:272 | deselects the selected entry, otherwise selects the clicked one |
| TextJournal.Journal.GetInsights | src/components/TextJournal.tsx:145-183 | the counting loops and the two sorts yield the specified insights |
| ProgressDashboard.EmotionsOfCount | src/components/ProgressDashboard.tsx:75-78 | the count kept for an emotion is the number of readings with that emotion |
| ProgressDashboard.SourcesOfCount | src/components/ProgressDashboard.tsx:113-116 | the count kept for a source is the number of readings from that source |
| ProgressDashboard.StatsOf | src/components/ProgressDashboard.tsx:81-85 | one row per tallied key, with its count and `(count / total) * 100` |
| ProgressDashboard.StatsOfTally | src/components/ProgressDashboard.tsx:75-85 | every row's count is its key's number of occurrences, every value has a row, keys are distinct |
| ProgressDashboard.RowsOfPermutation | src/components/ProgressDashboard.tsx:87 | reordering the rows keeps these properties |
| ProgressDashboard.EmotionStatsPerm | src/components/ProgressDashboard.tsx:87 | sorting only reorders the rows of the tally |
| ProgressDashboard.EmotionStatsRows | src/components/ProgressDashboard.tsx:74-88 | the sorted emotion rows count each emotion exactly once with its share |
| ProgressDashboard.EmotionStatsSorted | src/components/ProgressDashboard.tsx:87 | the rows are in non-increasing order of percentage |
| ProgressDashboard.EmotionStatsStable | src/components/ProgressDashboard.tsx:87 | rows with equal percentage keep first-occurrence order |
| ProgressDashboard.StatsCountSum | src/components/ProgressDashboard.tsx:81-85 | the rows' counts add up to the tallied total |
| ProgressDashboard.StatsPercentageSum | src/components/ProgressDashboard.tsx:81-85 | the rows' percentages add up to the percentage of the tallied total |
| ProgressDashboard.EmotionCountsSum | src/components/ProgressDashboard.tsx:74-88 | the emotion counts add up to the number of readings |
| ProgressDashboard.EmotionPercentagesSum | src/components/ProgressDashboard.tsx:74-88 | the emotion percentages add up to 100 |
| ProgressDashboard.EmotionPercentagesInRange | src/components/ProgressDashboard.tsx:80-85 | every emotion percentage lies in (0, 100] |
| ProgressDashboard.SourceStatsRows | src/components/ProgressDashboard.tsx:112-124 | the source rows count each source exactly once, in first-occurrence order |
| ProgressDashboard.SourceCountsSum | src/components/ProgressDashboard.tsx:112-124 | the source counts add up to the number of readings |
| ProgressDashboard.ScoreFor | src/components/ProgressDashboard.tsx:100 | a category's score is found exactly when the snapshot has that category |
| ProgressDashboard.CategoryChanges | src/components/ProgressDashboard.tsx:98-102 | one row per latest category: its current score, and the change from the previous score when there is one |
| ProgressDashboard.ScoreForKey | src/components/ProgressDashboard.tsx:100 | in a score record without repeated keys, looking a category up gives the score stored under it |
| ProgressDashboard.ChangeAgainstMatch | src/components/ProgressDashboard.tsx:98-102 | with a previous record without repeated keys, a category's change is its latest score minus the previous score stored under that key |
| ProgressDashboard.EqProgression | src/components/ProgressDashboard.tsx:91-109 | no progression exactly when there are fewer than two snapshots |
| ProgressDashboard.ProgressionUsesLastTwo | src/components/ProgressDashboard.tsx:94-97 | only the last two snapshots matter; the change is latest minus previous |
| ProgressDashboard.ChangesDefined | src/components/ProgressDashboard.tsx:98-102 | every change is defined when the previous snapshot has every latest category |
| ProgressDashboard.MockProgression | src/components/ProgressDashboard.tsx:45-109 | on the sample history: change 7, latest 72, five rows, self-awareness +8 to 68, social-skills +6 to 78 |
| ProgressDashboard.MockHistoryWellFormed | src/components/ProgressDashboard.tsx:45-68 | each sample snapshot lists every category once |
| EmotionDetector.Classify | src/components/EmotionDetector.tsx:42-49 | the reading carries one of the six labels and a confidence in [0.6, 1) |
| EmotionDetector.Appended | src/components/EmotionDetector.tsx:52 | `[...prev.slice(-9), r]` holds at most ten readings and ends with `r` |
| EmotionDetector.AppendedKeepsOrder | src/components/EmotionDetector.tsx:52 | before `r` come the last (at most nine) earlier readings, in order |
| EmotionDetector.AppendedBelowLimit | src/components/EmotionDetector.tsx:52 | below ten readings nothing is dropped |
| EmotionDetector.AppendedAtLimit | src/components/EmotionDetector.tsx:52 | at ten readings exactly the oldest is dropped |
| EmotionDetector.AppendedRecent | src/components/EmotionDetector.tsx:52 | appending to the ten most recent readings gives the ten most recent |
| EmotionDetector.ReplayKeepsRecent | src/components/EmotionDetector.tsx:52 | recording readings one by one leaves exactly the last ten, in order |
| EmotionDetector.Timeline | src/components/EmotionDetector.tsx:230 | the timeline shows at most ten readings |
| EmotionDetector.TimelineIsHistory | src/components/EmotionDetector.tsx:230 | within the bound, the timeline is the whole history |
| EmotionDetector.Detector.constructor | src/components/EmotionDetector.tsx:15-22 | inactive, no reading, empty history, no stream or timer |
| EmotionDetector.Detector.RequestCamera | src/components/EmotionDetector.tsx:57 | the camera request is pending |
| EmotionDetector.Detector.CameraDenied | src/components/EmotionDetector.tsx:79-83 | a failed request ends the pending state |
| EmotionDetector.Detector.CameraGranted | src/components/EmotionDetector.tsx:66-68 | the stream is kept only when the video element is mounted |
| EmotionDetector.Detector.MetadataLoaded | src/components/EmotionDetector.tsx:70-77 | the camera is live, no longer pending, and the analysis timer is set |
| EmotionDetector.Detector.Tick | src/components/EmotionDetector.tsx:27-53 | runs only while the analysis timer is set, so no reading arrives after `StopCamera` clears it; with a frame, the reading becomes current and is appended to the history, which stays the last ten recorded; without one nothing changes |
| EmotionDetector.Detector.StopCamera | src/components/EmotionDetector.tsx:86-100 | stream and timer released, inactive, no current reading; the history stays |
| EmotionDetector.Detector.ResetAnalysis | src/components/EmotionDetector.tsx:102-106 | the history and current reading are cleared |
| VoiceAnalyzer.AnalyzeVoice | src/components/VoiceAnalyzer.tsx:42-59 | one of the six labels and three sentiments, confidence in [0.7, 1), energy in [0, 100) |
| VoiceAnalyzer.Level | src/components/VoiceAnalyzer.tsx:70 | the average of a byte-frequency sample lies in [0, 255] |
| VoiceAnalyzer.Levels | src/components/VoiceAnalyzer.tsx:68-74 | one level per sample, in order |
| VoiceAnalyzer.MonitorAudioLevel | src/components/VoiceAnalyzer.tsx:62-79 | the update loop stores one level per frame while the flag it sees is true, otherwise only the first |
| VoiceAnalyzer.MonitorFromStartAsWritten | src/components/VoiceAnalyzer.tsx:62-79 | as written: the monitor called at line 144 reads the `isRecording` of the click render, which is false, so the `if (isRecording)` at line 73 never reschedules `updateLevel`; of two or more frames only the first level (line 71) is stored |
| VoiceAnalyzer.MonitorWhileRecording | src/components/VoiceAnalyzer.tsx:62-79 | as intended: with `isRecording` true at line 73, `updateLevel` reruns every frame (line 74) and stores each frame's level (line 71) in order; the last stored is the last frame's |
| VoiceAnalyzer.WithoutId | src/components/VoiceAnalyzer.tsx:199 | the kept recordings are exactly those with another id |
| VoiceAnalyzer.WithoutIdAppend | src/components/VoiceAnalyzer.tsx:199 | deletion works piecewise, so the rest keep their order |
| VoiceAnalyzer.WithoutNewest | src/components/VoiceAnalyzer.tsx:197-207 | deleting a just-added recording with a fresh id restores the list before it |
| VoiceAnalyzer.FormatTime | src/components/VoiceAnalyzer.tsx:218-222 | the text built at line 221 has digits, a colon third from the end, then exactly two digits, as the two-character zero padding of line 221 makes them |
| VoiceAnalyzer.FormatTimeFields | src/components/VoiceAnalyzer.tsx:218-222 | the field before the colon reads back as the whole minutes (line 219) and the two digits after it as the remaining seconds (line 220) |
| VoiceAnalyzer.ParseTime | src/components/VoiceAnalyzer.tsx:218-222 | only `m:ss` text reads as a time |
| VoiceAnalyzer.SecondsField | src/components/VoiceAnalyzer.tsx:220-221 | the padded seconds field is two characters and reads back as the seconds |
| VoiceAnalyzer.ParseFormatTime | src/components/VoiceAnalyzer.tsx:218-222 | the timer text reads back as the seconds it shows |
| VoiceAnalyzer.FormatTimeInjective | src/components/VoiceAnalyzer.tsx:218-222 | different times never show the same text |
| VoiceAnalyzer.Recorder.constructor | src/components/VoiceAnalyzer.tsx:27-39 | not recording, no recordings or analysis, counter and level zero |
| VoiceAnalyzer.Recorder.StartRecording | src/components/VoiceAnalyzer.tsx:81-151 | `granted` is whether `getUserMedia` resolves. If it does: recorder stored (line 133), `isRecording` true (line 135), `recordingTime` 0 (line 136), interval running (lines 139-141), and the `onstop` closure of line 114 keeps the `recordingTime` from before the reset. If it is refused (catch at line 147), nothing changes |
| VoiceAnalyzer.Recorder.TimerTick | src/components/VoiceAnalyzer.tsx:139-141 | each second adds one to the counter |
| VoiceAnalyzer.Recorder.SampleLevel | src/components/VoiceAnalyzer.tsx:68-71 | the level shown is the sample's average |
| VoiceAnalyzer.Recorder.StopRecording | src/components/VoiceAnalyzer.tsx:153-171 | only while recording: stops, zeroes the level, clears the timer; otherwise nothing changes |
| VoiceAnalyzer.Recorder.RecorderStoppedAsWritten | src/components/VoiceAnalyzer.tsx:114-131 | as written: `onstop` prepends (line 128) a recording whose `duration` (line 123) is the `recordingTime` captured when recording started, and shows its analysis (line 129) |
| VoiceAnalyzer.Recorder.RecorderStopped | src/components/VoiceAnalyzer.tsx:114-131 | as intended: the same prepend (line 128) and display (line 129), with `duration` (line 123) the seconds counted by the interval since recording started |
| VoiceAnalyzer.Recorder.DeleteRecording | src/components/VoiceAnalyzer.tsx:197-207 | removes the recordings with that id, keeping the order of the rest |
| VoiceAnalyzer.RecordFor | src/components/VoiceAnalyzer.tsx:81-171 | a full recording of `n` seconds prepends duration `n` as intended, or the previous counter value as written |
| VoiceAnalyzer.StaleDurationWitness | src/components/VoiceAnalyzer.tsx:123 | recording 5 s and then 3 s: the newest-first durations are exactly 5, 0 with line 123 as written, and 3, 5 as intended |

## Left out

- I/O is not modelled: camera and microphone streams, media recorder chunks, blobs and object URLs, `URL.revokeObjectURL`, audio playback (`playRecording`, `pausePlayback`, the `isPlaying` flag driven by the audio element), downloads, toasts and console output.
- Timing is not modelled: timers are reduced to their ticks, the 1500 ms save delay to one step, and ids and timestamps (`Date.now()`, `new Date()`) are parameters.
- `Math.random()` results are parameters in [0, 1) (`Draws`).
- Presentation is not modelled: colours, icons, `toFixed`/`Math.round` rounding for display, and the timeframe selector.
- EQAssessment.CalculateResults: requires every category to have an answer. With an unanswered category the code divides `0 / 0` and yields NaN. The session only completes with every question answered, so this cannot arise from the screen.
- EQAssessment.Session.HandleAnswer: requires an option index in 0..3, the values the radio group produces (`parseInt` of an option index).
- EQAssessment.Session.NextQuestion: requires the shown question to be answered, because the Next button is disabled until then.
- The question and option texts of the bank are not modelled: only ids, categories and weights affect the result.
- Lower-casing covers ASCII letters only. JavaScript's full Unicode case mapping is not modelled.
- Scores, percentages and confidences are exact reals, not IEEE doubles. The level thresholds, sums and score differences are therefore exact.
- TextJournal.Insights: the insight cards carry the topic, key, count and frequency. The English `pattern`/`description` sentences built from them are not modelled.
- TextJournal.Journal.SaveEntry: the save is one atomic step. The interleaving of other events during the 1500 ms delay is not modelled.
- ProgressDashboard.CategoryChanges: a category missing from the previous snapshot gives `None` where JavaScript computes NaN.
- ProgressDashboard.CategoryChanges: a snapshot's `categoryScores` object is a list of key and score entries in key order. Such a list could repeat a key, which an object cannot; `ScoreFor` then takes the first entry. `WellFormed` states that keys are distinct, and `ChangeAgainstMatch` gives the object reading under it.
- ProgressDashboard: the eight sample readings (src/components/ProgressDashboard.tsx:34-43) are not part of this model. The emotion and source statistics are proved for any readings instead of being evaluated on that sample.
- ProgressDashboard: the `slice(-5)` list of recent readings is display only and is not modelled.
- EmotionDetector: the unmount cleanup (`useEffect` calling `stopCamera`) is the same state change as `StopCamera`, so it has no separate member.
- EmotionDetector.Detector.Tick: drawing the frame onto the canvas is reduced to a flag saying whether video, canvas and context exist.
- VoiceAnalyzer.Recorder.StartRecording: requires that no recording is running and no stop is still pending. Start is only offered while not recording, and the pending `onstop` is assumed to run before the next start.
- VoiceAnalyzer.Level: the analyser's frequency data are given as samples of byte values.

## Findings

| source | as written | input that shows it | evidently intended | confidence | as-written member | corrected member |
|---|---|---|---|---|---|---|
| src/components/VoiceAnalyzer.tsx:123 | the `onstop` handler reads `recordingTime` from the render in which recording started, so a recording's duration is the previous recording's length (0 for the first) | record 5 seconds, then 3 seconds: the list shows 5 and 0 instead of 3 and 5 | the duration is the seconds counted for this recording | not executed; high | VoiceAnalyzer.Recorder.RecorderStoppedAsWritten, VoiceAnalyzer.StaleDurationWitness | VoiceAnalyzer.Recorder.RecorderStopped |
| src/components/VoiceAnalyzer.tsx:73 | `monitorAudioLevel` is the callback of the render in which recording was off, so `updateLevel` sees `isRecording` false and never schedules another frame | any recording lasting two or more animation frames: one level is stored | the level is refreshed every frame while recording | not executed; high | VoiceAnalyzer.MonitorFromStartAsWritten | VoiceAnalyzer.MonitorWhileRecording |
