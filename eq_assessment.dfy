/**
 * The emotional-intelligence questionnaire: a fixed bank of twelve questions,
 * the scorer that turns the answers into an overall score, per-category
 * scores, a level and the strongest and weakest categories, and the session
 * state the questionnaire screen keeps while the user answers.
 */
module EQAssessment {
  import opened Optional
  import opened Seqs
  import opened Strings
  import opened Ranking

  datatype Category = SelfAwareness | SelfRegulation | Motivation | Empathy | SocialSkills

  /** The key a category is stored under. */
  function Key(c: Category): string
  {
    match c
    case SelfAwareness => "self-awareness"
    case SelfRegulation => "self-regulation"
    case Motivation => "motivation"
    case Empathy => "empathy"
    case SocialSkills => "social-skills"
  }

  /** A question; its prompt and option texts are presentation only and not modelled. */
  datatype Question = Question(id: int, category: Category, weights: seq<int>)

  /** Options per question; also the weight every question is normalised by. */
  const OptionCount: nat := 4
  const MaxWeight: int := 4

  const Bank: seq<Question> := [
    Question(1, SelfAwareness, [1, 2, 3, 4]),
    Question(2, SelfAwareness, [1, 2, 3, 4]),
    Question(3, SelfRegulation, [1, 2, 3, 4]),
    Question(4, SelfRegulation, [1, 2, 3, 4]),
    Question(5, Motivation, [1, 2, 3, 4]),
    Question(6, Motivation, [1, 2, 3, 4]),
    Question(7, Empathy, [1, 2, 3, 4]),
    Question(8, Empathy, [1, 2, 3, 4]),
    Question(9, SocialSkills, [1, 2, 3, 4]),
    Question(10, SocialSkills, [1, 2, 3, 4]),
    Question(11, SelfAwareness, [1, 2, 3, 4]),
    Question(12, Motivation, [1, 2, 3, 4])
  ]

  /** The categories in the order the bank first mentions them. */
  const CategoryOrder: seq<Category> := [SelfAwareness, SelfRegulation, Motivation, Empathy, SocialSkills]

  /** Every question offers the weights 1, 2, 3, 4 in option order. */
  predicate StandardWeights(qs: seq<Question>)
  {
    forall i :: 0 <= i < |qs| ==> qs[i].weights == [1, 2, 3, 4]
  }

  /** Question id to the index of the chosen option. */
  type Answers = map<int, int>

  /** Every recorded answer is an option index. */
  predicate ValidAnswers(answers: Answers)
  {
    forall id :: id in answers ==> 0 <= answers[id] < OptionCount
  }

  lemma BankShape()
    ensures |Bank| == 12 && StandardWeights(Bank)
  {
  }

  /** What a question adds to the total: the weight of the chosen option, nothing when unanswered. */
  function Contribution(q: Question, answers: Answers): int
    requires ValidAnswers(answers) && |q.weights| == OptionCount
  {
    if q.id in answers then q.weights[answers[q.id]] else 0
  }

  /** With the standard weights an answered question adds its option index plus one. */
  lemma ContributionRange(q: Question, answers: Answers)
    requires ValidAnswers(answers) && q.weights == [1, 2, 3, 4]
    ensures q.id in answers ==> Contribution(q, answers) == answers[q.id] + 1
    ensures q.id in answers ==> 1 <= Contribution(q, answers) <= 4
    ensures q.id !in answers ==> Contribution(q, answers) == 0
  {
  }

  /** The categories of the questions, in bank order. */
  function Categories(qs: seq<Question>): (cs: seq<Category>)
    ensures |cs| == |qs|
    ensures forall i :: 0 <= i < |qs| ==> cs[i] == qs[i].category
  {
    if qs == [] then [] else Categories(qs[..|qs| - 1]) + [qs[|qs| - 1].category]
  }

  /** The sum of the weights of the answered questions (`totalScore`). */
  function Total(qs: seq<Question>, answers: Answers): int
    requires ValidAnswers(answers) && StandardWeights(qs)
  {
    if qs == [] then 0
    else Total(qs[..|qs| - 1], answers) + Contribution(qs[|qs| - 1], answers)
  }

  /** The sum of the weights of the answered questions of category `c`. */
  function CategorySum(qs: seq<Question>, answers: Answers, c: Category): int
    requires ValidAnswers(answers) && StandardWeights(qs)
  {
    if qs == [] then 0
    else CategorySum(qs[..|qs| - 1], answers, c)
         + (if qs[|qs| - 1].category == c then Contribution(qs[|qs| - 1], answers) else 0)
  }

  /** The number of answered questions of category `c`. */
  function CategoryCount(qs: seq<Question>, answers: Answers, c: Category): nat
  {
    if qs == [] then 0
    else CategoryCount(qs[..|qs| - 1], answers, c)
         + (if qs[|qs| - 1].category == c && qs[|qs| - 1].id in answers then 1 else 0)
  }

  /** The number of answered questions. */
  function AnsweredCount(qs: seq<Question>, answers: Answers): nat
  {
    if qs == [] then 0
    else AnsweredCount(qs[..|qs| - 1], answers) + (if qs[|qs| - 1].id in answers then 1 else 0)
  }

  /** Each answered question adds between 1 and 4, each unanswered one nothing. */
  lemma {:induction false} TotalBounds(qs: seq<Question>, answers: Answers)
    requires ValidAnswers(answers) && StandardWeights(qs)
    ensures AnsweredCount(qs, answers) <= Total(qs, answers) <= MaxWeight * AnsweredCount(qs, answers)
  {
    if qs != [] {
      TotalBounds(qs[..|qs| - 1], answers);
      ContributionRange(qs[|qs| - 1], answers);
    }
  }

  /** The same bounds hold within a category. */
  lemma {:induction false} CategorySumBounds(qs: seq<Question>, answers: Answers, c: Category)
    requires ValidAnswers(answers) && StandardWeights(qs)
    ensures CategoryCount(qs, answers, c) <= CategorySum(qs, answers, c) <= MaxWeight * CategoryCount(qs, answers, c)
  {
    if qs != [] {
      CategorySumBounds(qs[..|qs| - 1], answers, c);
      ContributionRange(qs[|qs| - 1], answers);
    }
  }

  /** Answering every question with option `k` makes the total `(k + 1)` per question. */
  lemma {:induction false} TotalUniform(qs: seq<Question>, answers: Answers, k: int)
    requires ValidAnswers(answers) && StandardWeights(qs)
    requires forall i :: 0 <= i < |qs| ==> qs[i].id in answers && answers[qs[i].id] == k
    ensures Total(qs, answers) == (k + 1) * |qs|
  {
    if qs != [] {
      TotalUniform(qs[..|qs| - 1], answers, k);
      ContributionRange(qs[|qs| - 1], answers);
    }
  }

  /** Raising one answer (or giving a missing one) never lowers the total. */
  lemma {:induction false} TotalMonotone(qs: seq<Question>, answers: Answers, id: int, k: int)
    requires ValidAnswers(answers) && StandardWeights(qs)
    requires 0 <= k < OptionCount
    requires id in answers ==> answers[id] <= k
    ensures ValidAnswers(answers[id := k])
    ensures Total(qs, answers) <= Total(qs, answers[id := k])
  {
    if qs != [] {
      TotalMonotone(qs[..|qs| - 1], answers, id, k);
      ContributionRange(qs[|qs| - 1], answers);
      ContributionRange(qs[|qs| - 1], answers[id := k]);
    }
  }

  /** `(totalScore / maxPossibleScore) * 100`, where the maximum counts every question of the bank. */
  function Overall(total: int): real
  {
    (total as real / (|Bank| * MaxWeight) as real) * 100.0
  }

  /** `(score / (count * 4)) * 100` for a category with `count` answers. */
  function CategoryPercent(sum: int, count: nat): real
    requires count > 0
  {
    (sum as real / (count * MaxWeight) as real) * 100.0
  }

  /** A category score lies between 25 (all lowest options) and 100 (all highest). */
  lemma CategoryPercentRange(sum: int, count: nat)
    requires count > 0 && count <= sum <= MaxWeight * count
    ensures 25.0 <= CategoryPercent(sum, count) <= 100.0
  {
    var d := (count * MaxWeight) as real;
    assert d / 4.0 <= sum as real <= d;
    DivideBounds(sum as real, d);
  }

  lemma DivideBounds(x: real, d: real)
    requires d > 0.0 && d / 4.0 <= x <= d
    ensures 0.25 <= x / d <= 1.0
  {
    var q := x / d;
    assert q * d == x;
    assert (q - 0.25) * d >= 0.0;
    assert (1.0 - q) * d >= 0.0;
  }

  datatype Level = Developing | Proficient | Advanced | Expert

  /** The level thresholds: each case is an interval of the score, together they cover every score. */
  function LevelOf(score: real): (l: Level)
    ensures l == Expert <==> score >= 85.0
    ensures l == Advanced <==> 70.0 <= score < 85.0
    ensures l == Proficient <==> 55.0 <= score < 70.0
    ensures l == Developing <==> score < 55.0
  {
    if score >= 85.0 then Expert
    else if score >= 70.0 then Advanced
    else if score >= 55.0 then Proficient
    else Developing
  }

  /** The level as a condition on the integer total of the bank. */
  lemma LevelByTotal(total: int)
    ensures LevelOf(Overall(total)) == Expert <==> total >= 41
    ensures LevelOf(Overall(total)) == Advanced <==> 34 <= total <= 40
    ensures LevelOf(Overall(total)) == Proficient <==> 27 <= total <= 33
    ensures LevelOf(Overall(total)) == Developing <==> total <= 26
  {
    assert Overall(total) == total as real * 100.0 / 48.0;
  }

  /** All answers at the last option give 100 and Expert; all at the first give 25 and Developing. */
  lemma UniformAnswers(answers: Answers)
    requires ValidAnswers(answers)
    requires forall j :: 0 <= j < |Bank| ==> Bank[j].id in answers
    ensures StandardWeights(Bank)
    ensures (forall j :: 0 <= j < |Bank| ==> answers[Bank[j].id] == 3) ==>
              Overall(Total(Bank, answers)) == 100.0 && LevelOf(Overall(Total(Bank, answers))) == Expert
    ensures (forall j :: 0 <= j < |Bank| ==> answers[Bank[j].id] == 0) ==>
              Overall(Total(Bank, answers)) == 25.0 && LevelOf(Overall(Total(Bank, answers))) == Developing
  {
    BankShape();
    if forall j :: 0 <= j < |Bank| ==> answers[Bank[j].id] == 3 {
      TotalUniform(Bank, answers, 3);
    }
    if forall j :: 0 <= j < |Bank| ==> answers[Bank[j].id] == 0 {
      TotalUniform(Bank, answers, 0);
    }
  }

  /** The overall score lies in [0, 100] and never decreases when one answer is raised. */
  lemma OverallMonotone(answers: Answers, id: int, k: int)
    requires ValidAnswers(answers)
    requires 0 <= k < OptionCount
    requires id in answers ==> answers[id] <= k
    ensures StandardWeights(Bank) && ValidAnswers(answers[id := k])
    ensures 0.0 <= Overall(Total(Bank, answers)) <= 100.0
    ensures Overall(Total(Bank, answers)) <= Overall(Total(Bank, answers[id := k]))
  {
    BankShape();
    TotalMonotone(Bank, answers, id, k);
    TotalBounds(Bank, answers);
    AnsweredAtMost(Bank, answers);
  }

  lemma {:induction false} AnsweredAtMost(qs: seq<Question>, answers: Answers)
    ensures AnsweredCount(qs, answers) <= |qs|
  {
    if qs != [] {
      AnsweredAtMost(qs[..|qs| - 1], answers);
    }
  }

  /** Every category of the bank has at least one answer: the scores are then all defined. */
  predicate EveryCategoryAnswered(answers: Answers)
  {
    forall c: Category :: CategoryCount(Bank, answers, c) > 0
  }

  /** Every question of the bank has an answer. */
  predicate AllAnswered(answers: Answers)
  {
    forall j :: 0 <= j < |Bank| ==> Bank[j].id in answers
  }

  lemma {:induction false} AnsweredQuestionCounts(qs: seq<Question>, answers: Answers, j: nat)
    requires j < |qs| && qs[j].id in answers
    ensures CategoryCount(qs, answers, qs[j].category) > 0
  {
    if j < |qs| - 1 {
      AnsweredQuestionCounts(qs[..|qs| - 1], answers, j);
    }
  }

  /** A fully answered bank answers every category (each category has a question in the bank). */
  lemma AllAnsweredCoversCategories(answers: Answers)
    requires AllAnswered(answers)
    ensures EveryCategoryAnswered(answers)
  {
    forall c: Category
      ensures CategoryCount(Bank, answers, c) > 0
    {
      var j := match c
        case SelfAwareness => 0
        case SelfRegulation => 2
        case Motivation => 4
        case Empathy => 6
        case SocialSkills => 8;
      AnsweredQuestionCounts(Bank, answers, j);
    }
  }

  /** The category of each bank question, position by position. */
  predicate BankPattern(cs: seq<Category>)
  {
    && |cs| == 12
    && cs[0] == SelfAwareness && cs[1] == SelfAwareness && cs[2] == SelfRegulation && cs[3] == SelfRegulation
    && cs[4] == Motivation && cs[5] == Motivation && cs[6] == Empathy && cs[7] == Empathy
    && cs[8] == SocialSkills && cs[9] == SocialSkills && cs[10] == SelfAwareness && cs[11] == Motivation
  }

  lemma {:induction false} FirstMentionsOfFour(cs: seq<Category>)
    requires BankPattern(cs)
    ensures Keys(cs[..4]) == [SelfAwareness, SelfRegulation]
  {
    assert cs[..0] == [];
    KeysStep(cs, 0);
    assert Keys(cs[..1]) == [SelfAwareness];
    KeysStep(cs, 1);
    assert Keys(cs[..2]) == [SelfAwareness];
    KeysStep(cs, 2);
    assert Keys(cs[..3]) == [SelfAwareness, SelfRegulation];
    KeysStep(cs, 3);
  }

  lemma {:induction false} FirstMentionsOfEight(cs: seq<Category>)
    requires BankPattern(cs)
    ensures Keys(cs[..8]) == [SelfAwareness, SelfRegulation, Motivation, Empathy]
  {
    FirstMentionsOfFour(cs);
    KeysStep(cs, 4);
    assert Keys(cs[..5]) == [SelfAwareness, SelfRegulation, Motivation];
    KeysStep(cs, 5);
    KeysStep(cs, 6);
    assert Keys(cs[..7]) == [SelfAwareness, SelfRegulation, Motivation, Empathy];
    KeysStep(cs, 7);
  }

  lemma {:induction false} FirstMentionsOfTen(cs: seq<Category>)
    requires BankPattern(cs)
    ensures Keys(cs[..10]) == [SelfAwareness, SelfRegulation, Motivation, Empathy, SocialSkills]
  {
    FirstMentionsOfEight(cs);
    KeysStep(cs, 8);
    assert Keys(cs[..9]) == [SelfAwareness, SelfRegulation, Motivation, Empathy, SocialSkills];
    KeysStep(cs, 9);
  }

  lemma {:induction false} FirstMentions(cs: seq<Category>)
    requires BankPattern(cs)
    ensures Keys(cs) == CategoryOrder
  {
    FirstMentionsOfTen(cs);
    KeysStep(cs, 10);
    assert Keys(cs[..11]) == CategoryOrder;
    KeysStep(cs, 11);
    assert cs[..12] == cs;
  }

  /** The categories in first-mention order are the five categories. */
  lemma BankCategoryOrder()
    ensures Keys(Categories(Bank)) == CategoryOrder
  {
    FirstMentions(Categories(Bank));
  }

  /** A category with its score. */
  datatype Scored = Scored(category: Category, score: real)

  function ScoreOf(e: Scored): real
  {
    e.score
  }

  /**
   * The categories of scored entries, position by position: the projection
   * `Categories` makes of questions, taken over `Scored` rows. The ranking
   * lemmas state distinctness of categories through it, and
   * `ScoresForCategories` ties the two together.
   */
  function CategoriesOf(es: seq<Scored>): (cs: seq<Category>)
    ensures |cs| == |es|
    ensures forall i :: 0 <= i < |es| ==> cs[i] == es[i].category
  {
    if es == [] then [] else CategoriesOf(es[..|es| - 1]) + [es[|es| - 1].category]
  }

  /** The score entries for the categories `cs`, in that order. */
  function ScoresFor(cs: seq<Category>, answers: Answers): (es: seq<Scored>)
    requires ValidAnswers(answers) && EveryCategoryAnswered(answers)
    ensures |es| == |cs|
  {
    BankShape();
    if cs == [] then []
    else
      var c := cs[|cs| - 1];
      ScoresFor(cs[..|cs| - 1], answers)
        + [Scored(c, CategoryPercent(CategorySum(Bank, answers, c), CategoryCount(Bank, answers, c)))]
  }

  lemma {:induction false} ScoresForAt(cs: seq<Category>, answers: Answers, i: nat)
    requires ValidAnswers(answers) && EveryCategoryAnswered(answers)
    requires i < |cs|
    ensures StandardWeights(Bank)
    ensures ScoresFor(cs, answers)[i]
         == Scored(cs[i], CategoryPercent(CategorySum(Bank, answers, cs[i]), CategoryCount(Bank, answers, cs[i])))
  {
    BankShape();
    if i < |cs| - 1 {
      ScoresForAt(cs[..|cs| - 1], answers, i);
    }
  }

  /**
   * Scoring keeps the categories it is given, in order, so the categories of
   * the score rows for the bank are the bank's own `Categories`, first mentions only.
   */
  lemma ScoresForCategories(cs: seq<Category>, answers: Answers)
    requires ValidAnswers(answers) && EveryCategoryAnswered(answers)
    ensures CategoriesOf(ScoresFor(cs, answers)) == cs
    ensures CategoriesOf(ScoresFor(Keys(Categories(Bank)), answers)) == Keys(Categories(Bank))
  {
    forall i | 0 <= i < |cs|
      ensures CategoriesOf(ScoresFor(cs, answers))[i] == cs[i]
    {
      ScoresForAt(cs, answers, i);
    }
    var ks := Keys(Categories(Bank));
    forall i | 0 <= i < |ks|
      ensures CategoriesOf(ScoresFor(ks, answers))[i] == ks[i]
    {
      ScoresForAt(ks, answers, i);
    }
  }

  /** `finalCategoryScores`: every category of the bank, in bank order, with its score. */
  function CategoryScores(answers: Answers): seq<Scored>
    requires ValidAnswers(answers) && EveryCategoryAnswered(answers)
  {
    ScoresFor(Keys(Categories(Bank)), answers)
  }

  /**
   * The score record has exactly the five bank categories as keys, in bank
   * order, and every score is its category's sum over `count * 4`, between 25 and 100.
   */
  lemma CategoryScoresShape(answers: Answers)
    requires ValidAnswers(answers) && EveryCategoryAnswered(answers)
    ensures StandardWeights(Bank)
    ensures CategoriesOf(CategoryScores(answers)) == CategoryOrder
    ensures forall i :: 0 <= i < 5 ==>
              CategoryScores(answers)[i].score
              == CategoryPercent(CategorySum(Bank, answers, CategoryOrder[i]), CategoryCount(Bank, answers, CategoryOrder[i]))
    ensures forall i :: 0 <= i < 5 ==> 25.0 <= CategoryScores(answers)[i].score <= 100.0
  {
    BankShape();
    BankCategoryOrder();
    var es := CategoryScores(answers);
    forall i | 0 <= i < 5
      ensures es[i] == Scored(CategoryOrder[i],
                CategoryPercent(CategorySum(Bank, answers, CategoryOrder[i]), CategoryCount(Bank, answers, CategoryOrder[i])))
      ensures 25.0 <= es[i].score <= 100.0
    {
      ScoresForAt(CategoryOrder, answers, i);
      CategorySumBounds(Bank, answers, CategoryOrder[i]);
      CategoryPercentRange(CategorySum(Bank, answers, CategoryOrder[i]), CategoryCount(Bank, answers, CategoryOrder[i]));
    }
  }

  predicate IsWordChar(c: char)
  {
    ('a' <= c <= 'z') || ('A' <= c <= 'Z') || ('0' <= c <= '9') || c == '_'
  }

  function UpperChar(c: char): char
  {
    if 'a' <= c <= 'z' then (c as int - 32) as char else c
  }

  /** `s.replace(a, b)` with a one-character string pattern: only the first occurrence changes. */
  function ReplaceFirst(s: string, a: char, b: char): (r: string)
    ensures |r| == |s|
  {
    if s == [] then []
    else if s[0] == a then [b] + s[1..]
    else [s[0]] + ReplaceFirst(s[1..], a, b)
  }

  /**
   * `s.replace(/\b\w/g, l => l.toUpperCase())`: a word character whose
   * predecessor (`afterWord` for the first one) is not a word character is upper-cased.
   */
  function CapitalizeFrom(s: string, afterWord: bool): (r: string)
    ensures |r| == |s|
  {
    if s == [] then []
    else [if IsWordChar(s[0]) && !afterWord then UpperChar(s[0]) else s[0]] + CapitalizeFrom(s[1..], IsWordChar(s[0]))
  }

  function Capitalize(s: string): (r: string)
    ensures |r| == |s|
  {
    CapitalizeFrom(s, false)
  }

  /** The label shown for a category key: first `-` to a space, then each word capitalised. */
  function Label(key: string): string
  {
    Capitalize(ReplaceFirst(key, '-', ' '))
  }

  /** The key a label was made from: lower-cased, first space back to `-`. */
  function KeyOfLabel(text: string): string
  {
    ReplaceFirst(Lower(text), ' ', '-')
  }

  /** Lower-case ASCII text without spaces, such as every category key. */
  predicate PlainKey(s: string)
  {
    forall i :: 0 <= i < |s| ==> !('A' <= s[i] <= 'Z') && s[i] != ' '
  }

  lemma {:induction false} ReplaceFirstInverse(s: string)
    requires forall i :: 0 <= i < |s| ==> s[i] != ' '
    ensures ReplaceFirst(ReplaceFirst(s, '-', ' '), ' ', '-') == s
  {
    if s != [] && s[0] != '-' {
      ReplaceFirstInverse(s[1..]);
      assert ([s[0]] + ReplaceFirst(s[1..], '-', ' '))[1..] == ReplaceFirst(s[1..], '-', ' ');
    }
  }

  lemma ReplaceFirstKeepsUpper(s: string)
    requires forall i :: 0 <= i < |s| ==> !('A' <= s[i] <= 'Z')
    ensures forall i :: 0 <= i < |s| ==> !('A' <= ReplaceFirst(s, '-', ' ')[i] <= 'Z')
  {
    if s != [] {
      ReplaceFirstKeepsUpper(s[1..]);
      if s[0] != '-' {
        var r := ReplaceFirst(s, '-', ' ');
        forall i | 1 <= i < |s|
          ensures r[i] == ReplaceFirst(s[1..], '-', ' ')[i - 1]
        {
        }
      }
    }
  }

  /** Capitalising changes only letters' case, so lower-casing undoes it on text without capitals. */
  lemma {:induction false} LowerCapitalize(t: string, afterWord: bool)
    requires forall i :: 0 <= i < |t| ==> !('A' <= t[i] <= 'Z')
    ensures Lower(CapitalizeFrom(t, afterWord)) == t
  {
    if t != [] {
      LowerCapitalize(t[1..], IsWordChar(t[0]));
      var r := CapitalizeFrom(t, afterWord);
      assert r[1..] == CapitalizeFrom(t[1..], IsWordChar(t[0]));
      forall i | 0 <= i < |t|
        ensures Lower(r)[i] == t[i]
      {
        if i > 0 {
          assert Lower(r)[i] == Lower(r[1..])[i - 1];
        }
      }
    }
  }

  /** Reading a label back gives its key: labels of distinct keys are distinct. */
  lemma LabelRoundTrip(key: string)
    requires PlainKey(key)
    ensures KeyOfLabel(Label(key)) == key
  {
    ReplaceFirstKeepsUpper(key);
    LowerCapitalize(ReplaceFirst(key, '-', ' '), false);
    ReplaceFirstInverse(key);
  }

  /** A non-empty run of lower-case letters. */
  predicate LowerWord(w: string)
  {
    |w| > 0 && forall i :: 0 <= i < |w| ==> 'a' <= w[i] <= 'z'
  }

  /** The word with its first letter upper-cased. */
  function Capitalized(w: string): string
    requires |w| > 0
  {
    [UpperChar(w[0])] + w[1..]
  }

  lemma {:induction false} ReplaceFirstInFirstGap(a: string, b: string)
    requires LowerWord(a)
    ensures ReplaceFirst(a + "-" + b, '-', ' ') == a + " " + b
  {
    var s := a + "-" + b;
    assert s[1..] == a[1..] + "-" + b;
    if |a| > 1 {
      ReplaceFirstInFirstGap(a[1..], b);
    } else {
      assert s[1..] == "-" + b;
      assert (s[1..])[1..] == b;
    }
  }

  /** Inside a word nothing is capitalised. */
  lemma {:induction false} CapitalizeInsideWord(w: string, rest: string)
    requires forall i :: 0 <= i < |w| ==> 'a' <= w[i] <= 'z'
    ensures CapitalizeFrom(w + rest, true) == w + CapitalizeFrom(rest, true)
  {
    if w == [] {
      assert w + rest == rest;
    } else {
      assert (w + rest)[1..] == w[1..] + rest;
      CapitalizeInsideWord(w[1..], rest);
    }
  }

  /** A word after a non-word character gets a capital initial and keeps the rest. */
  lemma CapitalizeWord(w: string, rest: string)
    requires LowerWord(w)
    ensures CapitalizeFrom(w + rest, false) == Capitalized(w) + CapitalizeFrom(rest, true)
  {
    assert (w + rest)[1..] == w[1..] + rest;
    CapitalizeInsideWord(w[1..], rest);
  }

  /** A one-word key is shown with a capital initial. */
  lemma LabelOfWord(a: string)
    requires LowerWord(a)
    ensures Label(a) == Capitalized(a)
  {
    assert ReplaceFirst(a, '-', ' ') == a by {
      ReplaceFirstAbsent(a);
    }
    CapitalizeWord(a, "");
    assert a + "" == a;
  }

  lemma {:induction false} ReplaceFirstAbsent(a: string)
    requires forall i :: 0 <= i < |a| ==> a[i] != '-'
    ensures ReplaceFirst(a, '-', ' ') == a
  {
    if a != [] {
      ReplaceFirstAbsent(a[1..]);
    }
  }

  /** A two-word key is shown as two capitalised words separated by a space. */
  lemma LabelOfTwoWords(a: string, b: string)
    requires LowerWord(a) && LowerWord(b)
    ensures Label(a + "-" + b) == Capitalized(a) + " " + Capitalized(b)
  {
    ReplaceFirstInFirstGap(a, b);
    CapitalizeWord(a, " " + b);
    assert (" " + b)[1..] == b;
    CapitalizeWord(b, "");
    assert b + "" == b;
    assert a + " " + b == a + (" " + b);
  }

  /** How two of the category keys are shown. */
  lemma LabelExamples()
    ensures Label("social" + "-" + "skills") == "Social Skills"
    ensures Label("empathy") == "Empathy"
  {
    LabelOfTwoWords("social", "skills");
    assert Capitalized("social") == "Social" by {
      assert UpperChar('s') == 'S';
      assert "social"[1..] == "ocial";
    }
    assert Capitalized("skills") == "Skills" by {
      assert UpperChar('s') == 'S';
      assert "skills"[1..] == "kills";
    }
    assert "Social" + " " + "Skills" == "Social Skills";
    LabelOfWord("empathy");
    assert Capitalized("empathy") == "Empathy" by {
      assert UpperChar('e') == 'E';
      assert "empathy"[1..] == "mpathy";
    }
  }

  /** Distinct keys get distinct labels. */
  lemma LabelInjective(k1: string, k2: string)
    requires PlainKey(k1) && PlainKey(k2) && k1 != k2
    ensures Label(k1) != Label(k2)
  {
    LabelRoundTrip(k1);
    LabelRoundTrip(k2);
  }

  lemma KeyIsPlain(c: Category)
    ensures PlainKey(Key(c))
  {
  }

  lemma KeyInjective(c: Category, d: Category)
    requires c != d
    ensures Key(c) != Key(d)
  {
  }

  /** The five category labels are pairwise distinct. */
  lemma CategoryLabelsDistinct(c: Category, d: Category)
    requires c != d
    ensures Label(Key(c)) != Label(Key(d))
  {
    KeyIsPlain(c);
    KeyIsPlain(d);
    KeyInjective(c, d);
    LabelInjective(Key(c), Key(d));
  }

  function Labels(es: seq<Scored>): (ls: seq<string>)
    ensures |ls| == |es|
    ensures forall i :: 0 <= i < |es| ==> ls[i] == Label(Key(es[i].category))
  {
    if es == [] then [] else [Label(Key(es[0].category))] + Labels(es[1..])
  }

  /** The first two categories of the stable descending ranking, as labels. */
  function Strengths(scores: seq<Scored>): (ls: seq<string>)
    ensures |ls| <= 2
  {
    Labels(Take(SortDesc(scores, ScoreOf), 2))
  }

  /** The last two categories of the same ranking (`slice(-2)`), as labels, still in descending order. */
  function Improvements(scores: seq<Scored>): (ls: seq<string>)
    ensures |ls| <= 2
  {
    Labels(TakeLast(SortDesc(scores, ScoreOf), 2))
  }

  /** Ranking reorders the entries, so categories that were distinct stay distinct. */
  lemma {:induction false} RankingKeepsCategoriesDistinct(scores: seq<Scored>)
    requires Distinct(CategoriesOf(scores))
    ensures Distinct(CategoriesOf(SortDesc(scores, ScoreOf)))
  {
    var r := SortDesc(scores, ScoreOf);
    assert Distinct(scores) by {
      forall i, j | 0 <= i < j < |scores|
        ensures scores[i] != scores[j]
      {
        assert CategoriesOf(scores)[i] != CategoriesOf(scores)[j];
      }
    }
    SortDescPerm(scores, ScoreOf);
    DistinctPermutation(scores, r);
    forall i, j | 0 <= i < j < |r|
      ensures CategoriesOf(r)[i] != CategoriesOf(r)[j]
    {
      assert r[i] in multiset(scores) && r[j] in multiset(scores);
      var a :| 0 <= a < |scores| && scores[a] == r[i];
      var b :| 0 <= b < |scores| && scores[b] == r[j];
      if a < b {
        assert CategoriesOf(scores)[a] != CategoriesOf(scores)[b];
      } else {
        assert CategoriesOf(scores)[b] != CategoriesOf(scores)[a];
      }
    }
  }

  /**
   * Of five entries, no entry outranks the first two of the ranking and no
   * entry ranks below its last two.
   */
  lemma {:induction false} RankingEnds(scores: seq<Scored>)
    requires |scores| == 5
    ensures var r := SortDesc(scores, ScoreOf);
      forall i :: 0 <= i < 5 ==>
        && scores[i].score <= r[0].score && (scores[i] != r[0] ==> scores[i].score <= r[1].score)
        && r[4].score <= scores[i].score && (scores[i] != r[4] ==> r[3].score <= scores[i].score)
  {
    var r := SortDesc(scores, ScoreOf);
    SortDescSorted(scores, ScoreOf);
    SortDescPerm(scores, ScoreOf);
    forall i | 0 <= i < 5
      ensures scores[i].score <= r[0].score && (scores[i] != r[0] ==> scores[i].score <= r[1].score)
      ensures r[4].score <= scores[i].score && (scores[i] != r[4] ==> r[3].score <= scores[i].score)
    {
      assert scores[i] in multiset(r);
      assert scores[i] in r;
    }
  }

  /**
   * With five distinct categories: the strengths are the labels of the first
   * two entries of the ranking, the improvements those of its last two, in
   * descending order; the two lists are disjoint and the middle category is
   * in neither.
   */
  lemma {:induction false} RankingSplit(scores: seq<Scored>)
    requires |scores| == 5 && Distinct(CategoriesOf(scores))
    ensures var r := SortDesc(scores, ScoreOf);
      && r[0].score >= r[1].score >= r[2].score >= r[3].score >= r[4].score
      && Strengths(scores) == [Label(Key(r[0].category)), Label(Key(r[1].category))]
      && Improvements(scores) == [Label(Key(r[3].category)), Label(Key(r[4].category))]
      && (forall l :: l in Strengths(scores) ==> l !in Improvements(scores))
      && Label(Key(r[2].category)) !in Strengths(scores) + Improvements(scores)
  {
    var r := SortDesc(scores, ScoreOf);
    SortDescSorted(scores, ScoreOf);
    assert r[3..] == TakeLast(r, 2);
    RankingKeepsCategoriesDistinct(scores);
    LabelsDistinct(r);
    var ls := Labels(r);
    assert ls[0] != ls[3] && ls[0] != ls[4] && ls[1] != ls[3] && ls[1] != ls[4];
    assert ls[2] != ls[0] && ls[2] != ls[1] && ls[2] != ls[3] && ls[2] != ls[4];
  }

  /** Distinct categories give distinct labels. */
  lemma {:induction false} LabelsDistinct(es: seq<Scored>)
    requires Distinct(CategoriesOf(es))
    ensures Distinct(Labels(es))
  {
    forall i, j | 0 <= i < j < |es|
      ensures Labels(es)[i] != Labels(es)[j]
    {
      assert CategoriesOf(es)[i] != CategoriesOf(es)[j];
      CategoryLabelsDistinct(es[i].category, es[j].category);
    }
  }

  datatype AssessmentResult = AssessmentResult(
    overallScore: real,
    categoryScores: seq<Scored>,
    strengths: seq<string>,
    improvements: seq<string>,
    level: Level,
    completedAt: int)

  /** The result the scorer produces for `answers` at time `now`. */
  function Results(answers: Answers, now: int): AssessmentResult
    requires ValidAnswers(answers) && EveryCategoryAnswered(answers)
  {
    BankShape();
    var scores := CategoryScores(answers);
    var overall := Overall(Total(Bank, answers));
    AssessmentResult(overall, scores, Strengths(scores), Improvements(scores), LevelOf(overall), now)
  }

  /** A category's running sum of weights and number of answers. */
  datatype Tracker = Tracker(score: int, count: nat)

  /** Initialisation: a zero tracker for every category of `qs`, keyed in order of first mention. */
  method SeedTrackers(qs: seq<Question>) returns (tracking: map<Category, Tracker>, order: seq<Category>)
    ensures order == Keys(Categories(qs))
    ensures forall c :: c in tracking <==> c in order
    ensures forall c :: c in tracking ==> tracking[c] == Tracker(0, 0)
  {
    tracking := map[];
    order := [];
    ghost var cs := Categories(qs);
    var i := 0;
    while i < |qs|
      invariant 0 <= i <= |qs|
      invariant order == Keys(cs[..i])
      invariant forall c :: c in tracking <==> c in order
      invariant forall c :: c in tracking ==> tracking[c] == Tracker(0, 0)
    {
      var c := qs[i].category;
      KeysStep(cs, i);
      if c !in tracking {
        tracking := tracking[c := Tracker(0, 0)];
        order := order + [c];
      }
      i := i + 1;
    }
    assert cs[..|qs|] == cs;
  }

  /** Every question's category is among the keys. */
  lemma EveryCategoryKeyed(qs: seq<Question>)
    ensures forall i :: 0 <= i < |qs| ==> qs[i].category in Keys(Categories(qs))
  {
    forall i | 0 <= i < |qs|
      ensures qs[i].category in Keys(Categories(qs))
    {
      assert Categories(qs)[i] == qs[i].category;
    }
  }

  /** Accumulation over `qs`: the total and, per category, the sum of weights and the number of answers. */
  method Accumulate(qs: seq<Question>, answers: Answers, seeded: map<Category, Tracker>)
    returns (totalScore: int, tracking: map<Category, Tracker>)
    requires ValidAnswers(answers) && StandardWeights(qs)
    requires forall i :: 0 <= i < |qs| ==> qs[i].category in seeded
    requires forall c :: c in seeded ==> seeded[c] == Tracker(0, 0)
    ensures totalScore == Total(qs, answers)
    ensures forall c :: c in tracking <==> c in seeded
    ensures forall c :: c in tracking ==>
              tracking[c] == Tracker(CategorySum(qs, answers, c), CategoryCount(qs, answers, c))
  {
    totalScore := 0;
    tracking := seeded;
    var i := 0;
    while i < |qs|
      invariant 0 <= i <= |qs|
      invariant totalScore == Total(qs[..i], answers)
      invariant forall c :: c in tracking <==> c in seeded
      invariant forall c :: c in tracking ==>
                  tracking[c] == Tracker(CategorySum(qs[..i], answers, c), CategoryCount(qs[..i], answers, c))
    {
      var q := qs[i];
      assert qs[..i + 1][..i] == qs[..i];
      if q.id in answers {
        var score := q.weights[answers[q.id]];
        totalScore := totalScore + score;
        var t := tracking[q.category];
        tracking := tracking[q.category := Tracker(t.score + score, t.count + 1)];
      }
      i := i + 1;
    }
    assert qs[..|qs|] == qs;
  }

  /** Percentages: `(score / (count * 4)) * 100` for each category, in key order. */
  method Percentages(answers: Answers, tracking: map<Category, Tracker>, order: seq<Category>)
    returns (scores: seq<Scored>)
    requires ValidAnswers(answers) && EveryCategoryAnswered(answers)
    requires forall c :: c in order ==> c in tracking
    requires StandardWeights(Bank)
    requires forall c :: c in tracking ==>
               tracking[c] == Tracker(CategorySum(Bank, answers, c), CategoryCount(Bank, answers, c))
    ensures scores == ScoresFor(order, answers)
  {
    scores := [];
    var k := 0;
    while k < |order|
      invariant 0 <= k <= |order|
      invariant scores == ScoresFor(order[..k], answers)
    {
      var c := order[k];
      assert order[..k + 1][..k] == order[..k];
      var t := tracking[c];
      scores := scores + [Scored(c, CategoryPercent(t.score, t.count))];
      k := k + 1;
    }
    assert order[..|order|] == order;
  }

  /**
   * The scoring half of `calculateResults`: seeds the trackers, accumulates
   * the answered questions and turns the trackers into percentages.
   */
  method ScoreAnswers(answers: Answers) returns (totalScore: int, scores: seq<Scored>)
    requires ValidAnswers(answers)
    requires EveryCategoryAnswered(answers)
    ensures totalScore == Total(Bank, answers)
    ensures scores == CategoryScores(answers)
  {
    BankShape();
    var seeded, order := SeedTrackers(Bank);
    EveryCategoryKeyed(Bank);
    var tracking;
    totalScore, tracking := Accumulate(Bank, answers, seeded);
    scores := Percentages(answers, tracking, order);
  }

  /**
   * `calculateResults`: scores the answers, grades the overall score and
   * ranks the categories.
   */
  method CalculateResults(answers: Answers, now: int) returns (r: AssessmentResult)
    requires ValidAnswers(answers)
    requires EveryCategoryAnswered(answers)
    ensures r.overallScore == Overall(Total(Bank, answers))
    ensures r.categoryScores == CategoryScores(answers)
    ensures r.level == LevelOf(r.overallScore)
    ensures r.strengths == Strengths(r.categoryScores)
    ensures r.improvements == Improvements(r.categoryScores)
    ensures r.completedAt == now
    ensures r == Results(answers, now)
  {
    var totalScore, scores := ScoreAnswers(answers);
    var overallScore := (totalScore as real / (|Bank| * MaxWeight) as real) * 100.0;
    var level := LevelOf(overallScore);
    var sorted := SortDesc(scores, ScoreOf);
    r := AssessmentResult(overallScore, scores, Labels(Take(sorted, 2)), Labels(TakeLast(sorted, 2)), level, now);
  }

  /** `progress`: the share of the questionnaire reached, in percent. */
  function Progress(currentQuestion: nat): (p: real)
    requires currentQuestion < |Bank|
    ensures 0.0 < p <= 100.0
    ensures p == 100.0 <==> currentQuestion == |Bank| - 1
  {
    ((currentQuestion + 1) as real / |Bank| as real) * 100.0
  }

  /** The questionnaire screen's state. */
  class Session {
    var currentQuestion: nat
    var answers: Answers
    var isCompleted: bool
    var result: Option<AssessmentResult>
    var isStarted: bool

    /**
     * The shown question is in the bank, every answer is an option index,
     * every question before the shown one is answered (Next is disabled
     * until the shown question has an answer), and a result exists exactly
     * when the questionnaire is completed, which needs every answer.
     */
    ghost predicate Valid()
      reads this
    {
      && currentQuestion < |Bank|
      && ValidAnswers(answers)
      && (forall j :: 0 <= j < currentQuestion ==> Bank[j].id in answers)
      && (isCompleted <==> result.Some?)
      && (isCompleted ==> AllAnswered(answers))
    }

    predicate IsInitial()
      reads this
    {
      currentQuestion == 0 && answers == map[] && !isCompleted && result == None && !isStarted
    }

    constructor ()
      ensures Valid() && IsInitial()
    {
      currentQuestion := 0;
      answers := map[];
      isCompleted := false;
      result := None;
      isStarted := false;
    }

    /** `startAssessment`. */
    method StartAssessment()
      requires Valid()
      modifies this
      ensures Valid() && isStarted
      ensures currentQuestion == old(currentQuestion) && answers == old(answers)
      ensures isCompleted == old(isCompleted) && result == old(result)
    {
      isStarted := true;
    }

    /** `handleAnswer`: records the option for one question and changes nothing else. */
    method HandleAnswer(questionId: int, answerIndex: int)
      requires Valid()
      requires 0 <= answerIndex < OptionCount
      modifies this
      ensures Valid()
      ensures answers == old(answers)[questionId := answerIndex]
      ensures currentQuestion == old(currentQuestion) && isStarted == old(isStarted)
      ensures isCompleted == old(isCompleted) && result == old(result)
    {
      answers := answers[questionId := answerIndex];
    }

    /** `completeAssessment`. */
    method CompleteAssessment(now: int)
      requires Valid() && AllAnswered(answers)
      modifies this`result, this`isCompleted
      ensures Valid() && isCompleted
      ensures EveryCategoryAnswered(answers) && result == Some(Results(answers, now))
    {
      AllAnsweredCoversCategories(answers);
      var r := CalculateResults(answers, now);
      result := Some(r);
      isCompleted := true;
    }

    /**
     * `nextQuestion`: moves on, or completes the questionnaire when pressed on
     * the last question. The view only enables it once the shown question is answered.
     */
    method NextQuestion(now: int)
      requires Valid()
      requires Bank[currentQuestion].id in answers
      modifies this
      ensures Valid()
      ensures answers == old(answers) && isStarted == old(isStarted)
      ensures old(currentQuestion) < |Bank| - 1 ==>
                currentQuestion == old(currentQuestion) + 1
                && isCompleted == old(isCompleted) && result == old(result)
      ensures old(currentQuestion) == |Bank| - 1 ==>
                currentQuestion == old(currentQuestion) && isCompleted
                && EveryCategoryAnswered(answers) && result == Some(Results(answers, now))
    {
      if currentQuestion < |Bank| - 1 {
        currentQuestion := currentQuestion + 1;
      } else {
        CompleteAssessment(now);
      }
    }

    /** `previousQuestion`: moves back, never before the first question. */
    method PreviousQuestion()
      requires Valid()
      modifies this
      ensures Valid()
      ensures currentQuestion == if old(currentQuestion) > 0 then old(currentQuestion) - 1 else 0
      ensures answers == old(answers) && isStarted == old(isStarted)
      ensures isCompleted == old(isCompleted) && result == old(result)
    {
      if currentQuestion > 0 {
        currentQuestion := currentQuestion - 1;
      }
    }

    /** `resetAssessment`: every field back to its initial value. */
    method ResetAssessment()
      requires Valid()
      modifies this
      ensures Valid() && IsInitial()
    {
      currentQuestion := 0;
      answers := map[];
      isCompleted := false;
      result := None;
      isStarted := false;
    }
  }
}
