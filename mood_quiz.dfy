/** The "which cat are you today" quiz: the five questions with their option
    scores, the five cat types with their score ranges, the classification of
    a total into a cat type, and the quiz session whose three fields the
    answer buttons update. */
module MoodQuiz {
  import opened Common

  /** A question, reduced to the scores of its answer options (the prompt and
      option texts are display text only). */
  datatype Question = Question(optionScores: seq<int>)

  /** QUESTIONS: five questions, each offering the scores 1 to 5. */
  const Questions: seq<Question> := [
    Question([1, 2, 3, 4, 5]),
    Question([1, 2, 3, 4, 5]),
    Question([1, 2, 3, 4, 5]),
    Question([1, 2, 3, 4, 5]),
    Question([1, 2, 3, 4, 5])
  ]

  /** The highest score one option can give; the result screen shows the
      total out of |Questions| * MaxOptionScore. */
  const MaxOptionScore := 5

  /** A cat type: the result of the quiz for totals in [minScore, maxScore]. */
  datatype CatType = CatType(name: string, minScore: int, maxScore: int, color: string, imageFolder: string)

  /** CAT_TYPES, in the order the classifier scans them. */
  const CatTypes: seq<CatType> := [
    CatType("Сонный котик 😴", 5, 9, "#9E9E9E", "sleepy"),
    CatType("Задумчивый кот 🐱", 10, 14, "#78909C", "thoughtful"),
    CatType("Довольный котик 😺", 15, 19, "#81C784", "happy"),
    CatType("Игривый кот 😸", 20, 22, "#FFB74D", "playful"),
    CatType("Кот-ураган 🙀", 23, 25, "#FF7043", "crazy")
  ]

  /** `min_score <= total <= max_score`. */
  predicate InRange(c: CatType, total: int)
  {
    c.minScore <= total <= c.maxScore
  }

  /** The ranges of `types`, in order, are non-empty, adjacent without a gap
      or an overlap, start at `lo` and end at `hi`. */
  predicate Contiguous(types: seq<CatType>, lo: int, hi: int)
  {
    && |types| > 0
    && types[0].minScore == lo
    && types[|types| - 1].maxScore == hi
    && (forall k :: 0 <= k < |types| ==> types[k].minScore <= types[k].maxScore)
    && (forall k :: 0 < k < |types| ==> types[k].minScore == types[k - 1].maxScore + 1)
  }

  /** The position of the first entry of `types` whose range holds `total`,
      if there is one: the scan with early return in get_cat_type. */
  function FirstMatch(types: seq<CatType>, total: int): (r: Option<nat>)
    ensures r.Some? ==> r.value < |types| && InRange(types[r.value], total)
    ensures r.Some? ==> forall j :: 0 <= j < r.value ==> !InRange(types[j], total)
    ensures r.None? <==> forall j :: 0 <= j < |types| ==> !InRange(types[j], total)
  {
    if types == [] then None
    else if InRange(types[0], total) then Some(0)
    else match FirstMatch(types[1..], total)
      case None => None
      case Some(k) => Some(k + 1)
  }

  /** get_cat_type: the first cat type whose range holds the total, or the
      first cat type when none does. */
  function GetCatType(totalScore: int): (c: CatType)
    ensures c in CatTypes
    ensures (exists k :: 0 <= k < |CatTypes| && InRange(CatTypes[k], totalScore)) ==> InRange(c, totalScore)
    ensures (forall k :: 0 <= k < |CatTypes| ==> !InRange(CatTypes[k], totalScore)) ==> c == CatTypes[0]
  {
    match FirstMatch(CatTypes, totalScore)
    case Some(k) => CatTypes[k]
    case None => CatTypes[0]
  }

  /** In a contiguous table every range lies wholly below every later one. */
  lemma {:induction false} ContiguousOrdered(types: seq<CatType>, lo: int, hi: int, j: int, k: int)
    requires Contiguous(types, lo, hi)
    requires 0 <= j < k < |types|
    ensures types[j].maxScore < types[k].minScore
    decreases k - j
  {
    if k > j + 1 {
      ContiguousOrdered(types, lo, hi, j, k - 1);
    }
  }

  /** If no range of a contiguous table holds `t >= lo`, then `t` lies above
      every range up to position k. */
  lemma {:induction false} AboveMissedRanges(types: seq<CatType>, lo: int, hi: int, t: int, k: int)
    requires Contiguous(types, lo, hi) && lo <= t
    requires forall j :: 0 <= j < |types| ==> !InRange(types[j], t)
    requires 0 <= k < |types|
    ensures types[k].maxScore < t
  {
    if k > 0 {
      AboveMissedRanges(types, lo, hi, t, k - 1);
    }
    assert !InRange(types[k], t);
  }

  /** A contiguous table from lo to hi partitions [lo, hi]: a total lies in
      some range exactly when it is in [lo, hi], and then in only one. */
  lemma ContiguousPartition(types: seq<CatType>, lo: int, hi: int, t: int)
    requires Contiguous(types, lo, hi)
    ensures (lo <= t <= hi) <==> exists k :: 0 <= k < |types| && InRange(types[k], t)
    ensures forall j, k :: 0 <= j < |types| && 0 <= k < |types| && InRange(types[j], t) && InRange(types[k], t) ==> j == k
  {
    var n := |types|;
    if lo <= t <= hi && forall j :: 0 <= j < n ==> !InRange(types[j], t) {
      AboveMissedRanges(types, lo, hi, t, n - 1);
      assert false;
    }
    forall k | 0 <= k < n && InRange(types[k], t) ensures lo <= t <= hi {
      if k > 0 { ContiguousOrdered(types, lo, hi, 0, k); }
      if k < n - 1 { ContiguousOrdered(types, lo, hi, k, n - 1); }
    }
    forall j, k | 0 <= j < n && 0 <= k < n && InRange(types[j], t) && InRange(types[k], t) ensures j == k {
      if j < k { ContiguousOrdered(types, lo, hi, j, k); }
      if k < j { ContiguousOrdered(types, lo, hi, k, j); }
    }
  }

  /** The five cat-type ranges are adjacent and span exactly 5..25. */
  lemma CatTypesContiguous()
    ensures Contiguous(CatTypes, 5, 25)
  {
  }

  /** Every attainable total (5..25) lies in exactly one cat-type range, and
      get_cat_type returns that cat type. */
  lemma GetCatTypeExactlyOne(totalScore: int)
    requires 5 <= totalScore <= 25
    ensures InRange(GetCatType(totalScore), totalScore)
    ensures forall k :: 0 <= k < |CatTypes| ==> (InRange(CatTypes[k], totalScore) <==> CatTypes[k] == GetCatType(totalScore))
  {
    CatTypesContiguous();
    ContiguousPartition(CatTypes, 5, 25, totalScore);
  }

  /** Any other total lies in no range, and get_cat_type falls back to the
      first cat type. */
  lemma GetCatTypeFallback(totalScore: int)
    requires totalScore < 5 || totalScore > 25
    ensures forall k :: 0 <= k < |CatTypes| ==> !InRange(CatTypes[k], totalScore)
    ensures GetCatType(totalScore) == CatTypes[0]
  {
  }

  /** `score` is the score of one of the options of question q. */
  predicate IsOptionOf(q: int, score: int)
  {
    0 <= q < |Questions| && score in Questions[q].optionScores
  }

  /** Every option score of every question is in 1..MaxOptionScore. */
  lemma OptionScoresInRange(q: int, score: int)
    requires IsOptionOf(q, score)
    ensures 1 <= score <= MaxOptionScore
  {
  }

  /** A run of answers, each an option of its question, sums to between one
      and MaxOptionScore points per answer; a complete run sums to 5..25. */
  lemma AnswersTotalInRange(answers: seq<int>)
    requires |answers| <= |Questions|
    requires forall k :: 0 <= k < |answers| ==> IsOptionOf(k, answers[k])
    ensures |answers| <= Sum(answers) <= MaxOptionScore * |answers|
    ensures |answers| == |Questions| ==> 5 <= Sum(answers) <= 25
  {
    forall k | 0 <= k < |answers| ensures 1 <= answers[k] <= MaxOptionScore {
      OptionScoresInRange(k, answers[k]);
    }
    SumBounds(answers, 1, MaxOptionScore);
  }

  /** What the window shows next: the question with the given index, or the
      result screen with the cat type and the total. */
  datatype Screen = QuestionScreen(index: int) | ResultScreen(catType: CatType, totalScore: int)

  /** The quiz state of CatMoodTestApp, without its widgets. */
  class QuizSession {
    var currentQuestion: int
    var totalScore: int
    var answers: seq<int>

    /** The running total is the sum of the recorded answers, and the
        question index counts them. */
    ghost predicate Valid()
      reads this
    {
      currentQuestion == |answers| && totalScore == Sum(answers)
    }

    /** Valid, and every recorded answer is an option score of its question,
        as the option buttons guarantee. */
    ghost predicate OnTrack()
      reads this
    {
      && Valid()
      && |answers| <= |Questions|
      && forall k :: 0 <= k < |answers| ==> IsOptionOf(k, answers[k])
    }

    /** The initial state set by CatMoodTestApp.__init__. */
    constructor()
      ensures currentQuestion == 0 && totalScore == 0 && answers == []
      ensures OnTrack()
    {
      currentQuestion, totalScore, answers := 0, 0, [];
    }

    /** start_test: reset the three fields and show the first question. */
    method Start() returns (next: Screen)
      modifies this
      ensures currentQuestion == 0 && totalScore == 0 && answers == []
      ensures OnTrack()
      ensures next == QuestionScreen(0)
    {
      currentQuestion, totalScore, answers := 0, 0, [];
      next := QuestionScreen(currentQuestion);
    }

    /** answer_question(score): add the score to the total, record it, move
        to the next question, and show that question or, after the last one,
        the result. */
    method Answer(score: int) returns (next: Screen)
      modifies this
      ensures totalScore == old(totalScore) + score
      ensures answers == old(answers) + [score]
      ensures currentQuestion == old(currentQuestion) + 1
      ensures next.ResultScreen? <==> currentQuestion >= |Questions|
      ensures next.QuestionScreen? ==> next.index == currentQuestion
      ensures next.ResultScreen? ==> next.totalScore == totalScore && next.catType == GetCatType(totalScore)
      ensures old(Valid()) ==> Valid()
      ensures old(OnTrack()) && IsOptionOf(old(currentQuestion), score) ==> OnTrack()
      ensures old(OnTrack()) && IsOptionOf(old(currentQuestion), score) && next.ResultScreen? ==>
                |answers| == |Questions| && 5 <= totalScore <= 25 && InRange(next.catType, totalScore)
    {
      SumAppend(answers, score);
      totalScore := totalScore + score;
      answers := answers + [score];
      currentQuestion := currentQuestion + 1;
      if currentQuestion < |Questions| {
        next := QuestionScreen(currentQuestion);
      } else {
        next := ResultScreen(GetCatType(totalScore), totalScore);
        if OnTrack() {
          AnswersTotalInRange(answers);
          if 5 <= totalScore <= 25 {
            GetCatTypeExactlyOne(totalScore);
          }
        }
      }
    }
  }
}
