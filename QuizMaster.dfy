/**
 * The quiz (exercise_4/quiz_master.py): the question bank, the grading of
 * each typed answer, the score and the log of wrong answers, and the
 * personal best kept per category and difficulty.
 *
 * The category and difficulty arrive already stripped, as the prompts do;
 * each answer arrives as typed and is stripped and upper-cased (`Typed`)
 * before it is graded.
 */
module QuizMaster {
  import opened Wrappers
  import Text

  /** A question, its four options and the position of the right one. */
  datatype Question = Question(text: string, options: seq<string>, answer: int)

  // ---------------------------------------------------------------- the question bank

  const ScienceEasy: seq<Question> := [
    Question("What planet is known as the Red Planet?", ["Earth", "Mars", "Jupiter", "Saturn"], 1),
    Question("Water freezes at what temperature (Celsius)?", ["0", "32", "100", "50"], 0),
    Question("What gas do plants absorb?", ["Oxygen", "Nitrogen", "Carbon Dioxide", "Hydrogen"], 2),
    Question("How many legs does an insect have?", ["6", "8", "4", "10"], 0),
    Question("Which vitamin is made when skin is exposed to sunlight?", ["A", "B", "C", "D"], 3)
  ]

  const ScienceHard: seq<Question> := [
    Question("What is the atomic number of Carbon?", ["4", "6", "8", "12"], 1),
    Question("Which element has the chemical symbol 'Fe'?", ["Fluorine", "Iron", "Francium", "Fermium"], 1),
    Question("What part of the cell produces energy?", ["Nucleus", "Mitochondria", "Ribosome", "Chloroplast"], 1),
    Question("Which particle has a negative charge?", ["Proton", "Electron", "Neutron", "Quark"], 1),
    Question("Which scientist proposed the theory of relativity?", ["Newton", "Einstein", "Galileo", "Hawking"], 1)
  ]

  const HistoryEasy: seq<Question> := [
    Question("Who was the first President of the USA?", ["Lincoln", "Jefferson", "Washington", "Adams"], 2),
    Question("In which year did WW2 end?", ["1945", "1939", "1918", "1965"], 0),
    Question("The Great Wall of China was built to protect against?", ["Romans", "Mongols", "Persians", "Vikings"], 1),
    Question("Who discovered America?", ["Magellan", "Columbus", "Drake", "Cook"], 1),
    Question("Which Egyptian pharaoh had a famous tomb?", ["Tutankhamun", "Ramses", "Cleopatra", "Akhenaten"], 0)
  ]

  const HistoryHard: seq<Question> := [
    Question("Who was known as the 'Iron Lady'?", ["Angela Merkel", "Margaret Thatcher", "Indira Gandhi", "Golda Meir"], 1),
    Question("The Battle of Hastings took place in?", ["1066", "1215", "1415", "1603"], 0),
    Question("Who was the first emperor of Rome?", ["Nero", "Caesar", "Augustus", "Caligula"], 2),
    Question("The Cold War was between USA and?", ["Germany", "China", "USSR", "Japan"], 2),
    Question("Which treaty ended WW1?", ["Versailles", "Trianon", "St. Germain", "Neuilly"], 0)
  ]

  const SportsEasy: seq<Question> := [
    Question("How many players in a football (soccer) team?", ["9", "10", "11", "12"], 2),
    Question("Tennis is played with how many sets (men's Grand Slam)?", ["3", "5", "7", "9"], 1),
    Question("Which sport is known as the 'king of sports'?", ["Basketball", "Football", "Cricket", "Tennis"], 1),
    Question("How many holes in a standard golf course?", ["9", "12", "15", "18"], 3),
    Question("Which country hosted the 2016 Summer Olympics?", ["China", "Brazil", "UK", "Russia"], 1)
  ]

  const SportsHard: seq<Question> := [
    Question("Who has won the most FIFA World Cups?", ["Germany", "Italy", "Brazil", "Argentina"], 2),
    Question("In which year was the NBA founded?", ["1946", "1956", "1966", "1976"], 0),
    Question("Which cricketer is known as 'The Wall'?", ["Tendulkar", "Ponting", "Dravid", "Lara"], 2),
    Question("Who holds the record for most Olympic gold medals?", ["Bolt", "Phelps", "Lewis", "Ledecky"], 1),
    Question("Which country invented table tennis?", ["UK", "China", "Japan", "Germany"], 0)
  ]

  /** `QUESTIONS_DB`: category, then difficulty, then the questions in order. */
  const QuestionsDb: map<string, map<string, seq<Question>>> := map[
    "Science" := map["easy" := ScienceEasy, "hard" := ScienceHard],
    "History" := map["easy" := HistoryEasy, "hard" := HistoryHard],
    "Sports" := map["easy" := SportsEasy, "hard" := SportsHard]
  ]

  /** Four options, and the right answer is one of them. */
  predicate WellFormed(q: Question) {
    |q.options| == 4 && 0 <= q.answer < 4
  }

  predicate AllWellFormed(qs: seq<Question>) {
    forall i :: 0 <= i < |qs| ==> WellFormed(qs[i])
  }

  /** Five questions, each with four options and an answer among them. */
  predicate QuizWellFormed(qs: seq<Question>) {
    |qs| == 5 && AllWellFormed(qs)
  }

  lemma ScienceWellFormed()
    ensures QuizWellFormed(ScienceEasy) && QuizWellFormed(ScienceHard)
  {
  }

  lemma HistoryWellFormed()
    ensures QuizWellFormed(HistoryEasy) && QuizWellFormed(HistoryHard)
  {
  }

  lemma SportsWellFormed()
    ensures QuizWellFormed(SportsEasy) && QuizWellFormed(SportsHard)
  {
  }

  /** Every quiz in the bank has five questions, each with four options and an answer among them. */
  lemma BankWellFormed(category: string, difficulty: string)
    requires category in QuestionsDb && difficulty in QuestionsDb[category]
    ensures QuizWellFormed(QuestionsDb[category][difficulty])
  {
    ScienceWellFormed();
    HistoryWellFormed();
    SportsWellFormed();
  }

  // ---------------------------------------------------------------- grading one answer

  /** `input(...).strip().upper()`: what the quiz makes of a typed line. */
  function Typed(raw: string): (typed: string)
    ensures |typed| == |Text.Strip(raw)|
  {
    Text.Upper(Text.Strip(raw))
  }

  /**
   * `ord(user_answer) - 65`: the offset of a single character from 'A';
   * anything but one character makes `ord` raise, which the quiz treats as
   * no answer.
   */
  function AnswerIndex(typed: string): (r: Option<int>)
    ensures r.Some? <==> |typed| == 1
    ensures r.Some? ==> r.value + 65 == typed[0] as int
  {
    if |typed| == 1 then Some(typed[0] as int - 65) else None
  }

  datatype Outcome = Correct | Wrong | Skipped

  /** A typed answer is right, wrong (one character, not the right one) or skipped. */
  function Grade(q: Question, typed: string): (o: Outcome)
    ensures o == Skipped <==> |typed| != 1
  {
    match AnswerIndex(typed)
    case None => Skipped
    case Some(i) => if i == q.answer then Correct else Wrong
  }

  /** The letter of option `i`: 'A', 'B', 'C', 'D'. */
  function OptionLetter(i: int): char
    requires 0 <= i < 4
  {
    (65 + i) as char
  }

  /** An answer is right exactly when it is the letter of the right option. */
  lemma CorrectIffLetter(q: Question, typed: string)
    requires WellFormed(q)
    ensures Grade(q, typed) == Correct <==> typed == [OptionLetter(q.answer)]
  {
    if |typed| == 1 && typed[0] as int - 65 == q.answer {
      assert typed == [typed[0]];
    }
  }

  /** A lower-case letter is typed as the upper-case one. */
  lemma TypedLetter(c: char)
    requires 'a' <= c <= 'z'
    ensures Typed([c]) == [Text.UpperChar(c)]
  {
    var s := Text.Strip([c]);
    Text.StripTrimmed([c]);
    assert s == [c];
    var u := Text.Upper(s);
    assert |u| == 1 && u[0] == Text.UpperChar(c);
    assert u == [Text.UpperChar(c)];
  }

  /**
   * So a lower-case letter, typed as its upper-case one, picks that option:
   * "b" is option B (index 1).
   */
  lemma LowerCaseAnswer(q: Question, c: char)
    requires WellFormed(q) && 'a' <= c <= 'z'
    ensures Grade(q, [Text.UpperChar(c)]) == Correct <==> c as int - 97 == q.answer
    ensures Grade(q, [Text.UpperChar(c)]) != Skipped
  {
    Text.UpperLetter(c);
  }

  /** Empty input and input of two or more characters are skipped. */
  lemma LongAnswerSkipped(q: Question, raw: string)
    requires |Text.Strip(raw)| != 1
    ensures Grade(q, Typed(raw)) == Skipped
  {
  }

  // ---------------------------------------------------------------- grading the questions

  /** What one answer line scores: stripped and upper-cased, then graded. */
  function Graded(q: Question, raw: string): Outcome {
    Grade(q, Typed(raw))
  }

  /** How many of the questions were answered right. */
  function CorrectCount(qs: seq<Question>, answers: seq<string>): (n: nat)
    requires |answers| == |qs|
    ensures n <= |qs|
  {
    if qs == [] then 0
    else
      var k := |qs| - 1;
      CorrectCount(qs[..k], answers[..k]) + (if Graded(qs[k], answers[k]) == Correct then 1 else 0)
  }

  /** The questions answered wrong, in order (each with its options and right answer). */
  function WrongLog(qs: seq<Question>, answers: seq<string>): (log: seq<Question>)
    requires |answers| == |qs|
    ensures |log| <= |qs|
    ensures forall q :: q in log ==> q in qs
  {
    if qs == [] then []
    else
      var k := |qs| - 1;
      WrongLog(qs[..k], answers[..k]) + (if Graded(qs[k], answers[k]) == Wrong then [qs[k]] else [])
  }

  /** How many of the questions were skipped. */
  function SkippedCount(qs: seq<Question>, answers: seq<string>): nat
    requires |answers| == |qs|
  {
    if qs == [] then 0
    else
      var k := |qs| - 1;
      SkippedCount(qs[..k], answers[..k]) + (if Graded(qs[k], answers[k]) == Skipped then 1 else 0)
  }

  /** Every question is exactly one of right, wrong or skipped. */
  lemma {:induction false} OutcomesPartition(qs: seq<Question>, answers: seq<string>)
    requires |answers| == |qs|
    ensures CorrectCount(qs, answers) + |WrongLog(qs, answers)| + SkippedCount(qs, answers) == |qs|
  {
    if qs != [] {
      var k := |qs| - 1;
      OutcomesPartition(qs[..k], answers[..k]);
    }
  }

  /** Every question in the wrong-answer log was asked and answered wrong. */
  lemma {:induction false} WrongLogOnlyWrong(qs: seq<Question>, answers: seq<string>)
    requires |answers| == |qs|
    ensures forall q :: q in WrongLog(qs, answers) ==>
      exists j :: 0 <= j < |qs| && qs[j] == q && Graded(q, answers[j]) == Wrong
  {
    if qs != [] {
      var k := |qs| - 1;
      WrongLogOnlyWrong(qs[..k], answers[..k]);
      var prefix := WrongLog(qs[..k], answers[..k]);
      assert WrongLog(qs, answers) == prefix + (if Graded(qs[k], answers[k]) == Wrong then [qs[k]] else []);
      forall q | q in WrongLog(qs, answers)
        ensures exists j :: 0 <= j < |qs| && qs[j] == q && Graded(q, answers[j]) == Wrong
      {
        if q in prefix {
          var j :| 0 <= j < k && qs[..k][j] == q && Graded(q, answers[..k][j]) == Wrong;
          assert qs[j] == q && answers[..k][j] == answers[j];
        } else {
          assert qs[k] == q && Graded(q, answers[k]) == Wrong;
        }
      }
    }
  }

  /** All answers right: every question scores and nothing is logged. */
  lemma {:induction false} AllRightFullMarks(qs: seq<Question>, answers: seq<string>)
    requires |answers| == |qs|
    requires forall j :: 0 <= j < |qs| ==> Graded(qs[j], answers[j]) == Correct
    ensures CorrectCount(qs, answers) == |qs| && WrongLog(qs, answers) == []
  {
    if qs != [] {
      var k := |qs| - 1;
      AllRightFullMarks(qs[..k], answers[..k]);
    }
  }

  /**
   * The question loop of `quiz`: each answer line is stripped and
   * upper-cased, then a right answer adds 10 to the score, a wrong one logs
   * the question and a skipped one does neither.
   */
  method AskAll(questions: seq<Question>, answers: seq<string>) returns (score: int, wrong: seq<Question>)
    requires |answers| == |questions|
    ensures score == 10 * CorrectCount(questions, answers)
    ensures 0 <= score <= 10 * |questions|
    ensures wrong == WrongLog(questions, answers)
  {
    score := 0;
    wrong := [];
    var i := 0;
    while i < |questions|
      invariant 0 <= i <= |questions|
      invariant score == 10 * CorrectCount(questions[..i], answers[..i])
      invariant wrong == WrongLog(questions[..i], answers[..i])
    {
      var q := questions[i];
      assert questions[..i + 1][..i] == questions[..i] && answers[..i + 1][..i] == answers[..i];
      var answer := Typed(answers[i]);
      ghost var outcome := Graded(q, answers[i]);
      assert CorrectCount(questions[..i + 1], answers[..i + 1])
        == CorrectCount(questions[..i], answers[..i]) + (if outcome == Correct then 1 else 0);
      assert WrongLog(questions[..i + 1], answers[..i + 1])
        == WrongLog(questions[..i], answers[..i]) + (if outcome == Wrong then [q] else []);
      var index := AnswerIndex(answer);
      if index.Some? {
        if index.value == q.answer {
          score := score + 10;
        } else {
          wrong := wrong + [q];
        }
      }
      i := i + 1;
    }
    assert questions[..i] == questions && answers[..i] == answers;
  }

  // ---------------------------------------------------------------- personal bests

  /** `f"{category}_{difficulty}"` */
  function ScoreKey(category: string, difficulty: string): string {
    category + "_" + difficulty
  }

  /** The best scores after a quiz: the new score is kept when it is the first or beats the old one. */
  function UpdateBest(best: map<string, int>, key: string, score: int): (r: map<string, int>)
    ensures key in r && r[key] >= score
    ensures key !in best ==> r[key] == score
    ensures key in best ==> r[key] >= best[key] && (r[key] == best[key] || r[key] == score)
    ensures forall k :: k != key ==> (k in r <==> k in best) && (k in best ==> r[k] == best[k])
  {
    if key !in best || score > best[key] then best[key := score] else best
  }

  /** A personal best never goes down, and no key is ever lost. */
  lemma BestNeverDecreases(best: map<string, int>, key: string, score: int)
    ensures forall k :: k in best ==> k in UpdateBest(best, key, score) && UpdateBest(best, key, score)[k] >= best[k]
  {
  }

  /** Recording the same score twice is recording it once. */
  lemma UpdateBestIdempotent(best: map<string, int>, key: string, score: int)
    ensures UpdateBest(UpdateBest(best, key, score), key, score) == UpdateBest(best, key, score)
  {
  }

  datatype QuizResult =
    | InvalidCategory
    | InvalidDifficulty
    | Finished(score: int, wrong: seq<Question>, newBest: bool)

  class HighScores {
    var best: map<string, int>

    constructor (loaded: map<string, int>)
      ensures best == loaded
    {
      best := loaded;
    }

    /** The high-score check: written when the key is new or the score beats it. */
    method Record(key: string, score: int) returns (newBest: bool)
      modifies this
      ensures newBest <==> key !in old(best) || score > old(best)[key]
      ensures best == UpdateBest(old(best), key, score)
    {
      newBest := key !in best || score > best[key];
      if newBest {
        best := best[key := score];
      }
    }

    /**
     * `quiz`: an unknown category or difficulty ends it before any question,
     * with the high scores untouched; otherwise every question is asked and
     * the best score for the category and difficulty is updated.
     */
    method Quiz(category: string, difficulty: string, answers: seq<string>) returns (result: QuizResult)
      requires category in QuestionsDb && difficulty in QuestionsDb[category] ==>
        |answers| == |QuestionsDb[category][difficulty]|
      modifies this
      ensures category !in QuestionsDb ==> result == InvalidCategory && best == old(best)
      ensures category in QuestionsDb && difficulty !in QuestionsDb[category] ==>
        result == InvalidDifficulty && best == old(best)
      ensures category in QuestionsDb && difficulty in QuestionsDb[category] ==>
        var questions := QuestionsDb[category][difficulty];
        && result.Finished?
        && result.score == 10 * CorrectCount(questions, answers)
        && result.wrong == WrongLog(questions, answers)
        && (result.newBest <==> var key := ScoreKey(category, difficulty); key !in old(best) || result.score > old(best)[key])
        && best == UpdateBest(old(best), ScoreKey(category, difficulty), result.score)
    {
      if category !in QuestionsDb {
        return InvalidCategory;
      }
      if difficulty !in QuestionsDb[category] {
        return InvalidDifficulty;
      }
      var questions := QuestionsDb[category][difficulty];
      var score, wrong := AskAll(questions, answers);
      var newBest := Record(ScoreKey(category, difficulty), score);
      result := Finished(score, wrong, newBest);
    }
  }
}
