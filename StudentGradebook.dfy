/**
 * The student gradebook (exercise_1/student_gradebook.py): a dictionary from
 * student name to the list of that student's grades, in the order the
 * students were added; adding students and grades, the per-student report
 * and the class statistics.
 *
 * Grades are exact reals, not floats. Names arrive already stripped, as the
 * prompts strip them before any lookup.
 */
module StudentGradebook {
  import opened Wrappers
  import opened Dicts

  // ---------------------------------------------------------------- letters

  datatype Letter = A | B | C | D | F

  /** `get_letter_grade`: failing is exactly an average below 60. */
  function LetterGrade(average: real): (l: Letter)
    ensures l == F <==> average < 60.0
  {
    if average >= 90.0 then A
    else if average >= 80.0 then B
    else if average >= 70.0 then C
    else if average >= 60.0 then D
    else F
  }

  /** 0 for the best letter, 4 for the worst. */
  function Rank(l: Letter): int {
    match l
    case A => 0
    case B => 1
    case C => 2
    case D => 3
    case F => 4
  }

  /** Each letter covers a band of ten points, A from 90 up and F below 60. */
  lemma LetterBands(average: real)
    ensures LetterGrade(average) == A <==> 90.0 <= average
    ensures LetterGrade(average) == B <==> 80.0 <= average < 90.0
    ensures LetterGrade(average) == C <==> 70.0 <= average < 80.0
    ensures LetterGrade(average) == D <==> 60.0 <= average < 70.0
    ensures LetterGrade(average) == F <==> average < 60.0
  {
  }

  /** A higher average never gets a worse letter. */
  lemma LetterMonotone(x: real, y: real)
    requires x <= y
    ensures Rank(LetterGrade(y)) <= Rank(LetterGrade(x))
  {
  }

  // ---------------------------------------------------------------- averages

  /** `sum(s)` */
  function SumOf(s: seq<real>): real {
    if s == [] then 0.0 else s[0] + SumOf(s[1..])
  }

  /** `sum(s) / len(s)`: the value that, taken once per element, adds up to the sum. */
  function Mean(s: seq<real>): (m: real)
    requires s != []
    ensures m * (|s| as real) == SumOf(s)
  {
    SumOf(s) / (|s| as real)
  }

  predicate Within(s: seq<real>, lo: real, hi: real) {
    forall i :: 0 <= i < |s| ==> lo <= s[i] <= hi
  }

  /** Summing values between `lo` and `hi` gives between `|s|` times each. */
  lemma {:induction false} SumBounds(s: seq<real>, lo: real, hi: real)
    requires Within(s, lo, hi)
    ensures lo * (|s| as real) <= SumOf(s) <= hi * (|s| as real)
  {
    if s != [] {
      assert Within(s[1..], lo, hi);
      SumBounds(s[1..], lo, hi);
    }
  }

  /** The mean of values between `lo` and `hi` lies between them too. */
  lemma MeanBounds(s: seq<real>, lo: real, hi: real)
    requires s != [] && Within(s, lo, hi)
    ensures lo <= Mean(s) <= hi
  {
    SumBounds(s, lo, hi);
    var n, m := |s| as real, Mean(s);
    assert (m - lo) * n >= 0.0 && (hi - m) * n >= 0.0;
  }

  /** `max(s)` */
  function Max(s: seq<real>): (m: real)
    requires s != []
    ensures m in s && forall i :: 0 <= i < |s| ==> s[i] <= m
  {
    if |s| == 1 then s[0]
    else
      var rest := Max(s[1..]);
      assert forall i :: 1 <= i < |s| ==> s[i] == s[1..][i - 1];
      if s[0] >= rest then s[0] else rest
  }

  /** `min(s)` */
  function Min(s: seq<real>): (m: real)
    requires s != []
    ensures m in s && forall i :: 0 <= i < |s| ==> m <= s[i]
  {
    if |s| == 1 then s[0]
    else
      var rest := Min(s[1..]);
      assert forall i :: 1 <= i < |s| ==> s[i] == s[1..][i - 1];
      if s[0] <= rest then s[0] else rest
  }

  /** The mean of a list lies between its smallest and its largest value. */
  lemma MeanBetween(s: seq<real>)
    requires s != []
    ensures Min(s) <= Mean(s) <= Max(s)
  {
    MeanBounds(s, Min(s), Max(s));
  }

  // ---------------------------------------------------------------- the gradebook

  /** Every grade stored is between 0 and 100. */
  ghost predicate GradesInRange(book: Dict<seq<real>>) {
    Valid(book) && forall k :: k in book.vals ==> Within(book.vals[k], 0.0, 100.0)
  }

  datatype GradeStatus = StudentNotFound | NotANumber | OutOfRange | GradeAdded

  class Gradebook {
    var book: Dict<seq<real>>

    ghost predicate Valid()
      reads this
    {
      GradesInRange(book)
    }

    /** `gradebook = {}` */
    constructor ()
      ensures Valid() && book == Empty()
    {
      book := Empty();
    }

    /**
     * `add_student`: a name already present is refused and its grades stay;
     * a new name is added, last, with no grades.
     */
    method AddStudent(name: string) returns (added: bool)
      requires Valid()
      modifies this
      ensures Valid()
      ensures added <==> name !in old(book.vals)
      ensures !added ==> book == old(book)
      ensures added ==> book == Put(old(book), name, [])
    {
      if name in book.vals {
        added := false;
      } else {
        book := Put(book, name, []);
        added := true;
      }
    }

    /**
     * `add_grade`: an unknown student, an unparsable grade or one outside
     * [0, 100] changes nothing; otherwise the grade goes to the end of that
     * student's list and nobody else's.
     */
    method AddGrade(name: string, grade: Option<real>) returns (status: GradeStatus)
      requires Valid()
      modifies this
      ensures Valid()
      ensures status == (
        if name !in old(book.vals) then StudentNotFound
        else if grade.None? then NotANumber
        else if !(0.0 <= grade.value <= 100.0) then OutOfRange
        else GradeAdded)
      ensures status != GradeAdded ==> book == old(book)
      ensures status == GradeAdded ==> book == Put(old(book), name, old(book.vals)[name] + [grade.value])
    {
      if name !in book.vals {
        return StudentNotFound;
      }
      if grade.None? {
        return NotANumber;
      }
      var g := grade.value;
      if 0.0 <= g <= 100.0 {
        var grades := book.vals[name] + [g];
        assert Within(grades, 0.0, 100.0);
        book := Put(book, name, grades);
        status := GradeAdded;
      } else {
        status := OutOfRange;
      }
    }

    /**
     * `class_statistics`: the averages of the students who have grades,
     * in the order the students were added; then the mean of those
     * averages, the largest and smallest of them, and the first students
     * (in that order) whose average is the largest and the smallest.
     */
    method ClassStatistics() returns (stats: Option<Stats>)
      requires Valid()
      ensures stats.None? <==> forall k :: k in book.vals ==> book.vals[k] == []
      ensures stats.Some? ==> Averages(book) != [] && stats == Some(StatsOf(book))
    {
      var averages: seq<real> := [];
      var i := 0;
      while i < |book.keys|
        invariant 0 <= i <= |book.keys|
        invariant averages == AveragesOver(book.keys[..i], book.vals)
      {
        var grades := book.vals[book.keys[i]];
        assert book.keys[..i + 1][..i] == book.keys[..i];
        if grades != [] {
          averages := averages + [Mean(grades)];
        }
        i := i + 1;
      }
      assert book.keys[..i] == book.keys;
      NoAveragesIffNoGrades(book);
      if averages == [] {
        return None;
      }
      var classAverage := Mean(averages);
      var highest := Max(averages);
      var lowest := Min(averages);
      AverageHasStudent(book.keys, book.vals, highest);
      AverageHasStudent(book.keys, book.vals, lowest);
      var best := book.keys[FirstWith(book.keys, book.vals, highest)];
      var worst := book.keys[FirstWith(book.keys, book.vals, lowest)];
      stats := Some(Stats(classAverage, best, highest, worst, lowest));
    }
  }

  // ---------------------------------------------------------------- reports

  datatype Report = UnknownStudent | NoGrades | Graded(average: real, letter: Letter)

  /**
   * `view_student_report`: an unknown name, a student without grades, or
   * the average of the student's grades and its letter.
   */
  function StudentReport(book: Dict<seq<real>>, name: string): (r: Report)
    ensures r.UnknownStudent? <==> name !in book.vals
    ensures r.NoGrades? <==> name in book.vals && book.vals[name] == []
    ensures r.Graded? ==> name in book.vals && book.vals[name] != [] && r.average == Mean(book.vals[name])
    ensures r.Graded? ==> r.letter == LetterGrade(r.average)
  {
    if name !in book.vals then UnknownStudent
    else
      var grades := book.vals[name];
      if grades == [] then NoGrades else Graded(Mean(grades), LetterGrade(Mean(grades)))
  }

  /** Because every stored grade is in [0, 100], every reported average is too. */
  lemma ReportInRange(book: Dict<seq<real>>, name: string)
    requires GradesInRange(book)
    ensures StudentReport(book, name).Graded? ==> 0.0 <= StudentReport(book, name).average <= 100.0
  {
    if name in book.vals && book.vals[name] != [] {
      MeanBounds(book.vals[name], 0.0, 100.0);
    }
  }

  // ---------------------------------------------------------------- class statistics

  datatype Stats = Stats(average: real, best: string, highest: real, worst: string, lowest: real)

  /** `k` names a student with grades whose average is `target`. */
  predicate AverageIs(vals: map<string, seq<real>>, k: string, target: real) {
    k in vals && vals[k] != [] && Mean(vals[k]) == target
  }

  predicate HasGrades(grades: seq<real>) {
    grades != []
  }

  /** The listed students who have grades, in list order. */
  function GradedKeys(keys: seq<string>, vals: map<string, seq<real>>): seq<string> {
    KeysWhere(keys, vals, HasGrades)
  }

  /** The averages of the listed students who have grades, in list order. */
  function AveragesOver(keys: seq<string>, vals: map<string, seq<real>>): (r: seq<real>)
    ensures forall x :: x in r <==> exists j :: 0 <= j < |keys| && AverageIs(vals, keys[j], x)
  {
    if keys == [] then []
    else
      var init := keys[..|keys| - 1];
      var k := keys[|keys| - 1];
      assert forall j :: 0 <= j < |init| ==> init[j] == keys[j];
      AveragesOver(init, vals) + (if k in vals && vals[k] != [] then [Mean(vals[k])] else [])
  }

  /**
   * One average per listed student who has grades, in list order: a student
   * counts once in the class average however many grades they have.
   */
  lemma {:induction false} AveragesInOrder(keys: seq<string>, vals: map<string, seq<real>>)
    ensures |AveragesOver(keys, vals)| == |GradedKeys(keys, vals)|
    ensures forall i :: 0 <= i < |GradedKeys(keys, vals)| ==>
      AveragesOver(keys, vals)[i] == Mean(vals[GradedKeys(keys, vals)[i]])
  {
    if keys != [] {
      var init := keys[..|keys| - 1];
      var k := keys[|keys| - 1];
      assert init + [k] == keys;
      AveragesInOrder(init, vals);
      KeysWhereSnoc(init, k, vals, HasGrades);
    }
  }

  function Averages(book: Dict<seq<real>>): seq<real> {
    AveragesOver(book.keys, book.vals)
  }

  /** Every student with grades contributes an average. */
  lemma GradedHaveAverages(book: Dict<seq<real>>)
    requires Valid(book)
    ensures forall k :: k in book.vals && book.vals[k] != [] ==> Mean(book.vals[k]) in Averages(book)
  {
    forall k | k in book.vals && book.vals[k] != []
      ensures Mean(book.vals[k]) in Averages(book)
    {
      var j :| 0 <= j < |book.keys| && book.keys[j] == k;
      assert AverageIs(book.vals, book.keys[j], Mean(book.vals[k]));
    }
  }

  /** There is no average to report exactly when no student has a grade. */
  lemma NoAveragesIffNoGrades(book: Dict<seq<real>>)
    requires Valid(book)
    ensures Averages(book) == [] <==> forall k :: k in book.vals ==> book.vals[k] == []
  {
    GradedHaveAverages(book);
    if Averages(book) != [] {
      var x := Averages(book)[0];
      assert x in Averages(book);
    }
  }

  /**
   * The position of the first listed student whose average is `target`,
   * or the length of the list when there is none.
   */
  function FirstWith(keys: seq<string>, vals: map<string, seq<real>>, target: real): (i: nat)
    ensures i <= |keys|
    ensures i < |keys| ==> AverageIs(vals, keys[i], target)
    ensures forall j :: 0 <= j < i ==> !AverageIs(vals, keys[j], target)
  {
    if keys == [] then 0
    else if AverageIs(vals, keys[0], target) then 0
    else 1 + FirstWith(keys[1..], vals, target)
  }

  /** Every average in the list belongs to a student, so a first one exists. */
  lemma AverageHasStudent(keys: seq<string>, vals: map<string, seq<real>>, x: real)
    requires x in AveragesOver(keys, vals)
    ensures FirstWith(keys, vals, x) < |keys|
  {
  }

  /** The statistics of a gradebook in which some student has grades. */
  function StatsOf(book: Dict<seq<real>>): (s: Stats)
    requires Valid(book) && Averages(book) != []
    ensures s.average == Mean(Averages(book))
    ensures s.lowest <= s.average <= s.highest
    ensures AverageIs(book.vals, s.best, s.highest) && AverageIs(book.vals, s.worst, s.lowest)
    ensures forall k :: k in book.vals && book.vals[k] != [] ==> s.lowest <= Mean(book.vals[k]) <= s.highest
    ensures exists i :: (0 <= i < |book.keys| && book.keys[i] == s.best
                         && forall j :: 0 <= j < i ==> !AverageIs(book.vals, book.keys[j], s.highest))
    ensures exists i :: (0 <= i < |book.keys| && book.keys[i] == s.worst
                         && forall j :: 0 <= j < i ==> !AverageIs(book.vals, book.keys[j], s.lowest))
  {
    var averages := Averages(book);
    var highest := Max(averages);
    var lowest := Min(averages);
    MeanBetween(averages);
    GradedHaveAverages(book);
    AverageHasStudent(book.keys, book.vals, highest);
    AverageHasStudent(book.keys, book.vals, lowest);
    Stats(Mean(averages), book.keys[FirstWith(book.keys, book.vals, highest)], highest,
          book.keys[FirstWith(book.keys, book.vals, lowest)], lowest)
  }

  /** Ann at [90] and Bob at [60, 60, 60], Ann added first. */
  function TwoStudents(): Dict<seq<real>> {
    Dict(["Ann", "Bob"], map["Ann" := [90.0], "Bob" := [60.0, 60.0, 60.0]])
  }

  /** Their averages, in the order they were added, are 90 and 60. */
  lemma TwoStudentsAverages()
    ensures Valid(TwoStudents()) && GradesInRange(TwoStudents())
    ensures Averages(TwoStudents()) == [90.0, 60.0]
  {
    var book := TwoStudents();
    assert SumOf([60.0, 60.0, 60.0]) == 180.0;
    assert Mean(book.vals["Bob"]) == 60.0;
    assert Mean(book.vals["Ann"]) == 90.0;
    assert book.keys[..1] == ["Ann"] && ["Ann"][..0] == [];
    assert AveragesOver([], book.vals) == [];
    assert AveragesOver(["Ann"], book.vals) == [90.0];
  }

  /**
   * The class average weighs students, not grades: for those two it is 75,
   * while the mean of all four grades is 67.5.
   */
  lemma ClassAverageOfAverages()
    ensures Averages(TwoStudents()) != [] && StatsOf(TwoStudents()).average == 75.0
    ensures Mean([90.0, 60.0, 60.0, 60.0]) == 67.5
  {
    TwoStudentsAverages();
    assert SumOf([90.0, 60.0]) == 150.0;
    assert SumOf([90.0, 60.0, 60.0, 60.0]) == 270.0;
  }

  /** Ann, with the highest average, is the top student and Bob the lowest. */
  lemma TwoStudentsRanking()
    ensures Averages(TwoStudents()) != []
    ensures StatsOf(TwoStudents()).best == "Ann" && StatsOf(TwoStudents()).worst == "Bob"
  {
    TwoStudentsAverages();
    var book := TwoStudents();
    assert FirstWith(book.keys, book.vals, 90.0) == 0;
    assert FirstWith(book.keys, book.vals, 60.0) == 1;
  }
}
