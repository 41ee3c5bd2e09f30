/**
 * The password strength analyzer (exercise_3/password_manager.py): six
 * criteria worth 20 points each, a strength ladder over the score, one result
 * line per criterion and improvement suggestions for the failed ones.
 *
 * Character classes are ASCII (`[A-Z]`, `[a-z]`, `\d`) and the common-password
 * test lower-cases ASCII letters only.
 */
module PasswordManager {
  import Text

  /** The passwords the analyzer refuses, compared after lower-casing the input. */
  const CommonPasswords: seq<string> := [
    "123456", "password", "12345678", "qwerty", "abc123", "football",
    "123456789", "12345", "letmein", "1234567", "basketball", "monkey",
    "iloveyou", "admin", "welcome", "login", "dragon", "passw0rd",
    "master", "hello", "freedom", "whatever"
  ]

  /** The six criteria, in the order they are checked and reported. */
  datatype Criterion = Length | Uppercase | Lowercase | Digit | Special | NotCommon

  const Criteria: seq<Criterion> := [Length, Uppercase, Lowercase, Digit, Special, NotCommon]

  datatype Strength = Weak | Fair | Good | Strong | Excellent

  /** One result line: a criterion and whether the password met it. */
  datatype Check = Check(criterion: Criterion, passed: bool)

  /** `[!@#$%^&*]`: the only characters that count as special. */
  predicate IsSpecial(c: char) {
    c in "!@#$%^&*"
  }

  predicate Contains(p: string, lo: char, hi: char) {
    exists i :: 0 <= i < |p| && lo <= p[i] && p[i] <= hi
  }

  /** The six criteria, as `analyze_password` tests them. */
  predicate Passes(c: Criterion, p: string)
  {
    match c
    case Length => |p| >= 8
    case Uppercase => Contains(p, 'A', 'Z')
    case Lowercase => Contains(p, 'a', 'z')
    case Digit => Contains(p, '0', '9')
    case Special => exists i :: 0 <= i < |p| && IsSpecial(p[i])
    case NotCommon => !IsCommon(p)
  }

  /** A character of the range at some index is a character of the range in the password. */
  lemma ContainsMeans(p: string, lo: char, hi: char)
    ensures Contains(p, lo, hi) <==> exists ch :: ch in p && lo <= ch <= hi
  {
    if Contains(p, lo, hi) {
      var i :| 0 <= i < |p| && lo <= p[i] && p[i] <= hi;
      assert p[i] in p;
    }
    if exists ch :: ch in p && lo <= ch <= hi {
      var ch :| ch in p && lo <= ch <= hi;
      var i :| 0 <= i < |p| && p[i] == ch;
    }
  }

  /**
   * What each criterion tests: at least 8 characters; `re.search` finding a
   * character of `[A-Z]`, `[a-z]`, `\d` or `[!@#$%^&*]`; the lower-cased
   * password not on the list.
   */
  lemma PassesTests(c: Criterion, p: string)
    ensures c == Length ==> (Passes(c, p) <==> |p| >= 8)
    ensures c == Uppercase ==> (Passes(c, p) <==> exists ch :: ch in p && 'A' <= ch <= 'Z')
    ensures c == Lowercase ==> (Passes(c, p) <==> exists ch :: ch in p && 'a' <= ch <= 'z')
    ensures c == Digit ==> (Passes(c, p) <==> exists ch :: ch in p && '0' <= ch <= '9')
    ensures c == Special ==> (Passes(c, p) <==> exists ch :: ch in p && ch in "!@#$%^&*")
    ensures c == NotCommon ==> (Passes(c, p) <==> Text.Lower(p) !in CommonPasswords)
  {
    match c
    case Uppercase => ContainsMeans(p, 'A', 'Z');
    case Lowercase => ContainsMeans(p, 'a', 'z');
    case Digit => ContainsMeans(p, '0', '9');
    case Special =>
      if exists ch :: ch in p && ch in "!@#$%^&*" {
        var ch :| ch in p && ch in "!@#$%^&*";
        var i :| 0 <= i < |p| && p[i] == ch;
        assert IsSpecial(p[i]);
      }
      if exists i :: 0 <= i < |p| && IsSpecial(p[i]) {
        var i :| 0 <= i < |p| && IsSpecial(p[i]);
        assert p[i] in p;
      }
    case _ =>
  }

  /** `password.lower() in COMMON_PASSWORDS`: the lower-cased password is one of the list. */
  predicate IsCommon(p: string)
  {
    exists i :: 0 <= i < |CommonPasswords| && CommonPasswords[i] == Text.Lower(p)
  }

  function Points(c: Criterion, p: string): int {
    20 * Count(c, p)
  }

  /** The score: 20 for each criterion met. */
  function Score(p: string): (score: int)
    ensures 0 <= score <= 120 && score % 20 == 0
  {
    Points(Length, p) + Points(Uppercase, p) + Points(Lowercase, p)
    + Points(Digit, p) + Points(Special, p) + Points(NotCommon, p)
  }

  /** The points of the first `n` criteria, in the order they are checked. */
  function ScoreUpTo(p: string, n: nat): int
    requires n <= 6
  {
    if n == 0 then 0 else ScoreUpTo(p, n - 1) + Points(Criteria[n - 1], p)
  }

  /** All six criteria's points are the score. */
  lemma ScoreUpToAll(p: string)
    ensures ScoreUpTo(p, 6) == Score(p)
  {
    assert ScoreUpTo(p, 1) == Points(Length, p);
    assert ScoreUpTo(p, 2) == ScoreUpTo(p, 1) + Points(Uppercase, p);
    assert ScoreUpTo(p, 3) == ScoreUpTo(p, 2) + Points(Lowercase, p);
    assert ScoreUpTo(p, 4) == ScoreUpTo(p, 3) + Points(Digit, p);
    assert ScoreUpTo(p, 5) == ScoreUpTo(p, 4) + Points(Special, p);
  }

  /** How many of the criteria in `cs` the password meets. */
  function CountMet(cs: seq<Criterion>, p: string): nat {
    if cs == [] then 0 else Count(cs[0], p) + CountMet(cs[1..], p)
  }

  function Count(c: Criterion, p: string): nat {
    if Passes(c, p) then 1 else 0
  }

  /** How many of the six criteria the password meets. */
  function Met(p: string): nat {
    CountMet(Criteria, p)
  }

  /** The improvement suggestions the analyzer can make. */
  datatype Suggestion = UseEightChars | AddUppercase | AddLowercase | AddNumber | AddSpecial | AvoidCommon | UsePassphrase

  /** The suggestions a failed criterion adds: one each, two for a common password. */
  function Hints(c: Criterion): seq<Suggestion> {
    match c
    case Length => [UseEightChars]
    case Uppercase => [AddUppercase]
    case Lowercase => [AddLowercase]
    case Digit => [AddNumber]
    case Special => [AddSpecial]
    case NotCommon => [AvoidCommon, UsePassphrase]
  }

  /** The text of a suggestion. */
  function SuggestionText(s: Suggestion): string {
    match s
    case UseEightChars => "Use at least 8 characters"
    case AddUppercase => "Include at least one uppercase letter"
    case AddLowercase => "Include at least one lowercase letter"
    case AddNumber => "Include at least one number"
    case AddSpecial => "Add special characters like !@#$%^&*"
    case AvoidCommon => "Avoid common password patterns"
    case UsePassphrase => "Consider using a passphrase instead"
  }

  /** Nothing when the criterion is met, its suggestions otherwise. */
  function Unless(met: bool, hints: seq<Suggestion>): seq<Suggestion> {
    if met then [] else hints
  }

  function HintsIfFailed(c: Criterion, p: string): seq<Suggestion> {
    Unless(Passes(c, p), Hints(c))
  }

  /** All suggestions, criterion by criterion. */
  function Advice(p: string): (a: seq<Suggestion>)
    ensures |a| <= 7
    ensures AvoidCommon in a <==> !Passes(NotCommon, p)
  {
    HintsIfFailed(Length, p) + HintsIfFailed(Uppercase, p) + HintsIfFailed(Lowercase, p)
    + HintsIfFailed(Digit, p) + HintsIfFailed(Special, p) + HintsIfFailed(NotCommon, p)
  }

  /** The suggestions of the first `n` criteria, in the order they are checked. */
  function AdviceUpTo(p: string, n: nat): seq<Suggestion>
    requires n <= 6
  {
    if n == 0 then [] else AdviceUpTo(p, n - 1) + HintsIfFailed(Criteria[n - 1], p)
  }

  /** All six criteria's suggestions are the advice. */
  lemma AdviceUpToAll(p: string)
    ensures AdviceUpTo(p, 6) == Advice(p)
  {
    var h1, h2, h3 := HintsIfFailed(Length, p), HintsIfFailed(Uppercase, p), HintsIfFailed(Lowercase, p);
    var h4, h5, h6 := HintsIfFailed(Digit, p), HintsIfFailed(Special, p), HintsIfFailed(NotCommon, p);
    assert AdviceUpTo(p, 1) == h1;
    assert AdviceUpTo(p, 2) == h1 + h2;
    assert AdviceUpTo(p, 3) == h1 + h2 + h3;
    assert AdviceUpTo(p, 4) == h1 + h2 + h3 + h4;
    assert AdviceUpTo(p, 5) == h1 + h2 + h3 + h4 + h5;
  }

  /** The strength ladder: up to 40 Weak, 60 Fair, 80 Good, 100 Strong, above that Excellent. */
  function StrengthOf(score: int): (s: Strength)
    ensures s == Weak <==> score <= 40
    ensures s == Fair <==> 40 < score <= 60
    ensures s == Good <==> 60 < score <= 80
    ensures s == Strong <==> 80 < score <= 100
    ensures s == Excellent <==> score > 100
  {
    if score <= 40 then Weak
    else if score <= 60 then Fair
    else if score <= 80 then Good
    else if score <= 100 then Strong
    else Excellent
  }

  function Rank(s: Strength): int {
    match s
    case Weak => 0
    case Fair => 1
    case Good => 2
    case Strong => 3
    case Excellent => 4
  }

  /** The text of a result line. */
  function ResultLine(c: Check): (line: string)
    ensures |line| > 0 && line[0] == (if c.passed then '✅' else '❌')
  {
    match (c.criterion, c.passed)
    case (Length, true) => "✅ Length requirement (8+ chars)"
    case (Length, false) => "❌ Length is less than 8 characters"
    case (Uppercase, true) => "✅ Contains uppercase letters"
    case (Uppercase, false) => "❌ Missing uppercase letters"
    case (Lowercase, true) => "✅ Contains lowercase letters"
    case (Lowercase, false) => "❌ Missing lowercase letters"
    case (Digit, true) => "✅ Contains numbers"
    case (Digit, false) => "❌ Missing numbers"
    case (Special, true) => "✅ Contains special characters"
    case (Special, false) => "❌ Missing special characters"
    case (NotCommon, true) => "✅ Not a common password"
    case (NotCommon, false) => "❌ Common password detected"
  }

  /** The six result lines of a password, one per criterion in order. */
  function Checks(p: string): (checks: seq<Check>)
    ensures |checks| == 6 && forall i :: 0 <= i < 6 ==> checks[i].criterion == Criteria[i]
  {
    [ Check(Length, Passes(Length, p)), Check(Uppercase, Passes(Uppercase, p)),
      Check(Lowercase, Passes(Lowercase, p)), Check(Digit, Passes(Digit, p)),
      Check(Special, Passes(Special, p)), Check(NotCommon, Passes(NotCommon, p)) ]
  }

  /** The i-th result line reports the i-th criterion and whether it is met. */
  lemma ChecksFollowCriteria(p: string)
    ensures |Checks(p)| == 6
    ensures forall i :: 0 <= i < 6 ==> Checks(p)[i] == Check(Criteria[i], Passes(Criteria[i], p))
  {
  }

  /** The score is 20 times the number of criteria met: a multiple of 20 from 0 to 120. */
  lemma ScoreCountsCriteria(p: string)
    ensures Score(p) == 20 * Met(p)
    ensures 0 <= Score(p) <= 120 && Score(p) % 20 == 0
  {
    var c1 := [Uppercase, Lowercase, Digit, Special, NotCommon];
    var c2 := [Lowercase, Digit, Special, NotCommon];
    var c3 := [Digit, Special, NotCommon];
    var c4 := [Special, NotCommon];
    var c5 := [NotCommon];
    assert Criteria[1..] == c1 && c1[1..] == c2 && c2[1..] == c3 && c3[1..] == c4 && c4[1..] == c5 && c5[1..] == [];
    assert CountMet(c5, p) == Count(NotCommon, p);
    assert CountMet(c4, p) == Count(Special, p) + CountMet(c5, p);
    assert CountMet(c3, p) == Count(Digit, p) + CountMet(c4, p);
    assert CountMet(c2, p) == Count(Lowercase, p) + CountMet(c3, p);
    assert CountMet(c1, p) == Count(Uppercase, p) + CountMet(c2, p);
    assert CountMet(Criteria, p) == Count(Length, p) + CountMet(c1, p);
    var n := Met(p);
    assert n == Count(Length, p) + Count(Uppercase, p) + Count(Lowercase, p)
      + Count(Digit, p) + Count(Special, p) + Count(NotCommon, p);
    assert 0 <= n <= 6;
    assert Score(p) == 20 * n;
    assert (20 * n) % 20 == 0;
  }

  /**
   * One suggestion per failed criterion and one more for a common password;
   * so there are no suggestions exactly when the score is full.
   */
  lemma AdviceCount(p: string)
    ensures |Advice(p)| == 6 - Met(p) + (if Passes(NotCommon, p) then 0 else 1)
    ensures Advice(p) == [] <==> Score(p) == 120
  {
    ScoreCountsCriteria(p);
  }

  /** Excellent exactly at the full score of 120. */
  lemma ExcellentIffFull(p: string)
    ensures StrengthOf(Score(p)) == Excellent <==> Score(p) == 120
  {
    ScoreCountsCriteria(p);
  }

  /** A higher score never gives a weaker rating. */
  lemma StrengthMonotone(s: int, t: int)
    requires s <= t
    ensures Rank(StrengthOf(s)) <= Rank(StrengthOf(t))
  {
  }

  /**
   * Any upper/lower-case variant of a listed password fails the sixth
   * criterion, so it scores at most 100 and is never Excellent.
   */
  lemma CommonNeverExcellent(p: string, listed: string)
    requires listed in CommonPasswords && Text.Lower(p) == listed
    ensures !Passes(NotCommon, p)
    ensures Score(p) <= 100 && StrengthOf(Score(p)) != Excellent
  {
  }

  /** Excellent exactly when there is nothing to suggest. */
  lemma ExcellentIffNoAdvice(p: string)
    ensures StrengthOf(Score(p)) == Excellent <==> Advice(p) == []
  {
    AdviceCount(p);
    ExcellentIffFull(p);
  }

  /** No listed password is longer than ten characters. */
  lemma LongNeverCommon(p: string)
    requires |p| > 10
    ensures Passes(NotCommon, p)
  {
    assert forall i :: 0 <= i < |CommonPasswords| ==> |CommonPasswords[i]| <= 10;
  }

  /** "Tr0ub4dor&3" meets all six criteria. */
  lemma StrongExample()
    ensures Score("Tr0ub4dor&3") == 120
  {
    var p := "Tr0ub4dor&3";
    assert Passes(Uppercase, p) by { assert p[0] == 'T'; }
    assert Passes(Lowercase, p) by { assert p[1] == 'r'; }
    assert Passes(Digit, p) by { assert p[2] == '0'; }
    assert Passes(Special, p) by { assert p[9] == '&'; }
    LongNeverCommon(p);
  }

  /** "PassWord" is a listed password in another case: long enough, but common. */
  lemma CommonExample()
    ensures Passes(Length, "PassWord") && !Passes(NotCommon, "PassWord")
  {
    assert Text.Lower("PassWord") == "password";
    assert CommonPasswords[1] == "password";
  }

  /**
   * `analyze_password`: the six criteria in order, each adding 20 to the
   * score and a passed line, or a failed line and its suggestions; then the
   * strength ladder.
   */
  method AnalyzePassword(password: string) returns (score: int, strength: Strength, results: seq<Check>, suggestions: seq<Suggestion>)
    ensures |results| == 6
    ensures results == Checks(password)
    ensures score == Score(password)
    ensures suggestions == Advice(password)
    ensures strength == StrengthOf(score)
  {
    score := 0;
    results := [];
    suggestions := [];

    // 1: at least 8 characters
    var met := Passes(Length, password);
    score := score + (if met then 20 else 0);
    assert score == ScoreUpTo(password, 1);
    results := results + [Check(Length, met)];
    assert results == Checks(password)[..1];
    suggestions := suggestions + Unless(met, Hints(Length));
    assert suggestions == AdviceUpTo(password, 1);

    // 2: an upper-case letter
    met := Passes(Uppercase, password);
    score := score + (if met then 20 else 0);
    assert score == ScoreUpTo(password, 2);
    results := results + [Check(Uppercase, met)];
    assert results == Checks(password)[..2];
    suggestions := suggestions + Unless(met, Hints(Uppercase));
    assert suggestions == AdviceUpTo(password, 2);

    // 3: a lower-case letter
    met := Passes(Lowercase, password);
    score := score + (if met then 20 else 0);
    assert score == ScoreUpTo(password, 3);
    results := results + [Check(Lowercase, met)];
    assert results == Checks(password)[..3];
    suggestions := suggestions + Unless(met, Hints(Lowercase));
    assert suggestions == AdviceUpTo(password, 3);

    // 4: a digit
    met := Passes(Digit, password);
    score := score + (if met then 20 else 0);
    assert score == ScoreUpTo(password, 4);
    results := results + [Check(Digit, met)];
    assert results == Checks(password)[..4];
    suggestions := suggestions + Unless(met, Hints(Digit));
    assert suggestions == AdviceUpTo(password, 4);

    // 5: one of the special characters
    met := Passes(Special, password);
    score := score + (if met then 20 else 0);
    assert score == ScoreUpTo(password, 5);
    results := results + [Check(Special, met)];
    assert results == Checks(password)[..5];
    suggestions := suggestions + Unless(met, Hints(Special));
    assert suggestions == AdviceUpTo(password, 5);

    // 6: not a common password, whatever its case
    met := Passes(NotCommon, password);
    score := score + (if met then 20 else 0);
    assert score == ScoreUpTo(password, 6);
    results := results + [Check(NotCommon, met)];
    assert results == Checks(password)[..6];
    suggestions := suggestions + Unless(met, Hints(NotCommon));
    assert suggestions == AdviceUpTo(password, 6);
    ScoreUpToAll(password);
    AdviceUpToAll(password);

    strength := StrengthOf(score);
  }
}
