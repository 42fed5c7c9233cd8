/** The answer log of one quiz session and the aggregates both the game
    engine and the data service compute from it: correct counts, streaks,
    the grouping of answers by question type, and the session summary. */
module Sessions {
  import opened JsValues

  /** One entry of the session's answer log. `userAnswer` is -1 for a
      skipped question; `responseTime` is in seconds and 0 for a skip. */
  datatype Answer = Answer(
    questionIndex: nat,
    questionType: Option<string>,
    difficulty: real,
    userAnswer: int,
    correctAnswer: int,
    isCorrect: bool,
    responseTime: real)

  /** The `userAnswer` recorded for a skipped question. */
  const SkippedAnswer: int := -1

  /** The property key a missing (`undefined`) question type turns into. */
  const UndefinedKey: string := "undefined"

  /** The key an answer is grouped under when it indexes a JavaScript object. */
  function TypeKey(a: Answer): string {
    match a.questionType
    case Some(t) => t
    case None => UndefinedKey
  }

  function Last<T>(s: seq<T>): T
    requires |s| > 0
  {
    s[|s| - 1]
  }

  function Init<T>(s: seq<T>): seq<T>
    requires |s| > 0
  {
    s[..|s| - 1]
  }

  ghost predicate NoDuplicates<T>(s: seq<T>) {
    forall i, j :: 0 <= i < j < |s| ==> s[i] != s[j]
  }

  // ---------------------------------------------------------------------------
  // Correct answers and streaks
  // ---------------------------------------------------------------------------

  /** Number of correct answers in the log. */
  function CorrectCount(s: seq<Answer>): (n: nat)
    ensures n <= |s|
    ensures n == |s| <==> forall i :: 0 <= i < |s| ==> s[i].isCorrect
  {
    if s == [] then 0
    else
      var p := Init(s);
      assert forall i :: 0 <= i < |p| ==> p[i] == s[i];
      CorrectCount(p) + (if Last(s).isCorrect then 1 else 0)
  }

  /** The answers `s[i..j]` are all correct. */
  ghost predicate CorrectRun(s: seq<Answer>, i: int, j: int) {
    0 <= i <= j <= |s| && forall k :: i <= k < j ==> s[k].isCorrect
  }

  /** The run of correct answers that ends the log: the session's current streak. */
  function TrailingRun(s: seq<Answer>): (n: nat)
    ensures n <= |s|
  {
    if s == [] then 0
    else if Last(s).isCorrect then TrailingRun(Init(s)) + 1
    else 0
  }

  /** The longest run of consecutive correct answers anywhere in the log. */
  function LongestRun(s: seq<Answer>): nat
  {
    if s == [] then 0 else Max(LongestRun(Init(s)), TrailingRun(s))
  }

  /** The trailing run is a run of correct answers, and no longer run ends the log. */
  lemma {:induction false} TrailingRunIsMaximal(s: seq<Answer>)
    ensures CorrectRun(s, |s| - TrailingRun(s), |s|)
    ensures forall i :: CorrectRun(s, i, |s|) ==> |s| - i <= TrailingRun(s)
  {
    if s != [] {
      var p := Init(s);
      TrailingRunIsMaximal(p);
      assert forall k :: 0 <= k < |p| ==> p[k] == s[k];
      forall i | CorrectRun(s, i, |s|)
        ensures |s| - i <= TrailingRun(s)
      {
        if i < |s| {
          assert s[|s| - 1].isCorrect;
          assert CorrectRun(p, i, |p|);
        }
      }
    }
  }

  /** `LongestRun` is the length of a run of correct answers, and of the longest one. */
  lemma {:induction false} LongestRunIsMaximal(s: seq<Answer>)
    ensures exists i, j :: CorrectRun(s, i, j) && j - i == LongestRun(s)
    ensures forall i, j :: CorrectRun(s, i, j) ==> j - i <= LongestRun(s)
  {
    if s == [] {
      assert CorrectRun(s, 0, 0);
    } else {
      var p := Init(s);
      LongestRunIsMaximal(p);
      TrailingRunIsMaximal(s);
      assert forall k :: 0 <= k < |p| ==> p[k] == s[k];
      if LongestRun(p) >= TrailingRun(s) {
        var i, j :| CorrectRun(p, i, j) && j - i == LongestRun(p);
        assert CorrectRun(s, i, j);
      } else {
        assert CorrectRun(s, |s| - TrailingRun(s), |s|);
      }
      forall i, j | CorrectRun(s, i, j)
        ensures j - i <= LongestRun(s)
      {
        if j <= |p| {
          assert CorrectRun(p, i, j);
        } else {
          assert CorrectRun(s, i, |s|);
        }
      }
    }
  }

  /** The current streak never exceeds the longest streak. */
  lemma TrailingWithinLongest(s: seq<Answer>)
    ensures TrailingRun(s) <= LongestRun(s)
  {
    if s != [] {
      assert LongestRun(s) == Max(LongestRun(Init(s)), TrailingRun(s));
    }
  }

  /** The streak loop of data-service.js:212-222: `currentStreak` counts up on
      a correct answer and drops to 0 otherwise; `maxStreak` keeps the peak. */
  method LongestCorrectStreak(answers: seq<Answer>) returns (maxStreak: nat)
    ensures maxStreak == LongestRun(answers)
  {
    var currentStreak := 0;
    maxStreak := 0;
    var i := 0;
    while i < |answers|
      invariant 0 <= i <= |answers|
      invariant currentStreak == TrailingRun(answers[..i])
      invariant maxStreak == LongestRun(answers[..i])
    {
      assert Init(answers[..i + 1]) == answers[..i];
      if answers[i].isCorrect {
        currentStreak := currentStreak + 1;
        maxStreak := Max(maxStreak, currentStreak);
      } else {
        currentStreak := 0;
      }
      i := i + 1;
    }
    assert answers[..i] == answers;
  }

  // ---------------------------------------------------------------------------
  // Grouping answers by question type
  // ---------------------------------------------------------------------------

  /** Number of answers recorded under key `k`. */
  function CountOf(s: seq<Answer>, k: string): nat
  {
    if s == [] then 0 else CountOf(Init(s), k) + (if TypeKey(Last(s)) == k then 1 else 0)
  }

  /** Number of correct answers recorded under key `k`. */
  function CorrectOf(s: seq<Answer>, k: string): (n: nat)
    ensures n <= CountOf(s, k)
  {
    if s == [] then 0
    else CorrectOf(Init(s), k) + (if TypeKey(Last(s)) == k && Last(s).isCorrect then 1 else 0)
  }

  /** The positive response times of the answers recorded under key `k`, in order. */
  function TimesOf(s: seq<Answer>, k: string): seq<real>
  {
    if s == [] then []
    else TimesOf(Init(s), k) + (if TypeKey(Last(s)) == k && Last(s).responseTime > 0.0 then [Last(s).responseTime] else [])
  }

  /** The keys of the answers in order of first appearance: the key order of
      a JavaScript object filled by walking the log. */
  function DistinctKeys(s: seq<Answer>): seq<string>
  {
    if s == [] then []
    else
      var d := DistinctKeys(Init(s));
      if TypeKey(Last(s)) in d then d else d + [TypeKey(Last(s))]
  }

  /** The per-type tallies kept by both forEach loops over the answers
      (game-logic.js:503-516 and data-service.js:260-279). */
  datatype TypePerformance = TypePerformance(qtype: string, correct: nat, total: nat, times: seq<real>)

  function PerformanceOf(s: seq<Answer>, k: string): TypePerformance {
    TypePerformance(k, CorrectOf(s, k), CountOf(s, k), TimesOf(s, k))
  }

  /** The per-type tallies of a session, in key order. */
  function SessionPerformance(s: seq<Answer>): seq<TypePerformance> {
    var d := DistinctKeys(s);
    seq(|d|, j requires 0 <= j < |d| => PerformanceOf(s, d[j]))
  }

  /** The tally one more answer under key `TypeKey(a)` produces. */
  function Tally(p: TypePerformance, a: Answer): TypePerformance {
    TypePerformance(p.qtype,
      p.correct + (if a.isCorrect then 1 else 0),
      p.total + 1,
      if a.responseTime > 0.0 then p.times + [a.responseTime] else p.times)
  }

  /** Every answer's key is among the distinct keys, every distinct key comes
      from an answer, and no key is listed twice. */
  lemma {:induction false} DistinctKeysSound(s: seq<Answer>)
    ensures NoDuplicates(DistinctKeys(s))
    ensures forall i :: 0 <= i < |s| ==> TypeKey(s[i]) in DistinctKeys(s)
    ensures forall k :: k in DistinctKeys(s) ==> exists i :: 0 <= i < |s| && TypeKey(s[i]) == k
  {
    if s != [] {
      var p := Init(s);
      DistinctKeysSound(p);
      assert forall i :: 0 <= i < |p| ==> p[i] == s[i];
      forall k | k in DistinctKeys(s)
        ensures exists i :: 0 <= i < |s| && TypeKey(s[i]) == k
      {
        if k in DistinctKeys(p) {
          var i :| 0 <= i < |p| && TypeKey(p[i]) == k;
          assert TypeKey(s[i]) == k;
        } else {
          assert TypeKey(s[|s| - 1]) == k;
        }
      }
    }
  }

  /** A key that no answer carries has an empty tally. */
  lemma {:induction false} AbsentKey(s: seq<Answer>, k: string)
    requires k !in DistinctKeys(s)
    ensures CountOf(s, k) == 0 && CorrectOf(s, k) == 0 && TimesOf(s, k) == []
  {
    if s != [] {
      var d := DistinctKeys(Init(s));
      assert k !in d;
      AbsentKey(Init(s), k);
    }
  }

  /** A key that some answer carries has a non-empty tally. */
  lemma {:induction false} PresentKey(s: seq<Answer>, k: string)
    requires k in DistinctKeys(s)
    ensures CountOf(s, k) >= 1
  {
    var p := Init(s);
    if k in DistinctKeys(p) {
      PresentKey(p, k);
    }
  }

  /** Appending one answer adds it to its own key's tally and to no other. */
  lemma PerformanceStep(s: seq<Answer>, a: Answer, k: string)
    ensures PerformanceOf(s + [a], k) ==
      if TypeKey(a) == k then Tally(PerformanceOf(s, k), a) else PerformanceOf(s, k)
  {
    assert Init(s + [a]) == s;
  }

  /** First index of a tally with key `k`, or `|perf|` when there is none. */
  function FindType(perf: seq<TypePerformance>, k: string): (j: nat)
    ensures j <= |perf|
    ensures j < |perf| ==> perf[j].qtype == k
    ensures forall m :: 0 <= m < j ==> perf[m].qtype != k
  {
    if perf == [] then 0
    else if perf[0].qtype == k then 0
    else 1 + FindType(perf[1..], k)
  }

  /** One more answer adds an empty tally for its key when the key is new,
      then counts the answer in its key's tally; the others stay as they are. */
  lemma TallyStep(s: seq<Answer>, a: Answer)
    ensures var perf := SessionPerformance(s);
      var j := FindType(perf, TypeKey(a));
      var grown := if j == |perf| then perf + [TypePerformance(TypeKey(a), 0, 0, [])] else perf;
      SessionPerformance(s + [a]) == grown[j := Tally(grown[j], a)]
  {
    var perf := SessionPerformance(s);
    var k := TypeKey(a);
    assert Init(s + [a]) == s;
    DistinctKeysSound(s);
    var j := FindType(perf, k);
    if j == |perf| {
      assert forall m :: 0 <= m < |perf| ==> perf[m].qtype == DistinctKeys(s)[m];
      assert k !in DistinctKeys(s);
      AbsentKey(s, k);
    }
    var grown := if j == |perf| then perf + [TypePerformance(k, 0, 0, [])] else perf;
    var r := grown[j := Tally(grown[j], a)];
    var keys := DistinctKeys(s + [a]);
    assert keys == if k in DistinctKeys(s) then DistinctKeys(s) else DistinctKeys(s) + [k];
    assert |r| == |keys|;
    forall m | 0 <= m < |r|
      ensures r[m] == PerformanceOf(s + [a], keys[m])
    {
      PerformanceStep(s, a, keys[m]);
    }
  }

  /** The grouping loop: look up the answer's key, add an empty tally the first
      time a key is seen, then count the answer in it. */
  method GroupByType(answers: seq<Answer>) returns (perf: seq<TypePerformance>)
    ensures perf == SessionPerformance(answers)
  {
    perf := [];
    var i := 0;
    while i < |answers|
      invariant 0 <= i <= |answers|
      invariant perf == SessionPerformance(answers[..i])
    {
      var a := answers[i];
      var k := TypeKey(a);
      assert answers[..i + 1] == answers[..i] + [a];
      TallyStep(answers[..i], a);
      var j := FindType(perf, k);
      if j == |perf| {
        perf := perf + [TypePerformance(k, 0, 0, [])];
      }
      perf := perf[j := Tally(perf[j], a)];
      i := i + 1;
    }
    assert answers[..i] == answers;
  }

  function SumTotals(perf: seq<TypePerformance>): nat {
    if perf == [] then 0 else SumTotals(Init(perf)) + Last(perf).total
  }

  function SumCounts(s: seq<Answer>, keys: seq<string>): nat {
    if keys == [] then 0 else SumCounts(s, Init(keys)) + CountOf(s, Last(keys))
  }

  /** Over distinct keys, one more answer adds one to the sum exactly when its key is listed. */
  lemma {:induction false} SumCountsStep(s: seq<Answer>, a: Answer, keys: seq<string>)
    requires NoDuplicates(keys)
    ensures SumCounts(s + [a], keys) == SumCounts(s, keys) + (if TypeKey(a) in keys then 1 else 0)
  {
    if keys != [] {
      var p := Init(keys);
      assert forall i :: 0 <= i < |p| ==> p[i] == keys[i];
      SumCountsStep(s, a, p);
      assert Init(s + [a]) == s;
      assert TypeKey(a) in keys <==> TypeKey(a) in p || TypeKey(a) == Last(keys);
      assert TypeKey(a) == Last(keys) ==> TypeKey(a) !in p;
    }
  }

  lemma {:induction false} SumTotalsOfKeys(s: seq<Answer>, keys: seq<string>)
    ensures SumTotals(seq(|keys|, j requires 0 <= j < |keys| => PerformanceOf(s, keys[j]))) == SumCounts(s, keys)
  {
    var perf := seq(|keys|, j requires 0 <= j < |keys| => PerformanceOf(s, keys[j]));
    if keys != [] {
      var p := Init(keys);
      SumTotalsOfKeys(s, p);
      assert Init(perf) == seq(|p|, j requires 0 <= j < |p| => PerformanceOf(s, p[j]));
    }
  }

  lemma {:induction false} SumCountsDistinct(s: seq<Answer>)
    ensures SumCounts(s, DistinctKeys(s)) == |s|
  {
    if s != [] {
      var p := Init(s);
      var a := Last(s);
      assert s == p + [a];
      SumCountsDistinct(p);
      DistinctKeysSound(p);
      var d := DistinctKeys(p);
      SumCountsStep(p, a, d);
      if TypeKey(a) !in d {
        AbsentKey(p, TypeKey(a));
        assert Init(s) == p;
        assert Init(d + [TypeKey(a)]) == d;
      }
    }
  }

  /** The per-type totals add up to the number of answers. */
  lemma TotalsCoverAnswers(s: seq<Answer>)
    ensures SumTotals(SessionPerformance(s)) == |s|
  {
    SumTotalsOfKeys(s, DistinctKeys(s));
    SumCountsDistinct(s);
  }

  /** Every tally of a session is non-empty and counts no more correct answers than answers. */
  lemma PerformanceWellFormed(s: seq<Answer>)
    ensures forall j :: 0 <= j < |SessionPerformance(s)| ==>
      0 < SessionPerformance(s)[j].total && SessionPerformance(s)[j].correct <= SessionPerformance(s)[j].total
  {
    var d := DistinctKeys(s);
    forall j | 0 <= j < |d|
      ensures CountOf(s, d[j]) >= 1
    {
      PresentKey(s, d[j]);
    }
  }

  // ---------------------------------------------------------------------------
  // Session summary
  // ---------------------------------------------------------------------------

  /** `Math.round(correct / total * 100)`: the mastery percentage of one type. */
  function Mastery(correct: nat, total: nat): (m: int)
    requires 0 < total && correct <= total
    ensures 0 <= m <= 100
    ensures correct == total ==> m == 100
    ensures correct == 0 ==> m == 0
  {
    var ratio := correct as real / total as real;
    FractionBounds(correct, total);
    RoundWithin(ratio * 100.0, 0, 100);
    assert Round(100.0) == 100 && Round(0.0) == 0;
    Round(ratio * 100.0)
  }

  /** One entry of the results' `typeMastery` table. */
  datatype MasteryEntry = MasteryEntry(qtype: string, correct: nat, total: nat, mastery: int)

  /** The summary `endGame` hands to the data service (game-logic.js:533-544). */
  datatype GameResults = GameResults(
    mode: string,
    score: int,
    accuracy: real,
    avgResponseTime: real,
    totalTime: real,
    typeMastery: seq<MasteryEntry>,
    coins: int,
    xp: int,
    date: int,
    answers: seq<Answer>)
}
