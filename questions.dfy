/** The question catalogue of game-logic.js: the eight question types with
    their difficulty ranges, the choice of a bank entry by difficulty, and
    the construction of a session's question list. Question texts, options
    and explanations are bank data and are not modelled; a question keeps
    only what the game logic reads from it. */
module Questions {
  import opened JsValues

  /** The entries of the `questionTypes` table (game-logic.js:28-77). */
  datatype QuestionType =
    Deduction | Induction | Pattern | Analogy | Conditional | Fallacy | Categorical | Sequence

  /** The property name of each type in `questionTypes`. */
  function KeyOf(t: QuestionType): string {
    match t
    case Deduction => "deduction"
    case Induction => "induction"
    case Pattern => "pattern"
    case Analogy => "analogy"
    case Conditional => "conditional"
    case Fallacy => "fallacy"
    case Categorical => "categorical"
    case Sequence => "sequence"
  }

  /** `questionTypes[key]`: the type a key names, if any. */
  function TypeNamed(key: string): (t: Option<QuestionType>)
    ensures t.Some? ==> KeyOf(t.value) == key
    ensures forall u: QuestionType :: KeyOf(u) == key ==> t == Some(u)
  {
    if key == "deduction" then Some(Deduction)
    else if key == "induction" then Some(Induction)
    else if key == "pattern" then Some(Pattern)
    else if key == "analogy" then Some(Analogy)
    else if key == "conditional" then Some(Conditional)
    else if key == "fallacy" then Some(Fallacy)
    else if key == "categorical" then Some(Categorical)
    else if key == "sequence" then Some(Sequence)
    else None
  }

  /** `Object.keys(questionTypes)`, in declaration order. */
  const AllTypeKeys: seq<string> :=
    ["deduction", "induction", "pattern", "analogy", "conditional", "fallacy", "categorical", "sequence"]

  /** Lower end of a type's `difficulty` range. */
  function MinDifficulty(t: QuestionType): real {
    match t
    case Deduction => 0.3
    case Induction => 0.4
    case Pattern => 0.2
    case Analogy => 0.3
    case Conditional => 0.5
    case Fallacy => 0.6
    case Categorical => 0.4
    case Sequence => 0.3
  }

  /** Upper end of a type's `difficulty` range. */
  function MaxDifficulty(t: QuestionType): real {
    match t
    case Deduction => 0.9
    case Induction => 0.9
    case Pattern => 0.9
    case Analogy => 0.8
    case Conditional => 1.0
    case Fallacy => 1.0
    case Categorical => 0.9
    case Sequence => 1.0
  }

  /** Every generator's bank holds three questions. */
  const BankSize: nat := 3

  /** The `correctAnswer` of the `k`-th bank entry of a type. */
  function BankCorrectAnswer(t: QuestionType, k: nat): int
    requires k < BankSize
  {
    var answers := match t
      case Deduction => [1, 0, 2]
      case Induction => [1, 1, 2]
      case Pattern => [1, 3, 1]
      case Analogy => [3, 2, 1]
      case Conditional => [2, 0, 2]
      case Fallacy => [3, 1, 1]
      case Categorical => [1, 0, 1]
      case Sequence => [2, 0, 1];
    answers[k]
  }

  /** `Math.min(Math.floor(difficulty * questions.length), questions.length - 1)`:
      the bank entry a generator picks for a difficulty. */
  function BankIndex(difficulty: real): (k: nat)
    requires difficulty >= 0.0
    ensures k < BankSize
    ensures k as real <= difficulty * BankSize as real
    ensures k < BankSize - 1 ==> difficulty * BankSize as real < (k + 1) as real
  {
    Min((difficulty * BankSize as real).Floor, BankSize - 1)
  }

  /** A harder question never comes from an earlier bank entry. */
  lemma BankIndexMonotone(d1: real, d2: real)
    requires 0.0 <= d1 <= d2
    ensures BankIndex(d1) <= BankIndex(d2)
  {
    assert d1 * BankSize as real <= d2 * BankSize as real;
  }

  /** What the game logic reads from a question: its type key (`undefined`
      is None), its difficulty, the index of the right option, and whether
      it carries its own hint. */
  datatype Question = Question(qtype: Option<string>, difficulty: real, correctAnswer: int, hasHint: bool)

  /** `targetTypes[i % targetTypes.length]`: undefined when the list is empty. */
  function TargetKey(targetTypes: seq<string>, i: nat): (key: Option<string>)
    ensures key.None? <==> |targetTypes| == 0
    ensures key.Some? ==> key.value in targetTypes
  {
    if |targetTypes| == 0 then None else Some(targetTypes[i % |targetTypes|])
  }

  /** `questionTypes[typeKey] || questionTypes.deduction`. */
  function GeneratorOf(key: Option<string>): (t: QuestionType)
    ensures key.Some? && TypeNamed(key.value).Some? ==> t == TypeNamed(key.value).value
    ensures key.None? || TypeNamed(key.value).None? ==> t == Deduction
  {
    match key
    case None => Deduction
    case Some(k) => match TypeNamed(k) { case Some(t) => t case None => Deduction }
  }

  /** `gameState.difficulty * (1 + i / (count * 2))`. */
  function ProgressDifficulty(difficulty: real, i: nat, count: nat): real
    requires count > 0
  {
    difficulty * (1.0 + i as real / (count * 2) as real)
  }

  /** `Math.min(Math.max(x, lo), hi)`. */
  function Clamp(x: real, lo: real, hi: real): (r: real)
    requires lo <= hi
    ensures lo <= r <= hi
    ensures lo <= x <= hi ==> r == x
  {
    MinReal(MaxReal(x, lo), hi)
  }

  /** The question `generateQuestions(count)` builds at position `i`: its type
      comes from rotating over the target types, its difficulty is the
      progressive difficulty clamped to the generating type's range, and its
      content is the bank entry that difficulty selects. */
  function QuestionAt(difficulty: real, targetTypes: seq<string>, count: nat, i: nat): (q: Question)
    requires i < count
    ensures q.qtype == TargetKey(targetTypes, i)
    ensures MinDifficulty(GeneratorOf(q.qtype)) <= q.difficulty <= MaxDifficulty(GeneratorOf(q.qtype))
    ensures q.correctAnswer == BankCorrectAnswer(GeneratorOf(q.qtype), BankIndex(q.difficulty))
    ensures q.hasHint
  {
    var key := TargetKey(targetTypes, i);
    var t := GeneratorOf(key);
    var actual := Clamp(ProgressDifficulty(difficulty, i, count), MinDifficulty(t), MaxDifficulty(t));
    Question(key, actual, BankCorrectAnswer(t, BankIndex(actual)), true)
  }

  /** The generation loop of game-logic.js:330-348. */
  method GenerateQuestions(difficulty: real, targetTypes: seq<string>, count: nat) returns (questions: seq<Question>)
    ensures |questions| == count
    ensures forall i :: 0 <= i < count ==> questions[i] == QuestionAt(difficulty, targetTypes, count, i)
  {
    questions := [];
    var i := 0;
    while i < count
      invariant 0 <= i <= count
      invariant |questions| == i
      invariant forall j :: 0 <= j < i ==> questions[j] == QuestionAt(difficulty, targetTypes, count, j)
    {
      var typeKey := TargetKey(targetTypes, i);
      var t := GeneratorOf(typeKey);
      var progressDifficulty := ProgressDifficulty(difficulty, i, count);
      var actualDifficulty := Clamp(progressDifficulty, MinDifficulty(t), MaxDifficulty(t));
      var question := Question(typeKey, actualDifficulty, BankCorrectAnswer(t, BankIndex(actualDifficulty)), true);
      questions := questions + [question];
      i := i + 1;
    }
  }

  /** Shifting by the modulus leaves the remainder alone. */
  lemma ModShift(i: nat, n: nat)
    requires n > 0
    ensures (i + n) % n == i % n
  {
    var q, r := i / n, i % n;
    var q2, r2 := (i + n) / n, (i + n) % n;
    assert q * n + r == i;
    assert q2 * n + r2 == i + n;
    var k := q2 - q - 1;
    assert k * n == r - r2 by {
      assert k * n == q2 * n - q * n - n;
    }
  }

  /** The type of a question repeats every `|targetTypes|` positions. */
  lemma TypesRotate(difficulty: real, targetTypes: seq<string>, count: nat, i: nat)
    requires |targetTypes| > 0 && i + |targetTypes| < count
    ensures QuestionAt(difficulty, targetTypes, count, i + |targetTypes|).qtype
         == QuestionAt(difficulty, targetTypes, count, i).qtype
  {
    ModShift(i, |targetTypes|);
  }

  /** Later questions of the same type are at least as hard, when the
      starting difficulty is not negative. */
  lemma DifficultyNonDecreasing(difficulty: real, targetTypes: seq<string>, count: nat, i: nat, j: nat)
    requires difficulty >= 0.0 && i <= j < count
    requires GeneratorOf(TargetKey(targetTypes, i)) == GeneratorOf(TargetKey(targetTypes, j))
    ensures QuestionAt(difficulty, targetTypes, count, i).difficulty
         <= QuestionAt(difficulty, targetTypes, count, j).difficulty
  {
    var c := (count * 2) as real;
    assert i as real / c <= j as real / c;
    assert ProgressDifficulty(difficulty, i, count) <= ProgressDifficulty(difficulty, j, count);
  }

  /** Every generated question's difficulty lies within [0.2, 1.0], the union
      of all type ranges, whatever the starting difficulty. */
  lemma GeneratedDifficultyBounds(difficulty: real, targetTypes: seq<string>, count: nat, i: nat)
    requires i < count
    ensures 0.2 <= QuestionAt(difficulty, targetTypes, count, i).difficulty <= 1.0
  {
    var q := QuestionAt(difficulty, targetTypes, count, i);
    match GeneratorOf(q.qtype)
    case Deduction =>
    case Induction =>
    case Pattern =>
    case Analogy =>
    case Conditional =>
    case Fallacy =>
    case Categorical =>
    case Sequence =>
  }

  /** The fixed daily challenge of data-service.js:409-453: three questions
      without hints. */
  const DailyChallengeQuestions: seq<Question> := [
    Question(Some("deduction"), 0.7, 1, false),
    Question(Some("pattern"), 0.6, 0, false),
    Question(Some("fallacy"), 0.8, 1, false)
  ]
}
