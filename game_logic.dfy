/** The game session of game-logic.js: the `gameState` record and the
    operations that drive it (start, show a question, submit, skip, hint,
    the countdown and the end-of-game summary). Screen updates are left out;
    the timer and the 2-second feedback delay are events the environment
    delivers as method calls, and the clock is a parameter. */
module GameLogic {
  import opened JsValues
  import opened Sessions
  import opened Questions
  import opened UserRecords
  import opened DataServices

  const DefaultDifficulty: real := 0.5

  /** Seconds on the countdown of a timed question. */
  const QuestionSeconds: int := 30

  /** Coins a hint costs. */
  const HintCost: int := 50

  /** The modes whose questions run against the countdown. */
  predicate Timed(mode: string) {
    mode == "single" || mode == "daily"
  }

  /** A hint handed out: the question's own, or the generic advice. */
  datatype Hint = OwnHint | GenericHint

  // ---------------------------------------------------------------------------
  // Scoring (game-logic.js:150-166)
  // ---------------------------------------------------------------------------

  /** The points of one correct answer: a difficulty part, a bonus of two
      points per second under 30, and a streak bonus of 10 per answer in the
      current run, at most 50. */
  function QuestionScore(difficulty: real, responseTime: real, streak: nat): int {
    Round(100.0 * difficulty) + Max(0, Round(30.0 - responseTime) * 2) + Min(streak * 10, 50)
  }

  /** For a difficulty in [0, 1], a non-negative response time and a streak
      that includes this answer, a correct answer scores from 10 to 210; the
      streak bonus is full from the fifth answer of a run on. */
  lemma QuestionScoreBounds(difficulty: real, responseTime: real, streak: nat)
    requires 0.0 <= difficulty <= 1.0 && responseTime >= 0.0 && streak >= 1
    ensures 10 <= QuestionScore(difficulty, responseTime, streak) <= 210
    ensures streak >= 5 ==>
      QuestionScore(difficulty, responseTime, streak) == QuestionScore(difficulty, responseTime, 5)
  {
    RoundWithin(100.0 * difficulty, 0, 100);
    RoundMonotone(30.0 - responseTime, 30.0);
    assert Round(30.0) == 30;
  }

  /** The score of a run of answers: each correct answer scores with the
      streak that ends at it; wrong and skipped answers score nothing. */
  function SessionScore(s: seq<Answer>): int {
    if s == [] then 0
    else SessionScore(Init(s)) + (if Last(s).isCorrect then QuestionScore(Last(s).difficulty, Last(s).responseTime, TrailingRun(s)) else 0)
  }

  /** A correct answer to a question of non-negative difficulty never costs
      points, however slow it was and whatever the streak. */
  lemma QuestionScoreNonNegative(difficulty: real, responseTime: real, streak: nat)
    requires difficulty >= 0.0
    ensures QuestionScore(difficulty, responseTime, streak) >= 0
  {
    RoundMonotone(0.0, 100.0 * difficulty);
    assert Round(0.0) == 0;
  }

  /** One more answer to a question of non-negative difficulty never lowers
      the score; a wrong or skipped one leaves it as it was. */
  lemma SessionScoreGrows(s: seq<Answer>, a: Answer)
    requires a.difficulty >= 0.0
    ensures SessionScore(s) <= SessionScore(s + [a])
    ensures !a.isCorrect ==> SessionScore(s + [a]) == SessionScore(s)
  {
    assert Init(s + [a]) == s;
    QuestionScoreNonNegative(a.difficulty, a.responseTime, TrailingRun(s + [a]));
  }

  /** A session of non-negative difficulties scores at least nothing, and a
      session without a correct answer scores nothing. */
  lemma {:induction false} SessionScoreNonNegative(s: seq<Answer>)
    requires forall j :: 0 <= j < |s| ==> s[j].difficulty >= 0.0
    ensures SessionScore(s) >= 0
    ensures CorrectCount(s) == 0 ==> SessionScore(s) == 0
  {
    if s != [] {
      var p := Init(s);
      assert forall j :: 0 <= j < |p| ==> p[j] == s[j];
      SessionScoreNonNegative(p);
      assert s == p + [Last(s)];
      SessionScoreGrows(p, Last(s));
    }
  }

  // ---------------------------------------------------------------------------
  // The end-of-game summary (game-logic.js:489-544)
  // ---------------------------------------------------------------------------

  /** The mean of the recorded response times, 0 when there are none. */
  function AverageTime(ts: seq<real>): real {
    if |ts| > 0 then Sum(ts) / |ts| as real else 0.0
  }

  /** The `typeMastery` table: per type key in first-appearance order, the
      correct and total counts and the rounded percentage. */
  function MasteryTable(answers: seq<Answer>): (t: seq<MasteryEntry>)
    ensures |t| == |DistinctKeys(answers)|
    ensures forall j :: 0 <= j < |t| ==>
      t[j].qtype == DistinctKeys(answers)[j]
      && t[j].correct == CorrectOf(answers, t[j].qtype)
      && t[j].total == CountOf(answers, t[j].qtype)
      && 0 <= t[j].mastery <= 100
  {
    var perf := SessionPerformance(answers);
    PerformanceWellFormed(answers);
    seq(|perf|, j requires 0 <= j < |perf| =>
      MasteryEntry(perf[j].qtype, perf[j].correct, perf[j].total, Mastery(perf[j].correct, perf[j].total)))
  }

  /** `(now - startTime) / 1000`. */
  function ElapsedSeconds(from: int, now: int): real {
    (now - from) as real / 1000.0
  }

  /** `totalCorrect / totalQuestions`. */
  function SessionAccuracy(totalCorrect: nat, totalQuestions: nat): real
    requires totalQuestions > 0
  {
    totalCorrect as real / totalQuestions as real
  }

  /** The results object `endGame` builds. */
  function SessionResults(mode: string, score: int, totalCorrect: nat, totalQuestions: nat,
                          responseTimes: seq<real>, answers: seq<Answer>, startTime: int, now: int): GameResults
    requires totalQuestions > 0
  {
    var totalTime := ElapsedSeconds(startTime, now);
    var accuracy := SessionAccuracy(totalCorrect, totalQuestions);
    var coins := Round(score as real / 10.0) + Round(accuracy * 100.0);
    var xp := Round(Round(score as real / 5.0) as real + MaxReal(0.0, Round(300.0 - totalTime) as real * 0.1));
    GameResults(mode, score, accuracy, AverageTime(responseTimes), totalTime,
      MasteryTable(answers), coins, xp, now, answers)
  }

  /** The coin reward: the score part plus up to 100 for accuracy, exactly
      100 for a perfect session. */
  lemma CoinReward(score: int, totalCorrect: nat, totalQuestions: nat)
    requires 0 < totalQuestions && totalCorrect <= totalQuestions
    ensures var coins := Round(score as real / 10.0) + Round(totalCorrect as real / totalQuestions as real * 100.0);
      && Round(score as real / 10.0) <= coins <= Round(score as real / 10.0) + 100
      && (totalCorrect == totalQuestions ==> coins == Round(score as real / 10.0) + 100)
  {
    var accuracy := totalCorrect as real / totalQuestions as real;
    assert Ratio(totalCorrect, totalQuestions).value == accuracy;
    RoundWithin(accuracy * 100.0, 0, 100);
    if totalCorrect == totalQuestions {
      assert accuracy == 1.0;
      assert Round(100.0) == 100;
    }
  }

  /** The experience reward: the score part plus the rounded time bonus, which
      vanishes after five minutes. */
  lemma ExperienceReward(score: int, totalTime: real)
    ensures var xp := Round(Round(score as real / 5.0) as real + MaxReal(0.0, Round(300.0 - totalTime) as real * 0.1));
      && xp >= Round(score as real / 5.0)
      && (totalTime >= 300.0 ==> xp == Round(score as real / 5.0))
  {
    var base := Round(score as real / 5.0);
    var bonus := MaxReal(0.0, Round(300.0 - totalTime) as real * 0.1);
    RoundShift(base, bonus);
    RoundMonotone(0.0, bonus);
    assert Round(0.0) == 0;
    if totalTime >= 300.0 {
      RoundMonotone(300.0 - totalTime, 0.0);
    }
  }

  /** Accuracy is the fraction of correct answers; the coin reward is the
      score part plus up to 100 for accuracy, exactly 100 for a perfect
      session; the experience is the score part plus the rounded time bonus,
      which vanishes after five minutes. */
  lemma SessionResultsRewards(mode: string, score: int, totalCorrect: nat, totalQuestions: nat,
                              responseTimes: seq<real>, answers: seq<Answer>, startTime: int, now: int)
    requires 0 < totalQuestions && totalCorrect <= totalQuestions && score >= 0
    ensures var r := SessionResults(mode, score, totalCorrect, totalQuestions, responseTimes, answers, startTime, now);
      && 0.0 <= r.accuracy <= 1.0
      && r.accuracy * totalQuestions as real == totalCorrect as real
      && Round(score as real / 10.0) <= r.coins <= Round(score as real / 10.0) + 100
      && (totalCorrect == totalQuestions ==> r.coins == Round(score as real / 10.0) + 100)
      && r.coins >= 0 && r.xp >= Round(score as real / 5.0) >= 0
      && (r.totalTime >= 300.0 ==> r.xp == Round(score as real / 5.0))
  {
    var r := SessionResults(mode, score, totalCorrect, totalQuestions, responseTimes, answers, startTime, now);
    assert Ratio(totalCorrect, totalQuestions).value == r.accuracy;
    FractionBounds(totalCorrect, totalQuestions);
    CoinReward(score, totalCorrect, totalQuestions);
    ExperienceReward(score, r.totalTime);
    RoundMonotone(0.0, score as real / 10.0);
    RoundMonotone(0.0, score as real / 5.0);
    assert Round(0.0) == 0;
  }

  /** A question's answer record when the player picks `answerIndex`. */
  function SubmittedAnswer(q: Question, index: nat, answerIndex: int, responseTime: real): Answer {
    Answer(index, q.qtype, q.difficulty, answerIndex, q.correctAnswer, answerIndex == q.correctAnswer, responseTime)
  }

  /** A question's answer record when it is skipped or times out. */
  function SkippedRecord(q: Question, index: nat): Answer {
    Answer(index, q.qtype, q.difficulty, SkippedAnswer, q.correctAnswer, false, 0.0)
  }

  /** Questions the game can be played with: non-negative difficulty and a
      real option as the right answer. */
  ghost predicate Playable(questions: seq<Question>) {
    forall j :: 0 <= j < |questions| ==> questions[j].difficulty >= 0.0 && questions[j].correctAnswer >= 0
  }

  /** The answers are one per question, in order, each recording that
      question's type, difficulty and right option, and correct exactly when
      the chosen option is the right one. */
  ghost predicate AnswersMatch(questions: seq<Question>, answers: seq<Answer>) {
    && |answers| <= |questions|
    && forall j :: 0 <= j < |answers| ==>
      && answers[j].questionIndex == j
      && answers[j].questionType == questions[j].qtype
      && answers[j].difficulty == questions[j].difficulty
      && answers[j].correctAnswer == questions[j].correctAnswer
      && (answers[j].isCorrect <==> answers[j].userAnswer == questions[j].correctAnswer)
  }

  lemma GeneratedPlayable(difficulty: real, targetTypes: seq<string>, questions: seq<Question>)
    requires forall i :: 0 <= i < |questions| ==> questions[i] == QuestionAt(difficulty, targetTypes, |questions|, i)
    ensures Playable(questions)
  {
    forall i | 0 <= i < |questions|
      ensures questions[i].difficulty >= 0.0 && questions[i].correctAnswer >= 0
    {
      GeneratedDifficultyBounds(difficulty, targetTypes, |questions|, i);
      var q := questions[i];
      var t := GeneratorOf(q.qtype);
      match t
      case Deduction =>
      case Induction =>
      case Pattern =>
      case Analogy =>
      case Conditional =>
      case Fallacy =>
      case Categorical =>
      case Sequence =>
    }
  }

  // ---------------------------------------------------------------------------
  // The session state and its transitions
  // ---------------------------------------------------------------------------

  /** The fields of `gameState`; the interval handle is `timerRunning`. */
  datatype SessionState = SessionState(
    currentMode: string,
    difficulty: real,
    score: int,
    questionIndex: nat,
    questions: seq<Question>,
    answers: seq<Answer>,
    startTime: Option<int>,
    questionStartTime: Option<int>,
    timeLeft: int,
    timerRunning: bool,
    isGameActive: bool,
    isAnswered: bool,
    selectedAnswer: Option<int>,
    correctAnswer: Option<int>,
    streakCount: nat,
    totalCorrect: nat,
    totalQuestions: nat,
    responseTimes: seq<real>)

  /** The counters agree with the answers recorded so far, the answers with
      the questions, and a countdown only runs in a timed mode. */
  ghost predicate CoreState(st: SessionState) {
    && st.totalCorrect == CorrectCount(st.answers)
    && st.streakCount == TrailingRun(st.answers)
    && st.score == SessionScore(st.answers)
    && |st.responseTimes| <= |st.answers|
    && Playable(st.questions)
    && AnswersMatch(st.questions, st.answers)
    && (st.timerRunning ==> Timed(st.currentMode))
  }

  /** The invariant between events: a running countdown belongs to an open
      question and has time left, and an active game shows a question that
      has been answered exactly when its answer has been recorded. */
  ghost predicate ValidState(st: SessionState) {
    && CoreState(st)
    && (st.timerRunning ==> st.isGameActive && !st.isAnswered && 0 < st.timeLeft <= QuestionSeconds)
    && (st.isGameActive ==>
      && st.totalQuestions == |st.questions|
      && st.questionIndex < |st.questions|
      && st.startTime.Some? && st.questionStartTime.Some?
      && |st.answers| == st.questionIndex + (if st.isAnswered then 1 else 0))
  }

  /** A question is open: the game runs and the current one is unanswered. */
  predicate Open(st: SessionState) {
    st.isGameActive && !st.isAnswered
  }

  /** The initial `gameState`. */
  const InitialState: SessionState := SessionState("single", DefaultDifficulty, 0, 0, [], [], None, None,
    QuestionSeconds, false, false, false, None, None, 0, 0, 0, [])

  /** `resetGameState()`: every field back to its initial value except the mode. */
  function ResetState(st: SessionState): (r: SessionState)
    ensures !r.isGameActive && !r.timerRunning
    ensures r.currentMode == st.currentMode && r.answers == [] && r.questions == [] && r.score == 0
  {
    InitialState.(currentMode := st.currentMode)
  }

  /** The start of a game over the given questions (game-logic.js:85-89 and 249-252). */
  function BeginState(st: SessionState, mode: string, difficulty: real, questions: seq<Question>, now: int): SessionState {
    ResetState(st).(currentMode := mode, difficulty := difficulty, questions := questions,
      totalQuestions := |questions|, isGameActive := true, startTime := Some(now))
  }

  /** The state part of `showQuestion(index)`: open the question, restarting
      the countdown in a timed mode; past the last question, close the game. */
  function ShowState(st: SessionState, index: nat, now: int): SessionState {
    if index < |st.questions| then
      st.(questionIndex := index, isAnswered := false, selectedAnswer := None, correctAnswer := None,
          questionStartTime := Some(now),
          timeLeft := if Timed(st.currentMode) then QuestionSeconds else st.timeLeft,
          timerRunning := Timed(st.currentMode) || st.timerRunning)
    else CloseState(st)
  }

  /** The state part of `endGame()`: countdown stopped, game inactive. */
  function CloseState(st: SessionState): SessionState {
    st.(timerRunning := false, isGameActive := false)
  }

  /** The state after `submitAnswer(answerIndex)` on an open question: the
      answer recorded with its response time, the counters and the score
      updated, the question marked answered and the countdown stopped. */
  function SubmitState(st: SessionState, answerIndex: int, now: int): SessionState
    requires st.questionIndex < |st.questions| && st.questionStartTime.Some?
  {
    var q := st.questions[st.questionIndex];
    var rt := ElapsedSeconds(st.questionStartTime.value, now);
    var a := SubmittedAnswer(q, st.questionIndex, answerIndex, rt);
    var streak := if a.isCorrect then st.streakCount + 1 else 0;
    st.(isAnswered := true, selectedAnswer := Some(answerIndex), correctAnswer := Some(q.correctAnswer),
        responseTimes := st.responseTimes + [rt], answers := st.answers + [a],
        totalCorrect := if a.isCorrect then st.totalCorrect + 1 else st.totalCorrect,
        streakCount := streak,
        score := if a.isCorrect then st.score + QuestionScore(q.difficulty, rt, streak) else st.score,
        timerRunning := false)
  }

  /** The record `skipQuestion()` adds before moving on: a skipped answer and
      a broken streak. */
  function SkipState(st: SessionState): SessionState
    requires st.questionIndex < |st.questions|
  {
    st.(answers := st.answers + [SkippedRecord(st.questions[st.questionIndex], st.questionIndex)], streakCount := 0)
  }

  /** The results `endGame()` hands on for this state. */
  function Results(st: SessionState, now: int): GameResults
    requires st.totalQuestions > 0 && st.startTime.Some?
  {
    SessionResults(st.currentMode, st.score, st.totalCorrect, st.totalQuestions, st.responseTimes,
      st.answers, st.startTime.value, now)
  }

  /** Showing the next question keeps the invariant whenever one answer per
      earlier question is recorded. */
  lemma ShowKeepsValid(st: SessionState, index: nat, now: int)
    requires CoreState(st) && st.isGameActive && st.totalQuestions == |st.questions| && st.startTime.Some?
    requires |st.answers| == index
    ensures ValidState(ShowState(st, index, now))
  {
  }

  /** A game begun over playable questions is valid once its first question is shown. */
  lemma BeginKeepsValid(st: SessionState, mode: string, difficulty: real, questions: seq<Question>, now: int)
    requires Playable(questions)
    ensures ValidState(ShowState(BeginState(st, mode, difficulty, questions, now), 0, now))
  {
    var b := BeginState(st, mode, difficulty, questions, now);
    assert CoreState(b);
    ShowKeepsValid(b, 0, now);
  }

  /** Submitting on an open question keeps the invariant: the counters follow
      the new answer, the streak grows by one exactly on a correct answer,
      and the score grows by that answer's points. */
  lemma SubmitKeepsValid(st: SessionState, answerIndex: int, now: int)
    requires ValidState(st) && Open(st)
    ensures ValidState(SubmitState(st, answerIndex, now))
  {
    var r := SubmitState(st, answerIndex, now);
    assert Init(r.answers) == st.answers;
  }

  /** Within a game the score never goes down: a submitted answer adds its
      non-negative points, or nothing when it is wrong, and a skip adds nothing. */
  lemma ScoreNeverDecreases(st: SessionState, answerIndex: int, now: int)
    requires ValidState(st) && Open(st)
    ensures SubmitState(st, answerIndex, now).score >= st.score
    ensures SubmitState(st, answerIndex, now).score > st.score || !Last(SubmitState(st, answerIndex, now).answers).isCorrect
    ensures ShowState(SkipState(st), st.questionIndex + 1, now).score == st.score
  {
    var q := st.questions[st.questionIndex];
    var rt := ElapsedSeconds(st.questionStartTime.value, now);
    var a := SubmittedAnswer(q, st.questionIndex, answerIndex, rt);
    var streak := if a.isCorrect then st.streakCount + 1 else 0;
    QuestionScoreNonNegative(q.difficulty, rt, streak);
  }

  /** A game in which every question was skipped or timed out records no
      response time: its results report a mean of 0 seconds, which completes
      the speed achievement with progress 100. */
  lemma UntimedGameCompletesSpeed(st: SessionState, now: int, a: Achievement)
    requires st.totalQuestions > 0 && st.startTime.Some? && st.responseTimes == []
    ensures Results(st, now).avgResponseTime == 0.0
    ensures Apply(SpeedRule(Results(st, now).avgResponseTime), a).completed
    ensures Apply(SpeedRule(Results(st, now).avgResponseTime), a).progress == 100
  {
    SpeedAtZeroSeconds(a);
  }

  /** Skipping an open question, and then showing the next one, keeps the invariant. */
  lemma SkipKeepsValid(st: SessionState, now: int)
    requires ValidState(st) && Open(st)
    ensures ValidState(ShowState(SkipState(st), st.questionIndex + 1, now))
  {
    var r := SkipState(st);
    assert Init(r.answers) == st.answers;
    assert CoreState(r.(timerRunning := false)) ==> CoreState(r);
    ShowKeepsValid(r, st.questionIndex + 1, now);
  }

  /** The last answer's feedback delay ends the game; any other shows the next question. */
  lemma FeedbackKeepsValid(st: SessionState, now: int)
    requires ValidState(st) && st.isGameActive && st.isAnswered
    ensures ValidState(ShowState(st, st.questionIndex + 1, now))
  {
    ShowKeepsValid(st, st.questionIndex + 1, now);
  }

  /** A game that ran to its end has one answer per question, so its
      counters are the session's correct and total answers. */
  lemma FinishedCounts(st: SessionState)
    requires ValidState(st) && st.isGameActive && st.isAnswered && st.questionIndex == |st.questions| - 1
    ensures |st.answers| == st.totalQuestions > 0 && st.totalCorrect == CorrectCount(st.answers)
  {
  }

  /** The accuracy is the share of correct answers: times the number of
      questions it gives back the correct count, and it lies in [0, 1]. */
  lemma AccuracyShare(totalCorrect: nat, totalQuestions: nat)
    requires 0 < totalQuestions && totalCorrect <= totalQuestions
    ensures SessionAccuracy(totalCorrect, totalQuestions) * totalQuestions as real == totalCorrect as real
    ensures 0.0 <= SessionAccuracy(totalCorrect, totalQuestions) <= 1.0
    ensures SessionAccuracy(totalCorrect, totalQuestions) == 1.0 <==> totalCorrect == totalQuestions
  {
    FractionBounds(totalCorrect, totalQuestions);
  }

  /** The rewards of a game played on valid state are not negative. */
  lemma ResultsRewardsNonNegative(st: SessionState, now: int)
    requires CoreState(st) && st.totalQuestions > 0 && st.startTime.Some?
    requires st.totalCorrect <= st.totalQuestions
    ensures Results(st, now).coins >= 0 && Results(st, now).xp >= 0 && Results(st, now).score >= 0
  {
    forall j | 0 <= j < |st.answers| ensures st.answers[j].difficulty >= 0.0 {
      assert st.answers[j].difficulty == st.questions[j].difficulty;
    }
    SessionScoreNonNegative(st.answers);
    SessionResultsRewards(st.currentMode, st.score, st.totalCorrect, st.totalQuestions, st.responseTimes,
      st.answers, st.startTime.value, now);
  }

  class GameSession {
    const data: DataService
    var currentMode: string
    var difficulty: real
    var score: int
    var questionIndex: nat
    var questions: seq<Question>
    var answers: seq<Answer>
    var startTime: Option<int>
    var questionStartTime: Option<int>
    var timeLeft: int
    /** Whether the 1-second countdown interval is installed. */
    var timerRunning: bool
    var isGameActive: bool
    var isAnswered: bool
    var selectedAnswer: Option<int>
    var correctAnswer: Option<int>
    var streakCount: nat
    var totalCorrect: nat
    var totalQuestions: nat
    var responseTimes: seq<real>

    ghost function State(): SessionState
      reads this
    {
      SessionState(currentMode, difficulty, score, questionIndex, questions, answers, startTime,
        questionStartTime, timeLeft, timerRunning, isGameActive, isAnswered, selectedAnswer,
        correctAnswer, streakCount, totalCorrect, totalQuestions, responseTimes)
    }

    ghost predicate Valid()
      reads this
    {
      ValidState(State())
    }

    /** The initial `gameState`. */
    constructor (data: DataService)
      ensures this.data == data
      ensures State() == InitialState && Valid()
    {
      this.data := data;
      currentMode := "single";
      difficulty := DefaultDifficulty;
      score := 0;
      questionIndex := 0;
      questions := [];
      answers := [];
      startTime := None;
      questionStartTime := None;
      timeLeft := QuestionSeconds;
      timerRunning := false;
      isGameActive := false;
      isAnswered := false;
      selectedAnswer := None;
      correctAnswer := None;
      streakCount := 0;
      totalCorrect := 0;
      totalQuestions := 0;
      responseTimes := [];
    }

    /** `resetGameState()`. */
    method ResetGameState()
      modifies this
      ensures State() == ResetState(old(State())) && Valid()
    {
      ResetProgress();
      ResetAnswer();
      ResetClock();
    }

    method ResetProgress()
      modifies this`difficulty, this`score, this`questionIndex, this`questions, this`answers, this`streakCount
      ensures difficulty == DefaultDifficulty && score == 0 && questionIndex == 0
      ensures questions == [] && answers == [] && streakCount == 0
    {
      difficulty := DefaultDifficulty;
      score := 0;
      questionIndex := 0;
      questions := [];
      answers := [];
      streakCount := 0;
    }

    method ResetAnswer()
      modifies this`isAnswered, this`selectedAnswer, this`correctAnswer, this`totalCorrect, this`totalQuestions,
        this`responseTimes
      ensures !isAnswered && selectedAnswer == None && correctAnswer == None
      ensures totalCorrect == 0 && totalQuestions == 0 && responseTimes == []
    {
      isAnswered := false;
      selectedAnswer := None;
      correctAnswer := None;
      totalCorrect := 0;
      totalQuestions := 0;
      responseTimes := [];
    }

    /** Stops the countdown (`clearInterval`) and clears the clock readings. */
    method ResetClock()
      modifies this`startTime, this`questionStartTime, this`timeLeft, this`timerRunning, this`isGameActive
      ensures startTime == None && questionStartTime == None && timeLeft == QuestionSeconds
      ensures !timerRunning && !isGameActive
    {
      timerRunning := false;
      startTime := None;
      questionStartTime := None;
      timeLeft := QuestionSeconds;
      isGameActive := false;
    }

    /** `startGame(mode, questionCount)`. With a profile the difficulty and
        the type rotation come from the AI engine (`aiDifficulty`,
        `recommended`); without one the game keeps 0.5 and rotates over all
        eight types. The first question is shown at once. */
    method StartGame(mode: string, questionCount: nat, now: int, aiDifficulty: real, recommended: seq<string>)
      requires questionCount > 0
      modifies this
      ensures var d := if old(data.user).Some? then aiDifficulty else DefaultDifficulty;
        var targets := if old(data.user).Some? then recommended else AllTypeKeys;
        && |questions| == questionCount
        && (forall i :: 0 <= i < questionCount ==> questions[i] == QuestionAt(d, targets, questionCount, i))
        && State() == ShowState(BeginState(old(State()), mode, d, questions, now), 0, now)
      ensures Valid() && Open(State()) && questionIndex == 0
    {
      ResetGameState();
      var d, targets := DefaultDifficulty, AllTypeKeys;
      if data.user.Some? {
        d, targets := aiDifficulty, recommended;
      }
      var generated := GenerateQuestions(d, targets, questionCount);
      GeneratedPlayable(d, targets, generated);
      Begin(mode, d, generated, now);
      OpenQuestion(0, now);
      BeginKeepsValid(old(State()), mode, d, generated, now);
    }

    /** `startDailyChallenge()` once the fixed challenge has been fetched. */
    method StartDailyChallenge(now: int)
      modifies this
      ensures State() == ShowState(BeginState(old(State()), "daily", DefaultDifficulty, DailyChallengeQuestions, now), 0, now)
      ensures Valid() && Open(State()) && timerRunning && timeLeft == QuestionSeconds
    {
      ResetGameState();
      Begin("daily", DefaultDifficulty, DailyChallengeQuestions, now);
      OpenQuestion(0, now);
      BeginKeepsValid(old(State()), "daily", DefaultDifficulty, DailyChallengeQuestions, now);
    }

    /** The fields a start sets after the reset. */
    method Begin(mode: string, d: real, qs: seq<Question>, now: int)
      modifies this`currentMode, this`difficulty, this`questions, this`totalQuestions, this`isGameActive, this`startTime
      ensures currentMode == mode && difficulty == d && questions == qs && totalQuestions == |qs|
      ensures isGameActive && startTime == Some(now)
    {
      currentMode := mode;
      difficulty := d;
      questions := qs;
      totalQuestions := |qs|;
      isGameActive := true;
      startTime := Some(now);
    }

    /** The branch of `showQuestion(index)` that opens a question. */
    method OpenQuestion(index: nat, now: int)
      requires index < |questions|
      modifies this`questionIndex, this`isAnswered, this`selectedAnswer, this`correctAnswer,
        this`questionStartTime, this`timeLeft, this`timerRunning
      ensures State() == ShowState(old(State()), index, now)
    {
      PresentQuestion(index, now);
      if Timed(currentMode) {
        StartCountdown();
      }
    }

    method PresentQuestion(index: nat, now: int)
      modifies this`questionIndex, this`isAnswered, this`selectedAnswer, this`correctAnswer, this`questionStartTime
      ensures questionIndex == index && !isAnswered && selectedAnswer == None && correctAnswer == None
      ensures questionStartTime == Some(now)
    {
      questionIndex := index;
      isAnswered := false;
      selectedAnswer := None;
      correctAnswer := None;
      questionStartTime := Some(now);
    }

    /** `timeLeft = 30` and a fresh interval (game-logic.js:403-420). */
    method StartCountdown()
      modifies this`timeLeft, this`timerRunning
      ensures timeLeft == QuestionSeconds && timerRunning
    {
      timeLeft := QuestionSeconds;
      timerRunning := true;
    }

    /** `showQuestion(index)`: open the question at `index`, or end the game
        past the last one. */
    method ShowQuestion(index: nat, now: int)
      requires index >= |questions| ==> totalQuestions > 0 && startTime.Some?
      modifies this, data
      ensures State() == ShowState(old(State()), index, now)
      ensures index < |old(questions)| ==> data.user == old(data.user) && data.storage == old(data.storage)
      ensures index >= |old(questions)| ==> data.user == AfterSession(old(data.user), Results(old(State()), now), now)
    {
      if index >= |questions| {
        var _ := EndGame(now);
        return;
      }
      OpenQuestion(index, now);
    }

    /** `submitAnswer(answerIndex)`: refused when no question is open;
        otherwise record and score the answer, stop the countdown, and wait
        for the feedback delay. */
    method SubmitAnswer(answerIndex: int, now: int) returns (accepted: bool)
      requires Valid()
      modifies this
      ensures accepted <==> Open(old(State()))
      ensures accepted ==> State() == SubmitState(old(State()), answerIndex, now)
      ensures !accepted ==> State() == old(State())
      ensures Valid()
    {
      if !isGameActive || isAnswered {
        return false;
      }
      SubmitKeepsValid(State(), answerIndex, now);
      AnswerQuestion(answerIndex, now);
      return true;
    }

    /** The accepted branch of `submitAnswer`. */
    method AnswerQuestion(answerIndex: int, now: int)
      requires questionIndex < |questions| && questionStartTime.Some?
      modifies this`isAnswered, this`selectedAnswer, this`correctAnswer, this`responseTimes, this`answers,
        this`totalCorrect, this`streakCount, this`score, this`timerRunning
      ensures State() == SubmitState(old(State()), answerIndex, now)
    {
      var currentQuestion := questions[questionIndex];
      var correctAnswerIndex := currentQuestion.correctAnswer;
      var isCorrect := answerIndex == correctAnswerIndex;
      var responseTime := ElapsedSeconds(questionStartTime.value, now);
      RecordAnswer(SubmittedAnswer(currentQuestion, questionIndex, answerIndex, responseTime), correctAnswerIndex);
      ScoreAnswer(isCorrect, currentQuestion.difficulty, responseTime);
      timerRunning := false;
    }

    /** The bookkeeping of game-logic.js:135-147: the answered flag, the
        selection, the response time and the answer record. */
    method RecordAnswer(a: Answer, correctAnswerIndex: int)
      modifies this`isAnswered, this`selectedAnswer, this`correctAnswer, this`responseTimes, this`answers
      ensures isAnswered && selectedAnswer == Some(a.userAnswer) && correctAnswer == Some(correctAnswerIndex)
      ensures responseTimes == old(responseTimes) + [a.responseTime] && answers == old(answers) + [a]
    {
      isAnswered := true;
      selectedAnswer := Some(a.userAnswer);
      correctAnswer := Some(correctAnswerIndex);
      responseTimes := responseTimes + [a.responseTime];
      answers := answers + [a];
    }

    /** The scoring of game-logic.js:150-166. */
    method ScoreAnswer(isCorrect: bool, questionDifficulty: real, responseTime: real)
      modifies this`totalCorrect, this`streakCount, this`score
      ensures isCorrect ==>
        && totalCorrect == old(totalCorrect) + 1 && streakCount == old(streakCount) + 1
        && score == old(score) + QuestionScore(questionDifficulty, responseTime, streakCount)
      ensures !isCorrect ==> totalCorrect == old(totalCorrect) && streakCount == 0 && score == old(score)
    {
      if isCorrect {
        totalCorrect := totalCorrect + 1;
        streakCount := streakCount + 1;
        var questionScore := QuestionScore(questionDifficulty, responseTime, streakCount);
        score := score + questionScore;
      } else {
        streakCount := 0;
      }
    }

    /** The 2-second delay after an answer: the next question, or the end of
        the game after the last one. */
    method FeedbackElapsed(now: int)
      requires Valid() && isGameActive && isAnswered
      modifies this, data
      ensures State() == ShowState(old(State()), old(questionIndex) + 1, now) && Valid()
      ensures old(questionIndex) + 1 < |questions| ==> data.user == old(data.user)
      ensures old(questionIndex) + 1 == |questions| ==>
        data.user == AfterSession(old(data.user), Results(old(State()), now), now)
    {
      FeedbackKeepsValid(State(), now);
      ShowQuestion(questionIndex + 1, now);
    }

    /** `skipQuestion()`: refused when no question is open; otherwise record a
        skip, break the streak, and move on. */
    method SkipQuestion(now: int) returns (accepted: bool)
      requires Valid()
      modifies this, data
      ensures accepted <==> Open(old(State()))
      ensures !accepted ==> State() == old(State()) && data.user == old(data.user)
      ensures accepted ==> State() == ShowState(SkipState(old(State())), old(questionIndex) + 1, now)
      ensures accepted && old(questionIndex) + 1 < |questions| ==> data.user == old(data.user)
      ensures accepted && old(questionIndex) + 1 == |questions| ==>
        data.user == AfterSession(old(data.user), Results(SkipState(old(State())), now), now)
      ensures Valid()
    {
      if !isGameActive || isAnswered {
        return false;
      }
      SkipKeepsValid(State(), now);
      RecordSkip();
      ShowQuestion(questionIndex + 1, now);
      return true;
    }

    /** The skip record of game-logic.js:196-206. */
    method RecordSkip()
      requires questionIndex < |questions|
      modifies this`answers, this`streakCount
      ensures State() == SkipState(old(State()))
    {
      var currentQuestion := questions[questionIndex];
      answers := answers + [SkippedRecord(currentQuestion, questionIndex)];
      streakCount := 0;
    }

    /** `requestHint()`: for an open question, take 50 coins and hand out the
        question's own hint or the generic one; refused, changing nothing,
        without an open question, a profile or enough coins. */
    method RequestHint() returns (hint: Option<Hint>)
      requires Valid()
      modifies data
      ensures hint.Some? <==>
        Open(State()) && old(data.user).Some? && old(data.user).value.coins >= HintCost
      ensures hint.Some? ==>
        && data.user == Some(WithCoins(old(data.user).value, -HintCost))
        && hint.value == (if questions[questionIndex].hasHint then OwnHint else GenericHint)
      ensures hint.None? ==> data.user == old(data.user) && data.storage == old(data.storage)
    {
      if !isGameActive || isAnswered {
        return None;
      }
      var currentQuestion := questions[questionIndex];
      var paid := data.DeductCoins(HintCost);
      if paid {
        return Some(if currentQuestion.hasHint then OwnHint else GenericHint);
      }
      return None;
    }

    /** One tick of the countdown interval: nothing once it is stopped;
        otherwise one second less, and at zero the interval stops and the
        question is skipped. */
    method CountdownTick(now: int)
      requires Valid()
      modifies this, data
      ensures !old(timerRunning) ==> State() == old(State()) && data.user == old(data.user)
      ensures old(timerRunning) && old(timeLeft) > 1 ==>
        State() == old(State()).(timeLeft := old(timeLeft) - 1) && data.user == old(data.user)
      ensures old(timerRunning) && old(timeLeft) == 1 ==>
        State() == ShowState(SkipState(old(State()).(timeLeft := 0, timerRunning := false)), old(questionIndex) + 1, now)
      ensures Valid()
    {
      if !timerRunning {
        return;
      }
      Tick();
      if !timerRunning {
        ghost var expired := State();
        assert expired == old(State()).(timeLeft := 0, timerRunning := false);
        assert ValidState(expired);
        var _ := SkipQuestion(now);
      }
    }

    /** `timeLeft--`, and `clearInterval` once it reaches zero. */
    method Tick()
      modifies this`timeLeft, this`timerRunning
      ensures timeLeft == old(timeLeft) - 1
      ensures timerRunning == (old(timerRunning) && timeLeft > 0)
    {
      timeLeft := timeLeft - 1;
      if timeLeft <= 0 {
        timerRunning := false;
      }
    }

    /** `endGame()`: stop the countdown, summarise the session, record it in
        the profile with its coins and experience, and close the game. */
    method EndGame(now: int) returns (results: GameResults)
      requires totalQuestions > 0 && startTime.Some?
      modifies this, data
      ensures results == Results(old(State()), now)
      ensures State() == CloseState(old(State()))
      ensures data.user == AfterSession(old(data.user), results, now)
    {
      timerRunning := false;
      results := Summarize(now);
      var _ := data.SaveGameResults(results, now);
      var _ := data.AddCoins(results.coins);
      var _ := data.AddExperience(results.xp);
      isGameActive := false;
    }

    /** The results computation of game-logic.js:495-544: totals, averages,
        the per-type mastery table and the rewards. */
    method Summarize(now: int) returns (results: GameResults)
      requires totalQuestions > 0 && startTime.Some?
      ensures results == Results(State(), now)
    {
      var totalTime := ElapsedSeconds(startTime.value, now);
      var accuracy := SessionAccuracy(totalCorrect, totalQuestions);
      var avgResponseTime := AverageTime(responseTimes);
      var perf := GroupByType(answers);
      PerformanceWellFormed(answers);
      var typeMastery := seq(|perf|, j requires 0 <= j < |perf| =>
        MasteryEntry(perf[j].qtype, perf[j].correct, perf[j].total, Mastery(perf[j].correct, perf[j].total)));
      var baseCoins := Round(score as real / 10.0);
      var accuracyBonus := Round(accuracy * 100.0);
      var totalCoins := baseCoins + accuracyBonus;
      var baseXp := Round(score as real / 5.0);
      var timeBonus := MaxReal(0.0, Round(300.0 - totalTime) as real * 0.1);
      var totalXp := Round(baseXp as real + timeBonus);
      results := GameResults(currentMode, score, accuracy, avgResponseTime, totalTime,
        typeMastery, totalCoins, totalXp, now, answers);
    }
  }

  /** A session that ends on a consistent profile leaves it consistent, with
      the session appended to its history. */
  lemma EndKeepsProfileConsistent(st: SessionState, v: UserData, now: int)
    requires CoreState(st) && st.totalQuestions > 0 && st.startTime.Some?
    requires st.totalCorrect <= st.totalQuestions
    requires Consistent(v)
    ensures var w := AfterSession(Some(v), Results(st, now), now).value;
      Consistent(w) && w.gameHistory == v.gameHistory + [Results(st, now)]
  {
    ResultsRewardsNonNegative(st, now);
    AfterSessionConsistent(v, Results(st, now), now);
  }
}
