/** The persistent user profile of data-service.js and the value-level rules
    that update it after a session: cumulative statistics with the bounded
    history, achievement progress, the strengths/weaknesses profile, coins,
    and experience with level-ups. The stateful service that applies these
    rules is `DataServices.DataService`. */
module UserRecords {
  import opened JsValues
  import opened Sessions

  /** An achievement of `userData.achievements`. The display name and
      description are omitted; `kind` is the source's `type` field. */
  datatype Achievement = Achievement(id: string, kind: string, progress: int, target: int, completed: bool)

  /** One entry of `stats.historicalPerformance`. */
  datatype HistoryEntry = HistoryEntry(date: int, score: int, accuracy: real, avgResponseTime: real)

  /** `userData.stats`. */
  datatype Stats = Stats(
    totalGames: nat,
    totalCorrect: nat,
    totalQuestions: nat,
    totalScore: int,
    bestScore: int,
    averageAccuracy: Num,
    averageResponseTime: Num,
    historicalPerformance: seq<HistoryEntry>)

  /** An entry of the strengths or weaknesses list. */
  datatype ProfileEntry = ProfileEntry(qtype: string, accuracy: real, avgTime: Num)

  /** `userData.learningProfile`; preferences and goals are opaque here. */
  datatype LearningProfile = LearningProfile(
    strengths: seq<ProfileEntry>,
    weaknesses: seq<ProfileEntry>,
    preferences: seq<string>,
    learningGoals: seq<string>)

  datatype Inventory = Inventory(items: seq<string>, badges: seq<string>)

  datatype Settings = Settings(sound: bool, notifications: bool, theme: string)

  /** The whole profile. Dates are clock readings in milliseconds. */
  datatype UserData = UserData(
    id: string,
    username: string,
    level: nat,
    experience: int,
    coins: int,
    createdAt: int,
    lastLogin: int,
    gameHistory: seq<GameResults>,
    achievements: seq<Achievement>,
    inventory: Inventory,
    settings: Settings,
    stats: Stats,
    learningProfile: LearningProfile)

  const StreakId: string := "streak-10"
  const AccuracyId: string := "accuracy-90"
  const SpeedId: string := "speed-5"
  const GamesId: string := "games-50"

  /** Most entries kept in `historicalPerformance`. */
  const HistoryLimit: nat := 50

  /** Most entries kept in each of the strengths and weaknesses lists. */
  const ProfileLimit: nat := 5

  /** Experience one level costs, per level. */
  const ExperiencePerLevel: nat := 500

  /** Coins a level-up pays, per level left. */
  const CoinsPerLevel: nat := 100

  // ---------------------------------------------------------------------------
  // Invariants
  // ---------------------------------------------------------------------------

  /** `correct / total`, NaN whenever the total is zero (the model has no
      Infinity for `correct > 0` over a zero total; see README). */
  function Ratio(correct: nat, total: nat): (r: Num)
    ensures r.Finite? <==> total > 0
    ensures total > 0 && correct <= total ==> 0.0 <= r.value <= 1.0
  {
    if total == 0 then NaN
    else
      var q := correct as real / total as real;
      if correct <= total then FractionBounds(correct, total); Finite(q) else Finite(q)
  }

  function Types(entries: seq<ProfileEntry>): seq<string> {
    seq(|entries|, i requires 0 <= i < |entries| => entries[i].qtype)
  }

  ghost predicate StatsConsistent(st: Stats) {
    && st.totalCorrect <= st.totalQuestions
    && |st.historicalPerformance| <= HistoryLimit
    && (st.totalQuestions > 0 ==> st.averageAccuracy == Ratio(st.totalCorrect, st.totalQuestions))
    && (st.averageAccuracy.Finite? ==> 0.0 <= st.averageAccuracy.value <= 1.0)
  }

  ghost predicate ProfileConsistent(lp: LearningProfile) {
    && |lp.strengths| <= ProfileLimit
    && |lp.weaknesses| <= ProfileLimit
    && NoDuplicates(Types(lp.strengths))
    && NoDuplicates(Types(lp.weaknesses))
  }

  /** What the service keeps true of a profile it created or updated. */
  ghost predicate Consistent(u: UserData) {
    && u.level >= 1
    && u.experience < u.level * ExperiencePerLevel
    && u.coins >= 0
    && StatsConsistent(u.stats)
    && ProfileConsistent(u.learningProfile)
  }

  // ---------------------------------------------------------------------------
  // The initial profile
  // ---------------------------------------------------------------------------

  const DefaultAchievements: seq<Achievement> := [
    Achievement(StreakId, "streak", 0, 10, false),
    Achievement(AccuracyId, "accuracy", 0, 90, false),
    Achievement(SpeedId, "speed", 0, 5, false),
    Achievement(GamesId, "mastery", 0, 50, false)
  ]

  /** `createDefaultUserData()`; the random id and name and the clock are inputs. */
  function CreateDefaultUserData(id: string, username: string, now: int): (u: UserData)
    ensures Consistent(u)
    ensures u.level == 1 && u.experience == 0 && u.coins == 1000
    ensures u.stats.totalGames == 0 && u.stats.historicalPerformance == [] && u.gameHistory == []
    ensures forall a :: a in u.achievements ==> a.progress == 0 && !a.completed
  {
    UserData(id, username, 1, 0, 1000, now, now, [], DefaultAchievements,
      Inventory([], []), Settings(true, true, "light"),
      Stats(0, 0, 0, 0, 0, Finite(0.0), Finite(0.0), []),
      LearningProfile([], [], [], []))
  }

  // ---------------------------------------------------------------------------
  // Cumulative statistics (data-service.js:154-202)
  // ---------------------------------------------------------------------------

  /** `answers.map(a => a.responseTime).filter(t => t > 0)`. */
  function TimedResponses(s: seq<Answer>): (ts: seq<real>)
    ensures forall i :: 0 <= i < |ts| ==> ts[i] > 0.0
    ensures |ts| <= |s|
  {
    if s == [] then []
    else TimedResponses(Init(s)) + (if Last(s).responseTime > 0.0 then [Last(s).responseTime] else [])
  }

  /** Push one entry, then keep only the last `HistoryLimit` entries. */
  function AppendBounded(h: seq<HistoryEntry>, e: HistoryEntry): (r: seq<HistoryEntry>)
    ensures |r| == Min(|h| + 1, HistoryLimit)
    ensures r == (h + [e])[|h| + 1 - |r|..]
    ensures r[|r| - 1] == e
  {
    var full := h + [e];
    if |full| > HistoryLimit then full[|full| - HistoryLimit..] else full
  }

  /** The weighted running mean of data-service.js:179-186. When the stored
      mean is 0 or NaN it is replaced by the session mean; otherwise the old
      mean has weight (n-1)/n and the session mean 1/n, with `n` the game
      count that includes this session. */
  function RunningAverage(stored: Num, session: Num, n: nat): (r: Num)
    requires n >= 1
    ensures !Truthy(stored) ==> r == session
    ensures Truthy(stored) && session.NaN? ==> r.NaN?
    ensures Truthy(stored) && session.Finite? ==>
      r.Finite? && r.value * n as real == stored.value * (n - 1) as real + session.value
  {
    if Truthy(stored) then
      match session
      case Finite(s) =>
        var oldWeight := (n - 1) as real / n as real;
        var newWeight := 1.0 / n as real;
        assert oldWeight * n as real == (n - 1) as real;
        assert newWeight * n as real == 1.0;
        Finite(stored.value * oldWeight + s * newWeight)
      case NaN => NaN
    else session
  }

  /** `updateUserStats(results)`, applied to the stored statistics. */
  function StatsAfter(st: Stats, results: GameResults, now: int): Stats
  {
    var games := st.totalGames + 1;
    var correct := st.totalCorrect + CorrectCount(results.answers);
    var questions := st.totalQuestions + |results.answers|;
    Stats(games, correct, questions,
      st.totalScore + results.score,
      Max(st.bestScore, results.score),
      Ratio(correct, questions),
      RunningAverage(st.averageResponseTime, Mean(TimedResponses(results.answers)), games),
      AppendBounded(st.historicalPerformance,
        HistoryEntry(now, results.score, results.accuracy, results.avgResponseTime)))
  }

  /** What one session does to the statistics, and that it keeps them consistent. */
  lemma StatsAfterEffect(st: Stats, results: GameResults, now: int)
    requires StatsConsistent(st)
    ensures var r := StatsAfter(st, results, now);
      && StatsConsistent(r)
      && r.totalGames == st.totalGames + 1
      && r.totalQuestions - st.totalQuestions == |results.answers|
      && r.totalCorrect - st.totalCorrect <= |results.answers|
      && r.bestScore >= st.bestScore && r.bestScore >= results.score
      && (r.bestScore == st.bestScore || r.bestScore == results.score)
      && Last(r.historicalPerformance).score == results.score
  {
    var r := StatsAfter(st, results, now);
    assert r.totalCorrect <= r.totalQuestions;
  }

  /** The first session on a fresh profile stores its own mean response time. */
  lemma FirstSessionAverage(st: Stats, results: GameResults, now: int)
    requires st.totalGames == 0 && st.averageResponseTime == Finite(0.0)
    ensures StatsAfter(st, results, now).averageResponseTime == Mean(TimedResponses(results.answers))
  {
  }

  /** A session without a timed answer makes the stored mean NaN; the next
      session with timed answers then resets it to that session's mean. */
  lemma UntimedSessionPoisonsAverage(st: Stats, skipped: GameResults, timed: GameResults, now: int)
    requires TimedResponses(skipped.answers) == []
    requires |TimedResponses(timed.answers)| > 0
    ensures StatsAfter(st, skipped, now).averageResponseTime.NaN?
    ensures StatsAfter(StatsAfter(st, skipped, now), timed, now).averageResponseTime
         == Mean(TimedResponses(timed.answers))
  {
    var n := st.totalGames + 1;
    assert Mean(TimedResponses(skipped.answers)) == NaN;
  }

  // ---------------------------------------------------------------------------
  // Achievements (data-service.js:205-253)
  // ---------------------------------------------------------------------------

  /** The rule one achievement is checked against in a session. */
  datatype Rule =
    | StreakRule(maxStreak: int)
    | AccuracyRule(accuracy: real)
    | SpeedRule(avgTime: real)
    | GamesRule(totalGames: int)

  /** The new progress and completion flag a rule gives an achievement. */
  function Apply(rule: Rule, a: Achievement): (b: Achievement)
    ensures b.id == a.id && b.kind == a.kind && b.target == a.target
  {
    match rule
    case StreakRule(m) =>
      var p := Max(a.progress, m);
      a.(progress := p, completed := p >= a.target)
    case AccuracyRule(accuracy) =>
      var p := Max(a.progress, Round(accuracy * 100.0));
      a.(progress := p, completed := p >= a.target)
    case SpeedRule(avgTime) =>
      var p := Min(100, Max(a.progress, Round(5.0 / MaxReal(avgTime, 1.0) * 100.0)));
      a.(progress := p, completed := avgTime <= 5.0)
    case GamesRule(n) =>
      var p := Min(n, a.target);
      a.(progress := p, completed := p >= a.target)
  }

  /** Streak and accuracy progress never drop and record the session's value;
      their completion, and the games one, means progress reached the target. */
  lemma ApplyProgress(rule: Rule, a: Achievement)
    ensures rule.StreakRule? ==> Apply(rule, a).progress >= a.progress && Apply(rule, a).progress >= rule.maxStreak
    ensures rule.AccuracyRule? ==>
      Apply(rule, a).progress >= a.progress && Apply(rule, a).progress >= Round(rule.accuracy * 100.0)
    ensures rule.GamesRule? ==> Apply(rule, a).progress == Min(rule.totalGames, a.target)
    ensures !rule.SpeedRule? ==> (Apply(rule, a).completed <==> Apply(rule, a).progress >= a.target)
  {
  }

  /** Speed progress is capped at 100 and never drops below the old progress
      (or the cap); its completion depends only on this session's mean time. */
  lemma ApplySpeed(avgTime: real, a: Achievement)
    ensures Apply(SpeedRule(avgTime), a).progress <= 100
    ensures Apply(SpeedRule(avgTime), a).progress >= Min(100, a.progress)
    ensures Apply(SpeedRule(avgTime), a).completed <==> avgTime <= 5.0
  {
  }

  /** A completed streak, accuracy or games achievement stays completed, as
      long as its stored progress agreed with its flag and, for the games
      one, did not exceed what the new game count allows. */
  lemma CompletionSticky(rule: Rule, a: Achievement)
    requires !rule.SpeedRule?
    requires a.completed ==> a.progress >= a.target
    requires rule.GamesRule? ==> a.progress <= rule.totalGames
    ensures a.completed ==> Apply(rule, a).completed
  {
  }

  /** The speed achievement's completion can revert: a slower session clears it. */
  lemma SpeedCompletionCanRevert()
    ensures var a := Achievement(SpeedId, "speed", 100, 5, true);
      !Apply(SpeedRule(6.0), a).completed && Apply(SpeedRule(6.0), a).progress == 100
  {
  }

  /** A mean of 4 seconds completes the speed achievement and caps its progress
      at 100 (`round(5 / 4 * 100)` is 125). */
  lemma SpeedAtFourSeconds(a: Achievement)
    requires a.progress <= 100
    ensures Apply(SpeedRule(4.0), a).completed && Apply(SpeedRule(4.0), a).progress == 100
  {
    assert Round(5.0 / 4.0 * 100.0) == 125;
  }

  /** A mean of 0 seconds, which is what a session without any timed answer
      reports, also completes the speed achievement with progress 100
      (`round(5 / max(0, 1) * 100)` is 500). */
  lemma SpeedAtZeroSeconds(a: Achievement)
    ensures Apply(SpeedRule(0.0), a).completed && Apply(SpeedRule(0.0), a).progress == 100
  {
    assert Round(5.0 / 1.0 * 100.0) == 500;
  }

  /** `achievements.find(a => a.id === id)`: the first achievement with that id. */
  function FindAchievement(achs: seq<Achievement>, id: string): (r: Option<nat>)
    ensures r.Some? ==> r.value < |achs| && achs[r.value].id == id
    ensures r.Some? ==> forall j :: 0 <= j < r.value ==> achs[j].id != id
    ensures r.None? ==> forall j :: 0 <= j < |achs| ==> achs[j].id != id
  {
    if achs == [] then None
    else if achs[0].id == id then Some(0)
    else match FindAchievement(achs[1..], id)
      case None => None
      case Some(j) => Some(j + 1)
  }

  /** Apply a rule to the first achievement with the given id, if there is one. */
  function UpdateAchievement(achs: seq<Achievement>, id: string, rule: Rule): (r: seq<Achievement>)
    ensures |r| == |achs|
    ensures forall i :: 0 <= i < |achs| ==> r[i].id == achs[i].id && r[i].target == achs[i].target
  {
    match FindAchievement(achs, id)
    case None => achs
    case Some(i) => achs[i := Apply(rule, achs[i])]
  }

  /** Finding by id only looks at ids, which updates keep. */
  lemma FindAfterUpdate(achs: seq<Achievement>, id: string, rule: Rule, other: string)
    ensures FindAchievement(UpdateAchievement(achs, id, rule), other) == FindAchievement(achs, other)
  {
    var r := UpdateAchievement(achs, id, rule);
    var a, b := FindAchievement(r, other), FindAchievement(achs, other);
    if a.Some? && b.Some? {
      assert !(a.value < b.value) && !(b.value < a.value);
    }
  }

  /** The four checks of `checkAchievements`, in order; `totalGames` is the
      game count after `updateUserStats`. */
  function AchievementsAfter(achs: seq<Achievement>, results: GameResults, totalGames: nat): seq<Achievement>
  {
    var a1 := UpdateAchievement(achs, StreakId, StreakRule(LongestRun(results.answers)));
    var a2 := UpdateAchievement(a1, AccuracyId, AccuracyRule(results.accuracy));
    var a3 := UpdateAchievement(a2, SpeedId, SpeedRule(results.avgResponseTime));
    UpdateAchievement(a3, GamesId, GamesRule(totalGames))
  }

  /** The rule `checkAchievements` applies to the achievement at index `i`, if any. */
  function RuleAt(achs: seq<Achievement>, results: GameResults, totalGames: nat, i: nat): Option<Rule>
  {
    if FindAchievement(achs, StreakId) == Some(i) then Some(StreakRule(LongestRun(results.answers)))
    else if FindAchievement(achs, AccuracyId) == Some(i) then Some(AccuracyRule(results.accuracy))
    else if FindAchievement(achs, SpeedId) == Some(i) then Some(SpeedRule(results.avgResponseTime))
    else if FindAchievement(achs, GamesId) == Some(i) then Some(GamesRule(totalGames))
    else None
  }

  lemma UpdateAt(achs: seq<Achievement>, id: string, rule: Rule, i: nat)
    requires i < |achs|
    ensures UpdateAchievement(achs, id, rule)[i] ==
      if FindAchievement(achs, id) == Some(i) then Apply(rule, achs[i]) else achs[i]
  {
  }

  /** Each achievement is changed by at most one rule: the one its id selects,
      and only at the first achievement with that id. */
  lemma AchievementsAfterAt(achs: seq<Achievement>, results: GameResults, totalGames: nat, i: nat)
    requires i < |achs|
    ensures var r := AchievementsAfter(achs, results, totalGames);
      |r| == |achs| &&
      r[i] == match RuleAt(achs, results, totalGames, i) { case Some(rule) => Apply(rule, achs[i]) case None => achs[i] }
  {
    var a1 := UpdateAchievement(achs, StreakId, StreakRule(LongestRun(results.answers)));
    var a2 := UpdateAchievement(a1, AccuracyId, AccuracyRule(results.accuracy));
    var a3 := UpdateAchievement(a2, SpeedId, SpeedRule(results.avgResponseTime));
    FindAfterUpdate(achs, StreakId, StreakRule(LongestRun(results.answers)), AccuracyId);
    FindAfterUpdate(a1, AccuracyId, AccuracyRule(results.accuracy), SpeedId);
    FindAfterUpdate(achs, StreakId, StreakRule(LongestRun(results.answers)), SpeedId);
    FindAfterUpdate(a2, SpeedId, SpeedRule(results.avgResponseTime), GamesId);
    FindAfterUpdate(a1, AccuracyId, AccuracyRule(results.accuracy), GamesId);
    FindAfterUpdate(achs, StreakId, StreakRule(LongestRun(results.answers)), GamesId);
    UpdateAt(achs, StreakId, StreakRule(LongestRun(results.answers)), i);
    UpdateAt(a1, AccuracyId, AccuracyRule(results.accuracy), i);
    UpdateAt(a2, SpeedId, SpeedRule(results.avgResponseTime), i);
    UpdateAt(a3, GamesId, GamesRule(totalGames), i);
  }

  /** Across a session the streak and accuracy achievements never lose progress,
      and the games achievement does not either when its progress was within
      the new game count; no other achievement changes. */
  lemma AchievementsMonotone(achs: seq<Achievement>, results: GameResults, totalGames: nat, i: nat)
    requires i < |achs|
    requires achs[i].id == GamesId ==> achs[i].progress <= Min(totalGames, achs[i].target)
    ensures var r := AchievementsAfter(achs, results, totalGames);
      && (achs[i].id in {StreakId, AccuracyId, GamesId} ==> r[i].progress >= achs[i].progress)
      && (achs[i].id !in {StreakId, AccuracyId, SpeedId, GamesId} ==> r[i] == achs[i])
  {
    AchievementsAfterAt(achs, results, totalGames, i);
  }

  /** A session whose answers run 3 correct, 1 wrong, 2 correct sets streak
      progress to 3 on a fresh achievement. */
  lemma StreakScenario(a: Answer, b: Answer)
    requires a.isCorrect && !b.isCorrect
    ensures LongestRun([a, a, a, b, a, a]) == 3
    ensures Apply(StreakRule(LongestRun([a, a, a, b, a, a])), Achievement(StreakId, "streak", 0, 10, false)).progress == 3
  {
    var s1, s2, s3 := [a], [a, a], [a, a, a];
    var s4, s5, s6 := s3 + [b], s3 + [b, a], s3 + [b, a, a];
    assert Init(s1) == [] && Init(s2) == s1 && Init(s3) == s2;
    assert Init(s4) == s3 && Init(s5) == s4 && Init(s6) == s5;
    assert TrailingRun(s1) == 1 && LongestRun(s1) == 1;
    assert TrailingRun(s2) == 2 && LongestRun(s2) == 2;
    assert TrailingRun(s3) == 3 && LongestRun(s3) == 3;
    assert TrailingRun(s4) == 0 && LongestRun(s4) == 3;
    assert TrailingRun(s5) == 1 && LongestRun(s5) == 3;
    assert TrailingRun(s6) == 2 && LongestRun(s6) == 3;
    assert s6 == [a, a, a, b, a, a];
  }

  // ---------------------------------------------------------------------------
  // Strengths and weaknesses (data-service.js:256-328)
  // ---------------------------------------------------------------------------

  function Accuracy(p: TypePerformance): real
    requires p.total > 0
  {
    p.correct as real / p.total as real
  }

  /** Accuracy of at least 0.85. */
  predicate IsStrength(p: TypePerformance)
    requires p.total > 0
  {
    Accuracy(p) >= 0.85
  }

  /** Accuracy below 0.7. */
  predicate IsWeakness(p: TypePerformance)
    requires p.total > 0
  {
    Accuracy(p) < 0.7
  }

  /** Comparing a quotient with a constant is comparing the dividend with a multiple. */
  lemma QuotientCompare(c: real, t: real, k: real)
    requires t > 0.0
    ensures c / t >= k <==> c >= k * t
  {
    assert (c / t) * t == c;
    if c / t >= k {
      assert (c / t) * t >= k * t;
    } else {
      assert (c / t) * t < k * t;
    }
  }

  /** The thresholds are the integer comparisons `100*correct >= 85*total` and
      `10*correct < 7*total`; no type is both a strength and a weakness. */
  lemma Thresholds(p: TypePerformance)
    requires p.total > 0
    ensures IsStrength(p) <==> 100 * p.correct >= 85 * p.total
    ensures IsWeakness(p) <==> 10 * p.correct < 7 * p.total
    ensures !(IsStrength(p) && IsWeakness(p))
  {
    var c, t := p.correct as real, p.total as real;
    QuotientCompare(c, t, 0.85);
    QuotientCompare(c, t, 0.7);
    assert (100 * p.correct) as real == 100.0 * c && (85 * p.total) as real == 85.0 * t;
    assert (10 * p.correct) as real == 10.0 * c && (7 * p.total) as real == 7.0 * t;
  }

  /** The entry a tally contributes: its type, accuracy and mean positive time. */
  function EntryOf(p: TypePerformance): ProfileEntry
    requires p.total > 0
  {
    ProfileEntry(p.qtype, Accuracy(p), Mean(p.times))
  }

  ghost predicate AllNonEmpty(perf: seq<TypePerformance>) {
    forall j :: 0 <= j < |perf| ==> perf[j].total > 0
  }

  /** The strength entries of a session, in key order. */
  function StrengthsOf(perf: seq<TypePerformance>): seq<ProfileEntry>
    requires AllNonEmpty(perf)
  {
    if perf == [] then []
    else StrengthsOf(Init(perf)) + (if IsStrength(Last(perf)) then [EntryOf(Last(perf))] else [])
  }

  /** The weakness entries of a session, in key order. */
  function WeaknessesOf(perf: seq<TypePerformance>): seq<ProfileEntry>
    requires AllNonEmpty(perf)
  {
    if perf == [] then []
    else WeaknessesOf(Init(perf)) + (if IsWeakness(Last(perf)) then [EntryOf(Last(perf))] else [])
  }

  function PerfTypes(perf: seq<TypePerformance>): seq<string> {
    seq(|perf|, j requires 0 <= j < |perf| => perf[j].qtype)
  }

  /** A type's entry is among the strengths exactly when the type qualifies;
      the list repeats no type when the tallies do not. */
  lemma {:induction false} StrengthsOfSound(perf: seq<TypePerformance>)
    requires AllNonEmpty(perf)
    ensures forall j :: 0 <= j < |perf| && IsStrength(perf[j]) ==> EntryOf(perf[j]) in StrengthsOf(perf)
    ensures forall e :: e in StrengthsOf(perf) ==> exists j :: 0 <= j < |perf| && IsStrength(perf[j]) && e == EntryOf(perf[j])
    ensures NoDuplicates(PerfTypes(perf)) ==> NoDuplicates(Types(StrengthsOf(perf)))
  {
    if perf != [] {
      var p := Init(perf);
      assert forall j :: 0 <= j < |p| ==> p[j] == perf[j];
      StrengthsOfSound(p);
      forall e | e in StrengthsOf(perf)
        ensures exists j :: 0 <= j < |perf| && IsStrength(perf[j]) && e == EntryOf(perf[j])
      {
        if e in StrengthsOf(p) {
          var j :| 0 <= j < |p| && IsStrength(p[j]) && e == EntryOf(p[j]);
          assert perf[j] == p[j];
        } else {
          assert e == EntryOf(perf[|perf| - 1]);
        }
      }
      if NoDuplicates(PerfTypes(perf)) {
        assert PerfTypes(p) == Init(PerfTypes(perf));
        var s := StrengthsOf(p);
        if IsStrength(Last(perf)) {
          var t := Last(perf).qtype;
          forall e | e in s ensures e.qtype != t {
            var j :| 0 <= j < |p| && IsStrength(p[j]) && e == EntryOf(p[j]);
            assert PerfTypes(perf)[j] != PerfTypes(perf)[|perf| - 1];
          }
          forall m | 0 <= m < |s| ensures Types(s)[m] != t {
            assert s[m] in s;
          }
          AppendNewType(s, EntryOf(Last(perf)));
        } else {
          assert StrengthsOf(perf) == s;
        }
      }
    }
  }

  /** The same for weaknesses. */
  lemma {:induction false} WeaknessesOfSound(perf: seq<TypePerformance>)
    requires AllNonEmpty(perf)
    ensures forall j :: 0 <= j < |perf| && IsWeakness(perf[j]) ==> EntryOf(perf[j]) in WeaknessesOf(perf)
    ensures forall e :: e in WeaknessesOf(perf) ==> exists j :: 0 <= j < |perf| && IsWeakness(perf[j]) && e == EntryOf(perf[j])
    ensures NoDuplicates(PerfTypes(perf)) ==> NoDuplicates(Types(WeaknessesOf(perf)))
  {
    if perf != [] {
      var p := Init(perf);
      assert forall j :: 0 <= j < |p| ==> p[j] == perf[j];
      WeaknessesOfSound(p);
      forall e | e in WeaknessesOf(perf)
        ensures exists j :: 0 <= j < |perf| && IsWeakness(perf[j]) && e == EntryOf(perf[j])
      {
        if e in WeaknessesOf(p) {
          var j :| 0 <= j < |p| && IsWeakness(p[j]) && e == EntryOf(p[j]);
          assert perf[j] == p[j];
        } else {
          assert e == EntryOf(perf[|perf| - 1]);
        }
      }
      if NoDuplicates(PerfTypes(perf)) {
        assert PerfTypes(p) == Init(PerfTypes(perf));
        var s := WeaknessesOf(p);
        if IsWeakness(Last(perf)) {
          var t := Last(perf).qtype;
          forall e | e in s ensures e.qtype != t {
            var j :| 0 <= j < |p| && IsWeakness(p[j]) && e == EntryOf(p[j]);
            assert PerfTypes(perf)[j] != PerfTypes(perf)[|perf| - 1];
          }
          forall m | 0 <= m < |s| ensures Types(s)[m] != t {
            assert s[m] in s;
          }
          AppendNewType(s, EntryOf(Last(perf)));
        } else {
          assert WeaknessesOf(perf) == s;
        }
      }
    }
  }

  /** `earlier.filter(s => !recent.some(ns => ns.type === s.type))`. */
  function WithoutTypesOf(earlier: seq<ProfileEntry>, recent: seq<ProfileEntry>): (r: seq<ProfileEntry>)
    ensures |r| <= |earlier|
    ensures forall e :: e in r <==> e in earlier && e.qtype !in Types(recent)
  {
    if earlier == [] then []
    else
      var rest := WithoutTypesOf(Init(earlier), recent);
      assert earlier == Init(earlier) + [Last(earlier)];
      rest + (if Last(earlier).qtype in Types(recent) then [] else [Last(earlier)])
  }

  /** The positions of `earlier` whose type `recent` does not carry, in
      increasing order. */
  function KeptPositions(earlier: seq<ProfileEntry>, recent: seq<ProfileEntry>): (idx: seq<nat>)
    ensures forall k :: 0 <= k < |idx| ==> idx[k] < |earlier|
  {
    if earlier == [] then []
    else KeptPositions(Init(earlier), recent) + (if Last(earlier).qtype in Types(recent) then [] else [|earlier| - 1])
  }

  /** The kept positions are exactly the positions a filter on the type test
      keeps: strictly increasing, each of a type `recent` does not carry, and
      every such position among them. */
  lemma {:induction false} KeptPositionsSound(earlier: seq<ProfileEntry>, recent: seq<ProfileEntry>)
    ensures forall i, j :: 0 <= i < j < |KeptPositions(earlier, recent)| ==>
      KeptPositions(earlier, recent)[i] < KeptPositions(earlier, recent)[j]
    ensures forall k :: 0 <= k < |KeptPositions(earlier, recent)| ==>
      earlier[KeptPositions(earlier, recent)[k]].qtype !in Types(recent)
    ensures forall m :: 0 <= m < |earlier| && earlier[m].qtype !in Types(recent) ==> m in KeptPositions(earlier, recent)
  {
    if earlier != [] {
      var p := Init(earlier);
      KeptPositionsSound(p, recent);
      KeptSoundStep(earlier, Types(recent), KeptPositions(p, recent));
    }
  }

  /** One step of the soundness proof, over plain sequences: the last
      position joins the kept ones exactly when its type is not in `ts`. */
  lemma KeptSoundStep(earlier: seq<ProfileEntry>, ts: seq<string>, kp: seq<nat>)
    requires earlier != []
    requires forall i, j :: 0 <= i < j < |kp| ==> kp[i] < kp[j]
    requires forall k :: 0 <= k < |kp| ==> kp[k] < |earlier| - 1 && Init(earlier)[kp[k]].qtype !in ts
    requires forall m :: 0 <= m < |earlier| - 1 && Init(earlier)[m].qtype !in ts ==> m in kp
    ensures var kp' := kp + (if Last(earlier).qtype in ts then [] else [|earlier| - 1]);
      && (forall i, j :: 0 <= i < j < |kp'| ==> kp'[i] < kp'[j])
      && (forall k :: 0 <= k < |kp'| ==> kp'[k] < |earlier| && earlier[kp'[k]].qtype !in ts)
      && (forall m :: 0 <= m < |earlier| && earlier[m].qtype !in ts ==> m in kp')
  {
    var kp' := kp + (if Last(earlier).qtype in ts then [] else [|earlier| - 1]);
    forall k | 0 <= k < |kp'|
      ensures kp'[k] < |earlier| && earlier[kp'[k]].qtype !in ts
    {
      if k < |kp| {
        assert kp'[k] == kp[k] && Init(earlier)[kp[k]] == earlier[kp[k]];
      }
    }
    forall m | 0 <= m < |earlier| && earlier[m].qtype !in ts
      ensures m in kp'
    {
      if m < |earlier| - 1 {
        assert Init(earlier)[m] == earlier[m];
        assert m in kp;
      } else {
        assert kp'[|kp|] == m;
      }
    }
  }

  /** One step of the order proof: appending to `earlier`, and perhaps
      keeping the new last entry, keeps the kept entries at their positions. */
  lemma KeptStep(earlier: seq<ProfileEntry>, w: seq<ProfileEntry>, kp: seq<nat>, keep: bool)
    requires earlier != [] && |w| == |kp|
    requires forall k :: 0 <= k < |w| ==> kp[k] < |earlier| - 1 && w[k] == Init(earlier)[kp[k]]
    ensures var w', kp' := w + (if keep then [Last(earlier)] else []), kp + (if keep then [|earlier| - 1] else []);
      |w'| == |kp'| && forall k :: 0 <= k < |w'| ==> kp'[k] < |earlier| && w'[k] == earlier[kp'[k]]
  {
    var w', kp' := w + (if keep then [Last(earlier)] else []), kp + (if keep then [|earlier| - 1] else []);
    forall k | 0 <= k < |w'|
      ensures kp'[k] < |earlier| && w'[k] == earlier[kp'[k]]
    {
      if k < |w| {
        assert w'[k] == w[k] && kp'[k] == kp[k];
        assert Init(earlier)[kp[k]] == earlier[kp[k]];
      }
    }
  }

  /** The filter keeps its entries in their original order: the `k`-th kept
      entry is the one at the `k`-th kept position. */
  lemma {:induction false} WithoutTypesOfInOrder(earlier: seq<ProfileEntry>, recent: seq<ProfileEntry>)
    ensures |WithoutTypesOf(earlier, recent)| == |KeptPositions(earlier, recent)|
    ensures forall k :: 0 <= k < |WithoutTypesOf(earlier, recent)| ==>
      WithoutTypesOf(earlier, recent)[k] == earlier[KeptPositions(earlier, recent)[k]]
  {
    if earlier != [] {
      var p := Init(earlier);
      WithoutTypesOfInOrder(p, recent);
      KeptStep(earlier, WithoutTypesOf(p, recent), KeptPositions(p, recent), Last(earlier).qtype !in Types(recent));
    }
  }

  /** The recency-biased merge: this session's entries first, then the earlier
      entries of other types in their order, cut to `ProfileLimit`. */
  function MergeRecent(recent: seq<ProfileEntry>, earlier: seq<ProfileEntry>): (r: seq<ProfileEntry>)
    ensures |r| == Min(ProfileLimit, |recent| + |WithoutTypesOf(earlier, recent)|)
    ensures r[..Min(|recent|, ProfileLimit)] == recent[..Min(|recent|, ProfileLimit)]
    ensures forall k :: Min(|recent|, ProfileLimit) <= k < |r| ==> r[k] == WithoutTypesOf(earlier, recent)[k - |recent|]
    ensures forall e :: e in r ==> e in recent || (e in earlier && e.qtype !in Types(recent))
  {
    var all := recent + WithoutTypesOf(earlier, recent);
    var r := all[..Min(ProfileLimit, |all|)];
    assert forall e :: e in r ==> e in all;
    r
  }

  /** An entry's type is among the types of a list that holds it. */
  lemma TypeOfMember(e: ProfileEntry, entries: seq<ProfileEntry>)
    requires e in entries
    ensures e.qtype in Types(entries)
  {
    var m :| 0 <= m < |entries| && entries[m] == e;
    assert Types(entries)[m] == e.qtype;
  }

  /** In a list without duplicate types, the last type does not occur earlier. */
  lemma LastTypeIsNew(entries: seq<ProfileEntry>)
    requires |entries| > 0 && NoDuplicates(Types(entries))
    ensures Last(entries).qtype !in Types(Init(entries))
  {
    forall m | 0 <= m < |entries| - 1
      ensures Types(Init(entries))[m] != Last(entries).qtype
    {
      assert Types(Init(entries))[m] == Types(entries)[m];
      assert Last(entries).qtype == Types(entries)[|entries| - 1];
    }
  }

  /** Appending an entry of a new type keeps a list free of duplicate types. */
  lemma AppendNewType(entries: seq<ProfileEntry>, e: ProfileEntry)
    requires NoDuplicates(Types(entries)) && e.qtype !in Types(entries)
    ensures NoDuplicates(Types(entries + [e]))
  {
    var ts := Types(entries + [e]);
    assert ts == Types(entries) + [e.qtype];
  }

  /** Filtering keeps the earlier list free of duplicate types. */
  lemma {:induction false} WithoutTypesOfNoDuplicates(earlier: seq<ProfileEntry>, recent: seq<ProfileEntry>)
    requires NoDuplicates(Types(earlier))
    ensures NoDuplicates(Types(WithoutTypesOf(earlier, recent)))
  {
    if earlier != [] {
      var p := Init(earlier);
      assert Types(p) == Init(Types(earlier));
      WithoutTypesOfNoDuplicates(p, recent);
      var rest := WithoutTypesOf(p, recent);
      if Last(earlier).qtype !in Types(recent) {
        LastTypeIsNew(earlier);
        if Last(earlier).qtype in Types(rest) {
          var m :| 0 <= m < |rest| && Types(rest)[m] == Last(earlier).qtype;
          assert rest[m] in rest;
          TypeOfMember(rest[m], p);
        }
        AppendNewType(rest, Last(earlier));
        assert WithoutTypesOf(earlier, recent) == rest + [Last(earlier)];
      } else {
        assert WithoutTypesOf(earlier, recent) == rest;
      }
    }
  }

  /** The merged list repeats no type when neither input does. */
  lemma MergeRecentNoDuplicates(recent: seq<ProfileEntry>, earlier: seq<ProfileEntry>)
    requires NoDuplicates(Types(recent)) && NoDuplicates(Types(earlier))
    ensures NoDuplicates(Types(MergeRecent(recent, earlier)))
  {
    var rest := WithoutTypesOf(earlier, recent);
    WithoutTypesOfNoDuplicates(earlier, recent);
    var all := recent + rest;
    var ts := Types(all);
    forall i, k | 0 <= i < k < |ts| ensures ts[i] != ts[k] {
      if k < |recent| {
        assert ts[i] == Types(recent)[i] && ts[k] == Types(recent)[k];
      } else if i >= |recent| {
        assert ts[i] == Types(rest)[i - |recent|] && ts[k] == Types(rest)[k - |recent|];
      } else {
        assert rest[k - |recent|] in rest;
        assert ts[i] == Types(recent)[i];
      }
    }
    var r := MergeRecent(recent, earlier);
    assert Types(r) == ts[..|r|];
  }

  /** `r` lists the entries of `recent` first and then the kept entries of
      `earlier`, at their kept positions in increasing order, up to
      `ProfileLimit` entries in all. */
  ghost predicate RecentThenKept(recent: seq<ProfileEntry>, earlier: seq<ProfileEntry>, r: seq<ProfileEntry>) {
    var kept := KeptPositions(earlier, recent);
    && |r| == Min(ProfileLimit, |recent| + |kept|)
    && (forall k :: 0 <= k < |r| && k < |recent| ==> r[k] == recent[k])
    && (forall k :: |recent| <= k < |r| ==> r[k] == earlier[kept[k - |recent|]])
  }

  /** The merge keeps the order of both of its lists. */
  lemma MergeRecentInOrder(recent: seq<ProfileEntry>, earlier: seq<ProfileEntry>)
    ensures RecentThenKept(recent, earlier, MergeRecent(recent, earlier))
  {
    WithoutTypesOfInOrder(earlier, recent);
  }

  /** `updateLearningProfile(results)`, applied to the stored profile. */
  function ProfileAfter(lp: LearningProfile, answers: seq<Answer>): LearningProfile
  {
    var perf := SessionPerformance(answers);
    PerformanceWellFormed(answers);
    lp.(strengths := MergeRecent(StrengthsOf(perf), lp.strengths),
        weaknesses := MergeRecent(WeaknessesOf(perf), lp.weaknesses))
  }

  /** The profile update puts this session's strengths (weaknesses) first, in
      key order, followed by the earlier entries of other types in their
      stored order. */
  lemma ProfileAfterOrder(lp: LearningProfile, answers: seq<Answer>)
    ensures AllNonEmpty(SessionPerformance(answers))
    ensures RecentThenKept(StrengthsOf(SessionPerformance(answers)), lp.strengths, ProfileAfter(lp, answers).strengths)
    ensures RecentThenKept(WeaknessesOf(SessionPerformance(answers)), lp.weaknesses, ProfileAfter(lp, answers).weaknesses)
  {
    var perf := SessionPerformance(answers);
    PerformanceWellFormed(answers);
    MergeRecentInOrder(StrengthsOf(perf), lp.strengths);
    MergeRecentInOrder(WeaknessesOf(perf), lp.weaknesses);
  }

  /** The profile update keeps both lists within five entries and free of
      duplicate types, and puts every qualifying type of this session first. */
  lemma ProfileAfterConsistent(lp: LearningProfile, answers: seq<Answer>)
    requires ProfileConsistent(lp)
    ensures ProfileConsistent(ProfileAfter(lp, answers))
  {
    var perf := SessionPerformance(answers);
    PerformanceWellFormed(answers);
    DistinctKeysSound(answers);
    assert PerfTypes(perf) == DistinctKeys(answers);
    StrengthsOfSound(perf);
    WeaknessesOfSound(perf);
    MergeRecentNoDuplicates(StrengthsOf(perf), lp.strengths);
    MergeRecentNoDuplicates(WeaknessesOf(perf), lp.weaknesses);
  }

  // ---------------------------------------------------------------------------
  // Coins, experience and levels (data-service.js:331-384)
  // ---------------------------------------------------------------------------

  datatype Progression = Progression(level: nat, experience: int, coins: int)

  /** `userData.level || 1`. */
  function EffectiveLevel(level: nat): (l: nat)
    ensures l >= 1
  {
    if level == 0 then 1 else level
  }

  /** `checkLevelUp`: while the experience covers the current level's cost,
      pay the cost, go up one level and receive the level's coin reward. */
  function LevelUp(level: nat, experience: int, coins: int): (r: Progression)
    ensures r.experience < EffectiveLevel(r.level) * ExperiencePerLevel
    ensures r.level >= level && r.coins >= coins
    ensures experience >= 0 ==> r.experience >= 0
    decreases experience
  {
    var current := EffectiveLevel(level);
    var needed := current * ExperiencePerLevel;
    if experience >= needed then
      LevelUp(current + 1, experience - needed, coins + current * CoinsPerLevel)
    else
      Progression(level, experience, coins)
  }

  /** Experience it takes to climb from level 1 to `level`. */
  function ExperienceToReach(level: nat): int {
    250 * level * (level - 1)
  }

  /** Level-ups neither create nor destroy experience, and pay one fifth of
      the experience they consume as coins. */
  lemma {:induction false} LevelUpConserves(level: nat, experience: int, coins: int)
    requires level >= 1
    decreases experience
    ensures var r := LevelUp(level, experience, coins);
      && ExperienceToReach(r.level) + r.experience == ExperienceToReach(level) + experience
      && 5 * (r.coins - coins) == ExperienceToReach(r.level) - ExperienceToReach(level)
  {
    var needed := level * ExperiencePerLevel;
    if experience >= needed {
      assert ExperienceToReach(level + 1) == ExperienceToReach(level) + needed by {
        assert 250 * (level + 1) * level == 250 * level * (level - 1) + 500 * level;
      }
      LevelUpConserves(level + 1, experience - needed, coins + level * CoinsPerLevel);
    }
  }

  /** `userData.coins += amount`. */
  function WithCoins(u: UserData, amount: int): UserData {
    u.(coins := u.coins + amount)
  }

  /** `addExperience(amount)`: add, then level up as far as it goes. */
  function WithExperience(u: UserData, amount: int): UserData {
    var r := LevelUp(u.level, u.experience + amount, u.coins);
    u.(level := r.level, experience := r.experience, coins := r.coins)
  }

  /** `saveGameResults(results)`: log the results, update the statistics,
      check achievements against the new game count, update the profile. */
  function RecordGame(u: UserData, results: GameResults, now: int): UserData {
    var u1 := u.(gameHistory := u.gameHistory + [results]);
    var u2 := u1.(stats := StatsAfter(u1.stats, results, now));
    var u3 := u2.(achievements := AchievementsAfter(u2.achievements, results, u2.stats.totalGames));
    u3.(learningProfile := ProfileAfter(u3.learningProfile, results.answers))
  }

  /** Recording a session keeps a profile consistent and appends it to the history. */
  lemma RecordGameConsistent(u: UserData, results: GameResults, now: int)
    requires Consistent(u)
    ensures Consistent(RecordGame(u, results, now))
    ensures RecordGame(u, results, now).gameHistory == u.gameHistory + [results]
    ensures RecordGame(u, results, now).stats.totalGames == u.stats.totalGames + 1
  {
    StatsAfterEffect(u.stats, results, now);
    ProfileAfterConsistent(u.learningProfile, results.answers);
  }

  /** The first achievement with the games id gets the games rule. */
  lemma GamesRuleAt(achs: seq<Achievement>, results: GameResults, totalGames: nat, i: nat)
    requires FindAchievement(achs, GamesId) == Some(i)
    ensures RuleAt(achs, results, totalGames, i) == Some(GamesRule(totalGames))
  {
    assert achs[i].id == GamesId;
  }

  /** The games achievement reads the game count that includes this session. */
  lemma GamesCountIncludesSession(u: UserData, results: GameResults, now: int, i: nat)
    requires FindAchievement(u.achievements, GamesId) == Some(i)
    ensures RecordGame(u, results, now).achievements[i].progress
         == Min(u.stats.totalGames + 1, u.achievements[i].target)
  {
    var games := u.stats.totalGames + 1;
    assert StatsAfter(u.stats, results, now).totalGames == games;
    assert RecordGame(u, results, now).achievements == AchievementsAfter(u.achievements, results, games);
    GamesRuleAt(u.achievements, results, games, i);
    AchievementsAfterAt(u.achievements, results, games, i);
  }

  /** Added coins and experience keep a profile consistent when the coins are not negative. */
  lemma RewardsConsistent(u: UserData, coins: int, xp: int)
    requires Consistent(u) && coins >= 0
    ensures Consistent(WithCoins(u, coins))
    ensures Consistent(WithExperience(u, xp))
    ensures WithExperience(u, xp).level >= u.level && WithExperience(u, xp).coins >= u.coins
  {
  }

  /** What `endGame` does to the profile: record the session, then add its
      coins, then its experience; without a profile nothing happens. */
  function AfterSession(u: Option<UserData>, results: GameResults, now: int): Option<UserData> {
    match u
    case None => None
    case Some(v) => Some(WithExperience(WithCoins(RecordGame(v, results, now), results.coins), results.xp))
  }

  /** A session with a non-negative coin reward keeps a profile consistent,
      appends to its history, and never lowers its level or balance. */
  lemma AfterSessionConsistent(v: UserData, results: GameResults, now: int)
    requires Consistent(v) && results.coins >= 0
    ensures var w := AfterSession(Some(v), results, now).value;
      && Consistent(w)
      && w.gameHistory == v.gameHistory + [results]
      && w.level >= v.level
      && w.coins >= v.coins + results.coins
  {
    RecordGameConsistent(v, results, now);
    RewardsConsistent(RecordGame(v, results, now), results.coins, results.xp);
    RewardsConsistent(WithCoins(RecordGame(v, results, now), results.coins), 0, results.xp);
  }

  // ---------------------------------------------------------------------------
  // Shallow merge (data-service.js:128-131)
  // ---------------------------------------------------------------------------

  /** The own properties of the object passed to `updateUserData`. */
  datatype UserPatch = UserPatch(
    id: Option<string>,
    username: Option<string>,
    level: Option<nat>,
    experience: Option<int>,
    coins: Option<int>,
    createdAt: Option<int>,
    lastLogin: Option<int>,
    gameHistory: Option<seq<GameResults>>,
    achievements: Option<seq<Achievement>>,
    inventory: Option<Inventory>,
    settings: Option<Settings>,
    stats: Option<Stats>,
    learningProfile: Option<LearningProfile>)

  function Pick<T>(patch: Option<T>, current: T): T {
    match patch
    case Some(v) => v
    case None => current
  }

  /** `{ ...userData, ...patch }`. */
  function Merge(u: UserData, p: UserPatch): UserData {
    UserData(Pick(p.id, u.id), Pick(p.username, u.username), Pick(p.level, u.level),
      Pick(p.experience, u.experience), Pick(p.coins, u.coins), Pick(p.createdAt, u.createdAt),
      Pick(p.lastLogin, u.lastLogin), Pick(p.gameHistory, u.gameHistory),
      Pick(p.achievements, u.achievements), Pick(p.inventory, u.inventory),
      Pick(p.settings, u.settings), Pick(p.stats, u.stats), Pick(p.learningProfile, u.learningProfile))
  }

  /** The patch that carries every property of a profile. */
  function PatchOf(v: UserData): UserPatch {
    UserPatch(Some(v.id), Some(v.username), Some(v.level), Some(v.experience), Some(v.coins),
      Some(v.createdAt), Some(v.lastLogin), Some(v.gameHistory), Some(v.achievements),
      Some(v.inventory), Some(v.settings), Some(v.stats), Some(v.learningProfile))
  }

  /** The profile a patch describes on its own, when it carries every property. */
  function PatchAsUser(p: UserPatch): Option<UserData> {
    if p.id.Some? && p.username.Some? && p.level.Some? && p.experience.Some? && p.coins.Some?
       && p.createdAt.Some? && p.lastLogin.Some? && p.gameHistory.Some? && p.achievements.Some?
       && p.inventory.Some? && p.settings.Some? && p.stats.Some? && p.learningProfile.Some?
    then Some(UserData(p.id.value, p.username.value, p.level.value, p.experience.value, p.coins.value,
      p.createdAt.value, p.lastLogin.value, p.gameHistory.value, p.achievements.value,
      p.inventory.value, p.settings.value, p.stats.value, p.learningProfile.value))
    else None
  }

  /** Merging is idempotent, a patch's properties win, and a whole profile
      merged in replaces the stored one. */
  lemma MergeLaws(u: UserData, p: UserPatch, v: UserData)
    ensures Merge(Merge(u, p), p) == Merge(u, p)
    ensures Merge(u, PatchOf(v)) == v
    ensures PatchAsUser(PatchOf(v)) == Some(v)
    ensures PatchAsUser(p).Some? ==> Merge(u, p) == PatchAsUser(p).value
  {
  }
}
