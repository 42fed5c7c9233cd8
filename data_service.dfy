/** The data service of data-service.js: the in-memory profile `userData`,
    its persisted copy under the `logicMasterUserData` storage key, and the
    operations the game calls on them. Every operation is proved against
    the value-level rules of `UserRecords`. */
module DataServices {
  import opened JsValues
  import opened Sessions
  import opened UserRecords

  /** The storage entry: absent, present but not parseable, or a profile.
      Serialisation is taken to round-trip a profile exactly. */
  datatype StoredEntry = NoEntry | Unparsable | Parsed(data: UserData)

  /** The strength and weakness loop of data-service.js:285-308: one pass
      over the tallies in key order. */
  method ClassifyTypes(perf: seq<TypePerformance>) returns (strengths: seq<ProfileEntry>, weaknesses: seq<ProfileEntry>)
    requires AllNonEmpty(perf)
    ensures strengths == StrengthsOf(perf)
    ensures weaknesses == WeaknessesOf(perf)
  {
    strengths, weaknesses := [], [];
    var i := 0;
    while i < |perf|
      invariant 0 <= i <= |perf|
      invariant AllNonEmpty(perf[..i])
      invariant strengths == StrengthsOf(perf[..i])
      invariant weaknesses == WeaknessesOf(perf[..i])
    {
      var p := perf[i];
      var accuracy := p.correct as real / p.total as real;
      var avgTime := Mean(p.times);
      if accuracy >= 0.85 {
        strengths := strengths + [ProfileEntry(p.qtype, accuracy, avgTime)];
      }
      if accuracy < 0.7 {
        weaknesses := weaknesses + [ProfileEntry(p.qtype, accuracy, avgTime)];
      }
      assert Init(perf[..i + 1]) == perf[..i];
      i := i + 1;
    }
    assert perf[..|perf|] == perf;
  }

  class DataService {
    /** `userData`: None until initialised (JavaScript `null`). */
    var user: Option<UserData>
    /** The storage entry under `logicMasterUserData`. */
    var storage: StoredEntry

    /** A service over the given storage, not yet initialised. */
    constructor (entry: StoredEntry)
      ensures user == None && storage == entry
    {
      user := None;
      storage := entry;
    }

    /** `initialize()`: load the stored profile, or create and store a
        default one when there is none; a parse failure fails the
        initialisation and leaves `userData` alone. The generated id and
        name and the clock are inputs. */
    method Initialize(id: string, username: string, now: int) returns (ok: bool)
      modifies this
      ensures old(storage).Parsed? ==> ok && user == Some(old(storage).data) && storage == old(storage)
      ensures old(storage).NoEntry? ==>
        ok && user == Some(CreateDefaultUserData(id, username, now)) && storage == Parsed(user.value)
      ensures old(storage).Unparsable? ==> !ok && user == old(user) && storage == old(storage)
    {
      match storage
      case Parsed(data) =>
        user := Some(data);
        ok := true;
      case NoEntry =>
        user := Some(CreateDefaultUserData(id, username, now));
        SaveUserData();
        ok := true;
      case Unparsable =>
        ok := false;
    }

    /** `saveUserData()`: write the profile to storage. */
    method SaveUserData()
      requires user.Some?
      modifies this
      ensures user == old(user) && storage == Parsed(user.value)
    {
      storage := Parsed(user.value);
    }

    /** `updateUserData(newData)`: shallow-merge the patch and save. Without
        a loaded profile the patch must describe a whole one. */
    method UpdateUserData(patch: UserPatch) returns (ok: bool)
      requires user.Some? || PatchAsUser(patch).Some?
      modifies this
      ensures old(user).Some? ==> user == Some(Merge(old(user).value, patch))
      ensures old(user).None? ==> user == PatchAsUser(patch)
      ensures ok && storage == Parsed(user.value)
    {
      match user {
        case Some(u) => user := Some(Merge(u, patch));
        case None => user := PatchAsUser(patch);
      }
      SaveUserData();
      ok := true;
    }

    /** `saveGameResults(results)`: log the session, update statistics,
        achievements and the learning profile, and save; nothing happens
        without a profile. */
    method SaveGameResults(results: GameResults, now: int) returns (ok: bool)
      modifies this
      ensures ok <==> old(user).Some?
      ensures old(user).None? ==> user == old(user) && storage == old(storage)
      ensures old(user).Some? ==> user == Some(RecordGame(old(user).value, results, now)) && storage == Parsed(user.value)
      ensures old(user).Some? && Consistent(old(user).value) ==> Consistent(user.value)
    {
      if user.None? {
        return false;
      }
      ghost var before := user.value;
      user := Some(user.value.(gameHistory := user.value.gameHistory + [results]));
      UpdateUserStats(results, now);
      CheckAchievements(results);
      UpdateLearningProfile(results);
      SaveUserData();
      ok := true;
      if Consistent(before) {
        RecordGameConsistent(before, results, now);
      }
    }

    /** `updateUserStats(results)` at the clock reading `now`. */
    method UpdateUserStats(results: GameResults, now: int)
      requires user.Some?
      modifies this
      ensures user == Some(old(user).value.(stats := StatsAfter(old(user).value.stats, results, now)))
      ensures storage == old(storage)
    {
      var st := user.value.stats;
      var totalGames := st.totalGames + 1;
      var totalScore := st.totalScore + results.score;
      var bestScore := Max(st.bestScore, results.score);
      var totalCorrect := st.totalCorrect + CorrectCount(results.answers);
      var totalQuestions := st.totalQuestions + |results.answers|;
      var averageAccuracy := Ratio(totalCorrect, totalQuestions);
      var sessionAverage := Mean(TimedResponses(results.answers));
      var averageResponseTime := RunningAverage(st.averageResponseTime, sessionAverage, totalGames);
      var entry := HistoryEntry(now, results.score, results.accuracy, results.avgResponseTime);
      var history := AppendBounded(st.historicalPerformance, entry);
      user := Some(user.value.(stats := Stats(totalGames, totalCorrect, totalQuestions, totalScore, bestScore,
        averageAccuracy, averageResponseTime, history)));
    }

    /** `checkAchievements(results)`: the session's longest streak comes from
        the streak loop, the game count from the updated statistics. */
    method CheckAchievements(results: GameResults)
      requires user.Some?
      modifies this
      ensures user == Some(old(user).value.(achievements :=
        AchievementsAfter(old(user).value.achievements, results, old(user).value.stats.totalGames)))
      ensures storage == old(storage)
    {
      var u := user.value;
      var maxStreak := LongestCorrectStreak(results.answers);
      var achs := UpdateAchievement(u.achievements, StreakId, StreakRule(maxStreak));
      achs := UpdateAchievement(achs, AccuracyId, AccuracyRule(results.accuracy));
      achs := UpdateAchievement(achs, SpeedId, SpeedRule(results.avgResponseTime));
      achs := UpdateAchievement(achs, GamesId, GamesRule(u.stats.totalGames));
      user := Some(u.(achievements := achs));
    }

    /** `updateLearningProfile(results)`: tally by type, classify, and merge
        with the stored lists. */
    method UpdateLearningProfile(results: GameResults)
      requires user.Some?
      modifies this
      ensures user == Some(old(user).value.(learningProfile :=
        ProfileAfter(old(user).value.learningProfile, results.answers)))
      ensures AllNonEmpty(SessionPerformance(results.answers))
      ensures RecentThenKept(StrengthsOf(SessionPerformance(results.answers)),
        old(user).value.learningProfile.strengths, user.value.learningProfile.strengths)
      ensures RecentThenKept(WeaknessesOf(SessionPerformance(results.answers)),
        old(user).value.learningProfile.weaknesses, user.value.learningProfile.weaknesses)
      ensures storage == old(storage)
    {
      var u := user.value;
      ProfileAfterOrder(u.learningProfile, results.answers);
      var perf := GroupByType(results.answers);
      PerformanceWellFormed(results.answers);
      var strengths, weaknesses := ClassifyTypes(perf);
      var lp := u.learningProfile;
      lp := lp.(strengths := MergeRecent(strengths, lp.strengths),
                weaknesses := MergeRecent(weaknesses, lp.weaknesses));
      user := Some(u.(learningProfile := lp));
    }

    /** `addCoins(amount)`. */
    method AddCoins(amount: int) returns (ok: bool)
      modifies this
      ensures ok <==> old(user).Some?
      ensures old(user).None? ==> user == old(user) && storage == old(storage)
      ensures old(user).Some? ==> user == Some(WithCoins(old(user).value, amount)) && storage == Parsed(user.value)
    {
      if user.None? {
        return false;
      }
      user := Some(WithCoins(user.value, amount));
      SaveUserData();
      ok := true;
    }

    /** `deductCoins(amount)`: refused, changing nothing, without a profile or
        when the balance is below the amount. */
    method DeductCoins(amount: int) returns (ok: bool)
      modifies this
      ensures ok <==> old(user).Some? && old(user).value.coins >= amount
      ensures !ok ==> user == old(user) && storage == old(storage)
      ensures ok ==> user == Some(WithCoins(old(user).value, -amount)) && storage == Parsed(user.value)
      ensures ok ==> user.value.coins >= 0
    {
      if user.None? || user.value.coins < amount {
        return false;
      }
      user := Some(WithCoins(user.value, -amount));
      SaveUserData();
      ok := true;
    }

    /** `addExperience(amount)`: add, level up as far as it goes, save. */
    method AddExperience(amount: int) returns (ok: bool)
      modifies this
      ensures ok <==> old(user).Some?
      ensures old(user).None? ==> user == old(user) && storage == old(storage)
      ensures old(user).Some? ==> user == Some(WithExperience(old(user).value, amount)) && storage == Parsed(user.value)
      ensures old(user).Some? && Consistent(old(user).value) ==> Consistent(user.value)
    {
      if user.None? {
        return false;
      }
      user := Some(user.value.(experience := user.value.experience + amount));
      var _ := CheckLevelUp();
      SaveUserData();
      ok := true;
    }

    /** `checkLevelUp()`: one level per call, recursing while the experience
        still covers the next level; reports whether it levelled. */
    method CheckLevelUp() returns (leveled: bool)
      requires user.Some?
      modifies this
      ensures var u := old(user).value;
        var r := LevelUp(u.level, u.experience, u.coins);
        user == Some(u.(level := r.level, experience := r.experience, coins := r.coins))
      ensures leveled <==> old(user).value.experience >= EffectiveLevel(old(user).value.level) * ExperiencePerLevel
      ensures storage == old(storage)
      decreases user.value.experience
    {
      var u := user.value;
      var currentLevel := EffectiveLevel(u.level);
      var expNeeded := currentLevel * ExperiencePerLevel;
      if u.experience >= expNeeded {
        user := Some(u.(level := currentLevel + 1, experience := u.experience - expNeeded,
                        coins := u.coins + currentLevel * CoinsPerLevel));
        var _ := CheckLevelUp();
        return true;
      }
      return false;
    }
  }
}
