/**
 * The leaderboard: each registered user's results are narrowed by period, test
 * type and language, scored in the chosen category, and the users with at
 * least one qualifying result are ranked by score.  The user list and the
 * stored results are parameters; so are the clock readings the period cut-offs
 * come from and `Math.sqrt`, the one floating-point primitive used.
 */
module LeaderboardEngine {
  import opened Wrappers
  import opened JsMath
  import opened Sequences
  import opened TypingEngine
  import opened StatisticsEngine

  /** A registered user, as far as the leaderboard reads one. */
  datatype User = User(id: string, username: string, createdAt: int)

  /** The four filter fields; each is a string as it is in the source. */
  datatype LeaderboardFilters = Filters(category: string, period: string, testType: string, language: string)

  datatype LeaderboardEntry = Entry(
    userId: string,
    username: string,
    score: int,
    rank: int,
    testsCompleted: nat,
    bestWpm: int,
    averageWpm: int,
    averageAccuracy: int,
    consistencyScore: int,
    lastActive: int,
    badge: Option<string>)

  /**
   * The cut-off instants the calendar arithmetic produces from the current
   * date: one day, seven days and one calendar month back.
   */
  datatype Clock = Clock(now: int, dayAgo: int, weekAgo: int, monthAgo: int)

  // ------------------------------------------------------------------- score

  /** The population variance terms: the sum of squared deviations from `mean`. */
  function SquaredDeviations(s: seq<DetailedTestResult>, mean: real): real
  {
    if |s| == 0 then 0.0
    else (s[0].result.wpm as real - mean) * (s[0].result.wpm as real - mean) + SquaredDeviations(s[1..], mean)
  }

  /** The mean WPM as a real, 0 for no results. */
  function MeanWpm(s: seq<DetailedTestResult>): real
  {
    if |s| == 0 then 0.0 else Sum(s, Wpm) as real / |s| as real
  }

  /** The WPM standard deviation built on the given square root. */
  function StdDev(s: seq<DetailedTestResult>, sqrt: real -> real): real
  {
    if |s| == 0 then sqrt(0.0) else sqrt(SquaredDeviations(s, MeanWpm(s)) / |s| as real)
  }

  /**
   * `max(0, round(100 - stdDev / mean * 100))` behind the `mean > 0` guard of
   * the per-entry computation.
   */
  function ConsistencyScore(s: seq<DetailedTestResult>, sqrt: real -> real): int
  {
    if MeanWpm(s) > 0.0 then Max(0, Round(100.0 - StdDev(s, sqrt) / MeanWpm(s) * 100.0)) else 0
  }

  /** With a square root that is never negative, consistency is a percentage. */
  lemma ConsistencyIsPercentage(s: seq<DetailedTestResult>, sqrt: real -> real)
    requires StdDev(s, sqrt) >= 0.0
    ensures 0 <= ConsistencyScore(s, sqrt) <= 100
  {
    if MeanWpm(s) > 0.0 {
      var ratio := StdDev(s, sqrt) / MeanWpm(s);
      assert ratio >= 0.0;
      RoundMonotone(100.0 - ratio * 100.0, 100.0);
    }
  }

  /** `calculateUserScore`: zero without results; otherwise by category, zero for an unknown one. */
  function CalculateUserScore(results: seq<DetailedTestResult>, category: string, sqrt: real -> real): (r: int)
    ensures |results| == 0 ==> r == 0
    ensures |results| > 0 && category == "wpm" ==>
      (forall i :: 0 <= i < |results| ==> results[i].result.wpm <= r) &&
      (exists i :: 0 <= i < |results| && results[i].result.wpm == r)
    ensures |results| > 0 && category == "accuracy" ==> r == MeanRounded(results, Accuracy)
    ensures |results| > 0 && category == "consistency" ==> r == ConsistencyScore(results, sqrt)
    ensures category == "tests" ==> r == |results|
    ensures category !in {"wpm", "accuracy", "consistency", "tests"} ==> r == 0
  {
    if |results| == 0 then 0
    else if category == "wpm" then MaxOf(results, Wpm)
    else if category == "accuracy" then MeanRounded(results, Accuracy)
    else if category == "consistency" then ConsistencyScore(results, sqrt)
    else if category == "tests" then |results|
    else 0
  }

  /** An accuracy score of percentages is a percentage. */
  lemma AccuracyScoreIsPercentage(results: seq<DetailedTestResult>, sqrt: real -> real)
    requires forall i :: 0 <= i < |results| ==> 0 <= results[i].result.accuracy <= 100
    ensures 0 <= CalculateUserScore(results, "accuracy", sqrt) <= 100
  {
    if |results| > 0 {
      AverageAccuracyIsPercentage(results);
    }
  }

  // ----------------------------------------------------------------- filters

  /** The instant a period starts; an unknown period leaves the cut-off at the current time. */
  function CutoffFor(period: string, clock: Clock): int
  {
    if period == "daily" then clock.dayAgo
    else if period == "weekly" then clock.weekAgo
    else if period == "monthly" then clock.monthAgo
    else clock.now
  }

  function AtOrAfter(cutoff: int): DetailedTestResult -> bool
  {
    (d: DetailedTestResult) => d.result.completedAt >= cutoff
  }

  /** `filterResultsByPeriod`: all of them for "all-time", the ones from the cut-off on otherwise. */
  function FilterResultsByPeriod(results: seq<DetailedTestResult>, period: string, clock: Clock)
    : (r: seq<DetailedTestResult>)
    ensures period == "all-time" ==> r == results
    ensures period != "all-time" ==> forall i :: 0 <= i < |r| ==> r[i].result.completedAt >= CutoffFor(period, clock)
  {
    if period == "all-time" then results else Filter(results, AtOrAfter(CutoffFor(period, clock)))
  }

  /** A result survives the period filter exactly when it is recent enough. */
  lemma PeriodFilterExactly(results: seq<DetailedTestResult>, period: string, clock: Clock, d: DetailedTestResult)
    ensures d in FilterResultsByPeriod(results, period, clock)
        <==> d in results && (period == "all-time" || d.result.completedAt >= CutoffFor(period, clock))
  {
    if period != "all-time" {
      FilterMembers(results, AtOrAfter(CutoffFor(period, clock)), d);
    }
  }

  function OfType(testType: string): DetailedTestResult -> bool
  {
    (d: DetailedTestResult) => TestTypeName(d.result.testType) == testType
  }

  function InLanguage(language: string): DetailedTestResult -> bool
  {
    (d: DetailedTestResult) => d.result.language == language
  }

  /** Both conditions of the test filter at once. */
  predicate MatchesTest(testType: string, language: string, d: DetailedTestResult)
  {
    (testType == "all" || TestTypeName(d.result.testType) == testType) &&
    (language == "all" || d.result.language == language)
  }

  /** `filterResultsByTest`: the type filter unless "all", then the language filter unless "all". */
  function FilterResultsByTest(results: seq<DetailedTestResult>, testType: string, language: string)
    : (r: seq<DetailedTestResult>)
    ensures |r| <= |results|
  {
    var byType := if testType != "all" then Filter(results, OfType(testType)) else results;
    if language != "all" then Filter(byType, InLanguage(language)) else byType
  }

  /**
   * The two filters in a row are one order-preserving filter by both
   * conditions, so a result is kept exactly when it matches.
   */
  lemma TestFilterIsOneFilter(results: seq<DetailedTestResult>, testType: string, language: string)
    ensures FilterResultsByTest(results, testType, language)
         == Filter(results, (d: DetailedTestResult) => MatchesTest(testType, language, d))
  {
    var p := (d: DetailedTestResult) => MatchesTest(testType, language, d);
    if testType != "all" && language != "all" {
      FilterFilter(results, OfType(testType), InLanguage(language), p);
    } else if testType != "all" {
      FilterFilter(results, OfType(testType), (d: DetailedTestResult) => true, p);
      FilterAll(Filter(results, OfType(testType)), (d: DetailedTestResult) => true);
    } else if language != "all" {
      FilterFilter(results, (d: DetailedTestResult) => true, InLanguage(language), p);
      FilterAll(results, (d: DetailedTestResult) => true);
    } else {
      FilterAll(results, p);
    }
  }

  lemma TestFilterExactly(results: seq<DetailedTestResult>, testType: string, language: string, d: DetailedTestResult)
    ensures d in FilterResultsByTest(results, testType, language) <==> d in results && MatchesTest(testType, language, d)
  {
    TestFilterIsOneFilter(results, testType, language);
    FilterMembers(results, (d: DetailedTestResult) => MatchesTest(testType, language, d), d);
  }

  // ------------------------------------------------------------------ badges

  /** `getBadge`: medals for the podium, a trophy to 10, a star to 25, none below. */
  function GetBadge(rank: int, category: string): (r: Option<string>)
    ensures r.Some? <==> rank <= 25
    ensures rank == 1 ==> r == Some("\U{1F947}")
    ensures rank == 2 ==> r == Some("\U{1F948}")
    ensures rank == 3 ==> r == Some("\U{1F949}")
    ensures (4 <= rank <= 10 || rank <= 0) ==> r == Some("\U{1F3C6}")
    ensures 11 <= rank <= 25 ==> r == Some("\U{2B50}")
  {
    if rank == 1 then Some("\U{1F947}")
    else if rank == 2 then Some("\U{1F948}")
    else if rank == 3 then Some("\U{1F949}")
    else if rank <= 10 then Some("\U{1F3C6}")
    else if rank <= 25 then Some("\U{2B50}")
    else None
  }

  // ------------------------------------------------------------- leaderboard

  /** One user's results after the period and test filters. */
  function Qualifying(user: User, stored: seq<DetailedTestResult>, filters: LeaderboardFilters, clock: Clock)
    : seq<DetailedTestResult>
  {
    var mine := GetUserTestResults(stored, Some(user.id));
    FilterResultsByTest(FilterResultsByPeriod(mine, filters.period, clock), filters.testType, filters.language)
  }

  /** The unranked entry of one user, computed from that user's qualifying results. */
  function EntryFor(user: User, stored: seq<DetailedTestResult>, filters: LeaderboardFilters, clock: Clock,
                    sqrt: real -> real): (e: LeaderboardEntry)
    ensures var q := Qualifying(user, stored, filters, clock);
      && e.userId == user.id && e.username == user.username
      && e.rank == 0 && e.badge == None
      && e.testsCompleted == |q|
      && e.score == CalculateUserScore(q, filters.category, sqrt)
      && (|q| == 0 ==> e.bestWpm == 0 && e.averageWpm == 0 && e.averageAccuracy == 0 && e.lastActive == user.createdAt)
      && (|q| > 0 ==> e.bestWpm == MaxOf(q, Wpm) && e.averageWpm == MeanRounded(q, Wpm)
                      && e.averageAccuracy == MeanRounded(q, Accuracy)
                      && e.lastActive == q[|q| - 1].result.completedAt)
      && e.consistencyScore == ConsistencyScore(q, sqrt)
  {
    var q := Qualifying(user, stored, filters, clock);
    var n := |q|;
    Entry(user.id, user.username, CalculateUserScore(q, filters.category, sqrt), 0, n,
          if n > 0 then MaxOf(q, Wpm) else 0,
          if n > 0 then MeanRounded(q, Wpm) else 0,
          if n > 0 then MeanRounded(q, Accuracy) else 0,
          ConsistencyScore(q, sqrt),
          if n > 0 then q[n - 1].result.completedAt else user.createdAt,
          None)
  }

  /** An entry's average WPM never exceeds its best WPM. */
  lemma EntryAverageAtMostBest(user: User, stored: seq<DetailedTestResult>, filters: LeaderboardFilters, clock: Clock,
                               sqrt: real -> real)
    ensures EntryFor(user, stored, filters, clock, sqrt).averageWpm <= EntryFor(user, stored, filters, clock, sqrt).bestWpm
  {
    var q := Qualifying(user, stored, filters, clock);
    if |q| > 0 {
      AverageAtMostBest(q);
    }
  }

  /** `allUsers.map(...)`: one unranked entry per user, in user-list order. */
  function EntriesFor(users: seq<User>, stored: seq<DetailedTestResult>, filters: LeaderboardFilters, clock: Clock,
                      sqrt: real -> real): (r: seq<LeaderboardEntry>)
    ensures |r| == |users|
    ensures forall i :: 0 <= i < |users| ==> r[i] == EntryFor(users[i], stored, filters, clock, sqrt)
  {
    if |users| == 0 then []
    else [EntryFor(users[0], stored, filters, clock, sqrt)] + EntriesFor(users[1..], stored, filters, clock, sqrt)
  }

  function HasTests(e: LeaderboardEntry): bool { e.testsCompleted > 0 }

  function Score(e: LeaderboardEntry): int { e.score }

  /** The `map((entry, index) => ...)` that numbers the sorted entries from `first`. */
  function Ranked(s: seq<LeaderboardEntry>, first: int, category: string): (r: seq<LeaderboardEntry>)
    ensures |r| == |s|
    ensures forall i :: 0 <= i < |s| ==> r[i] == s[i].(rank := first + i, badge := GetBadge(first + i, category))
  {
    if |s| == 0 then []
    else [s[0].(rank := first, badge := GetBadge(first, category))] + Ranked(s[1..], first + 1, category)
  }

  /** The entries that qualify, sorted by score, highest first, ties in user-list order. */
  function Standings(users: seq<User>, stored: seq<DetailedTestResult>, filters: LeaderboardFilters, clock: Clock,
                     sqrt: real -> real): seq<LeaderboardEntry>
  {
    SortBy(Filter(EntriesFor(users, stored, filters, clock, sqrt), HasTests), Score, true)
  }

  /** `generateLeaderboard`: every entry has results, ranks are 1, 2, ... by position, badges follow rank. */
  function GenerateLeaderboard(users: seq<User>, stored: seq<DetailedTestResult>, filters: LeaderboardFilters,
                               clock: Clock, sqrt: real -> real): (r: seq<LeaderboardEntry>)
    ensures |users| == 0 ==> r == []
    ensures forall i :: 0 <= i < |r| ==>
      r[i].testsCompleted > 0 && r[i].rank == i + 1 && r[i].badge == GetBadge(i + 1, filters.category)
    ensures |r| <= |users|
  {
    if |users| == 0 then []
    else
      var standings := Standings(users, stored, filters, clock, sqrt);
      var qualified := Filter(EntriesFor(users, stored, filters, clock, sqrt), HasTests);
      assert forall i :: 0 <= i < |standings| ==> standings[i] in multiset(qualified);
      Ranked(standings, 1, filters.category)
  }

  /** Ranking only adds the rank and the badge: with those cleared, the leaderboard is the standings. */
  lemma LeaderboardIsStandings(users: seq<User>, stored: seq<DetailedTestResult>, filters: LeaderboardFilters,
                               clock: Clock, sqrt: real -> real)
    ensures var r := GenerateLeaderboard(users, stored, filters, clock, sqrt);
      var s := Standings(users, stored, filters, clock, sqrt);
      |r| == |s| && forall i :: 0 <= i < |r| ==> r[i].(rank := 0, badge := None) == s[i]
  {
    var entries := EntriesFor(users, stored, filters, clock, sqrt);
    var s := Standings(users, stored, filters, clock, sqrt);
    if |users| == 0 {
      assert entries == [];
    } else {
      var r := Ranked(s, 1, filters.category);
      forall i | 0 <= i < |r| ensures r[i].(rank := 0, badge := None) == s[i] {
        assert s[i] in multiset(Filter(entries, HasTests));
        FilterMembers(entries, HasTests, s[i]);
        var j :| 0 <= j < |entries| && entries[j] == s[i];
        assert s[i] == EntryFor(users[j], stored, filters, clock, sqrt);
      }
    }
  }

  /** The standings are in score order, highest first. */
  lemma StandingsSorted(users: seq<User>, stored: seq<DetailedTestResult>, filters: LeaderboardFilters,
                        clock: Clock, sqrt: real -> real)
    ensures Sorted(Standings(users, stored, filters, clock, sqrt), Score, true)
  {
    SortBySorted(Filter(EntriesFor(users, stored, filters, clock, sqrt), HasTests), Score, true);
  }

  /** Ties keep the order of the user list: the entries with one score are in user-list order. */
  lemma StandingsStable(users: seq<User>, stored: seq<DetailedTestResult>, filters: LeaderboardFilters,
                        clock: Clock, sqrt: real -> real, score: int)
    ensures WithKey(Standings(users, stored, filters, clock, sqrt), Score, score)
         == WithKey(Filter(EntriesFor(users, stored, filters, clock, sqrt), HasTests), Score, score)
  {
    SortByStable(Filter(EntriesFor(users, stored, filters, clock, sqrt), HasTests), Score, true, score);
  }

  /** A user is on the leaderboard exactly when they have a qualifying result. */
  lemma StandingsMembers(users: seq<User>, stored: seq<DetailedTestResult>, filters: LeaderboardFilters,
                         clock: Clock, sqrt: real -> real, e: LeaderboardEntry)
    ensures e in Standings(users, stored, filters, clock, sqrt)
        <==> e in EntriesFor(users, stored, filters, clock, sqrt) && e.testsCompleted > 0
  {
    var entries := EntriesFor(users, stored, filters, clock, sqrt);
    FilterMembers(entries, HasTests, e);
    var q := Filter(entries, HasTests);
    assert e in SortBy(q, Score, true) <==> e in multiset(SortBy(q, Score, true));
  }

  /** The first entry satisfying `userId`, or none: `find(...) || null`. */
  function FindEntry(board: seq<LeaderboardEntry>, userId: string): (r: Option<LeaderboardEntry>)
    ensures r.None? <==> forall i :: 0 <= i < |board| ==> board[i].userId != userId
    ensures r.Some? ==> exists i :: 0 <= i < |board| && board[i] == r.value
                                   && board[i].userId == userId
                                   && forall j :: 0 <= j < i ==> board[j].userId != userId
  {
    if |board| == 0 then None
    else if board[0].userId == userId then Some(board[0])
    else
      var r := FindEntry(board[1..], userId);
      assert forall i :: 1 <= i < |board| ==> board[i] == board[1..][i - 1];
      r
  }

  /** `getUserRank`. */
  function GetUserRank(userId: string, users: seq<User>, stored: seq<DetailedTestResult>, filters: LeaderboardFilters,
                       clock: Clock, sqrt: real -> real): (r: Option<LeaderboardEntry>)
    ensures r.Some? ==> r.value.userId == userId && r.value.testsCompleted > 0 && r.value.rank >= 1
    ensures r.None? <==> forall e :: e in GenerateLeaderboard(users, stored, filters, clock, sqrt) ==> e.userId != userId
    ensures r.Some? ==>
      var board := GenerateLeaderboard(users, stored, filters, clock, sqrt);
      exists i :: 0 <= i < |board| && board[i] == r.value && r.value.rank == i + 1
                  && forall j :: 0 <= j < i ==> board[j].userId != userId
  {
    FindEntry(GenerateLeaderboard(users, stored, filters, clock, sqrt), userId)
  }

  /** `getTopPerformers`: the first `limit` entries (10 when no limit is passed). */
  function GetTopPerformers(users: seq<User>, stored: seq<DetailedTestResult>, filters: LeaderboardFilters,
                            clock: Clock, sqrt: real -> real, limit: Option<int>): (r: seq<LeaderboardEntry>)
    ensures r <= GenerateLeaderboard(users, stored, filters, clock, sqrt)
    ensures limit == None ==> |r| == Min(|GenerateLeaderboard(users, stored, filters, clock, sqrt)|, 10)
    ensures limit.Some? && limit.value >= 0 ==>
      |r| == Min(|GenerateLeaderboard(users, stored, filters, clock, sqrt)|, limit.value)
    // `slice(0, limit)` with a negative limit drops that many entries from the end
    ensures limit.Some? && limit.value < 0 ==>
      |r| == Max(|GenerateLeaderboard(users, stored, filters, clock, sqrt)| + limit.value, 0)
  {
    SliceTo(GenerateLeaderboard(users, stored, filters, clock, sqrt), limit.GetOr(10))
  }
}
