/**
 * Per-user statistics over the stored test results: saving with a per-user
 * retention limit, the per-user listing, totals and rounded averages, the ten
 * most recent tests, per-day progression and per-language and per-type
 * counts.  The stored list is a parameter (it lives in the browser's storage
 * under one key); the random result id is a parameter too.
 */
module StatisticsEngine {
  import opened Wrappers
  import opened JsMath
  import opened Strings
  import opened Sequences
  import opened Grouping
  import opened TypingEngine

  /** A stored result: the test result, its id and the owner (`None` for a guest). */
  datatype DetailedTestResult = Detailed(result: TestResult, id: string, userId: Option<string>)

  const MaxKeptPerUser: nat := 100
  const RecentCount: nat := 10
  const MsPerDay: int := 86400000

  /** Every figure of the statistics page except the floating-point improvement rate and consistency score. */
  datatype Statistics = Statistics(
    totalTests: nat,
    totalTimeTyping: real,
    bestWpm: int,
    averageWpm: int,
    averageAccuracy: int,
    totalErrors: int,
    totalCharacters: int,
    recentTests: seq<DetailedTestResult>,
    wpmProgression: seq<(int, int)>,
    accuracyProgression: seq<(int, int)>,
    testsByLanguage: seq<(string, nat)>,
    testsByType: seq<(TestType, nat)>)

  const NoStatistics := Statistics(0, 0.0, 0, 0, 0, 0, 0, [], [], [], [], [])

  // ------------------------------------------------------------ field access

  function Wpm(d: DetailedTestResult): int { d.result.wpm }
  function Accuracy(d: DetailedTestResult): int { d.result.accuracy }
  function Errors(d: DetailedTestResult): int { d.result.errors }
  function TotalChars(d: DetailedTestResult): int { d.result.totalChars }
  function TimeElapsed(d: DetailedTestResult): real { d.result.timeElapsed }
  function CompletedAt(d: DetailedTestResult): int { d.result.completedAt }
  function LanguageOf(d: DetailedTestResult): string { d.result.language }
  function TypeOf(d: DetailedTestResult): TestType { d.result.testType }

  function Owner(userId: Option<string>): DetailedTestResult -> bool
  {
    (d: DetailedTestResult) => d.userId == userId
  }

  function NotOwner(userId: Option<string>): DetailedTestResult -> bool
  {
    (d: DetailedTestResult) => d.userId != userId
  }

  // ------------------------------------------------------------------ saving

  /** The other users' results, then the last 100 of this user's. */
  function Retain(all: seq<DetailedTestResult>, userId: Option<string>): seq<DetailedTestResult>
  {
    Filter(all, NotOwner(userId)) + LastN(Filter(all, Owner(userId)), MaxKeptPerUser)
  }

  /**
   * `saveTestResult`: the stored record (the result with its id and owner)
   * and the new stored list, which ends with that record.
   */
  function SaveTestResult(stored: seq<DetailedTestResult>, result: TestResult, userId: Option<string>, id: string)
    : (r: (DetailedTestResult, seq<DetailedTestResult>))
    ensures r.0.result == result && r.0.id == id && r.0.userId == userId
    ensures |r.1| > 0 && r.1[|r.1| - 1] == r.0
  {
    var d := Detailed(result, id, userId);
    var mine := Filter(stored + [d], Owner(userId));
    FilterSnoc(stored, d, Owner(userId));
    assert mine[|mine| - 1] == d;
    var kept := LastN(mine, MaxKeptPerUser);
    assert kept[|kept| - 1] == d;
    (d, Filter(stored + [d], NotOwner(userId)) + kept)
  }

  /** After saving, the owner keeps exactly their last 100 results, the new one last. */
  lemma SaveKeepsLastHundred(stored: seq<DetailedTestResult>, result: TestResult, userId: Option<string>, id: string)
    ensures var (d, after) := SaveTestResult(stored, result, userId, id);
      && GetUserTestResults(after, userId) == LastN(GetUserTestResults(stored, userId) + [d], MaxKeptPerUser)
      && |GetUserTestResults(after, userId)| <= MaxKeptPerUser
  {
    var (d, after) := SaveTestResult(stored, result, userId, id);
    var others := Filter(stored + [d], NotOwner(userId));
    var mine := LastN(Filter(stored + [d], Owner(userId)), MaxKeptPerUser);
    FilterConcat(others, mine, Owner(userId));
    FilterNone(others, Owner(userId));
    FilterAll(mine, Owner(userId));
    FilterSnoc(stored, d, Owner(userId));
  }

  /** Saving leaves every other owner's results, and their order, as they were. */
  lemma SaveLeavesOthers(stored: seq<DetailedTestResult>, result: TestResult, userId: Option<string>, id: string,
                         other: Option<string>)
    requires other != userId
    ensures GetUserTestResults(SaveTestResult(stored, result, userId, id).1, other) == GetUserTestResults(stored, other)
  {
    var d := Detailed(result, id, userId);
    var others := Filter(stored + [d], NotOwner(userId));
    var mine := LastN(Filter(stored + [d], Owner(userId)), MaxKeptPerUser);
    FilterConcat(others, mine, Owner(other));
    FilterNone(mine, Owner(other));
    FilterFilter(stored + [d], NotOwner(userId), Owner(other), Owner(other));
    FilterSnoc(stored, d, Owner(other));
  }

  /** `getUserTestResults`: the stored results of this owner, in stored order. */
  function GetUserTestResults(stored: seq<DetailedTestResult>, userId: Option<string>): (r: seq<DetailedTestResult>)
    ensures forall i :: 0 <= i < |r| ==> r[i].userId == userId
  {
    Filter(stored, Owner(userId))
  }

  /** A stored result is listed exactly when it belongs to the owner asked for. */
  lemma UserResultsExactly(stored: seq<DetailedTestResult>, userId: Option<string>, d: DetailedTestResult)
    ensures d in GetUserTestResults(stored, userId) <==> d in stored && d.userId == userId
  {
    FilterMembers(stored, Owner(userId), d);
  }

  // -------------------------------------------------------------- aggregates

  /** `Math.round(sum / count)`. */
  function MeanRounded(s: seq<DetailedTestResult>, f: DetailedTestResult -> int): int
    requires |s| > 0
  {
    RoundRatio(Sum(s, f), |s|)
  }

  /** A rounded mean lies between any bounds of the values averaged. */
  lemma MeanBounds(s: seq<DetailedTestResult>, f: DetailedTestResult -> int, lo: int, hi: int)
    requires |s| > 0
    requires forall i :: 0 <= i < |s| ==> lo <= f(s[i]) <= hi
    ensures lo <= MeanRounded(s, f) <= hi
  {
    SumBounds(s, f, lo, hi);
    RoundRatioBounds(Sum(s, f), |s|, lo, hi);
  }

  /** The average WPM never exceeds the best WPM. */
  lemma AverageAtMostBest(s: seq<DetailedTestResult>)
    requires |s| > 0
    ensures MeanRounded(s, Wpm) <= MaxOf(s, Wpm)
  {
    forall i | 0 <= i < |s| ensures MinOfWpm(s) <= Wpm(s[i]) <= MaxOf(s, Wpm) {
      MinOfWpmBelow(s, i);
    }
    MeanBounds(s, Wpm, MinOfWpm(s), MaxOf(s, Wpm));
  }

  function MinOfWpm(s: seq<DetailedTestResult>): int
    requires |s| > 0
  {
    if |s| == 1 then Wpm(s[0]) else Min(Wpm(s[0]), MinOfWpm(s[1..]))
  }

  lemma {:induction false} MinOfWpmBelow(s: seq<DetailedTestResult>, i: nat)
    requires i < |s|
    ensures MinOfWpm(s) <= Wpm(s[i])
  {
    if i > 0 {
      MinOfWpmBelow(s[1..], i - 1);
    }
  }

  /** Averages of percentages are percentages. */
  lemma AverageAccuracyIsPercentage(s: seq<DetailedTestResult>)
    requires |s| > 0
    requires forall i :: 0 <= i < |s| ==> 0 <= s[i].result.accuracy <= 100
    ensures 0 <= MeanRounded(s, Accuracy) <= 100
  {
    MeanBounds(s, Accuracy, 0, 100);
  }

  // ------------------------------------------------------------------ recent

  /** The results in `completedAt` order (a stable sort, ascending). */
  function ByDate(rs: seq<DetailedTestResult>): seq<DetailedTestResult>
  {
    SortBy(rs, CompletedAt, false)
  }

  /** `slice(-10).reverse()`: the last ten, last one first. */
  function RecentTests(s: seq<DetailedTestResult>): (r: seq<DetailedTestResult>)
    ensures |r| == Min(|s|, RecentCount)
    ensures forall i :: 0 <= i < |r| ==> r[i] == s[|s| - 1 - i]
  {
    Reverse(LastN(s, RecentCount))
  }

  /** The recent tests of the statistics page: at most ten, newest first. */
  lemma RecentNewestFirst(rs: seq<DetailedTestResult>)
    ensures |RecentTests(ByDate(rs))| == Min(|rs|, RecentCount)
    ensures Sorted(RecentTests(ByDate(rs)), CompletedAt, true)
  {
    var sorted := ByDate(rs);
    SortBySorted(rs, CompletedAt, false);
    var kept := LastN(sorted, RecentCount);
    SuffixSorted(sorted, CompletedAt, false, |sorted| - |kept|);
    assert kept == sorted[|sorted| - |kept|..];
    ReverseSorted(kept, CompletedAt);
    assert RecentTests(sorted) == Reverse(kept);
  }

  /** The recent tests are some of the owner's results, and none left out is newer than one shown. */
  lemma RecentAreLatest(rs: seq<DetailedTestResult>)
    ensures multiset(RecentTests(ByDate(rs))) <= multiset(rs)
    ensures forall x, y :: x in multiset(rs) - multiset(RecentTests(ByDate(rs))) && y in RecentTests(ByDate(rs))
              ==> CompletedAt(x) <= CompletedAt(y)
  {
    var sorted := ByDate(rs);
    SortBySorted(rs, CompletedAt, false);
    var kept := LastN(sorted, RecentCount);
    var r := RecentTests(sorted);
    assert r == Reverse(kept);
    assert multiset(sorted) == multiset(rs);
    assert multiset(r) == multiset(kept);
    LastNSubset(sorted, RecentCount);
    LastNAreLargest(sorted, CompletedAt, RecentCount);
    forall x, y | x in multiset(rs) - multiset(r) && y in r ensures CompletedAt(x) <= CompletedAt(y) {
      assert x in multiset(sorted) - multiset(kept);
      assert y in kept by {
        assert y in multiset(r);
      }
    }
  }

  // ------------------------------------------------------------- progression

  /** The UTC day of a millisecond timestamp: what the `YYYY-MM-DD` key names. */
  function DayOf(d: DetailedTestResult): int { d.result.completedAt / MsPerDay }

  function DayEntry(d: DetailedTestResult): (int, DetailedTestResult) { (DayOf(d), d) }

  function OnDay(day: int): DetailedTestResult -> bool
  {
    (d: DetailedTestResult) => DayOf(d) == day
  }

  /** Each day with the rounded mean of one field over that day's results. */
  function DayMeans(g: seq<(int, seq<DetailedTestResult>)>, f: DetailedTestResult -> int): (r: seq<(int, int)>)
    requires forall i :: 0 <= i < |g| ==> |g[i].1| > 0
    ensures |r| == |g|
    ensures forall i :: 0 <= i < |g| ==> r[i] == (g[i].0, MeanRounded(g[i].1, f))
  {
    if |g| == 0 then [] else [(g[0].0, MeanRounded(g[0].1, f))] + DayMeans(g[1..], f)
  }

  lemma DayGroupsNonEmpty(sorted: seq<DetailedTestResult>)
    ensures forall i :: 0 <= i < |GroupBy(Map(sorted, DayEntry))| ==> |GroupBy(Map(sorted, DayEntry))[i].1| > 0
  {
    var g := GroupBy(Map(sorted, DayEntry));
    forall i | 0 <= i < |g| ensures |g[i].1| > 0 {
      GroupByAt(Map(sorted, DayEntry), i);
    }
  }

  /** The per-day progression of one field (`wpmProgression`, `accuracyProgression`). */
  function Progression(sorted: seq<DetailedTestResult>, f: DetailedTestResult -> int): seq<(int, int)>
  {
    DayGroupsNonEmpty(sorted);
    DayMeans(GroupBy(Map(sorted, DayEntry)), f)
  }

  lemma {:induction false} DayValues(s: seq<DetailedTestResult>, day: int)
    ensures ValuesFor(Map(s, DayEntry), day) == Filter(s, OnDay(day))
  {
    if |s| > 0 {
      var init := s[..|s| - 1];
      var last := s[|s| - 1];
      assert s == init + [last];
      DayValues(init, day);
      MapSnoc(init, last, DayEntry);
      assert Map(s, DayEntry)[..|s| - 1] == Map(init, DayEntry);
      FilterSnoc(init, last, OnDay(day));
    }
  }

  lemma DayKeys(sorted: seq<DetailedTestResult>)
    ensures Keys(Map(sorted, DayEntry)) == Map(sorted, DayOf)
  {
  }

  /** One entry per distinct day. */
  lemma ProgressionLength(sorted: seq<DetailedTestResult>, f: DetailedTestResult -> int)
    ensures |Progression(sorted, f)| == |Distinct(Map(sorted, DayOf))|
  {
    var ps := Map(sorted, DayEntry);
    DayKeys(sorted);
    GroupByGroups(ps, 0);
    assert |Keys(GroupBy(ps))| == |GroupBy(ps)|;
  }

  /** The i-th entry: the i-th distinct day, with the rounded mean over that day's results. */
  lemma ProgressionAt(sorted: seq<DetailedTestResult>, f: DetailedTestResult -> int, i: nat)
    requires i < |Progression(sorted, f)|
    ensures |Progression(sorted, f)| == |Distinct(Map(sorted, DayOf))|
    ensures var p := Progression(sorted, f);
      var today := Filter(sorted, OnDay(p[i].0));
      p[i].0 == Distinct(Map(sorted, DayOf))[i] && |today| > 0 && p[i].1 == MeanRounded(today, f)
  {
    ProgressionLength(sorted, f);
    var ps := Map(sorted, DayEntry);
    DayKeys(sorted);
    var g := GroupBy(ps);
    DayGroupsNonEmpty(sorted);
    var p := DayMeans(g, f);
    assert p == Progression(sorted, f);
    GroupByAt(ps, i);
    var day := g[i].0;
    DayValues(sorted, day);
    assert g[i].1 == Filter(sorted, OnDay(day));
    assert p[i] == (day, MeanRounded(g[i].1, f));
  }

  /**
   * One progression entry per distinct day, in the order the days first
   * occur; each holds the rounded mean over exactly that day's results.
   */
  lemma ProgressionPerDay(sorted: seq<DetailedTestResult>, f: DetailedTestResult -> int)
    ensures var days := Distinct(Map(sorted, DayOf));
      var p := Progression(sorted, f);
      && |p| == |days|
      && forall i :: 0 <= i < |p| ==>
           var today := Filter(sorted, OnDay(p[i].0));
           p[i].0 == days[i] && |today| > 0 && p[i].1 == MeanRounded(today, f)
  {
    ProgressionLength(sorted, f);
    var p := Progression(sorted, f);
    forall i | 0 <= i < |p|
      ensures var today := Filter(sorted, OnDay(p[i].0));
        p[i].0 == Distinct(Map(sorted, DayOf))[i] && |today| > 0 && p[i].1 == MeanRounded(today, f)
    {
      ProgressionAt(sorted, f, i);
    }
  }

  // ------------------------------------------------------------------ counts

  /** The `forEach` that fills `testsByLanguage` and `testsByType`. */
  method CountByLanguageAndType(rs: seq<DetailedTestResult>)
    returns (langs: seq<(string, nat)>, types: seq<(TestType, nat)>)
    ensures langs == Tally(Map(rs, LanguageOf))
    ensures types == Tally(Map(rs, TypeOf))
  {
    langs, types := [], [];
    for i := 0 to |rs|
      invariant langs == Tally(Map(rs[..i], LanguageOf))
      invariant types == Tally(Map(rs[..i], TypeOf))
    {
      MapPrefixStep(rs, i, LanguageOf);
      MapPrefixStep(rs, i, TypeOf);
      TallySnoc(Map(rs[..i], LanguageOf), LanguageOf(rs[i]));
      TallySnoc(Map(rs[..i], TypeOf), TypeOf(rs[i]));
      langs := Bump(langs, rs[i].result.language);
      types := Bump(types, rs[i].result.testType);
    }
    assert rs[..|rs|] == rs;
  }

  /** The `forEach` that fills the progression map, day by day. */
  method GroupByDay(sorted: seq<DetailedTestResult>) returns (days: seq<(int, seq<DetailedTestResult>)>)
    ensures days == GroupBy(Map(sorted, DayEntry))
  {
    days := [];
    for i := 0 to |sorted|
      invariant days == GroupBy(Map(sorted[..i], DayEntry))
    {
      MapPrefixStep(sorted, i, DayEntry);
      GroupBySnoc(Map(sorted[..i], DayEntry), DayEntry(sorted[i]));
      days := Push(days, DayOf(sorted[i]), sorted[i]);
    }
    assert sorted[..|sorted|] == sorted;
  }

  // -------------------------------------------------------------- statistics

  /**
   * `calculateStatistics`: the owner's results, sorted by date (the array is
   * sorted in place, so every later pass sees the sorted order).
   */
  method CalculateStatistics(stored: seq<DetailedTestResult>, userId: Option<string>) returns (s: Statistics)
    ensures var rs := GetUserTestResults(stored, userId);
      if |rs| == 0 then s == NoStatistics
      else
        var sorted := ByDate(rs);
        s == Statistics(|rs|, SumReal(sorted, TimeElapsed), MaxOf(sorted, Wpm),
                        MeanRounded(sorted, Wpm), MeanRounded(sorted, Accuracy),
                        Sum(sorted, Errors), Sum(sorted, TotalChars),
                        RecentTests(sorted), Progression(sorted, Wpm), Progression(sorted, Accuracy),
                        Tally(Map(sorted, LanguageOf)), Tally(Map(sorted, TypeOf)))
    ensures SumCounts(s.testsByLanguage) == s.totalTests
    ensures SumCounts(s.testsByType) == s.totalTests
  {
    var results := GetUserTestResults(stored, userId);
    if |results| == 0 {
      return NoStatistics;
    }
    var sorted := ByDate(results);
    var days := GroupByDay(sorted);
    DayGroupsNonEmpty(sorted);
    var langs, types := CountByLanguageAndType(sorted);
    TallySum(Map(sorted, LanguageOf));
    TallySum(Map(sorted, TypeOf));
    s := Statistics(|sorted|, SumReal(sorted, TimeElapsed), MaxOf(sorted, Wpm),
                    MeanRounded(sorted, Wpm), MeanRounded(sorted, Accuracy),
                    Sum(sorted, Errors), Sum(sorted, TotalChars),
                    RecentTests(sorted), DayMeans(days, Wpm), DayMeans(days, Accuracy),
                    langs, types);
  }

  /**
   * `getGlobalStatistics`: every stored result, in stored order (no sort), the
   * last ten stored as the recent tests and no progression.
   */
  method GetGlobalStatistics(stored: seq<DetailedTestResult>) returns (s: Statistics)
    ensures if |stored| == 0 then s == NoStatistics
      else
        s == Statistics(|stored|, SumReal(stored, TimeElapsed), MaxOf(stored, Wpm),
                        MeanRounded(stored, Wpm), MeanRounded(stored, Accuracy),
                        Sum(stored, Errors), Sum(stored, TotalChars),
                        RecentTests(stored), [], [],
                        Tally(Map(stored, LanguageOf)), Tally(Map(stored, TypeOf)))
    ensures SumCounts(s.testsByLanguage) == s.totalTests
    ensures SumCounts(s.testsByType) == s.totalTests
  {
    if |stored| == 0 {
      return NoStatistics;
    }
    var langs, types := CountByLanguageAndType(stored);
    TallySum(Map(stored, LanguageOf));
    TallySum(Map(stored, TypeOf));
    s := Statistics(|stored|, SumReal(stored, TimeElapsed), MaxOf(stored, Wpm),
                    MeanRounded(stored, Wpm), MeanRounded(stored, Accuracy),
                    Sum(stored, Errors), Sum(stored, TotalChars),
                    RecentTests(stored), [], [], langs, types);
  }
}
