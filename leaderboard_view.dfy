/**
 * The leaderboard page: its filter state, the rank icons, the score labels,
 * the displayed top of the board and the improvement tips.
 */
module LeaderboardView {
  import opened Wrappers
  import opened Sequences
  import opened JsMath
  import opened Strings
  import opened StatisticsEngine
  import opened LeaderboardEngine

  const DefaultFilters: LeaderboardFilters := Filters("wpm", "all-time", "all", "all")

  /** The name of a filter field, as `keyof LeaderboardFilters`. */
  datatype FilterKey = CategoryKey | PeriodKey | TestTypeKey | LanguageKey

  function FilterField(f: LeaderboardFilters, key: FilterKey): string
  {
    match key
    case CategoryKey => f.category
    case PeriodKey => f.period
    case TestTypeKey => f.testType
    case LanguageKey => f.language
  }

  /** `{ ...prev, [key]: value }`: the named field replaced and every other field kept. */
  function WithFilter(f: LeaderboardFilters, key: FilterKey, value: string): (r: LeaderboardFilters)
    ensures FilterField(r, key) == value
    ensures forall k :: k != key ==> FilterField(r, k) == FilterField(f, k)
  {
    match key
    case CategoryKey => f.(category := value)
    case PeriodKey => f.(period := value)
    case TestTypeKey => f.(testType := value)
    case LanguageKey => f.(language := value)
  }

  /** Setting a field to the value it already has changes nothing; setting it twice keeps the last value. */
  lemma {:induction false} WithFilterLaws(f: LeaderboardFilters, key: FilterKey, v: string, w: string)
    ensures WithFilter(f, key, FilterField(f, key)) == f
    ensures WithFilter(WithFilter(f, key, v), key, w) == WithFilter(f, key, w)
  {
    match key
    case CategoryKey =>
    case PeriodKey =>
    case TestTypeKey =>
    case LanguageKey =>
  }

  /** The page's filter state. */
  class LeaderboardPage {
    var filters: LeaderboardFilters

    constructor ()
      ensures filters == DefaultFilters
    {
      filters := DefaultFilters;
    }

    /** `updateFilter`: a functional state update, so it always starts from the latest filters. */
    method UpdateFilter(key: FilterKey, value: string)
      modifies this
      ensures filters == WithFilter(old(filters), key, value)
    {
      filters := WithFilter(filters, key, value);
    }
  }

  /** The personal rank under the current filters; none without a signed-in user. */
  function PersonalRank(userId: Option<string>, users: seq<User>, stored: seq<DetailedTestResult>,
                        filters: LeaderboardFilters, clock: Clock, sqrt: real -> real): (r: Option<LeaderboardEntry>)
    ensures userId.None? ==> r.None?
    ensures userId.Some? ==> r == GetUserRank(userId.value, users, stored, filters, clock, sqrt)
    ensures r.Some? ==> userId == Some(r.value.userId)
  {
    match userId
    case None => None
    case Some(id) => GetUserRank(id, users, stored, filters, clock, sqrt)
  }

  datatype RankIcon = Crown | SilverMedal | BronzeMedal | TrophyIcon | StarIcon

  /** The page's icon: the three medals, a trophy for the rest of the top ten, a star below. */
  function GetRankIcon(rank: int): (r: RankIcon)
    ensures r == Crown <==> rank == 1
    ensures r == SilverMedal <==> rank == 2
    ensures r == BronzeMedal <==> rank == 3
    ensures r == TrophyIcon <==> rank <= 10 && rank != 1 && rank != 2 && rank != 3
    ensures r == StarIcon <==> rank > 10
  {
    if rank == 1 then Crown
    else if rank == 2 then SilverMedal
    else if rank == 3 then BronzeMedal
    else if rank <= 10 then TrophyIcon
    else StarIcon
  }

  /**
   * The score label: the number, then the translated "wpm" or "tests" word,
   * or a percent sign, by category; the bare number for other categories.
   */
  function FormatScore(score: int, category: string, wpmWord: string, testsWord: string): (r: string)
    ensures |r| >= |IntToString(score)| && r[..|IntToString(score)|] == IntToString(score)
    ensures category == "wpm" ==> r[|IntToString(score)|..] == " " + wpmWord
    ensures category == "accuracy" || category == "consistency" ==> r[|IntToString(score)|..] == "%"
    ensures category == "tests" ==> r[|IntToString(score)|..] == " " + testsWord
    ensures category !in {"wpm", "accuracy", "consistency", "tests"} ==> r == IntToString(score)
  {
    var n := IntToString(score);
    var suffix := match category
      case "wpm" => " " + wpmWord
      case "accuracy" => "%"
      case "consistency" => "%"
      case "tests" => " " + testsWord
      case _ => "";
    assert (n + suffix)[..|n|] == n && (n + suffix)[|n|..] == suffix;
    n + suffix
  }

  /** The number at the front of a label reads back as the score. */
  lemma {:induction false} FormatScoreReadsBack(score: nat, category: string, wpmWord: string, testsWord: string)
    ensures DigitsValue(FormatScore(score, category, wpmWord, testsWord)[..|NatToString(score)|]) == score
  {
    NatToStringRoundTrip(score);
  }

  const ShownRankings: nat := 50

  /** What the rankings card shows. */
  datatype RankingsPanel = NoRankingsYet | Rankings(shown: seq<LeaderboardEntry>)

  function Panel(board: seq<LeaderboardEntry>): (p: RankingsPanel)
    ensures p.NoRankingsYet? <==> |board| == 0
    ensures p.Rankings? ==> p.shown <= board && |p.shown| == Min(|board|, ShownRankings)
  {
    if |board| == 0 then NoRankingsYet else Rankings(board[..Min(|board|, ShownRankings)])
  }

  /** An improvement tip; each stands for the translation key of its text. */
  datatype RankTip =
    | PracticeRegularlyToImproveConsistency | FocusOnAccuracy | CompleteMoreTestsToEstablishBetterAverage
    | WorkOnConsistency | TryDifferentLanguagesAndTestTypes | ChallengeYourselfWithLongerTests

  const RankTipItems: seq<RankTip> := [
    PracticeRegularlyToImproveConsistency, FocusOnAccuracy, CompleteMoreTestsToEstablishBetterAverage,
    WorkOnConsistency, TryDifferentLanguagesAndTestTypes, ChallengeYourselfWithLongerTests]

  /** The improvement tips under the personal rank, in the order shown. */
  function RankTips(entry: LeaderboardEntry): seq<RankTip>
  {
    Conditional([entry.rank > 10, entry.averageAccuracy < 95, entry.testsCompleted < 20,
                 entry.consistencyScore < 80, true, true], RankTipItems)
  }

  /** Each tip is shown exactly when its condition holds; the last two always are. */
  lemma RankTipsShown(entry: LeaderboardEntry)
    ensures PracticeRegularlyToImproveConsistency in RankTips(entry) <==> entry.rank > 10
    ensures FocusOnAccuracy in RankTips(entry) <==> entry.averageAccuracy < 95
    ensures CompleteMoreTestsToEstablishBetterAverage in RankTips(entry) <==> entry.testsCompleted < 20
    ensures WorkOnConsistency in RankTips(entry) <==> entry.consistencyScore < 80
    ensures TryDifferentLanguagesAndTestTypes in RankTips(entry)
    ensures ChallengeYourselfWithLongerTests in RankTips(entry)
  {
    var show := [entry.rank > 10, entry.averageAccuracy < 95, entry.testsCompleted < 20,
                 entry.consistencyScore < 80, true, true];
    assert RankTips(entry) == Conditional(show, RankTipItems);
    ConditionalMember(show, RankTipItems, 0);
    ConditionalMember(show, RankTipItems, 1);
    ConditionalMember(show, RankTipItems, 2);
    ConditionalMember(show, RankTipItems, 3);
    ConditionalMember(show, RankTipItems, 4);
    ConditionalMember(show, RankTipItems, 5);
  }
}
