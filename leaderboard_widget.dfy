/** The compact leaderboard card: the first few entries of a board, with icons and score labels. */
module LeaderboardWidget {
  import opened Wrappers
  import opened JsMath
  import opened Strings
  import opened StatisticsEngine
  import opened LeaderboardEngine

  const DefaultLimit: int := 5

  /** The widget's icon: the three medals, then a trophy for every later rank. */
  datatype WidgetIcon = Crown | SilverMedal | BronzeMedal | TrophyIcon

  function GetRankIcon(rank: int): (r: WidgetIcon)
    ensures r == Crown <==> rank == 1
    ensures r == SilverMedal <==> rank == 2
    ensures r == BronzeMedal <==> rank == 3
    ensures r == TrophyIcon <==> rank != 1 && rank != 2 && rank != 3
  {
    if rank == 1 then Crown else if rank == 2 then SilverMedal else if rank == 3 then BronzeMedal else TrophyIcon
  }

  /** The score label, with the literal suffixes " WPM", "%" and " tests". */
  function FormatScore(score: int, category: string): (r: string)
    ensures |r| >= |IntToString(score)| && r[..|IntToString(score)|] == IntToString(score)
    ensures category == "wpm" ==> r[|IntToString(score)|..] == " WPM"
    ensures category == "accuracy" || category == "consistency" ==> r[|IntToString(score)|..] == "%"
    ensures category == "tests" ==> r[|IntToString(score)|..] == " tests"
    ensures category !in {"wpm", "accuracy", "consistency", "tests"} ==> r == IntToString(score)
  {
    var n := IntToString(score);
    var suffix := match category
      case "wpm" => " WPM"
      case "accuracy" => "%"
      case "consistency" => "%"
      case "tests" => " tests"
      case _ => "";
    assert (n + suffix)[..|n|] == n && (n + suffix)[|n|..] == suffix;
    n + suffix
  }

  /** What the card shows. */
  datatype WidgetBody = NoDataAvailable | Performers(shown: seq<LeaderboardEntry>)

  /** The first `limit` entries of the board (five when no limit is given), or the empty state. */
  function Body(users: seq<User>, stored: seq<DetailedTestResult>, filters: LeaderboardFilters,
                clock: Clock, sqrt: real -> real, limit: Option<int>): (b: WidgetBody)
    ensures var board := GenerateLeaderboard(users, stored, filters, clock, sqrt);
      b.Performers? ==> b.shown <= board && |b.shown| > 0
    ensures var board := GenerateLeaderboard(users, stored, filters, clock, sqrt);
      limit.None? ==> if |board| == 0 then b.NoDataAvailable? else b.Performers? && |b.shown| == Min(|board|, DefaultLimit)
    ensures var board := GenerateLeaderboard(users, stored, filters, clock, sqrt);
      limit.Some? && limit.value > 0 ==>
        if |board| == 0 then b.NoDataAvailable? else b.Performers? && |b.shown| == Min(|board|, limit.value)
  {
    var top := GetTopPerformers(users, stored, filters, clock, sqrt, Some(limit.GetOr(DefaultLimit)));
    if |top| == 0 then NoDataAvailable else Performers(top)
  }
}
