/**
 * The results screen shown after a test: the two rating tiers, the tips,
 * how the save response is reported, and the personal-rank query.
 * Labels are translation keys; the translation itself is not modelled.
 */
module TestResults {
  import opened Wrappers
  import opened Sequences
  import opened TypingEngine
  import opened StatisticsEngine
  import opened LeaderboardEngine
  import AuthReplies

  /** A rating: the translation key of its label and its colour class. */
  datatype Rating = Rating(labelKey: string, color: string)

  /** The WPM tier, 0 (lowest) to 3, by the thresholds 30, 50 and 70. */
  function WpmTier(wpm: int): (t: nat)
    ensures t <= 3
    ensures t == 3 <==> wpm >= 70
    ensures t >= 2 <==> wpm >= 50
    ensures t >= 1 <==> wpm >= 30
  {
    if wpm >= 70 then 3 else if wpm >= 50 then 2 else if wpm >= 30 then 1 else 0
  }

  const WpmRatings: seq<Rating> := [
    Rating("needsPractice", "text-red-500"), Rating("average", "text-yellow-500"),
    Rating("good", "text-blue-500"), Rating("excellent", "text-green-500")]

  /** `getWPMRating`: the first threshold the speed reaches picks the label and colour. */
  function GetWpmRating(wpm: int): (r: Rating)
    ensures wpm >= 70 ==> r == Rating("excellent", "text-green-500")
    ensures 50 <= wpm < 70 ==> r == Rating("good", "text-blue-500")
    ensures 30 <= wpm < 50 ==> r == Rating("average", "text-yellow-500")
    ensures wpm < 30 ==> r == Rating("needsPractice", "text-red-500")
  {
    WpmRatings[WpmTier(wpm)]
  }

  /** The accuracy tier, 0 (lowest) to 3, by the thresholds 80, 90 and 95. */
  function AccuracyTier(accuracy: int): (t: nat)
    ensures t <= 3
    ensures t == 3 <==> accuracy >= 95
    ensures t >= 2 <==> accuracy >= 90
    ensures t >= 1 <==> accuracy >= 80
  {
    if accuracy >= 95 then 3 else if accuracy >= 90 then 2 else if accuracy >= 80 then 1 else 0
  }

  const AccuracyRatings: seq<Rating> := [
    Rating("needsWork", "text-red-500"), Rating("good", "text-yellow-500"),
    Rating("excellent", "text-blue-500"), Rating("perfect", "text-green-500")]

  /** `getAccuracyRating`: the first threshold the accuracy reaches picks the label and colour. */
  function GetAccuracyRating(accuracy: int): (r: Rating)
    ensures accuracy >= 95 ==> r == Rating("perfect", "text-green-500")
    ensures 90 <= accuracy < 95 ==> r == Rating("excellent", "text-blue-500")
    ensures 80 <= accuracy < 90 ==> r == Rating("good", "text-yellow-500")
    ensures accuracy < 80 ==> r == Rating("needsWork", "text-red-500")
  {
    AccuracyRatings[AccuracyTier(accuracy)]
  }

  /** A faster result never gets a lower WPM rating, a more accurate one never a lower accuracy rating. */
  lemma {:induction false} RatingsMonotone(a: int, b: int)
    requires a <= b
    ensures WpmTier(a) <= WpmTier(b)
    ensures AccuracyTier(a) <= AccuracyTier(b)
  {
  }

  /** A tip under the result; each stands for the translation key of its text. */
  datatype Tip =
    | FocusOnAccuracy | PracticeTouchTyping | TakeYourTime
    | RegularPractice | TryDifferentLanguages | CheckLeaderboard

  const TipItems: seq<Tip> := [
    FocusOnAccuracy, PracticeTouchTyping, TakeYourTime, RegularPractice, TryDifferentLanguages, CheckLeaderboard]

  /** The tips under the result, in the order shown. */
  function Tips(r: TestResult): seq<Tip>
  {
    Conditional([r.accuracy < 90, r.wpm < 40, r.errors > 5, true, true, true], TipItems)
  }

  /** Each tip is shown exactly when its condition holds; the last three always are. */
  lemma TipsShown(r: TestResult)
    ensures FocusOnAccuracy in Tips(r) <==> r.accuracy < 90
    ensures PracticeTouchTyping in Tips(r) <==> r.wpm < 40
    ensures TakeYourTime in Tips(r) <==> r.errors > 5
    ensures RegularPractice in Tips(r) && TryDifferentLanguages in Tips(r) && CheckLeaderboard in Tips(r)
  {
    var show := [r.accuracy < 90, r.wpm < 40, r.errors > 5, true, true, true];
    assert Tips(r) == Conditional(show, TipItems);
    ConditionalMember(show, TipItems, 0);
    ConditionalMember(show, TipItems, 1);
    ConditionalMember(show, TipItems, 2);
    ConditionalMember(show, TipItems, 3);
    ConditionalMember(show, TipItems, 4);
    ConditionalMember(show, TipItems, 5);
  }

  /** What saving the result answered. */
  datatype SaveResponse = SaveResponse(success: bool, message: Option<string>, status: Option<int>)

  /** The toast that reports it. */
  datatype SaveNotice = Saved(message: Option<string>) | LoginWarning(text: string) | SaveFailed(text: string)

  const LogInToSave: string := "Please log in to save your results!"
  const UnexpectedError: string := "Unexpected error happened"

  function SaveNoticeFor(response: SaveResponse): (n: SaveNotice)
    ensures n.Saved? <==> response.success
    ensures n.LoginWarning? <==> !response.success && response.status == Some(401)
    ensures n.Saved? ==> n.message == response.message
    ensures n.LoginWarning? ==> n.text == LogInToSave
    ensures n.SaveFailed? ==> n.text == AuthReplies.ErrorOr(response.message, UnexpectedError)
  {
    if response.success then Saved(response.message)
    else
      match response.status
      case Some(code) =>
        if code != 401 then SaveFailed(AuthReplies.ErrorOr(response.message, UnexpectedError))
        else LoginWarning(LogInToSave)
      case None => SaveFailed(AuthReplies.ErrorOr(response.message, UnexpectedError))
  }

  /** The filters the results screen ranks by. */
  const RankFilters: LeaderboardFilters := Filters("wpm", "all-time", "all", "all")

  /** The signed-in user's WPM rank over all time and all tests; none when nobody is signed in. */
  function ResultsRank(userId: Option<string>, users: seq<User>, stored: seq<DetailedTestResult>,
                       clock: Clock, sqrt: real -> real): (r: Option<LeaderboardEntry>)
    ensures userId.None? ==> r.None?
    ensures userId.Some? ==> r == GetUserRank(userId.value, users, stored, RankFilters, clock, sqrt)
    ensures r.Some? ==> userId == Some(r.value.userId) && r.value.rank >= 1
  {
    match userId
    case None => None
    case Some(id) => GetUserRank(id, users, stored, RankFilters, clock, sqrt)
  }
}
