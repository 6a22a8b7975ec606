/** The statistics page: its empty state, the time format and the per-type bars. */
module StatisticsDashboard {
  import opened Wrappers
  import opened Strings
  import opened Grouping
  import opened TypingEngine
  import opened StatisticsEngine

  /** The page shows its "No Test Data Yet" card exactly when there are no tests. */
  predicate ShowsEmptyState(s: Statistics)
  {
    s.totalTests == 0
  }

  /**
   * The page's first step: the signed-in user's statistics, then the guard.
   * The empty card shows exactly when no stored result belongs to the user.
   */
  method EmptyStateFor(stored: seq<DetailedTestResult>, userId: Option<string>) returns (empty: bool)
    ensures empty <==> forall d :: d in stored ==> d.userId != userId
  {
    var s := CalculateStatistics(stored, userId);
    empty := ShowsEmptyState(s);
    var rs := GetUserTestResults(stored, userId);
    if |rs| == 0 {
      forall d | d in stored
        ensures d.userId != userId
      {
        UserResultsExactly(stored, userId, d);
      }
    } else {
      UserResultsExactly(stored, userId, rs[0]);
    }
  }

  /** JavaScript's `Math.floor` and `%` on a non-integral number of seconds. */
  function Trunc(x: real): int
  {
    if x >= 0.0 then x.Floor else -((-x).Floor)
  }

  function JsRem(x: real, d: real): real
    requires d > 0.0
  {
    x - d * Trunc(x / d) as real
  }

  /** hours = floor(s / 3600), minutes = floor((s % 3600) / 60), seconds = floor(s % 60). */
  function TimeParts(seconds: real): (r: (int, int, int))
    ensures seconds >= 0.0 ==> r.0 >= 0 && 0 <= r.1 < 60 && 0 <= r.2 < 60
    ensures seconds >= 0.0 ==> r.0 * 3600 + r.1 * 60 + r.2 == seconds.Floor
  {
    var hours := (seconds / 3600.0).Floor;
    var minutes := (JsRem(seconds, 3600.0) / 60.0).Floor;
    var secs := JsRem(seconds, 60.0).Floor;
    if seconds >= 0.0 then PartsOfTime(seconds, hours, minutes, secs); (hours, minutes, secs)
    else (hours, minutes, secs)
  }

  lemma {:induction false} PartsOfTime(seconds: real, hours: int, minutes: int, secs: int)
    requires seconds >= 0.0
    requires hours == (seconds / 3600.0).Floor
    requires minutes == (JsRem(seconds, 3600.0) / 60.0).Floor
    requires secs == JsRem(seconds, 60.0).Floor
    ensures hours >= 0 && 0 <= minutes < 60 && 0 <= secs < 60
    ensures hours * 3600 + minutes * 60 + secs == seconds.Floor
  {
    var n := seconds.Floor;
    WholeDivision(seconds, 3600);
    WholeDivision(seconds, 60);
    var inHour := JsRem(seconds, 3600.0);
    assert inHour.Floor == n % 3600;
    WholeDivision(inHour, 60);
    ClockParts(n);
  }

  /** The whole seconds split into hours, minutes and seconds. */
  lemma ClockParts(n: int)
    requires n >= 0
    ensures 0 <= (n % 3600) / 60 < 60
    ensures (n % 3600) % 60 == n % 60
    ensures (n / 3600) * 3600 + ((n % 3600) / 60) * 60 + n % 60 == n
  {
    var h, r := n / 3600, n % 3600;
    var m, s := r / 60, r % 60;
    assert n == 3600 * h + r && 0 <= r < 3600;
    assert r == 60 * m + s && 0 <= s < 60;
    assert n == 60 * (60 * h + m) + s;
    assert n % 60 == s;
  }

  lemma ScaledLe(a: real, b: real, k: real)
    requires k > 0.0 && a * k <= b * k
    ensures a <= b
  {
  }

  lemma ScaledLt(a: real, b: real, k: real)
    requires k > 0.0 && a * k < b * k
    ensures a < b
  {
  }

  lemma CastProduct(a: int, b: int)
    ensures (a * b) as real == a as real * b as real
  {
  }

  /** The floor of a quotient by a whole divisor is the whole part's quotient. */
  lemma FloorOfQuotient(x: real, d: int)
    requires x >= 0.0 && d > 0
    ensures (x / d as real).Floor == x.Floor / d
  {
    var n, k := x.Floor, d as real;
    var q := n / d;
    var y := x / k;
    assert y * k == x;
    var qd := (q * d) as real;
    CastProduct(q, d);
    assert n - q * d < d;
    assert qd <= n as real && (n + 1) as real <= qd + k;
    ScaledLe(q as real, y, k);
    ScaledLt(y, (q + 1) as real, k);
  }

  /** Dividing a non-negative number by a whole divisor: the floor and the remainder come from the whole part. */
  lemma WholeDivision(x: real, d: int)
    requires x >= 0.0 && d > 0
    ensures (x / d as real).Floor == x.Floor / d
    ensures JsRem(x, d as real) == (x.Floor % d) as real + (x - x.Floor as real)
  {
    FloorOfQuotient(x, d);
    var n, q := x.Floor, x.Floor / d;
    assert Trunc(x / d as real) == q;
    CastProduct(q, d);
    assert n == q * d + n % d;
  }

  /** `formatTime`: "Hh Mm" from an hour on, "Mm Ss" below. */
  function FormatTime(seconds: real): (r: string)
    ensures TimeParts(seconds).0 > 0 ==>
      r == IntToString(TimeParts(seconds).0) + "h " + IntToString(TimeParts(seconds).1) + "m"
    ensures TimeParts(seconds).0 <= 0 ==>
      r == IntToString(TimeParts(seconds).1) + "m " + IntToString(TimeParts(seconds).2) + "s"
  {
    var (hours, minutes, secs) := TimeParts(seconds);
    if hours > 0 then IntToString(hours) + "h " + IntToString(minutes) + "m"
    else IntToString(minutes) + "m " + IntToString(secs) + "s"
  }

  /** A per-type bar: the type's share of all tests, in percent. */
  function TypeBar(count: nat, totalTests: nat): (r: real)
    requires totalTests > 0
    ensures 0.0 <= r
    ensures count <= totalTests ==> r <= 100.0
    ensures r == 100.0 <==> count == totalTests
  {
    count as real / totalTests as real * 100.0
  }

  lemma {:induction false} CountAtMostSum<K>(t: seq<(K, nat)>, i: nat)
    requires i < |t|
    ensures t[i].1 <= SumCounts(t)
  {
    if i > 0 {
      CountAtMostSum(t[1..], i - 1);
    }
  }

  /** Every bar of a computed statistics value lies in [0, 100]. */
  lemma TypeBarsArePercentages(s: Statistics, i: nat)
    requires SumCounts(s.testsByType) == s.totalTests
    requires s.totalTests > 0 && i < |s.testsByType|
    ensures 0.0 <= TypeBar(s.testsByType[i].1, s.totalTests) <= 100.0
  {
    CountAtMostSum(s.testsByType, i);
  }
}
