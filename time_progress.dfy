/**
 * The countdown bar of a time test.  The interval callback is modelled as
 * `Tick`, called with the clock's reading; the two effects (which share
 * their dependencies) as `RunEffects`, called at mount and whenever
 * `isActive` or `testValue` changes.
 */
module TimeProgress {
  import opened Wrappers
  import opened JsMath

  /** `Math.max(0, testValue * 1000 - elapsed)`: the milliseconds still to go. */
  function Remaining(testValue: int, elapsed: int): (r: int)
    ensures 0 <= r
    ensures testValue >= 0 && elapsed >= 0 ==> r <= testValue * 1000
    ensures r == 0 <==> elapsed >= testValue * 1000
    ensures r > 0 ==> r + elapsed == testValue * 1000
  {
    Max(0, testValue * 1000 - elapsed)
  }

  /** `Math.ceil(remaining / 1000)`: the whole seconds shown. */
  function SecondsLeft(testValue: int, elapsed: int): (r: int)
    ensures 0 <= r
    ensures testValue >= 0 && elapsed >= 0 ==> r <= testValue
    ensures r == 0 <==> elapsed >= testValue * 1000
  {
    CeilDiv(Remaining(testValue, elapsed), 1000)
  }

  /** The seconds shown never go up as time passes. */
  lemma {:induction false} SecondsLeftMonotone(testValue: int, e1: int, e2: int)
    requires e1 <= e2
    ensures SecondsLeft(testValue, e2) <= SecondsLeft(testValue, e1)
  {
    var r1, r2 := Remaining(testValue, e1), Remaining(testValue, e2);
    var s1, s2 := SecondsLeft(testValue, e1), SecondsLeft(testValue, e2);
    assert r2 <= r1;
  }

  function RealMin(a: real, b: real): real { if a <= b then a else b }

  /** `Math.min(elapsed / (testValue * 1000) * 100, 100)`. */
  function ProgressPercent(elapsed: int, testValue: int): (r: real)
    requires testValue > 0
    ensures r <= 100.0
    ensures elapsed >= 0 ==> 0.0 <= r
    ensures r == 100.0 <==> elapsed >= testValue * 1000
  {
    ShareReachesWhole(elapsed as real, (testValue * 1000) as real);
    RealMin(elapsed as real / (testValue * 1000) as real * 100.0, 100.0)
  }

  lemma ShareReachesWhole(part: real, whole: real)
    requires whole > 0.0
    ensures part / whole * 100.0 >= 100.0 <==> part >= whole
    ensures part >= 0.0 ==> part / whole * 100.0 >= 0.0
  {
    var x := part / whole;
    assert x * whole == part;
    if x >= 1.0 {
      assert x * whole >= 1.0 * whole;
    } else {
      assert x * whole < 1.0 * whole;
    }
  }

  class TimeBar {
    var testValue: int
    var active: bool
    var startTime: Option<int>
    var currentTime: int
    var timeLeft: int
    /** The clock reading the running interval measures from. */
    var intervalStart: int
    /** Whether an interval is set. */
    var ticking: bool
    /** How many times the completion callback has been scheduled. */
    var completions: nat

    ghost predicate Valid()
      reads this
    {
      && (ticking ==> active && startTime == Some(intervalStart))
      && (!active ==> startTime.None? && currentTime == 0 && timeLeft == testValue && !ticking)
    }

    /** Mounting: the initial state, then the effects' first run. */
    constructor (isActive: bool, testValue: int, now: int)
      ensures Valid()
      ensures this.testValue == testValue && active == isActive && completions == 0
      ensures timeLeft == testValue
      ensures isActive ==> ticking && startTime == Some(now) && currentTime == now && intervalStart == now
    {
      this.testValue := testValue;
      active := isActive;
      startTime := None;
      currentTime := 0;
      timeLeft := testValue;
      intervalStart := 0;
      ticking := false;
      completions := 0;
      new;
      RunEffects(isActive, testValue, now);
    }

    /**
     * The effects after a change of `isActive` or `testValue`: the old
     * interval is cleared; an active bar without a start time starts one at
     * `now`; an inactive bar is reset.
     */
    method RunEffects(isActive: bool, newTestValue: int, now: int)
      modifies this
      ensures Valid()
      ensures testValue == newTestValue && active == isActive && completions == old(completions)
      ensures isActive && !Truthy(old(startTime)) ==>
        ticking && startTime == Some(now) && currentTime == now && intervalStart == now && timeLeft == old(timeLeft)
      ensures isActive && Truthy(old(startTime)) ==>
        !ticking && startTime == old(startTime) && currentTime == old(currentTime) && timeLeft == old(timeLeft)
      ensures !isActive ==> startTime.None? && currentTime == 0 && timeLeft == newTestValue && !ticking
    {
      ticking := false;
      testValue := newTestValue;
      active := isActive;
      if isActive && !Truthy(startTime) {
        startTime := Some(now);
        currentTime := now;
        intervalStart := now;
        ticking := true;
      }
      if !isActive {
        startTime := None;
        currentTime := 0;
        timeLeft := newTestValue;
      }
    }

    /** One firing of the interval: the clock and the seconds left are updated, and at zero the interval stops and completion is scheduled. */
    method Tick(now: int)
      requires Valid() && ticking
      modifies this
      ensures Valid()
      ensures currentTime == now
      ensures timeLeft == SecondsLeft(testValue, now - intervalStart)
      ensures ticking <==> Remaining(testValue, now - intervalStart) > 0
      ensures completions == old(completions) + (if ticking then 0 else 1)
      ensures testValue == old(testValue) && active == old(active) && startTime == old(startTime)
      ensures intervalStart == old(intervalStart)
    {
      var elapsed := now - intervalStart;
      var remaining := Max(0, testValue * 1000 - elapsed);
      currentTime := now;
      timeLeft := CeilDiv(remaining, 1000);
      if remaining <= 0 {
        ticking := false;
        completions := completions + 1;
      }
    }

    /** The bar's value: 0 unless active with a start time, else the elapsed share capped at 100. */
    function Progress(): (r: real)
      reads this
      requires testValue > 0
      ensures !(active && Truthy(startTime)) ==> r == 0.0
      ensures active && Truthy(startTime) ==> r == ProgressPercent(currentTime - startTime.value, testValue)
      ensures r <= 100.0
    {
      if Truthy(startTime) && active then ProgressPercent(currentTime - startTime.value, testValue) else 0.0
    }
  }
}
