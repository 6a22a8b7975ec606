/**
 * The typing screen as a state machine.  The component's state hooks are the
 * fields of `TypingTest`; every event handler (an input change, a timer tick,
 * the reset button) is a method that ends with a render.
 *
 * Two React details shape the behaviour and are kept:
 *  - `completeTest` reads its input, text and error count through refs, and
 *    the refs are refreshed only when the component renders.  Inside an event
 *    the refs therefore still hold the values of the previous render.
 *  - `startTest` is memoised on `isActive` and `testType` only, so the
 *    `completeTest` its timer calls is the one from the render in which
 *    `isActive` last changed.  That closure's `testComplete` is kept as
 *    `startTestSeesComplete`, and the timer started from it keeps
 *    `tickSeesComplete`.
 */
module TypingSession {
  import opened Wrappers
  import opened JsMath
  import opened Strings
  import opened TypingEngine

  // ------------------------------------------------------------------ errors

  /**
   * The number of positions in [lo, hi) where `value` differs from the
   * reference characters; a position past the end of the reference always
   * differs (`value[i] !== undefined`).
   */
  function Mismatches(value: string, reference: string, lo: int, hi: int): nat
    requires 0 <= lo <= hi <= |value|
    decreases hi - lo
  {
    if lo == hi then 0
    else
      (if hi - 1 >= |reference| || value[hi - 1] != reference[hi - 1] then 1 else 0)
      + Mismatches(value, reference, lo, hi - 1)
  }

  /** The error count of an input change (typing-test.tsx:217-238). */
  function NextErrors(errors: int, lastLength: int, value: string, reference: string): (r: int)
    requires 0 <= lastLength
    ensures |value| > lastLength ==> r == errors + Mismatches(value, reference, lastLength, |value|)
    ensures |value| < lastLength ==> r == Mismatches(value, reference, 0, |value|)
    ensures |value| == lastLength ==> r == errors
  {
    if |value| > lastLength then errors + Mismatches(value, reference, lastLength, |value|)
    else if |value| < lastLength then Mismatches(value, reference, 0, |value|)
    else errors
  }

  /** The incremental error loop of an input change: mismatches in [lo, hi). */
  method CountMismatches(value: string, reference: string, lo: int, hi: int) returns (n: int)
    requires 0 <= lo <= hi <= |value|
    ensures n == Mismatches(value, reference, lo, hi)
  {
    n := 0;
    var i := lo;
    while i < hi
      invariant lo <= i <= hi
      invariant n == Mismatches(value, reference, lo, i)
    {
      if i >= |reference| || value[i] != reference[i] {
        n := n + 1;
      }
      i := i + 1;
    }
  }

  lemma {:induction false} MismatchesSplit(value: string, reference: string, lo: int, mid: int, hi: int)
    requires 0 <= lo <= mid <= hi <= |value|
    ensures Mismatches(value, reference, lo, hi)
         == Mismatches(value, reference, lo, mid) + Mismatches(value, reference, mid, hi)
    decreases hi - mid
  {
    if mid < hi {
      MismatchesSplit(value, reference, lo, mid, hi - 1);
    }
  }

  lemma {:induction false} MismatchesSamePrefix(v: string, w: string, reference: string, hi: int)
    requires 0 <= hi <= |v| && hi <= |w| && v[..hi] == w[..hi]
    ensures Mismatches(v, reference, 0, hi) == Mismatches(w, reference, 0, hi)
  {
    if hi > 0 {
      assert v[hi - 1] == v[..hi][hi - 1] == w[..hi][hi - 1] == w[hi - 1];
      assert v[..hi - 1] == v[..hi][..hi - 1];
      assert w[..hi - 1] == w[..hi][..hi - 1];
      MismatchesSamePrefix(v, w, reference, hi - 1);
    }
  }

  /** The mismatches of the whole of `value`: what `errors` is meant to count. */
  function ExactErrors(value: string, reference: string): nat
  {
    Mismatches(value, reference, 0, |value|)
  }

  /**
   * When the count was exact before, it stays exact after appending to the
   * input or shortening it (the reference unchanged).
   */
  lemma NextErrorsExact(before: string, value: string, reference: string)
    requires value[..Min(|before|, |value|)] == before[..Min(|before|, |value|)]
    requires |value| == |before| ==> value == before
    ensures NextErrors(ExactErrors(before, reference), |before|, value, reference) == ExactErrors(value, reference)
  {
    if |value| > |before| {
      MismatchesSplit(value, reference, 0, |before|, |value|);
      assert before[..|before|] == before;
      MismatchesSamePrefix(value, before, reference, |before|);
    }
  }

  /** A same-length edit is not recounted: replacing a correct character by a wrong one keeps 0 errors. */
  lemma SameLengthEditNotCounted()
    ensures ExactErrors("a", "a") == 0
    ensures NextErrors(ExactErrors("a", "a"), 1, "b", "a") == 0
    ensures ExactErrors("b", "a") == 1
  {
  }

  /** Each input extends or shortens the one before it, or repeats it. */
  ghost predicate AppendsAndTruncations(inputs: seq<string>)
  {
    forall k :: 0 < k < |inputs| ==>
      var m := Min(|inputs[k - 1]|, |inputs[k]|);
      inputs[k][..m] == inputs[k - 1][..m] && (|inputs[k]| == |inputs[k - 1]| ==> inputs[k] == inputs[k - 1])
  }

  /** The error count after feeding `inputs` in order, starting from an empty input. */
  function ErrorsAfter(inputs: seq<string>, reference: string): int
  {
    if |inputs| == 0 then 0
    else NextErrors(ErrorsAfter(inputs[..|inputs| - 1], reference),
                    if |inputs| == 1 then 0 else |inputs[|inputs| - 2]|,
                    inputs[|inputs| - 1], reference)
  }

  /**
   * Typing forward and deleting from the end, against a fixed reference,
   * keeps `errors` equal to the number of wrong positions of the input.
   */
  lemma {:induction false} ErrorsAfterExact(inputs: seq<string>, reference: string)
    requires |inputs| > 0 && AppendsAndTruncations(inputs)
    ensures ErrorsAfter(inputs, reference) == ExactErrors(inputs[|inputs| - 1], reference)
  {
    var n := |inputs|;
    if n == 1 {
      NextErrorsExact("", inputs[0], reference);
    } else {
      var init := inputs[..n - 1];
      ErrorsAfterExact(init, reference);
      assert init[|init| - 1] == inputs[n - 2];
      NextErrorsExact(inputs[n - 2], inputs[n - 1], reference);
    }
  }

  // ----------------------------------------------------------------- results

  /** The number of positions below `hi` where the input matches the text. */
  function Matches(input: string, text: string, hi: int): (n: nat)
    requires 0 <= hi <= |input| && hi <= |text|
    ensures n <= hi
  {
    if hi == 0 then 0 else (if input[hi - 1] == text[hi - 1] then 1 else 0) + Matches(input, text, hi - 1)
  }

  /** On a typed prefix that agrees with the text every position matches. */
  lemma {:induction false} MatchesAgreeing(input: string, text: string, hi: int)
    requires 0 <= hi <= |input| && hi <= |text|
    requires forall i :: 0 <= i < hi ==> input[i] == text[i]
    ensures Matches(input, text, hi) == hi
  {
    if hi > 0 {
      MatchesAgreeing(input, text, hi - 1);
    }
  }

  /** Within the text, every typed position either matches or counts as an error. */
  lemma {:induction false} MatchesAndMismatches(input: string, text: string, hi: int)
    requires 0 <= hi <= |input| && hi <= |text|
    ensures Matches(input, text, hi) + Mismatches(input, text, 0, hi) == hi
  {
    if hi > 0 {
      MatchesAndMismatches(input, text, hi - 1);
    }
  }

  /** The correct-character loop of `completeTest`. */
  method CountCorrect(input: string, text: string) returns (n: int)
    ensures n == Matches(input, text, Min(|input|, |text|))
  {
    n := 0;
    var i := 0;
    while i < |input| && i < |text|
      invariant 0 <= i <= Min(|input|, |text|)
      invariant n == Matches(input, text, i)
    {
      if input[i] == text[i] {
        n := n + 1;
      }
      i := i + 1;
    }
  }

  /**
   * Seconds counted for a result (typing-test.tsx:117-122 and 137-139).  A
   * start time of 0 is falsy, so it counts as no start.
   */
  function ElapsedSeconds(testType: TestType, testValue: int, startTime: Option<int>, now: int): (r: real)
    ensures r != 0.0
    ensures testType == Time ==> r == if testValue == 0 then 1.0 else testValue as real
    ensures testType == Words && !Truthy(startTime) ==> r == 1.0
    ensures testType == Words && Truthy(startTime) ==>
      r >= 1.0 && r >= (now - startTime.value) as real / 1000.0
      && (r == 1.0 || r == (now - startTime.value) as real / 1000.0)
  {
    var t := if testType == Time then testValue as real
             else if Truthy(startTime) then
               (var s := (now - startTime.value) as real / 1000.0; if s >= 1.0 then s else 1.0)
             else 1.0;
    if t == 0.0 then 1.0 else t
  }

  /**
   * The record `completeTest` builds from the input and text it read, the
   * error count, the elapsed seconds and the completion time.
   */
  function Record(input: string, text: string, errors: int, timeElapsed: real,
                  testType: TestType, testValue: int, language: string, now: int): (r: TestResult)
    requires timeElapsed != 0.0
    ensures r.correctChars == Matches(input, text, Min(|input|, |text|))
    ensures r.totalChars == Max(|input|, 1) && 0 <= r.correctChars <= |input|
    ensures r.accuracy == CalculateAccuracy(r.correctChars, r.totalChars) && 0 <= r.accuracy <= 100
    ensures r.wpm == CalculateWPM(r.correctChars, timeElapsed) && r.timeElapsed == timeElapsed
    ensures r.errors == errors && r.testType == testType && r.testValue == testValue
    ensures r.language == language && r.completedAt == now
  {
    var correct := Matches(input, text, Min(|input|, |text|));
    var total := if |input| == 0 then 1 else |input|;
    AccuracyIsPercentage(correct, total);
    TestResult(CalculateWPM(correct, timeElapsed), CalculateAccuracy(correct, total), errors,
               correct, total, timeElapsed, testType, testValue, language, now)
  }

  /** `value.trim().split(" ").length`: one more than the single spaces inside the trimmed input. */
  function WordsTyped(value: string): (r: int)
    ensures r == Occurrences(Trim(value), ' ') + 1
    ensures r >= 1
  {
    |Split(Trim(value), ' ')|
  }

  /** How `renderText` shows one character of the text. */
  datatype CharState = Correct | Incorrect | Cursor | Pending

  function CountCorrectStates(states: seq<CharState>, hi: int): nat
    requires 0 <= hi <= |states|
  {
    if hi == 0 then 0 else (if states[hi - 1] == Correct then 1 else 0) + CountCorrectStates(states, hi - 1)
  }

  /** The error loops of an input change (typing-test.tsx:217-238). */
  method CountErrors(errors: int, lastLength: int, value: string, reference: string) returns (r: int)
    requires 0 <= lastLength
    ensures r == NextErrors(errors, lastLength, value, reference)
  {
    r := errors;
    if |value| > lastLength {
      var newErrors := CountMismatches(value, reference, lastLength, |value|);
      if newErrors > 0 {
        r := errors + newErrors;
      }
    } else if |value| < lastLength {
      r := CountMismatches(value, reference, 0, |value|);
    }
  }

  /** The time-mode extension: `generateAdditionalText(language, text, text.length + 200)`. */
  method ExtendNearEnd(samples: seq<string>, text: string, draws: nat -> nat) returns (r: string)
    requires |samples| > 0
    ensures |r| >= |text| + 200 && r[..|text|] == text
  {
    ghost var added;
    r, added := ExtendTextFrom(samples, text, |text| + 200, draws);
    JoinPrefix(text, added);
  }

  // ------------------------------------------------------------------ session

  /** The component's state hooks (typing-test.tsx:35-42). */
  datatype Screen = Screen(
    text: string,
    userInput: string,
    isActive: bool,
    timeLeft: int,
    startTime: Option<int>,
    errors: int,
    testComplete: bool,
    testResult: Option<TestResult>)

  class TypingTest {
    const testType: TestType
    const testValue: int
    const language: string
    const userId: Option<string>
    /** The language's sample texts, which every drawn text comes from. */
    const samples: seq<string>

    var screen: Screen
    /**
     * The state the last render saw.  `userInputRef`, `textRef` and
     * `errorsRef` are its `userInput`, `text` and `errors`.
     */
    var rendered: Screen
    /** `textCharsRef`: the characters errors are counted against. */
    var textChars: string
    var lastCheckedIndex: int
    /** `intervalRef`: a running timer, holding the `testComplete` its `completeTest` saw. */
    var interval: Option<bool>
    /** The `testComplete` seen by the `completeTest` of the memoised `startTest`. */
    var startTestSeesComplete: bool
    /** Results handed to `saveTestResult`, with the user id given. */
    var saved: seq<(TestResult, Option<string>)>

    /** The time shown while idle. */
    function IdleTimeLeft(): int
    {
      if testType == Time then testValue else 0
    }

    /** The word count a drawn text is asked for: the test value in word mode. */
    function WordCount(): Option<int>
    {
      if testType == Words then Some(testValue) else None
    }

    ghost predicate Valid()
      reads this
    {
      && |samples| > 0
      && rendered == screen
      && lastCheckedIndex == |screen.userInput|
      && screen.errors >= 0
      && (screen.testComplete ==> !screen.isActive)
      && (screen.testResult.Some? <==> screen.testComplete)
      && (interval.Some? <==> screen.isActive && testType == Time)
      && (screen.isActive ==> screen.startTime.Some?)
      && (!screen.isActive && !screen.testComplete ==>
            screen.userInput == "" && screen.errors == 0 && screen.startTime.None?
            && screen.timeLeft == IdleTimeLeft())
    }

    /**
     * The screen after mounting: the mount effect draws `mountText` and keeps
     * its characters as the error reference, then `resetTest` draws
     * `resetText`, which is the text shown.
     */
    constructor(testType: TestType, testValue: int, language: string, userId: Option<string>,
                samples: seq<string>, mountText: string, resetText: string)
      requires |samples| > 0
      ensures Valid()
      ensures this.testType == testType && this.testValue == testValue && this.language == language
      ensures this.userId == userId && this.samples == samples
      ensures screen == Screen(resetText, "", false, IdleTimeLeft(), None, 0, false, None)
      ensures textChars == mountText && !startTestSeesComplete && saved == []
    {
      this.testType := testType;
      this.testValue := testValue;
      this.language := language;
      this.userId := userId;
      this.samples := samples;
      var idle := Screen(resetText, "", false, if testType == Time then testValue else 0, None, 0, false, None);
      screen := idle;
      rendered := idle;
      textChars := mountText;
      lastCheckedIndex := 0;
      interval := None;
      startTestSeesComplete := false;
      saved := [];
    }

    /** Re-render: refresh the refs, and re-create `startTest` when `isActive` changed. */
    method Render()
      modifies this
      ensures rendered == screen
      ensures startTestSeesComplete ==
        if screen.isActive != old(rendered).isActive then screen.testComplete else old(startTestSeesComplete)
      ensures screen == old(screen) && textChars == old(textChars) && lastCheckedIndex == old(lastCheckedIndex)
      ensures interval == old(interval) && saved == old(saved)
    {
      if screen.isActive != rendered.isActive {
        startTestSeesComplete := screen.testComplete;
      }
      rendered := screen;
    }

    /** `startTest`: go active, note the start time and, in time mode, start the timer. */
    method StartTest(now: int)
      modifies this
      ensures rendered.isActive ==> screen == old(screen) && interval == old(interval)
      ensures !rendered.isActive ==> screen == old(screen).(isActive := true, startTime := Some(now))
      ensures !rendered.isActive ==>
        interval == if testType == Time then Some(startTestSeesComplete) else old(interval)
      ensures rendered == old(rendered) && textChars == old(textChars) && lastCheckedIndex == old(lastCheckedIndex)
      ensures startTestSeesComplete == old(startTestSeesComplete) && saved == old(saved)
    {
      if rendered.isActive {
        return;
      }
      screen := screen.(isActive := true, startTime := Some(now));
      if testType == Time {
        interval := Some(startTestSeesComplete);
      }
    }

    /**
     * `completeTest` as a closure that saw `sawComplete` and `sawStart`: it
     * reads the input, text and errors through the refs and, unless it saw a
     * completed test, stops the test, clears the timer and records and saves
     * the result.
     */
    method CompleteTest(sawComplete: bool, sawStart: Option<int>, now: int)
      modifies this
      ensures sawComplete ==> screen == old(screen) && interval == old(interval) && saved == old(saved)
      ensures !sawComplete ==>
        var r := Record(rendered.userInput, rendered.text, rendered.errors,
                        ElapsedSeconds(testType, testValue, sawStart, now), testType, testValue, language, now);
        screen == old(screen).(isActive := false, testComplete := true, testResult := Some(r))
        && interval.None? && saved == old(saved) + [(r, userId)]
      ensures rendered == old(rendered) && textChars == old(textChars) && lastCheckedIndex == old(lastCheckedIndex)
      ensures startTestSeesComplete == old(startTestSeesComplete)
    {
      var input := rendered.userInput;
      var txt := rendered.text;
      var errs := rendered.errors;
      if sawComplete {
        return;
      }
      var timeElapsed: real;
      if testType == Time {
        timeElapsed := testValue as real;
      } else {
        timeElapsed := if Truthy(sawStart) then
                         (var s := (now - sawStart.value) as real / 1000.0; if s >= 1.0 then s else 1.0)
                       else 1.0;
      }
      var correctChars := CountCorrect(input, txt);
      var totalChars := |input|;
      if totalChars == 0 {
        totalChars := 1;
      }
      if timeElapsed == 0.0 {
        timeElapsed := 1.0;
      }
      var wpm := CalculateWPM(correctChars, timeElapsed);
      var accuracy := CalculateAccuracy(correctChars, totalChars);
      var result := TestResult(wpm, accuracy, errs, correctChars, totalChars, timeElapsed,
                               testType, testValue, language, now);
      screen := screen.(isActive := false, testComplete := true, testResult := Some(result));
      interval := None;
      saved := saved + [(result, userId)];
    }

    /**
     * `handleInputChange` with the input's new value at time `now`; `draws`
     * are the random numbers a text extension uses.
     */
    method InputChange(value: string, now: int, draws: nat -> nat)
      requires Valid()
      modifies this
      ensures Valid()
      // a completed test ignores input
      ensures old(screen).testComplete ==>
        screen == old(screen) && textChars == old(textChars) && saved == old(saved)
      ensures !old(screen).testComplete ==>
        screen.userInput == value && screen.errors == NextErrors(old(screen).errors, old(lastCheckedIndex), value, textChars)
      // the first non-empty input starts the test, an empty one leaves it idle
      ensures !old(screen).isActive && !old(screen).testComplete && |value| > 0 ==> screen.startTime == Some(now)
      ensures !old(screen).isActive && !old(screen).testComplete && |value| == 0 ==>
        !screen.isActive
      // time mode: the text grows by at least 200 characters once the input nears its end
      ensures !old(screen).testComplete && testType == Time && |value| > |old(screen).text| - 50 ==>
        |screen.text| >= |old(screen).text| + 200 && screen.text[..|old(screen).text|] == old(screen).text
        && textChars == screen.text
      ensures !(!old(screen).testComplete && testType == Time && |value| > |old(screen).text| - 50) ==>
        screen.text == old(screen).text && textChars == old(textChars)
      ensures testType == Time ==>
        screen.timeLeft == old(screen).timeLeft && screen.testComplete == old(screen).testComplete
        && saved == old(saved)
      // word mode: completion on a long input or enough words, recorded from the previous render
      ensures !old(screen).testComplete && testType == Words ==>
        (screen.testComplete <==> |value| >= |old(screen).text| || WordsTyped(value) >= testValue)
      ensures !old(screen).testComplete && testType == Words && screen.testComplete ==>
        var r := Record(old(screen).userInput, old(screen).text, old(screen).errors,
                        ElapsedSeconds(testType, testValue, old(screen).startTime, now),
                        testType, testValue, language, now);
        screen.testResult == Some(r) && saved == old(saved) + [(r, userId)]
      ensures !screen.testComplete ==> saved == old(saved)
      // a running test keeps running, with its start time and timer, until it completes
      ensures old(screen).isActive && !screen.testComplete ==>
        screen.isActive && screen.startTime == old(screen).startTime && interval == old(interval)
      ensures !old(screen).isActive && !old(screen).testComplete && |value| > 0 && !screen.testComplete ==>
        screen.isActive
      ensures testType == Words ==> screen.timeLeft == old(screen).timeLeft
      // the timer a first input starts keeps the memoised `startTest`'s view
      ensures !old(screen).isActive && !old(screen).testComplete && |value| > 0 && testType == Time ==>
        interval == Some(old(startTestSeesComplete))
      ensures startTestSeesComplete ==
        if screen.isActive != old(screen).isActive then screen.testComplete else old(startTestSeesComplete)
    {
      var seen := screen;
      if !seen.isActive && !seen.testComplete && |value| > 0 {
        StartTest(now);
      }
      if seen.testComplete {
        return;
      }
      var text, chars := seen.text, textChars;
      if testType == Time && |value| > |seen.text| - 50 {
        text := ExtendNearEnd(samples, seen.text, draws);
        chars := text;
      }
      var errors := CountErrors(screen.errors, lastCheckedIndex, value, chars);
      screen := screen.(userInput := value, text := text, errors := errors);
      textChars := chars;
      lastCheckedIndex := |value|;
      if testType == Words {
        var wordsTyped := |Split(Trim(value), ' ')|;
        if |value| >= |seen.text| || wordsTyped >= testValue {
          CompleteTest(seen.testComplete, seen.startTime, now);
        }
      }
      Render();
    }

    /** One second of the time-mode timer: count down, and at 1 or less complete and show 0. */
    method Tick(now: int)
      requires Valid() && interval.Some?
      modifies this
      ensures Valid()
      ensures old(screen).timeLeft > 1 ==> screen == old(screen).(timeLeft := old(screen).timeLeft - 1)
      ensures old(screen).timeLeft > 1 ==> interval == old(interval) && saved == old(saved)
      ensures old(screen).timeLeft <= 1 && old(interval) == Some(true) ==>
        screen == old(screen).(timeLeft := 0) && interval == old(interval) && saved == old(saved)
      ensures old(screen).timeLeft <= 1 && old(interval) == Some(false) ==>
        var r := Record(old(screen).userInput, old(screen).text, old(screen).errors,
                        ElapsedSeconds(testType, testValue, old(screen).startTime, now),
                        testType, testValue, language, now);
        screen == old(screen).(timeLeft := 0, isActive := false, testComplete := true, testResult := Some(r))
        && saved == old(saved) + [(r, userId)]
      ensures textChars == old(textChars)
      ensures startTestSeesComplete ==
        if screen.isActive != old(screen).isActive then screen.testComplete else old(startTestSeesComplete)
    {
      if screen.timeLeft <= 1 {
        CompleteTest(interval.value, screen.startTime, now);
        screen := screen.(timeLeft := 0);
      } else {
        screen := screen.(timeLeft := screen.timeLeft - 1);
      }
      Render();
    }

    /** `resetTest`: back to idle with a newly drawn text; the error reference is left as it was. */
    method Reset(draws: nat -> nat) returns (ghost pieces: seq<string>)
      requires Valid()
      modifies this
      ensures Valid()
      ensures DrawnText(screen.text, pieces, samples, WordCount())
      ensures screen.userInput == "" && !screen.isActive && !screen.testComplete && screen.testResult.None?
      ensures screen.errors == 0 && screen.startTime.None? && screen.timeLeft == IdleTimeLeft()
      ensures lastCheckedIndex == 0 && interval.None? && textChars == old(textChars) && saved == old(saved)
      ensures startTestSeesComplete == if old(screen).isActive then false else old(startTestSeesComplete)
    {
      var newText;
      newText, pieces := RandomTextFrom(samples, WordCount(), draws);
      screen := Screen(newText, "", false, if testType == Time then testValue else 0, None, 0, false, None);
      lastCheckedIndex := 0;
      interval := None;
      Render();
    }

    /** `renderText`: the state of each character of the text. */
    method RenderText() returns (states: seq<CharState>)
      ensures |states| == |screen.text|
      ensures forall i :: 0 <= i < |states| && i < |screen.userInput| ==>
        (states[i] == Correct <==> screen.userInput[i] == screen.text[i])
        && (states[i] == Correct || states[i] == Incorrect)
      ensures forall i :: 0 <= i < |states| && i == |screen.userInput| ==> states[i] == Cursor
      ensures forall i :: 0 <= i < |states| && i > |screen.userInput| ==> states[i] == Pending
      ensures CountCorrectStates(states, |states|)
           == Matches(screen.userInput, screen.text, Min(|screen.userInput|, |screen.text|))
    {
      var input := screen.userInput;
      var text := screen.text;
      states := [];
      var i := 0;
      while i < |text|
        invariant 0 <= i <= |text| && |states| == i
        invariant forall j :: 0 <= j < i && j < |input| ==>
          (states[j] == Correct <==> input[j] == text[j]) && (states[j] == Correct || states[j] == Incorrect)
        invariant forall j :: 0 <= j < i && j == |input| ==> states[j] == Cursor
        invariant forall j :: 0 <= j < i && j > |input| ==> states[j] == Pending
        invariant CountCorrectStates(states, i) == Matches(input, text, Min(|input|, i))
      {
        var state := Pending;
        if i < |input| {
          state := if input[i] == text[i] then Correct else Incorrect;
        } else if i == |input| {
          state := Cursor;
        }
        CountCorrectStatesPrefix(states, state, i);
        states := states + [state];
        i := i + 1;
      }
    }
  }

  lemma {:induction false} CountCorrectStatesPrefix(states: seq<CharState>, state: CharState, hi: int)
    requires 0 <= hi <= |states|
    ensures CountCorrectStates(states + [state], hi) == CountCorrectStates(states, hi)
  {
    if hi > 0 {
      CountCorrectStatesPrefix(states, state, hi - 1);
    }
  }

  lemma {:induction false} JoinPrefix(first: string, rest: seq<string>)
    ensures |Join([first] + rest, ' ')| >= |first|
    ensures Join([first] + rest, ' ')[..|first|] == first
  {
    if |rest| > 0 {
      assert ([first] + rest)[1..] == rest;
    }
  }

  /** `new TypingTest(...)` after the mount effect's two draws of a text. */
  method Mount(catalog: Catalog, testType: TestType, testValue: int, language: string, userId: Option<string>,
               firstDraws: nat -> nat, secondDraws: nat -> nat)
    returns (t: TypingTest, ghost mountPieces: seq<string>, ghost resetPieces: seq<string>)
    requires ValidCatalog(catalog)
    ensures fresh(t) && t.Valid() && t.samples == GetTextSamples(catalog, language)
    ensures t.testType == testType && t.testValue == testValue && t.language == language
    ensures t.screen.userInput == "" && !t.screen.isActive && !t.screen.testComplete
    // the error reference is the first draw, the text shown the second
    ensures DrawnText(t.textChars, mountPieces, t.samples, t.WordCount())
    ensures DrawnText(t.screen.text, resetPieces, t.samples, t.WordCount())
  {
    var wordCount := if testType == Words then Some(testValue) else None;
    var mountText, resetText;
    mountText, mountPieces := GetRandomText(catalog, language, wordCount, firstDraws);
    resetText, resetPieces := GetRandomText(catalog, language, wordCount, secondDraws);
    t := new TypingTest(testType, testValue, language, userId, GetTextSamples(catalog, language), mountText, resetText);
  }

  /**
   * Time mode, one second: the first test completes on its tick, but after a
   * reset the memoised `startTest` still holds the `completeTest` that saw
   * the finished test, so the second test's timer runs out without
   * completing it.
   */
  method RestartedTimeTestExample() returns (firstCompleted: bool, secondCompleted: bool, timeLeft: int)
    ensures firstCompleted && !secondCompleted && timeLeft == 0
  {
    var t := new TypingTest(Time, 1, "english", None, ["abc"], "abc", "abc");
    var draws := (k: nat) => 0;
    t.InputChange("a", 0, draws);
    t.Tick(1000);
    firstCompleted := t.screen.testComplete;
    var pieces := t.Reset(draws);
    t.InputChange("a", 5000, draws);
    t.Tick(6000);
    secondCompleted := t.screen.testComplete;
    timeLeft := t.screen.timeLeft;
  }
}
