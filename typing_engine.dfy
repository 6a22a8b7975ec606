/**
 * The typing engine: WPM and accuracy arithmetic, the sample texts for each
 * language, and the two text generators.  The generators draw random sample
 * indices; here the k-th draw is `draws(k)`, reduced modulo the number of
 * samples as `Math.floor(Math.random() * samples.length)` is.
 */
module TypingEngine {
  import opened Wrappers
  import opened JsMath
  import opened Strings

  datatype TestType = Time | Words

  /** The string the source stores for a test type. */
  function TestTypeName(t: TestType): string
  {
    match t
    case Time => "time"
    case Words => "words"
  }

  /** The result of one finished test; `completedAt` is a millisecond timestamp. */
  datatype TestResult = TestResult(
    wpm: int,
    accuracy: int,
    errors: int,
    correctChars: int,
    totalChars: int,
    timeElapsed: real,
    testType: TestType,
    testValue: int,
    language: string,
    completedAt: int)

  /** Characters per minute over five, rounded; no time elapsed gives 0. */
  function CalculateWPM(correctChars: int, timeInSeconds: real): (r: int)
    ensures timeInSeconds == 0.0 ==> r == 0
    ensures timeInSeconds != 0.0 ==>
      correctChars as real * 12.0 / timeInSeconds - 0.5 < r as real <= correctChars as real * 12.0 / timeInSeconds + 0.5
  {
    if timeInSeconds == 0.0 then 0
    else
      var x := correctChars as real / 5.0 / (timeInSeconds / 60.0);
      assert x == correctChars as real * 12.0 / timeInSeconds;
      Round(x)
  }

  /** More correct characters in the same positive time never lower the WPM. */
  lemma WPMMonotone(c1: int, c2: int, t: real)
    requires c1 <= c2 && t > 0.0
    ensures CalculateWPM(c1, t) <= CalculateWPM(c2, t)
  {
    DivLe(c1 as real / 5.0, c2 as real / 5.0, t / 60.0);
    RoundMonotone(c1 as real / 5.0 / (t / 60.0), c2 as real / 5.0 / (t / 60.0));
  }

  /** Percentage of correct characters, rounded; nothing typed counts as 100. */
  function CalculateAccuracy(correctChars: int, totalChars: int): (r: int)
    ensures totalChars == 0 ==> r == 100
    ensures totalChars != 0 ==>
      correctChars as real * 100.0 / totalChars as real - 0.5 < r as real
      && r as real <= correctChars as real * 100.0 / totalChars as real + 0.5
  {
    if totalChars == 0 then 100
    else
      var x := correctChars as real / totalChars as real * 100.0;
      assert x == correctChars as real * 100.0 / totalChars as real;
      Round(x)
  }

  /** With no more correct characters than typed ones the accuracy is a percentage. */
  lemma AccuracyIsPercentage(correctChars: int, totalChars: int)
    requires 0 <= correctChars <= totalChars
    ensures 0 <= CalculateAccuracy(correctChars, totalChars) <= 100
    ensures 0 < correctChars == totalChars ==> CalculateAccuracy(correctChars, totalChars) == 100
  {
    if totalChars > 0 {
      assert CalculateAccuracy(correctChars, totalChars) == RoundRatio(100 * correctChars, totalChars);
      RoundRatioBounds(100 * correctChars, totalChars, 0, 100);
      if correctChars == totalChars {
        assert (100 * correctChars) as real / totalChars as real == 100.0;
      }
    }
  }

  /** The sample texts of each language. */
  type Catalog = map<string, seq<string>>

  const Languages: set<string> := {"uzbek", "english", "russian", "spanish", "french", "german"}

  /**
   * The catalog the engine ships: the six languages, with 7 Uzbek, 5
   * English, 5 Russian and 3 Spanish, French and German samples.
   */
  predicate ValidCatalog(catalog: Catalog)
  {
    && catalog.Keys == Languages
    && |catalog["uzbek"]| == 7 && |catalog["english"]| == 5 && |catalog["russian"]| == 5
    && |catalog["spanish"]| == 3 && |catalog["french"]| == 3 && |catalog["german"]| == 3
  }

  /** The samples for a language; any other language gets the Uzbek ones. */
  function GetTextSamples(catalog: Catalog, language: string): (r: seq<string>)
    requires ValidCatalog(catalog)
    ensures |r| > 0
    ensures language in Languages ==> r == catalog[language]
    ensures language !in Languages ==> r == catalog["uzbek"]
  {
    if language in catalog then catalog[language] else catalog["uzbek"]
  }

  /** Every word is a space-free piece of one of the samples. */
  ghost predicate WordsOfSamples(words: seq<string>, samples: seq<string>)
  {
    forall i :: 0 <= i < |words| ==>
      ' ' !in words[i] && exists j :: 0 <= j < |samples| && words[i] in Split(samples[j], ' ')
  }

  /** `text` is `pieces` joined by spaces, and the pieces are what `RandomTextFrom` draws for `wordCount`. */
  ghost predicate DrawnText(text: string, pieces: seq<string>, samples: seq<string>, wordCount: Option<int>)
  {
    && text == Join(pieces, ' ')
    && (wordCount.Some? && wordCount.value != 0 ==>
          |pieces| == Max(wordCount.value, 0) && WordsOfSamples(pieces, samples))
    && (!(wordCount.Some? && wordCount.value != 0) ==>
          2 <= |pieces| <= 4 && forall i :: 0 <= i < |pieces| ==> pieces[i] in samples)
  }

  /**
   * A test text.  With a word count (`wordCount` present and non-zero) it is
   * exactly that many sample words joined by single spaces (none for a
   * negative count); otherwise two to four whole samples joined by spaces.
   */
  method RandomTextFrom(samples: seq<string>, wordCount: Option<int>, draws: nat -> nat)
    returns (text: string, ghost pieces: seq<string>)
    requires |samples| > 0
    ensures text == Join(pieces, ' ')
    ensures wordCount.Some? && wordCount.value != 0 ==>
      |pieces| == Max(wordCount.value, 0) && WordsOfSamples(pieces, samples)
    ensures !(wordCount.Some? && wordCount.value != 0) ==>
      2 <= |pieces| <= 4 && forall i :: 0 <= i < |pieces| ==> pieces[i] in samples
  {
    text := "";
    pieces := [];
    var k := 0;
    if wordCount.Some? && wordCount.value != 0 {
      var n := wordCount.value;
      var currentWords := 0;
      while currentWords < n
        invariant 0 <= currentWords == |pieces| && (n > 0 ==> currentWords <= n) && (n <= 0 ==> currentWords == 0)
        invariant text == Join(pieces, ' ')
        invariant WordsOfSamples(pieces, samples)
        decreases n - currentWords
      {
        var pick := draws(k) % |samples|;
        k := k + 1;
        var words := Split(samples[pick], ' ');
        ghost var before := currentWords;
        var j := 0;
        while j < |words|
          invariant 0 <= j <= |words|
          invariant currentWords == before + j && currentWords == |pieces| && currentWords <= n
          invariant text == Join(pieces, ' ')
          invariant WordsOfSamples(pieces, samples)
        {
          if currentWords >= n {
            break;
          }
          JoinSnoc(pieces, ' ', words[j]);
          text := text + (if currentWords > 0 then " " else "") + words[j];
          pieces := pieces + [words[j]];
          currentWords := currentWords + 1;
          j := j + 1;
        }
      }
    } else {
      var numSamples := draws(k) % 3 + 2;
      k := k + 1;
      var i := 0;
      while i < numSamples
        invariant 0 <= i <= numSamples && i == |pieces|
        invariant text == Join(pieces, ' ')
        invariant forall m :: 0 <= m < |pieces| ==> pieces[m] in samples
      {
        var sample := samples[draws(k) % |samples|];
        k := k + 1;
        JoinSnoc(pieces, ' ', sample);
        text := text + (if i > 0 then " " else "") + sample;
        pieces := pieces + [sample];
        i := i + 1;
      }
    }
  }

  /** `getRandomText(language, wordCount)`: a text drawn from the language's samples. */
  method GetRandomText(catalog: Catalog, language: string, wordCount: Option<int>, draws: nat -> nat)
    returns (text: string, ghost pieces: seq<string>)
    requires ValidCatalog(catalog)
    ensures text == Join(pieces, ' ')
    ensures wordCount.Some? && wordCount.value != 0 ==>
      |pieces| == Max(wordCount.value, 0) && WordsOfSamples(pieces, GetTextSamples(catalog, language))
    ensures !(wordCount.Some? && wordCount.value != 0) ==>
      2 <= |pieces| <= 4 && forall i :: 0 <= i < |pieces| ==> pieces[i] in GetTextSamples(catalog, language)
  {
    text, pieces := RandomTextFrom(GetTextSamples(catalog, language), wordCount, draws);
  }

  /** A word-count text splits on spaces into exactly its words. */
  lemma WordTextSplits(pieces: seq<string>, samples: seq<string>)
    requires |pieces| > 0 && WordsOfSamples(pieces, samples)
    ensures Split(Join(pieces, ' '), ' ') == pieces
  {
    SplitJoin(pieces, ' ');
  }

  /**
   * `currentText` extended by `" " + sample` until it reaches `minLength`
   * characters; a text already long enough comes back unchanged, and the last
   * sample appended was needed.
   */
  method ExtendTextFrom(samples: seq<string>, currentText: string, minLength: int, draws: nat -> nat)
    returns (text: string, ghost added: seq<string>)
    requires |samples| > 0
    ensures text == Join([currentText] + added, ' ')
    ensures |text| >= minLength
    ensures |currentText| >= minLength ==> text == currentText
    ensures |added| > 0 ==> |Join([currentText] + added[..|added| - 1], ' ')| < minLength
    ensures forall i :: 0 <= i < |added| ==> added[i] in samples
  {
    text := currentText;
    added := [];
    var k := 0;
    while |text| < minLength
      invariant text == Join([currentText] + added, ' ')
      invariant |added| > 0 ==> |Join([currentText] + added[..|added| - 1], ' ')| < minLength
      invariant forall i :: 0 <= i < |added| ==> added[i] in samples
      decreases minLength - |text|
    {
      var sample := samples[draws(k) % |samples|];
      k := k + 1;
      JoinSnoc([currentText] + added, ' ', sample);
      assert [currentText] + added + [sample] == [currentText] + (added + [sample]);
      assert ([currentText] + (added + [sample]))[..|added| + 1] == [currentText] + added;
      text := text + " " + sample;
      added := added + [sample];
    }
  }

  /** `generateAdditionalText(language, currentText, minLength)`. */
  method GenerateAdditionalText(catalog: Catalog, language: string, currentText: string, minLength: int,
                                draws: nat -> nat)
    returns (text: string, ghost added: seq<string>)
    requires ValidCatalog(catalog)
    ensures text == Join([currentText] + added, ' ')
    ensures |text| >= minLength
    ensures |currentText| >= minLength ==> text == currentText
    ensures |added| > 0 ==> |Join([currentText] + added[..|added| - 1], ' ')| < minLength
    ensures forall i :: 0 <= i < |added| ==> added[i] in GetTextSamples(catalog, language)
  {
    text, added := ExtendTextFrom(GetTextSamples(catalog, language), currentText, minLength, draws);
  }
}
