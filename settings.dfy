/**
 * The test settings: their defaults, the shallow merge `{ ...base, ...patch }`
 * used both to load saved settings and to apply an update, and the provider
 * that keeps the settings in state and writes every change to storage.
 */
module Settings {
  import opened Wrappers
  import opened TypingEngine

  datatype Theme = Light | Dark | SystemTheme

  datatype TestSettings = TestSettings(
    testType: TestType,
    timeOptions: seq<int>,
    wordOptions: seq<int>,
    selectedTime: int,
    selectedWords: int,
    language: string,
    theme: Theme,
    soundEnabled: bool,
    showWpmLive: bool)

  /** `Partial<TestSettings>`: each field present or absent. */
  datatype PartialSettings = PartialSettings(
    testType: Option<TestType>,
    timeOptions: Option<seq<int>>,
    wordOptions: Option<seq<int>>,
    selectedTime: Option<int>,
    selectedWords: Option<int>,
    language: Option<string>,
    theme: Option<Theme>,
    soundEnabled: Option<bool>,
    showWpmLive: Option<bool>)

  const DefaultSettings := TestSettings(Time, [15, 30, 60, 120], [15, 30, 50, 100], 30, 30, "english", Dark, false, true)

  const NoChanges := PartialSettings(None, None, None, None, None, None, None, None, None)

  /** Every field present, with the values of `s`. */
  function AllOf(s: TestSettings): PartialSettings
  {
    PartialSettings(Some(s.testType), Some(s.timeOptions), Some(s.wordOptions), Some(s.selectedTime),
                    Some(s.selectedWords), Some(s.language), Some(s.theme), Some(s.soundEnabled), Some(s.showWpmLive))
  }

  /** `{ ...base, ...patch }`: a present field of the patch wins, every other field keeps its value. */
  function Merge(base: TestSettings, patch: PartialSettings): (r: TestSettings)
    ensures r.testType == patch.testType.GetOr(base.testType)
    ensures r.timeOptions == patch.timeOptions.GetOr(base.timeOptions)
    ensures r.wordOptions == patch.wordOptions.GetOr(base.wordOptions)
    ensures r.selectedTime == patch.selectedTime.GetOr(base.selectedTime)
    ensures r.selectedWords == patch.selectedWords.GetOr(base.selectedWords)
    ensures r.language == patch.language.GetOr(base.language)
    ensures r.theme == patch.theme.GetOr(base.theme)
    ensures r.soundEnabled == patch.soundEnabled.GetOr(base.soundEnabled)
    ensures r.showWpmLive == patch.showWpmLive.GetOr(base.showWpmLive)
  {
    TestSettings(patch.testType.GetOr(base.testType), patch.timeOptions.GetOr(base.timeOptions),
                 patch.wordOptions.GetOr(base.wordOptions), patch.selectedTime.GetOr(base.selectedTime),
                 patch.selectedWords.GetOr(base.selectedWords), patch.language.GetOr(base.language),
                 patch.theme.GetOr(base.theme), patch.soundEnabled.GetOr(base.soundEnabled),
                 patch.showWpmLive.GetOr(base.showWpmLive))
  }

  /** Applying the same update twice is applying it once. */
  lemma MergeIdempotent(base: TestSettings, patch: PartialSettings)
    ensures Merge(Merge(base, patch), patch) == Merge(base, patch)
  {
  }

  /** An empty update changes nothing; a complete one replaces everything. */
  lemma MergeExtremes(base: TestSettings, s: TestSettings)
    ensures Merge(base, NoChanges) == base
    ensures Merge(base, AllOf(s)) == s
  {
  }

  /** The field-wise union of two patches, the second winning: `{ ...p, ...q }`. */
  function Combine(p: PartialSettings, q: PartialSettings): PartialSettings
  {
    PartialSettings(
      if q.testType.Some? then q.testType else p.testType,
      if q.timeOptions.Some? then q.timeOptions else p.timeOptions,
      if q.wordOptions.Some? then q.wordOptions else p.wordOptions,
      if q.selectedTime.Some? then q.selectedTime else p.selectedTime,
      if q.selectedWords.Some? then q.selectedWords else p.selectedWords,
      if q.language.Some? then q.language else p.language,
      if q.theme.Some? then q.theme else p.theme,
      if q.soundEnabled.Some? then q.soundEnabled else p.soundEnabled,
      if q.showWpmLive.Some? then q.showWpmLive else p.showWpmLive)
  }

  /** Two updates in a row are one update by their union. */
  lemma MergeTwice(base: TestSettings, p: PartialSettings, q: PartialSettings)
    ensures Merge(Merge(base, p), q) == Merge(base, Combine(p, q))
  {
  }

  /**
   * The mount effect: the stored text, if present and non-empty, parsed and
   * merged over the defaults; a parse failure keeps the defaults.  The parser
   * is a parameter.
   */
  function LoadSettings(saved: Option<string>, parse: string -> Attempt<PartialSettings>): (r: TestSettings)
    ensures saved.None? || saved == Some("") ==> r == DefaultSettings
    ensures saved.Some? && saved.value != "" && parse(saved.value).Threw? ==> r == DefaultSettings
    ensures saved.Some? && saved.value != "" && parse(saved.value).Returned? ==>
              r == Merge(DefaultSettings, parse(saved.value).value)
  {
    match saved
    case None => DefaultSettings
    case Some(text) =>
      if text == "" then DefaultSettings
      else
        match parse(text)
        case Returned(patch) => Merge(DefaultSettings, patch)
        case Threw => DefaultSettings
  }

  /** Saving complete settings and loading them back, with a parser that undoes the serialisation, restores them. */
  lemma LoadSaved(s: TestSettings, text: string, parse: string -> Attempt<PartialSettings>)
    requires text != "" && parse(text) == Returned(AllOf(s))
    ensures LoadSettings(Some(text), parse) == s
  {
    MergeExtremes(DefaultSettings, s);
  }

  /**
   * The provider.  `settings` is the state; `rendered` is the value the
   * current render's callbacks closed over, which `updateSettings` reads;
   * `persisted` is what the settings key of storage holds.
   */
  class SettingsProvider {
    var settings: TestSettings
    var rendered: TestSettings
    var persisted: Option<TestSettings>

    constructor (stored: Option<TestSettings>)
      ensures settings == DefaultSettings && rendered == DefaultSettings && persisted == stored
    {
      settings := DefaultSettings;
      rendered := DefaultSettings;
      persisted := stored;
    }

    /**
     * The load effect: the state is set only when the saved text parses, and
     * nothing is written.  It runs right after mounting, while the state is
     * still the defaults, so the result is `LoadSettings`.  `localStorage` is
     * called directly, so a read that throws (`readThrows`) ends the effect
     * with the state untouched.
     */
    method Load(saved: Option<string>, readThrows: bool, parse: string -> Attempt<PartialSettings>)
      modifies this
      ensures readThrows ==> settings == old(settings)
      ensures !readThrows && old(settings) == DefaultSettings ==> settings == LoadSettings(saved, parse)
      ensures !readThrows && saved.Some? && saved.value != "" && parse(saved.value).Returned? ==>
                settings == Merge(DefaultSettings, parse(saved.value).value)
      ensures !(saved.Some? && saved.value != "" && parse(saved.value).Returned?) ==> settings == old(settings)
      ensures rendered == old(rendered) && persisted == old(persisted)
    {
      if readThrows {
        return;
      }
      if saved.Some? && saved.value != "" {
        match parse(saved.value)
        case Returned(patch) =>
          settings := Merge(DefaultSettings, patch);
        case Threw =>
      }
    }

    /** Re-rendering refreshes the callbacks' view of the state. */
    method Render()
      modifies this
      ensures rendered == settings && settings == old(settings) && persisted == old(persisted)
    {
      rendered := settings;
    }

    /**
     * `updateSettings`: the rendered settings merged with the update, set and
     * written to storage.  The state is set before the write, so a write that
     * throws (`writeThrows`) leaves the new state with nothing persisted.
     */
    method UpdateSettings(patch: PartialSettings, writeThrows: bool)
      modifies this
      ensures settings == Merge(old(rendered), patch)
      ensures persisted == if writeThrows then old(persisted) else Some(settings)
      ensures rendered == old(rendered)
    {
      var updated := Merge(rendered, patch);
      settings := updated;
      if !writeThrows {
        persisted := Some(updated);
      }
    }

    /** `resetSettings`: the defaults, set and, unless the write throws, written to storage. */
    method ResetSettings(writeThrows: bool)
      modifies this
      ensures settings == DefaultSettings
      ensures persisted == if writeThrows then old(persisted) else Some(DefaultSettings)
      ensures rendered == old(rendered)
    {
      settings := DefaultSettings;
      if !writeThrows {
        persisted := Some(DefaultSettings);
      }
    }
  }
}
