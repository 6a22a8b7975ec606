# tez-yoz typing test — a Dafny model of its core

tez-yoz is a typing-speed trainer. A test shows a text and counts errors while
the user types. It ends when a timer runs out (time mode) or when enough words
are typed (word mode). The result is stored in the browser, per user. From the
stored results the app builds:

- personal statistics and a test history with filters, sort and CSV export;
- a leaderboard ranked by WPM, accuracy, consistency or number of tests.

This project models that logic in Dafny and proves properties of the model.
There is one module per source file:

| module | source file | form |
|---|---|---|
| `TypingSession` | `components/typing-test.tsx` | class `TypingTest` whose methods are the event handlers |
| `TypingEngine` | `lib/typing-engine.ts` | functions for WPM and accuracy; methods with loops for text generation |
| `StatisticsEngine` | `lib/statistics-engine.ts` | functions over the stored list; the counting and grouping loops are methods |
| `LeaderboardEngine` | `lib/leaderboard-engine.ts` | functions |
| `TestHistory` | `components/statistics/test-history.tsx` | functions, plus class `HistoryView` for the sort in place |
| `Storage` | `lib/safe-storage.ts` | classes `MemoryStorage` and `SafeStorage` over a store value |
| `Settings` | `lib/settings-context.tsx` | class `SettingsProvider` |
| `SignupForm`, `LoginForm` | `components/auth/*.tsx` | validation functions and one class per form |
| `TestResults` | `components/test-results.tsx` | functions |
| `LeaderboardView`, `LeaderboardWidget` | `components/leaderboard.tsx`, `components/leaderboard/leaderboard-widget.tsx` | functions; class `LeaderboardPage` for the filter state |
| `StatisticsDashboard` | `components/statistics/statistics-dashboard.tsx` | functions, and a method for the empty-state guard over `calculateStatistics` |
| `TimeProgress` | `components/progress/time-progress.tsx` | class `TimeBar` |

Helper modules: `Wrappers` (Option), `JsMath` (`Math.round` as floor(x + 1/2),
ceiling division, the truthiness of a nullable timestamp), `Strings` (split, join, trim, number formatting, `includes`),
`Sequences` (filter, map, the stable insertion sort the leaderboard's and the
history's sorts are modelled with, `slice`) and `Grouping` (insertion-ordered
counters and groups, as JavaScript objects and `Map`s keep them). `AuthReplies`
holds the shape of the login, signup and verify replies.

## How the environment enters

- **Storage.** The stored result list and the user list are parameters.
  `saveTestResult` returns the new list instead of writing it.
- **Randomness.** The random result id is a parameter. A random sample choice
  is `draws(k) % |samples|` for a parameter `draws: nat -> nat`, so every index
  is possible.
- **Sample texts.** The sentence catalogue is a parameter map from language to
  samples. It must hold the six languages, each with at least one sample.
- **Clock.** Instants are integers (milliseconds). `Date.now()` is a `now`
  argument. The daily, weekly and monthly cut-offs arrive precomputed in a
  `Clock` value.
- **Floating point.** `Math.sqrt` is a parameter. Other arithmetic is exact, on
  `real`.
- **Translations.** Translated texts are parameters or label keys.
- **Server replies.** Login, signup and verify replies are method arguments.

## The typing screen

`TypingSession.TypingTest` holds the component's state hooks in `screen`. It
keeps `textCharsRef` (`textChars`) apart from `text`.

- Errors are counted against `textChars`.
- Correct characters are counted against `text`.
- After mounting, the two hold different random texts: the mount effect draws
  one, then `resetTest` draws the other.

Two React details shape the behaviour, and the model keeps both:

1. **Refs.** `completeTest` reads the input, text and error count through refs,
   and the refs are refreshed only when the component renders. In the model,
   every handler works on `screen` and ends with `Render()`, which copies
   `screen` into `rendered`. A word-mode completion inside an input change
   therefore records the input of the previous render.
2. **The memoised `startTest`.** `startTest` depends only on `isActive` and
   `testType`, so the `completeTest` its timer calls is the one from the render
   in which `isActive` last changed. `RestartedTimeTestExample` shows the
   effect in a one-second time test:
   - the first test completes on its tick;
   - after a reset, the second test's timer runs to zero without completing.

**A word-mode completion records the previous render's input.** Type "the ",
"the cat ", "the cat sat" against the text "the cat sat" in a three-word test.
The third input completes the test, but the refs still hold "the cat ", so
the stored record has `totalChars` 8. `InputChange`'s contract builds the
record from `old(screen)` accordingly.

## Model

| member | source | states |
|---|---|---|
| TypingEngine.CalculateWPM | lib/typing-engine.ts:17-21 | 0 for zero seconds; otherwise the rounded value of correct characters / 5 per minute |
| TypingEngine.WPMMonotone | lib/typing-engine.ts:17-21 | for a fixed positive time, more correct characters never give a lower WPM |
| TypingEngine.CalculateAccuracy | lib/typing-engine.ts:23-26 | 100 when nothing was typed; otherwise the rounded percentage of correct characters |
| TypingEngine.AccuracyIsPercentage | lib/typing-engine.ts:23-26 | accuracy lies in [0, 100] when 0 <= correct <= total, and is 100 when all of at least one character are correct |
| TypingEngine.GetTextSamples | lib/typing-engine.ts:28-71 | a non-empty list: the language's samples, or the uzbek samples for an unknown language |
| TypingEngine.RandomTextFrom | lib/typing-engine.ts:73-105 | with a non-zero word count, exactly that many space-free sample words joined by single spaces; otherwise 2 to 4 whole samples joined by spaces |
| TypingEngine.GetRandomText | lib/typing-engine.ts:73-105 | the same guarantees over the language's samples |
| TypingEngine.WordTextSplits | lib/typing-engine.ts:76-93 | a word-mode text splits on spaces back into exactly its words |
| TypingEngine.ExtendTextFrom | lib/typing-engine.ts:107-117 | the result is the current text followed by whole samples; it reaches the minimum length; it is unchanged when already long enough; no sample is added after the minimum is reached |
| TypingEngine.GenerateAdditionalText | lib/typing-engine.ts:107-117 | the same guarantees over the language's samples |
| TypingSession.NextErrors | components/typing-test.tsx:217-238 | a longer input adds the mismatches in [old length, new length); a shorter one recounts from 0; an equal length keeps the count |
| TypingSession.CountMismatches | components/typing-test.tsx:221-236 | the loop counts the positions in a range that differ from the reference, a position past its end included |
| TypingSession.CountErrors | components/typing-test.tsx:217-238 | the two error loops compute `NextErrors` |
| TypingSession.MismatchesSplit | components/typing-test.tsx:220-229 | mismatch counts over adjacent ranges add up |
| TypingSession.MismatchesSamePrefix | components/typing-test.tsx:230-238 | inputs that agree on a prefix have equal mismatch counts on it |
| TypingSession.NextErrorsExact | components/typing-test.tsx:217-240 | when the new input appends to or truncates the old one, the updated count is the exact mismatch count of the new input |
| TypingSession.ErrorsAfterExact | components/typing-test.tsx:217-240 | after any run of appends and truncations, the count is the exact mismatch count of the last input |
| TypingSession.SameLengthEditNotCounted | components/typing-test.tsx:217-238 | replacing "a" by "b" against the reference "a" keeps 0 errors, although "b" has one mismatch |
| TypingSession.Matches | components/typing-test.tsx:124-132 | the correct-character count never exceeds the positions compared |
| TypingSession.MatchesAgreeing | components/typing-test.tsx:124-132 | when every compared position agrees, all of them count as correct |
| TypingSession.MatchesAndMismatches | components/typing-test.tsx:124-132 | correct and mismatched positions together are every compared position |
| TypingSession.CountCorrect | components/typing-test.tsx:124-132 | the loop counts the equal positions below min(input length, text length) |
| TypingSession.ElapsedSeconds | components/typing-test.tsx:117-139 | the test value in time mode; otherwise max(elapsed seconds, 1), or 1 when the start time is missing or 0 (falsy); never 0 |
| TypingSession.Record | components/typing-test.tsx:124-169 | the record: correct characters, totalChars = max(input length, 1), accuracy = CalculateAccuracy(correct, total) in [0, 100], WPM from the correct count, and the other fields as given |
| TypingSession.WordsTyped | components/typing-test.tsx:243 | one more than the single spaces inside the trimmed input |
| TypingSession.ExtendNearEnd | components/typing-test.tsx:211-215 | the extended text starts with the old text and is at least 200 characters longer |
| TypingSession.TypingTest.constructor | components/typing-test.tsx:35-50 | the idle screen, with the reset text shown and the mount text kept for error counting |
| TypingSession.Mount | components/typing-test.tsx:59-64 | the error reference is the first text drawn from the language's samples and the shown text the second, each with `RandomTextFrom`'s guarantees; the screen is idle |
| TypingSession.TypingTest.Render | components/typing-test.tsx:51-53 | a render refreshes the refs, and re-creates `startTest` when `isActive` changed |
| TypingSession.TypingTest.StartTest | components/typing-test.tsx:84-101 | an active test is left alone; otherwise the test goes active with the start time and, in time mode, a timer holding the memoised view |
| TypingSession.TypingTest.CompleteTest | components/typing-test.tsx:103-172 | a closure that saw a completed test does nothing; otherwise the test stops, the timer is cleared, and the record built from the refs, timed from a truthy start only, is shown and saved |
| TypingSession.TypingTest.InputChange | components/typing-test.tsx:201-250 | completed tests ignore input; only the first non-empty input of an idle test starts it, and a running test keeps its start time and timer until it completes; errors follow `NextErrors`; time mode extends the text near its end; word mode keeps timeLeft and completes on a long input or enough words, with the record of the previous render |
| TypingSession.TypingTest.Tick | components/typing-test.tsx:91-99 | a tick above 1 decrements the time left; at 1 or below it sets 0 and completes, unless the timer's closure saw a finished test |
| TypingSession.TypingTest.Reset | components/typing-test.tsx:66-82 | back to idle with a newly drawn text of `RandomTextFrom`'s kind: empty input, 0 errors, no start, not active nor complete, checked index 0, no timer, error reference kept |
| TypingSession.TypingTest.RenderText | components/typing-test.tsx:252-273 | one state per text character: correct or incorrect under the input, the cursor at its end, pending after it |
| TypingSession.RestartedTimeTestExample | components/typing-test.tsx:84-101 | after a restart, the second time test's timer reaches 0 without completing |
| StatisticsEngine.SaveTestResult | lib/statistics-engine.ts:25-45 | the saved result carries the given fields, id and user, and is the last stored element |
| StatisticsEngine.SaveKeepsLastHundred | lib/statistics-engine.ts:36-42 | the user's stored results become the last 100 of the old ones plus the new one |
| StatisticsEngine.SaveLeavesOthers | lib/statistics-engine.ts:39-42 | every other user's results, and their order, are unchanged |
| StatisticsEngine.GetUserTestResults | lib/statistics-engine.ts:47-50 | every result returned belongs to the user |
| StatisticsEngine.UserResultsExactly | lib/statistics-engine.ts:47-50 | a result is returned exactly when it is stored with that user id |
| StatisticsEngine.MeanBounds | lib/statistics-engine.ts:81-82 | a rounded mean lies within any bounds of the values |
| StatisticsEngine.AverageAtMostBest | lib/statistics-engine.ts:80-81 | the average WPM never exceeds the best WPM |
| StatisticsEngine.AverageAccuracyIsPercentage | lib/statistics-engine.ts:82 | the average of percentages is a percentage |
| StatisticsEngine.RecentTests | lib/statistics-engine.ts:87 | the last min(n, 10) results, in reverse order |
| StatisticsEngine.RecentNewestFirst | lib/statistics-engine.ts:75-87 | the recent tests number min(n, 10) and are ordered newest first |
| StatisticsEngine.RecentAreLatest | lib/statistics-engine.ts:75-87 | the recent tests are stored results, and none left out is newer than one kept |
| StatisticsEngine.GroupByDay | lib/statistics-engine.ts:92-99 | the loop groups the sorted results by day, days in first-seen order |
| StatisticsEngine.DayGroupsNonEmpty | lib/statistics-engine.ts:92-99 | every day group holds at least one result |
| StatisticsEngine.DayValues | lib/statistics-engine.ts:92-99 | a day's group holds exactly that day's results, in order |
| StatisticsEngine.DayMeans | lib/statistics-engine.ts:101-109 | one entry per group: the day and the rounded mean of its values |
| StatisticsEngine.ProgressionLength | lib/statistics-engine.ts:90-109 | the progression has one entry per distinct day |
| StatisticsEngine.ProgressionAt | lib/statistics-engine.ts:90-109 | the i-th entry is the i-th distinct day with the rounded mean of that day's results |
| StatisticsEngine.ProgressionPerDay | lib/statistics-engine.ts:90-109 | the same for every entry at once |
| StatisticsEngine.CountByLanguageAndType | lib/statistics-engine.ts:115-118 | the loop tallies languages and test types in first-seen order |
| StatisticsEngine.CalculateStatistics | lib/statistics-engine.ts:52-152 | all zeros without results; otherwise count, sums, best, rounded means, recent tests, per-day progression and tallies of the user's sorted results; both tallies sum to the test count |
| StatisticsEngine.GetGlobalStatistics | lib/statistics-engine.ts:154-227 | the same figures over every stored result, unsorted, with no progression |
| LeaderboardEngine.ConsistencyIsPercentage | lib/leaderboard-engine.ts:126-131 | with a non-negative square root, the guarded consistency score lies in [0, 100] |
| LeaderboardEngine.CalculateUserScore | lib/leaderboard-engine.ts:27-47 | 0 without results; the best WPM, the rounded mean accuracy, the consistency or the count by category; 0 for an unknown category |
| LeaderboardEngine.AccuracyScoreIsPercentage | lib/leaderboard-engine.ts:33-34 | the accuracy score of percentages is a percentage |
| LeaderboardEngine.FilterResultsByPeriod | lib/leaderboard-engine.ts:49-71 | "all-time" keeps everything; any other period keeps only results from its cut-off on |
| LeaderboardEngine.PeriodFilterExactly | lib/leaderboard-engine.ts:49-71 | a result is kept exactly when it is at or after the period's cut-off |
| LeaderboardEngine.FilterResultsByTest | lib/leaderboard-engine.ts:73-89 | never longer than its input |
| LeaderboardEngine.TestFilterIsOneFilter | lib/leaderboard-engine.ts:73-89 | the two filters in a row are one order-preserving filter on the combined condition |
| LeaderboardEngine.TestFilterExactly | lib/leaderboard-engine.ts:73-89 | a result is kept exactly when it matches the test type (unless "all") and the language (unless "all") |
| LeaderboardEngine.GetBadge | lib/leaderboard-engine.ts:91-98 | gold, silver and bronze for ranks 1-3, a trophy up to 10, a star up to 25, none above |
| LeaderboardEngine.EntryFor | lib/leaderboard-engine.ts:107-147 | one user's entry from their qualifying results: score, count, best and rounded averages, consistency, last active = the last qualifying result or the sign-up time |
| LeaderboardEngine.EntryAverageAtMostBest | lib/leaderboard-engine.ts:117-119 | an entry's average WPM never exceeds its best WPM |
| LeaderboardEngine.EntriesFor | lib/leaderboard-engine.ts:107-147 | one entry per user, in user order |
| LeaderboardEngine.Ranked | lib/leaderboard-engine.ts:153-157 | ranks by position and badges by rank, nothing else changed |
| LeaderboardEngine.GenerateLeaderboard | lib/leaderboard-engine.ts:100-160 | empty without users; every entry has tests, rank = position + 1 and the badge of its rank |
| LeaderboardEngine.LeaderboardIsStandings | lib/leaderboard-engine.ts:150-157 | with rank and badge cleared, the leaderboard is the sorted list of users with tests |
| LeaderboardEngine.StandingsSorted | lib/leaderboard-engine.ts:150-152 | the standings are in non-increasing score order |
| LeaderboardEngine.StandingsStable | lib/leaderboard-engine.ts:150-152 | entries with equal scores keep the user-list order |
| LeaderboardEngine.StandingsMembers | lib/leaderboard-engine.ts:150-152 | an entry is in the standings exactly when it is a user's entry with at least one qualifying result |
| LeaderboardEngine.FindEntry | lib/leaderboard-engine.ts:164 | the first entry with the user id, or none exactly when no entry has it |
| LeaderboardEngine.GetUserRank | lib/leaderboard-engine.ts:162-165 | the leaderboard's first entry with the user's id, ranked by its position, or none exactly when the user is not on the leaderboard |
| LeaderboardEngine.GetTopPerformers | lib/leaderboard-engine.ts:167-169 | a prefix of the leaderboard: min(n, 10) entries without a limit, min(n, limit) for a non-negative limit, and n + limit (at least 0) for a negative one, as `slice` has it |
| TestHistory.Shown | components/statistics/test-history.tsx:26-45 | never more results than stored |
| TestHistory.ShownExactly | components/statistics/test-history.tsx:29-45 | a result is shown exactly when it passes the language filter, the type filter and the search |
| TestHistory.EmptySearchMatchesAll | components/statistics/test-history.tsx:39-45 | the empty search term matches every result |
| TestHistory.SortKey | components/statistics/test-history.tsx:51-71 | an unknown sort key sorts by date |
| TestHistory.SortResultsOrdered | components/statistics/test-history.tsx:48-76 | the sort is a permutation, ordered by the key, ascending for "asc" and descending otherwise |
| TestHistory.HeaderColumns | components/statistics/test-history.tsx:81 | the header splits into its seven column names |
| TestHistory.CsvFields | components/statistics/test-history.tsx:83-91 | seven cells per row, the last being the rounded duration |
| TestHistory.CsvRows | components/statistics/test-history.tsx:82-92 | one row per shown result, in order |
| TestHistory.CellsFreeOf | components/statistics/test-history.tsx:83-91 | a character absent from the date, language and type, and not a digit, '-' or a letter of "time"/"words", is absent from every cell |
| TestHistory.CsvRowCells | components/statistics/test-history.tsx:82-92 | a row without commas in its texts splits back into its cells |
| TestHistory.HeaderHasNoBreak | components/statistics/test-history.tsx:81 | the header holds no line break |
| TestHistory.RowHasNoBreak | components/statistics/test-history.tsx:82-92 | a row without line breaks in its texts holds none |
| TestHistory.RowsHaveNoBreak | components/statistics/test-history.tsx:82-92 | the same for every row |
| TestHistory.CsvLines | components/statistics/test-history.tsx:80-93 | the file's lines are the header and then one row per shown result |
| TestHistory.UniqueLanguages | components/statistics/test-history.tsx:104 | every stored language once, and nothing else |
| TestHistory.UniqueTypes | components/statistics/test-history.tsx:105 | every stored test type once, and nothing else |
| TestHistory.HistoryView.constructor | components/statistics/test-history.tsx:15-24 | the user's results with the default filters and a descending date sort |
| TestHistory.HistoryView.FilteredAndSortedResults | components/statistics/test-history.tsx:26-77 | the filtered results, sorted; without filters the sort reorders the user's results themselves |
| Storage.Put | lib/safe-storage.ts:31-33 | setting keeps the store well-formed |
| Storage.Delete | lib/safe-storage.ts:28-30 | deleting keeps the store well-formed |
| Storage.KeyAt | lib/safe-storage.ts:25-27 | a key exactly for the indexes in range |
| Storage.DeleteKeepsValid | lib/safe-storage.ts:28-30 | dropping a key from the key order keeps it duplicate-free |
| Storage.GetAfterSet | lib/safe-storage.ts:22-33 | a set key reads back its value; other keys are unchanged |
| Storage.GetAfterRemove | lib/safe-storage.ts:22-30 | a removed key reads null; other keys are unchanged |
| Storage.GetFromEmpty | lib/safe-storage.ts:13-24 | a fresh store reads null for every key and has length 0 |
| Storage.LengthIsKeyCount | lib/safe-storage.ts:16-18 | the length is the number of distinct keys |
| Storage.SetItemLength | lib/safe-storage.ts:16-33 | setting a new key adds one to the length; re-setting a key changes neither the length nor the key order |
| Storage.NewKeyIsLast | lib/safe-storage.ts:25-33 | a newly set key is the last in insertion order |
| Storage.MemoryStorage.constructor | lib/safe-storage.ts:13-14 | a new store is empty |
| Storage.MemoryStorage.Clear | lib/safe-storage.ts:19-21 | clearing empties the store |
| Storage.MemoryStorage.SetItem | lib/safe-storage.ts:31-33 | the store becomes `Put` of the old one and stays well-formed |
| Storage.MemoryStorage.RemoveItem | lib/safe-storage.ts:28-30 | the store becomes `Delete` of the old one and stays well-formed |
| Storage.DetectStorage | lib/safe-storage.ts:37-49 | browser storage is used exactly when a window exists and the probe does not throw |
| Storage.JsonOrFallback | lib/safe-storage.ts:76-84 | the fallback for a missing key or a parse error; otherwise the parsed value |
| Storage.JsonRoundTrip | lib/safe-storage.ts:76-92 | a value written as JSON reads back as itself when parse inverts stringify |
| Storage.ProbeRemovesKey | lib/safe-storage.ts:42-44 | writing the probe key and removing it again leaves the store as removing that key alone |
| Storage.SafeStorage.constructor | lib/safe-storage.ts:37-54 | availability per `DetectStorage`; the browser's contents without the probe key, or an empty memory store |
| Storage.SafeStorage.GetItem | lib/safe-storage.ts:55-61 | the stored value, or null when storage throws |
| Storage.SafeStorage.SetItem | lib/safe-storage.ts:62-68 | sets the key, or changes nothing when storage throws |
| Storage.SafeStorage.RemoveItem | lib/safe-storage.ts:69-75 | removes the key, or changes nothing when storage throws |
| Storage.SafeStorage.GetJSON | lib/safe-storage.ts:76-84 | the fallback for a missing key or a throwing store; otherwise the parsed value or the fallback |
| Storage.SafeStorage.SetJSON | lib/safe-storage.ts:85-92 | stores the JSON text, or changes nothing when stringify or storage throws |
| Settings.Merge | lib/settings-context.tsx:55 | each field is the supplied one, or the base's when not supplied |
| Settings.MergeIdempotent | lib/settings-context.tsx:55 | applying the same partial update twice equals applying it once |
| Settings.MergeExtremes | lib/settings-context.tsx:47-55 | an empty update changes nothing; a complete one replaces everything |
| Settings.MergeTwice | lib/settings-context.tsx:54-58 | two updates in a row equal one update with the later fields winning |
| Settings.LoadSettings | lib/settings-context.tsx:41-51 | the defaults without saved text or when parsing fails; otherwise the defaults overridden by the saved fields |
| Settings.LoadSaved | lib/settings-context.tsx:41-51 | saved complete settings load back as themselves |
| Settings.SettingsProvider.constructor | lib/settings-context.tsx:39 | starts from the defaults |
| Settings.SettingsProvider.Load | lib/settings-context.tsx:41-52 | the mount effect replaces the settings by the loaded ones only when the read does not throw and the saved text parses |
| Settings.SettingsProvider.Render | lib/settings-context.tsx:65-67 | a render hands the current settings to the context's callbacks |
| Settings.SettingsProvider.UpdateSettings | lib/settings-context.tsx:54-58 | the settings of the last render merged with the update; persisted unless the storage write throws |
| Settings.SettingsProvider.ResetSettings | lib/settings-context.tsx:60-63 | exactly the defaults; persisted unless the storage write throws |
| AuthReplies.ErrorOr | components/auth/login-form.tsx:41 | a non-empty reply error, otherwise the fallback text |
| LoginForm.LoginValidation | components/auth/login-form.tsx:30-33 | passes exactly when email and password are both non-empty; otherwise "Please fill in all fields" |
| LoginForm.LoginError | components/auth/login-form.tsx:37-42 | empty after a success; after a failure the reply's error, or "Login failed" when it is missing or empty |
| LoginForm.Login.constructor | components/auth/login-form.tsx:19-21 | empty fields and no error |
| LoginForm.Login.Submit | components/auth/login-form.tsx:26-44 | clears the error; on empty fields sets the message and calls nothing; otherwise calls login, then goes to "/" on success or shows the reply error or "Login failed" |
| SignupForm.SignupValidation | components/auth/signup-form.tsx:35-53 | passes exactly when all four checks pass; each message exactly when its check is the first to fail |
| SignupForm.VerifyValidation | components/auth/signup-form.tsx:62-65 | passes exactly when email and code are non-empty; otherwise asks for the code |
| SignupForm.Signup.constructor | components/auth/signup-form.tsx:19-25 | the signup step with empty fields |
| SignupForm.Signup.Submit | components/auth/signup-form.tsx:30-75 | clears the error; the signup step validates, calls signup and moves to verify on success; the verify step validates, calls verify and goes to "/" on success; the form never returns to the signup step |
| TestResults.WpmTier | components/test-results.tsx:57-62 | tier 3 exactly from 70 WPM, at least 2 from 50, at least 1 from 30 |
| TestResults.GetWpmRating | components/test-results.tsx:57-62 | excellent (green) from 70 WPM, good (blue) from 50, average (yellow) from 30, needs practice (red) below |
| TestResults.AccuracyTier | components/test-results.tsx:64-69 | tier 3 exactly from 95 %, at least 2 from 90, at least 1 from 80 |
| TestResults.GetAccuracyRating | components/test-results.tsx:64-69 | perfect (green) from 95 %, excellent (blue) from 90, good (yellow) from 80, needs work (red) below |
| TestResults.RatingsMonotone | components/test-results.tsx:57-69 | a higher value never gets a lower tier |
| TestResults.TipsShown | components/test-results.tsx:234-239 | the accuracy tip exactly below 90 %, the touch-typing tip exactly below 40 WPM, the take-your-time tip exactly above 5 errors, and the last three always |
| TestResults.SaveNoticeFor | components/test-results.tsx:33-41 | success shows the reply message; a failure with status 401 warns to log in; any other failure shows the reply message or "Unexpected error happened" |
| TestResults.ResultsRank | components/test-results.tsx:47-55 | none without a user; otherwise the user's rank under {wpm, all-time, all, all} |
| LeaderboardView.WithFilter | components/leaderboard.tsx:61-63 | the named field takes the value; the other fields are unchanged |
| LeaderboardView.WithFilterLaws | components/leaderboard.tsx:61-63 | setting a field to its own value changes nothing; the later of two settings of a field wins |
| LeaderboardView.LeaderboardPage.constructor | components/leaderboard.tsx:46-51 | the filters start at {wpm, all-time, all, all} |
| LeaderboardView.LeaderboardPage.UpdateFilter | components/leaderboard.tsx:61-63 | the filters become `WithFilter` of the old ones |
| LeaderboardView.PersonalRank | components/leaderboard.tsx:57-59 | none without a user; otherwise the user's rank under the page's filters |
| LeaderboardView.GetRankIcon | components/leaderboard.tsx:65-71 | a crown exactly for 1, medals exactly for 2 and 3, a trophy exactly for the other ranks up to 10, a star exactly above 10 |
| LeaderboardView.FormatScore | components/leaderboard.tsx:73-86 | the number, then " <wpm>", "%" or " <tests>" by category; the plain number otherwise |
| LeaderboardView.FormatScoreReadsBack | components/leaderboard.tsx:73-86 | the digits at the front of a formatted score read back as the score |
| LeaderboardView.Panel | components/leaderboard.tsx:207-215 | the empty state exactly for an empty leaderboard; otherwise its first min(n, 50) entries |
| LeaderboardView.RankTipsShown | components/leaderboard.tsx:352-357 | each conditional tip exactly under its condition (rank > 10, accuracy < 95, tests < 20, consistency < 80); the last two always |
| LeaderboardWidget.GetRankIcon | components/leaderboard/leaderboard-widget.tsx:22-27 | a crown exactly for 1, medals exactly for 2 and 3, a trophy for every other rank |
| LeaderboardWidget.FormatScore | components/leaderboard/leaderboard-widget.tsx:29-42 | the number, then " WPM", "%" or " tests" by category; the plain number otherwise |
| LeaderboardWidget.Body | components/leaderboard/leaderboard-widget.tsx:17-61 | "No data available" exactly when the top performers are empty; else the first `limit` entries (5 by default) |
| StatisticsDashboard.EmptyStateFor | components/statistics/statistics-dashboard.tsx:28-44 | the "No Test Data Yet" card shows exactly when no stored result belongs to the user |
| StatisticsDashboard.TimeParts | components/statistics/statistics-dashboard.tsx:47-50 | for non-negative seconds, minutes and seconds below 60, and hours, minutes and seconds add back to the whole seconds |
| StatisticsDashboard.PartsOfTime | components/statistics/statistics-dashboard.tsx:47-50 | the same bounds and sum for the floor and remainder expressions as written |
| StatisticsDashboard.FormatTime | components/statistics/statistics-dashboard.tsx:46-51 | "Hh Mm" when there are hours, "Mm Ss" otherwise |
| StatisticsDashboard.TypeBar | components/statistics/statistics-dashboard.tsx:265 | a non-negative percentage, at most 100 for a count within the total, and 100 exactly for the total |
| StatisticsDashboard.TypeBarsArePercentages | components/statistics/statistics-dashboard.tsx:259-265 | every per-type bar of a statistics value lies in [0, 100] |
| TimeProgress.Remaining | components/progress/time-progress.tsx:23-24 | max(0, duration - elapsed), within [0, duration]; 0 exactly once the duration has passed |
| TimeProgress.SecondsLeft | components/progress/time-progress.tsx:27 | the ceiling in seconds, within [0, testValue]; 0 exactly once the duration has passed |
| TimeProgress.SecondsLeftMonotone | components/progress/time-progress.tsx:23-27 | the seconds left never increase as time passes |
| TimeProgress.ProgressPercent | components/progress/time-progress.tsx:60 | at most 100, non-negative for non-negative elapsed time, and 100 exactly once the duration has passed |
| TimeProgress.TimeBar.constructor | components/progress/time-progress.tsx:10-45 | the initial state, then the effects: an active bar starts its interval at `now` |
| TimeProgress.TimeBar.RunEffects | components/progress/time-progress.tsx:16-57 | a re-run clears the interval; an active bar without a start starts one; an inactive bar resets start, current time and time left |
| TimeProgress.TimeBar.Tick | components/progress/time-progress.tsx:22-36 | updates the current time and the seconds left; stops and schedules one completion exactly when nothing remains |
| TimeProgress.TimeBar.Progress | components/progress/time-progress.tsx:59-61 | 0 unless active and started; otherwise the progress percentage of the elapsed time |

## Left out

- Exceptions from `localStorage` in the settings provider are flags (`readThrows`, `writeThrows`) that end the handler; the exception's propagation to React is not modelled.
- Browser storage. The result list and the user list are passed in, and `saveTestResult` returns the new list instead of writing it.
- The signed-in user's running statistics that `completeTest` writes to storage (components/typing-test.tsx:174-198). They are storage plumbing that nothing else in the model reads.
- Random ids and random sample choice. Both are parameters.
- The sample sentences. The catalogue is a parameter, so the model does not depend on particular sentences.
- Date arithmetic and date formatting. The period cut-offs arrive precomputed in a `Clock`. The day key is the day number from the epoch, `completedAt / 86400000`, which matches the UTC date the ISO string gives. CSV dates come from a parameter function. ISO timestamps are plain millisecond integers.
- Timers. `setInterval`, `clearInterval` and `setTimeout` become explicit `Tick` calls. The deferred `onComplete` becomes a completion counter.
- Floating-point rounding. Arithmetic is exact on `real`. `Math.sqrt` is a parameter, and `improvementRate` is not modelled.
- LeaderboardEngine.CalculateUserScore: the "consistency" score uses the `mean > 0` guard of the entry computation. `calculateUserScore` itself has no such guard, and gives NaN when every WPM is 0; there the model gives 0.
- String lengths count characters, not UTF-16 code units. `toLowerCase` maps only ASCII letters.
- JavaScript object details. Keys of `testsByLanguage` and `testsByType` are kept in insertion order; JavaScript orders integer-like keys first, and no language name is one. Prototype keys and explicit `undefined` values in a partial settings object are not modelled. Stored JSON is typed.
- The history's sort on an aliased array is stated on values. `HistoryView.FilteredAndSortedResults` replaces the stored results when no filter applies, instead of mutating a shared array.
- TimeProgress.ProgressPercent: requires a positive duration, because a zero duration divides by zero (NaN or Infinity in the source).
- TimeProgress.TimeBar.Progress: requires a positive duration, for the same reason.
- The save effect and the server actions behind test results, login, signup and verify. Their replies are arguments.
- The toast texts. When `toast.success(response.message)` is given no message, the model keeps `None`.
- Rendering, theming, navigation and translations. Labels are keys or parameters. The icons are a datatype.
