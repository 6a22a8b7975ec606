/**
 * The test-history table: the user's results narrowed by language, test type
 * and a search term, sorted by the chosen column, exported as CSV, and the
 * lists of languages and types offered by the filter menus.
 */
module TestHistory {
  import opened Wrappers
  import opened JsMath
  import opened Strings
  import opened Sequences
  import opened TypingEngine
  import opened StatisticsEngine

  // ----------------------------------------------------------------- filters

  function InLanguage(language: string): DetailedTestResult -> bool
  {
    (d: DetailedTestResult) => d.result.language == language
  }

  function OfType(testType: string): DetailedTestResult -> bool
  {
    (d: DetailedTestResult) => TestTypeName(d.result.testType) == testType
  }

  /** The search: the lower-cased term occurs in the lower-cased language or test type. */
  predicate SearchMatches(term: string, d: DetailedTestResult)
  {
    Includes(ToLower(d.result.language), ToLower(term)) ||
    Includes(ToLower(TestTypeName(d.result.testType)), ToLower(term))
  }

  function Matching(term: string): DetailedTestResult -> bool
  {
    (d: DetailedTestResult) => SearchMatches(term, d)
  }

  /** The filter chain; an empty search term is falsy and filters nothing. */
  function Shown(all: seq<DetailedTestResult>, languageFilter: string, typeFilter: string, searchTerm: string)
    : (r: seq<DetailedTestResult>)
    ensures |r| <= |all|
  {
    var byLanguage := if languageFilter != "all" then Filter(all, InLanguage(languageFilter)) else all;
    var byType := if typeFilter != "all" then Filter(byLanguage, OfType(typeFilter)) else byLanguage;
    if |searchTerm| > 0 then Filter(byType, Matching(searchTerm)) else byType
  }

  /** A result is shown exactly when it passes every filter that applies. */
  lemma ShownExactly(all: seq<DetailedTestResult>, languageFilter: string, typeFilter: string, searchTerm: string,
                     d: DetailedTestResult)
    ensures d in Shown(all, languageFilter, typeFilter, searchTerm)
        <==> && d in all
             && (languageFilter == "all" || d.result.language == languageFilter)
             && (typeFilter == "all" || TestTypeName(d.result.testType) == typeFilter)
             && (searchTerm == "" || SearchMatches(searchTerm, d))
  {
    var byLanguage := if languageFilter != "all" then Filter(all, InLanguage(languageFilter)) else all;
    var byType := if typeFilter != "all" then Filter(byLanguage, OfType(typeFilter)) else byLanguage;
    if languageFilter != "all" {
      FilterMembers(all, InLanguage(languageFilter), d);
    }
    if typeFilter != "all" {
      FilterMembers(byLanguage, OfType(typeFilter), d);
    }
    if |searchTerm| > 0 {
      FilterMembers(byType, Matching(searchTerm), d);
    }
  }

  /** The empty term would match every result anyway: the empty string occurs in every string. */
  lemma EmptySearchMatchesAll(d: DetailedTestResult)
    ensures SearchMatches("", d)
  {
    IncludesEmpty(ToLower(d.result.language));
  }

  // ----------------------------------------------------------------- sorting

  /** The sort column; an unknown column sorts by date. */
  function SortKey(sortBy: string): (key: DetailedTestResult -> int)
    ensures sortBy !in {"wpm", "accuracy", "errors"} ==> key == CompletedAt
  {
    if sortBy == "wpm" then Wpm
    else if sortBy == "accuracy" then Accuracy
    else if sortBy == "errors" then Errors
    else CompletedAt
  }

  /** The comparator sort: ascending for "asc", descending otherwise; stable. */
  function SortResults(s: seq<DetailedTestResult>, sortBy: string, sortOrder: string): seq<DetailedTestResult>
  {
    SortBy(s, SortKey(sortBy), sortOrder != "asc")
  }

  /** The sorted table is a permutation of what was filtered, in the chosen order. */
  lemma SortResultsOrdered(s: seq<DetailedTestResult>, sortBy: string, sortOrder: string)
    ensures multiset(SortResults(s, sortBy, sortOrder)) == multiset(s)
    ensures Sorted(SortResults(s, sortBy, sortOrder), SortKey(sortBy), sortOrder != "asc")
  {
    SortBySorted(s, SortKey(sortBy), sortOrder != "asc");
  }

  // --------------------------------------------------------------------- CSV

  const CsvColumns: seq<string> := ["Date", "WPM", "Accuracy", "Errors", "Type", "Language", "Duration"]

  const CsvHeader: string := Join(CsvColumns, ',')

  /** The header line splits into the seven column names. */
  lemma HeaderColumns()
    ensures Split(CsvHeader, ',') == CsvColumns
  {
    assert forall i :: 0 <= i < 7 ==> ',' !in CsvColumns[i];
    SplitJoin(CsvColumns, ',');
  }

  /** The seven cells of one row; the locale date text is a parameter. */
  function CsvFields(d: DetailedTestResult, formatDate: int -> string): (cells: seq<string>)
    ensures |cells| == 7
    ensures cells[6] == IntToString(Round(d.result.timeElapsed))
  {
    [formatDate(d.result.completedAt), IntToString(d.result.wpm), IntToString(d.result.accuracy),
     IntToString(d.result.errors), TestTypeName(d.result.testType), d.result.language,
     IntToString(Round(d.result.timeElapsed))]
  }

  function CsvRow(d: DetailedTestResult, formatDate: int -> string): string
  {
    Join(CsvFields(d, formatDate), ',')
  }

  function CsvRows(shown: seq<DetailedTestResult>, formatDate: int -> string): (rows: seq<string>)
    ensures |rows| == |shown|
    ensures forall i :: 0 <= i < |shown| ==> rows[i] == CsvRow(shown[i], formatDate)
  {
    if |shown| == 0 then [] else [CsvRow(shown[0], formatDate)] + CsvRows(shown[1..], formatDate)
  }

  /** `exportResults`' file content: the header line, then one line per shown result. */
  function ExportCsv(shown: seq<DetailedTestResult>, formatDate: int -> string): string
  {
    Join([CsvHeader] + CsvRows(shown, formatDate), '\n')
  }

  /** Neither the date text nor the language contain `c`. */
  predicate FreeOf(d: DetailedTestResult, formatDate: int -> string, c: char)
  {
    c !in formatDate(d.result.completedAt) && c !in d.result.language
  }

  lemma CellsFreeOf(d: DetailedTestResult, formatDate: int -> string, c: char)
    requires FreeOf(d, formatDate, c)
    requires c != '-' && !('0' <= c <= '9') && c !in "time" && c !in "words"
    ensures forall i :: 0 <= i < 7 ==> c !in CsvFields(d, formatDate)[i]
  {
    var cells := CsvFields(d, formatDate);
    assert cells[4] == "time" || cells[4] == "words";
  }

  /** With no comma in the date text or the language, a row splits back into its seven cells. */
  lemma CsvRowCells(d: DetailedTestResult, formatDate: int -> string)
    requires FreeOf(d, formatDate, ',')
    ensures Split(CsvRow(d, formatDate), ',') == CsvFields(d, formatDate)
  {
    CellsFreeOf(d, formatDate, ',');
    SplitJoin(CsvFields(d, formatDate), ',');
  }

  lemma HeaderHasNoBreak()
    ensures '\n' !in CsvHeader
  {
    assert forall i :: 0 <= i < 7 ==> '\n' !in CsvColumns[i];
    JoinAvoids(CsvColumns, ',', '\n');
  }

  lemma RowHasNoBreak(d: DetailedTestResult, formatDate: int -> string)
    requires FreeOf(d, formatDate, '\n')
    ensures '\n' !in CsvRow(d, formatDate)
  {
    CellsFreeOf(d, formatDate, '\n');
    JoinAvoids(CsvFields(d, formatDate), ',', '\n');
  }

  lemma RowsHaveNoBreak(shown: seq<DetailedTestResult>, formatDate: int -> string)
    requires forall i :: 0 <= i < |shown| ==> FreeOf(shown[i], formatDate, '\n')
    ensures forall i :: 0 <= i < |shown| ==> '\n' !in CsvRows(shown, formatDate)[i]
  {
    forall i | 0 <= i < |shown| ensures '\n' !in CsvRows(shown, formatDate)[i] {
      RowHasNoBreak(shown[i], formatDate);
    }
  }

  /** With no line break in the date text or the language, the file has the header and one line per result. */
  lemma CsvLines(shown: seq<DetailedTestResult>, formatDate: int -> string)
    requires forall i :: 0 <= i < |shown| ==> FreeOf(shown[i], formatDate, '\n')
    ensures Split(ExportCsv(shown, formatDate), '\n') == [CsvHeader] + CsvRows(shown, formatDate)
  {
    HeaderHasNoBreak();
    RowsHaveNoBreak(shown, formatDate);
    SplitJoinCons(CsvHeader, CsvRows(shown, formatDate), '\n');
  }

  // ------------------------------------------------------------ filter menus

  /** `[...new Set(allResults.map(r => r.language))]`. */
  function UniqueLanguages(all: seq<DetailedTestResult>): (r: seq<string>)
    ensures forall i :: 0 <= i < |all| ==> all[i].result.language in r
    ensures forall i :: 0 <= i < |r| ==> exists j :: 0 <= j < |all| && all[j].result.language == r[i]
    ensures forall i, j :: 0 <= i < j < |r| ==> r[i] != r[j]
  {
    var langs := Map(all, LanguageOf);
    assert forall i :: 0 <= i < |all| ==> langs[i] == all[i].result.language;
    Distinct(langs)
  }

  function TypeNameOf(d: DetailedTestResult): string { TestTypeName(d.result.testType) }

  /** `[...new Set(allResults.map(r => r.testType))]`. */
  function UniqueTypes(all: seq<DetailedTestResult>): (r: seq<string>)
    ensures forall i :: 0 <= i < |all| ==> TestTypeName(all[i].result.testType) in r
    ensures forall i :: 0 <= i < |r| ==> exists j :: 0 <= j < |all| && TestTypeName(all[j].result.testType) == r[i]
    ensures forall i, j :: 0 <= i < j < |r| ==> r[i] != r[j]
  {
    var names := Map(all, TypeNameOf);
    assert forall i :: 0 <= i < |all| ==> names[i] == TestTypeName(all[i].result.testType);
    Distinct(names)
  }

  // --------------------------------------------------------------- component

  /**
   * The component's state.  `allResults` is the memoised list; the sort works
   * in place on the filtered array, which is that same list when no filter
   * applies, so sorting then reorders `allResults` itself.
   */
  class HistoryView {
    var allResults: seq<DetailedTestResult>
    var searchTerm: string
    var languageFilter: string
    var typeFilter: string
    var sortBy: string
    var sortOrder: string

    constructor (stored: seq<DetailedTestResult>, userId: Option<string>)
      ensures allResults == GetUserTestResults(stored, userId)
      ensures searchTerm == "" && languageFilter == "all" && typeFilter == "all"
      ensures sortBy == "date" && sortOrder == "desc"
    {
      allResults := GetUserTestResults(stored, userId);
      searchTerm := "";
      languageFilter := "all";
      typeFilter := "all";
      sortBy := "date";
      sortOrder := "desc";
    }

    /** No filter applies, so the filtered array is `allResults` itself. */
    predicate Unfiltered()
      reads this
    {
      languageFilter == "all" && typeFilter == "all" && |searchTerm| == 0
    }

    /** `filteredAndSortedResults`. */
    method FilteredAndSortedResults() returns (shown: seq<DetailedTestResult>)
      modifies this
      ensures shown == SortResults(Shown(old(allResults), languageFilter, typeFilter, searchTerm), sortBy, sortOrder)
      ensures allResults == if Unfiltered() then shown else old(allResults)
      ensures searchTerm == old(searchTerm) && languageFilter == old(languageFilter) && typeFilter == old(typeFilter)
      ensures sortBy == old(sortBy) && sortOrder == old(sortOrder)
    {
      var filtered := allResults;
      if languageFilter != "all" {
        filtered := Filter(filtered, InLanguage(languageFilter));
      }
      if typeFilter != "all" {
        filtered := Filter(filtered, OfType(typeFilter));
      }
      if |searchTerm| > 0 {
        filtered := Filter(filtered, Matching(searchTerm));
      }
      shown := SortResults(filtered, sortBy, sortOrder);
      if Unfiltered() {
        allResults := shown;
      }
    }
  }
}
