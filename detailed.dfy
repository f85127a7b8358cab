/** The detailed-results table (`format_detailed_results`): one row per
    test path, one column per page URL and per URL at each discovered
    breakpoint. Only the dictionary of rows the code builds is modelled;
    the DataFrame it is handed to is not, apart from the column order the
    code asks for. */
module DetailedResults {
  import opened Dicts
  import opened Strs
  import opened JsonValue
  import opened Flattener
  import opened RowSort
  import opened PrefixFolds
  import Summary

  // Reading a page result.

  /** The values `for x in j` visits: a list's elements, a dict's keys and a
      string's characters. Other values are not iterable and give none. */
  function Iterate(j: Json): seq<Json>
  {
    match j
    case JList(xs) => xs
    case JObj(fs) => seq(|fs|, i requires 0 <= i < |fs| => JStr(fs[i].0))
    case JStr(s) => seq(|s|, i requires 0 <= i < |s| => JStr([s[i]]))
    case _ => []
  }

  /** `result.get('results', {}).get('accessibility', {})`. */
  function Accessibility(result: Json): Json
  {
    Sub(Sub(result, "results"), "accessibility")
  }

  /** The keys of the responsive section and of its per-breakpoint
      results. */
  const ResponsiveKey: string := "responsive_testing"
  const BreakpointResultsKey: string := "breakpoint_results"

  predicate HasResponsive(result: Json)
  {
    Truthy(Accessibility(result)) && Has(Accessibility(result), ResponsiveKey)
  }

  function Responsive(result: Json): Json
  {
    Sub(Accessibility(result), ResponsiveKey)
  }

  /** The page URLs, in page order. */
  function Urls(results: seq<Json>): (r: seq<string>)
    ensures |r| == |results|
    ensures forall p :: 0 <= p < |results| ==> r[p] == Summary.PageUrl(results[p])
  {
    if |results| == 0 then []
    else Urls(results[..|results| - 1]) + [Summary.PageUrl(results[|results| - 1])]
  }

  // Breakpoint discovery.

  /** `str(v)` of each value. */
  function Texts(vs: seq<Json>): (r: seq<string>)
    ensures |r| == |vs|
    ensures forall i :: 0 <= i < |vs| ==> r[i] == PyStr(vs[i])
  {
    if |vs| == 0 then [] else Texts(vs[..|vs| - 1]) + [PyStr(vs[|vs| - 1])]
  }

  /** The breakpoints a page lists under `responsive_testing.breakpoints`. */
  function PageBreakpoints(result: Json): seq<string>
  {
    if HasResponsive(result) && Has(Responsive(result), "breakpoints") then
      Texts(Iterate(Sub(Responsive(result), "breakpoints")))
    else []
  }

  /** Every page's breakpoints, in page order, repeats included. */
  function BreakpointTexts(results: seq<Json>): seq<string>
  {
    if |results| == 0 then []
    else BreakpointTexts(results[..|results| - 1]) + PageBreakpoints(results[|results| - 1])
  }

  /** `seen.add(x)` on a set kept as the list of its elements. */
  function AddToSet<T(==)>(seen: seq<T>, x: T): seq<T>
  {
    if x in seen then seen else seen + [x]
  }

  function AddAll<T(==)>(seen: seq<T>, xs: seq<T>): seq<T>
  {
    if |xs| == 0 then seen else AddToSet(AddAll(seen, xs[..|xs| - 1]), xs[|xs| - 1])
  }

  lemma {:induction false} AddAllAppend<T>(seen: seq<T>, xs: seq<T>, ys: seq<T>)
    ensures AddAll(seen, xs + ys) == AddAll(AddAll(seen, xs), ys)
  {
    if |ys| == 0 {
      assert xs + ys == xs;
    } else {
      assert (xs + ys)[..|xs + ys| - 1] == xs + ys[..|ys| - 1];
      AddAllAppend(seen, xs, ys[..|ys| - 1]);
    }
  }

  /** Adding to a set of distinct elements keeps one copy of each. */
  lemma {:induction false} AddAllCount<T>(seen: seq<T>, xs: seq<T>, x: T)
    requires multiset(seen)[x] <= 1
    ensures multiset(AddAll(seen, xs))[x] == if x in seen || x in xs then 1 else 0
  {
    if |xs| > 0 {
      var init := xs[..|xs| - 1];
      AddAllCount(seen, init, x);
      assert xs == init + [xs[|xs| - 1]];
    }
  }

  /** The set of breakpoint texts is exactly the texts seen, once each. */
  function BreakpointSet(results: seq<Json>): seq<string>
  {
    AddAll([], BreakpointTexts(results))
  }

  /** `int(x) if x.isdigit() else 0`, the breakpoint sort key. */
  function BreakpointKey(x: string): seq<Atom>
  {
    [AInt(if IsDigits(x) then DigitsValue(x) else 0)]
  }

  /** `sorted(all_breakpoints, key=...)`. */
  function SortedBreakpoints(results: seq<Json>): seq<string>
  {
    SortBy(BreakpointSet(results), BreakpointKey)
  }

  /** Each breakpoint any page lists appears exactly once, no other text
      appears, and the list is in ascending numeric order. */
  lemma SortedBreakpointsSpec(results: seq<Json>, x: string)
    ensures multiset(SortedBreakpoints(results))[x] == if x in BreakpointTexts(results) then 1 else 0
    ensures SortedBy(SortedBreakpoints(results), BreakpointKey)
  {
    AddAllCount([], BreakpointTexts(results), x);
    SortBySorted(BreakpointSet(results), BreakpointKey);
  }

  // The URL x breakpoint column map.

  /** The key of a URL at a breakpoint, `f"{url}:{bp}"`. */
  function BpKey(url: string, bp: string): string
  {
    url + ":" + bp
  }

  /** The column title of a URL at a breakpoint, `f"{url} @ {bp}px"`. */
  function BpColumn(url: string, bp: string): string
  {
    url + " @ " + bp + "px"
  }

  function UrlColumns(d: Dict<string, string>, url: string, bps: seq<string>): Dict<string, string>
  {
    if |bps| == 0 then d
    else
      var bp := bps[|bps| - 1];
      Put(UrlColumns(d, url, bps[..|bps| - 1]), BpKey(url, bp), BpColumn(url, bp))
  }

  /** `url_bp_columns`: each URL maps to itself and each URL-breakpoint key
      to its column title. */
  function ColumnMap(urls: seq<string>, bps: seq<string>): Dict<string, string>
  {
    if |urls| == 0 then []
    else
      var url := urls[|urls| - 1];
      UrlColumns(Put(ColumnMap(urls[..|urls| - 1], bps), url, url), url, bps)
  }

  /** `f"{url}:{bp}"` for some listed URL and breakpoint. */
  predicate IsBpKey(urls: seq<string>, bps: seq<string>, k: string)
  {
    exists i, j :: 0 <= i < |urls| && 0 <= j < |bps| && k == BpKey(urls[i], bps[j])
  }

  lemma {:induction false} UrlColumnsKeys(d: Dict<string, string>, url: string, bps: seq<string>, k: string)
    ensures HasKey(UrlColumns(d, url, bps), k) <==> HasKey(d, k) || IsUrlBpKey(url, bps, k)
  {
    if |bps| > 0 {
      var init := bps[..|bps| - 1];
      var bp := bps[|bps| - 1];
      UrlColumnsKeys(d, url, init, k);
      PutHasKey(UrlColumns(d, url, init), BpKey(url, bp), BpColumn(url, bp), k);
      IsUrlBpKeySnoc(url, bps, k);
    }
  }

  lemma IsUrlBpKeySnoc(url: string, bps: seq<string>, k: string)
    requires |bps| > 0
    ensures IsUrlBpKey(url, bps, k)
      <==> IsUrlBpKey(url, bps[..|bps| - 1], k) || k == BpKey(url, bps[|bps| - 1])
  {
    var init := bps[..|bps| - 1];
    if IsUrlBpKey(url, bps, k) {
      var j :| 0 <= j < |bps| && k == BpKey(url, bps[j]);
      if j < |init| {
        assert init[j] == bps[j];
      }
    }
    if IsUrlBpKey(url, init, k) {
      var j :| 0 <= j < |init| && k == BpKey(url, init[j]);
      assert bps[j] == init[j];
    }
  }

  /** A breakpoint key of the URLs and one more URL. */
  predicate IsUrlBpKey(url: string, bps: seq<string>, k: string)
  {
    exists j :: 0 <= j < |bps| && k == BpKey(url, bps[j])
  }

  lemma IsBpKeySnoc(urls: seq<string>, bps: seq<string>, k: string)
    requires |urls| > 0
    ensures IsBpKey(urls, bps, k)
      <==> IsBpKey(urls[..|urls| - 1], bps, k) || IsUrlBpKey(urls[|urls| - 1], bps, k)
  {
    var init := urls[..|urls| - 1];
    var url := urls[|urls| - 1];
    if IsBpKey(urls, bps, k) {
      var i, j :| 0 <= i < |urls| && 0 <= j < |bps| && k == BpKey(urls[i], bps[j]);
      if i < |init| {
        assert init[i] == urls[i];
      }
    }
    if IsBpKey(init, bps, k) {
      var i, j :| 0 <= i < |init| && 0 <= j < |bps| && k == BpKey(init[i], bps[j]);
      assert urls[i] == init[i];
    }
  }

  lemma InSnoc<T>(xs: seq<T>, x: T)
    requires |xs| > 0
    ensures x in xs <==> x in xs[..|xs| - 1] || x == xs[|xs| - 1]
  {
    assert xs == xs[..|xs| - 1] + [xs[|xs| - 1]];
  }

  /** The map holds exactly the URLs and the URL-breakpoint keys, so the
      lookup of a page's own URL never fails. */
  lemma {:induction false} ColumnMapKeys(urls: seq<string>, bps: seq<string>, k: string)
    ensures HasKey(ColumnMap(urls, bps), k) <==> k in urls || IsBpKey(urls, bps, k)
  {
    if |urls| > 0 {
      var init := urls[..|urls| - 1];
      ColumnMapKeys(init, bps, k);
      ColumnMapStep(urls, bps, k);
      InSnoc(urls, k);
      IsBpKeySnoc(urls, bps, k);
    }
  }

  /** The last URL adds itself and its breakpoint keys. */
  lemma ColumnMapStep(urls: seq<string>, bps: seq<string>, k: string)
    requires |urls| > 0
    ensures HasKey(ColumnMap(urls, bps), k)
      <==> HasKey(ColumnMap(urls[..|urls| - 1], bps), k) || k == urls[|urls| - 1] || IsUrlBpKey(urls[|urls| - 1], bps, k)
  {
    var url := urls[|urls| - 1];
    var m0 := ColumnMap(urls[..|urls| - 1], bps);
    var m1 := Put(m0, url, url);
    PutHasKey(m0, url, url, k);
    UrlColumnsKeys(m1, url, bps, k);
  }

  /** An entry of the map: a URL to itself, or a URL-breakpoint key to the
      column title of that URL and breakpoint. */
  predicate ColumnFor(urls: seq<string>, bps: seq<string>, k: string, v: string)
  {
    (k in urls && v == k) ||
    exists i, j :: 0 <= i < |urls| && 0 <= j < |bps| && k == BpKey(urls[i], bps[j]) && v == BpColumn(urls[i], bps[j])
  }

  predicate MapsColumns(d: Dict<string, string>, urls: seq<string>, bps: seq<string>)
  {
    forall e :: e in d ==> ColumnFor(urls, bps, e.0, e.1)
  }

  lemma PutMaps(d: Dict<string, string>, urls: seq<string>, bps: seq<string>, k: string, v: string)
    requires MapsColumns(d, urls, bps) && ColumnFor(urls, bps, k, v)
    ensures MapsColumns(Put(d, k, v), urls, bps)
  {
    var r := Put(d, k, v);
    forall e | e in r
      ensures ColumnFor(urls, bps, e.0, e.1)
    {
      var i :| 0 <= i < |r| && r[i] == e;
      PutEntries(d, k, v, i);
    }
  }

  lemma {:induction false} UrlColumnsMaps(d: Dict<string, string>, urls: seq<string>, u: nat, bps: seq<string>, m: nat)
    requires u < |urls| && m <= |bps| && MapsColumns(d, urls, bps)
    ensures MapsColumns(UrlColumns(d, urls[u], bps[..m]), urls, bps)
  {
    if m > 0 {
      assert bps[..m][..m - 1] == bps[..m - 1];
      UrlColumnsMaps(d, urls, u, bps, m - 1);
      assert bps[..m][m - 1] == bps[m - 1];
      PutMaps(UrlColumns(d, urls[u], bps[..m - 1]), urls, bps, BpKey(urls[u], bps[m - 1]), BpColumn(urls[u], bps[m - 1]));
    }
  }

  lemma {:induction false} ColumnMapMapsPrefix(urls: seq<string>, bps: seq<string>, n: nat)
    requires n <= |urls|
    ensures MapsColumns(ColumnMap(urls[..n], bps), urls, bps)
  {
    if n > 0 {
      var init := urls[..n][..n - 1];
      assert init == urls[..n - 1];
      ColumnMapMapsPrefix(urls, bps, n - 1);
      var url := urls[n - 1];
      assert urls[..n][n - 1] == url;
      PutMaps(ColumnMap(init, bps), urls, bps, url, url);
      assert bps[..|bps|] == bps;
      UrlColumnsMaps(Put(ColumnMap(init, bps), url, url), urls, n - 1, bps, |bps|);
    }
  }

  /** Every entry of the map sends a URL to itself or a URL-breakpoint key
      to that URL's column at that breakpoint. */
  lemma ColumnMapValues(urls: seq<string>, bps: seq<string>)
    ensures MapsColumns(ColumnMap(urls, bps), urls, bps)
  {
    ColumnMapMapsPrefix(urls, bps, |urls|);
    assert urls[..|urls|] == urls;
  }

  /** Text whose last `:` is followed by `b` determines `b` and what precedes it. */
  lemma BpKeyInjective(u: string, b: string, u': string, b': string)
    requires ':' !in b && ':' !in b' && BpKey(u, b) == BpKey(u', b')
    ensures u == u' && b == b'
  {
    var s := BpKey(u, b);
    var n := |s|;
    assert s[n - |b| - 1] == ':' && s[n - |b'| - 1] == ':';
    forall k | n - |b| <= k < n
      ensures s[k] != ':'
    {
      assert s[k] == b[k - (n - |b|)];
    }
    forall k | n - |b'| <= k < n
      ensures s[k] != ':'
    {
      assert s[k] == b'[k - (n - |b'|)];
    }
    assert |b| == |b'|;
    assert b == s[n - |b|..] && b' == s[n - |b'|..];
    assert u == s[..|u|] && u' == s[..|u'|];
  }

  /** No page URL is another page URL followed by `:` and a breakpoint. */
  predicate NoCollision(urls: seq<string>, bps: seq<string>)
  {
    forall i, i', j :: 0 <= i < |urls| && 0 <= i' < |urls| && 0 <= j < |bps| ==> urls[i] != BpKey(urls[i'], bps[j])
  }

  /** Without a collision a page URL's column is the URL itself. */
  lemma ColumnOfUrl(urls: seq<string>, bps: seq<string>, i: nat)
    requires NoCollision(urls, bps) && i < |urls|
    ensures Get(ColumnMap(urls, bps), urls[i]) == Some(urls[i])
  {
    var d := ColumnMap(urls, bps);
    ColumnMapKeys(urls, bps, urls[i]);
    GetFound(d, urls[i]);
    ColumnMapValues(urls, bps);
    assert ColumnFor(urls, bps, urls[i], Get(d, urls[i]).value);
  }

  /** Without a collision, and with breakpoints free of `:`, a URL at a
      breakpoint gets the column titled with that URL and breakpoint. */
  lemma ColumnOfBreakpoint(urls: seq<string>, bps: seq<string>, i: nat, j: nat)
    requires NoCollision(urls, bps) && i < |urls| && j < |bps|
    requires forall j' :: 0 <= j' < |bps| ==> ':' !in bps[j']
    ensures Get(ColumnMap(urls, bps), BpKey(urls[i], bps[j])) == Some(BpColumn(urls[i], bps[j]))
  {
    var d := ColumnMap(urls, bps);
    var k := BpKey(urls[i], bps[j]);
    ColumnMapKeys(urls, bps, k);
    GetFound(d, k);
    ColumnMapValues(urls, bps);
    var v := Get(d, k).value;
    assert ColumnFor(urls, bps, k, v);
    assert k !in urls;
    var i', j' :| 0 <= i' < |urls| && 0 <= j' < |bps| && k == BpKey(urls[i'], bps[j']) && v == BpColumn(urls[i'], bps[j']);
    BpKeyInjective(urls[i], bps[j], urls[i'], bps[j']);
  }

  // The rows: test path to (column title to cell text).

  type Row = Dict<string, string>
  type Table = Dict<string, Row>

  /** `if key not in formatted_data: formatted_data[key] = {}`. */
  function EnsureRow(t: Table, key: string): (r: Table)
    ensures HasKey(r, key)
  {
    if HasKey(t, key) then t else KeysAppend(t, [(key, [])]); t + [(key, [])]
  }

  /** `formatted_data[row][col] = v`. */
  function SetCell(t: Table, row: string, col: string, v: string): Table
  {
    Put(t, row, Put(GetOr(t, row, []), col, v))
  }

  /** The text in a cell, if the cell exists. */
  function Cell(t: Table, row: string, col: string): Option<string>
  {
    match Get(t, row)
    case None => None
    case Some(r) => Get(r, col)
  }

  /** `url_bp_columns[key]`, for a key the map holds. */
  function Column(cols: Dict<string, string>, key: string): string
  {
    GetOr(cols, key, key)
  }

  // The first pass: each page's test results in the page's own column.

  function SetCells(t: Table, flat: Dict<string, string>, col: string): Table
  {
    if |flat| == 0 then t
    else
      var (k, v) := flat[|flat| - 1];
      SetCell(SetCells(t, flat[..|flat| - 1], col), k, col, v)
  }

  /** One test: a dict result is flattened under the test name, one row per
      leaf path; any other result is its `str` in the test's own row. */
  function Pass1Test(t: Table, col: string, name: string, value: Json): Table
  {
    var t1 := EnsureRow(t, name);
    if value.JObj? then SetCells(t1, Flatten(value.fields, name), col)
    else SetCell(t1, name, col, PyStr(value))
  }

  function Pass1Tests(t: Table, col: string, tests: Dict<string, Json>): Table
  {
    if |tests| == 0 then t
    else
      var (name, value) := tests[|tests| - 1];
      Pass1Test(Pass1Tests(t, col, tests[..|tests| - 1]), col, name, value)
  }

  function Pass1Page(t: Table, cols: Dict<string, string>, result: Json): Table
  {
    var acc := Accessibility(result);
    if Truthy(acc) && Has(acc, "tests") then
      Pass1Tests(t, Column(cols, Summary.PageUrl(result)), Fields(Sub(acc, "tests")))
    else t
  }

  function Pass1(t: Table, cols: Dict<string, string>, results: seq<Json>): Table
  {
    if |results| == 0 then t
    else Pass1Page(Pass1(t, cols, results[..|results| - 1]), cols, results[|results| - 1])
  }

  // The second pass: responsive-testing rows.

  function SummaryCells(t: Table, col: string, summary: Dict<string, Json>): Table
  {
    if |summary| == 0 then t
    else
      var (k, v) := summary[|summary| - 1];
      var key := SummaryPrefix + k;
      SetCell(EnsureRow(SummaryCells(t, col, summary[..|summary| - 1]), key), key, col, PyStr(v))
  }

  /** One responsive issue: `"{element} {id}".strip()`, then the details and
      the severity. */
  function IssueDetail(issue: Json): string
  {
    var element := Strip(PyStr(Field(issue, "element", JStr(""))) + " " + PyStr(Field(issue, "id", JStr(""))));
    element + ": " + PyStr(Field(issue, "details", JStr(""))) + " (" + PyStr(Field(issue, "severity", JStr(""))) + ")"
  }

  function IssueDetails(issues: seq<Json>): seq<string>
  {
    MapAll(issues, IssueDetail)
  }

  /** The first two details joined with "; ", then how many more there are. */
  function DetailsText(details: seq<string>): string
  {
    if |details| <= 2 then Join("; ", details)
    else Join("; ", details[..2]) + " and " + NatToString(|details| - 2) + " more"
  }

  /** The cell of one responsive test at one breakpoint. */
  function IssueSummary(testData: Json): string
  {
    var issues := Field(testData, "issues", JList([]));
    if Len(issues) > 0 then
      NatToString(Len(issues)) + " issue(s): " + DetailsText(IssueDetails(Iterate(issues)))
    else "No issues"
  }

  function ResponsiveTestCells(t: Table, col: string, tests: Dict<string, Json>): Table
  {
    if |tests| == 0 then t
    else
      var (name, data) := tests[|tests| - 1];
      var key := "responsive." + name;
      SetCell(EnsureRow(ResponsiveTestCells(t, col, tests[..|tests| - 1]), key), key, col, IssueSummary(data))
  }

  lemma ResponsiveTestCellsSnoc(t: Table, col: string, tests: Dict<string, Json>, i: nat)
    requires i < |tests|
    ensures ResponsiveTestCells(t, col, tests[..i + 1])
      == SetCell(EnsureRow(ResponsiveTestCells(t, col, tests[..i]), "responsive." + tests[i].0),
                 "responsive." + tests[i].0, col, IssueSummary(tests[i].1))
  {
    assert tests[..i + 1][..i] == tests[..i];
  }

  /** `bp_results['tests']['responsive']['tests']`, when every level is there. */
  predicate HasResponsiveTests(bpResults: Json)
  {
    Has(bpResults, "tests") && Has(Sub(bpResults, "tests"), "responsive")
    && Has(Sub(Sub(bpResults, "tests"), "responsive"), "tests")
  }

  function ResponsiveTests(bpResults: Json): Dict<string, Json>
  {
    Fields(Sub(Sub(Sub(bpResults, "tests"), "responsive"), "tests"))
  }

  /** The per-breakpoint results of one page; a breakpoint whose key has no
      column is skipped. */
  function BreakpointCells(t: Table, cols: Dict<string, string>, url: string, bpResults: Dict<string, Json>): Table
  {
    if |bpResults| == 0 then t
    else
      var (bp, res) := bpResults[|bpResults| - 1];
      var prev := BreakpointCells(t, cols, url, bpResults[..|bpResults| - 1]);
      var bpUrl := BpKey(url, bp);
      if HasKey(cols, bpUrl) && HasResponsiveTests(res) then
        ResponsiveTestCells(prev, Column(cols, bpUrl), ResponsiveTests(res))
      else prev
  }

  const SummaryRow: string := ResponsiveKey + ".summary"
  const SummaryPrefix: string := SummaryRow + "."
  const BreakpointsRow: string := ResponsiveKey + ".breakpoints_tested"

  predicate HasConsolidatedSummary(resp: Json)
  {
    Has(resp, "consolidated") && Has(Sub(resp, "consolidated"), "summary")
  }

  function Pass2Page(t: Table, cols: Dict<string, string>, result: Json): Table
  {
    if !HasResponsive(result) then t
    else
      var resp := Responsive(result);
      var url := Summary.PageUrl(result);
      var col := Column(cols, url);
      var t1 := EnsureRow(t, SummaryRow);
      var t2 := if Has(resp, "breakpoints") then
                  SetCell(EnsureRow(t1, BreakpointsRow), BreakpointsRow, col, PyStr(Sub(resp, "breakpoints")))
                else t1;
      var t3 := if HasConsolidatedSummary(resp) then
                  SummaryCells(t2, col, Fields(Sub(Sub(resp, "consolidated"), "summary")))
                else t2;
      BreakpointCells(t3, cols, url, Fields(Sub(resp, BreakpointResultsKey)))
  }

  function Pass2(t: Table, cols: Dict<string, string>, results: seq<Json>): Table
  {
    if |results| == 0 then t
    else Pass2Page(Pass2(t, cols, results[..|results| - 1]), cols, results[|results| - 1])
  }

  /** The column map of a list of page results. */
  function PageColumns(results: seq<Json>): Dict<string, string>
  {
    ColumnMap(Urls(results), SortedBreakpoints(results))
  }

  /** `formatted_data` after both passes. */
  function FormattedData(results: seq<Json>): Table
  {
    var cols := PageColumns(results);
    Pass2(Pass1([], cols, results), cols, results)
  }

  // Cells.

  lemma SetCellGet(t: Table, row: string, col: string, v: string)
    ensures Cell(SetCell(t, row, col, v), row, col) == Some(v)
  {
  }

  /** Writing one cell leaves every other cell as it was. */
  lemma SetCellOther(t: Table, row: string, col: string, v: string, row': string, col': string)
    requires row' != row || col' != col
    ensures Cell(SetCell(t, row, col, v), row', col') == Cell(t, row', col')
  {
    var r := Put(GetOr(t, row, []), col, v);
    if row' != row {
      PutOther(t, row, r, row');
    } else {
      PutOther(GetOr(t, row, []), col, v, col');
    }
  }

  /** Writing a flattened result puts each path's text in that path's row. */
  lemma {:induction false} SetCellsGet(t: Table, flat: Dict<string, string>, col: string, k: string, v: string)
    requires UniqueKeys(flat) && Get(flat, k) == Some(v)
    ensures Cell(SetCells(t, flat, col), k, col) == Some(v)
  {
    var init := flat[..|flat| - 1];
    var (k', v') := flat[|flat| - 1];
    UniqueInit(flat);
    assert flat == init + [(k', v')];
    GetAppend(init, [(k', v')], k);
    if k == k' {
      SetCellGet(SetCells(t, init, col), k, col, v');
    } else {
      SetCellsGet(t, init, col, k, v);
      SetCellOther(SetCells(t, init, col), k', col, v', k, col);
    }
  }

  /** A dict test result: every leaf path of the flattening holds its text
      in the page's column. */
  lemma Pass1TestLeaf(t: Table, col: string, name: string, value: Json, k: string, v: string)
    requires value.JObj? && Get(Flatten(value.fields, name), k) == Some(v)
    ensures Cell(Pass1Test(t, col, name, value), k, col) == Some(v)
  {
    FlattenUnique(value.fields, name);
    SetCellsGet(EnsureRow(t, name), Flatten(value.fields, name), col, k, v);
  }

  /** Any other test result is written as its `str` in the test's row. */
  lemma Pass1TestScalar(t: Table, col: string, name: string, value: Json)
    requires !value.JObj?
    ensures Cell(Pass1Test(t, col, name, value), name, col) == Some(PyStr(value))
  {
    SetCellGet(EnsureRow(t, name), name, col, PyStr(value));
  }

  // Every cell lies in a column of the map.

  /** `c` is a column title of the map. */
  predicate IsColumn(cols: Dict<string, string>, c: string)
  {
    exists e :: e in cols && e.1 == c
  }

  predicate ColumnsKnown(t: Table, cols: Dict<string, string>)
  {
    forall e, c :: e in t && c in Keys(e.1) ==> IsColumn(cols, c)
  }

  lemma ColumnKnown(cols: Dict<string, string>, key: string)
    requires HasKey(cols, key)
    ensures IsColumn(cols, Column(cols, key))
  {
    GetFound(cols, key);
  }

  lemma EnsureRowKnown(t: Table, cols: Dict<string, string>, key: string)
    requires ColumnsKnown(t, cols)
    ensures ColumnsKnown(EnsureRow(t, key), cols)
  {
  }

  lemma SetCellKnown(t: Table, cols: Dict<string, string>, row: string, col: string, v: string)
    requires ColumnsKnown(t, cols) && IsColumn(cols, col)
    ensures ColumnsKnown(SetCell(t, row, col, v), cols)
  {
    var before := GetOr(t, row, []);
    var r := Put(before, col, v);
    var t' := SetCell(t, row, col, v);
    if HasKey(t, row) {
      GetFound(t, row);
    }
    forall e, c | e in t' && c in Keys(e.1)
      ensures IsColumn(cols, c)
    {
      var i :| 0 <= i < |t'| && t'[i] == e;
      PutEntries(t, row, r, i);
      if e == (row, r) {
        PutHasKey(before, col, v, c);
      }
    }
  }

  lemma {:induction false} SetCellsKnown(t: Table, cols: Dict<string, string>, flat: Dict<string, string>, col: string)
    requires ColumnsKnown(t, cols) && IsColumn(cols, col)
    ensures ColumnsKnown(SetCells(t, flat, col), cols)
  {
    if |flat| > 0 {
      var (k, v) := flat[|flat| - 1];
      SetCellsKnown(t, cols, flat[..|flat| - 1], col);
      SetCellKnown(SetCells(t, flat[..|flat| - 1], col), cols, k, col, v);
    }
  }

  lemma Pass1TestKnown(t: Table, cols: Dict<string, string>, col: string, name: string, value: Json)
    requires ColumnsKnown(t, cols) && IsColumn(cols, col)
    ensures ColumnsKnown(Pass1Test(t, col, name, value), cols)
  {
    EnsureRowKnown(t, cols, name);
    if value.JObj? {
      SetCellsKnown(EnsureRow(t, name), cols, Flatten(value.fields, name), col);
    } else {
      SetCellKnown(EnsureRow(t, name), cols, name, col, PyStr(value));
    }
  }

  lemma {:induction false} Pass1TestsKnown(t: Table, cols: Dict<string, string>, col: string, tests: Dict<string, Json>)
    requires ColumnsKnown(t, cols) && IsColumn(cols, col)
    ensures ColumnsKnown(Pass1Tests(t, col, tests), cols)
  {
    if |tests| > 0 {
      var (name, value) := tests[|tests| - 1];
      Pass1TestsKnown(t, cols, col, tests[..|tests| - 1]);
      Pass1TestKnown(Pass1Tests(t, col, tests[..|tests| - 1]), cols, col, name, value);
    }
  }

  /** Every page URL has its entry in the map. */
  predicate ListsPages(cols: Dict<string, string>, results: seq<Json>)
  {
    forall p :: 0 <= p < |results| ==> HasKey(cols, Summary.PageUrl(results[p]))
  }

  lemma {:induction false} Pass1Known(t: Table, cols: Dict<string, string>, results: seq<Json>)
    requires ColumnsKnown(t, cols) && ListsPages(cols, results)
    ensures ColumnsKnown(Pass1(t, cols, results), cols)
  {
    if |results| > 0 {
      var init := results[..|results| - 1];
      var result := results[|results| - 1];
      assert ListsPages(cols, init) by {
        forall p | 0 <= p < |init|
          ensures HasKey(cols, Summary.PageUrl(init[p]))
        {
          assert init[p] == results[p];
        }
      }
      Pass1Known(t, cols, init);
      var acc := Accessibility(result);
      if Truthy(acc) && Has(acc, "tests") {
        ColumnKnown(cols, Summary.PageUrl(result));
        Pass1TestsKnown(Pass1(t, cols, init), cols, Column(cols, Summary.PageUrl(result)), Fields(Sub(acc, "tests")));
      }
    }
  }

  lemma {:induction false} SummaryCellsKnown(t: Table, cols: Dict<string, string>, col: string, summary: Dict<string, Json>)
    requires ColumnsKnown(t, cols) && IsColumn(cols, col)
    ensures ColumnsKnown(SummaryCells(t, col, summary), cols)
  {
    if |summary| > 0 {
      var (k, v) := summary[|summary| - 1];
      var key := SummaryPrefix + k;
      var prev := SummaryCells(t, col, summary[..|summary| - 1]);
      SummaryCellsKnown(t, cols, col, summary[..|summary| - 1]);
      EnsureRowKnown(prev, cols, key);
      SetCellKnown(EnsureRow(prev, key), cols, key, col, PyStr(v));
    }
  }

  lemma {:induction false} ResponsiveTestCellsKnown(t: Table, cols: Dict<string, string>, col: string, tests: Dict<string, Json>)
    requires ColumnsKnown(t, cols) && IsColumn(cols, col)
    ensures ColumnsKnown(ResponsiveTestCells(t, col, tests), cols)
  {
    if |tests| > 0 {
      var (name, data) := tests[|tests| - 1];
      var key := "responsive." + name;
      var prev := ResponsiveTestCells(t, col, tests[..|tests| - 1]);
      ResponsiveTestCellsKnown(t, cols, col, tests[..|tests| - 1]);
      EnsureRowKnown(prev, cols, key);
      SetCellKnown(EnsureRow(prev, key), cols, key, col, IssueSummary(data));
    }
  }

  lemma {:induction false} BreakpointCellsKnown(t: Table, cols: Dict<string, string>, url: string, bpResults: Dict<string, Json>)
    requires ColumnsKnown(t, cols)
    ensures ColumnsKnown(BreakpointCells(t, cols, url, bpResults), cols)
  {
    if |bpResults| > 0 {
      var (bp, res) := bpResults[|bpResults| - 1];
      BreakpointCellsKnown(t, cols, url, bpResults[..|bpResults| - 1]);
      if HasKey(cols, BpKey(url, bp)) && HasResponsiveTests(res) {
        ColumnKnown(cols, BpKey(url, bp));
        ResponsiveTestCellsKnown(BreakpointCells(t, cols, url, bpResults[..|bpResults| - 1]), cols,
                                 Column(cols, BpKey(url, bp)), ResponsiveTests(res));
      }
    }
  }

  lemma Pass2PageKnown(t: Table, cols: Dict<string, string>, result: Json)
    requires ColumnsKnown(t, cols) && HasKey(cols, Summary.PageUrl(result))
    ensures ColumnsKnown(Pass2Page(t, cols, result), cols)
  {
    if HasResponsive(result) {
      var resp := Responsive(result);
      var url := Summary.PageUrl(result);
      var col := Column(cols, url);
      ColumnKnown(cols, url);
      var t1 := EnsureRow(t, SummaryRow);
      EnsureRowKnown(t, cols, SummaryRow);
      var t2 := if Has(resp, "breakpoints") then
                  SetCell(EnsureRow(t1, BreakpointsRow), BreakpointsRow, col, PyStr(Sub(resp, "breakpoints")))
                else t1;
      if Has(resp, "breakpoints") {
        EnsureRowKnown(t1, cols, BreakpointsRow);
        SetCellKnown(EnsureRow(t1, BreakpointsRow), cols, BreakpointsRow, col, PyStr(Sub(resp, "breakpoints")));
      }
      var t3 := if HasConsolidatedSummary(resp) then
                  SummaryCells(t2, col, Fields(Sub(Sub(resp, "consolidated"), "summary")))
                else t2;
      if HasConsolidatedSummary(resp) {
        SummaryCellsKnown(t2, cols, col, Fields(Sub(Sub(resp, "consolidated"), "summary")));
      }
      BreakpointCellsKnown(t3, cols, url, Fields(Sub(resp, BreakpointResultsKey)));
    }
  }

  lemma {:induction false} Pass2Known(t: Table, cols: Dict<string, string>, results: seq<Json>)
    requires ColumnsKnown(t, cols) && ListsPages(cols, results)
    ensures ColumnsKnown(Pass2(t, cols, results), cols)
  {
    if |results| > 0 {
      var init := results[..|results| - 1];
      assert ListsPages(cols, init) by {
        forall p | 0 <= p < |init|
          ensures HasKey(cols, Summary.PageUrl(init[p]))
        {
          assert init[p] == results[p];
        }
      }
      Pass2Known(t, cols, init);
      Pass2PageKnown(Pass2(t, cols, init), cols, results[|results| - 1]);
    }
  }

  /** A column title of some page: its URL, or its URL at a breakpoint. */
  predicate PageColumn(urls: seq<string>, bps: seq<string>, c: string)
  {
    c in urls || exists i, j :: 0 <= i < |urls| && 0 <= j < |bps| && c == BpColumn(urls[i], bps[j])
  }

  /** Every cell of the table is in the column of a page URL, or of a page
      URL at a discovered breakpoint. */
  lemma FormattedDataColumns(results: seq<Json>, e: (string, Row), c: string)
    requires e in FormattedData(results) && c in Keys(e.1)
    ensures PageColumn(Urls(results), SortedBreakpoints(results), c)
  {
    var cols := PageColumns(results);
    PageColumnsListPages(results);
    Pass1Known([], cols, results);
    Pass2Known(Pass1([], cols, results), cols, results);
    assert IsColumn(cols, c);
    MappedColumn(Urls(results), SortedBreakpoints(results), c);
  }

  lemma PageColumnsListPages(results: seq<Json>)
    ensures ListsPages(PageColumns(results), results)
  {
    var urls := Urls(results);
    var bps := SortedBreakpoints(results);
    forall p | 0 <= p < |results|
      ensures HasKey(ColumnMap(urls, bps), Summary.PageUrl(results[p]))
    {
      ColumnMapKeys(urls, bps, Summary.PageUrl(results[p]));
      assert urls[p] == Summary.PageUrl(results[p]);
    }
  }

  lemma MappedColumn(urls: seq<string>, bps: seq<string>, c: string)
    requires IsColumn(ColumnMap(urls, bps), c)
    ensures PageColumn(urls, bps, c)
  {
    var e :| e in ColumnMap(urls, bps) && e.1 == c;
    ColumnMapValues(urls, bps);
    assert ColumnFor(urls, bps, e.0, e.1);
  }

  // The responsive issue summaries.

  /** A cell says "No issues" exactly when the test lists no issues. */
  lemma NoIssuesIff(testData: Json)
    ensures IssueSummary(testData) == "No issues" <==> Len(Field(testData, "issues", JList([]))) == 0
  {
    var n := Len(Field(testData, "issues", JList([])));
    if n > 0 {
      var head := NatToString(n);
      var r := IssueSummary(testData);
      assert r[0] == head[0];
      assert IsDigitChar(head[0]);
      assert "No issues"[0] == 'N';
    }
  }

  lemma {:induction false} JoinEndsWithParen(parts: seq<string>)
    requires |parts| > 0
    requires forall i :: 0 <= i < |parts| ==> |parts[i]| > 0 && parts[i][|parts[i]| - 1] == ')'
    ensures |Join("; ", parts)| > 0 && Join("; ", parts)[|Join("; ", parts)| - 1] == ')'
  {
    if |parts| > 1 {
      JoinEndsWithParen(parts[1..]);
      assert parts[1..][0] == parts[1];
    }
  }

  lemma DetailsTextShape(details: seq<string>)
    requires |details| > 0
    requires forall i :: 0 <= i < |details| ==> |details[i]| > 0 && details[i][|details[i]| - 1] == ')'
    ensures |details| > 2 ==> EndsWith(DetailsText(details), " more")
    ensures |details| <= 2 ==> |DetailsText(details)| > 0 && DetailsText(details)[|DetailsText(details)| - 1] == ')'
  {
    if |details| > 2 {
      var t := DetailsText(details);
      assert t[|t| - 5..] == " more";
    } else {
      JoinEndsWithParen(details);
    }
  }

  lemma IssueDetailsEnd(issues: seq<Json>)
    ensures forall i :: 0 <= i < |issues| ==>
              |IssueDetails(issues)[i]| > 0 && IssueDetails(issues)[i][|IssueDetails(issues)[i]| - 1] == ')'
  {
  }

  lemma IssueSummaryOfList(testData: Json, issues: seq<Json>)
    requires Field(testData, "issues", JList([])) == JList(issues) && |issues| > 0
    ensures IssueSummary(testData) == NatToString(|issues|) + " issue(s): " + DetailsText(IssueDetails(issues))
  {
  }

  lemma ConcatEnds(head: string, t: string)
    ensures StartsWith(head + t, head)
    ensures EndsWith(t, " more") ==> EndsWith(head + t, " more")
    ensures |t| > 0 && t[|t| - 1] == ')' ==> !EndsWith(head + t, " more")
  {
    var r := head + t;
    assert r[..|head|] == head;
    if EndsWith(t, " more") {
      assert r[|r| - 5..] == t[|t| - 5..];
    }
    if |t| > 0 {
      assert r[|r| - 1] == t[|t| - 1];
    }
  }

  /** For a list of issues the cell opens with their number, and it ends
      with " more" exactly when there are more than two; otherwise it ends
      with the last detail's closing parenthesis. */
  lemma IssueSummaryShape(testData: Json, issues: seq<Json>)
    requires Field(testData, "issues", JList([])) == JList(issues) && |issues| > 0
    ensures StartsWith(IssueSummary(testData), NatToString(|issues|) + " issue(s): ")
    ensures EndsWith(IssueSummary(testData), " more") <==> |issues| > 2
  {
    var details := IssueDetails(issues);
    IssueSummaryOfList(testData, issues);
    IssueDetailsEnd(issues);
    DetailsTextShape(details);
    ConcatEnds(NatToString(|issues|) + " issue(s): ", DetailsText(details));
  }

  // The column order.

  /** `column_sort_key`: a title holding " @ " is split into the URL and the
      breakpoint with "px" removed, giving (url, int(bp) or 0); a title
      holding " @ " twice makes the two-way unpacking fail, here None. Any
      other title sorts as (title, 0). */
  function ColumnSortKey(col: string): Option<seq<Atom>>
  {
    if Contains(col, " @ ") then
      var parts := Split(col, " @ ");
      if |parts| != 2 then None
      else
        var bp := ReplaceAll(parts[1], "px", "");
        Some([AStr(parts[0]), AInt(if IsDigits(bp) then DigitsValue(bp) else 0)])
    else Some([AStr(col), AInt(0)])
  }

  /** The key of a column whose key computation succeeds. */
  function ColumnKey(col: string): seq<Atom>
  {
    match ColumnSortKey(col)
    case Some(k) => k
    case None => []
  }

  /** `sorted(df.columns, key=column_sort_key)`, failing when a key does. */
  function SortColumns(columns: seq<string>): Option<seq<string>>
  {
    if forall i :: 0 <= i < |columns| ==> ColumnSortKey(columns[i]).Some? then
      Some(SortBy(columns, ColumnKey))
    else None
  }

  /** The column sort fails exactly when some title's key fails; otherwise
      it reorders the titles into key order. */
  lemma SortColumnsSpec(columns: seq<string>)
    ensures SortColumns(columns).None? <==> exists i :: 0 <= i < |columns| && ColumnSortKey(columns[i]).None?
    ensures SortColumns(columns).Some? ==>
      multiset(SortColumns(columns).value) == multiset(columns)
      && SortedBy(SortColumns(columns).value, ColumnKey)
  {
    SortBySorted(columns, ColumnKey);
  }

  lemma NoAtSign(s: string)
    requires '@' !in s
    ensures Find(s, " @ ").None?
  {
    forall j: nat | j + 3 <= |s|
      ensures !OccursAt(s, " @ ", j)
    {
      assert s[j..j + 3][1] == s[j + 1];
    }
  }

  lemma {:induction false} ReplacePxSuffix(d: string)
    requires 'p' !in d
    ensures ReplaceAll(d + "px", "px", "") == d
  {
    if |d| > 0 {
      var s := d + "px";
      assert s[..2][0] == d[0];
      assert s[1..] == d[1..] + "px";
      ReplacePxSuffix(d[1..]);
    } else {
      assert d + "px" == "px";
    }
  }

  /** A URL column without '@' sorts as (url, 0). */
  lemma UrlColumnKey(url: string)
    requires '@' !in url
    ensures ColumnSortKey(url) == Some([AStr(url), AInt(0)])
  {
    NoAtSign(url);
  }

  /** The title of a URL without '@' at breakpoint `n` sorts as (url, n). */
  lemma BreakpointColumnKey(url: string, n: nat)
    requires '@' !in url
    ensures ColumnSortKey(BpColumn(url, NatToString(n))) == Some([AStr(url), AInt(n)])
  {
    var d := NatToString(n);
    assert BpColumn(url, d) == url + " @ " + (d + "px");
    assert '@' !in d + "px" && 'p' !in d by {
      assert forall i :: 0 <= i < |d| ==> IsDigitChar(d[i]);
    }
    SplitAtSign(url, d + "px");
    ReplacePxSuffix(d);
    DigitsValueOfNat(n);
  }

  /** Text around a single " @ " splits into the two sides. */
  lemma SplitAtSign(url: string, rest: string)
    requires '@' !in url && '@' !in rest
    ensures Contains(url + " @ " + rest, " @ ") && Split(url + " @ " + rest, " @ ") == [url, rest]
  {
    var s := url + " @ " + rest;
    FindAtSign(url, rest);
    SplitAt(s, " @ ", |url|);
    assert s[..|url|] == url && s[|url| + 3..] == rest;
    NoAtSign(rest);
  }

  lemma FindAtSign(url: string, rest: string)
    requires '@' !in url
    ensures Find(url + " @ " + rest, " @ ") == Some(|url|)
  {
    var s := url + " @ " + rest;
    assert s[|url|..|url| + 3] == " @ ";
    assert OccursAt(s, " @ ", |url|);
    forall j: nat | j < |url|
      ensures !OccursAt(s, " @ ", j)
    {
      if j + 1 < |url| {
        assert s[j + 1] == url[j + 1];
      }
      assert s[j..j + 3][1] == s[j + 1];
    }
  }

  /** The key order puts a URL's own column before its breakpoint columns,
      and those in ascending breakpoint order. */
  lemma ColumnOrder(url: string, a: nat, b: nat)
    requires '@' !in url && 0 < a < b
    ensures ColumnSortKey(url).Some? && ColumnSortKey(BpColumn(url, NatToString(a))).Some?
              && ColumnSortKey(BpColumn(url, NatToString(b))).Some?
    ensures KeyLess(ColumnSortKey(url).value, ColumnSortKey(BpColumn(url, NatToString(a))).value)
    ensures KeyLess(ColumnSortKey(BpColumn(url, NatToString(a))).value, ColumnSortKey(BpColumn(url, NatToString(b))).value)
  {
    UrlColumnKey(url);
    BreakpointColumnKey(url, a);
    BreakpointColumnKey(url, b);
    var ka := [AStr(url), AInt(a)];
    assert ka[1..] == [AInt(a)];
  }

  // The loops of `format_detailed_results`.

  /** The dictionary the code builds, loop by loop. */
  method FormatDetailedResults(results: seq<Json>) returns (data: Table)
    ensures data == FormattedData(results)
  {
    var urls, seen := DiscoverBreakpoints(results);
    var sorted := SortBy(seen, BreakpointKey);
    var cols := BuildColumnMap(urls, sorted);
    assert cols == PageColumns(results);
    data := FirstPass(cols, results);
    data := SecondPass(data, cols, results);
  }

  method FirstPass(cols: Dict<string, string>, results: seq<Json>) returns (data: Table)
    ensures data == Pass1([], cols, results)
  {
    data := [];
    var p := 0;
    while p < |results|
      invariant 0 <= p <= |results|
      invariant data == Pass1([], cols, results[..p])
    {
      assert results[..p + 1][..p] == results[..p];
      data := FillPage(data, cols, results[p]);
      p := p + 1;
    }
    assert results[..|results|] == results;
  }

  method SecondPass(t0: Table, cols: Dict<string, string>, results: seq<Json>) returns (data: Table)
    ensures data == Pass2(t0, cols, results)
  {
    data := t0;
    var p := 0;
    while p < |results|
      invariant 0 <= p <= |results|
      invariant data == Pass2(t0, cols, results[..p])
    {
      assert results[..p + 1][..p] == results[..p];
      data := FillResponsivePage(data, cols, results[p]);
      p := p + 1;
    }
    assert results[..|results|] == results;
  }

  /** The first loop: the URLs and the set of breakpoint texts. */
  method DiscoverBreakpoints(results: seq<Json>) returns (urls: seq<string>, seen: seq<string>)
    ensures urls == Urls(results) && seen == BreakpointSet(results)
  {
    urls := [];
    seen := [];
    var p := 0;
    while p < |results|
      invariant 0 <= p <= |results|
      invariant urls == Urls(results[..p])
      invariant seen == AddAll([], BreakpointTexts(results[..p]))
    {
      DiscoverSnoc(results, p);
      urls := urls + [Summary.PageUrl(results[p])];
      AddAllAppend([], BreakpointTexts(results[..p]), PageBreakpoints(results[p]));
      seen := AddPageTexts(seen, results[p]);
      p := p + 1;
    }
    assert results[..|results|] == results;
  }

  lemma DiscoverSnoc(results: seq<Json>, p: nat)
    requires p < |results|
    ensures Urls(results[..p + 1]) == Urls(results[..p]) + [Summary.PageUrl(results[p])]
    ensures BreakpointTexts(results[..p + 1]) == BreakpointTexts(results[..p]) + PageBreakpoints(results[p])
  {
    assert results[..p + 1][..p] == results[..p];
  }

  /** One page of the first loop: its listed breakpoints, as texts. */
  method AddPageTexts(seen0: seq<string>, result: Json) returns (seen: seq<string>)
    ensures seen == AddAll(seen0, PageBreakpoints(result))
  {
    seen := seen0;
    if HasResponsive(result) && Has(Responsive(result), "breakpoints") {
      seen := AddTexts(seen, Iterate(Sub(Responsive(result), "breakpoints")));
    }
  }

  method AddTexts(seen0: seq<string>, vs: seq<Json>) returns (seen: seq<string>)
    ensures seen == AddAll(seen0, Texts(vs))
  {
    seen := seen0;
    var i := 0;
    while i < |vs|
      invariant 0 <= i <= |vs|
      invariant seen == AddAll(seen0, Texts(vs[..i]))
    {
      assert vs[..i + 1][..i] == vs[..i];
      var text := PyStr(vs[i]);
      if text !in seen {
        seen := seen + [text];
      }
      i := i + 1;
    }
    assert vs[..|vs|] == vs;
  }

  method BuildColumnMap(urls: seq<string>, bps: seq<string>) returns (cols: Dict<string, string>)
    ensures cols == ColumnMap(urls, bps)
  {
    cols := [];
    var u := 0;
    while u < |urls|
      invariant 0 <= u <= |urls|
      invariant cols == ColumnMap(urls[..u], bps)
    {
      assert urls[..u + 1][..u] == urls[..u];
      var url := urls[u];
      cols := Put(cols, url, url);
      var b := 0;
      ghost var base := cols;
      while b < |bps|
        invariant 0 <= b <= |bps|
        invariant cols == UrlColumns(base, url, bps[..b])
      {
        assert bps[..b + 1][..b] == bps[..b];
        cols := Put(cols, BpKey(url, bps[b]), BpColumn(url, bps[b]));
        b := b + 1;
      }
      assert bps[..|bps|] == bps;
      u := u + 1;
    }
    assert urls[..|urls|] == urls;
  }

  /** The first pass over one page. */
  method FillPage(t0: Table, cols: Dict<string, string>, result: Json) returns (t: Table)
    ensures t == Pass1Page(t0, cols, result)
  {
    t := t0;
    var acc := Accessibility(result);
    if !(Truthy(acc) && Has(acc, "tests")) {
      return;
    }
    var col := Column(cols, Summary.PageUrl(result));
    var tests := Fields(Sub(acc, "tests"));
    var i := 0;
    while i < |tests|
      invariant 0 <= i <= |tests|
      invariant t == Pass1Tests(t0, col, tests[..i])
    {
      assert tests[..i + 1][..i] == tests[..i];
      t := FillTest(t, col, tests[i].0, tests[i].1);
      i := i + 1;
    }
    assert tests[..|tests|] == tests;
  }

  method FillTest(t0: Table, col: string, name: string, value: Json) returns (t: Table)
    ensures t == Pass1Test(t0, col, name, value)
  {
    t := t0;
    if !HasKey(t, name) {
      t := t + [(name, [])];
    }
    if value.JObj? {
      t := FillCells(t, Flatten(value.fields, name), col);
    } else {
      t := SetCell(t, name, col, PyStr(value));
    }
  }

  method FillCells(t0: Table, flat: Dict<string, string>, col: string) returns (t: Table)
    ensures t == SetCells(t0, flat, col)
  {
    t := t0;
    var i := 0;
    while i < |flat|
      invariant 0 <= i <= |flat|
      invariant t == SetCells(t0, flat[..i], col)
    {
      assert flat[..i + 1][..i] == flat[..i];
      var (k, v) := flat[i];
      t := SetCell(t, k, col, v);
      i := i + 1;
    }
    assert flat[..|flat|] == flat;
  }

  /** The second pass over one page. */
  method FillResponsivePage(t0: Table, cols: Dict<string, string>, result: Json) returns (t: Table)
    ensures t == Pass2Page(t0, cols, result)
  {
    t := t0;
    if !HasResponsive(result) {
      return;
    }
    var resp := Responsive(result);
    var url := Summary.PageUrl(result);
    var col := Column(cols, url);
    t := EnsureRow(t, SummaryRow);
    if Has(resp, "breakpoints") {
      t := EnsureRow(t, BreakpointsRow);
      t := SetCell(t, BreakpointsRow, col, PyStr(Sub(resp, "breakpoints")));
    }
    if HasConsolidatedSummary(resp) {
      t := FillSummary(t, col, Fields(Sub(Sub(resp, "consolidated"), "summary")));
    }
    t := FillBreakpoints(t, cols, url, Fields(Sub(resp, BreakpointResultsKey)));
  }

  /** The loop over the breakpoint results of one page. */
  method FillBreakpoints(t0: Table, cols: Dict<string, string>, url: string, bpResults: Dict<string, Json>)
    returns (t: Table)
    ensures t == BreakpointCells(t0, cols, url, bpResults)
  {
    t := t0;
    var i := 0;
    while i < |bpResults|
      invariant 0 <= i <= |bpResults|
      invariant t == BreakpointCells(t0, cols, url, bpResults[..i])
    {
      assert bpResults[..i + 1][..i] == bpResults[..i];
      var (bp, res) := bpResults[i];
      var bpUrl := BpKey(url, bp);
      if HasKey(cols, bpUrl) && HasResponsiveTests(res) {
        t := FillResponsiveTests(t, Column(cols, bpUrl), ResponsiveTests(res));
      }
      i := i + 1;
    }
    assert bpResults[..|bpResults|] == bpResults;
  }

  method FillSummary(t0: Table, col: string, summary: Dict<string, Json>) returns (t: Table)
    ensures t == SummaryCells(t0, col, summary)
  {
    t := t0;
    var i := 0;
    while i < |summary|
      invariant 0 <= i <= |summary|
      invariant t == SummaryCells(t0, col, summary[..i])
    {
      assert summary[..i + 1][..i] == summary[..i];
      var key := SummaryPrefix + summary[i].0;
      t := EnsureRow(t, key);
      t := SetCell(t, key, col, PyStr(summary[i].1));
      i := i + 1;
    }
    assert summary[..|summary|] == summary;
  }

  method FillResponsiveTests(t0: Table, col: string, tests: Dict<string, Json>) returns (t: Table)
    ensures t == ResponsiveTestCells(t0, col, tests)
  {
    t := t0;
    var i := 0;
    while i < |tests|
      invariant 0 <= i <= |tests|
      invariant t == ResponsiveTestCells(t0, col, tests[..i])
    {
      ResponsiveTestCellsSnoc(t0, col, tests, i);
      var key := "responsive." + tests[i].0;
      t := EnsureRow(t, key);
      var text := SummarizeIssues(tests[i].1);
      t := SetCell(t, key, col, text);
      i := i + 1;
    }
    assert tests[..|tests|] == tests;
  }

  /** The cell text of one responsive test, with the loop that lists the
      details. */
  method SummarizeIssues(testData: Json) returns (text: string)
    ensures text == IssueSummary(testData)
  {
    var issues := Field(testData, "issues", JList([]));
    var count := Len(issues);
    if count == 0 {
      return "No issues";
    }
    var details := DescribeIssues(Iterate(issues));
    text := SummaryText(count, details);
  }

  method SummaryText(count: nat, details: seq<string>) returns (text: string)
    ensures text == NatToString(count) + " issue(s): " + DetailsText(details)
  {
    var shown := if |details| <= 2 then details else details[..2];
    text := NatToString(count) + " issue(s): " + Join("; ", shown);
    if |details| > 2 {
      text := text + " and " + NatToString(|details| - 2) + " more";
    }
  }

  method DescribeIssues(items: seq<Json>) returns (details: seq<string>)
    ensures details == IssueDetails(items)
  {
    details := [];
    var i := 0;
    while i < |items|
      invariant 0 <= i <= |items|
      invariant details == IssueDetails(items[..i])
    {
      assert items[..i + 1][..i] == items[..i];
      details := details + [IssueDetail(items[i])];
      i := i + 1;
    }
    assert items[..|items|] == items;
  }
}
