/** The responsive testing matrix: one row per page, listed breakpoint and
    discovered responsive test type, with a three-way status, ordered by
    domain, page, breakpoint and test. */
module ResponsiveMatrix {
  import opened Dicts
  import opened Strs
  import opened JsonValue
  import opened RowSort
  import opened DetailedResults
  import opened PrefixFolds

  // Domain and page of a URL.

  /** The URL with every "https://" and then every "http://" removed. */
  function StrippedUrl(url: string): string
  {
    ReplaceAll(ReplaceAll(url, "https://", ""), "http://", "")
  }

  /** The text before the first '/' of the stripped URL. */
  function Domain(url: string): string
  {
    Split(StrippedUrl(url), "/")[0]
  }

  /** The rest after that '/', or "" when there is none. */
  function Page(url: string): string
  {
    var parts := Split(StrippedUrl(url), "/");
    if |parts| > 1 then Join("/", parts[1..]) else ""
  }

  /** The first piece of a split on "/" holds no '/', and the pieces after
      it, joined back, complete the text. */
  lemma HeadAndRest(s: string)
    ensures '/' !in Split(s, "/")[0]
    ensures s == Split(s, "/")[0] + (if |Split(s, "/")| > 1 then "/" + Join("/", Split(s, "/")[1..]) else "")
  {
    var parts := Split(s, "/");
    SplitPiecesFree(s, "/", 0);
    FreeOfChar(parts[0], '/');
    JoinSplit(s, "/");
  }

  /** The domain holds no '/', and the domain, a '/' when there is a page
      part, and the page give back the stripped URL. */
  lemma DomainPageSplit(url: string)
    ensures '/' !in Domain(url)
    ensures StrippedUrl(url) == Domain(url) + (if |Split(StrippedUrl(url), "/")| > 1 then "/" + Page(url) else "")
  {
    HeadAndRest(StrippedUrl(url));
  }

  // The test types: every responsive test name at any breakpoint.

  /** `bp_results['tests']['responsive']['tests']` as a value. */
  function ResponsiveTestsValue(res: Json): Json
  {
    Sub(Sub(Sub(res, "tests"), "responsive"), "tests")
  }

  function BreakpointResults(result: Json): Dict<string, Json>
  {
    Fields(Sub(Responsive(result), BreakpointResultsKey))
  }

  function ResultTestNames(bpResults: Dict<string, Json>): seq<string>
  {
    if |bpResults| == 0 then []
    else
      var res := bpResults[|bpResults| - 1].1;
      ResultTestNames(bpResults[..|bpResults| - 1])
        + if HasResponsiveTests(res) then Keys(ResponsiveTests(res)) else []
  }

  function PageTestNames(result: Json): seq<string>
  {
    if HasResponsive(result) then ResultTestNames(BreakpointResults(result)) else []
  }

  function AllTestNames(results: seq<Json>): seq<string>
  {
    FlatMap(results, PageTestNames)
  }

  function NameKey(n: string): seq<Atom>
  {
    [AStr(n)]
  }

  /** `sorted(test_types)`. */
  function TestTypes(results: seq<Json>): seq<string>
  {
    SortBy(AddAll([], AllTestNames(results)), NameKey)
  }

  /** Every test name found anywhere appears once, in name order. */
  lemma TestTypesSpec(results: seq<Json>, n: string)
    ensures multiset(TestTypes(results))[n] == if n in AllTestNames(results) then 1 else 0
    ensures SortedBy(TestTypes(results), NameKey)
  {
    AddAllCount([], AllTestNames(results), n);
    SortBySorted(AddAll([], AllTestNames(results)), NameKey);
  }

  lemma {:induction false} ResultTestNamesHas(bpResults: Dict<string, Json>, i: nat, n: string)
    requires i < |bpResults| && HasResponsiveTests(bpResults[i].1) && HasKey(ResponsiveTests(bpResults[i].1), n)
    ensures n in ResultTestNames(bpResults)
  {
    var init := bpResults[..|bpResults| - 1];
    if i < |init| {
      assert init[i] == bpResults[i];
      ResultTestNamesHas(init, i, n);
    }
  }

  lemma {:induction false} AllTestNamesHas(results: seq<Json>, p: nat, n: string)
    requires p < |results| && n in PageTestNames(results[p])
    ensures n in AllTestNames(results)
  {
    FlatMapHas(results, PageTestNames, p, n);
  }

  // The rows.

  /** "Issues Found" with its count, "Pass" (count 0) or "Not Tested"
      (count '-'). */
  datatype Status = IssuesFound(count: nat) | Pass | NotTested

  datatype MatrixRow = MatrixRow(domain: string, page: string, breakpoint: Json, test: string,
                                 status: Status, details: string)

  /** The first three details on separate lines, then how many more. */
  function MatrixDetails(details: seq<string>): string
  {
    if |details| <= 3 then Join("\n", details)
    else Join("\n", details[..3]) + "\n...and " + NatToString(|details| - 3) + " more"
  }

  function TestIssues(respTests: Json, name: string): Json
  {
    Field(Sub(respTests, name), "issues", JList([]))
  }

  function TestRow(domain: string, page: string, bp: Json, respTests: Json, name: string): MatrixRow
  {
    if Has(respTests, name) then
      var issues := TestIssues(respTests, name);
      if Len(issues) > 0 then
        MatrixRow(domain, page, bp, name, IssuesFound(Len(issues)), MatrixDetails(IssueDetails(Iterate(issues))))
      else MatrixRow(domain, page, bp, name, Pass, "No issues detected")
    else MatrixRow(domain, page, bp, name, NotTested, "-")
  }

  function TypeRows(domain: string, page: string, bp: Json, respTests: Json, types: seq<string>): seq<MatrixRow>
  {
    if |types| == 0 then []
    else TypeRows(domain, page, bp, respTests, types[..|types| - 1]) + [TestRow(domain, page, bp, respTests, types[|types| - 1])]
  }

  /** A listed breakpoint whose results hold `tests.responsive.tests`. */
  predicate Qualifies(resp: Json, bp: Json)
  {
    var byBp := Fields(Sub(resp, BreakpointResultsKey));
    HasKey(byBp, PyStr(bp)) && HasResponsiveTests(Get(byBp, PyStr(bp)).value)
  }

  function BreakpointRows(domain: string, page: string, resp: Json, bp: Json, types: seq<string>): seq<MatrixRow>
  {
    if Qualifies(resp, bp) then
      var res := Get(Fields(Sub(resp, BreakpointResultsKey)), PyStr(bp)).value;
      TypeRows(domain, page, bp, ResponsiveTestsValue(res), types)
    else []
  }

  function BreakpointsRows(domain: string, page: string, resp: Json, bps: seq<Json>, types: seq<string>): seq<MatrixRow>
  {
    if |bps| == 0 then []
    else BreakpointsRows(domain, page, resp, bps[..|bps| - 1], types) + BreakpointRows(domain, page, resp, bps[|bps| - 1], types)
  }

  /** `resp_testing.get('breakpoints', [])`, as iterated. */
  function ListedBreakpoints(resp: Json): seq<Json>
  {
    Iterate(Field(resp, "breakpoints", JList([])))
  }

  function PageRows(result: Json, types: seq<string>): seq<MatrixRow>
  {
    if HasResponsive(result) then
      var url := Summary.PageUrl(result);
      BreakpointsRows(Domain(url), Page(url), Responsive(result), ListedBreakpoints(Responsive(result)), types)
    else []
  }

  function MatrixRows(results: seq<Json>, types: seq<string>): seq<MatrixRow>
  {
    if |results| == 0 then []
    else MatrixRows(results[..|results| - 1], types) + PageRows(results[|results| - 1], types)
  }

  /** A breakpoint value as a sort column: an integer by value, anything
      else by its text. */
  function BreakpointAtom(bp: Json): Atom
  {
    if bp.JInt? then AInt(bp.i) else AStr(PyStr(bp))
  }

  function MatrixKey(r: MatrixRow): seq<Atom>
  {
    [AStr(r.domain), AStr(r.page), BreakpointAtom(r.breakpoint), AStr(r.test)]
  }

  /** The sheet's rows after the sort by (Domain, Page, Breakpoint, Test). */
  function Matrix(results: seq<Json>): seq<MatrixRow>
  {
    SortBy(MatrixRows(results, TestTypes(results)), MatrixKey)
  }

  // What the rows say.

  /** A qualifying breakpoint gives one row per test type, in type order,
      and the status says whether the test ran there and found issues. */
  lemma {:induction false} TypeRowsSpec(domain: string, page: string, bp: Json, respTests: Json, types: seq<string>)
    ensures |TypeRows(domain, page, bp, respTests, types)| == |types|
    ensures forall i :: 0 <= i < |types| ==>
              var r := TypeRows(domain, page, bp, respTests, types)[i];
              r.domain == domain && r.page == page && r.breakpoint == bp && r.test == types[i]
              && (r.status.NotTested? <==> !Has(respTests, types[i]))
              && (r.status.Pass? <==> Has(respTests, types[i]) && Len(TestIssues(respTests, types[i])) == 0)
              && (r.status.IssuesFound? ==> r.status.count == Len(TestIssues(respTests, types[i])) > 0)
  {
    if |types| > 0 {
      TypeRowsSpec(domain, page, bp, respTests, types[..|types| - 1]);
    }
  }

  /** Exactly one row per test type for a qualifying breakpoint, none for
      any other. */
  lemma BreakpointRowsCount(domain: string, page: string, resp: Json, bp: Json, types: seq<string>)
    ensures |BreakpointRows(domain, page, resp, bp, types)| == if Qualifies(resp, bp) then |types| else 0
  {
    if Qualifies(resp, bp) {
      var res := Get(Fields(Sub(resp, BreakpointResultsKey)), PyStr(bp)).value;
      TypeRowsSpec(domain, page, bp, ResponsiveTestsValue(res), types);
    }
  }

  /** How many listed breakpoints qualify. */
  function QualifyingCount(resp: Json, bps: seq<Json>): nat
  {
    if |bps| == 0 then 0
    else QualifyingCount(resp, bps[..|bps| - 1]) + if Qualifies(resp, bps[|bps| - 1]) then 1 else 0
  }

  lemma LengthStep<T>(all: seq<T>, a: seq<T>, b: seq<T>, n: nat, q: nat, q2: nat, c: bool)
    requires all == a + b && q2 == q + (if c then 1 else 0)
    requires |a| == n * q && |b| == if c then n else 0
    ensures |all| == n * q2
  {
  }

  lemma BreakpointsRowsSplit(domain: string, page: string, resp: Json, bps: seq<Json>, types: seq<string>)
    requires |bps| > 0
    ensures BreakpointsRows(domain, page, resp, bps, types)
      == BreakpointsRows(domain, page, resp, bps[..|bps| - 1], types) + BreakpointRows(domain, page, resp, bps[|bps| - 1], types)
    ensures QualifyingCount(resp, bps)
      == QualifyingCount(resp, bps[..|bps| - 1]) + if Qualifies(resp, bps[|bps| - 1]) then 1 else 0
  {
  }

  /** A page contributes the number of test types times the number of its
      qualifying breakpoints. */
  lemma {:induction false} BreakpointsRowsCount(domain: string, page: string, resp: Json, bps: seq<Json>, types: seq<string>)
    ensures |BreakpointsRows(domain, page, resp, bps, types)| == |types| * QualifyingCount(resp, bps)
  {
    if |bps| > 0 {
      var init := bps[..|bps| - 1];
      var last := bps[|bps| - 1];
      BreakpointsRowsCount(domain, page, resp, init, types);
      BreakpointRowsCount(domain, page, resp, last, types);
      BreakpointsRowsSplit(domain, page, resp, bps, types);
      LengthStep(BreakpointsRows(domain, page, resp, bps, types),
        BreakpointsRows(domain, page, resp, init, types), BreakpointRows(domain, page, resp, last, types),
        |types|, QualifyingCount(resp, init), QualifyingCount(resp, bps), Qualifies(resp, last));
    }
  }

  /** A test that ran at a qualifying listed breakpoint of some page is one
      of the matrix's test types, so that breakpoint has a row for it whose
      status is not "Not Tested". */
  lemma RunTestIsType(results: seq<Json>, p: nat, bp: Json, n: string)
    requires p < |results| && HasResponsive(results[p])
    requires Qualifies(Responsive(results[p]), bp)
    requires Has(ResponsiveTestsValue(Get(BreakpointResults(results[p]), PyStr(bp)).value), n)
    ensures n in TestTypes(results)
  {
    var byBp := BreakpointResults(results[p]);
    var res := Get(byBp, PyStr(bp)).value;
    GetFound(byBp, PyStr(bp));
    var i :| 0 <= i < |byBp| && byBp[i] == (PyStr(bp), res);
    ResultTestNamesHas(byBp, i, n);
    AllTestNamesHas(results, p, n);
    TestTypesSpec(results, n);
  }

  /** The sheet is ordered by its key and holds exactly the built rows. */
  lemma MatrixSorted(results: seq<Json>)
    ensures SortedBy(Matrix(results), MatrixKey)
    ensures multiset(Matrix(results)) == multiset(MatrixRows(results, TestTypes(results)))
  {
    SortBySorted(MatrixRows(results, TestTypes(results)), MatrixKey);
  }

  // The loops that build the sheet.

  /** The first pass: the set of test names, then sorted. */
  method CollectTestTypes(results: seq<Json>) returns (types: seq<string>)
    ensures types == TestTypes(results)
  {
    var seen := CollectTestNames(results);
    types := SortBy(seen, NameKey);
  }

  /** `test_types.add(test_name)` over every page, in order. */
  method CollectTestNames(results: seq<Json>) returns (seen: seq<string>)
    ensures seen == AddAll([], AllTestNames(results))
  {
    seen := [];
    var p := 0;
    while p < |results|
      invariant 0 <= p <= |results|
      invariant seen == AddAll([], FlatMap(results[..p], PageTestNames))
    {
      FlatMapSnoc(results, PageTestNames, p);
      AddAllAppend([], FlatMap(results[..p], PageTestNames), PageTestNames(results[p]));
      if HasResponsive(results[p]) {
        seen := AddPageNames(seen, BreakpointResults(results[p]));
      }
      p := p + 1;
    }
    assert results[..|results|] == results;
  }

  method AddPageNames(seen0: seq<string>, bpResults: Dict<string, Json>) returns (seen: seq<string>)
    ensures seen == AddAll(seen0, ResultTestNames(bpResults))
  {
    seen := seen0;
    var i := 0;
    while i < |bpResults|
      invariant 0 <= i <= |bpResults|
      invariant seen == AddAll(seen0, ResultTestNames(bpResults[..i]))
    {
      assert bpResults[..i + 1][..i] == bpResults[..i];
      var res := bpResults[i].1;
      AddAllAppend(seen0, ResultTestNames(bpResults[..i]), if HasResponsiveTests(res) then Keys(ResponsiveTests(res)) else []);
      if HasResponsiveTests(res) {
        seen := AddNames(seen, Keys(ResponsiveTests(res)));
      }
      i := i + 1;
    }
    assert bpResults[..|bpResults|] == bpResults;
  }

  method AddNames(seen0: seq<string>, names: seq<string>) returns (seen: seq<string>)
    ensures seen == AddAll(seen0, names)
  {
    seen := seen0;
    var i := 0;
    while i < |names|
      invariant 0 <= i <= |names|
      invariant seen == AddAll(seen0, names[..i])
    {
      assert names[..i + 1][..i] == names[..i];
      if names[i] !in seen {
        seen := seen + [names[i]];
      }
      i := i + 1;
    }
    assert names[..|names|] == names;
  }

  /** The second pass and the sort. */
  method BuildMatrix(results: seq<Json>) returns (rows: seq<MatrixRow>)
    ensures rows == Matrix(results)
  {
    var types := CollectTestTypes(results);
    rows := CollectMatrixRows(results, types);
    rows := SortBy(rows, MatrixKey);
  }

  /** The second pass: the rows of every responsive page. */
  method CollectMatrixRows(results: seq<Json>, types: seq<string>) returns (rows: seq<MatrixRow>)
    ensures rows == MatrixRows(results, types)
  {
    rows := [];
    var p := 0;
    while p < |results|
      invariant 0 <= p <= |results|
      invariant rows == MatrixRows(results[..p], types)
    {
      MatrixRowsSnoc(results, p, types);
      var more := ResultMatrixRows(results[p], types);
      rows := rows + more;
      p := p + 1;
    }
    assert results[..|results|] == results;
  }

  lemma MatrixRowsSnoc(results: seq<Json>, p: nat, types: seq<string>)
    requires p < |results|
    ensures MatrixRows(results[..p + 1], types) == MatrixRows(results[..p], types) + PageRows(results[p], types)
  {
    assert results[..p + 1][..p] == results[..p];
  }

  /** The rows of one page: none unless it holds responsive results. */
  method ResultMatrixRows(result: Json, types: seq<string>) returns (rows: seq<MatrixRow>)
    ensures rows == PageRows(result, types)
  {
    rows := [];
    if HasResponsive(result) {
      var url := Summary.PageUrl(result);
      rows := PageMatrixRows(Domain(url), Page(url), Responsive(result), types);
    }
  }

  method PageMatrixRows(domain: string, page: string, resp: Json, types: seq<string>) returns (rows: seq<MatrixRow>)
    ensures rows == BreakpointsRows(domain, page, resp, ListedBreakpoints(resp), types)
  {
    var bps := ListedBreakpoints(resp);
    rows := [];
    var b := 0;
    while b < |bps|
      invariant 0 <= b <= |bps|
      invariant rows == BreakpointsRows(domain, page, resp, bps[..b], types)
    {
      BreakpointsRowsSnoc(domain, page, resp, bps, b, types);
      var more := BreakpointMatrixRows(domain, page, resp, bps[b], types);
      rows := rows + more;
      b := b + 1;
    }
    assert bps[..|bps|] == bps;
  }

  lemma BreakpointsRowsSnoc(domain: string, page: string, resp: Json, bps: seq<Json>, b: nat, types: seq<string>)
    requires b < |bps|
    ensures BreakpointsRows(domain, page, resp, bps[..b + 1], types)
            == BreakpointsRows(domain, page, resp, bps[..b], types) + BreakpointRows(domain, page, resp, bps[b], types)
  {
    assert bps[..b + 1][..b] == bps[..b];
  }

  /** The rows of one listed breakpoint: none unless its results hold
      responsive tests. */
  method BreakpointMatrixRows(domain: string, page: string, resp: Json, bp: Json, types: seq<string>) returns (rows: seq<MatrixRow>)
    ensures rows == BreakpointRows(domain, page, resp, bp, types)
  {
    var byBp := Fields(Sub(resp, BreakpointResultsKey));
    var key := PyStr(bp);
    rows := [];
    if HasKey(byBp, key) && HasResponsiveTests(Get(byBp, key).value) {
      rows := TestTypeRows(domain, page, bp, ResponsiveTestsValue(Get(byBp, key).value), types);
    }
  }

  method TestTypeRows(domain: string, page: string, bp: Json, respTests: Json, types: seq<string>) returns (rows: seq<MatrixRow>)
    ensures rows == TypeRows(domain, page, bp, respTests, types)
  {
    rows := [];
    var i := 0;
    while i < |types|
      invariant 0 <= i <= |types|
      invariant rows == TypeRows(domain, page, bp, respTests, types[..i])
    {
      assert types[..i + 1][..i] == types[..i];
      var name := types[i];
      var row;
      if Has(respTests, name) {
        var issues := TestIssues(respTests, name);
        if Len(issues) > 0 {
          var details := DescribeIssues(Iterate(issues));
          row := MatrixRow(domain, page, bp, name, IssuesFound(Len(issues)), MatrixDetails(details));
        } else {
          row := MatrixRow(domain, page, bp, name, Pass, "No issues detected");
        }
      } else {
        row := MatrixRow(domain, page, bp, name, NotTested, "-");
      }
      rows := rows + [row];
      i := i + 1;
    }
    assert types[..|types|] == types;
  }
}
