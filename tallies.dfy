/** The responsive breakpoint summary: one row per page with consolidated
    results and one per breakpoint with issues, and the chart tallies built
    beside them (all breakpoints, issues by breakpoint, issues by type and
    the domains with issues). */
module ResponsiveTallies {
  import opened Dicts
  import opened Strs
  import opened JsonValue
  import opened DetailedResults
  import opened ResponsiveMatrix
  import RowSort
  import Summary
  import opened PrefixFolds

  // Numbers read from the documents.

  /** `int(k)` for a breakpoint key, as `ParseInt` reads it; text on which
      `int` raises is read as 0. */
  function IntText(s: string): int
  {
    match ParseInt(s)
    case Some(v) => v
    case None => 0
  }

  /** `int(bp)` for a listed breakpoint. */
  function IntOf(bp: Json): int
  {
    match bp
    case JInt(i) => i
    case JBool(b) => if b then 1 else 0
    case JStr(s) => IntText(s)
    case _ => 0
  }

  /** A counter from a summary as `+=` and `> 0` read it. */
  function NumberOf(v: Json): int
  {
    match v
    case JInt(i) => i
    case JBool(b) => if b then 1 else 0
    case _ => 0
  }

  function SumOf<T>(xs: seq<T>, f: T -> int): int
  {
    if |xs| == 0 then 0 else SumOf(xs[..|xs| - 1], f) + f(xs[|xs| - 1])
  }

  lemma {:induction false} SumOfAppend<T>(xs: seq<T>, ys: seq<T>, f: T -> int)
    ensures SumOf(xs + ys, f) == SumOf(xs, f) + SumOf(ys, f)
  {
    if |ys| == 0 {
      assert xs + ys == xs;
    } else {
      assert (xs + ys)[..|xs + ys| - 1] == xs + ys[..|ys| - 1];
      SumOfAppend(xs, ys[..|ys| - 1], f);
    }
  }

  // Issues at one breakpoint.

  /** `'tests' in bp_results and 'responsive' in bp_results['tests']`. */
  predicate HasResponsiveData(bpResults: Json)
  {
    Has(bpResults, "tests") && Has(Sub(bpResults, "tests"), "responsive")
  }

  /** `len(test_data['issues'])` when the test has issues listed, else 0. */
  function IssueCount(testData: Json): nat
  {
    if Has(testData, "issues") then Len(Sub(testData, "issues")) else 0
  }

  function TestsTotal(tests: Dict<string, Json>): nat
  {
    if |tests| == 0 then 0 else TestsTotal(tests[..|tests| - 1]) + IssueCount(tests[|tests| - 1].1)
  }

  /** `"<test>: <count>"` for every test with issues. */
  function TestsDetails(tests: Dict<string, Json>): seq<string>
  {
    if |tests| == 0 then []
    else
      var (name, data) := tests[|tests| - 1];
      TestsDetails(tests[..|tests| - 1])
        + if IssueCount(data) > 0 then [name + ": " + NatToString(IssueCount(data))] else []
  }

  /** The total is zero exactly when no test has an entry in the details. */
  lemma {:induction false} TestsTotalDetails(tests: Dict<string, Json>)
    ensures TestsTotal(tests) == 0 <==> |TestsDetails(tests)| == 0
    ensures |TestsDetails(tests)| <= |tests|
  {
    if |tests| > 0 {
      TestsTotalDetails(tests[..|tests| - 1]);
    }
  }

  /** The issues at a breakpoint, over all its responsive tests. */
  function BreakpointTotal(bpResults: Json): nat
  {
    TestsTotal(ResponsiveTests(bpResults))
  }

  /** Whether a breakpoint gets a summary row and a chart count. */
  predicate HasIssuesAt(bpResults: Json)
  {
    HasResponsiveData(bpResults) && BreakpointTotal(bpResults) > 0
  }

  // The summary rows.

  /** The five issue types of the chart and the summary counter of each. */
  const TypeCounters: seq<(string, string)> :=
    [("Overflow", "overflowIssues"), ("Touch Target", "touchTargetIssues"),
     ("Font Scaling", "fontScalingIssues"), ("Fixed Position", "fixedPositionIssues"),
     ("Content Stacking", "contentStackingIssues")]

  /** A row of the summary sheet. A page row keeps the cells as read; a
      breakpoint row has the total and the per-test details. */
  datatype SummaryRow =
    | UrlRow(url: string, tested: nat, affected: Json, total: Json, counters: seq<Json>, breakpoints: string)
    | BreakpointRow(title: string, count: nat, details: string)

  /** `consolidated.get('summary', {})`. */
  function ConsolidatedSummary(resp: Json): Json
  {
    Sub(Sub(resp, "consolidated"), "summary")
  }

  /** `summary.get(key, 0)`. */
  function Counter(summary: Json, key: string): Json
  {
    Field(summary, key, JInt(0))
  }

  function CounterValues(summary: Json, names: seq<(string, string)>): (r: seq<Json>)
    ensures |r| == |names|
  {
    if |names| == 0 then [] else CounterValues(summary, names[..|names| - 1]) + [Counter(summary, names[|names| - 1].1)]
  }

  function ListedOrder(bp: Json): seq<RowSort.Atom>
  {
    [BreakpointAtom(bp)]
  }

  /** `', '.join(map(str, sorted(breakpoints)))`. */
  function BreakpointsTested(resp: Json): string
  {
    Join(", ", Texts(RowSort.SortBy(ListedBreakpoints(resp), ListedOrder)))
  }

  function UrlRowOf(url: string, resp: Json): SummaryRow
  {
    var summary := ConsolidatedSummary(resp);
    UrlRow(url, Len(Field(resp, "breakpoints", JList([]))), Counter(summary, "affectedBreakpoints"),
           Counter(summary, "totalIssues"), CounterValues(summary, TypeCounters), BreakpointsTested(resp))
  }

  function BreakpointRows(url: string, byBp: Dict<string, Json>): seq<SummaryRow>
  {
    if |byBp| == 0 then []
    else
      var (bp, res) := byBp[|byBp| - 1];
      BreakpointRows(url, byBp[..|byBp| - 1])
        + if HasIssuesAt(res) then
            [BreakpointRow("  -- " + url + " @ " + bp + "px", BreakpointTotal(res), Join(", ", TestsDetails(ResponsiveTests(res))))]
          else []
  }

  /** A page whose responsive results carry a consolidated part. */
  predicate Consolidated(result: Json)
  {
    HasResponsive(result) && Has(Responsive(result), "consolidated")
  }

  function PageSummaryRows(result: Json): seq<SummaryRow>
  {
    if Consolidated(result) then
      var url := Summary.PageUrl(result);
      [UrlRowOf(url, Responsive(result))] + BreakpointRows(url, BreakpointResults(result))
    else []
  }

  function SummaryRows(results: seq<Json>): seq<SummaryRow>
  {
    if |results| == 0 then []
    else SummaryRows(results[..|results| - 1]) + PageSummaryRows(results[|results| - 1])
  }

  // The chart tallies.

  function Ints(bps: seq<Json>): (r: seq<int>)
    ensures |r| == |bps|
  {
    if |bps| == 0 then [] else Ints(bps[..|bps| - 1]) + [IntOf(bps[|bps| - 1])]
  }

  function PageInts(result: Json): seq<int>
  {
    if HasResponsive(result) then Ints(ListedBreakpoints(Responsive(result))) else []
  }

  /** Every listed breakpoint of every responsive page, as integers. */
  function ListedInts(results: seq<Json>): seq<int>
  {
    if |results| == 0 then [] else ListedInts(results[..|results| - 1]) + PageInts(results[|results| - 1])
  }

  /** `all_breakpoints`, a set kept in first-seen order. */
  function AllBreakpoints(results: seq<Json>): seq<int>
  {
    if |results| == 0 then [] else AddAll(AllBreakpoints(results[..|results| - 1]), PageInts(results[|results| - 1]))
  }

  /** `issue_by_breakpoint[int(bp)] += total` for each breakpoint with issues. */
  function BreakpointCounts(d: Dict<int, int>, byBp: Dict<string, Json>): Dict<int, int>
  {
    if |byBp| == 0 then d
    else
      var (bp, res) := byBp[|byBp| - 1];
      var d' := BreakpointCounts(d, byBp[..|byBp| - 1]);
      if HasIssuesAt(res) then Add(d', IntText(bp), BreakpointTotal(res)) else d'
  }

  function IssueByBreakpoint(results: seq<Json>): Dict<int, int>
  {
    if |results| == 0 then []
    else BreakpointStep(IssueByBreakpoint(results[..|results| - 1]), results[|results| - 1])
  }

  function BreakpointStep(d: Dict<int, int>, result: Json): Dict<int, int>
  {
    if Consolidated(result) then BreakpointCounts(d, BreakpointResults(result)) else d
  }

  /** `issue_by_type[label] += summary.get(key, 0)` for each issue type. */
  function AddCounters(d: Dict<string, int>, summary: Json, names: seq<(string, string)>): Dict<string, int>
  {
    if |names| == 0 then d
    else
      var (typeName, key) := names[|names| - 1];
      Add(AddCounters(d, summary, names[..|names| - 1]), typeName, NumberOf(Counter(summary, key)))
  }

  function IssueByType(results: seq<Json>): Dict<string, int>
  {
    if |results| == 0 then []
    else TypeStep(IssueByType(results[..|results| - 1]), results[|results| - 1])
  }

  function TypeStep(d: Dict<string, int>, result: Json): Dict<string, int>
  {
    if Consolidated(result) && Has(Sub(Responsive(result), "consolidated"), "summary") then
      AddCounters(d, ConsolidatedSummary(Responsive(result)), TypeCounters)
    else d
  }

  /** A consolidated page whose summary reports issues. */
  predicate ReportsIssues(result: Json)
  {
    Consolidated(result) && NumberOf(Counter(ConsolidatedSummary(Responsive(result)), "totalIssues")) > 0
  }

  function DomainsWithIssues(results: seq<Json>): seq<string>
  {
    if |results| == 0 then []
    else DomainStep(DomainsWithIssues(results[..|results| - 1]), results[|results| - 1])
  }

  function DomainStep(ds: seq<string>, result: Json): seq<string>
  {
    if ReportsIssues(result) then AddToSet(ds, Domain(Summary.PageUrl(result))) else ds
  }

  // What the tallies promise.

  /** A breakpoint row's total, or 0 for a page row. */
  function RowBreakpointTotal(r: SummaryRow): int
  {
    if r.BreakpointRow? then r.count else 0
  }

  /** The five counters of a page row added up, or 0 for a breakpoint row. */
  function RowTypeTotal(r: SummaryRow): int
  {
    if r.UrlRow? then SumOf(r.counters, NumberOf) else 0
  }

  lemma {:induction false} BreakpointCountsSum(d: Dict<int, int>, url: string, byBp: Dict<string, Json>)
    ensures SumValues(BreakpointCounts(d, byBp)) == SumValues(d) + SumOf(BreakpointRows(url, byBp), RowBreakpointTotal)
  {
    if |byBp| > 0 {
      var init := byBp[..|byBp| - 1];
      var res := byBp[|byBp| - 1].1;
      BreakpointCountsSum(d, url, init);
      var last := if HasIssuesAt(res) then
          [BreakpointRow("  -- " + url + " @ " + byBp[|byBp| - 1].0 + "px", BreakpointTotal(res), Join(", ", TestsDetails(ResponsiveTests(res))))]
        else [];
      assert BreakpointRows(url, byBp) == BreakpointRows(url, init) + last;
      SumOfAppend(BreakpointRows(url, init), last, RowBreakpointTotal);
      assert SumOf(last, RowBreakpointTotal) == if HasIssuesAt(res) then BreakpointTotal(res) else 0 by {
        if HasIssuesAt(res) {
          assert last[..0] == [];
        }
      }
    }
  }

  /** The issues charted by breakpoint are the totals of the breakpoint
      rows of the summary sheet. */
  lemma {:induction false} BreakpointConservation(results: seq<Json>)
    ensures SumValues(IssueByBreakpoint(results)) == SumOf(SummaryRows(results), RowBreakpointTotal)
  {
    if |results| > 0 {
      var init := results[..|results| - 1];
      var result := results[|results| - 1];
      BreakpointConservation(init);
      SumOfAppend(SummaryRows(init), PageSummaryRows(result), RowBreakpointTotal);
      if Consolidated(result) {
        var url := Summary.PageUrl(result);
        var rows := BreakpointRows(url, BreakpointResults(result));
        BreakpointCountsSum(IssueByBreakpoint(init), url, BreakpointResults(result));
        SumOfAppend([UrlRowOf(url, Responsive(result))], rows, RowBreakpointTotal);
        assert [UrlRowOf(url, Responsive(result))][..0] == [];
      }
    }
  }

  lemma {:induction false} AddCountersSum(d: Dict<string, int>, summary: Json, names: seq<(string, string)>)
    ensures SumValues(AddCounters(d, summary, names)) == SumValues(d) + SumOf(CounterValues(summary, names), NumberOf)
  {
    if |names| > 0 {
      AddCountersSum(d, summary, names[..|names| - 1]);
      var init := CounterValues(summary, names[..|names| - 1]);
      assert CounterValues(summary, names) == init + [Counter(summary, names[|names| - 1].1)];
      SumOfAppend(init, [Counter(summary, names[|names| - 1].1)], NumberOf);
      assert [Counter(summary, names[|names| - 1].1)][..0] == [];
    }
  }

  lemma {:induction false} NoCounters(names: seq<(string, string)>)
    ensures SumOf(CounterValues(JObj([]), names), NumberOf) == 0
  {
    if |names| > 0 {
      NoCounters(names[..|names| - 1]);
      var init := CounterValues(JObj([]), names[..|names| - 1]);
      SumOfAppend(init, [Counter(JObj([]), names[|names| - 1].1)], NumberOf);
      assert [Counter(JObj([]), names[|names| - 1].1)][..0] == [];
    }
  }

  lemma {:induction false} BreakpointRowsTypeTotal(url: string, byBp: Dict<string, Json>)
    ensures SumOf(BreakpointRows(url, byBp), RowTypeTotal) == 0
  {
    if |byBp| > 0 {
      var init := byBp[..|byBp| - 1];
      var res := byBp[|byBp| - 1].1;
      BreakpointRowsTypeTotal(url, init);
      var last := if HasIssuesAt(res) then
          [BreakpointRow("  -- " + url + " @ " + byBp[|byBp| - 1].0 + "px", BreakpointTotal(res), Join(", ", TestsDetails(ResponsiveTests(res))))]
        else [];
      assert BreakpointRows(url, byBp) == BreakpointRows(url, init) + last;
      SumOfAppend(BreakpointRows(url, init), last, RowTypeTotal);
      if HasIssuesAt(res) {
        assert last[..0] == [];
      }
    }
  }

  /** The type counts of a page row are what the issue-type chart adds for
      that page: the summary's five counters, or nothing (all cells 0) when
      the consolidated part has no summary. */
  lemma PageTypeTotal(result: Json)
    requires Consolidated(result)
    ensures SumOf(PageSummaryRows(result), RowTypeTotal)
            == SumOf(CounterValues(ConsolidatedSummary(Responsive(result)), TypeCounters), NumberOf)
    ensures !Has(Sub(Responsive(result), "consolidated"), "summary") ==> SumOf(PageSummaryRows(result), RowTypeTotal) == 0
  {
    var url := Summary.PageUrl(result);
    var head := [UrlRowOf(url, Responsive(result))];
    var rows := BreakpointRows(url, BreakpointResults(result));
    SumOfAppend(head, rows, RowTypeTotal);
    BreakpointRowsTypeTotal(url, BreakpointResults(result));
    assert head[..0] == [];
    if !Has(Sub(Responsive(result), "consolidated"), "summary") {
      NoCounters(TypeCounters);
    }
  }

  /** The issues charted by type are the five counters of the page rows of
      the summary sheet, added up. */
  lemma {:induction false} TypeConservation(results: seq<Json>)
    ensures SumValues(IssueByType(results)) == SumOf(SummaryRows(results), RowTypeTotal)
  {
    if |results| > 0 {
      var init := results[..|results| - 1];
      var result := results[|results| - 1];
      TypeConservation(init);
      SumOfAppend(SummaryRows(init), PageSummaryRows(result), RowTypeTotal);
      if Consolidated(result) {
        PageTypeTotal(result);
        if Has(Sub(Responsive(result), "consolidated"), "summary") {
          AddCountersSum(IssueByType(init), ConsolidatedSummary(Responsive(result)), TypeCounters);
        }
      }
    }
  }

  /** Every count kept is positive. */
  predicate PositiveCounts<K>(d: Dict<K, int>)
  {
    forall i :: 0 <= i < |d| ==> d[i].1 > 0
  }

  lemma AddPositive<K>(d: Dict<K, int>, k: K, n: int)
    requires PositiveCounts(d) && n > 0
    ensures PositiveCounts(Add(d, k, n))
  {
    var r := Add(d, k, n);
    forall i | 0 <= i < |r|
      ensures r[i].1 > 0
    {
      PutEntries(d, k, GetOr(d, k, 0) + n, i);
      if r[i] != (k, GetOr(d, k, 0) + n) {
        var j :| 0 <= j < |d| && d[j] == r[i];
      } else if HasKey(d, k) {
        GetFound(d, k);
        var j :| 0 <= j < |d| && d[j] == (k, Get(d, k).value);
      }
    }
  }

  lemma {:induction false} BreakpointCountsPositive(d: Dict<int, int>, byBp: Dict<string, Json>)
    requires PositiveCounts(d)
    ensures PositiveCounts(BreakpointCounts(d, byBp))
  {
    if |byBp| > 0 {
      BreakpointCountsPositive(d, byBp[..|byBp| - 1]);
      var res := byBp[|byBp| - 1].1;
      if HasIssuesAt(res) {
        AddPositive(BreakpointCounts(d, byBp[..|byBp| - 1]), IntText(byBp[|byBp| - 1].0), BreakpointTotal(res));
      }
    }
  }

  /** Every breakpoint charted has issues. */
  lemma {:induction false} IssueByBreakpointPositive(results: seq<Json>)
    ensures PositiveCounts(IssueByBreakpoint(results))
  {
    if |results| > 0 {
      IssueByBreakpointPositive(results[..|results| - 1]);
      if Consolidated(results[|results| - 1]) {
        BreakpointCountsPositive(IssueByBreakpoint(results[..|results| - 1]), BreakpointResults(results[|results| - 1]));
      }
    }
  }

  lemma {:induction false} BreakpointRowsShape(url: string, byBp: Dict<string, Json>, i: nat)
    requires i < |BreakpointRows(url, byBp)|
    ensures BreakpointRows(url, byBp)[i].BreakpointRow?
    ensures BreakpointRows(url, byBp)[i].count > 0 && |BreakpointRows(url, byBp)[i].details| > 0
  {
    var init := byBp[..|byBp| - 1];
    var res := byBp[|byBp| - 1].1;
    if i < |BreakpointRows(url, init)| {
      BreakpointRowsShape(url, init, i);
    } else {
      TestsTotalDetails(ResponsiveTests(res));
      var ds := TestsDetails(ResponsiveTests(res));
      assert ds == [ds[0]] + ds[1..];
      if |ds| > 1 {
        JoinCons(", ", ds[0], ds[1..]);
      }
      TestsDetailsNonEmpty(ResponsiveTests(res));
    }
  }

  lemma {:induction false} TestsDetailsNonEmpty(tests: Dict<string, Json>)
    ensures forall i :: 0 <= i < |TestsDetails(tests)| ==> |TestsDetails(tests)[i]| > 0
  {
    if |tests| > 0 {
      TestsDetailsNonEmpty(tests[..|tests| - 1]);
    }
  }

  lemma PageBreakpointRows(result: Json, k: nat)
    requires k < |PageSummaryRows(result)| && PageSummaryRows(result)[k].BreakpointRow?
    ensures PageSummaryRows(result)[k].count > 0 && |PageSummaryRows(result)[k].details| > 0
  {
    var url := Summary.PageUrl(result);
    var rows := BreakpointRows(url, BreakpointResults(result));
    assert PageSummaryRows(result) == [UrlRowOf(url, Responsive(result))] + rows;
    assert k > 0;
    assert PageSummaryRows(result)[k] == rows[k - 1];
    BreakpointRowsShape(url, BreakpointResults(result), k - 1);
  }

  /** Every row of a breakpoint has issues and says in which tests. */
  lemma {:induction false} SummaryBreakpointRows(results: seq<Json>, i: nat)
    requires i < |SummaryRows(results)| && SummaryRows(results)[i].BreakpointRow?
    ensures SummaryRows(results)[i].count > 0 && |SummaryRows(results)[i].details| > 0
  {
    var init := results[..|results| - 1];
    var page := PageSummaryRows(results[|results| - 1]);
    assert SummaryRows(results) == SummaryRows(init) + page;
    if i < |SummaryRows(init)| {
      SummaryBreakpointRows(init, i);
    } else {
      assert page[i - |SummaryRows(init)|] == SummaryRows(results)[i];
      PageBreakpointRows(results[|results| - 1], i - |SummaryRows(init)|);
    }
  }

  /** A page that reports issues for domain `d`. */
  predicate IssueDomain(result: Json, d: string)
  {
    ReportsIssues(result) && Domain(Summary.PageUrl(result)) == d
  }

  lemma DomainStepSpec(ds: seq<string>, result: Json, d: string)
    ensures d in DomainStep(ds, result) <==> d in ds || IssueDomain(result, d)
  {
  }

  /** The domain one page contributes: its own when it reports issues. */
  function IssueDomains(result: Json): seq<string>
  {
    if ReportsIssues(result) then [Domain(Summary.PageUrl(result))] else []
  }

  /** The domains listed are those the pages contribute. */
  lemma {:induction false} DomainsContributed(results: seq<Json>, d: string)
    ensures d in DomainsWithIssues(results) <==> d in FlatMap(results, IssueDomains)
  {
    if |results| > 0 {
      var init := results[..|results| - 1];
      DomainsContributed(init, d);
      DomainStepSpec(DomainsWithIssues(init), results[|results| - 1], d);
    }
  }

  /** A domain is listed exactly when some consolidated page of it reports
      issues. */
  lemma DomainsWithIssuesSpec(results: seq<Json>, d: string)
    ensures d in DomainsWithIssues(results) <==> exists p :: 0 <= p < |results| && IssueDomain(results[p], d)
  {
    DomainsContributed(results, d);
    if d in DomainsWithIssues(results) {
      var p := FlatMapWitness(results, IssueDomains, d);
      assert IssueDomain(results[p], d);
    }
    if exists p :: 0 <= p < |results| && IssueDomain(results[p], d) {
      var p :| 0 <= p < |results| && IssueDomain(results[p], d);
      assert d in IssueDomains(results[p]);
      FlatMapHas(results, IssueDomains, p, d);
    }
  }

  lemma {:induction false} AllBreakpointsListed(results: seq<Json>)
    ensures AllBreakpoints(results) == AddAll([], ListedInts(results))
  {
    if |results| > 0 {
      AllBreakpointsListed(results[..|results| - 1]);
      AddAllAppend([], ListedInts(results[..|results| - 1]), PageInts(results[|results| - 1]));
    }
  }

  /** Every listed breakpoint is charted once, and nothing else is. */
  lemma AllBreakpointsSpec(results: seq<Json>, x: int)
    ensures multiset(AllBreakpoints(results))[x] == if x in ListedInts(results) then 1 else 0
  {
    AllBreakpointsListed(results);
    AddAllCount([], ListedInts(results), x);
  }

  // The loop that builds the sheet and the tallies.

  /** The summary sheet's rows and the tallies of its loop over the pages. */
  method BuildBreakpointSummary(results: seq<Json>)
    returns (rows: seq<SummaryRow>, all: seq<int>, byBreakpoint: Dict<int, int>, byType: Dict<string, int>, domains: seq<string>)
    ensures rows == SummaryRows(results) && all == AllBreakpoints(results)
    ensures byBreakpoint == IssueByBreakpoint(results) && byType == IssueByType(results)
    ensures domains == DomainsWithIssues(results)
  {
    rows, all, byBreakpoint, byType, domains := [], [], [], [], [];
    var p := 0;
    while p < |results|
      invariant 0 <= p <= |results|
      invariant rows == SummaryRows(results[..p]) && all == AllBreakpoints(results[..p])
      invariant byBreakpoint == IssueByBreakpoint(results[..p]) && byType == IssueByType(results[..p])
      invariant domains == DomainsWithIssues(results[..p])
    {
      PageSnoc(results, p);
      var more;
      more, all, byBreakpoint, byType, domains := SummarizePage(results[p], all, byBreakpoint, byType, domains);
      rows := rows + more;
      p := p + 1;
    }
    assert results[..|results|] == results;
  }

  /** One more page extends each of the five folds by that page's step. */
  lemma PageSnoc(results: seq<Json>, p: nat)
    requires p < |results|
    ensures SummaryRows(results[..p + 1]) == SummaryRows(results[..p]) + PageSummaryRows(results[p])
    ensures AllBreakpoints(results[..p + 1]) == AddAll(AllBreakpoints(results[..p]), PageInts(results[p]))
    ensures IssueByBreakpoint(results[..p + 1]) == BreakpointStep(IssueByBreakpoint(results[..p]), results[p])
    ensures IssueByType(results[..p + 1]) == TypeStep(IssueByType(results[..p]), results[p])
    ensures DomainsWithIssues(results[..p + 1]) == DomainStep(DomainsWithIssues(results[..p]), results[p])
  {
    assert results[..p + 1][..p] == results[..p];
  }

  lemma CounterSnoc(d: Dict<string, int>, summary: Json, names: seq<(string, string)>, i: nat)
    requires i < |names|
    ensures AddCounters(d, summary, names[..i + 1])
      == Add(AddCounters(d, summary, names[..i]), names[i].0, NumberOf(Counter(summary, names[i].1)))
  {
    assert names[..i + 1][..i] == names[..i];
  }

  /** One page of the loop: its rows and what it adds to each tally. */
  method SummarizePage(result: Json, all0: seq<int>, byBreakpoint0: Dict<int, int>, byType0: Dict<string, int>, domains0: seq<string>)
    returns (rows: seq<SummaryRow>, all: seq<int>, byBreakpoint: Dict<int, int>, byType: Dict<string, int>, domains: seq<string>)
    ensures rows == PageSummaryRows(result) && all == AddAll(all0, PageInts(result))
    ensures byBreakpoint == BreakpointStep(byBreakpoint0, result) && byType == TypeStep(byType0, result)
    ensures domains == DomainStep(domains0, result)
  {
    rows, all, byBreakpoint, byType, domains := [], all0, byBreakpoint0, byType0, domains0;
    if HasResponsive(result) {
      var resp := Responsive(result);
      var url := Summary.PageUrl(result);
      all := AddBreakpoints(all, ListedBreakpoints(resp));
      if Has(resp, "consolidated") {
        var summary := ConsolidatedSummary(resp);
        if Has(Sub(resp, "consolidated"), "summary") {
          byType := CountTypes(byType, summary);
        }
        var more;
        more, byBreakpoint := SummarizeBreakpoints(url, byBreakpoint, BreakpointResults(result));
        rows := [UrlRowOf(url, resp)] + more;
        if NumberOf(Counter(summary, "totalIssues")) > 0 {
          domains := AddToSet(domains, Domain(url));
        }
      }
    }
  }

  method AddBreakpoints(all0: seq<int>, bps: seq<Json>) returns (all: seq<int>)
    ensures all == AddAll(all0, Ints(bps))
  {
    all := all0;
    var i := 0;
    while i < |bps|
      invariant 0 <= i <= |bps|
      invariant all == AddAll(all0, Ints(bps[..i]))
    {
      assert bps[..i + 1][..i] == bps[..i];
      var x := IntOf(bps[i]);
      if x !in all {
        all := all + [x];
      }
      i := i + 1;
    }
    assert bps[..|bps|] == bps;
  }

  method CountTypes(d0: Dict<string, int>, summary: Json) returns (d: Dict<string, int>)
    ensures d == AddCounters(d0, summary, TypeCounters)
  {
    d := d0;
    var i := 0;
    while i < |TypeCounters|
      invariant 0 <= i <= |TypeCounters|
      invariant d == AddCounters(d0, summary, TypeCounters[..i])
    {
      CounterSnoc(d0, summary, TypeCounters, i);
      var (typeName, key) := TypeCounters[i];
      d := Add(d, typeName, NumberOf(Counter(summary, key)));
      i := i + 1;
    }
    assert TypeCounters[..|TypeCounters|] == TypeCounters;
  }

  /** The breakpoint rows of one page and their counts. */
  method SummarizeBreakpoints(url: string, counts0: Dict<int, int>, byBp: Dict<string, Json>)
    returns (rows: seq<SummaryRow>, counts: Dict<int, int>)
    ensures rows == BreakpointRows(url, byBp) && counts == BreakpointCounts(counts0, byBp)
  {
    rows, counts := [], counts0;
    var i := 0;
    while i < |byBp|
      invariant 0 <= i <= |byBp|
      invariant rows == BreakpointRows(url, byBp[..i]) && counts == BreakpointCounts(counts0, byBp[..i])
    {
      assert byBp[..i + 1][..i] == byBp[..i];
      var (bp, res) := byBp[i];
      if HasResponsiveData(res) {
        var total, details := CountTests(ResponsiveTests(res));
        if total > 0 {
          counts := Add(counts, IntText(bp), total);
          rows := rows + [BreakpointRow("  -- " + url + " @ " + bp + "px", total, Join(", ", details))];
        }
      }
      i := i + 1;
    }
    assert byBp[..|byBp|] == byBp;
  }

  /** The issue total of a breakpoint's tests and the per-test details. */
  method CountTests(tests: Dict<string, Json>) returns (total: nat, details: seq<string>)
    ensures total == TestsTotal(tests) && details == TestsDetails(tests)
  {
    total, details := 0, [];
    var i := 0;
    while i < |tests|
      invariant 0 <= i <= |tests|
      invariant total == TestsTotal(tests[..i]) && details == TestsDetails(tests[..i])
    {
      assert tests[..i + 1][..i] == tests[..i];
      var (name, data) := tests[i];
      if Has(data, "issues") {
        var count := Len(Sub(data, "issues"));
        if count > 0 {
          total := total + count;
          details := details + [name + ": " + NatToString(count)];
        }
      }
      i := i + 1;
    }
    assert tests[..|tests|] == tests;
  }
}
