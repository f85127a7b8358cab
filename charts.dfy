/** The tables under the responsive charts: issues per domain and
    breakpoint (the heatmap), issues per fixed test type and breakpoint
    (the trend), and the mobile/desktop split of the trend at 768 pixels. */
module ResponsiveCharts {
  import opened Dicts
  import opened JsonValue
  import opened DetailedResults
  import opened PrefixFolds
  import opened ResponsiveMatrix
  import opened ResponsiveTallies
  import Summary

  /** Issue counts by breakpoint. */
  type Counts = Dict<int, int>

  /** Issue counts by breakpoint under a row name (a domain or a test type). */
  type Grid = Dict<string, Counts>

  function GridTotal(g: Grid): int
  {
    if |g| == 0 then 0 else SumValues(g[0].1) + GridTotal(g[1..])
  }

  lemma {:induction false} GridPut(g: Grid, k: string, v: Counts)
    ensures GridTotal(Put(g, k, v)) == GridTotal(g) - SumValues(GetOr(g, k, [])) + SumValues(v)
  {
    if |g| == 0 {
    } else if g[0].0 == k {
      assert Put(g, k, v)[1..] == g[1..];
    } else {
      GridPut(g[1..], k, v);
      assert Put(g, k, v)[1..] == Put(g[1..], k, v);
    }
  }

  /** Adding `n` under `k` at breakpoint `bp` adds `n` to the grid's total. */
  lemma GridAdd(g: Grid, k: string, bp: int, n: int)
    ensures GridTotal(Put(g, k, Add(GetOr(g, k, []), bp, n))) == GridTotal(g) + n
  {
    GridPut(g, k, Add(GetOr(g, k, []), bp, n));
  }

  /** The issues of all the breakpoints of a page that carry responsive data. */
  function BreakpointsTotal(byBp: Dict<string, Json>): nat
  {
    if |byBp| == 0 then 0
    else
      var res := byBp[|byBp| - 1].1;
      BreakpointsTotal(byBp[..|byBp| - 1]) + if HasResponsiveData(res) then BreakpointTotal(res) else 0
  }

  lemma {:induction false} BreakpointCountsTotal(d: Counts, byBp: Dict<string, Json>)
    ensures SumValues(BreakpointCounts(d, byBp)) == SumValues(d) + BreakpointsTotal(byBp)
  {
    if |byBp| > 0 {
      BreakpointCountsTotal(d, byBp[..|byBp| - 1]);
    }
  }

  /** What a page adds to the heatmap. */
  function ResponsiveIssues(result: Json): int
  {
    if HasResponsive(result) then BreakpointsTotal(BreakpointResults(result)) else 0
  }

  /** What a page adds to the breakpoint chart. */
  function ConsolidatedIssues(result: Json): int
  {
    if Consolidated(result) then BreakpointsTotal(BreakpointResults(result)) else 0
  }

  // The heatmap.

  /** `domain_bp_issues`: a row for the domain of every responsive page,
      then `[domain][int(bp)] += total` for each breakpoint with issues. */
  function HeatStep(h: Grid, result: Json): Grid
  {
    if HasResponsive(result) then
      var domain := Domain(Summary.PageUrl(result));
      var h1 := if HasKey(h, domain) then h else Put(h, domain, []);
      Put(h1, domain, BreakpointCounts(GetOr(h1, domain, []), BreakpointResults(result)))
    else h
  }

  function Heatmap(results: seq<Json>): Grid
  {
    if |results| == 0 then [] else HeatStep(Heatmap(results[..|results| - 1]), results[|results| - 1])
  }

  lemma HeatStepTotal(h: Grid, result: Json)
    ensures GridTotal(HeatStep(h, result)) == GridTotal(h) + ResponsiveIssues(result)
  {
    if HasResponsive(result) {
      var domain := Domain(Summary.PageUrl(result));
      var h1 := if HasKey(h, domain) then h else Put(h, domain, []);
      if !HasKey(h, domain) {
        GridPut(h, domain, []);
      }
      var before := GetOr(h1, domain, []);
      BreakpointCountsTotal(before, BreakpointResults(result));
      GridPut(h1, domain, BreakpointCounts(before, BreakpointResults(result)));
    }
  }

  /** The heatmap holds every issue of every responsive page. */
  lemma {:induction false} HeatmapTotal(results: seq<Json>)
    ensures GridTotal(Heatmap(results)) == SumOf(results, ResponsiveIssues)
  {
    if |results| > 0 {
      HeatmapTotal(results[..|results| - 1]);
      HeatStepTotal(Heatmap(results[..|results| - 1]), results[|results| - 1]);
    }
  }

  /** The breakpoint chart holds every issue of every consolidated page. */
  lemma {:induction false} IssueByBreakpointTotal(results: seq<Json>)
    ensures SumValues(IssueByBreakpoint(results)) == SumOf(results, ConsolidatedIssues)
  {
    if |results| > 0 {
      var init := results[..|results| - 1];
      IssueByBreakpointTotal(init);
      if Consolidated(results[|results| - 1]) {
        BreakpointCountsTotal(IssueByBreakpoint(init), BreakpointResults(results[|results| - 1]));
      }
    }
  }

  lemma {:induction false} ConsolidatedWithin(results: seq<Json>)
    ensures SumOf(results, ConsolidatedIssues) <= SumOf(results, ResponsiveIssues)
    ensures (forall p :: 0 <= p < |results| && HasResponsive(results[p]) ==> Consolidated(results[p]))
            ==> SumOf(results, ConsolidatedIssues) == SumOf(results, ResponsiveIssues)
  {
    if |results| > 0 {
      var init := results[..|results| - 1];
      ConsolidatedWithin(init);
      if forall p :: 0 <= p < |results| && HasResponsive(results[p]) ==> Consolidated(results[p]) {
        forall p | 0 <= p < |init| && HasResponsive(init[p])
          ensures Consolidated(init[p])
        {
          assert init[p] == results[p];
        }
      }
    }
  }

  /** The heatmap counts at least what the breakpoint chart counts, and the
      same when every responsive page has consolidated results. */
  lemma HeatmapCoversChart(results: seq<Json>)
    ensures SumValues(IssueByBreakpoint(results)) <= GridTotal(Heatmap(results))
    ensures (forall p :: 0 <= p < |results| && HasResponsive(results[p]) ==> Consolidated(results[p]))
            ==> SumValues(IssueByBreakpoint(results)) == GridTotal(Heatmap(results))
  {
    HeatmapTotal(results);
    IssueByBreakpointTotal(results);
    ConsolidatedWithin(results);
  }

  lemma HeatStepKeys(h: Grid, result: Json, domain: string)
    ensures HasKey(HeatStep(h, result), domain) <==>
            HasKey(h, domain) || (HasResponsive(result) && Domain(Summary.PageUrl(result)) == domain)
  {
    if HasResponsive(result) {
      var d := Domain(Summary.PageUrl(result));
      var h1 := if HasKey(h, d) then h else Put(h, d, []);
      PutHasKey(h, d, [], domain);
      PutHasKey(h1, d, BreakpointCounts(GetOr(h1, d, []), BreakpointResults(result)), domain);
    }
  }

  predicate ResponsiveDomain(result: Json, domain: string)
  {
    HasResponsive(result) && Domain(Summary.PageUrl(result)) == domain
  }

  /** The row one page contributes: its domain when it is responsive. */
  function ResponsiveDomains(result: Json): seq<string>
  {
    if HasResponsive(result) then [Domain(Summary.PageUrl(result))] else []
  }

  /** The heatmap's rows are the domains the pages contribute. */
  lemma {:induction false} HeatRowsContributed(results: seq<Json>, domain: string)
    ensures HasKey(Heatmap(results), domain) <==> domain in FlatMap(results, ResponsiveDomains)
  {
    if |results| > 0 {
      var init := results[..|results| - 1];
      HeatRowsContributed(init, domain);
      HeatStepKeys(Heatmap(init), results[|results| - 1], domain);
    }
  }

  /** The heatmap has a row for a domain exactly when a responsive page of
      that domain was seen. */
  lemma HeatmapRows(results: seq<Json>, domain: string)
    ensures HasKey(Heatmap(results), domain) <==> exists p :: 0 <= p < |results| && ResponsiveDomain(results[p], domain)
  {
    HeatRowsContributed(results, domain);
    if HasKey(Heatmap(results), domain) {
      var p := FlatMapWitness(results, ResponsiveDomains, domain);
      assert ResponsiveDomain(results[p], domain);
    }
    if exists p :: 0 <= p < |results| && ResponsiveDomain(results[p], domain) {
      var p :| 0 <= p < |results| && ResponsiveDomain(results[p], domain);
      assert domain in ResponsiveDomains(results[p]);
      FlatMapHas(results, ResponsiveDomains, p, domain);
    }
  }

  // The trend of the five fixed test types.

  const TrendTypes: seq<string> := ["overflow", "touchTargets", "fontScaling", "fixedPosition", "contentStacking"]

  /** `test_type_data` before the loop: an empty row per type. */
  const EmptyTrend: Grid :=
    [("overflow", []), ("touchTargets", []), ("fontScaling", []), ("fixedPosition", []), ("contentStacking", [])]

  /** `[test_name][bp] += len(issues)` for each fixed-type test with issues listed. */
  function TrendTests(g: Grid, bp: int, tests: Dict<string, Json>): Grid
  {
    if |tests| == 0 then g
    else
      var (name, data) := tests[|tests| - 1];
      var g' := TrendTests(g, bp, tests[..|tests| - 1]);
      if name in TrendTypes && Has(data, "issues") then Put(g', name, Add(GetOr(g', name, []), bp, IssueCount(data)))
      else g'
  }

  function TrendBreakpoints(g: Grid, byBp: Dict<string, Json>): Grid
  {
    if |byBp| == 0 then g
    else
      var (bp, res) := byBp[|byBp| - 1];
      var g' := TrendBreakpoints(g, byBp[..|byBp| - 1]);
      if HasResponsiveData(res) then TrendTests(g', IntText(bp), ResponsiveTests(res)) else g'
  }

  function TrendStep(g: Grid, result: Json): Grid
  {
    if HasResponsive(result) then TrendBreakpoints(g, BreakpointResults(result)) else g
  }

  function Trend(results: seq<Json>): Grid
  {
    if |results| == 0 then EmptyTrend else TrendStep(Trend(results[..|results| - 1]), results[|results| - 1])
  }

  /** The issues of the fixed-type tests among `tests`. */
  function TrendIssues(tests: Dict<string, Json>): nat
  {
    if |tests| == 0 then 0
    else
      var (name, data) := tests[|tests| - 1];
      TrendIssues(tests[..|tests| - 1]) + if name in TrendTypes then IssueCount(data) else 0
  }

  lemma {:induction false} TrendIssuesWithin(tests: Dict<string, Json>)
    ensures TrendIssues(tests) <= TestsTotal(tests)
  {
    if |tests| > 0 {
      TrendIssuesWithin(tests[..|tests| - 1]);
    }
  }

  lemma {:induction false} TrendTestsTotal(g: Grid, bp: int, tests: Dict<string, Json>)
    ensures GridTotal(TrendTests(g, bp, tests)) == GridTotal(g) + TrendIssues(tests)
  {
    if |tests| > 0 {
      var (name, data) := tests[|tests| - 1];
      var g' := TrendTests(g, bp, tests[..|tests| - 1]);
      TrendTestsTotal(g, bp, tests[..|tests| - 1]);
      if name in TrendTypes && Has(data, "issues") {
        GridAdd(g', name, bp, IssueCount(data));
      }
    }
  }

  function TrendBreakpointsIssues(byBp: Dict<string, Json>): nat
  {
    if |byBp| == 0 then 0
    else
      var res := byBp[|byBp| - 1].1;
      TrendBreakpointsIssues(byBp[..|byBp| - 1]) + if HasResponsiveData(res) then TrendIssues(ResponsiveTests(res)) else 0
  }

  lemma {:induction false} TrendBreakpointsTotal(g: Grid, byBp: Dict<string, Json>)
    ensures GridTotal(TrendBreakpoints(g, byBp)) == GridTotal(g) + TrendBreakpointsIssues(byBp)
    ensures TrendBreakpointsIssues(byBp) <= BreakpointsTotal(byBp)
  {
    if |byBp| > 0 {
      var (bp, res) := byBp[|byBp| - 1];
      TrendBreakpointsTotal(g, byBp[..|byBp| - 1]);
      if HasResponsiveData(res) {
        TrendTestsTotal(TrendBreakpoints(g, byBp[..|byBp| - 1]), IntText(bp), ResponsiveTests(res));
        TrendIssuesWithin(ResponsiveTests(res));
      }
    }
  }

  /** What a page adds to the trend. */
  function TrendPageIssues(result: Json): int
  {
    if HasResponsive(result) then TrendBreakpointsIssues(BreakpointResults(result)) else 0
  }

  lemma {:induction false} TrendTotal(results: seq<Json>)
    ensures GridTotal(Trend(results)) == SumOf(results, TrendPageIssues)
    ensures SumOf(results, TrendPageIssues) <= SumOf(results, ResponsiveIssues)
  {
    if |results| > 0 {
      var init := results[..|results| - 1];
      var last := results[|results| - 1];
      TrendTotal(init);
      if HasResponsive(last) {
        TrendBreakpointsTotal(Trend(init), BreakpointResults(last));
      }
    }
  }

  /** The trend counts no more issues than the heatmap: it sees the same
      breakpoints but only the five fixed test types. */
  lemma TrendWithinHeatmap(results: seq<Json>)
    ensures GridTotal(Trend(results)) <= GridTotal(Heatmap(results))
  {
    TrendTotal(results);
    HeatmapTotal(results);
  }

  lemma {:induction false} TrendTestsKeys(g: Grid, bp: int, tests: Dict<string, Json>)
    requires Keys(g) == TrendTypes
    ensures Keys(TrendTests(g, bp, tests)) == TrendTypes
  {
    if |tests| > 0 {
      TrendTestsKeys(g, bp, tests[..|tests| - 1]);
    }
  }

  lemma {:induction false} TrendBreakpointsKeys(g: Grid, byBp: Dict<string, Json>)
    requires Keys(g) == TrendTypes
    ensures Keys(TrendBreakpoints(g, byBp)) == TrendTypes
  {
    if |byBp| > 0 {
      TrendBreakpointsKeys(g, byBp[..|byBp| - 1]);
      var (bp, res) := byBp[|byBp| - 1];
      if HasResponsiveData(res) {
        TrendTestsKeys(TrendBreakpoints(g, byBp[..|byBp| - 1]), IntText(bp), ResponsiveTests(res));
      }
    }
  }

  /** The trend has a row for each of the five types, in order, and no other. */
  lemma {:induction false} TrendRows(results: seq<Json>)
    ensures Keys(Trend(results)) == TrendTypes
  {
    if |results| == 0 {
      assert Keys(EmptyTrend) == TrendTypes by {
        var e := EmptyTrend;
        assert e[1..][1..][1..][1..][1..] == [];
      }
    } else {
      TrendRows(results[..|results| - 1]);
      if HasResponsive(results[|results| - 1]) {
        TrendBreakpointsKeys(Trend(results[..|results| - 1]), BreakpointResults(results[|results| - 1]));
      }
    }
  }

  // Mobile against desktop.

  /** The issues at breakpoints of at most 768 pixels. */
  function MobileIssues(counts: Counts): int
  {
    if |counts| == 0 then 0 else (if counts[0].0 <= 768 then counts[0].1 else 0) + MobileIssues(counts[1..])
  }

  /** The issues at breakpoints wider than 768 pixels. */
  function DesktopIssues(counts: Counts): int
  {
    if |counts| == 0 then 0 else (if counts[0].0 > 768 then counts[0].1 else 0) + DesktopIssues(counts[1..])
  }

  /** Every issue of a test type is counted once, as mobile or as desktop. */
  lemma {:induction false} MobileDesktopSplit(counts: Counts)
    ensures MobileIssues(counts) + DesktopIssues(counts) == SumValues(counts)
  {
    if |counts| > 0 {
      MobileDesktopSplit(counts[1..]);
    }
  }

  /** The comparison rows: each type with its mobile and desktop counts. */
  function Comparison(trend: Grid, types: seq<string>): (r: seq<(string, int, int)>)
    ensures |r| == |types|
  {
    if |types| == 0 then []
    else
      var counts := GetOr(trend, types[|types| - 1], []);
      Comparison(trend, types[..|types| - 1]) + [(types[|types| - 1], MobileIssues(counts), DesktopIssues(counts))]
  }

  /** Each row of the comparison splits that type's trend row, and no
      breakpoint count is lost or counted twice. */
  lemma {:induction false} ComparisonSpec(trend: Grid, types: seq<string>)
    ensures forall i :: 0 <= i < |types| ==>
              Comparison(trend, types)[i].0 == types[i]
              && Comparison(trend, types)[i].1 + Comparison(trend, types)[i].2 == SumValues(GetOr(trend, types[i], []))
  {
    if |types| > 0 {
      ComparisonSpec(trend, types[..|types| - 1]);
      MobileDesktopSplit(GetOr(trend, types[|types| - 1], []));
    }
  }

  // The loops that build the tables.

  method BuildHeatmap(results: seq<Json>) returns (heat: Grid)
    ensures heat == Heatmap(results)
  {
    heat := [];
    var p := 0;
    while p < |results|
      invariant 0 <= p <= |results|
      invariant heat == Heatmap(results[..p])
    {
      assert results[..p + 1][..p] == results[..p];
      var result := results[p];
      if HasResponsive(result) {
        var domain := Domain(Summary.PageUrl(result));
        if !HasKey(heat, domain) {
          heat := Put(heat, domain, []);
        }
        var counts := CountBreakpoints(GetOr(heat, domain, []), BreakpointResults(result));
        heat := Put(heat, domain, counts);
      }
      p := p + 1;
    }
    assert results[..|results|] == results;
  }

  method CountBreakpoints(counts0: Counts, byBp: Dict<string, Json>) returns (counts: Counts)
    ensures counts == BreakpointCounts(counts0, byBp)
  {
    counts := counts0;
    var i := 0;
    while i < |byBp|
      invariant 0 <= i <= |byBp|
      invariant counts == BreakpointCounts(counts0, byBp[..i])
    {
      assert byBp[..i + 1][..i] == byBp[..i];
      var (bp, res) := byBp[i];
      if HasResponsiveData(res) {
        var total, details := CountTests(ResponsiveTests(res));
        if total > 0 {
          counts := Add(counts, IntText(bp), total);
        }
      }
      i := i + 1;
    }
    assert byBp[..|byBp|] == byBp;
  }

  method BuildTrend(results: seq<Json>) returns (trend: Grid)
    ensures trend == Trend(results)
  {
    trend := EmptyTrend;
    var p := 0;
    while p < |results|
      invariant 0 <= p <= |results|
      invariant trend == Trend(results[..p])
    {
      assert results[..p + 1][..p] == results[..p];
      if HasResponsive(results[p]) {
        trend := TrendOfBreakpoints(trend, BreakpointResults(results[p]));
      }
      p := p + 1;
    }
    assert results[..|results|] == results;
  }

  method TrendOfBreakpoints(g0: Grid, byBp: Dict<string, Json>) returns (g: Grid)
    ensures g == TrendBreakpoints(g0, byBp)
  {
    g := g0;
    var i := 0;
    while i < |byBp|
      invariant 0 <= i <= |byBp|
      invariant g == TrendBreakpoints(g0, byBp[..i])
    {
      assert byBp[..i + 1][..i] == byBp[..i];
      var (bp, res) := byBp[i];
      if HasResponsiveData(res) {
        g := TrendOfTests(g, IntText(bp), ResponsiveTests(res));
      }
      i := i + 1;
    }
    assert byBp[..|byBp|] == byBp;
  }

  method TrendOfTests(g0: Grid, bp: int, tests: Dict<string, Json>) returns (g: Grid)
    ensures g == TrendTests(g0, bp, tests)
  {
    g := g0;
    var i := 0;
    while i < |tests|
      invariant 0 <= i <= |tests|
      invariant g == TrendTests(g0, bp, tests[..i])
    {
      assert tests[..i + 1][..i] == tests[..i];
      var (name, data) := tests[i];
      if name in TrendTypes && Has(data, "issues") {
        g := Put(g, name, Add(GetOr(g, name, []), bp, Len(Sub(data, "issues"))));
      }
      i := i + 1;
    }
    assert tests[..|tests|] == tests;
  }

  /** The comparison table, one row per fixed type. */
  method CompareMobileDesktop(trend: Grid) returns (rows: seq<(string, int, int)>)
    ensures rows == Comparison(trend, TrendTypes)
  {
    rows := [];
    var t := 0;
    while t < |TrendTypes|
      invariant 0 <= t <= |TrendTypes|
      invariant rows == Comparison(trend, TrendTypes[..t])
    {
      assert TrendTypes[..t + 1][..t] == TrendTypes[..t];
      var mobile, desktop := SplitCounts(GetOr(trend, TrendTypes[t], []));
      rows := rows + [(TrendTypes[t], mobile, desktop)];
      t := t + 1;
    }
    assert TrendTypes[..|TrendTypes|] == TrendTypes;
  }

  /** `if bp <= 768: mobile += count else: desktop += count`. */
  method SplitCounts(counts: Counts) returns (mobile: int, desktop: int)
    ensures mobile == MobileIssues(counts) && desktop == DesktopIssues(counts)
    ensures mobile + desktop == SumValues(counts)
  {
    mobile, desktop := 0, 0;
    var i := 0;
    while i < |counts|
      invariant 0 <= i <= |counts|
      invariant mobile + MobileIssues(counts[i..]) == MobileIssues(counts)
      invariant desktop + DesktopIssues(counts[i..]) == DesktopIssues(counts)
    {
      assert counts[i..][1..] == counts[i + 1..];
      var (bp, count) := counts[i];
      if bp <= 768 {
        mobile := mobile + count;
      } else {
        desktop := desktop + count;
      }
      i := i + 1;
    }
    MobileDesktopSplit(counts);
  }
}
