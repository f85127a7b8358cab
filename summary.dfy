/** The summary aggregator (`calculate_summary`) and the issues-by-URL and
    issues-by-site tallies, which walk the page flags the same way: every
    flag that is `True` and starts with `has` yields one issue for every
    list- or int-valued entry of the flags' `details` with a positive size. */
module Summary {
  import opened Dicts
  import opened Strs
  import opened JsonValue
  import opened StructureRecorder
  import opened IssueLabels
  import opened PrefixFolds

  type Docs = Dict<string, Json>

  /** A size that counts: `count > 0`. */
  type Positive = n: int | n > 0 witness 1

  /** One issue event: its label, its positive size, and that size as the
      code keeps it in `count` (`True` for a boolean detail, an integer
      otherwise), which the issues-by-URL rows show. */
  datatype Issue = Issue(issueType: string, count: Positive, shown: Json)

  /** `count = len(v)` or `count = v`: a bool stays a bool. */
  function Shown(v: Json, n: int): (r: Json)
    ensures r.JBool? <==> v.JBool?
  {
    if v.JBool? then v else JInt(n)
  }

  /** The shown value is the size itself, or `True` standing for 1. */
  predicate ShowsCount(issue: Issue)
  {
    issue.shown == JInt(issue.count) || (issue.shown == JBool(true) && issue.count == 1)
  }

  /** `isinstance(v, (list, int))` and the size it stands for; a Python
      bool is an int, `True` being 1. */
  function DetailCount(v: Json): Option<int>
  {
    match v
    case JList(xs) => Some(|xs|)
    case JInt(i) => Some(i)
    case JBool(b) => Some(if b then 1 else 0)
    case _ => None
  }

  /** A flag that reports an issue. */
  predicate IsIssueFlag(name: string, value: Json)
  {
    value == JBool(true) && StartsWith(name, "has")
  }

  /** The issues one flag label yields from the `details` entries. */
  function DetailIssues(issueType: string, details: Dict<string, Json>): (r: seq<Issue>)
    ensures forall i :: 0 <= i < |r| ==> r[i].issueType == issueType && ShowsCount(r[i])
  {
    if |details| == 0 then []
    else
      var v := details[|details| - 1].1;
      var c := DetailCount(v);
      DetailIssues(issueType, details[..|details| - 1])
        + if c.Some? && c.value > 0 then [Issue(issueType, c.value, Shown(v, c.value))] else []
  }

  /** The issues of one flag: none unless it reports an issue. */
  function FlagIssue(docs: Docs, test: string, name: string, value: Json, details: Dict<string, Json>): seq<Issue>
  {
    if IsIssueFlag(name, value) then DetailIssues(FormatIssueName(docs, test, name), details) else []
  }

  /** The issues of the flags, in flag order. */
  function FlagIssues(docs: Docs, test: string, flags: Dict<string, Json>, details: Dict<string, Json>): seq<Issue>
  {
    if |flags| == 0 then []
    else
      FlagIssues(docs, test, flags[..|flags| - 1], details)
        + FlagIssue(docs, test, flags[|flags| - 1].0, flags[|flags| - 1].1, details)
  }

  lemma FlagIssuesSnoc(docs: Docs, test: string, flags: Dict<string, Json>, f: nat, details: Dict<string, Json>)
    requires f < |flags|
    ensures FlagIssues(docs, test, flags[..f + 1], details)
            == FlagIssues(docs, test, flags[..f], details) + FlagIssue(docs, test, flags[f].0, flags[f].1, details)
  {
    assert flags[..f + 1][..f] == flags[..f];
  }

  /** `test_data.get(test_name, {}).get('pageFlags', {})`. */
  function PageFlags(test: string, data: Json): Json
  {
    Sub(Sub(data, test), "pageFlags")
  }

  /** The issues of one test object. */
  function TestIssues(docs: Docs, test: string, data: Json): seq<Issue>
  {
    if !data.JObj? then []
    else
      var flags := PageFlags(test, data);
      FlagIssues(docs, test, Fields(flags), Fields(Sub(flags, "details")))
  }

  /** The issues of the tests of one page, in test order. */
  function PageIssues(docs: Docs, tests: Dict<string, Json>): seq<Issue>
  {
    if |tests| == 0 then []
    else PageIssues(docs, tests[..|tests| - 1]) + TestIssues(docs, tests[|tests| - 1].0, tests[|tests| - 1].1)
  }

  /** The issues of all pages, in page order. */
  function AllIssues(docs: Docs, results: seq<Json>): seq<Issue>
  {
    if |results| == 0 then []
    else AllIssues(docs, results[..|results| - 1]) + PageIssues(docs, PageTests(results[|results| - 1]))
  }

  function Total(issues: seq<Issue>): int
  {
    if |issues| == 0 then 0 else Total(issues[..|issues| - 1]) + issues[|issues| - 1].count
  }

  /** `issues_by_type`: label to the summed sizes, labels in order of first
      appearance. */
  function Tally(d: Dict<string, int>, issues: seq<Issue>): Dict<string, int>
  {
    if |issues| == 0 then d
    else
      var last := issues[|issues| - 1];
      Add(Tally(d, issues[..|issues| - 1]), last.issueType, last.count)
  }

  /** Reference definition: the summed sizes of the issues with one label. */
  function LabelTotal(issues: seq<Issue>, issueType: string): int
  {
    if |issues| == 0 then 0
    else
      LabelTotal(issues[..|issues| - 1], issueType)
        + if issues[|issues| - 1].issueType == issueType then issues[|issues| - 1].count else 0
  }

  /** A page whose accessibility results have a truthy `tests` value. */
  predicate HasTests(result: Json)
  {
    Has(result, "results") && Has(Sub(result, "results"), "accessibility")
      && Truthy(Sub(Sub(Sub(result, "results"), "accessibility"), "tests"))
  }

  function PagesWithIssues(results: seq<Json>): (n: nat)
    ensures n <= |results|
  {
    if |results| == 0 then 0
    else PagesWithIssues(results[..|results| - 1]) + if HasTests(results[|results| - 1]) then 1 else 0
  }

  /** The summary; the completion time comes from the clock. */
  datatype SummaryData = SummaryData(totalPages: nat, pagesWithIssues: nat, totalIssues: int,
                                     issuesByType: Dict<string, int>, completionTime: string)

  function SummaryOf(docs: Docs, results: seq<Json>, now: string): SummaryData
  {
    var issues := AllIssues(docs, results);
    SummaryData(|results|, PagesWithIssues(results), Total(issues), Tally([], issues), now)
  }

  lemma {:induction false} TotalAppend(xs: seq<Issue>, ys: seq<Issue>)
    ensures Total(xs + ys) == Total(xs) + Total(ys)
  {
    if |ys| == 0 {
      assert xs + ys == xs;
    } else {
      assert (xs + ys)[..|xs + ys| - 1] == xs + ys[..|ys| - 1];
      TotalAppend(xs, ys[..|ys| - 1]);
    }
  }

  lemma {:induction false} TallyAppend(d: Dict<string, int>, xs: seq<Issue>, ys: seq<Issue>)
    ensures Tally(d, xs + ys) == Tally(Tally(d, xs), ys)
  {
    if |ys| == 0 {
      assert xs + ys == xs;
    } else {
      assert (xs + ys)[..|xs + ys| - 1] == xs + ys[..|ys| - 1];
      TallyAppend(d, xs, ys[..|ys| - 1]);
    }
  }

  /** The per-type counts add up to the total. */
  lemma {:induction false} TallySum(d: Dict<string, int>, issues: seq<Issue>)
    ensures SumValues(Tally(d, issues)) == SumValues(d) + Total(issues)
  {
    if |issues| > 0 {
      TallySum(d, issues[..|issues| - 1]);
    }
  }

  /** The count stored for a label is the sum of that label's issues. */
  lemma {:induction false} TallyLabel(issues: seq<Issue>, issueType: string)
    ensures GetOr(Tally([], issues), issueType, 0) == LabelTotal(issues, issueType)
  {
    if |issues| > 0 {
      var init := issues[..|issues| - 1];
      var last := issues[|issues| - 1];
      TallyLabel(init, issueType);
      AddGetOr(Tally([], init), last.issueType, last.count, issueType);
    }
  }

  lemma AddGetOr(d: Dict<string, int>, k: string, n: int, k': string)
    ensures GetOr(Add(d, k, n), k', 0) == GetOr(d, k', 0) + if k == k' then n else 0
  {
    var r := Add(d, k, n);
    if k != k' {
      PutOther(d, k, GetOr(d, k, 0) + n, k');
      assert Get(r, k') == Get(d, k');
    } else {
      assert Get(r, k) == Some(GetOr(d, k, 0) + n);
    }
  }

  predicate AllPositive(d: Dict<string, int>)
  {
    forall i :: 0 <= i < |d| ==> d[i].1 > 0
  }

  lemma {:induction false} PutPositive(d: Dict<string, int>, k: string, v: int)
    requires AllPositive(d) && v > 0
    ensures AllPositive(Put(d, k, v))
  {
    if |d| > 0 && d[0].0 != k {
      PutPositive(d[1..], k, v);
      assert Put(d, k, v) == [d[0]] + Put(d[1..], k, v);
    }
  }

  /** Every stored count is positive. */
  lemma {:induction false} TallyPositive(d: Dict<string, int>, issues: seq<Issue>)
    requires AllPositive(d)
    ensures AllPositive(Tally(d, issues))
  {
    if |issues| > 0 {
      var init := issues[..|issues| - 1];
      var last := issues[|issues| - 1];
      TallyPositive(d, init);
      var prev := Tally(d, init);
      if HasKey(prev, last.issueType) {
        GetFound(prev, last.issueType);
      }
      PutPositive(prev, last.issueType, GetOr(prev, last.issueType, 0) + last.count);
    }
  }

  /** What `calculate_summary` promises: the total is the sum of the
      per-type counts, every count is positive, and no more pages have
      issues than there are pages. */
  lemma SummaryConsistent(docs: Docs, results: seq<Json>, now: string)
    ensures SummaryOf(docs, results, now).totalIssues == SumValues(SummaryOf(docs, results, now).issuesByType)
    ensures AllPositive(SummaryOf(docs, results, now).issuesByType)
    ensures SummaryOf(docs, results, now).pagesWithIssues <= SummaryOf(docs, results, now).totalPages
  {
    TallySum([], AllIssues(docs, results));
    TallyPositive([], AllIssues(docs, results));
  }

  /** Flags that are not `True`, or do not start with `has`, contribute
      nothing. */
  lemma {:induction false} QuietFlagsNoIssues(docs: Docs, test: string, flags: Dict<string, Json>, details: Dict<string, Json>)
    requires forall i :: 0 <= i < |flags| ==> !IsIssueFlag(flags[i].0, flags[i].1)
    ensures FlagIssues(docs, test, flags, details) == []
  {
    if |flags| > 0 {
      QuietFlagsNoIssues(docs, test, flags[..|flags| - 1], details);
    }
  }

  /** `calculate_summary(results)`, with the clock reading passed in. */
  method CalculateSummary(docs: Docs, results: seq<Json>, now: string) returns (s: SummaryData)
    ensures s == SummaryOf(docs, results, now)
  {
    var total := 0;
    var byType: Dict<string, int> := [];
    var p := 0;
    while p < |results|
      invariant 0 <= p <= |results|
      invariant total == Total(AllIssues(docs, results[..p]))
      invariant byType == Tally([], AllIssues(docs, results[..p]))
    {
      assert results[..p + 1][..p] == results[..p];
      var before := AllIssues(docs, results[..p]);
      var page := PageIssues(docs, PageTests(results[p]));
      assert AllIssues(docs, results[..p + 1]) == before + page;
      total, byType := TallyPage(total, byType, docs, PageTests(results[p]));
      TotalAppend(before, page);
      TallyAppend([], before, page);
      p := p + 1;
    }
    assert results[..|results|] == results;
    var pages := CountPagesWithTests(results);
    s := SummaryData(|results|, pages, total, byType, now);
  }

  /** `pages_with_issues`. */
  method CountPagesWithTests(results: seq<Json>) returns (pages: nat)
    ensures pages == PagesWithIssues(results)
  {
    pages := 0;
    var q := 0;
    while q < |results|
      invariant 0 <= q <= |results|
      invariant pages == PagesWithIssues(results[..q])
    {
      assert results[..q + 1][..q] == results[..q];
      if HasTests(results[q]) {
        pages := pages + 1;
      }
      q := q + 1;
    }
    assert results[..|results|] == results;
  }

  /** The loop over the tests of one page. */
  method TallyPage(total0: int, byType0: Dict<string, int>, docs: Docs, tests: Dict<string, Json>)
    returns (total: int, byType: Dict<string, int>)
    ensures total == total0 + Total(PageIssues(docs, tests))
    ensures byType == Tally(byType0, PageIssues(docs, tests))
  {
    total, byType := total0, byType0;
    var t := 0;
    while t < |tests|
      invariant 0 <= t <= |tests|
      invariant total == total0 + Total(PageIssues(docs, tests[..t]))
      invariant byType == Tally(byType0, PageIssues(docs, tests[..t]))
    {
      assert tests[..t + 1][..t] == tests[..t];
      var prev := PageIssues(docs, tests[..t]);
      var more := TestIssues(docs, tests[t].0, tests[t].1);
      assert PageIssues(docs, tests[..t + 1]) == prev + more;
      total, byType := TallyTest(total, byType, docs, tests[t].0, tests[t].1);
      TotalAppend(prev, more);
      TallyAppend(byType0, prev, more);
      t := t + 1;
    }
    assert tests[..|tests|] == tests;
  }

  /** One test object. */
  method TallyTest(total0: int, byType0: Dict<string, int>, docs: Docs, test: string, data: Json)
    returns (total: int, byType: Dict<string, int>)
    ensures total == total0 + Total(TestIssues(docs, test, data))
    ensures byType == Tally(byType0, TestIssues(docs, test, data))
  {
    total, byType := total0, byType0;
    if !data.JObj? {
      return;
    }
    var flags := PageFlags(test, data);
    total, byType := TallyFlags(total0, byType0, docs, test, Fields(flags), Fields(Sub(flags, "details")));
  }

  /** The loop over the flags of one test object. */
  method TallyFlags(total0: int, byType0: Dict<string, int>, docs: Docs, test: string,
                    fs: Dict<string, Json>, details: Dict<string, Json>)
    returns (total: int, byType: Dict<string, int>)
    ensures total == total0 + Total(FlagIssues(docs, test, fs, details))
    ensures byType == Tally(byType0, FlagIssues(docs, test, fs, details))
  {
    total, byType := total0, byType0;
    var f := 0;
    while f < |fs|
      invariant 0 <= f <= |fs|
      invariant total == total0 + Total(FlagIssues(docs, test, fs[..f], details))
      invariant byType == Tally(byType0, FlagIssues(docs, test, fs[..f], details))
    {
      ghost var prev := FlagIssues(docs, test, fs[..f], details);
      ghost var more := FlagIssue(docs, test, fs[f].0, fs[f].1, details);
      FlagIssuesSnoc(docs, test, fs, f, details);
      total, byType := TallyFlag(total, byType, docs, test, fs[f].0, fs[f].1, details);
      TotalAppend(prev, more);
      TallyAppend(byType0, prev, more);
      f := f + 1;
    }
    assert fs[..|fs|] == fs;
  }

  /** One flag: a true `has…` flag tallies its details' issues. */
  method TallyFlag(total0: int, byType0: Dict<string, int>, docs: Docs, test: string,
                   name: string, value: Json, details: Dict<string, Json>)
    returns (total: int, byType: Dict<string, int>)
    ensures total == total0 + Total(FlagIssue(docs, test, name, value, details))
    ensures byType == Tally(byType0, FlagIssue(docs, test, name, value, details))
  {
    total, byType := total0, byType0;
    if IsIssueFlag(name, value) {
      total, byType := TallyDetails(total, byType, FormatIssueName(docs, test, name), details);
    }
  }

  /** The loop over the `details` entries for one raised flag. */
  method TallyDetails(total0: int, byType0: Dict<string, int>, issueType: string, details: Dict<string, Json>)
    returns (total: int, byType: Dict<string, int>)
    ensures total == total0 + Total(DetailIssues(issueType, details))
    ensures byType == Tally(byType0, DetailIssues(issueType, details))
  {
    total, byType := total0, byType0;
    var d := 0;
    while d < |details|
      invariant 0 <= d <= |details|
      invariant total == total0 + Total(DetailIssues(issueType, details[..d]))
      invariant byType == Tally(byType0, DetailIssues(issueType, details[..d]))
    {
      assert details[..d + 1][..d] == details[..d];
      var here := DetailIssues(issueType, details[..d]);
      var c := DetailCount(details[d].1);
      if c.Some? && c.value > 0 {
        total := total + c.value;
        byType := Add(byType, issueType, c.value);
        assert DetailIssues(issueType, details[..d + 1]) == here + [Issue(issueType, c.value, Shown(details[d].1, c.value))];
      } else {
        assert DetailIssues(issueType, details[..d + 1]) == here;
      }
      d := d + 1;
    }
    assert details[..|details|] == details;
  }

  // Issues by URL.

  /** `result.get('url', 'Unknown URL')` as a text key. */
  function PageUrl(result: Json): string
  {
    PyStr(Field(result, "url", JStr("Unknown URL")))
  }

  /** `d[k] = v` for every entry whose list is non-empty, in order: a
      later entry replaces an earlier one with the same key. */
  function KeepNonEmpty<V>(entries: seq<(string, seq<V>)>): Dict<string, seq<V>>
  {
    if |entries| == 0 then []
    else
      var (k, v) := entries[|entries| - 1];
      var prev := KeepNonEmpty(entries[..|entries| - 1]);
      if |v| > 0 then Put(prev, k, v) else prev
  }

  /** The key an entry contributes: its own when its list is non-empty. */
  function NonEmptyKey<V>(e: (string, seq<V>)): seq<string>
  {
    if |e.1| > 0 then [e.0] else []
  }

  lemma {:induction false} KeepNonEmptyContributed<V>(entries: seq<(string, seq<V>)>, k: string)
    ensures HasKey(KeepNonEmpty(entries), k) <==> k in FlatMap(entries, NonEmptyKey)
  {
    if |entries| > 0 {
      var init := entries[..|entries| - 1];
      var (k', v) := entries[|entries| - 1];
      KeepNonEmptyContributed(init, k);
      PutHasKey(KeepNonEmpty(init), k', v, k);
    }
  }

  lemma KeepNonEmptyKeys<V>(entries: seq<(string, seq<V>)>, k: string)
    ensures HasKey(KeepNonEmpty(entries), k) <==>
              exists i :: 0 <= i < |entries| && entries[i].0 == k && |entries[i].1| > 0
  {
    KeepNonEmptyContributed(entries, k);
    if HasKey(KeepNonEmpty(entries), k) {
      var i := FlatMapWitness(entries, NonEmptyKey, k);
      assert entries[i].0 == k && |entries[i].1| > 0;
    }
    if exists i :: 0 <= i < |entries| && entries[i].0 == k && |entries[i].1| > 0 {
      var i :| 0 <= i < |entries| && entries[i].0 == k && |entries[i].1| > 0;
      assert k in NonEmptyKey(entries[i]);
      FlatMapHas(entries, NonEmptyKey, i, k);
    }
  }

  lemma {:induction false} KeepNonEmptyLast<V>(entries: seq<(string, seq<V>)>, i: nat)
    requires i < |entries| && |entries[i].1| > 0
    requires forall j :: i < j < |entries| ==> entries[j].0 != entries[i].0 || |entries[j].1| == 0
    ensures Get(KeepNonEmpty(entries), entries[i].0) == Some(entries[i].1)
  {
    var init := entries[..|entries| - 1];
    if i < |init| {
      LastInInit(entries, i);
      KeepNonEmptyLast(init, i);
      var (k', v) := entries[|entries| - 1];
      if |v| > 0 {
        PutOther(KeepNonEmpty(init), k', v, entries[i].0);
      }
    }
  }

  lemma LastInInit<V>(entries: seq<(string, seq<V>)>, i: nat)
    requires i < |entries| - 1 && |entries[i].1| > 0
    requires forall j :: i < j < |entries| ==> entries[j].0 != entries[i].0 || |entries[j].1| == 0
    ensures var init := entries[..|entries| - 1];
      init[i] == entries[i] && |init[i].1| > 0
      && forall j :: i < j < |init| ==> init[j].0 != init[i].0 || |init[j].1| == 0
  {
    var init := entries[..|entries| - 1];
    forall j | i < j < |init|
      ensures init[j].0 != init[i].0 || |init[j].1| == 0
    {
      assert init[j] == entries[j];
    }
  }

  /** Each page's URL and issues, in page order. */
  function UrlEntries(docs: Docs, results: seq<Json>): seq<(string, seq<Issue>)>
  {
    seq(|results|, p requires 0 <= p < |results| => (PageUrl(results[p]), PageIssues(docs, PageTests(results[p]))))
  }

  /** URL to the issues of the last page with that URL that had any, on
      inputs where no `tests` lookup fails (`IssuesByUrlTable`). */
  function IssuesByUrl(docs: Docs, results: seq<Json>): Dict<string, seq<Issue>>
  {
    KeepNonEmpty(UrlEntries(docs, results))
  }

  /** A page with that URL and at least one issue. */
  predicate ListsUrl(docs: Docs, result: Json, url: string)
  {
    PageUrl(result) == url && |PageIssues(docs, PageTests(result))| > 0
  }

  /** A URL is listed exactly when some page with that URL has issues. */
  lemma IssuesByUrlKeys(docs: Docs, results: seq<Json>, url: string)
    ensures HasKey(IssuesByUrl(docs, results), url) <==> exists p :: 0 <= p < |results| && ListsUrl(docs, results[p], url)
  {
    var e := UrlEntries(docs, results);
    KeepNonEmptyKeys(e, url);
    if exists p :: 0 <= p < |results| && ListsUrl(docs, results[p], url) {
      var p :| 0 <= p < |results| && ListsUrl(docs, results[p], url);
      assert e[p].0 == url && |e[p].1| > 0;
    }
    if exists i :: 0 <= i < |e| && e[i].0 == url && |e[i].1| > 0 {
      var i :| 0 <= i < |e| && e[i].0 == url && |e[i].1| > 0;
      assert ListsUrl(docs, results[i], url);
    }
  }

  /** A later page with the same URL replaces the issues of an earlier one:
      the stored issues are those of the last page with issues. */
  lemma IssuesByUrlLast(docs: Docs, results: seq<Json>, p: nat)
    requires p < |results| && |PageIssues(docs, PageTests(results[p]))| > 0
    requires forall q :: p < q < |results| ==> !ListsUrl(docs, results[q], PageUrl(results[p]))
    ensures Get(IssuesByUrl(docs, results), PageUrl(results[p])) == Some(PageIssues(docs, PageTests(results[p])))
  {
    var e := UrlEntries(docs, results);
    forall j | p < j < |e|
      ensures e[j].0 != e[p].0 || |e[j].1| == 0
    {
      assert !ListsUrl(docs, results[j], PageUrl(results[p]));
    }
    KeepNonEmptyLast(e, p);
  }

  /** One row of the issues-by-URL table; `count` is the cell as written. */
  datatype UrlRow = UrlRow(url: string, issueType: string, count: Json, details: string)

  /** The Details cell, `f"Found {count} issue(s)"`. */
  function FoundText(shown: Json): string
  {
    "Found " + PyStr(shown) + " issue(s)"
  }

  function IssueRows(url: string, issues: seq<Issue>): (r: seq<UrlRow>)
    ensures |r| == |issues|
    ensures forall i :: 0 <= i < |r| ==>
              && r[i].url == url && r[i].issueType == issues[i].issueType
              && r[i].count == issues[i].shown && r[i].details == FoundText(issues[i].shown)
  {
    if |issues| == 0 then []
    else
      var last := issues[|issues| - 1];
      IssueRows(url, issues[..|issues| - 1]) + [UrlRow(url, last.issueType, last.shown, FoundText(last.shown))]
  }

  lemma IssueRowsSnoc(url: string, issues: seq<Issue>, i: nat)
    requires i < |issues|
    ensures IssueRows(url, issues[..i + 1])
            == IssueRows(url, issues[..i]) + [UrlRow(url, issues[i].issueType, issues[i].shown, FoundText(issues[i].shown))]
  {
    assert issues[..i + 1][..i] == issues[..i];
  }

  /** The Count and Details cells of a row: the integer size and
      `Found <n> issue(s)`, or `True` and `Found True issue(s)` for a
      boolean detail. */
  lemma IssueRowCells(url: string, issues: seq<Issue>, i: nat)
    requires i < |issues| && ShowsCount(issues[i])
    ensures var row := IssueRows(url, issues)[i];
            if issues[i].shown.JBool?
            then row.count == JBool(true) && row.details == "Found True issue(s)"
            else row.count == JInt(issues[i].count)
                 && row.details == "Found " + NatToString(issues[i].count) + " issue(s)"
  {
  }

  /** A `True` detail gives a row of Count `True`, "Found True issue(s)". */
  lemma TrueDetailRow(url: string, issueType: string, key: string)
    ensures IssueRows(url, DetailIssues(issueType, [(key, JBool(true))]))
            == [UrlRow(url, issueType, JBool(true), "Found True issue(s)")]
  {
    var details := [(key, JBool(true))];
    assert details[..|details| - 1] == [] && details[|details| - 1].1 == JBool(true);
    assert DetailCount(JBool(true)) == Some(1) && Shown(JBool(true), 1) == JBool(true);
    var issues := DetailIssues(issueType, details);
    assert DetailIssues(issueType, details[..|details| - 1]) == [];
    assert issues == [] + [Issue(issueType, 1, JBool(true))];
    IssueRowCells(url, issues, 0);
  }

  /** The table rows: every URL's issues in order. */
  function UrlRows(byUrl: Dict<string, seq<Issue>>): seq<UrlRow>
  {
    if |byUrl| == 0 then []
    else UrlRows(byUrl[..|byUrl| - 1]) + IssueRows(byUrl[|byUrl| - 1].0, byUrl[|byUrl| - 1].1)
  }

  /** The issues of one page: the loops that build `url_issues`. */
  method CollectPageIssues(docs: Docs, tests: Dict<string, Json>) returns (issues: seq<Issue>)
    ensures issues == PageIssues(docs, tests)
  {
    issues := [];
    var t := 0;
    while t < |tests|
      invariant 0 <= t <= |tests|
      invariant issues == PageIssues(docs, tests[..t])
    {
      assert tests[..t + 1][..t] == tests[..t];
      var more := CollectTestIssues(docs, tests[t].0, tests[t].1);
      issues := issues + more;
      t := t + 1;
    }
    assert tests[..|tests|] == tests;
  }

  method CollectTestIssues(docs: Docs, test: string, data: Json) returns (issues: seq<Issue>)
    ensures issues == TestIssues(docs, test, data)
  {
    issues := [];
    if !data.JObj? {
      return;
    }
    var flags := PageFlags(test, data);
    var fs := Fields(flags);
    var details := Fields(Sub(flags, "details"));
    var f := 0;
    while f < |fs|
      invariant 0 <= f <= |fs|
      invariant issues == FlagIssues(docs, test, fs[..f], details)
    {
      var (name, value) := fs[f];
      FlagIssuesSnoc(docs, test, fs, f, details);
      if IsIssueFlag(name, value) {
        var more := CollectDetailIssues(FormatIssueName(docs, test, name), details);
        issues := issues + more;
      }
      f := f + 1;
    }
    assert fs[..|fs|] == fs;
  }

  method CollectDetailIssues(issueType: string, details: Dict<string, Json>) returns (issues: seq<Issue>)
    ensures issues == DetailIssues(issueType, details)
  {
    issues := [];
    var d := 0;
    while d < |details|
      invariant 0 <= d <= |details|
      invariant issues == DetailIssues(issueType, details[..d])
    {
      assert details[..d + 1][..d] == details[..d];
      var c := DetailCount(details[d].1);
      if c.Some? && c.value > 0 {
        issues := issues + [Issue(issueType, c.value, Shown(details[d].1, c.value))];
      }
      d := d + 1;
    }
    assert details[..|details|] == details;
  }

  /** `result['results']['accessibility']['tests']` fails (a `KeyError`, or
      a `TypeError` when the accessibility value is not an object) on a page
      with accessibility results but no `tests` entry. No handler covers the
      issues-by-URL and issues-by-site loops, so such a page ends the whole
      report. */
  predicate TestsMissing(result: Json)
  {
    HasAccessibility(result) && !Has(Sub(Sub(result, "results"), "accessibility"), "tests")
  }

  predicate SomeTestsMissing(results: seq<Json>)
  {
    exists p :: 0 <= p < |results| && TestsMissing(results[p])
  }

  lemma SomeTestsMissingSnoc(results: seq<Json>, p: nat)
    requires p < |results|
    ensures SomeTestsMissing(results[..p + 1]) <==> SomeTestsMissing(results[..p]) || TestsMissing(results[p])
    ensures TestsMissing(results[p]) ==> SomeTestsMissing(results)
  {
    var init, last := results[..p], results[p];
    assert results[..p + 1] == init + [last];
    assert forall q :: 0 <= q < p ==> (init + [last])[q] == init[q];
    assert (init + [last])[p] == last;
  }

  /** The issues-by-URL block: the map, then its rows; nothing when the
      direct `tests` lookup fails on some page. */
  method IssuesByUrlTable(docs: Docs, results: seq<Json>) returns (rows: Option<seq<UrlRow>>)
    ensures rows.None? <==> SomeTestsMissing(results)
    ensures rows.Some? ==> rows.value == UrlRows(IssuesByUrl(docs, results))
  {
    var byUrl := CollectIssuesByUrl(docs, results);
    match byUrl
    case None =>
      rows := None;
    case Some(d) =>
      var built := BuildUrlRows(d);
      rows := Some(built);
  }

  /** The page loop: each page with issues stores them under its URL; the
      first page whose `tests` lookup fails stops it. */
  method CollectIssuesByUrl(docs: Docs, results: seq<Json>) returns (byUrl: Option<Dict<string, seq<Issue>>>)
    ensures byUrl.None? <==> SomeTestsMissing(results)
    ensures byUrl.Some? ==> byUrl.value == IssuesByUrl(docs, results)
  {
    var d := [];
    ghost var entries := UrlEntries(docs, results);
    var p := 0;
    while p < |results|
      invariant 0 <= p <= |results|
      invariant d == KeepNonEmpty(entries[..p])
      invariant !SomeTestsMissing(results[..p])
    {
      SomeTestsMissingSnoc(results, p);
      if TestsMissing(results[p]) {
        return None;
      }
      KeepNonEmptySnoc(entries, p);
      var issues := CollectPageIssues(docs, PageTests(results[p]));
      if |issues| > 0 {
        d := Put(d, PageUrl(results[p]), issues);
      }
      p := p + 1;
    }
    assert entries[..|entries|] == entries;
    assert results[..|results|] == results;
    byUrl := Some(d);
  }

  lemma KeepNonEmptySnoc<V>(entries: seq<(string, seq<V>)>, p: nat)
    requires p < |entries|
    ensures KeepNonEmpty(entries[..p + 1])
      == if |entries[p].1| > 0 then Put(KeepNonEmpty(entries[..p]), entries[p].0, entries[p].1)
         else KeepNonEmpty(entries[..p])
  {
    assert entries[..p + 1][..p] == entries[..p];
  }

  method BuildUrlRows(byUrl: Dict<string, seq<Issue>>) returns (rows: seq<UrlRow>)
    ensures rows == UrlRows(byUrl)
  {
    rows := [];
    var u := 0;
    while u < |byUrl|
      invariant 0 <= u <= |byUrl|
      invariant rows == UrlRows(byUrl[..u])
    {
      assert UrlRows(byUrl[..u + 1]) == UrlRows(byUrl[..u]) + IssueRows(byUrl[u].0, byUrl[u].1) by {
        assert byUrl[..u + 1][..u] == byUrl[..u];
      }
      rows := AppendIssueRows(rows, byUrl[u].0, byUrl[u].1);
      u := u + 1;
    }
    assert byUrl[..|byUrl|] == byUrl;
  }

  /** The rows of one URL's issues, appended in order. */
  method AppendIssueRows(rows0: seq<UrlRow>, url: string, issues: seq<Issue>) returns (rows: seq<UrlRow>)
    ensures rows == rows0 + IssueRows(url, issues)
  {
    rows := rows0;
    var i := 0;
    while i < |issues|
      invariant 0 <= i <= |issues|
      invariant rows == rows0 + IssueRows(url, issues[..i])
    {
      IssueRowsSnoc(url, issues, i);
      rows := rows + [UrlRow(url, issues[i].issueType, issues[i].shown, FoundText(issues[i].shown))];
      i := i + 1;
    }
    assert issues[..|issues|] == issues;
  }

  // Issues by site.

  /** The characters allowed in a URL scheme. */
  predicate SchemeChar(c: char)
  {
    IsLetter(c) || IsDigitChar(c) || c == '+' || c == '-' || c == '.'
  }

  /** The position of the first `/`, `?` or `#` at or after `from`, else
      the length. */
  function NetlocEnd(s: string, from: nat): (r: nat)
    requires from <= |s|
    ensures from <= r <= |s|
    ensures forall j :: from <= j < r ==> s[j] != '/' && s[j] != '?' && s[j] != '#'
    ensures r < |s| ==> s[r] == '/' || s[r] == '?' || s[r] == '#'
    decreases |s| - from
  {
    if from == |s| || s[from] == '/' || s[from] == '?' || s[from] == '#' then from
    else NetlocEnd(s, from + 1)
  }

  /** The characters `urlsplit` strips from the front of a URL: C0
      controls and space. */
  predicate C0OrSpace(c: char)
  {
    c <= ' '
  }

  function StripLeadingC0(s: string): (r: string)
    ensures |r| <= |s| && r == s[|s| - |r|..]
    ensures |r| == 0 || !C0OrSpace(r[0])
    ensures forall j :: 0 <= j < |s| - |r| ==> C0OrSpace(s[j])
  {
    if |s| > 0 && C0OrSpace(s[0]) then
      var r := StripLeadingC0(s[1..]);
      assert s[1..][|s| - 1 - |r|..] == s[|s| - |r|..];
      assert forall j :: 1 <= j < |s| - |r| ==> s[j] == s[1..][j - 1];
      r
    else s
  }

  /** Tab, carriage return and line feed, which `urlsplit` deletes wherever
      they occur. */
  predicate UnsafeUrlChar(c: char)
  {
    c == '\t' || c == '\r' || c == '\n'
  }

  function RemoveUnsafe(s: string): (r: string)
    ensures |r| <= |s|
    ensures forall j :: 0 <= j < |r| ==> !UnsafeUrlChar(r[j])
    ensures (forall j :: 0 <= j < |s| ==> !UnsafeUrlChar(s[j])) ==> r == s
  {
    if |s| == 0 then []
    else (if UnsafeUrlChar(s[0]) then [] else [s[0]]) + RemoveUnsafe(s[1..])
  }

  /** `urlparse(url)` reduced to the scheme and the network location. The
      leading C0 controls and spaces go, then every tab and line break; the
      scheme is the lower-cased text before the first `:` when it starts
      with a letter and has only scheme characters; the network location
      follows a `//` up to the next `/`, `?` or `#`. */
  function SchemeAndNetloc(url: string): (string, string)
  {
    SplitCleanUrl(RemoveUnsafe(StripLeadingC0(url)))
  }

  /** The scheme and network location of a URL that has been cleaned. */
  function SplitCleanUrl(u: string): (string, string)
  {
    var colon := Find(u, ":");
    var hasScheme := colon.Some? && SchemePrefix(u, colon.value);
    var scheme := if hasScheme then Lower(u[..colon.value]) else "";
    var rest := if hasScheme then u[colon.value + 1..] else u;
    (scheme, Netloc(rest))
  }

  /** The first `n` characters of `u` form a scheme: a letter, then scheme
      characters. */
  predicate SchemePrefix(u: string, n: nat)
  {
    0 < n <= |u| && IsLetter(u[0]) && forall j :: 0 <= j < n ==> SchemeChar(u[j])
  }

  /** The network location after a leading `//`, up to the next `/`, `?` or
      `#`; empty without the `//`. */
  function Netloc(rest: string): string
  {
    if StartsWith(rest, "//") then rest[2..NetlocEnd(rest, 2)] else ""
  }

  /** `urlsplit` raises `ValueError` for a network location with a `[` and
      no `]`, or the other way round. */
  predicate UnmatchedBracket(netloc: string)
  {
    Contains(netloc, "[") != Contains(netloc, "]")
  }

  /** The site of a page, `f"{p.scheme}://{p.netloc}"` for `p = urlparse(url)`
      inside a bare `try`. Text gives `scheme://netloc`, or `Unknown Site`
      when the network location has an unmatched square bracket. A value
      that is not text is taken for bytes: when it is falsy both parts are
      empty bytes and print as `b''`; when it is truthy decoding it raises
      and the site is `Unknown Site`. */
  function SiteUrl(url: Json): string
  {
    if !url.JStr? then
      if Truthy(url) then "Unknown Site" else "b''://b''"
    else
      var (scheme, netloc) := SchemeAndNetloc(url.s);
      if UnmatchedBracket(netloc) then "Unknown Site" else scheme + "://" + netloc
  }

  /** Leading C0 controls and spaces do not change the site: ` https://a.com/x`
      belongs to `https://a.com`. */
  lemma StripLeadingPad(pad: string, url: string)
    requires forall j :: 0 <= j < |pad| ==> C0OrSpace(pad[j])
    ensures StripLeadingC0(pad + url) == StripLeadingC0(url)
    ensures SiteUrl(JStr(pad + url)) == SiteUrl(JStr(url))
  {
    StripPadC0(pad, url);
    assert SchemeAndNetloc(pad + url) == SchemeAndNetloc(url);
  }

  lemma {:induction false} StripPadC0(pad: string, url: string)
    requires forall j :: 0 <= j < |pad| ==> C0OrSpace(pad[j])
    ensures StripLeadingC0(pad + url) == StripLeadingC0(url)
  {
    if |pad| > 0 {
      StripPadC0(pad[1..], url);
      assert (pad + url)[0] == pad[0];
      assert (pad + url)[1..] == pad[1..] + url;
    } else {
      assert pad + url == url;
    }
  }

  /** A character that may appear in a network location that ends at
      the next `/`, `?` or `#`: anything else, except the characters
      `urlsplit` deletes. */
  predicate NetlocChar(c: char)
  {
    c != '/' && c != '?' && c != '#' && !UnsafeUrlChar(c)
  }

  /** The conditions under which `scheme://host` followed by `tail` is a URL
      with that scheme and host. */
  predicate PlainUrlParts(scheme: string, host: string, tail: string)
  {
    && |scheme| > 0 && IsLetter(scheme[0])
    && (forall j :: 0 <= j < |scheme| ==> SchemeChar(scheme[j]) && !IsUpperChar(scheme[j]))
    && (forall j :: 0 <= j < |host| ==> NetlocChar(host[j]))
    && (|tail| == 0 || tail[0] == '/' || tail[0] == '?' || tail[0] == '#')
    && (forall j :: 0 <= j < |tail| ==> !UnsafeUrlChar(tail[j]))
  }

  /** Such a URL has nothing for `urlsplit` to strip or delete. */
  lemma PlainUrlClean(scheme: string, host: string, tail: string)
    requires PlainUrlParts(scheme, host, tail)
    ensures RemoveUnsafe(StripLeadingC0(scheme + "://" + host + tail)) == scheme + "://" + host + tail
  {
    var url := scheme + "://" + host + tail;
    assert url[0] == scheme[0];
    assert StripLeadingC0(url) == url;
    forall j | 0 <= j < |url|
      ensures !UnsafeUrlChar(url[j])
    {
      if j < |scheme| {
        assert url[j] == scheme[j];
      } else if j < |scheme| + 3 {
      } else if j < |scheme| + 3 + |host| {
        assert url[j] == host[j - |scheme| - 3];
      } else {
        assert url[j] == tail[j - |scheme| - 3 - |host|];
      }
    }
  }

  /** Such a URL splits into its scheme and its host. */
  lemma PlainUrlSplit(scheme: string, host: string, tail: string)
    requires PlainUrlParts(scheme, host, tail)
    ensures SplitCleanUrl(scheme + "://" + host + tail) == (scheme, host)
  {
    var rest := "//" + host + tail;
    var url := scheme + [':'] + rest;
    assert url == scheme + "://" + host + tail;
    PlainScheme(scheme, rest);
    assert url[..|scheme|] == scheme;
    assert url[|scheme| + 1..] == rest;
    PlainNetloc(host, tail);
  }

  lemma PlainScheme(scheme: string, rest: string)
    requires |scheme| > 0 && IsLetter(scheme[0])
    requires forall j :: 0 <= j < |scheme| ==> SchemeChar(scheme[j]) && !IsUpperChar(scheme[j])
    ensures Find(scheme + [':'] + rest, ":") == Some(|scheme|)
    ensures SchemePrefix(scheme + [':'] + rest, |scheme|)
    ensures Lower(scheme) == scheme
  {
    assert ':' !in scheme by {
      forall j | 0 <= j < |scheme|
        ensures scheme[j] != ':'
      {
        assert SchemeChar(scheme[j]);
      }
    }
    FindAfterFree(scheme, ':', rest);
    var url := scheme + [':'] + rest;
    assert forall j :: 0 <= j < |scheme| ==> url[j] == scheme[j];
  }

  lemma PlainNetloc(host: string, tail: string)
    requires forall j :: 0 <= j < |host| ==> NetlocChar(host[j])
    requires |tail| == 0 || tail[0] == '/' || tail[0] == '?' || tail[0] == '#'
    ensures Netloc("//" + host + tail) == host
  {
    var rest := "//" + host + tail;
    assert StartsWith(rest, "//");
    assert forall j :: 2 <= j < 2 + |host| ==> rest[j] == host[j - 2];
    assert |tail| > 0 ==> rest[2 + |host|] == tail[0];
    var e := NetlocEnd(rest, 2);
    assert e == 2 + |host|;
    assert rest[2..e] == host;
  }

  /** `scheme://host` followed by a path, query or fragment parses back into
      that lower-case scheme and that host. */
  lemma SchemeAndNetlocOfUrl(scheme: string, host: string, tail: string)
    requires PlainUrlParts(scheme, host, tail)
    ensures SchemeAndNetloc(scheme + "://" + host + tail) == (scheme, host)
  {
    PlainUrlClean(scheme, host, tail);
    PlainUrlSplit(scheme, host, tail);
  }

  /** `Contains` of a one-character string is membership. */
  lemma ContainsChar(s: string, c: char)
    ensures Contains(s, [c]) <==> c in s
  {
    if c in s {
      var j :| 0 <= j < |s| && s[j] == c;
      assert s[j..j + 1] == [c];
      assert OccursAt(s, [c], j);
    } else {
      NoOccurrence(s, c);
    }
  }

  /** A URL whose host has no square brackets belongs to `scheme://host`:
      `https://a.com/x` to `https://a.com`. */
  lemma SiteUrlOfUrl(scheme: string, host: string, tail: string)
    requires PlainUrlParts(scheme, host, tail)
    requires forall j :: 0 <= j < |host| ==> host[j] != '[' && host[j] != ']'
    ensures SiteUrl(JStr(scheme + "://" + host + tail)) == scheme + "://" + host
  {
    SchemeAndNetlocOfUrl(scheme, host, tail);
    ContainsChar(host, '[');
    ContainsChar(host, ']');
  }

  /** A host with a `[` and no `]`, or the other way round, makes parsing
      raise, so the page counts under `Unknown Site`: `https://[::1/x` is
      one. */
  lemma SiteUrlUnmatchedBracket(scheme: string, host: string, tail: string)
    requires PlainUrlParts(scheme, host, tail)
    requires ('[' in host) != (']' in host)
    ensures SiteUrl(JStr(scheme + "://" + host + tail)) == "Unknown Site"
  {
    SchemeAndNetlocOfUrl(scheme, host, tail);
    ContainsChar(host, '[');
    ContainsChar(host, ']');
  }

  /** A value that is not text: a falsy one prints as empty bytes, a truthy
      one makes parsing raise. */
  lemma SiteUrlNotText()
    ensures SiteUrl(JNull) == "b''://b''"
    ensures SiteUrl(JList([])) == "b''://b''"
    ensures SiteUrl(JInt(7)) == "Unknown Site"
  {
  }

  /** `{'Count': …, 'Pages Affected': …}` for one site and issue type. */
  datatype SiteTally = SiteTally(count: int, pagesAffected: int)

  /** One issue bumps its type's count by its size and its pages by one. */
  function Bump(d: Dict<string, SiteTally>, issue: Issue): Dict<string, SiteTally>
  {
    var was := GetOr(d, issue.issueType, SiteTally(0, 0));
    Put(d, issue.issueType, SiteTally(was.count + issue.count, was.pagesAffected + 1))
  }

  function BumpAll(d: Dict<string, SiteTally>, issues: seq<Issue>): Dict<string, SiteTally>
  {
    if |issues| == 0 then d else Bump(BumpAll(d, issues[..|issues| - 1]), issues[|issues| - 1])
  }

  /** Whether a page has accessibility results at all. */
  predicate HasAccessibility(result: Json)
  {
    Has(result, "results") && Has(Sub(result, "results"), "accessibility")
  }

  /** Site to issue type to tally; a site is listed as soon as one of its
      pages has accessibility results, even with no issues. This is the
      table on inputs where no `tests` lookup fails (`IssuesBySiteTable`). */
  function IssuesBySite(docs: Docs, results: seq<Json>): Dict<string, Dict<string, SiteTally>>
  {
    if |results| == 0 then []
    else
      var prev := IssuesBySite(docs, results[..|results| - 1]);
      var r := results[|results| - 1];
      if !HasAccessibility(r) then prev
      else
        var site := SiteUrl(Field(r, "url", JStr("Unknown URL")));
        Put(prev, site, BumpAll(GetOr(prev, site, []), PageIssues(docs, PageTests(r))))
  }

  /** Every tally has been bumped at least once, and by at least one per
      bump. */
  predicate TalliesOk(d: Dict<string, SiteTally>)
  {
    forall i :: 0 <= i < |d| ==> d[i].1.count >= d[i].1.pagesAffected >= 1
  }

  predicate SitesOk(d: Dict<string, Dict<string, SiteTally>>)
  {
    forall i :: 0 <= i < |d| ==> TalliesOk(d[i].1)
  }

  lemma {:induction false} PutTallyOk(d: Dict<string, SiteTally>, k: string, v: SiteTally)
    requires TalliesOk(d) && v.count >= v.pagesAffected >= 1
    ensures TalliesOk(Put(d, k, v))
  {
    if |d| > 0 && d[0].0 != k {
      PutTallyOk(d[1..], k, v);
      assert Put(d, k, v) == [d[0]] + Put(d[1..], k, v);
    }
  }

  lemma {:induction false} PutSiteOk(d: Dict<string, Dict<string, SiteTally>>, k: string, v: Dict<string, SiteTally>)
    requires SitesOk(d) && TalliesOk(v)
    ensures SitesOk(Put(d, k, v))
  {
    if |d| > 0 && d[0].0 != k {
      PutSiteOk(d[1..], k, v);
      assert Put(d, k, v) == [d[0]] + Put(d[1..], k, v);
    }
  }

  lemma {:induction false} BumpAllOk(d: Dict<string, SiteTally>, issues: seq<Issue>)
    requires TalliesOk(d)
    ensures TalliesOk(BumpAll(d, issues))
  {
    if |issues| > 0 {
      BumpAllOk(d, issues[..|issues| - 1]);
      BumpOk(BumpAll(d, issues[..|issues| - 1]), issues[|issues| - 1]);
    }
  }

  lemma BumpOk(d: Dict<string, SiteTally>, issue: Issue)
    requires TalliesOk(d)
    ensures TalliesOk(Bump(d, issue))
  {
    var was := GetOr(d, issue.issueType, SiteTally(0, 0));
    if HasKey(d, issue.issueType) {
      GetFound(d, issue.issueType);
    }
    PutTallyOk(d, issue.issueType, SiteTally(was.count + issue.count, was.pagesAffected + 1));
  }

  lemma GetOrSiteOk(d: Dict<string, Dict<string, SiteTally>>, site: string)
    requires SitesOk(d)
    ensures TalliesOk(GetOr(d, site, []))
  {
    if HasKey(d, site) {
      GetFound(d, site);
    }
  }

  /** For every site and issue type, the count is at least the number of
      pages affected, which is at least one. */
  lemma {:induction false} SiteCountsCoverPages(docs: Docs, results: seq<Json>)
    ensures SitesOk(IssuesBySite(docs, results))
  {
    if |results| > 0 {
      var prev := IssuesBySite(docs, results[..|results| - 1]);
      var r := results[|results| - 1];
      SiteCountsCoverPages(docs, results[..|results| - 1]);
      if HasAccessibility(r) {
        var site := SiteUrl(Field(r, "url", JStr("Unknown URL")));
        GetOrSiteOk(prev, site);
        BumpAllOk(GetOr(prev, site, []), PageIssues(docs, PageTests(r)));
        PutSiteOk(prev, site, BumpAll(GetOr(prev, site, []), PageIssues(docs, PageTests(r))));
      }
    }
  }

  function SumCounts(d: Dict<string, SiteTally>): int
  {
    if |d| == 0 then 0 else d[0].1.count + SumCounts(d[1..])
  }

  function SumPages(d: Dict<string, SiteTally>): int
  {
    if |d| == 0 then 0 else d[0].1.pagesAffected + SumPages(d[1..])
  }

  lemma {:induction false} PutSums(d: Dict<string, SiteTally>, k: string, v: SiteTally)
    ensures SumCounts(Put(d, k, v)) == SumCounts(d) - GetOr(d, k, SiteTally(0, 0)).count + v.count
    ensures SumPages(Put(d, k, v)) == SumPages(d) - GetOr(d, k, SiteTally(0, 0)).pagesAffected + v.pagesAffected
  {
    if |d| > 0 && d[0].0 != k {
      PutSums(d[1..], k, v);
      assert Put(d, k, v) == [d[0]] + Put(d[1..], k, v);
    }
  }

  /** Bumping conserves totals: a site's counts grow by the summed sizes of
      its pages' issues, and its "pages affected" by the number of issue
      events, not the number of pages. */
  lemma {:induction false} BumpAllSums(d: Dict<string, SiteTally>, issues: seq<Issue>)
    ensures SumCounts(BumpAll(d, issues)) == SumCounts(d) + Total(issues)
    ensures SumPages(BumpAll(d, issues)) == SumPages(d) + |issues|
  {
    if |issues| > 0 {
      BumpAllSums(d, issues[..|issues| - 1]);
      BumpSums(BumpAll(d, issues[..|issues| - 1]), issues[|issues| - 1]);
    }
  }

  lemma BumpSums(d: Dict<string, SiteTally>, issue: Issue)
    ensures SumCounts(Bump(d, issue)) == SumCounts(d) + issue.count
    ensures SumPages(Bump(d, issue)) == SumPages(d) + 1
  {
    var was := GetOr(d, issue.issueType, SiteTally(0, 0));
    PutSums(d, issue.issueType, SiteTally(was.count + issue.count, was.pagesAffected + 1));
  }

  /** The issues-by-site block; nothing when the direct `tests` lookup
      fails on some page. */
  method IssuesBySiteTable(docs: Docs, results: seq<Json>) returns (bySite: Option<Dict<string, Dict<string, SiteTally>>>)
    ensures bySite.None? <==> SomeTestsMissing(results)
    ensures bySite.Some? ==> bySite.value == IssuesBySite(docs, results)
  {
    var sites := [];
    var p := 0;
    while p < |results|
      invariant 0 <= p <= |results|
      invariant sites == IssuesBySite(docs, results[..p])
      invariant !SomeTestsMissing(results[..p])
    {
      SomeTestsMissingSnoc(results, p);
      assert results[..p + 1][..p] == results[..p];
      var r := results[p];
      var site := SiteUrl(Field(r, "url", JStr("Unknown URL")));
      if HasAccessibility(r) {
        if TestsMissing(r) {
          return None;
        }
        var s0 := sites;
        if !HasKey(sites, site) {
          sites := Put(sites, site, []);
        }
        var issues := CollectPageIssues(docs, PageTests(r));
        var tallies := BumpIssues(GetOr(sites, site, []), issues);
        SitePutTwice(sites, site, tallies, s0);
        sites := Put(sites, site, tallies);
      }
      p := p + 1;
    }
    assert results[..|results|] == results;
    bySite := Some(sites);
  }

  /** The loop over one page's issues. */
  method BumpIssues(d: Dict<string, SiteTally>, issues: seq<Issue>) returns (tallies: Dict<string, SiteTally>)
    ensures tallies == BumpAll(d, issues)
  {
    tallies := d;
    var i := 0;
    while i < |issues|
      invariant 0 <= i <= |issues|
      invariant tallies == BumpAll(d, issues[..i])
    {
      assert issues[..i + 1][..i] == issues[..i];
      var was := GetOr(tallies, issues[i].issueType, SiteTally(0, 0));
      tallies := Put(tallies, issues[i].issueType, SiteTally(was.count + issues[i].count, was.pagesAffected + 1));
      i := i + 1;
    }
    assert issues[..|issues|] == issues;
  }

  /** Creating an empty entry first and storing the tallies later is the
      same as storing them once. */
  lemma SitePutTwice(d: Dict<string, Dict<string, SiteTally>>, site: string, v: Dict<string, SiteTally>,
                     d0: Dict<string, Dict<string, SiteTally>>)
    requires d == if HasKey(d0, site) then d0 else Put(d0, site, [])
    ensures Put(d, site, v) == Put(d0, site, v)
    ensures GetOr(d, site, []) == GetOr(d0, site, [])
  {
    if !HasKey(d0, site) {
      PutPutSame(d0, site, [], v);
    }
  }

  lemma {:induction false} PutPutSame<K, V>(d: Dict<K, V>, k: K, v: V, w: V)
    ensures Put(Put(d, k, v), k, w) == Put(d, k, w)
  {
    if |d| > 0 && d[0].0 != k {
      PutPutSame(d[1..], k, v, w);
    }
  }
}
