/** The test documentation sheet: a "Test" row per documented test and a
    "Check" row per named check of it, sorted by name with each test ahead
    of its checks. */
module DocumentationSheet {
  import opened Dicts
  import opened Strs
  import opened JsonValue
  import opened RowSort
  import opened DetailedResults

  datatype RowKind = TestRow | CheckRow

  /** A row of the sheet. The text cells are kept as read from the
      documentation. */
  datatype DocRow = DocRow(name: string, kind: RowKind, description: Json, version: Json, date: Json,
                           wcag: string, impact: Json, howToFix: Json)

  /** `doc.get('testName', name.replace('_', ' ').title())`. */
  function DisplayName(name: string, doc: Json): string
  {
    PyStr(Field(doc, "testName", JStr(Title(ReplaceAll(name, "_", " ")))))
  }

  function TestRowOf(display: string, doc: Json): DocRow
  {
    DocRow(display, TestRow, Field(doc, "description", JStr("")), Field(doc, "version", JStr("")),
           Field(doc, "date", JStr("")), "", JStr(""), JStr(""))
  }

  /** `test.get('name', '')`: a check is listed only when this is truthy. */
  function CheckName(check: Json): Json
  {
    Field(check, "name", JStr(""))
  }

  function CheckRowOf(display: string, doc: Json, check: Json): DocRow
  {
    DocRow(display + " - " + PyStr(CheckName(check)), CheckRow, Field(check, "description", JStr("")),
           Field(doc, "version", JStr("")), Field(doc, "date", JStr("")),
           Join(", ", Texts(Iterate(Field(check, "wcagCriteria", JList([]))))),
           Field(check, "impact", JStr("")), Field(check, "howToFix", JStr("")))
  }

  function CheckRows(display: string, doc: Json, checks: seq<Json>): seq<DocRow>
  {
    if |checks| == 0 then []
    else
      var c := checks[|checks| - 1];
      CheckRows(display, doc, checks[..|checks| - 1]) + if Truthy(CheckName(c)) then [CheckRowOf(display, doc, c)] else []
  }

  function Checks(doc: Json): seq<Json>
  {
    Iterate(Field(doc, "tests", JList([])))
  }

  function DocBlock(name: string, doc: Json): seq<DocRow>
  {
    var display := DisplayName(name, doc);
    [TestRowOf(display, doc)] + CheckRows(display, doc, Checks(doc))
  }

  function DocRows(docs: Dict<string, Json>): seq<DocRow>
  {
    if |docs| == 0 then [] else DocRows(docs[..|docs| - 1]) + DocBlock(docs[|docs| - 1].0, docs[|docs| - 1].1)
  }

  /** `sort_values(['Test Name', 'type_order'])` with Test as 0, Check as 1. */
  function DocKey(r: DocRow): seq<Atom>
  {
    [AStr(r.name), AInt(if r.kind == TestRow then 0 else 1)]
  }

  function DocumentationSheet(docs: Dict<string, Json>): seq<DocRow>
  {
    SortBy(DocRows(docs), DocKey)
  }

  /** How many checks have a name. */
  function NamedChecks(checks: seq<Json>): nat
  {
    if |checks| == 0 then 0
    else NamedChecks(checks[..|checks| - 1]) + if Truthy(CheckName(checks[|checks| - 1])) then 1 else 0
  }

  /** The check rows are the named checks, in order, each titled with the
      test's display name, and none of them is a Test row. */
  lemma {:induction false} CheckRowsSpec(display: string, doc: Json, checks: seq<Json>)
    ensures |CheckRows(display, doc, checks)| == NamedChecks(checks)
    ensures forall i :: 0 <= i < |CheckRows(display, doc, checks)| ==>
              CheckRows(display, doc, checks)[i].kind == CheckRow
              && exists k :: 0 <= k < |checks| && Truthy(CheckName(checks[k]))
                             && CheckRows(display, doc, checks)[i] == CheckRowOf(display, doc, checks[k])
  {
    if |checks| > 0 {
      var init := checks[..|checks| - 1];
      CheckRowsSpec(display, doc, init);
      var rows := CheckRows(display, doc, checks);
      var c := checks[|checks| - 1];
      assert rows == CheckRows(display, doc, init) + if Truthy(CheckName(c)) then [CheckRowOf(display, doc, c)] else [];
      forall i | 0 <= i < |rows|
        ensures rows[i].kind == CheckRow
                && exists k :: 0 <= k < |checks| && Truthy(CheckName(checks[k])) && rows[i] == CheckRowOf(display, doc, checks[k])
      {
        if i < |CheckRows(display, doc, init)| {
          assert rows[i] == CheckRows(display, doc, init)[i];
          var k :| 0 <= k < |init| && Truthy(CheckName(init[k])) && CheckRows(display, doc, init)[i] == CheckRowOf(display, doc, init[k]);
          assert checks[k] == init[k];
        } else {
          assert rows[i] == CheckRowOf(display, doc, checks[|checks| - 1]);
          assert checks[|checks| - 1] == c;
        }
      }
    }
  }

  lemma {:induction false} CheckRowsComplete(display: string, doc: Json, checks: seq<Json>, k: nat)
    requires k < |checks| && Truthy(CheckName(checks[k]))
    ensures CheckRowOf(display, doc, checks[k]) in CheckRows(display, doc, checks)
  {
    var init := checks[..|checks| - 1];
    if k < |init| {
      assert init[k] == checks[k];
      CheckRowsComplete(display, doc, init, k);
    }
  }

  /** A documented test gives its Test row and one row per named check. */
  lemma DocBlockSpec(name: string, doc: Json)
    ensures |DocBlock(name, doc)| == 1 + NamedChecks(Checks(doc))
    ensures DocBlock(name, doc)[0] == TestRowOf(DisplayName(name, doc), doc)
    ensures forall k :: 0 <= k < |Checks(doc)| && Truthy(CheckName(Checks(doc)[k])) ==>
              CheckRowOf(DisplayName(name, doc), doc, Checks(doc)[k]) in DocBlock(name, doc)
  {
    var display := DisplayName(name, doc);
    CheckRowsSpec(display, doc, Checks(doc));
    forall k | 0 <= k < |Checks(doc)| && Truthy(CheckName(Checks(doc)[k]))
      ensures CheckRowOf(display, doc, Checks(doc)[k]) in DocBlock(name, doc)
    {
      CheckRowsComplete(display, doc, Checks(doc), k);
    }
  }

  /** Rows in key order: one with a smaller key comes first. */
  lemma SortedPrecedes<T>(xs: seq<T>, key: T -> seq<Atom>, i: nat, j: nat)
    requires SortedBy(xs, key) && i < |xs| && j < |xs| && KeyLess(key(xs[i]), key(xs[j]))
    ensures i < j
  {
    KeyLessIrreflexive(key(xs[i]));
  }

  /** A test's row sorts ahead of each of its checks: its name is a proper
      prefix of theirs. */
  lemma TestBeforeCheck(display: string, doc: Json, check: Json)
    ensures KeyLess(DocKey(TestRowOf(display, doc)), DocKey(CheckRowOf(display, doc, check)))
  {
    var suffix := " - " + PyStr(CheckName(check));
    assert display + " - " + PyStr(CheckName(check)) == display + suffix;
    StrLessPrefix(display, suffix);
    assert |display + suffix| > |display|;
  }

  /** The sheet is in key order and holds exactly the rows built. */
  lemma DocumentationSheetSpec(docs: Dict<string, Json>)
    ensures SortedBy(DocumentationSheet(docs), DocKey)
    ensures multiset(DocumentationSheet(docs)) == multiset(DocRows(docs))
  {
    SortBySorted(DocRows(docs), DocKey);
  }

  /** On the sheet, a test's row comes before each of its check rows. */
  lemma TestAheadOfChecks(docs: Dict<string, Json>, display: string, doc: Json, check: Json, i: nat, j: nat)
    requires i < |DocumentationSheet(docs)| && j < |DocumentationSheet(docs)|
    requires DocumentationSheet(docs)[i] == TestRowOf(display, doc)
    requires DocumentationSheet(docs)[j] == CheckRowOf(display, doc, check)
    ensures i < j
  {
    DocumentationSheetSpec(docs);
    TestBeforeCheck(display, doc, check);
    SortedPrecedes(DocumentationSheet(docs), DocKey, i, j);
  }

  // The loop that builds the rows.

  method BuildDocumentationSheet(docs: Dict<string, Json>) returns (rows: seq<DocRow>)
    ensures rows == DocumentationSheet(docs)
  {
    rows := [];
    var i := 0;
    while i < |docs|
      invariant 0 <= i <= |docs|
      invariant rows == DocRows(docs[..i])
    {
      DocRowsSnoc(docs, i);
      var more := ListTest(docs[i].0, docs[i].1);
      rows := rows + more;
      i := i + 1;
    }
    assert docs[..|docs|] == docs;
    rows := SortBy(rows, DocKey);
  }

  lemma DocRowsSnoc(docs: Dict<string, Json>, i: nat)
    requires i < |docs|
    ensures DocRows(docs[..i + 1]) == DocRows(docs[..i]) + DocBlock(docs[i].0, docs[i].1)
  {
    assert docs[..i + 1][..i] == docs[..i];
  }

  /** The rows of one documented test: its own, then its named checks. */
  method ListTest(name: string, doc: Json) returns (rows: seq<DocRow>)
    ensures rows == DocBlock(name, doc)
  {
    var display := DisplayName(name, doc);
    var more := ListChecks(display, doc, Checks(doc));
    rows := [TestRowOf(display, doc)] + more;
  }

  method ListChecks(display: string, doc: Json, checks: seq<Json>) returns (rows: seq<DocRow>)
    ensures rows == CheckRows(display, doc, checks)
  {
    rows := [];
    var i := 0;
    while i < |checks|
      invariant 0 <= i <= |checks|
      invariant rows == CheckRows(display, doc, checks[..i])
    {
      assert checks[..i + 1][..i] == checks[..i];
      if Truthy(CheckName(checks[i])) {
        rows := rows + [CheckRowOf(display, doc, checks[i])];
      }
      i := i + 1;
    }
    assert checks[..|checks|] == checks;
  }
}
