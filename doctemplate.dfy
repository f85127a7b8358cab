/** The string logic of the helper that adds a documentation template to a
    test file: the test name taken from the file name, the formatted name,
    the filled-in template and where it is spliced into the file. File
    access, the clock and the regular-expression engine are parameters. */
module DocTemplate {
  import opened Dicts
  import opened Strs
  import IssueLabels

  // Names.

  /** `os.path.basename(path)`: the text after the last '/'. */
  function Basename(path: string): string
  {
    var parts := Split(path, "/");
    parts[|parts| - 1]
  }

  /** Python's `s[start:-drop]` for non-negative `start` and positive `drop`. */
  function SliceDropEnd(s: string, start: nat, drop: nat): (r: string)
    ensures |r| <= |s|
  {
    var j := if drop <= |s| then |s| - drop else 0;
    var i := if start <= |s| then start else |s|;
    if i < j then s[i..j] else ""
  }

  /** The file name without a leading "test_" and the ".py" extension. */
  function TestName(filename: string): string
  {
    if StartsWith(filename, "test_") then SliceDropEnd(filename, 5, 3) else SliceDropEnd(filename, 0, 3)
  }

  /** For a file name ending in ".py", the test name is exactly what lies
      between the optional "test_" prefix and that extension. */
  lemma TestNameSpec(filename: string)
    requires EndsWith(filename, ".py")
    ensures StartsWith(filename, "test_") ==> filename == "test_" + TestName(filename) + ".py"
    ensures !StartsWith(filename, "test_") ==> filename == TestName(filename) + ".py"
  {
    var n := |filename|;
    assert filename[n - 3..] == ".py";
    if StartsWith(filename, "test_") {
      assert filename[..5] == "test_";
      assert filename[4] == '_';
      assert forall k :: n - 3 <= k < n ==> filename[k] == filename[n - 3..][k - (n - 3)] != '_';
      assert filename == filename[..5] + filename[5..n - 3] + filename[n - 3..];
    } else {
      assert filename == filename[..n - 3] + filename[n - 3..];
    }
  }

  /** `' '.join(w.capitalize() for w in name.split('_')) + ' Analysis'`:
      the label resolver's formatted name with a suffix. */
  function FormattedName(testName: string): string
  {
    IssueLabels.FormattedName(testName) + " Analysis"
  }

  lemma LowerKeeps(s: string, c: char)
    requires c !in s && !IsLetter(c)
    ensures c !in Lower(s)
  {
  }

  lemma CapitalizeKeeps(w: string, c: char)
    requires c !in w && !IsLetter(c)
    ensures c !in Capitalize(w)
  {
    if |w| > 0 {
      LowerKeeps(w[1..], c);
      var r := Capitalize(w);
      assert r == [ToUpperChar(w[0])] + Lower(w[1..]);
    }
  }

  lemma {:induction false} JoinFree(sep: string, parts: seq<string>, c: char)
    requires c !in sep && forall i :: 0 <= i < |parts| ==> c !in parts[i]
    ensures c !in Join(sep, parts)
  {
    if |parts| > 1 {
      JoinFree(sep, parts[1..], c);
    }
  }

  /** Two joins with separators of one length over pieces of pairwise equal
      lengths have one length. */
  lemma {:induction false} JoinLength(sep: string, parts: seq<string>, sep': string, parts': seq<string>)
    requires |sep| == |sep'| && |parts| == |parts'|
    requires forall i :: 0 <= i < |parts| ==> |parts[i]| == |parts'[i]|
    ensures |Join(sep, parts)| == |Join(sep', parts')|
  {
    if |parts| > 1 {
      JoinLength(sep, parts[1..], sep', parts'[1..]);
    }
  }

  /** The words of a test name have no '_': each one split them. */
  lemma WordsFree(testName: string)
    ensures '_' !in IssueLabels.FormattedName(testName)
  {
    var pieces := Split(testName, "_");
    var words := CapitalizeAll(pieces);
    forall i | 0 <= i < |words|
      ensures '_' !in words[i]
    {
      SplitPiecesFree(testName, "_", i);
      FreeOfChar(pieces[i], '_');
      CapitalizeKeeps(pieces[i], '_');
    }
    JoinFree(" ", words, '_');
  }

  /** Each '_' became one space, so the words are as long as the name. */
  lemma WordsLength(testName: string)
    ensures |IssueLabels.FormattedName(testName)| == |testName|
  {
    var pieces := Split(testName, "_");
    JoinSplit(testName, "_");
    JoinLength(" ", CapitalizeAll(pieces), "_", pieces);
  }

  /** The formatted name has no '_' (each one became a space), is as long
      as the test name plus the suffix, and ends in " Analysis". */
  lemma FormattedNameSpec(testName: string)
    ensures '_' !in FormattedName(testName)
    ensures |FormattedName(testName)| == |testName| + |" Analysis"|
    ensures EndsWith(FormattedName(testName), " Analysis")
  {
    var words := IssueLabels.FormattedName(testName);
    WordsFree(testName);
    WordsLength(testName);
    assert (words + " Analysis")[|words|..] == " Analysis";
  }

  // The template. The placeholders, the marker and the head are written in
  // pieces of at most fifteen characters: the `!in` and slicing proofs about
  // the head stay cheap on short pieces.

  const NamePlaceholder: string := "INSERT_TEST_" + "NAME_HERE"
  const DatePlaceholder: string := "YYYY-MM-DD"

  /** The marker whose presence means a file is already documented. */
  const Marker: string := "TEST_" + "DOCUMENTATION"

  /** The template's first two lines. */
  const HeadLine: string := "# Test metadata" + " for documentat" + "ion and reporti" + "ng\n"
  const Head: string := HeadLine + Marker + " = {\n"

  /** The rest of the template, from its third line. */
  const Body: string :=
    "    \"testName\": \"INSERT_TEST_NAME_HERE\",\n" +
    "    \"description\": \"INSERT_GENERAL_DESCRIPTION_HERE\",\n" +
    "    \"version\": \"1.0.0\",\n" +
    "    \"date\": \"YYYY-MM-DD\",\n" +
    "    \"dataSchema\": {\n" +
    "        \"timestamp\": \"ISO timestamp when the test was run\",\n" +
    "        \"url\": \"The URL of the page being analyzed\"\n" +
    "        # Add other top-level fields in test results\n" +
    "    },\n" +
    "    \"tests\": [\n" +
    "        {\n" +
    "            \"id\": \"INSERT_TEST_ID_HERE\",\n" +
    "            \"name\": \"INSERT_TEST_NAME_HERE\",\n" +
    "            \"description\": \"INSERT_TEST_DESCRIPTION_HERE\",\n" +
    "            \"impact\": \"high|medium|low\",\n" +
    "            \"wcagCriteria\": [\"1.1.1\", \"1.3.1\"],  # List applicable WCAG criteria\n" +
    "            \"howToFix\": \"INSERT_INSTRUCTIONS_HERE\",\n" +
    "            \"resultsFields\": {\n" +
    "                \"pageFlags.hasSomeFlag\": \"Description of this flag\",\n" +
    "                \"keyElements.primaryElement\": \"Description of this element\"\n" +
    "                # Add other result fields specific to this test\n" +
    "            }\n" +
    "        }\n" +
    "        # Add more test objects for each subtest or check\n" +
    "    ]\n" +
    "}\n"

  const Template: string := Head + Body

  /** The head cut at the marker's only 'I'. */
  lemma HeadCut()
    ensures Head == (HeadLine + "TEST_DOCUMENTAT") + ['I'] + ("ON" + " = {\n")
  {
    assert Marker == "TEST_DOCUMENTAT" + ['I'] + "ON";
  }

  /** The characters the placeholders start with are absent from both
      sides of the cut, and the date placeholder's from the whole head. */
  lemma HeadChars()
    ensures 'I' !in HeadLine + "TEST_DOCUMENTAT" && 'I' !in "ON" + " = {\n"
    ensures 'Y' !in Head
  {
    HeadLineChars();
    assert 'Y' !in Marker && 'Y' !in " = {\n";
  }

  lemma HeadLineChars()
    ensures 'I' !in HeadLine && 'Y' !in HeadLine
  {
    assert 'I' !in "# Test metadata" && 'I' !in " for documentat" && 'I' !in "ion and reporti" && 'I' !in "ng\n";
    assert 'Y' !in "# Test metadata" && 'Y' !in " for documentat" && 'Y' !in "ion and reporti" && 'Y' !in "ng\n";
  }

  /** The template with every name placeholder and then every date
      placeholder replaced. */
  function Fill(name: string, date: string): string
  {
    ReplaceAll(ReplaceAll(Template, NamePlaceholder, name), DatePlaceholder, date)
  }

  /** The filled template is the template cut at each name placeholder,
      joined with the name, then cut at each date placeholder and joined
      with the date; no piece between the cuts holds a placeholder. */
  lemma FillSpec(name: string, date: string)
    ensures Join(NamePlaceholder, Split(Template, NamePlaceholder)) == Template
    ensures forall k :: 0 <= k < |Split(Template, NamePlaceholder)| ==> !Contains(Split(Template, NamePlaceholder)[k], NamePlaceholder)
    ensures ReplaceAll(Template, NamePlaceholder, name) == Join(name, Split(Template, NamePlaceholder))
    ensures Fill(name, date) == Join(date, Split(ReplaceAll(Template, NamePlaceholder, name), DatePlaceholder))
    ensures forall k :: 0 <= k < |Split(ReplaceAll(Template, NamePlaceholder, name), DatePlaceholder)| ==>
              !Contains(Split(ReplaceAll(Template, NamePlaceholder, name), DatePlaceholder)[k], DatePlaceholder)
  {
    ReplaceCuts(Template, NamePlaceholder, name);
    ReplaceCuts(ReplaceAll(Template, NamePlaceholder, name), DatePlaceholder, date);
  }

  /** A replacement cuts the text at each occurrence and joins the pieces
      with the replacement; the cuts give the text back and no piece holds
      the pattern. */
  lemma ReplaceCuts(t: string, pat: string, rep: string)
    requires |pat| > 0
    ensures Join(pat, Split(t, pat)) == t
    ensures forall k :: 0 <= k < |Split(t, pat)| ==> !Contains(Split(t, pat)[k], pat)
    ensures ReplaceAll(t, pat, rep) == Join(rep, Split(t, pat))
  {
    JoinSplit(t, pat);
    ReplaceIsJoinOfSplit(t, pat, rep);
    forall k | 0 <= k < |Split(t, pat)|
      ensures !Contains(Split(t, pat)[k], pat)
    {
      SplitPiecesFree(t, pat, k);
    }
  }

  /** A replacement leaves a prefix alone where no occurrence starts. */
  lemma {:induction false} ReplaceSkips(a: string, b: string, pat: string, rep: string)
    requires |pat| > 0
    requires forall j :: 0 <= j < |a| ==> !OccursAt(a + b, pat, j)
    ensures ReplaceAll(a + b, pat, rep) == a + ReplaceAll(b, pat, rep)
    decreases |a|
  {
    var s := a + b;
    if |a| > 0 && |s| < |pat| {
      assert ReplaceAll(b, pat, rep) == b;
    } else if |a| > 0 {
      assert !OccursAt(s, pat, 0);
      assert s[1..] == a[1..] + b;
      forall j | 0 <= j < |a[1..]|
        ensures !OccursAt(a[1..] + b, pat, j)
      {
        assert !OccursAt(s, pat, j + 1);
        OccursAtTail(s, pat, j + 1);
      }
      ReplaceSkips(a[1..], b, pat, rep);
      assert ReplaceAll(s, pat, rep) == [s[0]] + ReplaceAll(s[1..], pat, rep);
      assert a == [a[0]] + a[1..];
    } else {
      assert s == b;
    }
  }

  /** No occurrence of `pat` starts inside a prefix missing its first
      character. */
  lemma NoStartIn(a: string, b: string, pat: string, j: nat)
    requires |pat| > 0 && pat[0] !in a && j < |a|
    ensures !OccursAt(a + b, pat, j)
  {
    var s := a + b;
    if j + |pat| <= |s| {
      assert s[j..j + |pat|][0] == a[j];
    }
  }

  /** No occurrence of `pat` starts inside `a + [c] + b` when `pat` starts
      with `c`, `c` occurs there only once and `b` does not continue `pat`. */
  lemma NoStartAcross(a: string, c: char, b: string, rest: string, pat: string)
    requires |pat| >= 2 && pat[0] == c && c !in a && c !in b && |b| > 0 && b[0] != pat[1]
    ensures forall j :: 0 <= j < |a + [c] + b| ==> !OccursAt(a + [c] + b + rest, pat, j)
  {
    var s := a + [c] + b + rest;
    forall j | 0 <= j < |a + [c] + b|
      ensures !OccursAt(s, pat, j)
    {
      if j + |pat| <= |s| {
        if j < |a| {
          assert s[j..j + |pat|][0] == a[j];
        } else if j == |a| {
          assert s[j..j + |pat|][1] == b[0];
        } else {
          assert s[j..j + |pat|][0] == b[j - |a| - 1];
        }
      }
    }
  }

  /** Both replacements leave the first two lines of the template intact. */
  lemma FillHead(name: string, date: string)
    ensures exists rest :: Fill(name, date) == Head + rest
  {
    HeadCut();
    HeadChars();
    assert NamePlaceholder[0] == 'I';
    assert NamePlaceholder[1] == 'N';
    NoStartAcross(HeadLine + "TEST_DOCUMENTAT", 'I', "ON" + " = {\n", Body, NamePlaceholder);
    ReplaceSkips(Head, Body, NamePlaceholder, name);
    var named := ReplaceAll(Body, NamePlaceholder, name);
    assert DatePlaceholder[0] == 'Y';
    forall j | 0 <= j < |Head|
      ensures !OccursAt(Head + named, DatePlaceholder, j)
    {
      NoStartIn(Head, named, DatePlaceholder, j);
    }
    ReplaceSkips(Head, named, DatePlaceholder, date);
    assert Fill(name, date) == Head + ReplaceAll(named, DatePlaceholder, date);
  }

  // Where the template goes.

  /** Python's `s[:i]` and `s[i:]` for a non-negative `i`. */
  function Before(s: string, i: nat): string
  {
    if i <= |s| then s[..i] else s
  }

  function After(s: string, i: nat): string
  {
    if i <= |s| then s[i..] else ""
  }

  /** The insertion point: the end of the first triple-quoted block that
      starts at the beginning of a line, if there is one (this need not be
      the module docstring), else the end of the last import, else none
      (the top of the file). */
  function InsertionPoint(docstringEnd: Option<nat>, lastImportEnd: Option<nat>): Option<nat>
  {
    if docstringEnd.Some? then docstringEnd else lastImportEnd
  }

  function Splice(content: string, template: string, point: Option<nat>): string
  {
    match point
    case Some(i) => Before(content, i) + "\n\n" + template + "\n\n" + After(content, i)
    case None => template + "\n\n" + content
  }

  /** Cutting the inserted block back out gives the original content. */
  lemma SpliceRecovers(content: string, template: string, point: Option<nat>)
    requires point.Some? ==> point.value <= |content|
    ensures point.Some? ==>
              (var i := point.value;
               var out := Splice(content, template, point);
               i + |template| + 4 <= |out| && out[..i] + out[i + |template| + 4..] == content
               && out[i..i + |template| + 4] == "\n\n" + template + "\n\n")
    ensures point.None? ==>
              StartsWith(Splice(content, template, point), template + "\n\n")
              && Splice(content, template, point)[|template| + 2..] == content
  {
    if point.Some? {
      var i := point.value;
      var out := Splice(content, template, point);
      var block := "\n\n" + template + "\n\n";
      assert out == content[..i] + block + content[i..];
      assert out[..i] == content[..i];
      assert out[i + |block|..] == content[i..];
      assert out[i..i + |block|] == block;
      assert content == content[..i] + content[i..];
    } else {
      var out := Splice(content, template, point);
      assert out[..|template| + 2] == template + "\n\n";
    }
  }

  // The whole edit.

  datatype Outcome =
    | NotPython            // missing file or not a ".py" path: returns False
    | AlreadyDocumented    // the content mentions TEST_DOCUMENTATION: returns False
    | Written(content: string)

  /** `add_documentation_to_file`, with whether the path exists, the file's
      content, today's date and the two regular-expression match ends given. */
  function AddDocumentation(path: string, present: bool, content: string, today: string,
                            docstringEnd: Option<nat>, lastImportEnd: Option<nat>): Outcome
  {
    if !present || !EndsWith(path, ".py") then NotPython
    else if Contains(content, Marker) then AlreadyDocumented
    else
      var template := Fill(FormattedName(TestName(Basename(path))), today);
      Written(Splice(content, template, InsertionPoint(docstringEnd, lastImportEnd)))
  }

  /** The file is rewritten exactly when it is an existing ".py" file that
      does not mention TEST_DOCUMENTATION yet. */
  lemma AddDocumentationCases(path: string, present: bool, content: string, today: string,
                              docstringEnd: Option<nat>, lastImportEnd: Option<nat>)
    ensures var r := AddDocumentation(path, present, content, today, docstringEnd, lastImportEnd);
            (r.NotPython? <==> !present || !EndsWith(path, ".py"))
            && (r.AlreadyDocumented? <==> present && EndsWith(path, ".py") && Contains(content, Marker))
            && (r.Written? <==> present && EndsWith(path, ".py") && !Contains(content, Marker))
  {
  }

  /** Where the written file gets the template: right after the first
      triple-quoted block at a line start when there is one, else right
      after the last import, else at the top; in each case cutting the
      block out again gives the old content. */
  lemma WrittenAt(path: string, content: string, today: string,
                  docstringEnd: Option<nat>, lastImportEnd: Option<nat>)
    requires docstringEnd.Some? ==> docstringEnd.value <= |content|
    requires lastImportEnd.Some? ==> lastImportEnd.value <= |content|
    requires AddDocumentation(path, true, content, today, docstringEnd, lastImportEnd).Written?
    ensures var out := AddDocumentation(path, true, content, today, docstringEnd, lastImportEnd).content;
            var block := "\n\n" + Fill(FormattedName(TestName(Basename(path))), today) + "\n\n";
            (docstringEnd.Some? ==>
               var i := docstringEnd.value;
               i + |block| <= |out| && out[i..i + |block|] == block && out[..i] + out[i + |block|..] == content)
            && (docstringEnd.None? && lastImportEnd.Some? ==>
               var i := lastImportEnd.value;
               i + |block| <= |out| && out[i..i + |block|] == block && out[..i] + out[i + |block|..] == content)
            && (docstringEnd.None? && lastImportEnd.None? ==>
               StartsWith(out, block[2..]) && out[|block| - 2..] == content)
  {
    SplicedAt(content, Fill(FormattedName(TestName(Basename(path))), today), docstringEnd, lastImportEnd);
  }

  lemma SplicedAt(content: string, template: string, docstringEnd: Option<nat>, lastImportEnd: Option<nat>)
    requires docstringEnd.Some? ==> docstringEnd.value <= |content|
    requires lastImportEnd.Some? ==> lastImportEnd.value <= |content|
    ensures var out := Splice(content, template, InsertionPoint(docstringEnd, lastImportEnd));
            var block := "\n\n" + template + "\n\n";
            (docstringEnd.Some? ==>
               var i := docstringEnd.value;
               i + |block| <= |out| && out[i..i + |block|] == block && out[..i] + out[i + |block|..] == content)
            && (docstringEnd.None? && lastImportEnd.Some? ==>
               var i := lastImportEnd.value;
               i + |block| <= |out| && out[i..i + |block|] == block && out[..i] + out[i + |block|..] == content)
            && (docstringEnd.None? && lastImportEnd.None? ==>
               StartsWith(out, block[2..]) && out[|block| - 2..] == content)
  {
    var block := "\n\n" + template + "\n\n";
    assert block[2..] == template + "\n\n";
    SpliceRecovers(content, template, InsertionPoint(docstringEnd, lastImportEnd));
  }

  lemma OccursShift(s: string, p: string, j: nat, a: string, b: string)
    requires OccursAt(s, p, j)
    ensures OccursAt(a + s + b, p, |a| + j)
  {
    assert (a + s + b)[|a| + j..|a| + j + |p|] == s[j..j + |p|];
  }

  lemma FoundIfOccurs(s: string, p: string, j: nat)
    requires |p| > 0 && OccursAt(s, p, j)
    ensures Contains(s, p)
  {
  }

  /** Every filled template holds the marker, on its second line. */
  lemma FillHasMarker(name: string, date: string)
    ensures OccursAt(Fill(name, date), Marker, |HeadLine|)
  {
    FillHead(name, date);
    var rest :| Fill(name, date) == Head + rest;
    assert Fill(name, date) == HeadLine + Marker + (" = {\n" + rest);
  }

  /** Splicing keeps whatever the inserted text holds. */
  lemma SpliceKeeps(content: string, template: string, point: Option<nat>, p: string, j: nat)
    requires |p| > 0 && OccursAt(template, p, j)
    ensures Contains(Splice(content, template, point), p)
  {
    var out := Splice(content, template, point);
    match point
    case Some(i) =>
      OccursShift(template, p, j, Before(content, i) + "\n\n", "\n\n" + After(content, i));
      assert out == (Before(content, i) + "\n\n") + template + ("\n\n" + After(content, i));
      FoundIfOccurs(out, p, |Before(content, i) + "\n\n"| + j);
    case None =>
      OccursShift(template, p, j, "", "\n\n" + content);
      assert out == "" + template + ("\n\n" + content);
      FoundIfOccurs(out, p, j);
  }

  /** A second run on a file the first run wrote finds the marker and
      leaves the file alone. */
  lemma SecondRunSkips(path: string, content: string, today: string,
                       docstringEnd: Option<nat>, lastImportEnd: Option<nat>,
                       today': string, docstringEnd': Option<nat>, lastImportEnd': Option<nat>)
    requires AddDocumentation(path, true, content, today, docstringEnd, lastImportEnd).Written?
    ensures AddDocumentation(path, true, AddDocumentation(path, true, content, today, docstringEnd, lastImportEnd).content,
                             today', docstringEnd', lastImportEnd').AlreadyDocumented?
  {
    var name := FormattedName(TestName(Basename(path)));
    FillHasMarker(name, today);
    SpliceKeeps(content, Fill(name, today), InsertionPoint(docstringEnd, lastImportEnd), Marker, |HeadLine|);
  }
}
