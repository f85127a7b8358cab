/** The issue label resolver (`format_issue_name`): turns a test name and a
    page flag such as `hasInputsWithoutLabels` into the label used in every
    summary table, preferring the names the test's documentation gives. */
module IssueLabels {
  import opened Dicts
  import opened Strs
  import opened JsonValue
  import opened PrefixFolds

  /** The flag text: the flag without a leading `has`. */
  function StripHas(flag: string): (r: string)
    ensures StartsWith(flag, "has") ==> flag == "has" + r
    ensures !StartsWith(flag, "has") ==> r == flag
  {
    if StartsWith(flag, "has") then
      assert flag == flag[..3] + flag[3..];
      flag[3..]
    else flag
  }

  // Camel-case splitting.

  /** The words completed so far and the word being built. */
  datatype CamelState = CamelState(words: seq<string>, current: string)

  /** One character of the scan: an upper-case letter closes a non-empty
      current word and starts the next one; anything else extends it. */
  function CamelStep(st: CamelState, c: char): CamelState
  {
    if IsUpperChar(c) && |st.current| > 0 then CamelState(st.words + [st.current], [c])
    else CamelState(st.words, st.current + [c])
  }

  function CamelScan(text: string): CamelState
  {
    if |text| == 0 then CamelState([], "")
    else CamelStep(CamelScan(text[..|text| - 1]), text[|text| - 1])
  }

  /** The words of `text` split before each upper-case letter. */
  function CamelWords(text: string): seq<string>
  {
    CamelScan(text).words + [CamelScan(text).current]
  }

  /** The words, concatenated without a separator. */
  function Concat(ws: seq<string>): string
  {
    if |ws| == 0 then "" else Concat(ws[..|ws| - 1]) + ws[|ws| - 1]
  }

  /** A word that has no upper-case letter after its first character. */
  predicate CamelWord(w: string)
  {
    forall j :: 1 <= j < |w| ==> !IsUpperChar(w[j])
  }

  /** What the scan keeps true: the words and the current word spell the text
      read so far; completed words are non-empty; every word after the first
      starts with an upper-case letter and has none after it. */
  predicate CamelInvariant(st: CamelState, text: string)
  {
    && Concat(st.words) + st.current == text
    && (forall i :: 0 <= i < |st.words| ==> |st.words[i]| > 0 && CamelWord(st.words[i]))
    && (forall i :: 1 <= i < |st.words| ==> IsUpperChar(st.words[i][0]))
    && (|st.words| > 0 ==> |st.current| > 0 && IsUpperChar(st.current[0]))
    && CamelWord(st.current)
    && (|text| > 0 ==> |st.current| > 0)
  }

  lemma ConcatSnoc(ws: seq<string>, w: string)
    ensures Concat(ws + [w]) == Concat(ws) + w
  {
    assert (ws + [w])[..|ws|] == ws;
  }

  lemma CamelStepInvariant(st: CamelState, text: string, c: char)
    requires CamelInvariant(st, text)
    ensures CamelInvariant(CamelStep(st, c), text + [c])
  {
    var st' := CamelStep(st, c);
    if IsUpperChar(c) && |st.current| > 0 {
      ConcatSnoc(st.words, st.current);
      assert Concat(st'.words) + st'.current == text + [c];
      assert forall i :: 0 <= i < |st.words| ==> st'.words[i] == st.words[i];
      assert st'.words[|st.words|] == st.current;
    } else {
      assert Concat(st.words) + (st.current + [c]) == (Concat(st.words) + st.current) + [c];
      assert forall j :: 1 <= j < |st.current| ==> st'.current[j] == st.current[j];
      if |st.current| == 0 {
        assert |st.words| == 0 || |st.current| > 0;
      }
    }
  }

  lemma {:induction false} CamelScanInvariant(text: string)
    ensures CamelInvariant(CamelScan(text), text)
  {
    if |text| > 0 {
      var init := text[..|text| - 1];
      CamelScanInvariant(init);
      CamelStepInvariant(CamelScan(init), init, text[|text| - 1]);
      assert text == init + [text[|text| - 1]];
    }
  }

  /** The split loses nothing, and every word but the first begins at an
      upper-case letter, the only one it holds. */
  lemma CamelWordsSpec(text: string)
    ensures Concat(CamelWords(text)) == text
    ensures forall i :: 0 <= i < |CamelWords(text)| ==> CamelWord(CamelWords(text)[i])
    ensures forall i :: 1 <= i < |CamelWords(text)| ==>
              |CamelWords(text)[i]| > 0 && IsUpperChar(CamelWords(text)[i][0])
    ensures |text| > 0 ==> forall i :: 0 <= i < |CamelWords(text)| ==> |CamelWords(text)[i]| > 0
  {
    CamelScanInvariant(text);
    var st := CamelScan(text);
    var ws := CamelWords(text);
    assert ws[..|ws| - 1] == st.words;
  }

  /** The character loop of `format_issue_name`. */
  method SplitCamelCase(text: string) returns (words: seq<string>)
    ensures words == CamelWords(text)
  {
    words := [];
    var current := "";
    var i := 0;
    while i < |text|
      invariant 0 <= i <= |text|
      invariant CamelState(words, current) == CamelScan(text[..i])
    {
      assert text[..i + 1][..i] == text[..i];
      var c := text[i];
      if IsUpperChar(c) && |current| > 0 {
        words := words + [current];
        current := [c];
      } else {
        current := current + [c];
      }
      i := i + 1;
    }
    assert text[..|text|] == text;
    words := words + [current];
  }

  lemma CamelScanSnoc(t: string, c: char)
    ensures CamelScan(t + [c]) == CamelStep(CamelScan(t), c)
  {
    assert (t + [c])[..|t|] == t;
  }

  /** Characters without an upper-case letter only extend the current
      word. */
  lemma {:induction false} CamelScanLower(t: string, w: string)
    requires forall j :: 0 <= j < |w| ==> !IsUpperChar(w[j])
    ensures CamelScan(t + w) == CamelState(CamelScan(t).words, CamelScan(t).current + w)
  {
    if |w| > 0 {
      var init, c := w[..|w| - 1], w[|w| - 1];
      var st := CamelScan(t);
      assert t + w == (t + init) + [c];
      assert CamelScan(t + init) == CamelState(st.words, st.current + init) by {
        CamelScanLower(t, init);
      }
      CamelScanSnoc(t + init, c);
      assert !IsUpperChar(c);
      assert st.current + init + [c] == st.current + w;
    } else {
      assert t + w == t;
    }
  }

  /** A camel word after a non-empty current word closes it and becomes the
      new current word. */
  lemma {:induction false} CamelScanWord(t: string, w: string)
    requires |w| > 0 && IsUpperChar(w[0]) && CamelWord(w)
    requires |CamelScan(t).current| > 0
    ensures CamelScan(t + w) == CamelState(CamelScan(t).words + [CamelScan(t).current], w)
  {
    var st := CamelScan(t);
    assert CamelScan(t + [w[0]]) == CamelState(st.words + [st.current], [w[0]]) by {
      CamelScanSnoc(t, w[0]);
    }
    assert CamelScan((t + [w[0]]) + w[1..]) == CamelState(st.words + [st.current], [w[0]] + w[1..]) by {
      CamelScanLower(t + [w[0]], w[1..]);
    }
    assert t + w == (t + [w[0]]) + w[1..];
    assert [w[0]] + w[1..] == w;
  }

  /** Camel words, spelled out one after the other, split back into the same
      words. */
  lemma {:induction false} CamelWordsOfConcat(ws: seq<string>)
    requires |ws| > 0
    requires forall i :: 0 <= i < |ws| ==> |ws[i]| > 0 && CamelWord(ws[i])
    requires forall i :: 1 <= i < |ws| ==> IsUpperChar(ws[i][0])
    ensures CamelScan(Concat(ws)) == CamelState(ws[..|ws| - 1], ws[|ws| - 1])
    ensures CamelWords(Concat(ws)) == ws
  {
    var w := ws[|ws| - 1];
    var init := ws[..|ws| - 1];
    assert ws == init + [w];
    ConcatSnoc(init, w);
    if |ws| == 1 {
      assert Concat(ws) == w;
      CamelScanSnoc("", w[0]);
      CamelScanLower([w[0]], w[1..]);
      assert [w[0]] + w[1..] == w;
      assert "" + [w[0]] == [w[0]];
    } else {
      CamelWordsOfConcat(init);
      CamelScanWord(Concat(init), w);
      assert init[..|init| - 1] + [init[|init| - 1]] == init;
    }
  }

  /** The issue type: the flag text split into words, title-cased. */
  function IssueType(flag: string): string
  {
    Title(Join(" ", CamelWords(StripHas(flag))))
  }

  /** The test name's `_`-separated words, capitalized and joined by spaces. */
  function FormattedName(test: string): string
  {
    Join(" ", CapitalizeAll(Split(test, "_")))
  }

  /** The test-name variants tried against the documentation, in order. */
  function Variants(test: string): (r: seq<string>)
    ensures |r| == 5 && r[0] == test && r[3] == Lower(test)
  {
    [ test,
      ReplaceAll(test, "-", "_"),
      ReplaceAll(test, "_", "-"),
      Lower(test),
      ReplaceAll(ReplaceAll(test, "-", ""), "_", "") ]
  }

  /** The first variant that has documentation. */
  function FirstDocumented(docs: Dict<string, Json>, variants: seq<string>): (r: Option<nat>)
    ensures r.Some? ==> r.value < |variants| && HasKey(docs, variants[r.value])
    ensures r.Some? ==> forall j :: 0 <= j < r.value ==> !HasKey(docs, variants[j])
    ensures r.None? ==> forall j :: 0 <= j < |variants| ==> !HasKey(docs, variants[j])
  {
    if |variants| == 0 then None
    else if HasKey(docs, variants[0]) then Some(0)
    else match FirstDocumented(docs, variants[1..]) {
      case None => None
      case Some(i) => Some(i + 1)
    }
  }

  /** The four ways a results field may name the flag. */
  function FlagPatterns(flag: string): seq<string>
  {
    ["pageFlags." + flag, "pageFlags.has" + StripHas(flag), "details." + flag, flag]
  }

  predicate MatchesAny(field: string, patterns: seq<string>)
  {
    exists i :: 0 <= i < |patterns| && (EndsWith(field, patterns[i]) || field == patterns[i])
  }

  /** The field names of a check's `resultsFields`: the keys of an object,
      or the strings of a list. */
  function FieldNames(rf: Json): seq<string>
  {
    if rf.JObj? then Keys(rf.fields) else ListStrings(Items(rf))
  }

  function ListStrings(xs: seq<Json>): seq<string>
  {
    if |xs| == 0 then []
    else (if xs[0].JStr? then [xs[0].s] else []) + ListStrings(xs[1..])
  }

  /** A documented check refers to the flag through one of its results
      fields. */
  predicate CheckMatches(check: Json, flag: string)
  {
    var names := FieldNames(Field(check, "resultsFields", JObj([])));
    exists i :: 0 <= i < |names| && MatchesAny(names[i], FlagPatterns(flag))
  }

  /** The first documented check, in list order, that refers to the flag. */
  function FirstMatch(checks: seq<Json>, flag: string): (r: Option<nat>)
    ensures r.Some? ==> r.value < |checks| && CheckMatches(checks[r.value], flag)
    ensures r.Some? ==> forall j :: 0 <= j < r.value ==> !CheckMatches(checks[j], flag)
    ensures r.None? ==> forall j :: 0 <= j < |checks| ==> !CheckMatches(checks[j], flag)
  {
    FirstWhere(checks, c => CheckMatches(c, flag))
  }

  /** The label given by one documentation object. */
  function DocLabel(doc: Json, test: string, flag: string): string
  {
    var docName := PyStr(Field(doc, "testName", JStr(FormattedName(test))));
    var checks := Items(Field(doc, "tests", JList([])));
    match FirstMatch(checks, flag)
    case Some(i) => docName + " - " + PyStr(Field(checks[i], "name", JStr(IssueType(flag))))
    case None => docName + ": " + IssueType(flag)
  }

  /** `format_issue_name(test, flag)` against the registry `docs`. */
  function FormatIssueName(docs: Dict<string, Json>, test: string, flag: string): string
  {
    match FirstDocumented(docs, Variants(test))
    case Some(i) => DocLabel(Get(docs, Variants(test)[i]).value, test, flag)
    case None => FormattedName(test) + ": " + IssueType(flag)
  }

  /** Without documentation under any variant the label is the formatted
      test name and the issue type. */
  lemma FallbackLabel(docs: Dict<string, Json>, test: string, flag: string)
    requires forall j :: 0 <= j < 5 ==> !HasKey(docs, Variants(test)[j])
    ensures FormatIssueName(docs, test, flag) == FormattedName(test) + ": " + IssueType(flag)
  {
  }

  /** The first documented variant decides the label; later variants are
      never consulted, whatever they hold. */
  lemma FirstVariantDecides(docs: Dict<string, Json>, test: string, flag: string, i: nat)
    requires i < 5 && HasKey(docs, Variants(test)[i])
    requires forall j :: 0 <= j < i ==> !HasKey(docs, Variants(test)[j])
    ensures FormatIssueName(docs, test, flag) == DocLabel(Get(docs, Variants(test)[i]).value, test, flag)
  {
    var f := FirstDocumented(docs, Variants(test));
    assert f.Some?;
  }

  lemma EndsWithTrans(s: string, p: string, q: string)
    requires EndsWith(s, p) && EndsWith(p, q)
    ensures EndsWith(s, q)
  {
    assert s[|s| - |q|..] == s[|s| - |p|..][|p| - |q|..];
  }

  lemma EndsWithConcat(p: string, q: string)
    ensures EndsWith(p + q, q)
  {
    assert (p + q)[|p|..] == q;
  }

  /** Each of the four patterns ends with the flag itself. */
  lemma PatternsEndWithFlag(flag: string, i: nat)
    requires i < 4
    ensures EndsWith(FlagPatterns(flag)[i], flag)
  {
    var ps := FlagPatterns(flag);
    if i == 0 {
      EndsWithConcat("pageFlags.", flag);
    } else if i == 1 {
      if StartsWith(flag, "has") {
        assert ps[1] == "pageFlags." + flag;
        EndsWithConcat("pageFlags.", flag);
      } else {
        EndsWithConcat("pageFlags.has", flag);
      }
    } else if i == 2 {
      EndsWithConcat("details.", flag);
    } else {
      assert flag[|flag| - |flag|..] == flag;
    }
  }

  /** Matching a results field against the four patterns is the same as
      asking whether the field ends with the flag: every pattern ends with
      the flag, and the flag itself is one of them. */
  lemma MatchIsSuffix(field: string, flag: string)
    ensures MatchesAny(field, FlagPatterns(flag)) <==> EndsWith(field, flag)
  {
    var ps := FlagPatterns(flag);
    if EndsWith(field, flag) {
      assert EndsWith(field, ps[3]);
    }
    if MatchesAny(field, ps) {
      var i :| 0 <= i < |ps| && (EndsWith(field, ps[i]) || field == ps[i]);
      PatternsEndWithFlag(flag, i);
      if field != ps[i] {
        EndsWithTrans(field, ps[i], flag);
      }
    }
  }

  /** A word as `title()` leaves it: an upper-case letter, then lower-case
      letters. */
  predicate CapitalizedWord(w: string)
  {
    |w| > 0 && IsUpperChar(w[0]) && forall j :: 1 <= j < |w| ==> IsLowerChar(w[j])
  }

  lemma {:induction false} LowerRunTitleCased(l: string, rest: string)
    requires forall j :: 0 <= j < |l| ==> IsLowerChar(l[j])
    requires TitleCased(rest, true)
    ensures TitleCased(l + rest, true)
  {
    if |l| > 0 {
      LowerRunTitleCased(l[1..], rest);
      assert (l + rest)[1..] == l[1..] + rest;
    } else {
      assert l + rest == rest;
    }
  }

  lemma WordTitleCased(w: string, rest: string)
    requires CapitalizedWord(w) && TitleCased(rest, true)
    ensures TitleCased(w + rest, false)
  {
    LowerRunTitleCased(w[1..], rest);
    assert (w + rest)[1..] == w[1..] + rest;
  }

  /** Capitalized words joined by spaces are already in title case. */
  lemma {:induction false} TitleCasedJoin(ws: seq<string>)
    requires |ws| > 0 && forall i :: 0 <= i < |ws| ==> CapitalizedWord(ws[i])
    ensures TitleCased(Join(" ", ws), false)
  {
    if |ws| == 1 {
      WordTitleCased(ws[0], "");
      assert ws[0] + "" == ws[0];
    } else {
      TitleCasedJoin(ws[1..]);
      var rest := " " + Join(" ", ws[1..]);
      assert rest[1..] == Join(" ", ws[1..]);
      assert TitleCased(rest, true);
      WordTitleCased(ws[0], rest);
      assert Join(" ", ws) == ws[0] + rest;
    }
  }

  /** A flag `has` followed by capitalized words gets those words, spaced,
      as its issue type. */
  lemma IssueTypeOfWords(ws: seq<string>)
    requires |ws| > 0 && forall i :: 0 <= i < |ws| ==> CapitalizedWord(ws[i])
    ensures IssueType("has" + Concat(ws)) == Join(" ", ws)
  {
    assert StripHas("has" + Concat(ws)) == Concat(ws) by {
      assert ("has" + Concat(ws))[..3] == "has";
      assert ("has" + Concat(ws))[3..] == Concat(ws);
    }
    CamelWordsOfConcat(ws);
    TitleCasedJoin(ws);
    TitleFixed(Join(" ", ws), false);
  }

  /** A test name with no `_` that starts with a lower-case letter and has
      no upper-case ones is shown with its first letter upper-cased. */
  lemma FormattedNameOfWord(w: string)
    requires |w| > 0 && IsLowerChar(w[0]) && '_' !in w
    requires forall j :: 0 <= j < |w| ==> !IsUpperChar(w[j])
    ensures FormattedName(w) == [ToUpperChar(w[0])] + w[1..]
  {
    NoOccurrence(w, '_');
    SplitNone(w, "_");
    assert Lower(w[1..]) == w[1..];
  }

  /** Without documentation, a one-word lower-case test name and a flag
      `has` followed by capitalized words give `Name: Words Spaced`; the forms
      test's `hasInputsWithoutLabels` gives `Forms: Inputs Without Labels`. */
  lemma FallbackOfWords(test: string, ws: seq<string>)
    requires |test| > 0 && IsLowerChar(test[0]) && '_' !in test
    requires forall j :: 0 <= j < |test| ==> !IsUpperChar(test[j])
    requires |ws| > 0 && forall i :: 0 <= i < |ws| ==> CapitalizedWord(ws[i])
    ensures FormatIssueName([], test, "has" + Concat(ws)) == [ToUpperChar(test[0])] + test[1..] + ": " + Join(" ", ws)
  {
    IssueTypeOfWords(ws);
    FormattedNameOfWord(test);
    FallbackLabel([], test, "has" + Concat(ws));
  }

  // Worked examples: the forms test and its `hasInputsWithoutLabels` flag.

  lemma ConcatThree(a: string, b: string, c: string)
    ensures Concat([a, b, c]) == a + b + c
  {
    assert [a, b, c][..2] == [a, b];
    assert [a, b][..1] == [a];
    assert [a][..0] == [];
    assert Concat([a]) == a by {
      assert "" + a == a;
    }
  }

  lemma JoinThree(sep: string, a: string, b: string, c: string)
    ensures Join(sep, [a, b, c]) == a + sep + (b + sep + c)
  {
    assert [a, b, c][1..] == [b, c];
    assert [b, c][1..] == [c];
    assert Join(sep, [c]) == c;
    assert Join(sep, [b, c]) == b + sep + c;
  }

  /** Without documentation, a one-word test name and a flag `has` followed
      by three capitalized words give `Name: A B C`. */
  lemma FallbackOfThree(test: string, a: string, b: string, c: string)
    requires |test| > 0 && IsLowerChar(test[0]) && '_' !in test
    requires forall j :: 0 <= j < |test| ==> !IsUpperChar(test[j])
    requires CapitalizedWord(a) && CapitalizedWord(b) && CapitalizedWord(c)
    ensures FormatIssueName([], test, "has" + (a + b + c))
         == [ToUpperChar(test[0])] + test[1..] + ": " + (a + " " + (b + " " + c))
  {
    var ws := [a, b, c];
    ConcatThree(a, b, c);
    JoinThree(" ", a, b, c);
    FallbackOfWords(test, ws);
  }

  lemma FormsWords()
    ensures CapitalizedWord("Inputs") && CapitalizedWord("Without") && CapitalizedWord("Labels")
  {
  }

  lemma FormsName()
    ensures IsLowerChar("forms"[0]) && '_' !in "forms"
    ensures forall j :: 0 <= j < |"forms"| ==> !IsUpperChar("forms"[j])
    ensures [ToUpperChar("forms"[0])] + "forms"[1..] == "Forms"
  {
    assert "forms"[1..] == "orms";
  }

  /** Without documentation, the forms test's `hasInputsWithoutLabels`
      gives "Forms: Inputs Without Labels". */
  lemma FormsFallback()
    ensures FormatIssueName([], "forms", "has" + ("Inputs" + "Without" + "Labels"))
         == "Forms" + ": " + ("Inputs" + " " + ("Without" + " " + "Labels"))
  {
    FormsWords();
    FormsName();
    FallbackOfThree("forms", "Inputs", "Without", "Labels");
  }

  /** A documented check with its name and three results fields (their
      descriptions left empty). */
  function Check3(name: string, f0: string, f1: string, f2: string): Json
  {
    JObj([("name", JStr(name)),
          ("resultsFields", JObj([(f0, JStr("")), (f1, JStr("")), (f2, JStr(""))]))])
  }

  /** A documentation object: its display name and its checks. */
  function DocOf(docName: string, checks: seq<Json>): Json
  {
    JObj([("testName", JStr(docName)), ("tests", JList(checks))])
  }

  lemma FieldOfPair(k0: string, v0: Json, k1: string, v1: Json, d: Json)
    requires k0 != k1
    ensures Field(JObj([(k0, v0), (k1, v1)]), k0, d) == v0
    ensures Field(JObj([(k0, v0), (k1, v1)]), k1, d) == v1
  {
    var fs := [(k0, v0), (k1, v1)];
    assert Keys(fs) == [k0, k1];
    assert fs[1..] == [(k1, v1)];
  }

  /** A check matches the flag exactly when one of its results fields ends
      with the flag. */
  lemma Check3Matches(name: string, f0: string, f1: string, f2: string, flag: string)
    ensures CheckMatches(Check3(name, f0, f1, f2), flag)
        <==> EndsWith(f0, flag) || EndsWith(f1, flag) || EndsWith(f2, flag)
  {
    var rf := JObj([(f0, JStr("")), (f1, JStr("")), (f2, JStr(""))]);
    FieldOfPair("name", JStr(name), "resultsFields", rf, JObj([]));
    var fs := rf.fields;
    assert fs[1..][1..] == [(f2, JStr(""))];
    assert fs[1..] == [(f1, JStr("")), (f2, JStr(""))];
    assert Keys(fs[1..][1..]) == [f2];
    assert Keys(fs[1..]) == [f1, f2];
    var names := FieldNames(rf);
    assert names == [f0, f1, f2];
    MatchIsSuffix(f0, flag);
    MatchIsSuffix(f1, flag);
    MatchIsSuffix(f2, flag);
    if CheckMatches(Check3(name, f0, f1, f2), flag) {
      var k :| 0 <= k < |names| && MatchesAny(names[k], FlagPatterns(flag));
      assert k == 0 || k == 1 || k == 2;
    }
    if EndsWith(f0, flag) {
      assert MatchesAny(names[0], FlagPatterns(flag));
    } else if EndsWith(f1, flag) {
      assert MatchesAny(names[1], FlagPatterns(flag));
    } else if EndsWith(f2, flag) {
      assert MatchesAny(names[2], FlagPatterns(flag));
    }
  }

  /** A matching check with no match before it is the first match. */
  lemma FirstMatchAt(checks: seq<Json>, flag: string, i: nat)
    requires i < |checks| && CheckMatches(checks[i], flag)
    requires forall j :: 0 <= j < i ==> !CheckMatches(checks[j], flag)
    ensures FirstMatch(checks, flag) == Some(i)
  {
  }

  /** The first check, in list order, that matches the flag names the
      label, after the documentation's own name. */
  lemma DocOfLabel(test: string, flag: string, docName: string, checks: seq<Json>, i: nat, name: string)
    requires i < |checks| && CheckMatches(checks[i], flag)
    requires forall j :: 0 <= j < i ==> !CheckMatches(checks[j], flag)
    requires Field(checks[i], "name", JNull) == JStr(name)
    ensures DocLabel(DocOf(docName, checks), test, flag) == docName + " - " + name
  {
    FieldOfPair("testName", JStr(docName), "tests", JList(checks), JStr(FormattedName(test)));
    FieldOfPair("testName", JStr(docName), "tests", JList(checks), JList([]));
    FirstMatchAt(checks, flag, i);
    assert Has(checks[i], "name");
  }

  /** Documentation registered under the test's own name decides the label. */
  lemma DocumentedLabel(test: string, flag: string, docName: string, checks: seq<Json>, i: nat, name: string)
    requires i < |checks| && CheckMatches(checks[i], flag)
    requires forall j :: 0 <= j < i ==> !CheckMatches(checks[j], flag)
    requires Field(checks[i], "name", JNull) == JStr(name)
    ensures FormatIssueName([(test, DocOf(docName, checks))], test, flag) == docName + " - " + name
  {
    var docs := [(test, DocOf(docName, checks))];
    assert Keys(docs) == [test];
    FirstVariantDecides(docs, test, flag, 0);
    DocOfLabel(test, flag, docName, checks, i, name);
  }

  /** A text does not end with `p` when the two differ `k` characters from
      the end. */
  lemma NotEndsAt(s: string, p: string, k: nat)
    requires 0 < k <= |p| <= |s| && s[|s| - k] != p[|p| - k]
    ensures !EndsWith(s, p)
  {
    assert s[|s| - |p|..][|p| - k] == s[|s| - k];
  }

  // The forms documentation, abridged to the check names and results fields
  // that the label reads. The literals are written in short pieces, grouped as
  // the general lemmas above group them, so that the `EndsWith` facts and the
  // final equalities need no reasoning over one long literal.

  const InputsFlag := "hasInputs" + "WithoutLabels"

  const LandmarkCheck := Check3("Form Landmark " + "Context",
                                "pageFlags." + "hasFormsOutside" + "Landmarks",
                                "pageFlags." + "details." + "formsOutside" + "Landmarks",
                                "details." + "forms[]." + "location")

  const HeadingCheck := Check3("Form Headings " + "and " + "Identification",
                               "pageFlags." + "hasFormsWithout" + "Headings",
                               "pageFlags." + "details." + "formsWithout" + "Headings",
                               "details." + "forms[]." + "heading")

  const LabelCheck := Check3("Input Field " + "Labeling",
                             "pageFlags." + InputsFlag,
                             "pageFlags." + "details." + "inputsWithout" + "Labels",
                             "details." + "forms[]." + "inputs[]." + "label")

  lemma LandmarkCheckMisses()
    ensures !CheckMatches(LandmarkCheck, InputsFlag)
  {
    Check3Matches("Form Landmark " + "Context",
                  "pageFlags." + "hasFormsOutside" + "Landmarks",
                  "pageFlags." + "details." + "formsOutside" + "Landmarks",
                  "details." + "forms[]." + "location", InputsFlag);
    NotEndsAt("pageFlags." + "hasFormsOutside" + "Landmarks", InputsFlag, 2);
    NotEndsAt("pageFlags." + "details." + "formsOutside" + "Landmarks", InputsFlag, 2);
    NotEndsAt("details." + "forms[]." + "location", InputsFlag, 1);
  }

  lemma HeadingCheckMisses()
    ensures !CheckMatches(HeadingCheck, InputsFlag)
  {
    Check3Matches("Form Headings " + "and " + "Identification",
                  "pageFlags." + "hasFormsWithout" + "Headings",
                  "pageFlags." + "details." + "formsWithout" + "Headings",
                  "details." + "forms[]." + "heading", InputsFlag);
    NotEndsAt("pageFlags." + "hasFormsWithout" + "Headings", InputsFlag, 2);
    NotEndsAt("pageFlags." + "details." + "formsWithout" + "Headings", InputsFlag, 2);
    NotEndsAt("details." + "forms[]." + "heading", InputsFlag, 1);
  }

  /** Two checks that miss the flag, then one with a results field ending
      in it: the third check names the label, whatever follows it. */
  lemma ThirdCheckLabel(test: string, flag: string, docName: string, c0: Json, c1: Json,
                        name: string, f0: string, f1: string, f2: string, rest: seq<Json>)
    requires !CheckMatches(c0, flag) && !CheckMatches(c1, flag)
    requires EndsWith(f0, flag)
    ensures FormatIssueName([(test, DocOf(docName, [c0, c1, Check3(name, f0, f1, f2)] + rest))], test, flag)
         == docName + " - " + name
  {
    var c2 := Check3(name, f0, f1, f2);
    var checks := [c0, c1, c2] + rest;
    Check3Matches(name, f0, f1, f2, flag);
    assert checks[0] == c0 && checks[1] == c1 && checks[2] == c2;
    FieldOfPair("name", JStr(name), "resultsFields",
                JObj([(f0, JStr("")), (f1, JStr("")), (f2, JStr(""))]), JNull);
    DocumentedLabel(test, flag, docName, checks, 2, name);
  }

  /** With the forms documentation registered under `forms`, the flag
      `hasInputsWithoutLabels` is labelled by its third check, the first
      whose results fields name it; the checks after it are never read. */
  lemma FormsDocumented(rest: seq<Json>)
    ensures FormatIssueName([("forms", DocOf("Form Accessibility " + "Analysis",
                                             [LandmarkCheck, HeadingCheck, LabelCheck] + rest))],
                            "forms", InputsFlag)
         == "Form Accessibility " + "Analysis" + " - " + "Input Field " + "Labeling"
  {
    LandmarkCheckMisses();
    HeadingCheckMisses();
    EndsWithConcat("pageFlags.", InputsFlag);
    ThirdCheckLabel("forms", InputsFlag, "Form Accessibility " + "Analysis", LandmarkCheck, HeadingCheck,
                    "Input Field " + "Labeling", "pageFlags." + InputsFlag,
                    "pageFlags." + "details." + "inputsWithout" + "Labels",
                    "details." + "forms[]." + "inputs[]." + "label", rest);
  }
}
