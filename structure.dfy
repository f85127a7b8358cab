/** The structure recorder: for every test type, the set of dotted paths that
    occur in its result objects, each tagged with the Python type name of the
    value found there, plus the first result object seen as an example. */
module StructureRecorder {
  import opened Dicts
  import opened Strs
  import opened JsonValue

  /** The entry recorded for a key whose value is `v`. */
  function Entry(path: string, v: Json): string
  {
    path + " (" + TypeName(v) + ")"
  }

  /** The entries recorded below `path` for `data`: one per key of every
      object reached, descending into objects and, for a non-empty list
      whose first element is an object, into that element under `path[]`. */
  function Structure(data: Json, path: string): set<string>
    decreases data
  {
    match data
    case JObj(fs) => FieldsStructure(fs, path)
    case JList(xs) =>
      if |xs| > 0 && xs[0].JObj? then Structure(xs[0], path + "[]") else {}
    case _ => {}
  }

  function FieldsStructure(fs: Dict<string, Json>, path: string): set<string>
    decreases fs
  {
    if |fs| == 0 then {}
    else
      var (k, v) := fs[|fs| - 1];
      assert v < JObj(fs);
      FieldsStructure(fs[..|fs| - 1], path)
        + {Entry(ChildPath(path, k), v)}
        + Structure(v, ChildPath(path, k))
  }

  lemma FieldsStructureSnoc(fs: Dict<string, Json>, i: nat, path: string)
    requires i < |fs|
    ensures FieldsStructure(fs[..i + 1], path)
      == FieldsStructure(fs[..i], path)
         + {Entry(ChildPath(path, fs[i].0), fs[i].1)}
         + Structure(fs[i].1, ChildPath(path, fs[i].0))
  {
    assert fs[..i + 1][..i] == fs[..i];
  }

  /** Below a non-empty path, every entry starts with that path. */
  lemma {:induction false} StructureUnderPath(data: Json, path: string, e: string)
    requires |path| > 0 && e in Structure(data, path)
    ensures StartsWith(e, path)
    decreases data
  {
    match data
    case JObj(fs) =>
      FieldsUnderPath(fs, path, e);
    case JList(xs) =>
      StructureUnderPath(xs[0], path + "[]", e);
      PrefixOfPrefix(e, path, "[]");
  }

  lemma {:induction false} FieldsUnderPath(fs: Dict<string, Json>, path: string, e: string)
    requires |path| > 0 && e in FieldsStructure(fs, path)
    ensures StartsWith(e, path)
    decreases fs
  {
    var (k, v) := fs[|fs| - 1];
    assert v < JObj(fs);
    var child := ChildPath(path, k);
    assert child == path + ("." + k);
    if e in FieldsStructure(fs[..|fs| - 1], path) {
      FieldsUnderPath(fs[..|fs| - 1], path, e);
    } else if e == Entry(child, v) {
      PrefixOfConcat(child, " (" + TypeName(v) + ")");
      PrefixOfPrefix(e, path, "." + k);
    } else {
      StructureUnderPath(v, child, e);
      PrefixOfPrefix(e, path, "." + k);
    }
  }

  lemma PrefixOfConcat(a: string, b: string)
    ensures StartsWith(a + b, a)
  {
    assert (a + b)[..|a|] == a;
  }

  lemma PrefixOfPrefix(e: string, a: string, b: string)
    requires StartsWith(e, a + b)
    ensures StartsWith(e, a)
  {
    assert e[..|a|] == (a + b)[..|a|];
  }

  /** Each key `k` of a top-level object contributes `"k (<type>)"`. */
  lemma {:induction false} TopLevelEntries(fs: Dict<string, Json>, i: nat)
    requires i < |fs|
    ensures Entry(fs[i].0, fs[i].1) in Structure(JObj(fs), "")
    decreases |fs|
  {
    if i < |fs| - 1 {
      TopLevelEntries(fs[..|fs| - 1], i);
    }
  }

  /** A scalar records nothing; nor does a list unless its first element is
      an object. */
  lemma LeafRecordsNothing(data: Json, path: string)
    requires !data.JObj? && !(data.JList? && |data.items| > 0 && data.items[0].JObj?)
    ensures Structure(data, path) == {}
  {
  }

  /** The test objects of one page result: `result["results"]["accessibility"]
      .get("tests", {})`, or nothing when the page has no accessibility
      results. */
  function PageTests(result: Json): Dict<string, Json>
  {
    if Has(result, "results") && Has(Sub(result, "results"), "accessibility") then
      Fields(Sub(Sub(Sub(result, "results"), "accessibility"), "tests"))
    else []
  }

  class TemplateAnalyzer {
    /** Test name to the entries recorded for it (a `defaultdict(set)`). */
    var structures: map<string, set<string>>
    /** Test name to the first result object seen for it. */
    var examples: map<string, Json>

    constructor ()
      ensures structures == map[] && examples == map[]
    {
      structures := map[];
      examples := map[];
    }

    /** Adds the entries for `data` below `path` to `acc`. */
    method RecordStructure(acc: set<string>, data: Json, path: string) returns (r: set<string>)
      ensures r == acc + Structure(data, path)
      decreases data
    {
      r := acc;
      match data {
        case JObj(fs) =>
          var i := 0;
          while i < |fs|
            invariant 0 <= i <= |fs|
            invariant r == acc + FieldsStructure(fs[..i], path)
          {
            var (k, v) := fs[i];
            FieldsStructureSnoc(fs, i, path);
            var child := ChildPath(path, k);
            r := r + {Entry(child, v)};
            assert v < data;
            r := RecordStructure(r, v, child);
            i := i + 1;
          }
          assert fs[..|fs|] == fs;
        case JList(xs) =>
          if |xs| > 0 && xs[0].JObj? {
            r := RecordStructure(r, xs[0], path + "[]");
          }
        case _ =>
      }
    }

    /** Records the structure of every object-valued test of every page, and
        keeps the first example of each test. */
    method AnalyzeTestStructures(results: seq<Json>)
      modifies this
      ensures structures == Analyzed(old(structures), results)
      ensures examples == FirstExamples(old(examples), results)
    {
      var p := 0;
      while p < |results|
        invariant 0 <= p <= |results|
        invariant structures == Analyzed(old(structures), results[..p])
        invariant examples == FirstExamples(old(examples), results[..p])
      {
        assert results[..p + 1][..p] == results[..p];
        AnalyzePage(PageTests(results[p]));
        p := p + 1;
      }
      assert results[..|results|] == results;
    }

    /** The body of the loop over the tests of one page. */
    method AnalyzePage(tests: Dict<string, Json>)
      modifies this
      ensures structures == AnalyzeTests(old(structures), tests)
      ensures examples == ExampleTests(old(examples), tests)
    {
      var t := 0;
      while t < |tests|
        invariant 0 <= t <= |tests|
        invariant structures == AnalyzeTests(old(structures), tests[..t])
        invariant examples == ExampleTests(old(examples), tests[..t])
      {
        assert tests[..t + 1][..t] == tests[..t];
        var (name, data) := tests[t];
        if data.JObj? {
          var before := if name in structures then structures[name] else {};
          var after := RecordStructure(before, data, "");
          structures := structures[name := after];
          if name !in examples {
            examples := examples[name := data];
          }
        }
        t := t + 1;
      }
      assert tests[..|tests|] == tests;
    }
  }

  /** `structures` after recording one test object. */
  function RecordTest(structures: map<string, set<string>>, name: string, data: Json): map<string, set<string>>
  {
    if data.JObj? then
      structures[name := (if name in structures then structures[name] else {}) + Structure(data, "")]
    else structures
  }

  function AnalyzeTests(structures: map<string, set<string>>, tests: Dict<string, Json>): map<string, set<string>>
  {
    if |tests| == 0 then structures
    else RecordTest(AnalyzeTests(structures, tests[..|tests| - 1]), tests[|tests| - 1].0, tests[|tests| - 1].1)
  }

  function Analyzed(structures: map<string, set<string>>, results: seq<Json>): map<string, set<string>>
  {
    if |results| == 0 then structures
    else AnalyzeTests(Analyzed(structures, results[..|results| - 1]), PageTests(results[|results| - 1]))
  }

  function ExampleTest(examples: map<string, Json>, name: string, data: Json): map<string, Json>
  {
    if data.JObj? && name !in examples then examples[name := data] else examples
  }

  function ExampleTests(examples: map<string, Json>, tests: Dict<string, Json>): map<string, Json>
  {
    if |tests| == 0 then examples
    else ExampleTest(ExampleTests(examples, tests[..|tests| - 1]), tests[|tests| - 1].0, tests[|tests| - 1].1)
  }

  function FirstExamples(examples: map<string, Json>, results: seq<Json>): map<string, Json>
  {
    if |results| == 0 then examples
    else ExampleTests(FirstExamples(examples, results[..|results| - 1]), PageTests(results[|results| - 1]))
  }

  /** Recording only adds entries: every entry recorded before is still
      there. */
  lemma {:induction false} AnalyzedGrows(structures: map<string, set<string>>, results: seq<Json>, name: string)
    requires name in structures
    ensures name in Analyzed(structures, results)
    ensures structures[name] <= Analyzed(structures, results)[name]
  {
    if |results| > 0 {
      AnalyzedGrows(structures, results[..|results| - 1], name);
      AnalyzeTestsGrows(Analyzed(structures, results[..|results| - 1]), PageTests(results[|results| - 1]), name);
    }
  }

  lemma {:induction false} AnalyzeTestsGrows(structures: map<string, set<string>>, tests: Dict<string, Json>, name: string)
    requires name in structures
    ensures name in AnalyzeTests(structures, tests)
    ensures structures[name] <= AnalyzeTests(structures, tests)[name]
  {
    if |tests| > 0 {
      AnalyzeTestsGrows(structures, tests[..|tests| - 1], name);
    }
  }

  /** An example, once stored, is never replaced. */
  lemma {:induction false} FirstExampleKept(examples: map<string, Json>, results: seq<Json>, name: string)
    requires name in examples
    ensures name in FirstExamples(examples, results)
    ensures FirstExamples(examples, results)[name] == examples[name]
  {
    if |results| > 0 {
      FirstExampleKept(examples, results[..|results| - 1], name);
      ExampleTestsKept(FirstExamples(examples, results[..|results| - 1]), PageTests(results[|results| - 1]), name);
    }
  }

  lemma {:induction false} ExampleTestsKept(examples: map<string, Json>, tests: Dict<string, Json>, name: string)
    requires name in examples
    ensures name in ExampleTests(examples, tests)
    ensures ExampleTests(examples, tests)[name] == examples[name]
  {
    if |tests| > 0 {
      ExampleTestsKept(examples, tests[..|tests| - 1], name);
    }
  }

  /** Every test that has an example also has a structure entry, and the
      stored example is an object. */
  lemma {:induction false} ExamplesHaveStructures(structures: map<string, set<string>>, examples: map<string, Json>,
                                                  results: seq<Json>, name: string)
    requires forall n :: n in examples ==> n in structures && examples[n].JObj?
    requires name in FirstExamples(examples, results)
    ensures name in Analyzed(structures, results)
    ensures FirstExamples(examples, results)[name].JObj?
  {
    if |results| > 0 {
      var prevS := Analyzed(structures, results[..|results| - 1]);
      var prevE := FirstExamples(examples, results[..|results| - 1]);
      var tests := PageTests(results[|results| - 1]);
      if name in prevE {
        ExamplesHaveStructures(structures, examples, results[..|results| - 1], name);
        AnalyzeTestsGrows(prevS, tests, name);
        ExampleTestsKept(prevE, tests, name);
      } else {
        ExampleTestsOrigin(prevS, prevE, tests, name);
      }
    }
  }

  lemma {:induction false} ExampleTestsOrigin(structures: map<string, set<string>>, examples: map<string, Json>,
                                              tests: Dict<string, Json>, name: string)
    requires name !in examples && name in ExampleTests(examples, tests)
    ensures name in AnalyzeTests(structures, tests)
    ensures ExampleTests(examples, tests)[name].JObj?
  {
    var prevS := AnalyzeTests(structures, tests[..|tests| - 1]);
    var prevE := ExampleTests(examples, tests[..|tests| - 1]);
    if name in prevE {
      ExampleTestsOrigin(structures, examples, tests[..|tests| - 1], name);
    }
  }
}
