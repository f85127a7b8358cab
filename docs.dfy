/** The documentation registry of the report generator: test name to the
    documentation object of that test, gathered from test-run documents and
    page results (`collect_test_documentation`) and from the loading pass
    that precedes it, which also registers lower-cased name variants. */
module DocRegistry {
  import opened Dicts
  import opened Strs
  import opened JsonValue
  import opened StructureRecorder

  type Docs = Dict<string, Json>

  /** Every key of `d` keeps its documentation in `d'`. */
  ghost predicate Extends(d: Docs, d': Docs)
  {
    forall k :: HasKey(d, k) ==> Get(d', k) == Get(d, k)
  }

  lemma ExtendsTrans(a: Docs, b: Docs, c: Docs)
    requires Extends(a, b) && Extends(b, c)
    ensures Extends(a, c)
  {
    forall k | HasKey(a, k)
      ensures Get(c, k) == Get(a, k)
    {
      assert Get(b, k).Some?;
    }
  }

  /** A write guarded by "key absent". */
  function Register(docs: Docs, name: string, doc: Json): (r: Docs)
    ensures HasKey(r, name)
    ensures HasKey(docs, name) ==> r == docs
    ensures !HasKey(docs, name) ==> r == docs + [(name, doc)] && Get(r, name) == Some(doc)
  {
    if HasKey(docs, name) then docs else Put(docs, name, doc)
  }

  lemma RegisterExtends(docs: Docs, name: string, doc: Json)
    ensures Extends(docs, Register(docs, name, doc))
    ensures UniqueKeys(docs) ==> UniqueKeys(Register(docs, name, doc))
  {
    forall k | HasKey(docs, k)
      ensures Get(Register(docs, name, doc), k) == Get(docs, k)
    {
      if k != name {
        PutOther(docs, name, doc, k);
      }
    }
    if UniqueKeys(docs) {
      PutUnique(docs, name, doc);
    }
  }

  // Phase A: the test-run documents.

  /** The entries of a run's `documentation` object, in order. */
  function RunDocEntries(docs: Docs, entries: Dict<string, Json>): Docs
  {
    if |entries| == 0 then docs
    else
      var (name, doc) := entries[|entries| - 1];
      Register(RunDocEntries(docs, entries[..|entries| - 1]), name, doc)
  }

  /** One entry of a run's `tests` object: an object with a `documentation`
      key contributes that documentation. */
  function RunTestEntry(docs: Docs, name: string, data: Json): Docs
  {
    if data.JObj? && Has(data, "documentation") then Register(docs, name, Field(data, "documentation", JNull))
    else docs
  }

  function RunTestEntries(docs: Docs, tests: Dict<string, Json>): Docs
  {
    if |tests| == 0 then docs
    else RunTestEntry(RunTestEntries(docs, tests[..|tests| - 1]), tests[|tests| - 1].0, tests[|tests| - 1].1)
  }

  /** One test run: its `documentation` object, then its `tests` object. A
      `tests` value that is not an object raises, which ends the whole
      test-run phase (the second component is false). */
  function RunStep(docs: Docs, run: Json): (Docs, bool)
  {
    var docField := Field(run, "documentation", JNull);
    var d1 := if Has(run, "documentation") && docField.JObj? then RunDocEntries(docs, docField.fields) else docs;
    if !Has(run, "tests") then (d1, true)
    else
      var tests := Field(run, "tests", JNull);
      if tests.JObj? then (RunTestEntries(d1, tests.fields), true) else (d1, false)
  }

  /** The test-run phase; the flag says whether it ran to the end. */
  function PhaseA(docs: Docs, runs: seq<Json>): (Docs, bool)
  {
    if |runs| == 0 then (docs, true)
    else
      var prev := PhaseA(docs, runs[..|runs| - 1]);
      if prev.1 then RunStep(prev.0, runs[|runs| - 1]) else prev
  }

  // Phase B: documentation stored with the page results.

  /** A test object holding `documentation` directly, or under a key equal
      to the test name. */
  function StepB(docs: Docs, name: string, data: Json): Docs
  {
    if !data.JObj? then docs
    else if Has(data, "documentation") then Register(docs, name, Field(data, "documentation", JNull))
    else if Has(data, name) && Has(Sub(data, name), "documentation") then
      Register(docs, name, Field(Sub(data, name), "documentation", JNull))
    else docs
  }

  function PageB(docs: Docs, tests: Dict<string, Json>): Docs
  {
    if |tests| == 0 then docs
    else StepB(PageB(docs, tests[..|tests| - 1]), tests[|tests| - 1].0, tests[|tests| - 1].1)
  }

  function PhaseB(docs: Docs, results: seq<Json>): Docs
  {
    if |results| == 0 then docs
    else PageB(PhaseB(docs, results[..|results| - 1]), PageTests(results[|results| - 1]))
  }

  // Phase C: the scan with several strategies, for names still missing.

  /** The fixed map from test name to output field; every listed name maps
      to itself. */
  const TestOutputFields: Dict<string, string> :=
    [ ("images", "images"), ("tables", "tables"), ("headings", "headings"),
      ("focus_management", "focus_management"), ("page_structure", "page_structure"),
      ("accessible_names", "accessible_names"), ("landmarks", "landmarks"),
      ("forms", "forms"), ("colors", "colors"), ("html_structure", "html_structure"),
      ("animations", "animations"), ("videos", "videos") ]

  /** An object value with a `documentation` key. */
  predicate Documented(v: Json)
  {
    v.JObj? && Has(v, "documentation")
  }

  /** The first field, in order, whose value is a documented object. */
  function FirstDocField(fs: Dict<string, Json>): (r: Option<nat>)
    ensures r.Some? ==> r.value < |fs| && Documented(fs[r.value].1)
    ensures r.Some? ==> forall j :: 0 <= j < r.value ==> !Documented(fs[j].1)
    ensures r.None? ==> forall j :: 0 <= j < |fs| ==> !Documented(fs[j].1)
  {
    if |fs| == 0 then None
    else if Documented(fs[0].1) then Some(0)
    else match FirstDocField(fs[1..]) {
      case None => None
      case Some(i) => Some(i + 1)
    }
  }

  /** The four strategies, tried in order, for a name not yet registered. */
  function StepC(docs: Docs, name: string, data: Json): Docs
  {
    var outputField := GetOr(TestOutputFields, name, name);
    if HasKey(docs, name) then docs
    else if Documented(data) then Put(docs, name, Field(data, "documentation", JNull))
    else if data.JObj? && Has(data, outputField) && Documented(Sub(data, outputField)) then
      Put(docs, name, Field(Sub(data, outputField), "documentation", JNull))
    else if Contains(name, "_") && data.JObj? && Has(data, name) && Documented(Sub(data, name)) then
      Put(docs, name, Field(Sub(data, name), "documentation", JNull))
    else match FirstDocField(Fields(data)) {
      case Some(i) => Put(docs, name, Field(Fields(data)[i].1, "documentation", JNull))
      case None => docs
    }
  }

  function PageC(docs: Docs, tests: Dict<string, Json>): Docs
  {
    if |tests| == 0 then docs
    else StepC(PageC(docs, tests[..|tests| - 1]), tests[|tests| - 1].0, tests[|tests| - 1].1)
  }

  function PhaseC(docs: Docs, results: seq<Json>): Docs
  {
    if |results| == 0 then docs
    else PageC(PhaseC(docs, results[..|results| - 1]), PageTests(results[|results| - 1]))
  }

  lemma PhaseCSnoc(docs: Docs, results: seq<Json>, p: nat)
    requires p < |results|
    ensures PhaseC(docs, results[..p + 1]) == PageC(PhaseC(docs, results[..p]), PageTests(results[p]))
  {
    assert results[..p + 1][..p] == results[..p];
  }

  // Phase C as written.

  /** One test of the scan as the code is written: strategy 3 evaluates
      `test_name in test_data` and strategy 4 calls `test_data.items()`, so
      a test value that is not an object and whose name is not registered
      yet makes one of them raise instead of being skipped. `None` is that
      failure, which ends the report. */
  function StepCAsWritten(docs: Docs, name: string, data: Json): Option<Docs>
  {
    if !HasKey(docs, name) && !data.JObj? then None else Some(StepC(docs, name, data))
  }

  function PageCAsWritten(docs: Docs, tests: Dict<string, Json>): Option<Docs>
  {
    if |tests| == 0 then Some(docs)
    else match PageCAsWritten(docs, tests[..|tests| - 1]) {
      case None => None
      case Some(prev) => StepCAsWritten(prev, tests[|tests| - 1].0, tests[|tests| - 1].1)
    }
  }

  function PhaseCAsWritten(docs: Docs, results: seq<Json>): Option<Docs>
  {
    if |results| == 0 then Some(docs)
    else match PhaseCAsWritten(docs, results[..|results| - 1]) {
      case None => None
      case Some(prev) => PageCAsWritten(prev, PageTests(results[|results| - 1]))
    }
  }

  /** Where the code as written finishes, it registers what the guarded
      scan registers. */
  lemma {:induction false} PageCAsWrittenAgrees(docs: Docs, tests: Dict<string, Json>)
    ensures PageCAsWritten(docs, tests).Some? ==> PageCAsWritten(docs, tests).value == PageC(docs, tests)
  {
    if |tests| > 0 {
      PageCAsWrittenAgrees(docs, tests[..|tests| - 1]);
    }
  }

  lemma {:induction false} PhaseCAsWrittenAgrees(docs: Docs, results: seq<Json>)
    ensures PhaseCAsWritten(docs, results).Some? ==> PhaseCAsWritten(docs, results).value == PhaseC(docs, results)
  {
    if |results| > 0 {
      PhaseCAsWrittenAgrees(docs, results[..|results| - 1]);
      match PhaseCAsWritten(docs, results[..|results| - 1]) {
        case None =>
        case Some(prev) => PageCAsWrittenAgrees(prev, PageTests(results[|results| - 1]));
      }
    }
  }

  /** A page whose one test result is the number 1, with nothing registered:
      the code as written raises, while the guarded scan skips the test. */
  lemma ScanOfNumberTest(page: Json)
    requires page == JObj([("results", JObj([("accessibility", JObj([("tests", JObj([("x", JInt(1))]))]))]))])
    ensures PhaseCAsWritten([], [page]).None?
    ensures PhaseC([], [page]) == []
  {
    var acc := JObj([("tests", JObj([("x", JInt(1))]))]);
    assert Sub(page, "results") == JObj([("accessibility", acc)]);
    assert Sub(Sub(page, "results"), "accessibility") == acc;
    assert PageTests(page) == [("x", JInt(1))];
    assert [page][..0] == [];
  }

  /** `collect_test_documentation`: the three phases in order. */
  function Collected(docs: Docs, runs: seq<Json>, results: seq<Json>): Docs
  {
    PhaseC(PhaseB(PhaseA(docs, runs).0, results), results)
  }

  /** The output-field map never renames: strategy 2 looks under the test
      name itself. */
  lemma OutputFieldIsName(name: string)
    ensures GetOr(TestOutputFields, name, name) == name
  {
    GetOrIdentity(TestOutputFields, name);
  }

  lemma {:induction false} GetOrIdentity(fs: Dict<string, string>, k: string)
    requires forall i :: 0 <= i < |fs| ==> fs[i].0 == fs[i].1
    ensures GetOr(fs, k, k) == k
  {
    if |fs| > 0 && fs[0].0 != k {
      GetOrIdentity(fs[1..], k);
    }
  }

  // Never overwriting.

  lemma {:induction false} RunDocEntriesExtends(docs: Docs, entries: Dict<string, Json>)
    ensures Extends(docs, RunDocEntries(docs, entries))
    ensures UniqueKeys(docs) ==> UniqueKeys(RunDocEntries(docs, entries))
  {
    if |entries| > 0 {
      var prev := RunDocEntries(docs, entries[..|entries| - 1]);
      RunDocEntriesExtends(docs, entries[..|entries| - 1]);
      RegisterExtends(prev, entries[|entries| - 1].0, entries[|entries| - 1].1);
      ExtendsTrans(docs, prev, RunDocEntries(docs, entries));
    }
  }

  lemma {:induction false} RunTestEntriesExtends(docs: Docs, tests: Dict<string, Json>)
    ensures Extends(docs, RunTestEntries(docs, tests))
    ensures UniqueKeys(docs) ==> UniqueKeys(RunTestEntries(docs, tests))
  {
    if |tests| > 0 {
      var prev := RunTestEntries(docs, tests[..|tests| - 1]);
      RunTestEntriesExtends(docs, tests[..|tests| - 1]);
      var (name, data) := tests[|tests| - 1];
      RegisterExtends(prev, name, Field(data, "documentation", JNull));
      ExtendsTrans(docs, prev, RunTestEntries(docs, tests));
    }
  }

  lemma RunStepExtends(docs: Docs, run: Json)
    ensures Extends(docs, RunStep(docs, run).0)
    ensures UniqueKeys(docs) ==> UniqueKeys(RunStep(docs, run).0)
  {
    var docField := Field(run, "documentation", JNull);
    var d1 := if Has(run, "documentation") && docField.JObj? then RunDocEntries(docs, docField.fields) else docs;
    if docField.JObj? {
      RunDocEntriesExtends(docs, docField.fields);
    }
    var tests := Field(run, "tests", JNull);
    if Has(run, "tests") && tests.JObj? {
      RunTestEntriesExtends(d1, tests.fields);
      ExtendsTrans(docs, d1, RunStep(docs, run).0);
    }
  }

  lemma {:induction false} PhaseAExtends(docs: Docs, runs: seq<Json>)
    ensures Extends(docs, PhaseA(docs, runs).0)
    ensures UniqueKeys(docs) ==> UniqueKeys(PhaseA(docs, runs).0)
  {
    if |runs| > 0 {
      var prev := PhaseA(docs, runs[..|runs| - 1]);
      PhaseAExtends(docs, runs[..|runs| - 1]);
      if prev.1 {
        RunStepExtends(prev.0, runs[|runs| - 1]);
        ExtendsTrans(docs, prev.0, PhaseA(docs, runs).0);
      }
    }
  }

  lemma StepBExtends(docs: Docs, name: string, data: Json)
    ensures Extends(docs, StepB(docs, name, data))
    ensures UniqueKeys(docs) ==> UniqueKeys(StepB(docs, name, data))
  {
    RegisterExtends(docs, name, Field(data, "documentation", JNull));
    RegisterExtends(docs, name, Field(Sub(data, name), "documentation", JNull));
  }

  lemma {:induction false} PageBExtends(docs: Docs, tests: Dict<string, Json>)
    ensures Extends(docs, PageB(docs, tests))
    ensures UniqueKeys(docs) ==> UniqueKeys(PageB(docs, tests))
  {
    if |tests| > 0 {
      var prev := PageB(docs, tests[..|tests| - 1]);
      PageBExtends(docs, tests[..|tests| - 1]);
      StepBExtends(prev, tests[|tests| - 1].0, tests[|tests| - 1].1);
      ExtendsTrans(docs, prev, PageB(docs, tests));
    }
  }

  lemma {:induction false} PhaseBExtends(docs: Docs, results: seq<Json>)
    ensures Extends(docs, PhaseB(docs, results))
    ensures UniqueKeys(docs) ==> UniqueKeys(PhaseB(docs, results))
  {
    if |results| > 0 {
      var prev := PhaseB(docs, results[..|results| - 1]);
      PhaseBExtends(docs, results[..|results| - 1]);
      PageBExtends(prev, PageTests(results[|results| - 1]));
      ExtendsTrans(docs, prev, PhaseB(docs, results));
    }
  }

  lemma StepCExtends(docs: Docs, name: string, data: Json)
    ensures Extends(docs, StepC(docs, name, data))
    ensures UniqueKeys(docs) ==> UniqueKeys(StepC(docs, name, data))
  {
    var r := StepC(docs, name, data);
    if !HasKey(docs, name) {
      assert r == docs || exists doc :: r == Put(docs, name, doc);
      if r != docs {
        var doc :| r == Put(docs, name, doc);
        assert r == Register(docs, name, doc);
        RegisterExtends(docs, name, doc);
      }
    }
  }

  lemma {:induction false} PageCExtends(docs: Docs, tests: Dict<string, Json>)
    ensures Extends(docs, PageC(docs, tests))
    ensures UniqueKeys(docs) ==> UniqueKeys(PageC(docs, tests))
  {
    if |tests| > 0 {
      var prev := PageC(docs, tests[..|tests| - 1]);
      PageCExtends(docs, tests[..|tests| - 1]);
      StepCExtends(prev, tests[|tests| - 1].0, tests[|tests| - 1].1);
      ExtendsTrans(docs, prev, PageC(docs, tests));
    }
  }

  lemma {:induction false} PhaseCExtends(docs: Docs, results: seq<Json>)
    ensures Extends(docs, PhaseC(docs, results))
    ensures UniqueKeys(docs) ==> UniqueKeys(PhaseC(docs, results))
  {
    if |results| > 0 {
      var prev := PhaseC(docs, results[..|results| - 1]);
      PhaseCExtends(docs, results[..|results| - 1]);
      PageCExtends(prev, PageTests(results[|results| - 1]));
      ExtendsTrans(docs, prev, PhaseC(docs, results));
    }
  }

  /** Collecting never replaces documentation already registered, and the
      registry keeps one entry per name. */
  lemma CollectedExtends(docs: Docs, runs: seq<Json>, results: seq<Json>)
    ensures Extends(docs, Collected(docs, runs, results))
    ensures UniqueKeys(docs) ==> UniqueKeys(Collected(docs, runs, results))
  {
    var a := PhaseA(docs, runs).0;
    var b := PhaseB(a, results);
    PhaseAExtends(docs, runs);
    PhaseBExtends(a, results);
    PhaseCExtends(b, results);
    ExtendsTrans(docs, a, b);
    ExtendsTrans(docs, b, Collected(docs, runs, results));
  }

  // Every test result that carries documentation directly gets registered.

  lemma {:induction false} PageBRegisters(docs: Docs, tests: Dict<string, Json>, i: nat)
    requires i < |tests| && Documented(tests[i].1)
    ensures HasKey(PageB(docs, tests), tests[i].0)
  {
    var init := tests[..|tests| - 1];
    var prev := PageB(docs, init);
    StepBExtends(prev, tests[|tests| - 1].0, tests[|tests| - 1].1);
    if i < |tests| - 1 {
      assert init[i] == tests[i];
      PageBRegisters(docs, init, i);
      assert Get(prev, tests[i].0).Some?;
    }
  }

  lemma {:induction false} PhaseBRegisters(docs: Docs, results: seq<Json>, p: nat, i: nat)
    requires p < |results| && i < |PageTests(results[p])| && Documented(PageTests(results[p])[i].1)
    ensures HasKey(PhaseB(docs, results), PageTests(results[p])[i].0)
  {
    var init := results[..|results| - 1];
    var prev := PhaseB(docs, init);
    var name := PageTests(results[p])[i].0;
    PageBExtends(prev, PageTests(results[|results| - 1]));
    if p < |results| - 1 {
      assert init[p] == results[p];
      PhaseBRegisters(docs, init, p, i);
      assert Get(prev, name).Some?;
    } else {
      PageBRegisters(prev, PageTests(results[p]), i);
    }
  }

  /** After collection, every test of every page result whose object holds
      `documentation` has documentation registered under its name. */
  lemma CollectedRegisters(docs: Docs, runs: seq<Json>, results: seq<Json>, p: nat, i: nat)
    requires p < |results| && i < |PageTests(results[p])| && Documented(PageTests(results[p])[i].1)
    ensures HasKey(Collected(docs, runs, results), PageTests(results[p])[i].0)
  {
    var b := PhaseB(PhaseA(docs, runs).0, results);
    PhaseBRegisters(PhaseA(docs, runs).0, results, p, i);
    PhaseCExtends(b, results);
    assert Get(b, PageTests(results[p])[i].0).Some?;
  }

  // The loading pass that runs before collection.

  /** The keys tried for a documented name, best first. */
  function LoadKeys(name: string): (r: seq<string>)
    ensures |r| == 3 && r[0] == Lower(name)
  {
    [Lower(name), Lower(ReplaceAll(name, "-", "_")), Lower(ReplaceAll(name, "_", "-"))]
  }

  /** The first key that is not yet registered. */
  function FirstAbsent(docs: Docs, keys: seq<string>): (r: Option<nat>)
    ensures r.Some? ==> r.value < |keys| && !HasKey(docs, keys[r.value])
    ensures r.Some? ==> forall j :: 0 <= j < r.value ==> HasKey(docs, keys[j])
    ensures r.None? ==> forall j :: 0 <= j < |keys| ==> HasKey(docs, keys[j])
  {
    if |keys| == 0 then None
    else if !HasKey(docs, keys[0]) then Some(0)
    else match FirstAbsent(docs, keys[1..]) {
      case None => None
      case Some(i) => Some(i + 1)
    }
  }

  /** One entry of a run's `documentation`: stored under the first free
      key, and then also under the lower-cased name, overwriting it, when
      that free key was a different one. */
  function LoadEntry(docs: Docs, name: string, doc: Json): Docs
  {
    var keys := LoadKeys(name);
    match FirstAbsent(docs, keys)
    case None => docs
    case Some(i) =>
      var d := Put(docs, keys[i], doc);
      if keys[i] != Lower(name) then Put(d, Lower(name), doc) else d
  }

  function LoadEntries(docs: Docs, entries: Dict<string, Json>): Docs
  {
    if |entries| == 0 then docs
    else
      var (name, doc) := entries[|entries| - 1];
      LoadEntry(LoadEntries(docs, entries[..|entries| - 1]), name, doc)
  }

  /** One entry of a run's `tests`: documentation found inline is stored
      under the lower-cased name, overwriting. */
  function LoadInlineEntry(docs: Docs, name: string, data: Json): Docs
  {
    if Documented(data) then Put(docs, Lower(name), Field(data, "documentation", JNull)) else docs
  }

  function LoadInline(docs: Docs, tests: Dict<string, Json>): Docs
  {
    if |tests| == 0 then docs
    else LoadInlineEntry(LoadInline(docs, tests[..|tests| - 1]), tests[|tests| - 1].0, tests[|tests| - 1].1)
  }

  lemma LoadEntriesSnoc(docs: Docs, entries: Dict<string, Json>, j: nat)
    requires j < |entries|
    ensures LoadEntries(docs, entries[..j + 1]) == LoadEntry(LoadEntries(docs, entries[..j]), entries[j].0, entries[j].1)
  {
    assert entries[..j + 1][..j] == entries[..j];
  }

  lemma LoadInlineSnoc(docs: Docs, tests: Dict<string, Json>, j: nat)
    requires j < |tests|
    ensures LoadInline(docs, tests[..j + 1]) == LoadInlineEntry(LoadInline(docs, tests[..j]), tests[j].0, tests[j].1)
  {
    assert tests[..j + 1][..j] == tests[..j];
  }

  /** One run of the loading pass; a `documentation` or `tests` value that
      is not an object raises, which ends the pass (second component false). */
  function LoadRun(docs: Docs, run: Json): (Docs, bool)
  {
    var docField := Field(run, "documentation", JNull);
    var tests := Field(run, "tests", JNull);
    if Has(run, "documentation") && !docField.JObj? then (docs, false)
    else
      var d1 := if Has(run, "documentation") then LoadEntries(docs, docField.fields) else docs;
      if !Has(run, "tests") then (d1, true)
      else if tests.JObj? then (LoadInline(d1, tests.fields), true)
      else (d1, false)
  }

  function LoadPass(docs: Docs, runs: seq<Json>): (Docs, bool)
  {
    if |runs| == 0 then (docs, true)
    else
      var prev := LoadPass(docs, runs[..|runs| - 1]);
      if prev.1 then LoadRun(prev.0, runs[|runs| - 1]) else prev
  }

  /** After loading an entry its lower-cased name is registered; when a key
      was free, both that key and the lower-cased name hold the entry's
      documentation; no other key changes. */
  lemma LoadEntryEffect(docs: Docs, name: string, doc: Json)
    ensures HasKey(LoadEntry(docs, name, doc), Lower(name))
    ensures FirstAbsent(docs, LoadKeys(name)).Some? ==>
              Get(LoadEntry(docs, name, doc), Lower(name)) == Some(doc)
              && Get(LoadEntry(docs, name, doc), LoadKeys(name)[FirstAbsent(docs, LoadKeys(name)).value]) == Some(doc)
    ensures forall k :: k !in LoadKeys(name) ==> Get(LoadEntry(docs, name, doc), k) == Get(docs, k)
    ensures UniqueKeys(docs) ==> UniqueKeys(LoadEntry(docs, name, doc))
  {
    var keys := LoadKeys(name);
    var f := FirstAbsent(docs, keys);
    if f.Some? {
      var d := Put(docs, keys[f.value], doc);
      forall k | k !in keys
        ensures Get(LoadEntry(docs, name, doc), k) == Get(docs, k)
      {
        PutOther(docs, keys[f.value], doc, k);
        PutOther(d, Lower(name), doc, k);
      }
      if keys[f.value] != Lower(name) {
        PutOther(d, Lower(name), doc, keys[f.value]);
      }
      if UniqueKeys(docs) {
        PutUnique(docs, keys[f.value], doc);
        PutUnique(d, Lower(name), doc);
      }
    } else {
      assert HasKey(docs, keys[0]);
    }
  }

  /** Inline documentation always ends up under the lower-cased name. */
  lemma LoadInlineEffect(docs: Docs, name: string, data: Json)
    requires Documented(data)
    ensures Get(LoadInlineEntry(docs, name, data), Lower(name)) == Some(Field(data, "documentation", JNull))
    ensures forall k :: k != Lower(name) ==> Get(LoadInlineEntry(docs, name, data), k) == Get(docs, k)
  {
    forall k | k != Lower(name)
      ensures Get(LoadInlineEntry(docs, name, data), k) == Get(docs, k)
    {
      PutOther(docs, Lower(name), Field(data, "documentation", JNull), k);
    }
  }

  /** The loading pass can overwrite: an entry whose lower-cased name is
      already registered, but whose `-`-to-`_` variant is free, replaces the
      documentation under the lower-cased name. */
  lemma LoadOverwrites(docs: Docs, name: string, doc: Json)
    requires HasKey(docs, Lower(name)) && !HasKey(docs, LoadKeys(name)[1])
    ensures Get(LoadEntry(docs, name, doc), Lower(name)) == Some(doc)
  {
    var f := FirstAbsent(docs, LoadKeys(name));
    assert f == Some(1);
  }

  class AccessibilityReportGenerator {
    /** Test name to documentation, in insertion order. */
    var testDocumentation: Docs

    constructor ()
      ensures testDocumentation == []
    {
      testDocumentation := [];
    }

    /** The loading pass over the test-run documents. */
    method LoadRunDocumentation(runs: seq<Json>)
      modifies this
      ensures testDocumentation == LoadPass(old(testDocumentation), runs).0
    {
      var ok := true;
      var i := 0;
      while i < |runs|
        invariant 0 <= i <= |runs|
        invariant (testDocumentation, ok) == LoadPass(old(testDocumentation), runs[..i])
      {
        assert runs[..i + 1][..i] == runs[..i];
        if ok {
          ok := LoadOneRun(runs[i]);
        }
        i := i + 1;
      }
      assert runs[..|runs|] == runs;
    }

    method LoadOneRun(run: Json) returns (ok: bool)
      modifies this
      ensures (testDocumentation, ok) == LoadRun(old(testDocumentation), run)
    {
      var docField := Field(run, "documentation", JNull);
      if Has(run, "documentation") {
        if !docField.JObj? {
          return false;
        }
        LoadDocumentationEntries(docField.fields);
      }
      if Has(run, "tests") {
        var tests := Field(run, "tests", JNull);
        if !tests.JObj? {
          return false;
        }
        LoadInlineDocumentation(tests.fields);
      }
      return true;
    }

    /** The loop over a run's `documentation` entries. */
    method LoadDocumentationEntries(entries: Dict<string, Json>)
      modifies this
      ensures testDocumentation == LoadEntries(old(testDocumentation), entries)
    {
      var j := 0;
      while j < |entries|
        invariant 0 <= j <= |entries|
        invariant testDocumentation == LoadEntries(old(testDocumentation), entries[..j])
      {
        LoadEntriesSnoc(old(testDocumentation), entries, j);
        LoadDocumentationEntry(entries[j].0, entries[j].1);
        j := j + 1;
      }
      assert entries[..|entries|] == entries;
    }

    /** One entry: the loop over its three keys, stopping at the first free one. */
    method LoadDocumentationEntry(name: string, doc: Json)
      modifies this
      ensures testDocumentation == LoadEntry(old(testDocumentation), name, doc)
    {
      var keys := LoadKeys(name);
      var t := 0;
      while t < |keys|
        invariant 0 <= t <= |keys|
        invariant forall u :: 0 <= u < t ==> HasKey(testDocumentation, keys[u])
        invariant testDocumentation == old(testDocumentation)
      {
        if !HasKey(testDocumentation, keys[t]) {
          assert FirstAbsent(testDocumentation, keys) == Some(t);
          testDocumentation := Put(testDocumentation, keys[t], doc);
          if keys[t] != Lower(name) {
            testDocumentation := Put(testDocumentation, Lower(name), doc);
          }
          return;
        }
        t := t + 1;
      }
    }

    /** The loop over a run's `tests`, storing inline documentation. */
    method LoadInlineDocumentation(fs: Dict<string, Json>)
      modifies this
      ensures testDocumentation == LoadInline(old(testDocumentation), fs)
    {
      var j := 0;
      while j < |fs|
        invariant 0 <= j <= |fs|
        invariant testDocumentation == LoadInline(old(testDocumentation), fs[..j])
      {
        LoadInlineSnoc(old(testDocumentation), fs, j);
        var (name, data) := fs[j];
        if data.JObj? && Has(data, "documentation") {
          testDocumentation := Put(testDocumentation, Lower(name), Field(data, "documentation", JNull));
        }
        j := j + 1;
      }
      assert fs[..|fs|] == fs;
    }

    /** `collect_test_documentation`, with the test-run documents passed in. */
    method CollectTestDocumentation(runs: seq<Json>, results: seq<Json>) returns (r: Docs)
      modifies this
      ensures testDocumentation == Collected(old(testDocumentation), runs, results)
      ensures r == testDocumentation
    {
      var ok := CollectRuns(runs);
      CollectPages(results);
      ScanPages(results);
      r := testDocumentation;
    }

    /** The first phase: the test-run documents, until one fails. */
    method CollectRuns(runs: seq<Json>) returns (ok: bool)
      modifies this
      ensures (testDocumentation, ok) == PhaseA(old(testDocumentation), runs)
    {
      ok := true;
      var i := 0;
      while i < |runs|
        invariant 0 <= i <= |runs|
        invariant (testDocumentation, ok) == PhaseA(old(testDocumentation), runs[..i])
      {
        assert runs[..i + 1][..i] == runs[..i];
        if ok {
          ok := CollectRun(runs[i]);
        }
        i := i + 1;
      }
      assert runs[..|runs|] == runs;
    }

    /** The second phase over all page results. */
    method CollectPages(results: seq<Json>)
      modifies this
      ensures testDocumentation == PhaseB(old(testDocumentation), results)
    {
      var p := 0;
      while p < |results|
        invariant 0 <= p <= |results|
        invariant testDocumentation == PhaseB(old(testDocumentation), results[..p])
      {
        assert results[..p + 1][..p] == results[..p];
        CollectPage(PageTests(results[p]));
        p := p + 1;
      }
      assert results[..|results|] == results;
    }

    /** The third phase over all page results. */
    method ScanPages(results: seq<Json>)
      modifies this
      ensures testDocumentation == PhaseC(old(testDocumentation), results)
    {
      var p := 0;
      while p < |results|
        invariant 0 <= p <= |results|
        invariant testDocumentation == PhaseC(old(testDocumentation), results[..p])
      {
        PhaseCSnoc(old(testDocumentation), results, p);
        ScanPage(PageTests(results[p]));
        p := p + 1;
      }
      assert results[..|results|] == results;
    }

    /** One test-run document of the first phase. */
    method CollectRun(run: Json) returns (ok: bool)
      modifies this
      ensures (testDocumentation, ok) == RunStep(old(testDocumentation), run)
    {
      var docField := Field(run, "documentation", JNull);
      if Has(run, "documentation") && docField.JObj? {
        CollectRunEntries(docField.fields);
      }
      if Has(run, "tests") {
        var tests := Field(run, "tests", JNull);
        if !tests.JObj? {
          return false;
        }
        CollectRunTests(tests.fields);
      }
      return true;
    }

    /** The entries of a run's `documentation` object. */
    method CollectRunEntries(entries: Dict<string, Json>)
      modifies this
      ensures testDocumentation == RunDocEntries(old(testDocumentation), entries)
    {
      var j := 0;
      while j < |entries|
        invariant 0 <= j <= |entries|
        invariant testDocumentation == RunDocEntries(old(testDocumentation), entries[..j])
      {
        assert entries[..j + 1][..j] == entries[..j];
        var (name, doc) := entries[j];
        if !HasKey(testDocumentation, name) {
          testDocumentation := Put(testDocumentation, name, doc);
        }
        j := j + 1;
      }
      assert entries[..|entries|] == entries;
    }

    /** The entries of a run's `tests` object. */
    method CollectRunTests(fs: Dict<string, Json>)
      modifies this
      ensures testDocumentation == RunTestEntries(old(testDocumentation), fs)
    {
      var j := 0;
      while j < |fs|
        invariant 0 <= j <= |fs|
        invariant testDocumentation == RunTestEntries(old(testDocumentation), fs[..j])
      {
        assert fs[..j + 1][..j] == fs[..j];
        var (name, data) := fs[j];
        if data.JObj? && Has(data, "documentation") && !HasKey(testDocumentation, name) {
          testDocumentation := Put(testDocumentation, name, Field(data, "documentation", JNull));
        }
        j := j + 1;
      }
      assert fs[..|fs|] == fs;
    }

    /** The second phase for the tests of one page result. */
    method CollectPage(tests: Dict<string, Json>)
      modifies this
      ensures testDocumentation == PageB(old(testDocumentation), tests)
    {
      var t := 0;
      while t < |tests|
        invariant 0 <= t <= |tests|
        invariant testDocumentation == PageB(old(testDocumentation), tests[..t])
      {
        assert tests[..t + 1][..t] == tests[..t];
        var (name, data) := tests[t];
        if data.JObj? {
          if Has(data, "documentation") {
            if !HasKey(testDocumentation, name) {
              testDocumentation := Put(testDocumentation, name, Field(data, "documentation", JNull));
            }
          } else if Has(data, name) && Has(Sub(data, name), "documentation") {
            if !HasKey(testDocumentation, name) {
              testDocumentation := Put(testDocumentation, name, Field(Sub(data, name), "documentation", JNull));
            }
          }
        }
        t := t + 1;
      }
      assert tests[..|tests|] == tests;
    }

    /** The third phase for the tests of one page result. */
    method ScanPage(tests: Dict<string, Json>)
      modifies this
      ensures testDocumentation == PageC(old(testDocumentation), tests)
    {
      var t := 0;
      while t < |tests|
        invariant 0 <= t <= |tests|
        invariant testDocumentation == PageC(old(testDocumentation), tests[..t])
      {
        assert tests[..t + 1][..t] == tests[..t];
        ScanTest(tests[t].0, tests[t].1);
        t := t + 1;
      }
      assert tests[..|tests|] == tests;
    }
 
    /** The four strategies for one test of a page result. */
    method ScanTest(name: string, data: Json)
      modifies this
      ensures testDocumentation == StepC(old(testDocumentation), name, data)
    {
      var outputField := GetOr(TestOutputFields, name, name);
      if HasKey(testDocumentation, name) {
        return;
      }
      if Documented(data) {
        testDocumentation := Put(testDocumentation, name, Field(data, "documentation", JNull));
        return;
      }
      if data.JObj? && Has(data, outputField) && Documented(Sub(data, outputField)) {
        testDocumentation := Put(testDocumentation, name, Field(Sub(data, outputField), "documentation", JNull));
        return;
      }
      if Contains(name, "_") && data.JObj? && Has(data, name) && Documented(Sub(data, name)) {
        testDocumentation := Put(testDocumentation, name, Field(Sub(data, name), "documentation", JNull));
        return;
      }
      var found := FindDocumentedField(Fields(data));
      if found.Some? {
        testDocumentation := Put(testDocumentation, name, Field(Fields(data)[found.value].1, "documentation", JNull));
      }
    }
  }

  /** The loop of strategy 4: stops at the first documented field. */
  method FindDocumentedField(fs: Dict<string, Json>) returns (r: Option<nat>)
    ensures r == FirstDocField(fs)
  {
    var j := 0;
    while j < |fs|
      invariant 0 <= j <= |fs|
      invariant forall u :: 0 <= u < j ==> !Documented(fs[u].1)
    {
      if Documented(fs[j].1) {
        FirstDocFieldIs(fs, j);
        return Some(j);
      }
      j := j + 1;
    }
    FirstDocFieldIs(fs, |fs|);
    return None;
  }

  /** The first documented field is the one before which none is. */
  lemma {:induction false} FirstDocFieldIs(fs: Dict<string, Json>, j: nat)
    requires j <= |fs| && forall u :: 0 <= u < j ==> !Documented(fs[u].1)
    requires j < |fs| ==> Documented(fs[j].1)
    ensures FirstDocField(fs) == if j < |fs| then Some(j) else None
  {
    if |fs| > 0 && j > 0 {
      FirstDocFieldIs(fs[1..], j - 1);
    }
  }
}
