/** The indented plain-text rendering of a JSON value used in report cells
    (`format_json_as_table`). */
module TableFormat {
  import opened Dicts
  import opened Strs
  import opened JsonValue

  predicate IsContainer(j: Json)
  {
    j.JObj? || j.JList?
  }

  /** Two spaces per level. */
  function Indent(n: nat): (r: string)
    ensures |r| == 2 * n
  {
    if n == 0 then "" else "  " + Indent(n - 1)
  }

  /** `format_json_as_table(data, indent)`: a scalar is its `str`; a
      container is the newline-join of its `lines`, where a nested container
      contributes one element holding its own (joined) rendering. */
  function FormatTable(data: Json, indent: nat): string
    decreases data, 1
  {
    if !IsContainer(data) then PyStr(data) else Join("\n", TableLines(data, indent))
  }

  /** The `lines` list the source builds for a container. */
  function TableLines(data: Json, indent: nat): seq<string>
    requires IsContainer(data)
    decreases data, 0
  {
    if data.JObj? then ObjLines(data.fields, indent) else ListLines(data.items, indent)
  }

  function ObjLines(fs: Dict<string, Json>, indent: nat): seq<string>
    decreases fs
  {
    if |fs| == 0 then []
    else
      var (k, v) := fs[|fs| - 1];
      assert v < JObj(fs);
      ObjLines(fs[..|fs| - 1], indent)
        + if IsContainer(v) then [Indent(indent) + k + ":", FormatTable(v, indent + 1)]
          else [Indent(indent) + k + ": " + PyStr(v)]
  }

  function ListLines(xs: seq<Json>, indent: nat): seq<string>
    decreases xs
  {
    if |xs| == 0 then []
    else
      var v := xs[|xs| - 1];
      ListLines(xs[..|xs| - 1], indent)
        + if IsContainer(v) then [FormatTable(v, indent)] else [Indent(indent) + "- " + PyStr(v)]
  }

  /** Reference definition: the output lines one by one. A key holding a
      container is followed by that container's lines one level deeper; a
      list element that is a container is rendered at the list's own level;
      an empty container is a single empty line. */
  function RenderLines(data: Json, indent: nat): (r: seq<string>)
    ensures |r| >= 1
    decreases data, 1
  {
    if !IsContainer(data) then [PyStr(data)]
    else
      var lines := if data.JObj? then RenderObj(data.fields, indent) else RenderList(data.items, indent);
      if |lines| == 0 then [""] else lines
  }

  function RenderObj(fs: Dict<string, Json>, indent: nat): (r: seq<string>)
    ensures |r| == 0 <==> |fs| == 0
    decreases fs
  {
    if |fs| == 0 then []
    else
      var (k, v) := fs[|fs| - 1];
      assert v < JObj(fs);
      RenderObj(fs[..|fs| - 1], indent)
        + if IsContainer(v) then [Indent(indent) + k + ":"] + RenderLines(v, indent + 1)
          else [Indent(indent) + k + ": " + PyStr(v)]
  }

  function RenderList(xs: seq<Json>, indent: nat): (r: seq<string>)
    ensures |r| == 0 <==> |xs| == 0
    decreases xs
  {
    if |xs| == 0 then []
    else
      var v := xs[|xs| - 1];
      RenderList(xs[..|xs| - 1], indent)
        + if IsContainer(v) then RenderLines(v, indent) else [Indent(indent) + "- " + PyStr(v)]
  }

  /** The rendering is the reference lines joined by newlines. */
  lemma {:induction false} FormatIsRender(data: Json, indent: nat)
    ensures FormatTable(data, indent) == Join("\n", RenderLines(data, indent))
    decreases data, 1
  {
    if IsContainer(data) {
      if data.JObj? {
        ObjIsRender(data.fields, indent);
      } else {
        ListIsRender(data.items, indent);
      }
    }
  }

  lemma {:induction false} ObjIsRender(fs: Dict<string, Json>, indent: nat)
    ensures Join("\n", ObjLines(fs, indent)) == Join("\n", RenderObj(fs, indent))
    ensures |ObjLines(fs, indent)| == 0 <==> |fs| == 0
    decreases fs
  {
    if |fs| > 0 {
      var (k, v) := fs[|fs| - 1];
      assert v < JObj(fs);
      var init := fs[..|fs| - 1];
      ObjIsRender(init, indent);
      var a := ObjLines(init, indent);
      var ra := RenderObj(init, indent);
      if IsContainer(v) {
        FormatIsRender(v, indent + 1);
        var h := Indent(indent) + k + ":";
        var sub := RenderLines(v, indent + 1);
        JoinCons("\n", h, [FormatTable(v, indent + 1)]);
        JoinCons("\n", h, sub);
        assert Join("\n", [h, FormatTable(v, indent + 1)]) == Join("\n", [h] + sub);
        if |a| > 0 {
          JoinConcat("\n", a, [h, FormatTable(v, indent + 1)]);
          JoinConcat("\n", ra, [h] + sub);
        } else {
          assert a + [h, FormatTable(v, indent + 1)] == [h, FormatTable(v, indent + 1)];
          assert ra + ([h] + sub) == [h] + sub;
        }
      } else {
        var line := [Indent(indent) + k + ": " + PyStr(v)];
        if |a| > 0 {
          JoinConcat("\n", a, line);
          JoinConcat("\n", ra, line);
        } else {
          assert a + line == line && ra + line == line;
        }
      }
    }
  }

  lemma {:induction false} ListIsRender(xs: seq<Json>, indent: nat)
    ensures Join("\n", ListLines(xs, indent)) == Join("\n", RenderList(xs, indent))
    ensures |ListLines(xs, indent)| == 0 <==> |xs| == 0
    decreases xs
  {
    if |xs| > 0 {
      var v := xs[|xs| - 1];
      var init := xs[..|xs| - 1];
      ListIsRender(init, indent);
      var a := ListLines(init, indent);
      var ra := RenderList(init, indent);
      if IsContainer(v) {
        FormatIsRender(v, indent);
        var sub := RenderLines(v, indent);
        if |a| > 0 {
          JoinConcat("\n", a, [FormatTable(v, indent)]);
          JoinConcat("\n", ra, sub);
        } else {
          assert a + [FormatTable(v, indent)] == [FormatTable(v, indent)];
          assert ra + sub == sub;
        }
      } else {
        var line := [Indent(indent) + "- " + PyStr(v)];
        if |a| > 0 {
          JoinConcat("\n", a, line);
          JoinConcat("\n", ra, line);
        } else {
          assert a + line == line && ra + line == line;
        }
      }
    }
  }

  /** No key and no string anywhere in the value holds a newline. */
  predicate NoNewlines(j: Json)
    decreases j
  {
    match j
    case JStr(s) => '\n' !in s
    case JList(xs) => forall i :: 0 <= i < |xs| ==> NoNewlines(xs[i])
    case JObj(fs) =>
      forall i :: 0 <= i < |fs| ==> '\n' !in fs[i].0 && (assert fs[i].1 < JObj(fs); NoNewlines(fs[i].1))
    case _ => true
  }

  lemma ScalarFree(v: Json)
    requires !IsContainer(v) && NoNewlines(v)
    ensures '\n' !in PyStr(v)
  {
    if v.JInt? {
      var n := if v.i < 0 then -v.i else v.i;
      assert IsDigits(NatToString(n));
    }
  }

  lemma IndentFree(n: nat)
    ensures '\n' !in Indent(n)
  {
    if n > 0 {
      IndentFree(n - 1);
    }
  }

  /** Without newlines in the data, no output line holds one. */
  lemma {:induction false} RenderLinesFree(data: Json, indent: nat)
    requires NoNewlines(data)
    ensures forall i :: 0 <= i < |RenderLines(data, indent)| ==> '\n' !in RenderLines(data, indent)[i]
    decreases data, 1
  {
    if !IsContainer(data) {
      ScalarFree(data);
    } else if data.JObj? {
      RenderObjFree(data.fields, indent);
    } else {
      RenderListFree(data.items, indent);
    }
  }

  lemma {:induction false} RenderObjFree(fs: Dict<string, Json>, indent: nat)
    requires NoNewlines(JObj(fs))
    ensures forall i :: 0 <= i < |RenderObj(fs, indent)| ==> '\n' !in RenderObj(fs, indent)[i]
    decreases fs
  {
    if |fs| > 0 {
      var (k, v) := fs[|fs| - 1];
      assert v < JObj(fs);
      var init := fs[..|fs| - 1];
      assert NoNewlines(JObj(init)) by {
        forall i | 0 <= i < |init|
          ensures '\n' !in init[i].0 && NoNewlines(init[i].1)
        {
          assert init[i] == fs[i];
        }
      }
      RenderObjFree(init, indent);
      IndentFree(indent);
      if IsContainer(v) {
        RenderLinesFree(v, indent + 1);
      } else {
        ScalarFree(v);
      }
    }
  }

  lemma {:induction false} RenderListFree(xs: seq<Json>, indent: nat)
    requires NoNewlines(JList(xs))
    ensures forall i :: 0 <= i < |RenderList(xs, indent)| ==> '\n' !in RenderList(xs, indent)[i]
    decreases xs
  {
    if |xs| > 0 {
      var v := xs[|xs| - 1];
      var init := xs[..|xs| - 1];
      assert NoNewlines(JList(init)) by {
        forall i | 0 <= i < |init|
          ensures NoNewlines(init[i])
        {
          assert init[i] == xs[i];
        }
      }
      RenderListFree(init, indent);
      IndentFree(indent);
      if IsContainer(v) {
        RenderLinesFree(v, indent);
      } else {
        ScalarFree(v);
      }
    }
  }

  /** Splitting the rendering at newlines gives back the reference lines. */
  lemma SplitFormat(data: Json, indent: nat)
    requires NoNewlines(data)
    ensures Split(FormatTable(data, indent), "\n") == RenderLines(data, indent)
  {
    FormatIsRender(data, indent);
    RenderLinesFree(data, indent);
    SplitJoin('\n', RenderLines(data, indent));
  }
}
