/** The JSON-like documents the report reads (page results, test runs and
    their documentation), with the Python views of them the code relies on:
    `type(v).__name__`, truthiness, `str(v)` and `json.dumps(v)`. */
module JsonValue {
  import opened Dicts
  import opened Strs

  /** A decoded document. Objects keep their keys in insertion order, as
      Python dicts do. Floats are not modelled. */
  datatype Json =
    | JNull
    | JBool(b: bool)
    | JInt(i: int)
    | JStr(s: string)
    | JList(items: seq<Json>)
    | JObj(fields: Dict<string, Json>)

  /** The entries of an object; other values have none. */
  function Fields(j: Json): Dict<string, Json>
  {
    if j.JObj? then j.fields else []
  }

  /** The elements of a list; other values have none. */
  function Items(j: Json): seq<Json>
  {
    if j.JList? then j.items else []
  }

  /** `k in j` for an object `j`. */
  predicate Has(j: Json, k: string)
  {
    j.JObj? && HasKey(j.fields, k)
  }

  /** `j.get(k, default)` for an object `j`. */
  function Field(j: Json, k: string, default: Json): (r: Json)
    ensures !Has(j, k) ==> r == default
    ensures Has(j, k) ==> (k, r) in j.fields
  {
    if Has(j, k) then
      GetFound(j.fields, k);
      Get(j.fields, k).value
    else default
  }

  /** `j.get(k, {})`. */
  function Sub(j: Json, k: string): Json
  {
    Field(j, k, JObj([]))
  }

  /** The dotted path of key `k` below `path`, as the recorder and the
      flattener build it; the top level has the empty path. */
  function ChildPath(path: string, k: string): string
  {
    if |path| > 0 then path + "." + k else k
  }

  /** `type(j).__name__`. */
  function TypeName(j: Json): string
  {
    match j
    case JNull => "NoneType"
    case JBool(_) => "bool"
    case JInt(_) => "int"
    case JStr(_) => "str"
    case JList(_) => "list"
    case JObj(_) => "dict"
  }

  /** `bool(j)`: false exactly for None, False, 0 and empty containers. */
  predicate Truthy(j: Json)
  {
    match j
    case JNull => false
    case JBool(b) => b
    case JInt(i) => i != 0
    case JStr(s) => |s| > 0
    case JList(xs) => |xs| > 0
    case JObj(fs) => |fs| > 0
  }

  /** `len(j)` for a list, dict or string; 0 for anything else. */
  function Len(j: Json): nat
  {
    match j
    case JStr(s) => |s|
    case JList(xs) => |xs|
    case JObj(fs) => |fs|
    case _ => 0
  }

  // Python's str() and repr().

  const HexDigits: string := "0123456789abcdef"

  /** `width` lower-case hexadecimal digits of `n`. */
  function Hex(n: nat, width: nat): (r: string)
    ensures |r| == width
    ensures forall i :: 0 <= i < |r| ==> r[i] in HexDigits
  {
    if width == 0 then "" else Hex(n / 16, width - 1) + [HexDigits[n % 16]]
  }

  /** The characters `repr` writes as they are. Outside ASCII this follows
      Latin-1 only: C1 controls, the no-break space and the soft hyphen are
      escaped; anything above U+00FF is taken as printable, so only the
      two-digit `\x` escape is ever needed. */
  predicate ReprPrintable(c: char)
  {
    (' ' <= c <= '~') || (c as int > 0xa0 && c as int != 0xad)
  }

  /** One character of a string literal written by `repr`, `quote` being the
      delimiter in use. */
  function ReprChar(c: char, quote: char): string
  {
    if c == quote || c == '\\' then ['\\', c]
    else if c == '\t' then "\\t"
    else if c == '\n' then "\\n"
    else if c == '\r' then "\\r"
    else if ReprPrintable(c) then [c]
    else "\\x" + Hex(c as int, 2)
  }

  function ReprChars(s: string, quote: char): string
  {
    if |s| == 0 then "" else ReprChars(s[..|s| - 1], quote) + ReprChar(s[|s| - 1], quote)
  }

  /** `repr(s)`: single quotes, unless `s` holds a single quote and no double
      quote. */
  function ReprStr(s: string): string
  {
    var quote := if '\'' in s && '"' !in s then '"' else '\'';
    [quote] + ReprChars(s, quote) + [quote]
  }

  /** `repr(j)`. */
  function PyRepr(j: Json): string
    decreases j
  {
    match j
    case JNull => "None"
    case JBool(b) => if b then "True" else "False"
    case JInt(i) => IntToString(i)
    case JStr(s) => ReprStr(s)
    case JList(xs) => "[" + Join(", ", ReprItems(xs)) + "]"
    case JObj(fs) => "{" + Join(", ", ReprFields(fs)) + "}"
  }

  function ReprItems(xs: seq<Json>): (r: seq<string>)
    ensures |r| == |xs|
    decreases xs
  {
    if |xs| == 0 then [] else ReprItems(xs[..|xs| - 1]) + [PyRepr(xs[|xs| - 1])]
  }

  function ReprFields(fs: Dict<string, Json>): (r: seq<string>)
    ensures |r| == |fs|
    decreases fs
  {
    if |fs| == 0 then []
    else
      var (k, v) := fs[|fs| - 1];
      assert v < JObj(fs);
      ReprFields(fs[..|fs| - 1]) + [ReprStr(k) + ": " + PyRepr(v)]
  }

  /** `str(j)`: a string is itself, anything else is its `repr`. */
  function PyStr(j: Json): (r: string)
    ensures j.JStr? ==> r == j.s
  {
    if j.JStr? then j.s else PyRepr(j)
  }

  // json.dumps with its defaults: ASCII-only output, ", " and ": " separators.

  /** One character of a JSON string literal, as `json.dumps` escapes it. */
  function JsonChar(c: char): string
  {
    if c == '"' then "\\\""
    else if c == '\\' then "\\\\"
    else if c == '\n' then "\\n"
    else if c == '\r' then "\\r"
    else if c == '\t' then "\\t"
    else if c as int == 8 then "\\b"
    else if c as int == 12 then "\\f"
    else if ' ' <= c <= '~' then [c]
    else if c as int < 0x10000 then UnicodeEscape(c as int)
    else SurrogatePair(c as int)
  }

  /** `\uXXXX`. */
  function UnicodeEscape(n: nat): string
  {
    "\\u" + Hex(n, 4)
  }

  /** A code point beyond U+FFFF is written as its UTF-16 surrogate pair. */
  function SurrogatePair(cp: int): string
    requires cp >= 0x10000
  {
    var v := cp - 0x10000;
    UnicodeEscape(0xd800 + v / 0x400) + UnicodeEscape(0xdc00 + v % 0x400)
  }

  function JsonChars(s: string): string
  {
    if |s| == 0 then "" else JsonChars(s[..|s| - 1]) + JsonChar(s[|s| - 1])
  }

  function JsonStr(s: string): string
  {
    "\"" + JsonChars(s) + "\""
  }

  /** `json.dumps(j)`. */
  function Dumps(j: Json): string
    decreases j
  {
    match j
    case JNull => "null"
    case JBool(b) => if b then "true" else "false"
    case JInt(i) => IntToString(i)
    case JStr(s) => JsonStr(s)
    case JList(xs) => "[" + Join(", ", DumpsItems(xs)) + "]"
    case JObj(fs) => "{" + Join(", ", DumpsFields(fs)) + "}"
  }

  function DumpsItems(xs: seq<Json>): (r: seq<string>)
    ensures |r| == |xs|
    decreases xs
  {
    if |xs| == 0 then [] else DumpsItems(xs[..|xs| - 1]) + [Dumps(xs[|xs| - 1])]
  }

  function DumpsFields(fs: Dict<string, Json>): (r: seq<string>)
    ensures |r| == |fs|
    decreases fs
  {
    if |fs| == 0 then []
    else
      var (k, v) := fs[|fs| - 1];
      assert v < JObj(fs);
      DumpsFields(fs[..|fs| - 1]) + [JsonStr(k) + ": " + Dumps(v)]
  }

  /** Every character is printable ASCII. */
  predicate PrintableAscii(s: string)
  {
    forall i :: 0 <= i < |s| ==> ' ' <= s[i] <= '~'
  }

  lemma PrintableConcat(a: string, b: string)
    requires PrintableAscii(a) && PrintableAscii(b)
    ensures PrintableAscii(a + b)
  {
    assert forall i :: 0 <= i < |a + b| ==> (a + b)[i] == if i < |a| then a[i] else b[i - |a|];
  }

  lemma {:induction false} JoinPrintable(sep: string, parts: seq<string>)
    requires PrintableAscii(sep)
    requires forall i :: 0 <= i < |parts| ==> PrintableAscii(parts[i])
    ensures PrintableAscii(Join(sep, parts))
  {
    if |parts| > 1 {
      JoinPrintable(sep, parts[1..]);
      PrintableConcat(parts[0], sep);
      PrintableConcat(parts[0] + sep, Join(sep, parts[1..]));
    }
  }

  lemma HexPrintable(n: nat, width: nat)
    ensures PrintableAscii(Hex(n, width))
  {
    var h := Hex(n, width);
    forall i | 0 <= i < |h|
      ensures ' ' <= h[i] <= '~'
    {
      assert h[i] in HexDigits;
    }
  }

  lemma JsonCharPrintable(c: char)
    ensures PrintableAscii(JsonChar(c))
  {
    if c == '"' || c == '\\' || c == '\n' || c == '\r' || c == '\t' || c as int == 8 || c as int == 12 {
    } else if ' ' <= c <= '~' {
      assert JsonChar(c) == [c];
    } else if c as int < 0x10000 {
      EscapePrintable(c as int);
    } else {
      SurrogatePrintable(c as int);
    }
  }

  lemma SurrogatePrintable(cp: int)
    requires cp >= 0x10000
    ensures PrintableAscii(SurrogatePair(cp))
  {
    var v := cp - 0x10000;
    EscapePrintable(0xd800 + v / 0x400);
    EscapePrintable(0xdc00 + v % 0x400);
    PrintableConcat(UnicodeEscape(0xd800 + v / 0x400), UnicodeEscape(0xdc00 + v % 0x400));
  }

  lemma EscapePrintable(n: nat)
    ensures PrintableAscii(UnicodeEscape(n))
  {
    HexPrintable(n, 4);
    PrintableConcat("\\u", Hex(n, 4));
  }

  lemma {:induction false} JsonStrPrintable(s: string)
    ensures PrintableAscii(JsonStr(s))
  {
    JsonCharsPrintable(s);
    PrintableConcat("\"", JsonChars(s));
    PrintableConcat("\"" + JsonChars(s), "\"");
  }

  lemma {:induction false} JsonCharsPrintable(s: string)
    ensures PrintableAscii(JsonChars(s))
  {
    if |s| > 0 {
      JsonCharsPrintable(s[..|s| - 1]);
      JsonCharPrintable(s[|s| - 1]);
      PrintableConcat(JsonChars(s[..|s| - 1]), JsonChar(s[|s| - 1]));
    }
  }

  /** With its default `ensure_ascii`, `json.dumps` writes printable ASCII
      only: every control and non-ASCII character is escaped. */
  lemma {:induction false} DumpsPrintable(j: Json)
    ensures PrintableAscii(Dumps(j))
    decreases j
  {
    match j
    case JNull =>
    case JBool(_) =>
    case JInt(i) =>
      assert PrintableAscii(IntToString(i));
    case JStr(s) =>
      JsonStrPrintable(s);
    case JList(xs) =>
      DumpsItemsPrintable(xs);
      JoinPrintable(", ", DumpsItems(xs));
      PrintableConcat("[", Join(", ", DumpsItems(xs)));
      PrintableConcat("[" + Join(", ", DumpsItems(xs)), "]");
    case JObj(fs) =>
      DumpsFieldsPrintable(fs);
      JoinPrintable(", ", DumpsFields(fs));
      PrintableConcat("{", Join(", ", DumpsFields(fs)));
      PrintableConcat("{" + Join(", ", DumpsFields(fs)), "}");
  }

  lemma {:induction false} DumpsItemsPrintable(xs: seq<Json>)
    ensures forall i :: 0 <= i < |xs| ==> PrintableAscii(DumpsItems(xs)[i])
    decreases xs
  {
    if |xs| > 0 {
      DumpsItemsPrintable(xs[..|xs| - 1]);
      DumpsPrintable(xs[|xs| - 1]);
    }
  }

  lemma {:induction false} DumpsFieldsPrintable(fs: Dict<string, Json>)
    ensures forall i :: 0 <= i < |fs| ==> PrintableAscii(DumpsFields(fs)[i])
    decreases fs
  {
    if |fs| > 0 {
      var (k, v) := fs[|fs| - 1];
      assert v < JObj(fs);
      DumpsFieldsPrintable(fs[..|fs| - 1]);
      DumpsPrintable(v);
      JsonStrPrintable(k);
      PrintableConcat(JsonStr(k), ": ");
      PrintableConcat(JsonStr(k) + ": ", Dumps(v));
    }
  }
}
