/** The Python `str` operations the report code relies on, restricted to ASCII
    where Python's behaviour depends on Unicode tables (case mapping,
    `isdigit`, `isspace`). */
module Strs {
  import opened Dicts

  predicate StartsWith(s: string, p: string)
  {
    |p| <= |s| && s[..|p|] == p
  }

  predicate EndsWith(s: string, p: string)
  {
    |p| <= |s| && s[|s| - |p|..] == p
  }

  /** `p` occurs in `s` starting at index `j`. */
  predicate OccursAt(s: string, p: string, j: nat)
  {
    j + |p| <= |s| && s[j..j + |p|] == p
  }

  lemma OccursAtTail(s: string, p: string, j: nat)
    requires |s| > 0 && j >= 1
    ensures OccursAt(s, p, j) <==> OccursAt(s[1..], p, j - 1)
  {
    if j + |p| <= |s| {
      var a, b := s[j..j + |p|], s[1..][j - 1..j - 1 + |p|];
      forall k | 0 <= k < |p|
        ensures a[k] == b[k]
      {
      }
      assert a == b;
    }
  }

  /** `s.find(p)` for a non-empty `p`: the first index where `p` occurs. */
  function Find(s: string, p: string): (r: Option<nat>)
    requires |p| > 0
    ensures r.Some? ==> OccursAt(s, p, r.value)
    ensures r.Some? ==> forall j :: 0 <= j < r.value ==> !OccursAt(s, p, j)
    ensures r.None? ==> forall j: nat :: !OccursAt(s, p, j)
  {
    if |s| < |p| then None
    else if s[..|p|] == p then Some(0)
    else
      assert !OccursAt(s, p, 0);
      assert forall j: nat :: j >= 1 ==> (OccursAt(s, p, j) <==> OccursAt(s[1..], p, j - 1)) by {
        forall j: nat | j >= 1 {
          OccursAtTail(s, p, j);
        }
      }
      match Find(s[1..], p)
      case None => None
      case Some(i) => Some(i + 1)
  }

  /** `p in s` for strings. */
  predicate Contains(s: string, p: string)
  {
    |p| == 0 || Find(s, p).Some?
  }

  /** A text in which the one-character string `[c]` is not found does not
      hold `c`. */
  lemma FreeOfChar(s: string, c: char)
    requires !Contains(s, [c])
    ensures c !in s
  {
    if c in s {
      var j :| 0 <= j < |s| && s[j] == c;
      assert s[j..j + 1] == [c];
      assert OccursAt(s, [c], j);
    }
  }

  /** `s.split(sep)` for a non-empty separator: the pieces between the
      non-overlapping occurrences of `sep`, left to right. */
  function Split(s: string, sep: string): (r: seq<string>)
    requires |sep| > 0
    ensures |r| >= 1
    decreases |s|
  {
    match Find(s, sep)
    case None => [s]
    case Some(i) => [s[..i]] + Split(s[i + |sep|..], sep)
  }

  /** `sep.join(parts)`. */
  function Join(sep: string, parts: seq<string>): string
  {
    if |parts| == 0 then ""
    else if |parts| == 1 then parts[0]
    else parts[0] + sep + Join(sep, parts[1..])
  }

  /** `s.replace(pat, rep)` for a non-empty `pat`: a left-to-right scan that
      replaces each occurrence and resumes after it. */
  function ReplaceAll(s: string, pat: string, rep: string): string
    requires |pat| > 0
    decreases |s|
  {
    if |s| < |pat| then s
    else if s[..|pat|] == pat then rep + ReplaceAll(s[|pat|..], pat, rep)
    else [s[0]] + ReplaceAll(s[1..], pat, rep)
  }

  lemma JoinConsHead(c: char, parts: seq<string>, sep: string)
    requires |parts| >= 1
    ensures Join(sep, [[c] + parts[0]] + parts[1..]) == [c] + Join(sep, parts)
  {
    var q := [[c] + parts[0]] + parts[1..];
    assert q[1..] == parts[1..];
  }

  /** Python documents `s.replace(a, b)` as `b.join(s.split(a))`; the scanning
      definition agrees with that. */
  lemma {:induction false} ReplaceIsJoinOfSplit(s: string, pat: string, rep: string)
    requires |pat| > 0
    ensures ReplaceAll(s, pat, rep) == Join(rep, Split(s, pat))
    decreases |s|
  {
    if |s| < |pat| {
      assert Find(s, pat).None?;
    } else if s[..|pat|] == pat {
      assert Find(s, pat) == Some(0);
      ReplaceIsJoinOfSplit(s[|pat|..], pat, rep);
      var parts := Split(s, pat);
      assert parts == [""] + Split(s[|pat|..], pat);
      assert parts[1..] == Split(s[|pat|..], pat);
    } else {
      ReplaceIsJoinOfSplit(s[1..], pat, rep);
      SplitTail(s, pat);
      JoinConsHead(s[0], Split(s[1..], pat), rep);
    }
  }

  /** When `s` does not start with `sep`, its first piece is one character
      longer than that of `s[1..]` and the other pieces are the same. */
  lemma SplitTail(s: string, sep: string)
    requires |sep| > 0 && |s| >= 1
    requires !StartsWith(s, sep)
    ensures Split(s, sep) == [[s[0]] + Split(s[1..], sep)[0]] + Split(s[1..], sep)[1..]
  {
    FindTail(s, sep);
    match Find(s[1..], sep)
    case None =>
      SplitNone(s, sep);
      SplitNone(s[1..], sep);
      assert s == [s[0]] + s[1..];
    case Some(i) =>
      SplitTailAt(s, sep, i);
  }

  lemma SplitTailAt(s: string, sep: string, i: nat)
    requires |sep| > 0 && |s| >= 1
    requires Find(s, sep) == Some(i + 1) && Find(s[1..], sep) == Some(i)
    ensures Split(s, sep) == [[s[0]] + Split(s[1..], sep)[0]] + Split(s[1..], sep)[1..]
  {
    SplitAt(s, sep, i + 1);
    SplitAt(s[1..], sep, i);
    assert s[i + 1 + |sep|..] == s[1..][i + |sep|..];
    FirstPieceLonger(s, i, Split(s[i + 1 + |sep|..], sep), Split(s[1..], sep));
  }

  /** The first piece of `s` is one character longer than that of its tail
      when the pieces after it are the same. */
  lemma FirstPieceLonger(s: string, i: nat, rest: seq<string>, t: seq<string>)
    requires i + 1 <= |s| && t == [s[1..][..i]] + rest
    ensures [s[..i + 1]] + rest == [[s[0]] + t[0]] + t[1..]
  {
    assert s[..i + 1] == [s[0]] + s[1..][..i];
    assert t[1..] == rest;
  }

  /** Where `s` does not start with `sep`, finding in `s` is finding in its
      tail, one index later. */
  lemma FindTail(s: string, sep: string)
    requires |sep| > 0 && |s| >= 1 && !StartsWith(s, sep)
    ensures Find(s, sep) == match Find(s[1..], sep) case None => None case Some(i) => Some(i + 1)
  {
    if |s| < |sep| {
      assert Find(s[1..], sep).None?;
    }
  }

  lemma SplitNone(s: string, sep: string)
    requires |sep| > 0 && Find(s, sep).None?
    ensures Split(s, sep) == [s]
  {
  }

  lemma JoinCons(sep: string, a: string, t: seq<string>)
    requires |t| >= 1
    ensures Join(sep, [a] + t) == a + sep + Join(sep, t)
  {
    assert ([a] + t)[1..] == t;
  }

  /** Joining the pieces with the separator gives the string back. */
  lemma {:induction false} JoinSplit(s: string, sep: string)
    requires |sep| > 0
    ensures Join(sep, Split(s, sep)) == s
    decreases |s|
  {
    var f := Find(s, sep);
    if f.Some? {
      var i := f.value;
      var rest := s[i + |sep|..];
      JoinSplit(rest, sep);
      SplitAt(s, sep, i);
      JoinCons(sep, s[..i], Split(rest, sep));
      Rejoin(s, sep, i);
    }
  }

  /** The pieces of a split after the first occurrence of the separator. */
  lemma SplitAt(s: string, sep: string, i: nat)
    requires |sep| > 0 && Find(s, sep) == Some(i)
    ensures i + |sep| <= |s| && Split(s, sep) == [s[..i]] + Split(s[i + |sep|..], sep)
  {
  }

  lemma Rejoin(s: string, sep: string, i: nat)
    requires OccursAt(s, sep, i)
    ensures s[..i] + sep + s[i + |sep|..] == s
  {
    Reassemble(s, i, i + |sep|);
  }

  lemma Reassemble(s: string, i: nat, j: nat)
    requires i <= j <= |s|
    ensures s == s[..i] + s[i..j] + s[j..]
  {
  }

  /** No piece of a split contains the separator. */
  lemma {:induction false} SplitPiecesFree(s: string, sep: string, k: nat)
    requires |sep| > 0 && k < |Split(s, sep)|
    ensures !Contains(Split(s, sep)[k], sep)
    decreases |s|
  {
    var f := Find(s, sep);
    if f.Some? {
      var i := f.value;
      assert Split(s, sep) == [s[..i]] + Split(s[i + |sep|..], sep);
      if k == 0 {
        var piece := s[..i];
        var g := Find(piece, sep);
        if g.Some? {
          var j := g.value;
          assert piece[j..j + |sep|] == s[j..j + |sep|];
          assert OccursAt(s, sep, j);
          assert false;
        }
      } else {
        SplitPiecesFree(s[i + |sep|..], sep, k - 1);
      }
    }
  }

  lemma {:induction false} JoinConcat(sep: string, p: seq<string>, q: seq<string>)
    requires |p| >= 1 && |q| >= 1
    ensures Join(sep, p + q) == Join(sep, p) + sep + Join(sep, q)
  {
    if |p| == 1 {
      JoinCons(sep, p[0], q);
    } else {
      assert (p + q)[1..] == p[1..] + q;
      JoinConcat(sep, p[1..], q);
      JoinCons(sep, p[0], p[1..] + q);
      JoinCons(sep, p[0], p[1..]);
    }
  }

  /** A one-character separator `c` is found first right after a prefix
      that does not contain `c`. */
  lemma FindAfterFree(a: string, c: char, b: string)
    requires c !in a
    ensures Find(a + [c] + b, [c]) == Some(|a|)
  {
    var s := a + [c] + b;
    assert s[|a|..|a| + 1] == [c];
    assert OccursAt(s, [c], |a|);
    forall j: nat | j < |a|
      ensures !OccursAt(s, [c], j)
    {
      assert s[j..j + 1] == [a[j]];
    }
  }

  lemma NoOccurrence(a: string, c: char)
    requires c !in a
    ensures Find(a, [c]).None?
  {
    forall j: nat | j + 1 <= |a|
      ensures !OccursAt(a, [c], j)
    {
      assert a[j..j + 1] == [a[j]];
    }
  }

  /** Splitting on a one-character separator undoes a join of pieces that do
      not contain it. */
  lemma {:induction false} SplitJoin(c: char, parts: seq<string>)
    requires |parts| >= 1
    requires forall i :: 0 <= i < |parts| ==> c !in parts[i]
    ensures Split(Join([c], parts), [c]) == parts
  {
    if |parts| == 1 {
      NoOccurrence(parts[0], c);
    } else {
      SplitJoin(c, parts[1..]);
      SplitFront(parts[0], c, Join([c], parts[1..]));
      assert parts == [parts[0]] + parts[1..];
    }
  }

  /** A first piece free of the separator splits off whole. */
  lemma SplitFront(a: string, c: char, rest: string)
    requires c !in a
    ensures Split(a + [c] + rest, [c]) == [a] + Split(rest, [c])
  {
    var s := a + [c] + rest;
    FindAfterFree(a, c, rest);
    SplitAt(s, [c], |a|);
    assert s[..|a|] == a;
    assert s[|a| + 1..] == rest;
  }

  // ASCII character classes and case mapping.

  predicate IsUpperChar(c: char) { 'A' <= c <= 'Z' }
  predicate IsLowerChar(c: char) { 'a' <= c <= 'z' }
  predicate IsLetter(c: char) { IsUpperChar(c) || IsLowerChar(c) }
  predicate IsDigitChar(c: char) { '0' <= c <= '9' }

  /** `str.isspace` on one ASCII character. */
  predicate IsSpaceChar(c: char)
  {
    c == ' ' || ('\t' <= c <= '\r') || (28 <= c as int <= 31)
  }

  function ToUpperChar(c: char): char
  {
    if IsLowerChar(c) then (c as int - 32) as char else c
  }

  function ToLowerChar(c: char): char
  {
    if IsUpperChar(c) then (c as int + 32) as char else c
  }

  /** `s.lower()`. */
  function Lower(s: string): (r: string)
    ensures |r| == |s|
    ensures forall i :: 0 <= i < |s| ==> r[i] == ToLowerChar(s[i])
  {
    if |s| == 0 then "" else [ToLowerChar(s[0])] + Lower(s[1..])
  }

  /** `w.capitalize()`: the first character upper-cased, the rest lower-cased. */
  function Capitalize(w: string): (r: string)
    ensures |r| == |w|
  {
    if |w| == 0 then "" else [ToUpperChar(w[0])] + Lower(w[1..])
  }

  /** Each word capitalized. */
  function CapitalizeAll(ws: seq<string>): (r: seq<string>)
    ensures |r| == |ws|
    ensures forall i :: 0 <= i < |ws| ==> r[i] == Capitalize(ws[i])
  {
    if |ws| == 0 then [] else [Capitalize(ws[0])] + CapitalizeAll(ws[1..])
  }

  /** `s.title()`: a letter that follows a letter is lower-cased, any other
      letter is upper-cased. */
  function Title(s: string): (r: string)
    ensures |r| == |s|
  {
    TitleAfter(s, false)
  }

  function TitleAfter(s: string, afterLetter: bool): (r: string)
    ensures |r| == |s|
  {
    if |s| == 0 then ""
    else
      var c := if afterLetter then ToLowerChar(s[0]) else ToUpperChar(s[0]);
      [c] + TitleAfter(s[1..], IsLetter(s[0]))
  }

  /** Text already in title case: each letter is upper-case exactly when
      it does not follow a letter. */
  predicate TitleCased(s: string, afterLetter: bool)
  {
    |s| == 0
    || ((if afterLetter then !IsUpperChar(s[0]) else !IsLowerChar(s[0]))
        && TitleCased(s[1..], IsLetter(s[0])))
  }

  /** `title()` leaves title-cased text unchanged. */
  lemma {:induction false} TitleFixed(s: string, afterLetter: bool)
    requires TitleCased(s, afterLetter)
    ensures TitleAfter(s, afterLetter) == s
  {
    if |s| > 0 {
      TitleFixed(s[1..], IsLetter(s[0]));
      assert [s[0]] + s[1..] == s;
    }
  }

  /** `s.strip()`: leading and trailing whitespace removed. */
  function Strip(s: string): string
  {
    StripRight(StripLeft(s))
  }

  function StripLeft(s: string): string
  {
    if |s| > 0 && IsSpaceChar(s[0]) then StripLeft(s[1..]) else s
  }

  function StripRight(s: string): string
  {
    if |s| > 0 && IsSpaceChar(s[|s| - 1]) then StripRight(s[..|s| - 1]) else s
  }

  /** `s.isdigit()` for ASCII text: non-empty and only digits. */
  predicate IsDigits(s: string)
  {
    |s| > 0 && forall i :: 0 <= i < |s| ==> IsDigitChar(s[i])
  }

  /** `int(s)` for a string of digits. */
  function DigitsValue(s: string): nat
    requires IsDigits(s)
  {
    var d := s[|s| - 1] as int - '0' as int;
    if |s| == 1 then d else DigitsValue(s[..|s| - 1]) * 10 + d
  }

  function DigitChar(d: nat): (c: char)
    requires d < 10
    ensures IsDigitChar(c) && c as int - '0' as int == d
  {
    ('0' as int + d) as char
  }

  /** `str(n)` for a natural number. */
  function NatToString(n: nat): (r: string)
    ensures IsDigits(r)
  {
    if n < 10 then [DigitChar(n)] else NatToString(n / 10) + [DigitChar(n % 10)]
  }

  /** `str(i)` for an integer. */
  function IntToString(i: int): string
  {
    if i < 0 then "-" + NatToString(-i) else NatToString(i)
  }

  /** `int(str(n)) == n`. */
  lemma {:induction false} DigitsValueOfNat(n: nat)
    ensures DigitsValue(NatToString(n)) == n
  {
    if n >= 10 {
      DigitsValueOfNat(n / 10);
      var s := NatToString(n);
      assert s[..|s| - 1] == NatToString(n / 10);
    }
  }

  /** Digits with single underscores between them, the body `int()` accepts. */
  predicate DigitGroups(s: string)
  {
    && |s| > 0 && IsDigitChar(s[0]) && IsDigitChar(s[|s| - 1])
    && (forall i :: 0 <= i < |s| ==> IsDigitChar(s[i]) || s[i] == '_')
    && (forall i :: 0 <= i < |s| - 1 && s[i] == '_' ==> s[i + 1] != '_')
  }

  predicate NoUnderscore(s: string)
  {
    forall i :: 0 <= i < |s| ==> s[i] != '_'
  }

  function DropUnderscores(s: string): (r: string)
    ensures |r| <= |s|
    ensures forall c :: c in r ==> c in s && c != '_'
    ensures NoUnderscore(s) ==> r == s
  {
    if |s| == 0 then ""
    else if s[0] == '_' then DropUnderscores(s[1..])
    else [s[0]] + DropUnderscores(s[1..])
  }

  /** The digits of a group, once the underscores are removed. */
  lemma DigitGroupsDigits(s: string)
    requires DigitGroups(s)
    ensures IsDigits(DropUnderscores(s))
  {
    assert s == [s[0]] + s[1..];
    forall c | c in DropUnderscores(s)
      ensures IsDigitChar(c)
    {
      var i :| 0 <= i < |s| && s[i] == c;
    }
  }

  /** The value of a digit group. */
  function GroupsValue(s: string): nat
    requires DigitGroups(s)
  {
    DigitGroupsDigits(s);
    DigitsValue(DropUnderscores(s))
  }

  /** Python's `int(s)` on ASCII text: surrounding whitespace, an optional
      sign and digit groups; `None` where Python raises ValueError. */
  function ParseInt(s: string): (r: Option<int>)
  {
    var t := Strip(s);
    if |t| > 0 && (t[0] == '-' || t[0] == '+') then
      if DigitGroups(t[1..]) then
        Some(if t[0] == '-' then -(GroupsValue(t[1..]) as int) else GroupsValue(t[1..]))
      else None
    else if DigitGroups(t) then Some(GroupsValue(t))
    else None
  }

  lemma {:induction false} StripLeftPad(pad: string, s: string)
    requires forall i :: 0 <= i < |pad| ==> IsSpaceChar(pad[i])
    ensures StripLeft(pad + s) == StripLeft(s)
  {
    if |pad| > 0 {
      assert (pad + s)[0] == pad[0];
      assert (pad + s)[1..] == pad[1..] + s;
      StripLeftPad(pad[1..], s);
    } else {
      assert pad + s == s;
    }
  }

  lemma {:induction false} StripRightPad(s: string, pad: string)
    requires forall i :: 0 <= i < |pad| ==> IsSpaceChar(pad[i])
    ensures StripRight(s + pad) == StripRight(s)
  {
    if |pad| > 0 {
      assert (s + pad)[..|s + pad| - 1] == s + pad[..|pad| - 1];
      StripRightPad(s, pad[..|pad| - 1]);
    } else {
      assert s + pad == s;
    }
  }

  /** Text whose ends are not whitespace is its own strip. */
  lemma StripTrimmed(s: string)
    requires |s| > 0 ==> !IsSpaceChar(s[0]) && !IsSpaceChar(s[|s| - 1])
    ensures Strip(s) == s
  {
  }

  /** Padding with whitespace on either side does not change the number. */
  lemma ParseIntPadded(pad: string, s: string, pad': string)
    requires forall i :: 0 <= i < |pad| ==> IsSpaceChar(pad[i])
    requires forall i :: 0 <= i < |pad'| ==> IsSpaceChar(pad'[i])
    requires |s| > 0 ==> !IsSpaceChar(s[0]) && !IsSpaceChar(s[|s| - 1])
    ensures ParseInt(pad + s + pad') == ParseInt(s)
  {
    assert pad + s + pad' == pad + (s + pad');
    StripLeftPad(pad, s + pad');
    if |s| > 0 {
      assert StripLeft(s + pad') == s + pad';
    } else {
      assert s + pad' == pad';
      StripLeftPad(pad', "");
      assert pad' + "" == pad';
    }
    StripRightPad(s, pad');
    StripTrimmed(s);
  }

  /** Plain digits, as `isdigit()` accepts them, parse to their value. */
  lemma ParseIntDigits(s: string)
    requires IsDigits(s)
    ensures ParseInt(s) == Some(DigitsValue(s))
  {
    StripTrimmed(s);
    assert NoUnderscore(s);
    assert DigitGroups(s);
  }

  /** A sign before the digits gives the signed value. */
  lemma ParseIntSigned(d: string)
    requires IsDigits(d)
    ensures ParseInt("-" + d) == Some(-(DigitsValue(d) as int))
    ensures ParseInt("+" + d) == Some(DigitsValue(d))
  {
    StripTrimmed("-" + d);
    StripTrimmed("+" + d);
    assert ("-" + d)[1..] == d && ("+" + d)[1..] == d;
    assert NoUnderscore(d);
    assert DigitGroups(d);
  }

  /** `int(str(i)) == i`. */
  lemma {:induction false} ParseIntOfString(i: int)
    ensures ParseInt(IntToString(i)) == Some(i)
  {
    if i < 0 {
      var d := NatToString(-i);
      assert DigitsValue(d) == -i by { DigitsValueOfNat(-i); }
      assert ParseInt("-" + d) == Some(-(DigitsValue(d) as int)) by { ParseIntSigned(d); }
    } else {
      var d := NatToString(i);
      assert DigitsValue(d) == i by { DigitsValueOfNat(i); }
      assert ParseInt(d) == Some(DigitsValue(d)) by { ParseIntDigits(d); }
    }
  }

  /** An underscore between two digit runs is skipped: `int("3_000") == 3000`. */
  lemma ParseIntGrouped(a: string, b: string)
    requires IsDigits(a) && IsDigits(b)
    ensures ParseInt(a + "_" + b) == Some(DigitsValue(a + b))
  {
    var s := a + "_" + b;
    StripTrimmed(s);
    assert NoUnderscore(a) && NoUnderscore(b);
    DropAround(a, b);
    assert forall i :: 0 <= i < |s| - 1 && s[i] == '_' ==> i == |a|;
    assert DigitGroups(s);
  }

  lemma {:induction false} DropAround(a: string, b: string)
    requires NoUnderscore(a) && NoUnderscore(b)
    ensures DropUnderscores(a + "_" + b) == a + b
  {
    if |a| == 0 {
      assert a + "_" + b == "_" + b;
      assert ("_" + b)[1..] == b;
    } else {
      assert (a + "_" + b)[0] == a[0];
      assert (a + "_" + b)[1..] == a[1..] + "_" + b;
      DropAround(a[1..], b);
      assert a + b == [a[0]] + (a[1..] + b);
    }
  }

  /** Text without a digit is not a number. */
  lemma ParseIntNeedsDigit(s: string)
    requires forall i :: 0 <= i < |s| ==> !IsDigitChar(s[i])
    ensures ParseInt(s).None?
  {
    StripInside(s);
    var t := Strip(s);
    if |t| > 1 {
      assert t[0] in t && t[1] in t;
    } else if |t| > 0 {
      assert t[0] in t;
    }
  }

  lemma StripInside(s: string)
    ensures forall c :: c in Strip(s) ==> c in s
  {
    StripLeftInside(s);
    StripRightInside(StripLeft(s));
  }

  lemma {:induction false} StripLeftInside(s: string)
    ensures forall c :: c in StripLeft(s) ==> c in s
  {
    if |s| > 0 && IsSpaceChar(s[0]) {
      StripLeftInside(s[1..]);
    }
  }

  lemma {:induction false} StripRightInside(s: string)
    ensures forall c :: c in StripRight(s) ==> c in s
  {
    if |s| > 0 && IsSpaceChar(s[|s| - 1]) {
      StripRightInside(s[..|s| - 1]);
    }
  }

  /** Python's ordering of strings: lexicographic by code point. */
  predicate StrLess(a: string, b: string)
  {
    if |a| == 0 then |b| > 0
    else if |b| == 0 then false
    else if a[0] != b[0] then a[0] < b[0]
    else StrLess(a[1..], b[1..])
  }

  lemma {:induction false} StrLessIrreflexive(a: string)
    ensures !StrLess(a, a)
  {
    if |a| > 0 {
      StrLessIrreflexive(a[1..]);
    }
  }

  lemma {:induction false} StrLessTransitive(a: string, b: string, c: string)
    requires StrLess(a, b) && StrLess(b, c)
    ensures StrLess(a, c)
  {
    if |a| > 0 && |b| > 0 && |c| > 0 && a[0] == b[0] && b[0] == c[0] {
      StrLessTransitive(a[1..], b[1..], c[1..]);
    }
  }

  lemma {:induction false} StrLessTotal(a: string, b: string)
    ensures a == b || StrLess(a, b) || StrLess(b, a)
  {
    if |a| > 0 && |b| > 0 && a[0] == b[0] {
      StrLessTotal(a[1..], b[1..]);
      if a[1..] == b[1..] {
        assert a == [a[0]] + a[1..] && b == [b[0]] + b[1..];
      }
    }
  }

  /** A proper prefix sorts first. */
  lemma {:induction false} StrLessPrefix(a: string, b: string)
    requires |b| > 0
    ensures StrLess(a, a + b)
  {
    if |a| > 0 {
      assert (a + b)[1..] == a[1..] + b;
      StrLessPrefix(a[1..], b);
    }
  }
}
