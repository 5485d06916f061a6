/**
 * The Python string operations the capture session is built from:
 * `str.join`, `str.splitlines(True)`, `str.isspace` and `textwrap.indent`.
 */
module Text {

  /**
   * Python's `str.isspace` for one character. Every line-break character is
   * whitespace, so a line holding only its line break is blank.
   */
  predicate IsSpace(c: char)
    ensures IsLineBreak(c) ==> IsSpace(c)
  {
    var n := c as int;
    (0x09 <= n <= 0x0D) || (0x1C <= n <= 0x20) || n == 0x85 || n == 0xA0 || n == 0x1680
    || (0x2000 <= n <= 0x200A) || n == 0x2028 || n == 0x2029 || n == 0x202F
    || n == 0x205F || n == 0x3000
  }

  /** The characters after which `str.splitlines` ends a line. */
  predicate IsLineBreak(c: char) {
    var n := c as int;
    (0x0A <= n <= 0x0D) || (0x1C <= n <= 0x1E) || n == 0x85 || n == 0x2028 || n == 0x2029
  }

  predicate NoLineBreak(s: string) {
    forall i :: 0 <= i < |s| ==> !IsLineBreak(s[i])
  }

  // ---------------------------------------------------------------------------
  // str.join

  /** `sep.join(parts)`. */
  function Join(parts: seq<string>, sep: string): (r: string)
    ensures parts == [] ==> r == ""
    ensures |parts| == 1 ==> r == parts[0]
    ensures |parts| > 1 ==> parts[0] + sep <= r
  {
    if |parts| == 0 then ""
    else if |parts| == 1 then parts[0]
    else parts[0] + sep + Join(parts[1..], sep)
  }

  function TotalLength(parts: seq<string>): nat
  {
    if parts == [] then 0 else |parts[0]| + TotalLength(parts[1..])
  }

  /** Joining two non-empty runs puts exactly one separator between them. */
  lemma {:induction false} JoinConcat(a: seq<string>, b: seq<string>, sep: string)
    requires a != [] && b != []
    ensures Join(a + b, sep) == Join(a, sep) + sep + Join(b, sep)
  {
    if |a| == 1 {
      assert (a + b)[1..] == b;
    } else {
      assert (a + b)[1..] == a[1..] + b;
      JoinConcat(a[1..], b, sep);
    }
  }

  /** Appending a part to a non-empty list appends the separator and the part. */
  lemma {:induction false} JoinAppend(parts: seq<string>, last: string, sep: string)
    requires parts != []
    ensures Join(parts + [last], sep) == Join(parts, sep) + sep + last
  {
    JoinConcat(parts, [last], sep);
  }

  /** The joined text of a list stays a prefix whatever is appended later. */
  lemma {:induction false} JoinPrefix(a: seq<string>, b: seq<string>, sep: string)
    ensures Join(a, sep) <= Join(a + b, sep)
  {
    if a == [] {
    } else if b == [] {
      assert a + b == a;
    } else {
      JoinConcat(a, b, sep);
    }
  }

  /** The joined text is all the parts plus one separator between each neighbouring pair. */
  lemma {:induction false} JoinLength(parts: seq<string>, sep: string)
    requires parts != []
    ensures |Join(parts, sep)| == TotalLength(parts) + (|parts| - 1) * |sep|
  {
    if |parts| > 1 {
      JoinLength(parts[1..], sep);
      assert (|parts| - 1) * |sep| == (|parts| - 2) * |sep| + |sep|;
    }
  }

  // ---------------------------------------------------------------------------
  // str.splitlines(True)

  /**
   * Where the first line of `s` ends: just after its first line-break character,
   * or at the end of `s` when it has none.
   */
  function LineEnd(s: string): (k: nat)
    ensures k <= |s|
    ensures s != [] ==> 0 < k
    ensures forall i :: 0 <= i < k - 1 ==> !IsLineBreak(s[i])
    ensures 0 < k < |s| ==> IsLineBreak(s[k - 1])
  {
    if s == [] then 0
    else if IsLineBreak(s[0]) then 1
    else 1 + LineEnd(s[1..])
  }

  /**
   * `s.splitlines(True)`: the lines of `s`, each keeping its line break.
   * A "\r\n" pair is split into two lines here; `Indent` treats both splits alike,
   * since a line holding only "\n" is blank.
   */
  function Lines(s: string): (r: seq<string>)
    ensures r == [] <==> s == []
    ensures |r| <= |s|
    decreases |s|
  {
    if s == [] then [] else var k := LineEnd(s); [s[..k]] + Lines(s[k..])
  }

  /** `''.join(ls)`, unfolded one line at a time; `ConcatIsJoin` ties it to `Join`. */
  function Concat(ls: seq<string>): string
  {
    if ls == [] then "" else ls[0] + Concat(ls[1..])
  }

  lemma {:induction false} ConcatIsJoin(ls: seq<string>)
    ensures Concat(ls) == Join(ls, "")
  {
    if |ls| > 1 {
      ConcatIsJoin(ls[1..]);
    } else if |ls| == 1 {
      assert ls[1..] == [];
    }
  }

  /** A non-empty string with no line break except, possibly, its last character. */
  predicate IsLine(l: string) {
    l != [] && forall i :: 0 <= i < |l| - 1 ==> !IsLineBreak(l[i])
  }

  predicate EndsWithBreak(l: string) {
    l != [] && IsLineBreak(l[|l| - 1])
  }

  /** What a split into lines looks like: lines, every one but the last ended by a break. */
  ghost predicate WellFormedLines(ls: seq<string>) {
    (forall i :: 0 <= i < |ls| ==> IsLine(ls[i]))
    && (forall i :: 0 <= i < |ls| - 1 ==> EndsWithBreak(ls[i]))
  }

  lemma LinesCons(s: string)
    requires s != []
    ensures Lines(s) == [s[..LineEnd(s)]] + Lines(s[LineEnd(s)..])
    ensures s[..LineEnd(s)] + s[LineEnd(s)..] == s
  {
    var k := LineEnd(s);
    assert s[..k] + s[k..] == s;
    assert Lines(s) == [s[..k]] + Lines(s[k..]);
  }

  lemma FirstLine(s: string)
    requires s != []
    ensures IsLine(s[..LineEnd(s)])
    ensures s[LineEnd(s)..] != [] ==> EndsWithBreak(s[..LineEnd(s)])
  {
    var k := LineEnd(s);
    var l := s[..k];
    assert forall i :: 0 <= i < |l| ==> l[i] == s[i];
  }

  lemma ConcatCons(l: string, ls: seq<string>)
    ensures Concat([l] + ls) == l + Concat(ls)
  {
    assert ([l] + ls)[1..] == ls;
  }

  lemma WellFormedCons(l: string, rest: seq<string>)
    requires IsLine(l) && WellFormedLines(rest)
    requires rest != [] ==> EndsWithBreak(l)
    ensures WellFormedLines([l] + rest)
  {
    var ls := [l] + rest;
    forall i | 1 <= i < |ls| ensures ls[i] == rest[i - 1] {
    }
  }

  lemma {:induction false} ConcatOfLines(s: string)
    ensures Concat(Lines(s)) == s
    decreases |s|
  {
    if s != [] {
      var k := LineEnd(s);
      var first, tail := s[..k], s[k..];
      ConcatOfLines(tail);
      LinesCons(s);
      ConcatCons(first, Lines(tail));
    }
  }

  lemma {:induction false} LinesWellFormed(s: string)
    ensures WellFormedLines(Lines(s))
    decreases |s|
  {
    if s != [] {
      var k := LineEnd(s);
      var first, tail := s[..k], s[k..];
      LinesWellFormed(tail);
      LinesCons(s);
      FirstLine(s);
      if tail != [] {
        LinesCons(tail);
      }
      WellFormedCons(first, Lines(tail));
    }
  }

  /** Splitting loses nothing, and what it produces is a well-formed list of lines. */
  lemma {:induction false} LinesConcat(s: string)
    ensures Concat(Lines(s)) == s
    ensures WellFormedLines(Lines(s))
  {
    ConcatOfLines(s);
    LinesWellFormed(s);
  }

  /** The first line of `l + t` is `l` when `l` is a line that ends with a break or `t` is empty. */
  lemma LineEndOfLine(l: string, t: string)
    requires IsLine(l)
    requires t == [] || EndsWithBreak(l)
    ensures LineEnd(l + t) == |l|
  {
    var s := l + t;
    var k := LineEnd(s);
    assert forall i :: 0 <= i < |l| ==> s[i] == l[i];
    if t != [] {
      assert IsLineBreak(s[|l| - 1]);
    }
  }

  lemma WellFormedTail(ls: seq<string>)
    requires ls != [] && WellFormedLines(ls)
    ensures WellFormedLines(ls[1..])
  {
    var rest := ls[1..];
    forall i | 0 <= i < |rest| ensures IsLine(rest[i]) && (i < |rest| - 1 ==> EndsWithBreak(rest[i])) {
      assert rest[i] == ls[i + 1];
    }
  }

  /** Splitting a well-formed list of lines, joined back together, gives that list again. */
  lemma {:induction false} ConcatLines(ls: seq<string>)
    requires WellFormedLines(ls)
    ensures Lines(Concat(ls)) == ls
  {
    if ls != [] {
      var l, rest := ls[0], ls[1..];
      WellFormedTail(ls);
      ConcatLines(rest);
      var t := Concat(rest);
      if rest != [] {
        ConcatCons(rest[0], rest[1..]);
        assert [rest[0]] + rest[1..] == rest;
      }
      LineEndOfLine(l, t);
      ConcatCons(l, rest);
      assert [l] + rest == ls;
      var s := l + t;
      assert s[..|l|] == l && s[|l|..] == t;
      assert Lines(s) == [l] + Lines(t);
      assert ls == [l] + rest;
    }
  }

  // ---------------------------------------------------------------------------
  // textwrap.indent

  predicate AllSpace(s: string) {
    forall i :: 0 <= i < |s| ==> IsSpace(s[i])
  }

  /** `s.lstrip()`: `s` without its leading whitespace. */
  function LStrip(s: string): (r: string)
    ensures |r| <= |s| && r == s[|s| - |r|..]
    ensures r == [] || !IsSpace(r[0])
    ensures AllSpace(s[..|s| - |r|])
  {
    if s != [] && IsSpace(s[0]) then
      var r := LStrip(s[1..]);
      assert s[..|s| - |r|] == [s[0]] + s[1..][..|s| - 1 - |r|];
      r
    else
      s
  }

  /** `s.rstrip()`: `s` without its trailing whitespace. */
  function RStrip(s: string): (r: string)
    ensures |r| <= |s| && r == s[..|r|]
    ensures r == [] || !IsSpace(r[|r| - 1])
    ensures AllSpace(s[|r|..])
  {
    if s != [] && IsSpace(s[|s| - 1]) then
      var r := RStrip(s[..|s| - 1]);
      assert s[|r|..] == s[..|s| - 1][|r|..] + [s[|s| - 1]];
      r
    else
      s
  }

  /** `s.strip()`. */
  function Strip(s: string): string {
    RStrip(LStrip(s))
  }

  /**
   * `s.strip()` is empty exactly when every character of `s` is whitespace, so
   * textwrap leaves a line unprefixed exactly when it is all whitespace.
   */
  lemma StripEmpty(s: string)
    ensures Strip(s) == [] <==> AllSpace(s)
    ensures NonBlank(s) <==> Strip(s) != []
  {
    var l := LStrip(s);
    if l == [] {
      assert s[..|s|] == s;
    } else {
      assert !IsSpace(s[|s| - |l|]);
    }
  }

  /**
   * textwrap's default predicate `line.strip()`: true when the line has a
   * character that is not whitespace (`StripEmpty` ties it to `Strip`).
   */
  predicate NonBlank(line: string) {
    !AllSpace(line)
  }

  function PrefixLine(line: string, prefix: string): string {
    if NonBlank(line) then prefix + line else line
  }

  function PrefixNonBlank(ls: seq<string>, prefix: string): seq<string> {
    seq(|ls|, i requires 0 <= i < |ls| => PrefixLine(ls[i], prefix))
  }

  /**
   * `textwrap.indent(text, prefix)` with the default predicate. When the prefix
   * has no line break, the lines of the result are the lines of `text`, each
   * non-blank one preceded by `prefix` and each blank one unchanged.
   */
  function Indent(text: string, prefix: string): (r: string)
    ensures NoLineBreak(prefix) ==> Lines(r) == PrefixNonBlank(Lines(text), prefix)
  {
    var ls := PrefixNonBlank(Lines(text), prefix);
    if NoLineBreak(prefix) then
      LinesConcat(text);
      PrefixKeepsLines(Lines(text), prefix);
      ConcatLines(ls);
      Concat(ls)
    else
      Concat(ls)
  }

  lemma PrefixedLine(l: string, prefix: string)
    requires IsLine(l) && NoLineBreak(prefix)
    ensures IsLine(prefix + l) && (EndsWithBreak(l) ==> EndsWithBreak(prefix + l))
  {
    var m := prefix + l;
    assert forall j :: 0 <= j < |prefix| ==> m[j] == prefix[j];
    assert forall j :: |prefix| <= j < |m| ==> m[j] == l[j - |prefix|];
  }

  lemma PrefixKeepsLines(ls: seq<string>, prefix: string)
    requires WellFormedLines(ls) && NoLineBreak(prefix)
    ensures WellFormedLines(PrefixNonBlank(ls, prefix))
  {
    var r := PrefixNonBlank(ls, prefix);
    forall i | 0 <= i < |r| ensures IsLine(r[i]) && (i < |r| - 1 ==> EndsWithBreak(r[i])) {
      PrefixedLine(ls[i], prefix);
    }
  }

  /** A single non-blank line gets the prefix in front of it. */
  lemma IndentSingleLine(text: string, prefix: string)
    requires NoLineBreak(text) && NonBlank(text)
    ensures Indent(text, prefix) == prefix + text
  {
    var k := LineEnd(text);
    assert k == |text|;
    assert text[..k] == text && text[k..] == [];
    assert Lines(text) == [text[..k]] + Lines(text[k..]);
    var ps := PrefixNonBlank(Lines(text), prefix);
    assert ps == [prefix + text];
    assert ps[1..] == [];
    assert Concat(ps) == ps[0] + Concat(ps[1..]);
  }

  lemma PrefixNonBlankCons(l: string, ls: seq<string>, prefix: string)
    ensures PrefixNonBlank([l] + ls, prefix) == [PrefixLine(l, prefix)] + PrefixNonBlank(ls, prefix)
  {
  }

  lemma AllSpaceSplit(s: string, k: nat)
    requires AllSpace(s) && k <= |s|
    ensures AllSpace(s[..k]) && AllSpace(s[k..])
    ensures !NonBlank(s[..k])
  {
    assert forall i :: 0 <= i < |s| - k ==> s[k..][i] == s[k + i];
  }

  /** Text made only of whitespace comes back unchanged. */
  lemma {:induction false} IndentAllBlank(text: string, prefix: string)
    requires AllSpace(text)
    ensures Indent(text, prefix) == text
    decreases |text|
  {
    if text != [] {
      var k := LineEnd(text);
      var first, rest := text[..k], text[k..];
      AllSpaceSplit(text, k);
      IndentAllBlank(rest, prefix);
      LinesCons(text);
      PrefixNonBlankCons(first, Lines(rest), prefix);
      ConcatCons(first, PrefixNonBlank(Lines(rest), prefix));
    }
  }
}
