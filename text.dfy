/**
 * The string operations of the JavaScript runtime that the chat code relies on:
 * concatenation of chunks, `Array.prototype.join`, `String.prototype.includes`,
 * `String.prototype.trim` and the decimal rendering of a non-negative integer
 * inside a template literal. The chat code never splits a string; `SplitLines` reads a
 * string back into its lines, so that the rendered context can be shown to
 * consist of the lines it was built from.
 */
module Text {

  /** The concatenation of all parts, first part first. */
  function Concat(parts: seq<string>): string
  {
    if parts == [] then "" else parts[0] + Concat(parts[1..])
  }

  lemma {:induction false} ConcatAppend(a: seq<string>, b: seq<string>)
    ensures Concat(a + b) == Concat(a) + Concat(b)
  {
    if a == [] {
      assert a + b == b;
    } else {
      assert (a + b)[1..] == a[1..] + b;
      ConcatAppend(a[1..], b);
    }
  }

  /** Appending one part at the end extends the concatenation by that part. */
  lemma ConcatSnoc(parts: seq<string>, x: string)
    ensures Concat(parts + [x]) == Concat(parts) + x
  {
    ConcatAppend(parts, [x]);
    assert Concat([x]) == x + Concat([]);
  }

  /** `parts.join(sep)`: the empty array joins to the empty string. */
  function Join(parts: seq<string>, sep: string): string
  {
    if |parts| == 0 then ""
    else if |parts| == 1 then parts[0]
    else parts[0] + sep + Join(parts[1..], sep)
  }

  lemma {:induction false} JoinAppend(a: seq<string>, b: seq<string>, sep: string)
    requires a != [] && b != []
    ensures Join(a + b, sep) == Join(a, sep) + sep + Join(b, sep)
  {
    if |a| == 1 {
      assert (a + b)[1..] == b;
    } else {
      assert (a + b)[1..] == a[1..] + b;
      JoinAppend(a[1..], b, sep);
    }
  }

  /** A line whose tail is itself a joined block is the heading plus the block's lines. */
  lemma JoinEmbeddedBlock(head: seq<string>, heading: string, block: seq<string>, last: string)
    requires head != [] && block != []
    ensures Join(head + [heading + "\n" + Join(block, "\n"), last], "\n")
         == Join(head + [heading] + block + [last], "\n")
  {
    var line := heading + "\n" + Join(block, "\n");
    JoinAppend(head, [line, last], "\n");
    JoinHeadingBlock(heading, block, last);
    JoinAppend(head, [heading] + (block + [last]), "\n");
    assert head + [heading] + block + [last] == head + ([heading] + (block + [last]));
  }

  lemma JoinHeadingBlock(heading: string, block: seq<string>, last: string)
    requires block != []
    ensures Join([heading + "\n" + Join(block, "\n"), last], "\n")
         == Join([heading] + (block + [last]), "\n")
  {
    assert [heading + "\n" + Join(block, "\n"), last][1..] == [last];
    JoinAppend(block, [last], "\n");
    assert ([heading] + (block + [last]))[1..] == block + [last];
  }

  predicate NoNewline(s: string)
  {
    '\n' !in s
  }

  /**
   * The lines of `s`, cut at each line break as `s.split("\n")` would: always
   * at least one piece; the empty string gives `[""]`.
   */
  function SplitLines(s: string): (lines: seq<string>)
    ensures |lines| >= 1
    ensures forall i :: 0 <= i < |lines| ==> NoNewline(lines[i])
  {
    if s == [] then [""]
    else if s[0] == '\n' then [""] + SplitLines(s[1..])
    else
      var rest := SplitLines(s[1..]);
      [[s[0]] + rest[0]] + rest[1..]
  }

  /** A newline-free prefix glues onto the first piece of what follows it. */
  lemma {:induction false} SplitLinesPrefix(a: string, t: string)
    requires NoNewline(a)
    ensures SplitLines(a + t) == [a + SplitLines(t)[0]] + SplitLines(t)[1..]
  {
    if a == [] {
      assert a + t == t;
      assert a + SplitLines(t)[0] == SplitLines(t)[0];
      assert SplitLines(t) == [SplitLines(t)[0]] + SplitLines(t)[1..];
    } else {
      assert (a + t)[0] == a[0];
      assert (a + t)[1..] == a[1..] + t;
      SplitLinesPrefix(a[1..], t);
      assert [a[0]] + (a[1..] + SplitLines(t)[0]) == a + SplitLines(t)[0];
    }
  }

  /** Splitting a join of newline-free lines gives the lines back. */
  lemma {:induction false} SplitJoin(lines: seq<string>)
    requires lines != []
    requires forall i :: 0 <= i < |lines| ==> NoNewline(lines[i])
    ensures SplitLines(Join(lines, "\n")) == lines
  {
    if |lines| == 1 {
      SplitLinesPrefix(lines[0], "");
      assert lines[0] + "" == lines[0];
    } else {
      var rest := Join(lines[1..], "\n");
      assert Join(lines, "\n") == lines[0] + ("\n" + rest);
      SplitLinesPrefix(lines[0], "\n" + rest);
      assert ("\n" + rest)[1..] == rest;
      assert SplitLines("\n" + rest) == [""] + SplitLines(rest);
      SplitJoin(lines[1..]);
      assert lines[0] + "" == lines[0];
      assert lines == [lines[0]] + lines[1..];
    }
  }

  /** `needle` occurs in `s` starting at index `i`. */
  predicate OccursAt(s: string, needle: string, i: nat)
  {
    i + |needle| <= |s| && s[i..i + |needle|] == needle
  }

  /** `s.includes(needle)`. */
  predicate Includes(s: string, needle: string)
  {
    exists i | 0 <= i <= |s| :: OccursAt(s, needle, i)
  }

  lemma IncludesInfix(a: string, needle: string, b: string)
    ensures Includes(a + needle + b, needle)
  {
    var s := a + needle + b;
    assert s[|a|..|a| + |needle|] == needle;
    assert OccursAt(s, needle, |a|);
  }

  /**
   * The characters `String.prototype.trim` removes: the ECMAScript WhiteSpace
   * code points (tab, vertical tab, form feed, space, no-break space, the
   * byte order mark and the space separators) and the LineTerminator code
   * points (line feed, carriage return, line and paragraph separators).
   */
  const JsWhitespaceTable: seq<char> := [
    '\t', '\n', '\U{000B}', '\U{000C}', '\r', ' ', '\U{00A0}', '\U{1680}',
    '\U{2000}', '\U{2001}', '\U{2002}', '\U{2003}', '\U{2004}', '\U{2005}', '\U{2006}',
    '\U{2007}', '\U{2008}', '\U{2009}', '\U{200A}',
    '\U{2028}', '\U{2029}', '\U{202F}', '\U{205F}', '\U{3000}', '\U{FEFF}'
  ]

  /** `c` is one of the first entries of `table`, looked up front to back. */
  predicate Listed(c: char, table: seq<char>)
  {
    table != [] && (table[0] == c || Listed(c, table[1..]))
  }

  predicate IsJsWhitespace(c: char)
  {
    Listed(c, JsWhitespaceTable)
  }

  predicate AllWhitespace(s: string)
  {
    forall k :: 0 <= k < |s| ==> IsJsWhitespace(s[k])
  }

  /** Where `trimStart` cuts: the first index at or after `i` that is not whitespace. */
  function TrimStartIndex(s: string, i: nat): (j: nat)
    requires i <= |s|
    ensures i <= j <= |s|
    ensures forall k :: i <= k < j ==> IsJsWhitespace(s[k])
    ensures j < |s| ==> !IsJsWhitespace(s[j])
    decreases |s| - i
  {
    if i < |s| && IsJsWhitespace(s[i]) then TrimStartIndex(s, i + 1) else i
  }

  /** Where `trimEnd` cuts, scanning back from `j` but not below `lo`. */
  function TrimEndIndex(s: string, lo: nat, j: nat): (e: nat)
    requires lo <= j <= |s|
    ensures lo <= e <= j
    ensures forall k :: e <= k < j ==> IsJsWhitespace(s[k])
    ensures e > lo ==> !IsJsWhitespace(s[e - 1])
    decreases j
  {
    if j > lo && IsJsWhitespace(s[j - 1]) then TrimEndIndex(s, lo, j - 1) else j
  }

  /** `s.trim()`: whitespace cut from the front, then from the back. */
  function Trim(s: string): (r: string)
    ensures |r| <= |s|
    ensures r != [] ==> !IsJsWhitespace(r[0]) && !IsJsWhitespace(r[|r| - 1])
  {
    var from := TrimStartIndex(s, 0);
    s[from..TrimEndIndex(s, from, |s|)]
  }

  /**
   * What trimming means: the result is a contiguous slice of the input, only
   * whitespace is cut on either side, and all of it is cut.
   */
  lemma TrimIsCore(s: string)
    ensures var r := Trim(s);
      var i := TrimStartIndex(s, 0);
      && i + |r| <= |s| && s[i..i + |r|] == r
      && (forall k :: 0 <= k < i ==> IsJsWhitespace(s[k]))
      && (forall k :: i + |r| <= k < |s| ==> IsJsWhitespace(s[k]))
      && (r != [] ==> !IsJsWhitespace(r[0]) && !IsJsWhitespace(r[|r| - 1]))
  {
    var i := TrimStartIndex(s, 0);
    var e := TrimEndIndex(s, i, |s|);
    assert Trim(s) == s[i..e];
  }

  /** The trimmed input is empty exactly when every character is whitespace. */
  lemma TrimEmptyIff(s: string)
    ensures Trim(s) == [] <==> AllWhitespace(s)
  {
    var i := TrimStartIndex(s, 0);
    var e := TrimEndIndex(s, i, |s|);
    assert |Trim(s)| == e - i;
    if e != i {
      assert !IsJsWhitespace(s[i]);
    }
  }

  lemma TrimIdempotent(s: string)
    ensures Trim(Trim(s)) == Trim(s)
  {
    var r := Trim(s);
    assert TrimStartIndex(r, 0) == 0;
    assert TrimEndIndex(r, 0, |r|) == |r|;
    assert r[0..|r|] == r;
  }

  function DigitChar(d: nat): (c: char)
    requires d < 10
    ensures '0' <= c <= '9'
  {
    ['0', '1', '2', '3', '4', '5', '6', '7', '8', '9'][d]
  }

  predicate IsDigit(c: char)
  {
    '0' <= c <= '9'
  }

  /** `${n}` for a non-negative integer: decimal digits, no leading zero. */
  function NatToString(n: nat): (r: string)
    ensures |r| >= 1 && (forall k :: 0 <= k < |r| ==> IsDigit(r[k]))
    ensures |r| > 1 ==> r[0] != '0'
  {
    if n < 10 then [DigitChar(n)] else NatToString(n / 10) + [DigitChar(n % 10)]
  }

  /** The value of a string of decimal digits, the inverse of NatToString. */
  function DecimalValue(s: string): nat
    requires forall k :: 0 <= k < |s| ==> IsDigit(s[k])
  {
    if s == [] then 0
    else 10 * DecimalValue(s[..|s| - 1]) + DigitValue(s[|s| - 1])
  }

  function DigitValue(c: char): nat
    requires IsDigit(c)
  {
    (c as int) - ('0' as int)
  }

  lemma {:induction false} DecimalRoundTrip(n: nat)
    ensures DecimalValue(NatToString(n)) == n
  {
    var r := NatToString(n);
    if n < 10 {
      assert DecimalValue(r[..0]) == 0;
      assert DigitValue(DigitChar(n)) == n;
    } else {
      DecimalRoundTrip(n / 10);
      assert r[..|r| - 1] == NatToString(n / 10);
      assert DigitValue(DigitChar(n % 10)) == n % 10;
    }
  }

  lemma NatToStringNoNewline(n: nat)
    ensures NoNewline(NatToString(n))
  {
  }
}
