/** String operations the source relies on: JavaScript's `startsWith`,
    `endsWith`, `includes`, `substring(0, n)`, `trim`, `join` and the
    decimal rendering of a number inside a template literal.  Strings are
    sequences of Unicode scalar values here; JavaScript indexes UTF-16 code
    units, which agree on the ASCII inputs the source handles. */
module Strings {

  /** `s.startsWith(p)` */
  predicate IsPrefix(p: string, s: string) {
    |p| <= |s| && s[..|p|] == p
  }

  /** `s.endsWith(x)` */
  predicate IsSuffix(x: string, s: string) {
    |x| <= |s| && s[|s| - |x|..] == x
  }

  /** `s.includes(x)`, scanning for `x` at every offset of `s` in turn. */
  predicate Contains(s: string, x: string)
    decreases |s|
  {
    IsPrefix(x, s) || (|s| > 0 && Contains(s[1..], x))
  }

  /** `x` occurs in `s` starting at offset `i`. */
  predicate OccursAt(s: string, x: string, i: int) {
    0 <= i <= |s| - |x| && s[i..i + |x|] == x
  }

  /** `Contains` agrees with the positional reading: `x` occurs in `s` at
      some offset. */
  lemma {:induction false} ContainsIffOccurs(s: string, x: string)
    ensures Contains(s, x) <==> exists i :: OccursAt(s, x, i)
    decreases |s|
  {
    if IsPrefix(x, s) {
      assert OccursAt(s, x, 0);
    } else if |s| == 0 {
    } else {
      ContainsIffOccurs(s[1..], x);
      if exists i :: OccursAt(s, x, i) {
        var i :| OccursAt(s, x, i);
        if i != 0 {
          assert s[1..][i - 1..i - 1 + |x|] == s[i..i + |x|];
          assert OccursAt(s[1..], x, i - 1);
        }
      }
      if exists j :: OccursAt(s[1..], x, j) {
        var j :| OccursAt(s[1..], x, j);
        assert s[j + 1..j + 1 + |x|] == s[1..][j..j + |x|];
        assert OccursAt(s, x, j + 1);
      }
    }
  }

  /** Containment survives adding text at the end. */
  lemma {:induction false} ContainsExtendRight(s: string, b: string, x: string)
    requires Contains(s, x)
    ensures Contains(s + b, x)
    decreases |s|
  {
    if IsPrefix(x, s) {
      assert (s + b)[..|x|] == s[..|x|];
    } else {
      assert (s + b)[1..] == s[1..] + b;
      ContainsExtendRight(s[1..], b, x);
    }
  }

  /** Containment survives adding text at the front. */
  lemma {:induction false} ContainsExtendLeft(a: string, s: string, x: string)
    requires Contains(s, x)
    ensures Contains(a + s, x)
    decreases |a|
  {
    if |a| == 0 {
      assert a + s == s;
    } else {
      assert (a + s)[1..] == a[1..] + s;
      ContainsExtendLeft(a[1..], s, x);
    }
  }

  /** A string contains itself. */
  lemma ContainsSelf(x: string)
    ensures Contains(x, x)
  {
    assert x[..|x|] == x;
  }

  /** `s.substring(0, n)` for a non-negative `n`: the first `n` characters,
      or all of `s` when it is shorter. */
  function Take(s: string, n: nat): (r: string)
    ensures |r| == if n < |s| then n else |s|
    ensures IsPrefix(r, s)
  {
    if n < |s| then s[..n] else s
  }

  /** The characters JavaScript's `String.prototype.trim` strips: the
      ECMAScript WhiteSpace and LineTerminator code points. */
  predicate IsSpace(c: char) {
    || c == ' ' || c == '\t' || c == '\n' || c == '\r'
    || c == '\U{000B}' || c == '\U{000C}' || c == '\U{00A0}' || c == '\U{1680}'
    || ('\U{2000}' <= c <= '\U{200A}')
    || c == '\U{2028}' || c == '\U{2029}' || c == '\U{202F}' || c == '\U{205F}'
    || c == '\U{3000}' || c == '\U{FEFF}'
  }

  /** Number of leading white-space characters. */
  function LeadingSpace(s: string): (k: nat)
    ensures k <= |s|
    ensures forall i :: 0 <= i < k ==> IsSpace(s[i])
    ensures k < |s| ==> !IsSpace(s[k])
  {
    if |s| > 0 && IsSpace(s[0]) then
      var k := 1 + LeadingSpace(s[1..]);
      assert forall i :: 1 <= i < k ==> s[i] == s[1..][i - 1];
      k
    else 0
  }

  /** Number of trailing white-space characters. */
  function TrailingSpace(s: string): (k: nat)
    ensures k <= |s|
    ensures forall i :: |s| - k <= i < |s| ==> IsSpace(s[i])
    ensures k < |s| ==> !IsSpace(s[|s| - 1 - k])
  {
    if |s| > 0 && IsSpace(s[|s| - 1]) then 1 + TrailingSpace(s[..|s| - 1]) else 0
  }

  /** The leading white-space run is the longest one: any white-space
      prefix followed by a non-white-space character (or the end) has its
      length. */
  lemma LeadingSpaceUnique(s: string, k: nat)
    requires k <= |s|
    requires forall i :: 0 <= i < k ==> IsSpace(s[i])
    requires k < |s| ==> !IsSpace(s[k])
    ensures LeadingSpace(s) == k
  {
  }

  /** The trailing white-space run is the longest one, likewise. */
  lemma TrailingSpaceUnique(s: string, k: nat)
    requires k <= |s|
    requires forall i :: |s| - k <= i < |s| ==> IsSpace(s[i])
    requires k < |s| ==> !IsSpace(s[|s| - 1 - k])
    ensures TrailingSpace(s) == k
  {
  }

  /** A possible result of trimming: empty, or starting and ending with a
      character that is not white space. */
  predicate TrimmedCore(m: string) {
    |m| > 0 ==> !IsSpace(m[0]) && !IsSpace(m[|m| - 1])
  }

  predicate AllSpace(s: string) {
    forall i :: 0 <= i < |s| ==> IsSpace(s[i])
  }

  /** `s.trim()`: the string without leading and trailing white space.  The
      result is empty exactly when `s` is white space throughout; otherwise
      it is the slice of `s` between its longest white-space prefix and its
      longest white-space suffix. */
  function Trim(s: string): (r: string)
    ensures |r| == 0 <==> AllSpace(s)
    ensures TrimmedCore(r)
    ensures |r| > 0 ==> LeadingSpace(s) <= |s| - TrailingSpace(s) && r == s[LeadingSpace(s)..|s| - TrailingSpace(s)]
    ensures LeadingSpace(s) + |r| <= |s| && r == s[LeadingSpace(s)..LeadingSpace(s) + |r|]
    ensures AllSpace(s[LeadingSpace(s) + |r|..])
    ensures Contains(s, r)
  {
    var lead := LeadingSpace(s);
    if lead == |s| then
      assert s[..0] == "";
      assert s[lead..] == "";
      ""
    else
      var rest := s[lead..];
      var trail := TrailingSpace(rest);
      TrimCore(s, lead, rest, trail);
      rest[..|rest| - trail]
  }

  /** The facts behind `Trim` when `s` is not white space throughout:
      `rest` is `s` after its leading run and `trail` the trailing run of
      `rest`. */
  lemma TrimCore(s: string, lead: nat, rest: string, trail: nat)
    requires lead == LeadingSpace(s) < |s| && rest == s[lead..] && trail == TrailingSpace(rest)
    ensures trail < |rest|
    ensures var r := rest[..|rest| - trail];
            && |r| > 0 && !AllSpace(s) && TrimmedCore(r)
            && trail == TrailingSpace(s) && r == s[lead..|s| - trail]
            && AllSpace(s[lead + |r|..])
            && Contains(s, r)
  {
    TrimCoreEnds(s, lead, rest, trail);
    var r := rest[..|rest| - trail];
    TrimCoreTrailing(s, lead, rest, trail);
    assert s[lead + |r|..] == rest[|r|..];
    TrimIsSlice(s, lead, rest, r);
  }

  /** The kept slice is non-empty and neither of its ends is white space. */
  lemma TrimCoreEnds(s: string, lead: nat, rest: string, trail: nat)
    requires lead == LeadingSpace(s) < |s| && rest == s[lead..] && trail == TrailingSpace(rest)
    ensures trail < |rest|
    ensures |rest[..|rest| - trail]| > 0 && !AllSpace(s) && TrimmedCore(rest[..|rest| - trail])
  {
    assert !IsSpace(rest[0]);
    var r := rest[..|rest| - trail];
    assert r[0] == s[lead];
    assert rest[|rest| - 1 - trail] == r[|r| - 1];
  }

  /** The trailing run of `rest` is that of `s`. */
  lemma TrimCoreTrailing(s: string, lead: nat, rest: string, trail: nat)
    requires lead < |s| && rest == s[lead..] && trail == TrailingSpace(rest) && trail < |rest|
    ensures trail == TrailingSpace(s) && rest[..|rest| - trail] == s[lead..|s| - trail]
  {
    forall i | |s| - trail <= i < |s|
      ensures IsSpace(s[i])
    {
      assert s[i] == rest[i - lead];
    }
    assert s[|s| - 1 - trail] == rest[|rest| - 1 - trail];
    TrailingSpaceUnique(s, trail);
  }

  lemma TrimIsSlice(s: string, lead: nat, rest: string, r: string)
    requires lead <= |s| && rest == s[lead..] && IsPrefix(r, rest)
    ensures Contains(s, r)
  {
    ContainsSelf(r);
    assert rest == r + rest[|r|..];
    ContainsExtendRight(r, rest[|r|..], r);
    assert s == s[..lead] + rest;
    ContainsExtendLeft(s[..lead], rest, r);
  }

  /** Trimming removes exactly the surrounding white space: a core padded
      with white space on either side trims back to that core.  With the
      contract of `Trim` this fixes its result on every string. */
  lemma TrimPadded(a: string, m: string, b: string)
    requires AllSpace(a) && AllSpace(b) && TrimmedCore(m)
    ensures Trim(a + m + b) == m
  {
    var s := a + m + b;
    if |m| == 0 {
      assert forall i :: 0 <= i < |s| ==> IsSpace(s[i]) by {
        forall i | 0 <= i < |s|
          ensures IsSpace(s[i])
        {
          if i < |a| { assert s[i] == a[i]; } else { assert s[i] == b[i - |a|]; }
        }
      }
    } else {
      assert s[|a|] == m[0];
      assert forall i :: 0 <= i < |a| ==> s[i] == a[i];
      LeadingSpaceUnique(s, |a|);
      assert s[|s| - 1 - |b|] == m[|m| - 1];
      assert forall i :: |s| - |b| <= i < |s| ==> s[i] == b[i - (|a| + |m|)];
      TrailingSpaceUnique(s, |b|);
      assert s[|a|..|s| - |b|] == m;
    }
  }

  /** Trimming twice is trimming once. */
  lemma TrimIdempotent(s: string)
    ensures Trim(Trim(s)) == Trim(s)
  {
    assert Trim(s) == "" + Trim(s) + "";
    TrimPadded("", Trim(s), "");
  }

  /** `lines.join(sep)` */
  function Join(lines: seq<string>, sep: string): (r: string)
    ensures |lines| == 1 ==> r == lines[0]
  {
    if |lines| == 0 then ""
    else if |lines| == 1 then lines[0]
    else lines[0] + sep + Join(lines[1..], sep)
  }

  /** Splits a string at every line feed; the inverse of `Join(_, "\n")` on
      lines that contain no line feed. */
  function Lines(s: string): (r: seq<string>)
    ensures |r| >= 1
    decreases |s|
  {
    if '\n' !in s then [s]
    else
      var i := FirstNewline(s);
      [s[..i]] + Lines(s[i + 1..])
  }

  /** Position of the first line feed of `s`. */
  function FirstNewline(s: string): (i: nat)
    requires '\n' in s
    ensures i < |s| && s[i] == '\n' && '\n' !in s[..i]
  {
    if s[0] == '\n' then 0
    else
      var i := 1 + FirstNewline(s[1..]);
      assert s[..i] == [s[0]] + s[1..][..i - 1];
      i
  }

  /** Line splitting distributes over a line feed between two parts, when
      the first part has no line feed of its own. */
  lemma LinesAcrossNewline(a: string, b: string)
    requires '\n' !in a
    ensures Lines(a + "\n" + b) == [a] + Lines(b)
  {
    var s := a + "\n" + b;
    assert s[|a|] == '\n';
    var i := FirstNewline(s);
    assert s[..|a|] == a;
    assert i == |a|;
    assert s[..i] == a;
    assert s[i + 1..] == b;
  }

  /** Splitting the join of line-feed-free lines gives the lines back. */
  lemma {:induction false} LinesOfJoin(lines: seq<string>)
    requires |lines| >= 1
    requires forall k :: 0 <= k < |lines| ==> '\n' !in lines[k]
    ensures Lines(Join(lines, "\n")) == lines
    decreases |lines|
  {
    if |lines| == 1 {
      assert Join(lines, "\n") == lines[0];
    } else {
      LinesOfJoin(lines[1..]);
      LinesAcrossNewline(lines[0], Join(lines[1..], "\n"));
      assert lines == [lines[0]] + lines[1..];
    }
  }

  /** Splitting text made of line-feed-free line groups joined by line feeds
      yields the groups' lines in order. */
  lemma LinesOfJoinedParts(a: seq<string>, b: seq<string>)
    requires |a| >= 1 && |b| >= 1
    requires forall k :: 0 <= k < |a| ==> '\n' !in a[k]
    requires forall k :: 0 <= k < |b| ==> '\n' !in b[k]
    ensures Lines(Join(a, "\n") + "\n" + Join(b, "\n")) == a + b
  {
    JoinConcat(a, b, "\n");
    LinesOfJoin(a + b);
  }

  /** Joining two non-empty groups equals joining each and putting the
      separator between them. */
  lemma {:induction false} JoinConcat(a: seq<string>, b: seq<string>, sep: string)
    requires |a| >= 1 && |b| >= 1
    ensures Join(a + b, sep) == Join(a, sep) + sep + Join(b, sep)
    decreases |a|
  {
    if |a| == 1 {
      assert (a + b)[1..] == b;
    } else {
      assert (a + b)[1..] == a[1..] + b;
      JoinConcat(a[1..], b, sep);
    }
  }

  predicate IsDigit(c: char) {
    '0' <= c <= '9'
  }

  function DigitChar(d: nat): (c: char)
    requires d < 10
    ensures IsDigit(c)
  {
    ['0', '1', '2', '3', '4', '5', '6', '7', '8', '9'][d]
  }

  function DigitValue(c: char): nat
    requires IsDigit(c)
  {
    (c as int - '0' as int) as nat
  }

  /** The decimal rendering of `n`, as `${n}` gives it for a non-negative
      integer: digits only, no leading zero except for `0` itself. */
  function NatToString(n: nat): (r: string)
    ensures |r| >= 1
    ensures forall i :: 0 <= i < |r| ==> IsDigit(r[i])
    ensures |r| > 1 ==> r[0] != '0'
    decreases n
  {
    if n < 10 then [DigitChar(n)] else NatToString(n / 10) + [DigitChar(n % 10)]
  }

  /** The value of a string of decimal digits. */
  function ParseDigits(s: string): nat
    requires forall i :: 0 <= i < |s| ==> IsDigit(s[i])
  {
    if |s| == 0 then 0 else 10 * ParseDigits(s[..|s| - 1]) + DigitValue(s[|s| - 1])
  }

  /** Reading the rendered digits back gives the number: the rendering loses
      nothing, so two different limits never render alike. */
  lemma {:induction false} ParseNatToString(n: nat)
    ensures ParseDigits(NatToString(n)) == n
    decreases n
  {
    var r := NatToString(n);
    if n >= 10 {
      ParseNatToString(n / 10);
      assert r[..|r| - 1] == NatToString(n / 10);
    }
    var d := n % 10;
    assert DigitValue(DigitChar(d)) == d by {
      assert d == 0 || d == 1 || d == 2 || d == 3 || d == 4 || d == 5 || d == 6 || d == 7 || d == 8 || d == 9;
    }
  }

  lemma NatToStringInjective(m: nat, n: nat)
    requires NatToString(m) == NatToString(n)
    ensures m == n
  {
    ParseNatToString(m);
    ParseNatToString(n);
  }
}
