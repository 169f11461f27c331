/** The handful of JavaScript string and number primitives the engine relies
    on: `trim`, `toUpperCase`, `includes`, `join(" ")`, `padStart`, and the
    decimal conversions `Number(digits)` and `${n}`. Whitespace and case are
    ASCII only. */
module Text {

  // ---------------------------------------------------------------------------
  // Characters
  // ---------------------------------------------------------------------------

  /** The ASCII members of JavaScript's WhiteSpace and LineTerminator sets,
      which is what both `trim` and the regular-expression class `\s` skip. */
  predicate IsSpace(c: char) {
    c == ' ' || '\t' <= c <= '\r'
  }

  /** The range covers tab, line feed, vertical tab, form feed and carriage
      return, and nothing else. */
  lemma {:induction false} IsSpaceChars(c: char)
    ensures IsSpace(c) <==> c in {' ', '\t', '\n', '\U{000B}', '\U{000C}', '\r'}
  {
  }

  predicate AllSpace(s: string) {
    forall i :: 0 <= i < |s| ==> IsSpace(s[i])
  }

  /** The regular-expression class `\d`. */
  predicate IsDigit(c: char) {
    '0' <= c <= '9'
  }

  predicate IsDigits(s: string) {
    forall i :: 0 <= i < |s| ==> IsDigit(s[i])
  }

  function DigitValue(c: char): (d: nat)
    requires IsDigit(c)
    ensures d < 10
  {
    (c as int) - ('0' as int)
  }

  function DigitChar(d: nat): (c: char)
    requires d < 10
    ensures IsDigit(c) && DigitValue(c) == d
  {
    (('0' as int) + d) as char
  }

  // ---------------------------------------------------------------------------
  // Decimal numbers
  // ---------------------------------------------------------------------------

  /** `Number(s)` for a string of decimal digits (leading zeros allowed). */
  function DigitsValue(s: string): nat
    requires IsDigits(s)
    decreases |s|
  {
    if s == [] then 0 else DigitsValue(s[..|s| - 1]) * 10 + DigitValue(s[|s| - 1])
  }

  /** The decimal rendering of a natural number, as `${n}` prints it:
      non-empty, digits only, no leading zero. */
  function NatToString(n: nat): (r: string)
    ensures |r| > 0 && IsDigits(r)
    ensures |r| > 1 ==> r[0] != '0'
    decreases n
  {
    if n < 10 then [DigitChar(n)] else NatToString(n / 10) + [DigitChar(n % 10)]
  }

  /** `${n}` for an integer: a minus sign in front of negative numbers. */
  function IntToString(n: int): (r: string)
    ensures |r| > 0 && !IsSpace(r[0]) && !IsSpace(r[|r| - 1])
    ensures n >= 0 ==> r == NatToString(n)
    ensures n < 0 ==> r == "-" + NatToString(-n)
  {
    if n < 0 then "-" + NatToString(-n) else NatToString(n)
  }

  /** Reading back what NatToString wrote gives the number again. */
  lemma {:induction false} DigitsValueOfNatToString(n: nat)
    ensures DigitsValue(NatToString(n)) == n
    decreases n
  {
    if n >= 10 {
      var s := NatToString(n);
      assert s[..|s| - 1] == NatToString(n / 10);
      DigitsValueOfNatToString(n / 10);
    }
  }

  /** NatToString is the only canonical spelling: a digit string without a
      leading zero is the rendering of its own value. */
  lemma {:induction false} NatToStringOfDigitsValue(s: string)
    requires IsDigits(s) && |s| > 0 && (|s| > 1 ==> s[0] != '0')
    ensures NatToString(DigitsValue(s)) == s
    decreases |s|
  {
    if |s| == 1 {
    } else {
      var p := s[..|s| - 1];
      NatToStringOfDigitsValue(p);
      DigitsValueAtLeastOne(p);
      assert s == p + [s[|s| - 1]];
    }
  }

  lemma {:induction false} DigitsValueAtLeastOne(s: string)
    requires IsDigits(s) && |s| > 0 && s[0] != '0'
    ensures DigitsValue(s) >= 1
    decreases |s|
  {
    if |s| > 1 {
      DigitsValueAtLeastOne(s[..|s| - 1]);
    }
  }

  /** Two digits read as a number below 100. */
  lemma {:induction false} TwoDigitsBelowHundred(s: string)
    requires IsDigits(s) && |s| == 2
    ensures DigitsValue(s) == DigitValue(s[0]) * 10 + DigitValue(s[1]) < 100
  {
    var p := s[..1];
    assert p[..0] == [];
    assert DigitsValue(p) == DigitValue(s[0]);
  }

  // ---------------------------------------------------------------------------
  // trim
  // ---------------------------------------------------------------------------

  /** The length of the longest all-whitespace prefix. */
  function LeadingSpaceCount(s: string): (k: nat)
    ensures k <= |s| && AllSpace(s[..k])
    ensures k < |s| ==> !IsSpace(s[k])
    decreases |s|
  {
    if s == [] || !IsSpace(s[0]) then 0
    else
      var k := 1 + LeadingSpaceCount(s[1..]);
      assert s[..k] == [s[0]] + s[1..][..k - 1];
      k
  }

  /** The leading-space count is pinned down by its two properties. */
  lemma {:induction false} LeadingSpaceCountOf(s: string, n: nat)
    requires n <= |s| && AllSpace(s[..n]) && (n < |s| ==> !IsSpace(s[n]))
    ensures LeadingSpaceCount(s) == n
    decreases n
  {
    if n > 0 {
      assert IsSpace(s[..n][0]);
      assert s[1..][..n - 1] == s[1..n];
      LeadingSpaceCountOf(s[1..], n - 1);
    }
  }

  /** The length of the longest all-whitespace suffix. */
  function TrailingSpaceCount(s: string): (k: nat)
    ensures k <= |s| && AllSpace(s[|s| - k..])
    ensures k < |s| ==> !IsSpace(s[|s| - 1 - k])
    decreases |s|
  {
    if s == [] || !IsSpace(s[|s| - 1]) then 0
    else
      var p := s[..|s| - 1];
      var k := 1 + TrailingSpaceCount(p);
      assert s[|s| - k..] == p[|p| - (k - 1)..] + [s[|s| - 1]];
      k
  }

  /** JavaScript `String.prototype.trim`: the input is the result with
      whitespace on either side, and the result neither starts nor ends with
      whitespace. These two facts determine the result. */
  function Trim(s: string): (r: string)
    ensures |r| <= |s|
    ensures r == [] || (!IsSpace(r[0]) && !IsSpace(r[|r| - 1]))
    ensures LeadingSpaceCount(s) + |r| <= |s| && s[LeadingSpaceCount(s)..LeadingSpaceCount(s) + |r|] == r
    ensures AllSpace(s[LeadingSpaceCount(s) + |r|..])
  {
    if LeadingSpaceCount(s) == |s| then []
    else
      TrailingStopsBefore(s, LeadingSpaceCount(s));
      s[LeadingSpaceCount(s)..|s| - TrailingSpaceCount(s)]
  }

  /** Trailing whitespace stops before any character that is not
      whitespace. */
  lemma {:induction false} TrailingStopsBefore(s: string, a: nat)
    requires a < |s| && !IsSpace(s[a])
    ensures TrailingSpaceCount(s) < |s| - a
  {
    AllSpaceDrop(s, |s| - TrailingSpaceCount(s));
  }

  lemma {:induction false} AllSpaceDrop(s: string, k: nat)
    requires k <= |s| && AllSpace(s[k..])
    ensures forall j :: k <= j < |s| ==> IsSpace(s[j])
  {
    forall j | k <= j < |s| ensures IsSpace(s[j]) {
      assert s[k..][j - k] == s[j];
    }
  }

  /** A string with no whitespace at either end is its own trim. */
  lemma {:induction false} TrimNoop(s: string)
    requires s == [] || (!IsSpace(s[0]) && !IsSpace(s[|s| - 1]))
    ensures Trim(s) == s
  {
    var a := LeadingSpaceCount(s);
    assert a == 0;
    assert s[a..] == s;
  }

  // ---------------------------------------------------------------------------
  // toUpperCase
  // ---------------------------------------------------------------------------

  function UpperChar(c: char): char {
    if 'a' <= c <= 'z' then ((c as int) - 32) as char else c
  }

  /** `toUpperCase` on ASCII letters: each lower-case letter becomes its
      capital, every other character stays, and no lower-case letter is left. */
  function ToUpper(s: string): (r: string)
    ensures |r| == |s|
    ensures forall i :: 0 <= i < |s| && 'a' <= s[i] <= 'z' ==> r[i] == ((s[i] as int) - 32) as char
    ensures forall i :: 0 <= i < |s| && !('a' <= s[i] <= 'z') ==> r[i] == s[i]
    ensures forall i :: 0 <= i < |r| ==> !('a' <= r[i] <= 'z')
  {
    seq(|s|, i requires 0 <= i < |s| => UpperChar(s[i]))
  }

  /** Upper-casing twice changes nothing the first pass did not. */
  lemma {:induction false} ToUpperIdempotent(s: string)
    ensures ToUpper(ToUpper(s)) == ToUpper(s)
  {
  }

  // ---------------------------------------------------------------------------
  // includes
  // ---------------------------------------------------------------------------

  predicate IsPrefix(p: string, s: string) {
    |p| <= |s| && s[..|p|] == p
  }

  /** `s.includes(sub)`, scanning from the left. */
  predicate Includes(s: string, sub: string)
    decreases |s|
  {
    IsPrefix(sub, s) || (s != [] && Includes(s[1..], sub))
  }

  /** `sub` occurs in `s` starting at index `i`. */
  predicate OccursAt(s: string, sub: string, i: int) {
    0 <= i <= |s| - |sub| && s[i..i + |sub|] == sub
  }

  /** The scan agrees with the definition of a substring: some slice of `s`
      equals `sub`. */
  lemma {:induction false} IncludesIffSlice(s: string, sub: string)
    ensures Includes(s, sub) <==> exists i :: OccursAt(s, sub, i)
    decreases |s|
  {
    if IsPrefix(sub, s) {
      assert OccursAt(s, sub, 0);
    } else if s == [] {
    } else {
      IncludesIffSlice(s[1..], sub);
      if Includes(s[1..], sub) {
        var i :| OccursAt(s[1..], sub, i);
        assert OccursAt(s, sub, i + 1);
      }
      if exists i :: OccursAt(s, sub, i) {
        var i :| OccursAt(s, sub, i);
        assert i != 0;
        assert OccursAt(s[1..], sub, i - 1);
      }
    }
  }

  // ---------------------------------------------------------------------------
  // join(" ") and padStart
  // ---------------------------------------------------------------------------

  /** `parts.join(" ")`. */
  function JoinWithSpaces(parts: seq<string>): string
    decreases |parts|
  {
    if |parts| == 0 then "" else if |parts| == 1 then parts[0]
    else parts[0] + " " + JoinWithSpaces(parts[1..])
  }

  /** Pushing one more part appends a single space and that part. */
  lemma {:induction false} JoinWithSpacesSnoc(parts: seq<string>, x: string)
    requires |parts| > 0
    ensures JoinWithSpaces(parts + [x]) == JoinWithSpaces(parts) + " " + x
    decreases |parts|
  {
    if |parts| == 1 {
      assert (parts + [x])[1..] == [x];
    } else {
      assert (parts + [x])[1..] == parts[1..] + [x];
      JoinWithSpacesSnoc(parts[1..], x);
    }
  }

  /** Joining two non-empty lists of parts puts one space between them. */
  lemma {:induction false} JoinWithSpacesAppend(a: seq<string>, b: seq<string>)
    requires |a| > 0 && |b| > 0
    ensures JoinWithSpaces(a + b) == JoinWithSpaces(a) + " " + JoinWithSpaces(b)
    decreases |a|
  {
    if |a| == 1 {
      assert (a + b)[1..] == b;
    } else {
      assert (a + b)[1..] == a[1..] + b;
      JoinWithSpacesAppend(a[1..], b);
    }
  }

  /** The joined text of two or more parts starts with the first and a space. */
  lemma {:induction false} JoinWithSpacesHead(parts: seq<string>)
    requires |parts| >= 2
    ensures JoinWithSpaces(parts) == parts[0] + " " + JoinWithSpaces(parts[1..])
  {
  }

  /** `s.split(" ")`: the pieces between single spaces, empty pieces
      included. The inverse of joining with spaces. */
  function SplitOnSpace(s: string): (r: seq<string>)
    ensures |r| >= 1
    decreases |s|
  {
    if s == [] then [""]
    else
      var rest := SplitOnSpace(s[1..]);
      if s[0] == ' ' then [""] + rest
      else [[s[0]] + rest[0]] + rest[1..]
  }

  /** A piece without spaces in front of a space splits off on its own. */
  lemma {:induction false} SplitOnSpacePiece(p: string, s: string)
    requires ' ' !in p
    ensures SplitOnSpace(p + " " + s) == [p] + SplitOnSpace(s)
    decreases |p|
  {
    if p == [] {
      assert p + " " + s == [' '] + s;
      assert ([' '] + s)[1..] == s;
    } else {
      SplitOnSpacePiece(p[1..], s);
      assert (p + " " + s)[1..] == p[1..] + " " + s;
      assert [p[0]] + p[1..] == p;
    }
  }

  /** Text without spaces is one piece. */
  lemma {:induction false} SplitOnSpaceWhole(p: string)
    requires ' ' !in p
    ensures SplitOnSpace(p) == [p]
    decreases |p|
  {
    if p != [] {
      SplitOnSpaceWhole(p[1..]);
      assert [p[0]] + p[1..] == p;
    }
  }

  /** Splitting a joined line gives back its parts when none of them holds a
      space, empty parts included. */
  lemma {:induction false} SplitJoinWithSpaces(parts: seq<string>)
    requires |parts| >= 1 && forall i :: 0 <= i < |parts| ==> ' ' !in parts[i]
    ensures SplitOnSpace(JoinWithSpaces(parts)) == parts
    decreases |parts|
  {
    if |parts| == 1 {
      SplitOnSpaceWhole(parts[0]);
    } else {
      assert ' ' !in parts[0];
      SplitOnSpacePiece(parts[0], JoinWithSpaces(parts[1..]));
      SplitJoinWithSpaces(parts[1..]);
      assert parts == [parts[0]] + parts[1..];
    }
  }

  /** Joining more parts extends the joined text. */
  lemma {:induction false} JoinWithSpacesPrefix(a: seq<string>, b: seq<string>)
    requires |a| > 0
    ensures IsPrefix(JoinWithSpaces(a), JoinWithSpaces(a + b))
  {
    if b == [] {
      assert a + b == a;
    } else {
      JoinWithSpacesAppend(a, b);
    }
  }

  /** Trimming keeps a prefix that starts and ends with non-whitespace. */
  lemma {:induction false} TrimKeepsPrefix(s: string, p: string)
    requires IsPrefix(p, s) && |p| > 0 && !IsSpace(p[0]) && !IsSpace(p[|p| - 1])
    ensures IsPrefix(p, Trim(s))
  {
    var r := Trim(s);
    var lead := LeadingSpaceCount(s);
    assert r[..|p|] == s[..|p|];
  }

  function Repeat(c: char, n: nat): (r: string)
    ensures |r| == n && forall i :: 0 <= i < n ==> r[i] == c
  {
    seq(n, _ => c)
  }

  /** `s.padStart(width, c)` for a one-character pad string. */
  function PadStart(s: string, width: nat, c: char): (r: string)
    ensures |s| >= width ==> r == s
    ensures |s| < width ==> |r| == width
    ensures |r| >= |s| && r[|r| - |s|..] == s
    ensures forall i :: 0 <= i < |r| - |s| ==> r[i] == c
  {
    if |s| >= width then s else Repeat(c, width - |s|) + s
  }
}
