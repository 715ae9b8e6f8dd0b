/** The string handling the pipeline needs: decimal digits, ASCII case mapping, Python's
    str.strip() whitespace, POSIX os.path.splitext and two-decimal fixed-point rendering. */
module Text {

  predicate IsDigit(c: char) {
    '0' <= c <= '9'
  }

  predicate AllDigits(s: string) {
    forall i :: 0 <= i < |s| ==> IsDigit(s[i])
  }

  /** int() of a run of decimal digits: leading zeros contribute nothing. */
  function DigitsValue(s: string): (n: nat)
    requires AllDigits(s)
  {
    if |s| == 0 then 0
    else DigitsValue(s[..|s| - 1]) * 10 + (s[|s| - 1] as int - '0' as int)
  }

  /** The value of a two-digit run. */
  lemma TwoDigitsValue(a: char, b: char)
    requires IsDigit(a) && IsDigit(b)
    ensures DigitsValue([a, b]) == (a as int - '0' as int) * 10 + (b as int - '0' as int)
  {
    var s := [a, b];
    assert DigitsValue([a]) == a as int - '0' as int by {
      assert [a][..0] == [];
    }
    assert s[..1] == [a];
  }

  lemma {:induction false} LeadingZeroIgnored(s: string)
    requires AllDigits(s)
    ensures DigitsValue("0" + s) == DigitsValue(s)
  {
    if |s| > 0 {
      assert ("0" + s)[..|s|] == "0" + s[..|s| - 1];
      LeadingZeroIgnored(s[..|s| - 1]);
    } else {
      assert ("0" + s)[..0] == "";
    }
  }

  function DigitChar(d: nat): (c: char)
    requires d < 10
    ensures IsDigit(c) && c as int - '0' as int == d
  {
    ('0' as int + d) as char
  }

  /** str(n) for a natural number. */
  function NatToString(n: nat): (s: string)
    ensures |s| > 0 && AllDigits(s) && DigitsValue(s) == n
    decreases n
  {
    if n < 10 then [DigitChar(n)]
    else
      var front := NatToString(n / 10);
      var s := front + [DigitChar(n % 10)];
      assert s[..|s| - 1] == front;
      s
  }

  /** The characters for which Python's str.isspace() holds. */
  predicate IsSpace(c: char) {
    c in {' ', '\t', '\n', '\r', '\U{B}', '\U{C}', '\U{1C}', '\U{1D}',
          '\U{1E}', '\U{1F}', '\U{85}', '\U{A0}', '\U{1680}', '\U{2000}', '\U{2001}', '\U{2002}',
          '\U{2003}', '\U{2004}', '\U{2005}', '\U{2006}', '\U{2007}', '\U{2008}', '\U{2009}', '\U{200A}',
          '\U{2028}', '\U{2029}', '\U{202F}', '\U{205F}', '\U{3000}'}
  }

  function StripLeft(s: string): (r: string)
    ensures |r| <= |s| && r == s[|s| - |r|..]
    ensures |r| > 0 ==> !IsSpace(r[0])
  {
    if |s| > 0 && IsSpace(s[0]) then StripLeft(s[1..]) else s
  }

  function StripRight(s: string): (r: string)
    ensures |r| <= |s| && r == s[..|r|]
    ensures |r| > 0 ==> !IsSpace(r[|r| - 1])
  {
    if |s| > 0 && IsSpace(s[|s| - 1]) then StripRight(s[..|s| - 1]) else s
  }

  /** str.strip(): a contiguous slice with no surrounding whitespace. */
  function Strip(s: string): (r: string)
    ensures var k := |s| - |StripLeft(s)|; k + |r| <= |s| && r == s[k..k + |r|]
    ensures |r| > 0 ==> !IsSpace(r[0]) && !IsSpace(r[|r| - 1])
  {
    var l := StripLeft(s);
    var r := StripRight(l);
    assert l == s[|s| - |l|..];
    assert r == l[..|r|];
    r
  }

  /** Only whitespace is removed, and all of it: every character before the slice Strip
      keeps and every character after it is whitespace. */
  lemma StripRemovesBlanks(s: string)
    ensures var r, k := Strip(s), |s| - |StripLeft(s)|;
      && (forall i :: 0 <= i < k ==> IsSpace(s[i]))
      && (forall i :: k + |r| <= i < |s| ==> IsSpace(s[i]))
  {
    var l := StripLeft(s);
    StripLeftRemovesBlanks(s);
    StripRightRemovesBlanks(l);
    var k := |s| - |l|;
    assert l == s[k..];
    forall i | k + |Strip(s)| <= i < |s| ensures IsSpace(s[i]) {
      assert s[i] == l[i - k];
    }
  }

  lemma {:induction false} StripLeftRemovesBlanks(s: string)
    ensures forall i :: 0 <= i < |s| - |StripLeft(s)| ==> IsSpace(s[i])
  {
    if |s| > 0 && IsSpace(s[0]) {
      StripLeftRemovesBlanks(s[1..]);
      forall i | 1 <= i < |s| - |StripLeft(s)| ensures IsSpace(s[i]) {
        assert s[i] == s[1..][i - 1];
      }
    }
  }

  lemma {:induction false} StripRightRemovesBlanks(s: string)
    ensures forall i :: |StripRight(s)| <= i < |s| ==> IsSpace(s[i])
  {
    if |s| > 0 && IsSpace(s[|s| - 1]) {
      StripRightRemovesBlanks(s[..|s| - 1]);
      forall i | |StripRight(s)| <= i < |s| - 1 ensures IsSpace(s[i]) {
        assert s[i] == s[..|s| - 1][i];
      }
    }
  }

  function LowerChar(c: char): char {
    if 'A' <= c <= 'Z' then (c as int + 32) as char else c
  }

  function UpperChar(c: char): char {
    if 'a' <= c <= 'z' then (c as int - 32) as char else c
  }

  /** str.lower() on ASCII letters. */
  function Lower(s: string): (r: string)
    ensures |r| == |s| && forall i :: 0 <= i < |s| ==> r[i] == LowerChar(s[i])
  {
    seq(|s|, i requires 0 <= i < |s| => LowerChar(s[i]))
  }

  /** str.upper() on ASCII letters. */
  function Upper(s: string): (r: string)
    ensures |r| == |s| && forall i :: 0 <= i < |s| ==> r[i] == UpperChar(s[i])
  {
    seq(|s|, i requires 0 <= i < |s| => UpperChar(s[i]))
  }

  /** lower() leaves no upper-case ASCII letter, turns each one into the same letter in
      lower case, and keeps every other character. */
  lemma LowerCases(s: string)
    ensures forall i :: 0 <= i < |s| ==> !('A' <= Lower(s)[i] <= 'Z')
    ensures forall i :: 0 <= i < |s| && 'A' <= s[i] <= 'Z' ==>
      'a' <= Lower(s)[i] <= 'z' && Lower(s)[i] as int - 'a' as int == s[i] as int - 'A' as int
    ensures forall i :: 0 <= i < |s| && !('A' <= s[i] <= 'Z') ==> Lower(s)[i] == s[i]
  {
  }

  /** Lowering twice is lowering once. */
  lemma LowerIdempotent(s: string)
    ensures Lower(Lower(s)) == Lower(s)
  {
  }

  /** The allow-list comparison sees an upper-case suffix in lower case. */
  lemma LowerExtensionExample()
    ensures Lower(".WAV") == ".wav"
  {
    var e := ".WAV";
    assert e == ['.', 'W', 'A', 'V'];
    assert Lower(e) == ['.', 'w', 'a', 'v'];
  }

  /** upper() leaves no lower-case ASCII letter, turns each one into the same letter in
      upper case, and keeps every other character. */
  lemma UpperCases(s: string)
    ensures forall i :: 0 <= i < |s| ==> !('a' <= Upper(s)[i] <= 'z')
    ensures forall i :: 0 <= i < |s| && 'a' <= s[i] <= 'z' ==>
      'A' <= Upper(s)[i] <= 'Z' && Upper(s)[i] as int - 'A' as int == s[i] as int - 'a' as int
    ensures forall i :: 0 <= i < |s| && !('a' <= s[i] <= 'z') ==> Upper(s)[i] == s[i]
  {
  }

  /** The last index of character `c` in `s`, if any. */
  function LastIndexOf(s: string, c: char): (r: int)
    ensures -1 <= r < |s|
    ensures r >= 0 ==> s[r] == c
    ensures forall j :: r < j < |s| ==> s[j] != c
  {
    if |s| == 0 then -1
    else if s[|s| - 1] == c then |s| - 1
    else LastIndexOf(s[..|s| - 1], c)
  }

  /** os.path.splitext(p)[1] on POSIX: the suffix from the last '.' of the final path
      component, provided that component has a character other than '.' before that dot;
      otherwise the empty string. */
  function Extension(p: string): (ext: string)
    ensures ext == "" || (|ext| <= |p| && ext[0] == '.' && '/' !in ext && ext == p[|p| - |ext|..])
  {
    var sep := LastIndexOf(p, '/');
    var dot := LastIndexOf(p, '.');
    if dot > sep && exists k :: sep < k < dot && p[k] != '.' then
      assert forall j :: dot < j < |p| ==> p[j] != '/';
      p[dot..]
    else ""
  }

  /** The final component of a path: everything after its last '/'. */
  function BaseName(p: string): (b: string)
    ensures '/' !in b && |b| <= |p|
  {
    p[LastIndexOf(p, '/') + 1..]
  }

  /** LastIndexOf is the only index holding `c` with no `c` after it (-1 for none). */
  lemma LastIndexOfIs(s: string, c: char, r: int)
    requires r == -1 || (0 <= r < |s| && s[r] == c)
    requires forall j :: r < j < |s| ==> s[j] != c
    ensures LastIndexOf(s, c) == r
  {
  }

  /** The suffix `ext` from `dot` is a suffix of the component `b` that starts after
      `sep`. */
  lemma DotSuffix(p: string, sep: int, dot: int, b: string, ext: string)
    requires -1 <= sep < dot <= |p|
    requires b == p[sep + 1..] && ext == p[dot..]
    ensures |ext| <= |b| && ext == b[|b| - |ext|..]
  {
  }

  /** The suffix `ext` from the last '.', at `dot`, holds no other '.', and the part of
      the component `b` before it has a character other than '.' at `k`. */
  lemma DotSuffixShape(p: string, sep: int, dot: int, k: int, b: string, ext: string)
    requires -1 <= sep < k < dot < |p| && p[k] != '.' && p[dot] == '.'
    requires forall j :: dot < j < |p| ==> p[j] != '.'
    requires b == p[sep + 1..] && ext == p[dot..]
    ensures ext[0] == '.' && forall j :: 1 <= j < |ext| ==> ext[j] != '.'
    ensures 0 <= k - sep - 1 < |b| - |ext| && b[k - sep - 1] != '.'
  {
    assert forall j :: 1 <= j < |ext| ==> ext[j] == p[dot + j];
  }

  /** A '.' after a non-'.' in the component starting after `sep` lies before the last
      '.', at `dot`, with that non-'.' between them. */
  lemma StemBeforeDot(p: string, sep: int, dot: int, b: string, i: int, j: int)
    requires -1 <= sep < |p| && b == p[sep + 1..]
    requires dot == -1 || (0 <= dot < |p| && p[dot] == '.')
    requires forall q :: dot < q < |p| ==> p[q] != '.'
    requires 0 <= i < j < |b| && b[i] != '.' && b[j] == '.'
    ensures sep < sep + 1 + i < dot && p[sep + 1 + i] != '.'
  {
    assert p[sep + 1 + j] == b[j];
  }

  /** splitext takes its suffix from the final component of the path. */
  lemma ExtensionIsSuffix(p: string)
    ensures var b, ext := BaseName(p), Extension(p);
      |ext| <= |b| && ext == b[|b| - |ext|..]
  {
    var sep, dot := LastIndexOf(p, '/'), LastIndexOf(p, '.');
    if |Extension(p)| > 0 {
      DotSuffix(p, sep, dot, BaseName(p), Extension(p));
    } else {
      var b := BaseName(p);
      assert b[|b|..] == [];
    }
  }

  /** A non-empty extension starts at the final component's last '.', holds no other '.',
      and leaves a stem with a character other than '.'. */
  lemma ExtensionShape(p: string)
    ensures var b, ext := BaseName(p), Extension(p);
      |ext| > 0 ==>
        && ext[0] == '.' && (forall j :: 1 <= j < |ext| ==> ext[j] != '.')
        && exists i :: 0 <= i < |b| - |ext| && b[i] != '.'
  {
    var sep, dot := LastIndexOf(p, '/'), LastIndexOf(p, '.');
    if |Extension(p)| > 0 {
      assert |p| - |Extension(p)| == dot;
      var k :| sep < k < dot && p[k] != '.';
      DotSuffixShape(p, sep, dot, k, BaseName(p), Extension(p));
    }
  }

  /** The extension is non-empty exactly when a character other than '.' precedes a '.'
      in the final component. */
  lemma ExtensionPresent(p: string)
    ensures var b := BaseName(p);
      |Extension(p)| > 0 <==> exists i, j :: 0 <= i < j < |b| && b[i] != '.' && b[j] == '.'
  {
    var sep, dot := LastIndexOf(p, '/'), LastIndexOf(p, '.');
    var b := BaseName(p);
    forall i, j | 0 <= i < j < |b| && b[i] != '.' && b[j] == '.'
      ensures |Extension(p)| > 0
    {
      StemBeforeDot(p, sep, dot, b, i, j);
    }
    if |Extension(p)| > 0 {
      ExtensionIsSuffix(p);
      ExtensionShape(p);
      var ext := Extension(p);
      assert b[|b| - |ext|] == ext[0];
    }
  }

  /** "t.WAV" in the dotted directory "d." keeps ".WAV", a hidden file ".wav" has no
      extension, and "a.tar.gz" keeps only its last suffix ".gz". */
  lemma ExtensionExamples()
    ensures Extension(['d', '.', '/', 't', '.', 'W', 'A', 'V']) == ['.', 'W', 'A', 'V']
    ensures Extension(['.', 'w', 'a', 'v']) == []
    ensures Extension(['a', '.', 't', 'a', 'r', '.', 'g', 'z']) == ['.', 'g', 'z']
  {
    var p1 := ['d', '.', '/', 't', '.', 'W', 'A', 'V'];
    LastIndexOfIs(p1, '/', 2);
    LastIndexOfIs(p1, '.', 4);
    assert p1[3] != '.' && p1[4..] == ['.', 'W', 'A', 'V'];
    var p2 := ['.', 'w', 'a', 'v'];
    LastIndexOfIs(p2, '/', -1);
    LastIndexOfIs(p2, '.', 0);
    var p3 := ['a', '.', 't', 'a', 'r', '.', 'g', 'z'];
    LastIndexOfIs(p3, '/', -1);
    LastIndexOfIs(p3, '.', 5);
    assert p3[0] != '.' && p3[5..] == ['.', 'g', 'z'];
  }

  /** f"{x:.2f}" for x = b / 1048576 (exact in binary floating point for b < 2^53): the
      exact value times 100, rounded half-to-even, printed with two decimals. */
  function MebibytesTwoDecimals(b: nat): string
  {
    var q := (100 * b) / 1048576;
    var rem := (100 * b) % 1048576;
    var hundredths := if 2 * rem > 1048576 || (2 * rem == 1048576 && q % 2 == 1) then q + 1 else q;
    NatToString(hundredths / 100) + "." + [DigitChar(hundredths % 100 / 10), DigitChar(hundredths % 10)]
  }
}
