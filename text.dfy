/** ASCII text helpers shared by every module: Python's `str.lower`,
    `str.strip`, `str.title`, `str.split`, `in`, `startswith`/`endswith`,
    `int(...)` on digit strings and `str(int)`, restricted to ASCII. */
module Text {

  type String = seq<char>

  /** Python's `str.isspace` (and regex `\s`) on ASCII: \t \n \v \f \r,
      the four separators 0x1C-0x1F, and the space. */
  predicate IsSpace(c: char) {
    (9 <= c as int <= 13) || (28 <= c as int <= 32)
  }

  predicate IsDigit(c: char) { '0' <= c <= '9' }

  predicate IsUpper(c: char) { 'A' <= c <= 'Z' }

  predicate IsLower(c: char) { 'a' <= c <= 'z' }

  /** A cased character in the sense of `str.title` (ASCII letters). */
  predicate IsAlpha(c: char) { IsUpper(c) || IsLower(c) }

  /** Regex `\w` on ASCII: letters, digits and underscore. */
  predicate IsWordChar(c: char) { IsAlpha(c) || IsDigit(c) || c == '_' }

  function LowerChar(c: char): (r: char)
    ensures !IsUpper(r)
    ensures IsAlpha(c) <==> IsAlpha(r)
    ensures !IsUpper(c) ==> r == c
  {
    if IsUpper(c) then (c as int + 32) as char else c
  }

  function UpperChar(c: char): (r: char)
    ensures !IsLower(r)
    ensures IsAlpha(c) <==> IsAlpha(r)
    ensures !IsLower(c) ==> r == c
  {
    if IsLower(c) then (c as int - 32) as char else c
  }

  /** `str.lower()` */
  function Lower(s: String): (r: String)
    ensures |r| == |s|
    ensures forall i :: 0 <= i < |s| ==> r[i] == LowerChar(s[i])
  {
    if s == [] then [] else [LowerChar(s[0])] + Lower(s[1..])
  }

  lemma LowerIdempotent(s: String)
    ensures Lower(Lower(s)) == Lower(s)
  {
  }

  lemma LowerAppend(a: String, b: String)
    ensures Lower(a + b) == Lower(a) + Lower(b)
  {
  }

  /** `s.startswith(p)` */
  predicate StartsWith(s: String, p: String) {
    |p| <= |s| && s[..|p|] == p
  }

  /** `s.endswith(p)` */
  predicate EndsWith(s: String, p: String) {
    |p| <= |s| && s[|s| - |p|..] == p
  }

  /** Python's `sub in s` */
  predicate Contains(s: String, sub: String)
    decreases |s|
  {
    StartsWith(s, sub) || (s != [] && Contains(s[1..], sub))
  }

  /** `Contains` means the fragment occurs at some position. */
  lemma {:induction false} ContainsAt(s: String, sub: String, i: nat)
    requires i + |sub| <= |s| && s[i..i + |sub|] == sub
    ensures Contains(s, sub)
    decreases i
  {
    if i > 0 {
      assert s[1..][i - 1..i - 1 + |sub|] == s[i..i + |sub|];
      ContainsAt(s[1..], sub, i - 1);
    }
  }

  lemma {:induction false} ContainsSome(s: String, sub: String) returns (i: nat)
    requires Contains(s, sub)
    ensures i + |sub| <= |s| && s[i..i + |sub|] == sub
    decreases |s|
  {
    if StartsWith(s, sub) {
      i := 0;
    } else {
      var j := ContainsSome(s[1..], sub);
      assert s[1..][j..j + |sub|] == s[j + 1..j + 1 + |sub|];
      i := j + 1;
    }
  }

  lemma ContainsSelf(s: String)
    ensures Contains(s, s)
  {
    assert StartsWith(s, s);
  }

  lemma ContainsEmpty(s: String)
    ensures Contains(s, [])
  {
    assert StartsWith(s, []);
  }

  /** Case-insensitive containment as pandas' `str.contains(x, case=False)`
      performs it for a fragment that holds no regex metacharacter. */
  predicate ContainsIgnoreCase(s: String, sub: String) {
    Contains(Lower(s), Lower(sub))
  }

  /** `s.lstrip()` */
  function TrimLeft(s: String): (r: String)
    ensures r == [] || !IsSpace(r[0])
    ensures |r| <= |s| && r == s[|s| - |r|..]
    ensures forall i :: 0 <= i < |s| - |r| ==> IsSpace(s[i])
    decreases |s|
  {
    if s != [] && IsSpace(s[0]) then TrimLeft(s[1..]) else s
  }

  /** `s.rstrip()` */
  function TrimRight(s: String): (r: String)
    ensures r == [] || !IsSpace(r[|r| - 1])
    ensures |r| <= |s| && r == s[..|r|]
    ensures forall i :: |r| <= i < |s| ==> IsSpace(s[i])
    decreases |s|
  {
    if s != [] && IsSpace(s[|s| - 1]) then TrimRight(s[..|s| - 1]) else s
  }

  /** `s.strip()`: the input with its leading and trailing whitespace cut
      away; what remains starts and ends with a non-space character. */
  function Strip(s: String): (r: String)
    ensures r == [] || (!IsSpace(r[0]) && !IsSpace(r[|r| - 1]))
    ensures |r| <= |s|
    ensures r == [] <==> forall i :: 0 <= i < |s| ==> IsSpace(s[i])
  {
    var l := TrimLeft(s);
    var r := TrimRight(l);
    r
  }

  /** Drop the maximal run of whitespace at the front. */
  function DropSpaces(s: String): (r: String)
    ensures |r| <= |s|
    ensures r == [] || !IsSpace(r[0])
    decreases |s|
  {
    if s != [] && IsSpace(s[0]) then DropSpaces(s[1..]) else s
  }

  /** `re.sub(r'\s+', ' ', s)`: every maximal whitespace run becomes one space. */
  function CollapseSpaces(s: String): (r: String)
    decreases |s|
  {
    if s == [] then []
    else if IsSpace(s[0]) then [' '] + CollapseSpaces(DropSpaces(s))
    else [s[0]] + CollapseSpaces(s[1..])
  }

  /** Whitespace appears only as single spaces between other characters. */
  ghost predicate SingleSpaced(r: String) {
    && (forall i :: 0 <= i < |r| && IsSpace(r[i]) ==> r[i] == ' ')
    && (forall i :: 0 <= i < |r| - 1 ==> !(IsSpace(r[i]) && IsSpace(r[i + 1])))
  }

  /** The result of a collapse has no whitespace other than single spaces, and
      a collapsed string that started with a non-space still starts with it. */
  lemma {:induction false} CollapseSingleSpaced(s: String)
    ensures SingleSpaced(CollapseSpaces(s))
    ensures s != [] ==> CollapseSpaces(s) != [] && (IsSpace(CollapseSpaces(s)[0]) <==> IsSpace(s[0]))
    decreases |s|
  {
    if s == [] {
    } else if IsSpace(s[0]) {
      var d := DropSpaces(s);
      CollapseSingleSpaced(d);
    } else {
      CollapseSingleSpaced(s[1..]);
    }
  }

  lemma SliceSingleSpaced(r: String, i: nat, j: nat)
    requires i <= j <= |r| && SingleSpaced(r)
    ensures SingleSpaced(r[i..j])
  {
    var t := r[i..j];
    forall k | 0 <= k < |t| - 1 ensures !(IsSpace(t[k]) && IsSpace(t[k + 1])) {
      assert t[k] == r[i + k] && t[k + 1] == r[i + k + 1];
    }
  }

  /** `Strip` keeps a single-spaced string single-spaced. */
  lemma StripSingleSpaced(r: String)
    requires SingleSpaced(r)
    ensures SingleSpaced(Strip(r))
  {
    var l := TrimLeft(r);
    SliceSingleSpaced(r, |r| - |l|, |r|);
    SliceSingleSpaced(l, 0, |TrimRight(l)|);
  }

  /** `str.title()` on ASCII: a letter is upper-cased when the character
      before it is not a letter, and lower-cased otherwise. */
  function Title(s: String): (r: String)
    ensures |r| == |s|
  {
    seq(|s|, i requires 0 <= i < |s| => TitleCharAt(s, i))
  }

  function TitleCharAt(s: String, i: nat): char
    requires i < |s|
  {
    if i > 0 && IsAlpha(s[i - 1]) then LowerChar(s[i]) else UpperChar(s[i])
  }

  /** In a title-cased string an upper-case letter never follows a letter,
      and a letter is upper-case when no letter precedes it. */
  lemma TitleNoUpperAfterLetter(s: String, i: nat)
    requires 0 < i < |s|
    ensures IsAlpha(Title(s)[i - 1]) ==> !IsUpper(Title(s)[i])
    ensures IsLower(s[i]) && !IsAlpha(s[i - 1]) ==> IsUpper(Title(s)[i])
  {
    assert Title(s)[i - 1] == TitleCharAt(s, i - 1);
  }

  /** A prefix of a title-cased string is the title case of the prefix. */
  lemma TitlePrefix(s: String, n: nat)
    requires n <= |s|
    ensures Title(s)[..n] == Title(s[..n])
  {
  }

  /** `str.split()` with no argument: the maximal runs of non-whitespace. */
  function SplitWords(s: String): (r: seq<String>)
    ensures forall w :: w in r ==> w != [] && forall k :: 0 <= k < |w| ==> !IsSpace(w[k])
    decreases |s|
  {
    var t := DropSpaces(s);
    if t == [] then []
    else
      var n := WordLen(t, 0);
      [t[..n]] + SplitWords(t[n..])
  }

  /** Length of the run of non-space characters of `s` starting at `i`. */
  function WordLen(s: String, i: nat): (n: nat)
    requires i <= |s|
    ensures i + n <= |s|
    ensures forall k :: i <= k < i + n ==> !IsSpace(s[k])
    ensures i + n == |s| || IsSpace(s[i + n])
    decreases |s| - i
  {
    if i < |s| && !IsSpace(s[i]) then 1 + WordLen(s, i + 1) else 0
  }

  /** Replace every occurrence of `a` by `b`, as `str.replace` does for a
      one-character pattern. */
  function ReplaceChar(s: String, a: char, b: char): (r: String)
    ensures |r| == |s|
    ensures a != b ==> a !in r
    ensures a !in s ==> r == s
  {
    seq(|s|, i requires 0 <= i < |s| => if s[i] == a then b else s[i])
  }

  // ---- numbers ---------------------------------------------------------

  function DigitValue(c: char): (d: nat)
    requires IsDigit(c)
    ensures d < 10
  {
    c as int - '0' as int
  }

  function DigitChar(d: nat): (c: char)
    requires d < 10
    ensures IsDigit(c) && DigitValue(c) == d
  {
    ('0' as int + d) as char
  }

  predicate AllDigits(s: String) {
    forall i :: 0 <= i < |s| ==> IsDigit(s[i])
  }

  /** Python's `int(ds)` for a string of ASCII digits. */
  function DigitsValue(ds: String): nat
    requires AllDigits(ds)
  {
    if ds == [] then 0 else DigitsValue(ds[..|ds| - 1]) * 10 + DigitValue(ds[|ds| - 1])
  }

  /** `str(n)` for a natural number. */
  function NatToString(n: nat): (r: String)
    ensures r != [] && AllDigits(r)
  {
    if n < 10 then [DigitChar(n)] else NatToString(n / 10) + [DigitChar(n % 10)]
  }

  /** `int(str(n)) == n` */
  lemma {:induction false} NatToStringRoundTrip(n: nat)
    ensures DigitsValue(NatToString(n)) == n
  {
    if n >= 10 {
      NatToStringRoundTrip(n / 10);
      var s := NatToString(n);
      assert s[..|s| - 1] == NatToString(n / 10);
    }
  }

  /** `str(i)` for any integer. */
  function IntToString(i: int): (r: String)
    ensures r != []
    ensures (i < 0) <==> r[0] == '-'
  {
    if i < 0 then "-" + NatToString(-i) else NatToString(i)
  }

  /** Length of the run of digits of `s` starting at `i`. */
  function DigitRunLen(s: String, i: nat): (n: nat)
    requires i <= |s|
    ensures i + n <= |s|
    ensures AllDigits(s[i..i + n])
    ensures i + n == |s| || !IsDigit(s[i + n])
    decreases |s| - i
  {
    if i < |s| && IsDigit(s[i]) then 1 + DigitRunLen(s, i + 1) else 0
  }

  /** Length of the run of whitespace of `s` starting at `i`. */
  function SpaceRunLen(s: String, i: nat): (n: nat)
    requires i <= |s|
    ensures i + n <= |s|
    ensures forall k :: i <= k < i + n ==> IsSpace(s[k])
    ensures i + n == |s| || !IsSpace(s[i + n])
    decreases |s| - i
  {
    if i < |s| && IsSpace(s[i]) then 1 + SpaceRunLen(s, i + 1) else 0
  }

  /** Length of the run of `\w` characters of `s` starting at `i`. */
  function WordCharRunLen(s: String, i: nat): (n: nat)
    requires i <= |s|
    ensures i + n <= |s|
    ensures forall k :: i <= k < i + n ==> IsWordChar(s[k])
    ensures i + n == |s| || !IsWordChar(s[i + n])
    decreases |s| - i
  {
    if i < |s| && IsWordChar(s[i]) then 1 + WordCharRunLen(s, i + 1) else 0
  }
}
