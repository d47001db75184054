/** String helpers standing in for the Python `str` methods the core uses:
    `strip`, `lower`/`casefold`, `endswith`, `in` (substring), `split('\n')`
    and `str(int)`. Whitespace is the full set `str.isspace` accepts; case
    mapping is modelled on ASCII letters only. */
module Text {

  /** The characters Python's `str.strip()` removes: those `str.isspace`
      accepts, i.e. general category Zs or bidirectional class WS, B or S.
      In ASCII these are tab to carriage return, the four separators
      0x1C to 0x1F, and the space. */
  predicate IsSpace(c: char) {
    c as int in SpaceCodes
  }

  const SpaceCodes: set<int> := {
    0x09, 0x0A, 0x0B, 0x0C, 0x0D, 0x1C, 0x1D, 0x1E, 0x1F, 0x20, 0x85, 0xA0, 0x1680,
    0x2000, 0x2001, 0x2002, 0x2003, 0x2004, 0x2005, 0x2006, 0x2007, 0x2008, 0x2009, 0x200A,
    0x2028, 0x2029, 0x202F, 0x205F, 0x3000 }

  predicate AllSpace(s: string) {
    forall i :: 0 <= i < |s| ==> IsSpace(s[i])
  }

  function TrimLeft(s: string): (r: string)
    ensures |r| <= |s| && r == s[|s| - |r|..]
    ensures AllSpace(s[..|s| - |r|])
    ensures r != [] ==> !IsSpace(r[0])
  {
    if s != [] && IsSpace(s[0]) then TrimLeft(s[1..]) else s
  }

  function TrimRight(s: string): (r: string)
    ensures |r| <= |s| && r == s[..|r|]
    ensures AllSpace(s[|r|..])
    ensures r != [] ==> !IsSpace(r[|r| - 1])
  {
    if s != [] && IsSpace(s[|s| - 1]) then TrimRight(s[..|s| - 1]) else s
  }

  /** Neither starts nor ends with whitespace. */
  predicate IsStripped(s: string) {
    s != [] ==> !IsSpace(s[0]) && !IsSpace(s[|s| - 1])
  }

  /** Python's `s.strip()`. */
  function Strip(s: string): (r: string)
    ensures IsStripped(r)
  {
    var l := TrimLeft(s);
    var r := TrimRight(l);
    assert r != [] ==> r[0] == l[0];
    r
  }

  /** Where the stripped text starts in the input. */
  function StripStart(s: string): nat
  {
    |s| - |TrimLeft(s)|
  }

  /** `Strip` removes only surrounding whitespace: the result is the slice of
      the input between two runs of whitespace, and it neither starts nor
      ends with whitespace. */
  lemma StripShape(s: string)
    ensures StripStart(s) + |Strip(s)| <= |s|
    ensures Strip(s) == s[StripStart(s)..StripStart(s) + |Strip(s)|]
    ensures AllSpace(s[..StripStart(s)]) && AllSpace(s[StripStart(s) + |Strip(s)|..])
    ensures Strip(s) != [] ==> !IsSpace(Strip(s)[0]) && !IsSpace(Strip(s)[|Strip(s)| - 1])
  {
    StripSlice(s);
    StripCut(s);
  }

  /** The stripped text is a slice of the input. */
  lemma StripSlice(s: string)
    ensures StripStart(s) + |Strip(s)| <= |s|
    ensures Strip(s) == s[StripStart(s)..StripStart(s) + |Strip(s)|]
  {
    var l := TrimLeft(s);
    var r := TrimRight(l);
    var a := StripStart(s);
    assert l == s[a..];
    assert r == l[..|r|];
  }

  /** What `Strip` cuts on either side is whitespace. */
  lemma StripCut(s: string)
    ensures StripStart(s) + |Strip(s)| <= |s|
    ensures AllSpace(s[..StripStart(s)]) && AllSpace(s[StripStart(s) + |Strip(s)|..])
  {
    var l := TrimLeft(s);
    var r := TrimRight(l);
    var a := StripStart(s);
    assert s[a + |r|..] == l[|r|..];
  }

  /** A stripped string is left as it is, so stripping twice is stripping once. */
  lemma StrippedIsFixed(s: string)
    requires IsStripped(s)
    ensures Strip(s) == s
  {
  }

  lemma StripIdempotent(s: string)
    ensures Strip(Strip(s)) == Strip(s)
  {
    StrippedIsFixed(Strip(s));
  }

  /** The stripped text is empty exactly when the input is all whitespace. */
  lemma StripEmptyIffAllSpace(s: string)
    ensures Strip(s) == [] <==> AllSpace(s)
  {
    StripShape(s);
    var a := StripStart(s);
    if Strip(s) == [] {
      assert s == s[..a] + s[a..];
    } else {
      assert s[a] == Strip(s)[0];
    }
  }

  /** Python's `str.lower()` / `str.casefold()` on ASCII letters. */
  function LowerChar(c: char): (r: char)
    ensures !('A' <= r <= 'Z')
  {
    if 'A' <= c <= 'Z' then (c as int + 32) as char else c
  }

  /** The lowered text has no upper-case ASCII letter; every other
      character stays where it was, and an upper-case letter becomes its
      lower-case partner. */
  function Lower(s: string): (r: string)
    ensures |r| == |s|
    ensures forall i :: 0 <= i < |r| ==> !('A' <= r[i] <= 'Z')
    ensures forall i :: 0 <= i < |s| && !('A' <= s[i] <= 'Z') ==> r[i] == s[i]
    ensures forall i :: 0 <= i < |s| && 'A' <= s[i] <= 'Z' ==> 'a' <= r[i] <= 'z' && r[i] as int - s[i] as int == 'a' as int - 'A' as int
  {
    seq(|s|, i requires 0 <= i < |s| => LowerChar(s[i]))
  }

  /** Lowering twice is lowering once. */
  lemma LowerIdempotent(s: string)
    ensures Lower(Lower(s)) == Lower(s)
  {
  }

  /** Python's `suffix in ...`-free `s.endswith(suffix)`. */
  predicate EndsWith(s: string, suffix: string) {
    |suffix| <= |s| && s[|s| - |suffix|..] == suffix
  }

  /** Python's `needle in hay` on strings; the empty needle occurs everywhere. */
  predicate Contains(hay: string, needle: string) {
    exists i :: 0 <= i <= |hay| - |needle| && OccursAt(hay, needle, i)
  }

  predicate OccursAt(hay: string, needle: string, i: nat)
    requires i + |needle| <= |hay|
  {
    hay[i..i + |needle|] == needle
  }

  /** Python's `s.split(sep)` for a single-character separator. */
  function Split(s: string, sep: char): (r: seq<string>)
    ensures |r| >= 1
    ensures forall k :: 0 <= k < |r| ==> sep !in r[k]
    decreases |s|
  {
    if sep !in s then [s]
    else
      var i := IndexOf(s, sep);
      [s[..i]] + Split(s[i + 1..], sep)
  }

  function IndexOf(s: string, c: char): (i: nat)
    requires c in s
    ensures i < |s| && s[i] == c && c !in s[..i]
  {
    if s[0] == c then 0 else 1 + IndexOf(s[1..], c)
  }

  /** Joining the pieces of a split with the separator gives the input back. */
  function Join(parts: seq<string>, sep: char): string
    requires |parts| >= 1
  {
    if |parts| == 1 then parts[0] else parts[0] + [sep] + Join(parts[1..], sep)
  }

  lemma {:induction false} SplitJoin(s: string, sep: char)
    ensures Join(Split(s, sep), sep) == s
    decreases |s|
  {
    if sep in s {
      var i := IndexOf(s, sep);
      var rest := Split(s[i + 1..], sep);
      SplitJoin(s[i + 1..], sep);
      assert Split(s, sep) == [s[..i]] + rest;
      assert ([s[..i]] + rest)[1..] == rest;
      assert s == s[..i] + [sep] + s[i + 1..];
    }
  }

  /** A separator between two pieces splits into the pieces of each side. */
  lemma {:induction false} SplitAppend(a: string, b: string, sep: char)
    requires sep !in a
    ensures Split(a + [sep] + b, sep) == [a] + Split(b, sep)
  {
    var s := a + [sep] + b;
    assert s[|a|] == sep;
    var i := IndexOf(s, sep);
    assert s[..|a|] == a;
    assert i == |a|;
    assert s[i + 1..] == b;
  }

  /** Python's `str(n)` for a natural number. */
  function DecimalString(n: nat): (r: string)
    ensures |r| >= 1
    ensures forall k :: 0 <= k < |r| ==> '0' <= r[k] <= '9'
  {
    if n < 10 then [('0' as int + n) as char]
    else DecimalString(n / 10) + [('0' as int + n % 10) as char]
  }

  function Pow10(k: nat): (r: nat)
    ensures r >= 1
  {
    if k == 0 then 1 else 10 * Pow10(k - 1)
  }

  /** A number at least 10^k needs more than k digits. */
  lemma {:induction false} DecimalStringLength(n: nat, k: nat)
    requires n >= Pow10(k)
    ensures |DecimalString(n)| > k
  {
    if k > 0 {
      DecimalStringLength(n / 10, k - 1);
    }
  }
}
