/**
 * String primitives shared by the text rules: Python's `str.isspace`,
 * `str.lower` (on the Latin-1 range), `str.strip()`, the `in` substring test,
 * `str.replace(pat, "")`, and the decimal conversions `str(int)` / `int(str)`.
 */
module Text {
  import opened Wrappers

  // ---------------------------------------------------------------- whitespace

  /** Exactly the characters for which Python's `str.isspace()` holds (and
      which the regular-expression class `\s` matches on `str` patterns). */
  predicate IsSpace(c: char) {
    ('\t' <= c <= '\r') || ('\U{1C}' <= c <= '\U{1F}') || c == ' '
    || c == '\U{85}' || c == '\U{A0}' || c == '\U{1680}'
    || ('\U{2000}' <= c <= '\U{200A}') || c == '\U{2028}' || c == '\U{2029}'
    || c == '\U{202F}' || c == '\U{205F}' || c == '\U{3000}'
  }

  // ---------------------------------------------------------------- lowercase

  /** Upper-case letters of the ASCII and Latin-1 ranges (À..Þ without ×). */
  predicate IsUpper(c: char) {
    ('A' <= c <= 'Z') || ('À' <= c <= 'Þ' && c != '×')
  }

  function LowerChar(c: char): (r: char)
    ensures !IsUpper(r)
    ensures IsSpace(r) <==> IsSpace(c)
    ensures !IsUpper(c) ==> r == c
  {
    if IsUpper(c) then (c as int + 32) as char else c
  }

  /** Python's `s.lower()` restricted to the Latin-1 range. */
  function Lower(s: string): (r: string)
    ensures |r| == |s|
  {
    seq(|s|, i requires 0 <= i < |s| => LowerChar(s[i]))
  }

  predicate IsLower(s: string) {
    forall i :: 0 <= i < |s| ==> !IsUpper(s[i])
  }

  lemma LowerIsLower(s: string)
    ensures IsLower(Lower(s))
    ensures IsLower(s) ==> Lower(s) == s
  {
  }

  lemma LowerIdempotent(s: string)
    ensures Lower(Lower(s)) == Lower(s)
  {
    LowerIsLower(Lower(s));
  }

  lemma LowerConcat(a: string, b: string)
    ensures Lower(a + b) == Lower(a) + Lower(b)
  {
    assert forall i :: 0 <= i < |a + b| ==> Lower(a + b)[i] == (Lower(a) + Lower(b))[i];
  }

  // ---------------------------------------------------------------- strip

  /** `s.lstrip()`: drop the leading whitespace. */
  function TrimStart(s: string): (r: string)
    ensures |r| <= |s| && r == s[|s| - |r|..]
    ensures forall i :: 0 <= i < |s| - |r| ==> IsSpace(s[i])
    ensures r != [] ==> !IsSpace(r[0])
    decreases |s|
  {
    if s != [] && IsSpace(s[0]) then TrimStart(s[1..]) else s
  }

  /** `s.rstrip()`: drop the trailing whitespace. */
  function TrimEnd(s: string): (r: string)
    ensures |r| <= |s| && r == s[..|r|]
    ensures forall i :: |r| <= i < |s| ==> IsSpace(s[i])
    ensures r != [] ==> !IsSpace(r[|r| - 1])
    decreases |s|
  {
    if s != [] && IsSpace(s[|s| - 1]) then TrimEnd(s[..|s| - 1]) else s
  }

  /** `s.strip()`: `s` without its leading and trailing whitespace. */
  function Strip(s: string): (r: string)
    ensures |r| <= |s|
    ensures r != [] ==> !IsSpace(r[0]) && !IsSpace(r[|r| - 1])
  {
    TrimEnd(TrimStart(s))
  }

  /** `strip()` returns a slice of its argument, starting at `a`. */
  lemma StripIsSlice(s: string) returns (a: nat)
    ensures a + |Strip(s)| <= |s| && Strip(s) == s[a..a + |Strip(s)|]
  {
    a := |s| - |TrimStart(s)|;
  }

  /** A string with no surrounding whitespace is its own `strip()`. */
  lemma StripNoOp(s: string)
    requires s != [] ==> !IsSpace(s[0]) && !IsSpace(s[|s| - 1])
    ensures Strip(s) == s
  {
  }

  lemma {:induction false} TrimStartLower(s: string)
    ensures TrimStart(Lower(s)) == Lower(TrimStart(s))
    decreases |s|
  {
    if s != [] && IsSpace(s[0]) {
      assert Lower(s)[1..] == Lower(s[1..]);
      TrimStartLower(s[1..]);
    }
  }

  lemma {:induction false} TrimEndLower(s: string)
    ensures TrimEnd(Lower(s)) == Lower(TrimEnd(s))
    decreases |s|
  {
    if s != [] && IsSpace(s[|s| - 1]) {
      assert Lower(s)[..|s| - 1] == Lower(s[..|s| - 1]);
      TrimEndLower(s[..|s| - 1]);
    }
  }

  /** Lowercasing never creates or removes whitespace, so it commutes with
      `strip()`. */
  lemma StripLower(s: string)
    ensures Strip(Lower(s)) == Lower(Strip(s))
  {
    TrimStartLower(s);
    TrimEndLower(TrimStart(s));
  }

  lemma LowerConcat3(a: string, b: string, c: string)
    ensures Lower(a + b + c) == Lower(a) + Lower(b) + Lower(c)
  {
    LowerConcat(a + b, c);
    LowerConcat(a, b);
  }

  // ---------------------------------------------------------------- substring

  /** `w` occurs in `t` starting at index `i`. */
  predicate OccursAt(w: string, t: string, i: int) {
    0 <= i && i + |w| <= |t| && t[i..i + |w|] == w
  }

  /** Python's `w in t` on strings. */
  predicate Occurs(w: string, t: string) {
    exists i :: 0 <= i <= |t| - |w| && OccursAt(w, t, i)
  }

  /** Python's `s.startswith(p)`. */
  predicate StartsWith(p: string, s: string) {
    |p| <= |s| && s[..|p|] == p
  }

  /** Python's `s.endswith(p)`. */
  predicate EndsWith(p: string, s: string) {
    |p| <= |s| && s[|s| - |p|..] == p
  }

  lemma StartsWithConcat(p: string, q: string)
    ensures StartsWith(p, p + q)
  {
    assert (p + q)[..|p|] == p;
  }

  lemma EndsWithConcat(p: string, q: string)
    ensures EndsWith(q, p + q)
  {
    assert (p + q)[|p|..] == q;
  }

  /** `any(w in t for w in ws)`. */
  predicate AnyOccurs(ws: seq<string>, t: string) {
    exists k :: 0 <= k < |ws| && Occurs(ws[k], t)
  }

  /** A word holding a character that the text lacks does not occur in it. */
  lemma NotOccursByChar(w: string, t: string, c: char)
    requires c in w && c !in t
    ensures !Occurs(w, t)
  {
    var j :| 0 <= j < |w| && w[j] == c;
    forall i | 0 <= i && i + |w| <= |t| ensures !OccursAt(w, t, i) {
      assert t[i..i + |w|][j] == t[i + j];
    }
  }

  /** Two-character heads of `w` found nowhere in `t`. */
  predicate HeadAt2(w: string, t: string, i: int)
    requires |w| >= 2
  {
    0 <= i < |t| - 1 && t[i] == w[0] && t[i + 1] == w[1]
  }

  /** Three-character heads of `w` found nowhere in `t`. */
  predicate HeadAt3(w: string, t: string, i: int)
    requires |w| >= 3
  {
    0 <= i < |t| - 2 && t[i] == w[0] && t[i + 1] == w[1] && t[i + 2] == w[2]
  }

  /** A word whose first two characters never appear together in `t` does
      not occur in `t`. */
  lemma NotOccursByHead2(w: string, t: string)
    requires |w| >= 2
    requires forall i :: 0 <= i < |t| - 1 ==> !HeadAt2(w, t, i)
    ensures !Occurs(w, t)
  {
    forall i | 0 <= i <= |t| - |w| ensures !OccursAt(w, t, i) {
      assert t[i..i + |w|][0] == t[i] && t[i..i + |w|][1] == t[i + 1];
      assert !HeadAt2(w, t, i);
    }
  }

  /** A word whose first three characters never appear together in `t` does
      not occur in `t`. */
  lemma NotOccursByHead3(w: string, t: string)
    requires |w| >= 3
    requires forall i :: 0 <= i < |t| - 2 ==> !HeadAt3(w, t, i)
    ensures !Occurs(w, t)
  {
    forall i | 0 <= i <= |t| - |w| ensures !OccursAt(w, t, i) {
      assert t[i..i + |w|][0] == t[i] && t[i..i + |w|][1] == t[i + 1] && t[i..i + |w|][2] == t[i + 2];
      assert !HeadAt3(w, t, i);
    }
  }

  /** A word containing a part that does not occur in `t` does not occur in `t`. */
  lemma NotOccursByPart(w: string, t: string, v: string, j: nat)
    requires OccursAt(v, w, j) && !Occurs(v, t)
    ensures !Occurs(w, t)
  {
    forall i | 0 <= i <= |t| - |w| ensures !OccursAt(w, t, i) {
      if OccursAt(w, t, i) {
        forall k | 0 <= k < |v| ensures t[i + j + k] == v[k] {
          assert v[k] == w[j..j + |v|][k] == w[j + k];
          assert w[j + k] == t[i..i + |w|][j + k];
        }
        assert t[i + j..i + j + |v|] == v;
        assert OccursAt(v, t, i + j);
      }
    }
  }

  /** A prefix of `a` occurs at the start of `a + b`. */
  lemma OccursAtStart(w: string, a: string, b: string)
    requires StartsWith(w, a)
    ensures OccursAt(w, a + b, 0)
  {
    assert (a + b)[..|w|] == a[..|w|];
  }

  /** An occurrence inside `b` is still an occurrence inside `a + b + c`. */
  lemma OccursInContext(w: string, a: string, b: string, c: string)
    requires Occurs(w, b)
    ensures Occurs(w, a + b + c)
  {
    var i :| 0 <= i <= |b| - |w| && OccursAt(w, b, i);
    assert (a + b + c)[|a| + i..|a| + i + |w|] == b[i..i + |w|];
    assert OccursAt(w, a + b + c, |a| + i);
  }

  lemma {:induction false} OccursTrimStart(w: string, s: string)
    requires w != [] && !IsSpace(w[0])
    ensures Occurs(w, TrimStart(s)) <==> Occurs(w, s)
    decreases |s|
  {
    if s != [] && IsSpace(s[0]) {
      OccursTrimStart(w, s[1..]);
      OccursTail(w, s);
    }
  }

  lemma {:induction false} OccursTrimEnd(w: string, s: string)
    requires w != [] && !IsSpace(w[|w| - 1])
    ensures Occurs(w, TrimEnd(s)) <==> Occurs(w, s)
    decreases |s|
  {
    if s != [] && IsSpace(s[|s| - 1]) {
      OccursTrimEnd(w, s[..|s| - 1]);
      OccursInit(w, s);
    }
  }

  /** Dropping a first character that does not begin `w` keeps the
      occurrences of `w`. */
  lemma OccursTail(w: string, s: string)
    requires w != [] && s != [] && s[0] != w[0]
    ensures Occurs(w, s[1..]) <==> Occurs(w, s)
  {
    if Occurs(w, s) {
      var i :| 0 <= i <= |s| - |w| && OccursAt(w, s, i);
      assert s[i..i + |w|][0] == s[i];
      assert s[1..][i - 1..i - 1 + |w|] == s[i..i + |w|];
      assert OccursAt(w, s[1..], i - 1);
    }
    if Occurs(w, s[1..]) {
      var i :| 0 <= i <= |s[1..]| - |w| && OccursAt(w, s[1..], i);
      assert s[1..][i..i + |w|] == s[i + 1..i + 1 + |w|];
      assert OccursAt(w, s, i + 1);
    }
  }

  /** Dropping a last character that does not end `w` keeps the occurrences
      of `w`. */
  lemma OccursInit(w: string, s: string)
    requires w != [] && s != [] && s[|s| - 1] != w[|w| - 1]
    ensures Occurs(w, s[..|s| - 1]) <==> Occurs(w, s)
  {
    var t := s[..|s| - 1];
    if Occurs(w, s) {
      var i :| 0 <= i <= |s| - |w| && OccursAt(w, s, i);
      assert s[i..i + |w|][|w| - 1] == s[i + |w| - 1];
      assert t[i..i + |w|] == s[i..i + |w|];
      assert OccursAt(w, t, i);
    }
    if Occurs(w, t) {
      var i :| 0 <= i <= |t| - |w| && OccursAt(w, t, i);
      assert t[i..i + |w|] == s[i..i + |w|];
      assert OccursAt(w, s, i);
    }
  }

  /** A word that neither starts nor ends with whitespace occurs in `s` exactly
      when it occurs in `s.strip()`. */
  lemma OccursStrip(w: string, s: string)
    requires w != [] && !IsSpace(w[0]) && !IsSpace(w[|w| - 1])
    ensures Occurs(w, Strip(s)) <==> Occurs(w, s)
  {
    OccursTrimStart(w, s);
    OccursTrimEnd(w, TrimStart(s));
  }

  // ---------------------------------------------------------------- replace

  /** Python's `s.replace(pat, "")`: every occurrence, scanned left to right
      without overlap, is deleted. */
  function RemoveAll(s: string, pat: string): (r: string)
    requires pat != []
    ensures |r| <= |s|
    decreases |s|
  {
    if |s| < |pat| then s
    else if s[..|pat|] == pat then RemoveAll(s[|pat|..], pat)
    else [s[0]] + RemoveAll(s[1..], pat)
  }

  /** Removing a pattern that does not occur changes nothing. */
  lemma {:induction false} RemoveAllAbsent(s: string, pat: string)
    requires pat != [] && !Occurs(pat, s)
    ensures RemoveAll(s, pat) == s
    decreases |s|
  {
    if |s| >= |pat| {
      assert !OccursAt(pat, s, 0);
      forall i | 0 <= i <= |s[1..]| - |pat| ensures !OccursAt(pat, s[1..], i) {
        assert s[1..][i..i + |pat|] == s[i + 1..i + 1 + |pat|];
        assert !OccursAt(pat, s, i + 1);
      }
      RemoveAllAbsent(s[1..], pat);
    }
  }

  /** A leading occurrence of the pattern is removed, then the rest is
      processed. */
  lemma RemoveAllPrefix(pat: string, x: string)
    requires pat != []
    ensures RemoveAll(pat + x, pat) == RemoveAll(x, pat)
  {
    assert (pat + x)[..|pat|] == pat;
    assert (pat + x)[|pat|..] == x;
  }

  /** A trailing copy of the pattern is removed and nothing else changes,
      when the pattern does not occur in `x` and its first character does
      not recur in it (so no occurrence can straddle the two parts). */
  lemma {:induction false} RemoveAllSuffix(x: string, pat: string)
    requires pat != [] && !Occurs(pat, x)
    requires forall k :: 0 < k < |pat| ==> pat[k] != pat[0]
    ensures RemoveAll(x + pat, pat) == x
    decreases |x|
  {
    var s := x + pat;
    if x == [] {
      assert s[..|pat|] == pat && s[|pat|..] == [];
    } else {
      assert s[..|pat|] != pat by {
        if |x| >= |pat| {
          assert s[..|pat|] == x[..|pat|];
          assert !OccursAt(pat, x, 0);
        } else {
          assert s[..|pat|][|x|] == pat[0];
        }
      }
      forall i | 0 <= i <= |x[1..]| - |pat| ensures !OccursAt(pat, x[1..], i) {
        assert x[1..][i..i + |pat|] == x[i + 1..i + 1 + |pat|];
        assert !OccursAt(pat, x, i + 1);
      }
      assert forall j :: 0 <= j < |s| - 1 ==> s[1..][j] == (x[1..] + pat)[j];
      assert s[1..] == x[1..] + pat;
      RemoveAllSuffix(x[1..], pat);
    }
  }

  // ---------------------------------------------------------------- decimals

  /** An ASCII digit: what `str(n)` writes. */
  predicate IsDigit(c: char) { '0' <= c <= '9' }

  /** The code point of the zero of the run of decimal digits holding `c`,
      or -1 when `c` is not a decimal digit. These are the characters with a
      Unicode decimal value (general category Nd, Unicode 15.0), which
      Python's `int()` reads as digits; each run is ten consecutive code
      points, zero to nine. */
  function CeroDecimal(c: char): (z: int)
    ensures z == -1 || z <= c as int < z + 10
    ensures IsDigit(c) ==> z == '0' as int
  {
    var n := c as int;
    if n < 0x30 then -1
    else if n <= 0x39 then 0x30
    else if n < 0x660 then -1
    else if n <= 0x669 then 0x660
    else if n < 0x6F0 then -1
    else if n <= 0x6F9 then 0x6F0
    else if n < 0x7C0 then -1
    else if n <= 0x7C9 then 0x7C0
    else if n < 0x966 then -1
    else if n <= 0x96F then 0x966
    else if n < 0x9E6 then -1
    else if n <= 0x9EF then 0x9E6
    else if n < 0xA66 then -1
    else if n <= 0xA6F then 0xA66
    else if n < 0xAE6 then -1
    else if n <= 0xAEF then 0xAE6
    else if n < 0xB66 then -1
    else if n <= 0xB6F then 0xB66
    else if n < 0xBE6 then -1
    else if n <= 0xBEF then 0xBE6
    else if n < 0xC66 then -1
    else if n <= 0xC6F then 0xC66
    else if n < 0xCE6 then -1
    else if n <= 0xCEF then 0xCE6
    else if n < 0xD66 then -1
    else if n <= 0xD6F then 0xD66
    else if n < 0xDE6 then -1
    else if n <= 0xDEF then 0xDE6
    else if n < 0xE50 then -1
    else if n <= 0xE59 then 0xE50
    else if n < 0xED0 then -1
    else if n <= 0xED9 then 0xED0
    else if n < 0xF20 then -1
    else if n <= 0xF29 then 0xF20
    else if n < 0x1040 then -1
    else if n <= 0x1049 then 0x1040
    else if n < 0x1090 then -1
    else if n <= 0x1099 then 0x1090
    else if n < 0x17E0 then -1
    else if n <= 0x17E9 then 0x17E0
    else if n < 0x1810 then -1
    else if n <= 0x1819 then 0x1810
    else if n < 0x1946 then -1
    else if n <= 0x194F then 0x1946
    else if n < 0x19D0 then -1
    else if n <= 0x19D9 then 0x19D0
    else if n < 0x1A80 then -1
    else if n <= 0x1A89 then 0x1A80
    else if n < 0x1A90 then -1
    else if n <= 0x1A99 then 0x1A90
    else if n < 0x1B50 then -1
    else if n <= 0x1B59 then 0x1B50
    else if n < 0x1BB0 then -1
    else if n <= 0x1BB9 then 0x1BB0
    else if n < 0x1C40 then -1
    else if n <= 0x1C49 then 0x1C40
    else if n < 0x1C50 then -1
    else if n <= 0x1C59 then 0x1C50
    else if n < 0xA620 then -1
    else if n <= 0xA629 then 0xA620
    else if n < 0xA8D0 then -1
    else if n <= 0xA8D9 then 0xA8D0
    else if n < 0xA900 then -1
    else if n <= 0xA909 then 0xA900
    else if n < 0xA9D0 then -1
    else if n <= 0xA9D9 then 0xA9D0
    else if n < 0xA9F0 then -1
    else if n <= 0xA9F9 then 0xA9F0
    else if n < 0xAA50 then -1
    else if n <= 0xAA59 then 0xAA50
    else if n < 0xABF0 then -1
    else if n <= 0xABF9 then 0xABF0
    else if n < 0xFF10 then -1
    else if n <= 0xFF19 then 0xFF10
    else if n < 0x104A0 then -1
    else if n <= 0x104A9 then 0x104A0
    else if n < 0x10D30 then -1
    else if n <= 0x10D39 then 0x10D30
    else if n < 0x11066 then -1
    else if n <= 0x1106F then 0x11066
    else if n < 0x110F0 then -1
    else if n <= 0x110F9 then 0x110F0
    else if n < 0x11136 then -1
    else if n <= 0x1113F then 0x11136
    else if n < 0x111D0 then -1
    else if n <= 0x111D9 then 0x111D0
    else if n < 0x112F0 then -1
    else if n <= 0x112F9 then 0x112F0
    else if n < 0x11450 then -1
    else if n <= 0x11459 then 0x11450
    else if n < 0x114D0 then -1
    else if n <= 0x114D9 then 0x114D0
    else if n < 0x11650 then -1
    else if n <= 0x11659 then 0x11650
    else if n < 0x116C0 then -1
    else if n <= 0x116C9 then 0x116C0
    else if n < 0x11730 then -1
    else if n <= 0x11739 then 0x11730
    else if n < 0x118E0 then -1
    else if n <= 0x118E9 then 0x118E0
    else if n < 0x11950 then -1
    else if n <= 0x11959 then 0x11950
    else if n < 0x11C50 then -1
    else if n <= 0x11C59 then 0x11C50
    else if n < 0x11D50 then -1
    else if n <= 0x11D59 then 0x11D50
    else if n < 0x11DA0 then -1
    else if n <= 0x11DA9 then 0x11DA0
    else if n < 0x11F50 then -1
    else if n <= 0x11F59 then 0x11F50
    else if n < 0x16A60 then -1
    else if n <= 0x16A69 then 0x16A60
    else if n < 0x16AC0 then -1
    else if n <= 0x16AC9 then 0x16AC0
    else if n < 0x16B50 then -1
    else if n <= 0x16B59 then 0x16B50
    else if n < 0x1D7CE then -1
    else if n <= 0x1D7D7 then 0x1D7CE
    else if n < 0x1D7D8 then -1
    else if n <= 0x1D7E1 then 0x1D7D8
    else if n < 0x1D7E2 then -1
    else if n <= 0x1D7EB then 0x1D7E2
    else if n < 0x1D7EC then -1
    else if n <= 0x1D7F5 then 0x1D7EC
    else if n < 0x1D7F6 then -1
    else if n <= 0x1D7FF then 0x1D7F6
    else if n < 0x1E140 then -1
    else if n <= 0x1E149 then 0x1E140
    else if n < 0x1E2F0 then -1
    else if n <= 0x1E2F9 then 0x1E2F0
    else if n < 0x1E4F0 then -1
    else if n <= 0x1E4F9 then 0x1E4F0
    else if n < 0x1E950 then -1
    else if n <= 0x1E959 then 0x1E950
    else if n < 0x1FBF0 then -1
    else if n <= 0x1FBF9 then 0x1FBF0
    else -1
  }

  /** A digit `int()` accepts, in any script: "9", "٩" and "９" are all nine. */
  predicate IsDecimal(c: char) { CeroDecimal(c) >= 0 }

  function DigitValue(c: char): (d: nat)
    requires IsDecimal(c)
    ensures d < 10
    ensures IsDigit(c) ==> d == c as int - '0' as int
  {
    c as int - CeroDecimal(c)
  }

  function DigitChar(d: nat): (c: char)
    requires d < 10
    ensures IsDigit(c) && DigitValue(c) == d
  {
    ('0' as int + d) as char
  }

  /** The decimal digits of `n`, most significant first. */
  function NatToString(n: nat): (r: string)
    ensures r != []
    ensures forall i :: 0 <= i < |r| ==> IsDigit(r[i])
    decreases n
  {
    if n < 10 then [DigitChar(n)] else NatToString(n / 10) + [DigitChar(n % 10)]
  }

  /** Python's `str(n)` for an integer. */
  function IntToString(n: int): string {
    if n < 0 then "-" + NatToString(-n) else NatToString(n)
  }

  /** Python's integer-literal body: digits, each underscore between two digits. */
  predicate IsDigitGroups(s: string) {
    && s != []
    && IsDigitsOrUnderscores(s)
    && forall i :: 0 <= i < |s| && s[i] == '_' ==> 0 < i < |s| - 1 && IsDecimal(s[i - 1]) && IsDecimal(s[i + 1])
  }

  predicate IsDigitsOrUnderscores(s: string) {
    forall i :: 0 <= i < |s| ==> IsDecimal(s[i]) || s[i] == '_'
  }

  /** The value of a digit string, underscores ignored. */
  function DigitsValue(s: string): nat
    requires IsDigitsOrUnderscores(s)
    decreases |s|
  {
    if s == [] then 0
    else
      var init, last := s[..|s| - 1], s[|s| - 1];
      assert forall i :: 0 <= i < |init| ==> init[i] == s[i];
      if last == '_' then DigitsValue(init)
      else 10 * DigitsValue(init) + DigitValue(last)
  }

  /** The number of digits in `s`, underscores not counted. */
  function DigitCount(s: string): (k: nat)
    ensures k <= |s|
  {
    if s == [] then 0
    else DigitCount(s[..|s| - 1]) + if s[|s| - 1] == '_' then 0 else 1
  }

  /** The most digits CPython's `int()` converts from a string: its default
      `sys.get_int_max_str_digits()` since Python 3.11. */
  function MaxStrDigits(): nat { 4300 }

  /** Python's `int(s)` on a string that has already been stripped: an optional
      sign and groups of decimal digits of any script, at most `MaxStrDigits()`
      digits in all; anything else is the `ValueError` case. */
  function ParseInt(s: string): Option<int> {
    var negative := |s| > 0 && s[0] == '-';
    var body := if |s| > 0 && (s[0] == '+' || s[0] == '-') then s[1..] else s;
    if IsDigitGroups(body) && DigitCount(body) <= MaxStrDigits() then
      var v: int := DigitsValue(body);
      Some(if negative then -v else v)
    else None
  }

  /** Without underscores every character is a digit. */
  lemma {:induction false} DigitCountOfDigits(s: string)
    requires forall i :: 0 <= i < |s| ==> IsDigit(s[i])
    ensures DigitCount(s) == |s|
    decreases |s|
  {
    if s != [] {
      DigitCountOfDigits(s[..|s| - 1]);
    }
  }

  lemma {:induction false} DigitsValueOfNatToString(n: nat)
    ensures DigitsValue(NatToString(n)) == n
    decreases n
  {
    if n >= 10 {
      var p := NatToString(n / 10);
      assert (p + [DigitChar(n % 10)])[..|p|] == p;
      DigitsValueOfNatToString(n / 10);
    }
  }

  /** A string of digits alone is a valid digit-group body. */
  lemma DigitsAreGroups(s: string)
    requires s != [] && forall i :: 0 <= i < |s| ==> IsDigit(s[i])
    ensures IsDigitGroups(s)
  {
  }

  /** `int(str(n)) == n`: printing an integer and parsing it back is the
      identity. Python's `str(n)` itself refuses integers of more than
      `MaxStrDigits()` digits, so this covers every integer it prints. */
  lemma ParseIntToString(n: int)
    requires |NatToString(if n < 0 then -n else n)| <= MaxStrDigits()
    ensures ParseInt(IntToString(n)) == Some(n)
  {
    if n < 0 {
      ParseIntNegative(-n);
    } else {
      ParseIntNatural(n);
    }
  }

  lemma ParseIntNatural(m: nat)
    requires |NatToString(m)| <= MaxStrDigits()
    ensures ParseInt(NatToString(m)) == Some(m)
  {
    var d := NatToString(m);
    DigitsValueOfNatToString(m);
    DigitsAreGroups(d);
    DigitCountOfDigits(d);
    assert IsDigit(d[0]);
  }

  lemma ParseIntNegative(m: nat)
    requires |NatToString(m)| <= MaxStrDigits()
    ensures ParseInt("-" + NatToString(m)) == Some(-(m as int))
  {
    var d := NatToString(m);
    DigitsValueOfNatToString(m);
    DigitsAreGroups(d);
    DigitCountOfDigits(d);
    assert ("-" + d)[1..] == d;
  }

  /** Past `MaxStrDigits()` digits `int()` raises `ValueError`, whatever the
      digits are. */
  lemma ParseIntTooLong(s: string)
    requires DigitCount(s) > MaxStrDigits()
    requires s == [] || (s[0] != '+' && s[0] != '-')
    ensures ParseInt(s) == None
  {
  }

  /** A lone decimal digit of any script reads as its value. */
  lemma ParseIntDigit(c: char)
    requires IsDecimal(c)
    ensures ParseInt([c]) == Some(DigitValue(c) as int)
  {
    assert !IsDecimal('+') && !IsDecimal('-') && !IsDecimal('_');
    assert IsDigitGroups([c]);
    assert DigitCount([c]) == DigitCount([]) + 1;
    assert [c][..0] == [];
    assert DigitsValue([c]) == 10 * DigitsValue([]) + DigitValue(c);
  }

  /** The Arabic-Indic digit "٩" reads as 9. */
  lemma ParseIntArabicIndic()
    ensures ParseInt("\U{0669}") == Some(9)
  {
    ParseIntDigit('\U{0669}');
  }
}
