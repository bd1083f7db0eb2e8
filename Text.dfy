/**
 * String primitives shared by the Python back end and the JavaScript front end:
 * character classes, case mapping, substring search, strip, split and join.
 *
 * Whitespace is modelled exactly: both Python's `str.isspace` (used by `strip`,
 * `split` and the regex class `\s`) and JavaScript's `trim` use a fixed, finite
 * set of code points. Case mapping and the regex classes `\w` and `\d` are
 * modelled on ASCII only.
 */
module Text {

  // ---------------------------------------------------------------- characters

  /** Python's `str.isspace` / regex `\s`: ASCII 9-13 and 28-32, U+0085, U+00A0,
      U+1680, U+2000-U+200A, U+2028, U+2029, U+202F, U+205F and U+3000. */
  predicate IsPySpace(c: char) {
    || ('\t' <= c <= '\r')
    || ('\U{1C}' <= c <= ' ')
    || c == '\U{85}' || c == '\U{A0}' || c == '\U{1680}'
    || ('\U{2000}' <= c <= '\U{200A}')
    || c == '\U{2028}' || c == '\U{2029}' || c == '\U{202F}' || c == '\U{205F}' || c == '\U{3000}'
  }

  /** JavaScript's `String.prototype.trim` whitespace: the same set as Python's
      except U+001C-U+001F and U+0085, plus U+FEFF. */
  predicate IsJsSpace(c: char) {
    || ('\t' <= c <= '\r')
    || c == ' ' || c == '\U{A0}' || c == '\U{1680}'
    || ('\U{2000}' <= c <= '\U{200A}')
    || c == '\U{2028}' || c == '\U{2029}' || c == '\U{202F}' || c == '\U{205F}' || c == '\U{3000}'
    || c == '\U{FEFF}'
  }

  predicate IsDigit(c: char) { '0' <= c <= '9' }

  predicate IsLowerLetter(c: char) { 'a' <= c <= 'z' }

  predicate IsUpperLetter(c: char) { 'A' <= c <= 'Z' }

  /** Regex `\w` on ASCII: letters, digits and underscore. */
  predicate IsWordChar(c: char) { IsLowerLetter(c) || IsUpperLetter(c) || IsDigit(c) || c == '_' }

  function LowerChar(c: char): (r: char)
    ensures !IsUpperLetter(r)
    ensures IsUpperLetter(c) || r == c
  {
    if IsUpperLetter(c) then (c as int + 32) as char else c
  }

  function UpperChar(c: char): (r: char)
    ensures !IsLowerLetter(r)
    ensures IsLowerLetter(c) || r == c
  {
    if IsLowerLetter(c) then (c as int - 32) as char else c
  }

  /** `str.lower()` / `toLowerCase()` on ASCII letters. */
  function Lower(s: string): (r: string)
    ensures |r| == |s|
    ensures forall i :: 0 <= i < |s| ==> r[i] == LowerChar(s[i])
  {
    seq(|s|, i requires 0 <= i < |s| => LowerChar(s[i]))
  }

  /** `toUpperCase()` on ASCII letters. */
  function Upper(s: string): (r: string)
    ensures |r| == |s|
    ensures forall i :: 0 <= i < |s| ==> r[i] == UpperChar(s[i])
  {
    seq(|s|, i requires 0 <= i < |s| => UpperChar(s[i]))
  }

  lemma LowerIdempotent(s: string)
    ensures Lower(Lower(s)) == Lower(s)
  {
    assert forall i :: 0 <= i < |s| ==> LowerChar(LowerChar(s[i])) == LowerChar(s[i]);
  }

  // ---------------------------------------------------------------- searching

  predicate StartsWith(s: string, p: string) {
    |p| <= |s| && s[..|p|] == p
  }

  predicate EndsWith(s: string, p: string) {
    |p| <= |s| && s[|s| - |p|..] == p
  }

  /** Python's `sub in s` and JavaScript's `s.includes(sub)`. */
  predicate Contains(s: string, sub: string)
    decreases |s|
  {
    StartsWith(s, sub) || (s != [] && Contains(s[1..], sub))
  }

  lemma {:induction false} ContainsAt(s: string, sub: string, i: nat)
    requires i + |sub| <= |s| && s[i..i + |sub|] == sub
    ensures Contains(s, sub)
    decreases i
  {
    if i > 0 {
      assert s[1..][i - 1..i - 1 + |sub|] == s[i..i + |sub|];
      ContainsAt(s[1..], sub, i - 1);
    } else {
      assert s[..|sub|] == sub;
    }
  }

  /** A text contains whatever one of its suffixes starts with. */
  lemma StartsWithAt(s: string, sub: string, i: nat)
    requires i <= |s| && StartsWith(s[i..], sub)
    ensures Contains(s, sub)
  {
    assert s[i..][..|sub|] == s[i..i + |sub|];
    ContainsAt(s, sub, i);
  }

  lemma {:induction false} ContainsWitness(s: string, sub: string) returns (i: nat)
    requires Contains(s, sub)
    ensures i + |sub| <= |s| && s[i..i + |sub|] == sub
    decreases |s|
  {
    if StartsWith(s, sub) {
      i := 0;
    } else {
      var j := ContainsWitness(s[1..], sub);
      assert s[1..][j..j + |sub|] == s[j + 1..j + 1 + |sub|];
      i := j + 1;
    }
  }

  /** Every string contains itself, so a query equal to a field always matches. */
  lemma ContainsSelf(s: string)
    ensures Contains(s, s)
  {
    ContainsAt(s, s, 0);
  }

  /** Python's `c in s` on a character, as a first index. */
  function FirstIndex(s: string, c: char): (k: nat)
    requires c in s
    ensures k < |s| && s[k] == c && c !in s[..k]
  {
    if s[0] == c then 0 else 1 + FirstIndex(s[1..], c)
  }

  // ---------------------------------------------------------------- stripping

  function TrimStart(s: string, drop: char -> bool): (r: string)
    ensures |r| <= |s|
    ensures r == [] || !drop(r[0])
  {
    if s != [] && drop(s[0]) then TrimStart(s[1..], drop) else s
  }

  /** `TrimStart` keeps a suffix and removes only characters `drop` accepts. */
  lemma {:induction false} TrimStartSuffix(s: string, drop: char -> bool)
    ensures TrimStart(s, drop) == s[|s| - |TrimStart(s, drop)|..]
    ensures forall i :: 0 <= i < |s| - |TrimStart(s, drop)| ==> drop(s[i])
    decreases |s|
  {
    if s != [] && drop(s[0]) {
      TrimStartSuffix(s[1..], drop);
    }
  }

  function TrimEnd(s: string, drop: char -> bool): (r: string)
    ensures |r| <= |s|
    ensures r == [] || !drop(r[|r| - 1])
  {
    if s != [] && drop(s[|s| - 1]) then TrimEnd(s[..|s| - 1], drop) else s
  }

  /** `TrimEnd` keeps a prefix and removes only characters `drop` accepts. */
  lemma {:induction false} TrimEndPrefix(s: string, drop: char -> bool)
    ensures TrimEnd(s, drop) == s[..|TrimEnd(s, drop)|]
    ensures forall i :: |TrimEnd(s, drop)| <= i < |s| ==> drop(s[i])
    decreases |s|
  {
    if s != [] && drop(s[|s| - 1]) {
      TrimEndPrefix(s[..|s| - 1], drop);
    }
  }

  /** Strips the characters `drop` accepts from both ends. */
  function Trim(s: string, drop: char -> bool): (r: string)
    ensures |r| <= |s|
    ensures r == [] || (!drop(r[0]) && !drop(r[|r| - 1]))
  {
    var t := TrimStart(s, drop);
    TrimEndPrefix(t, drop);
    TrimEnd(t, drop)
  }

  /** What `Trim` keeps is a contiguous part of the text. */
  lemma TrimSlice(s: string, drop: char -> bool) returns (start: nat)
    ensures start + |Trim(s, drop)| <= |s| && Trim(s, drop) == s[start..start + |Trim(s, drop)|]
  {
    var t := TrimStart(s, drop);
    var r := TrimEnd(t, drop);
    TrimStartSuffix(s, drop);
    TrimEndPrefix(t, drop);
    start := |s| - |t|;
    assert t == s[start..];
    assert r == t[..|r|];
    assert Trim(s, drop) == r;
  }

  /** Every character `Trim` keeps comes from the text. */
  lemma TrimContained(s: string, drop: char -> bool)
    ensures forall c :: c in Trim(s, drop) ==> c in s
  {
    var start := TrimSlice(s, drop);
    var r := Trim(s, drop);
    forall c | c in r ensures c in s {
      var k :| 0 <= k < |r| && r[k] == c;
      assert s[start + k] == c;
    }
  }

  /** Python's `s.strip()`. */
  function Strip(s: string): (r: string)
    ensures |r| <= |s|
    ensures r == [] || (!IsPySpace(r[0]) && !IsPySpace(r[|r| - 1]))
  {
    Trim(s, IsPySpace)
  }

  /** Stripping twice strips nothing more. */
  lemma StripIdempotent(s: string)
    ensures Strip(Strip(s)) == Strip(s)
  {
    var r := Strip(s);
    assert TrimStart(r, IsPySpace) == r;
    assert TrimEnd(r, IsPySpace) == r;
  }

  /** JavaScript's `s.trim()`. */
  function JsTrim(s: string): (r: string)
    ensures |r| <= |s|
    ensures r == [] || (!IsJsSpace(r[0]) && !IsJsSpace(r[|r| - 1]))
  {
    Trim(s, IsJsSpace)
  }

  // ---------------------------------------------------------------- UTF-16 code units

  /** One UTF-16 code unit, the element JavaScript strings count and slice. */
  type CodeUnit = x: int | 0 <= x < 0x1_0000

  /** A character's UTF-16 encoding: one unit in the Basic Multilingual Plane, else a surrogate pair. */
  function CharUnits(c: char): (r: seq<CodeUnit>)
    ensures |r| == if c as int < 0x1_0000 then 1 else 2
    ensures c as int < 0x1_0000 ==> r == [c as int]
    ensures |r| == 2 ==> 0xD800 <= r[0] < 0xDC00 <= r[1] < 0xE000
  {
    var v := c as int;
    if v < 0x1_0000 then [v]
    else [0xD800 + (v - 0x1_0000) / 0x400, 0xDC00 + (v - 0x1_0000) % 0x400]
  }

  /** The UTF-16 code units of a text, the form a JavaScript string holds it in. */
  function Utf16(s: string): (u: seq<CodeUnit>)
    ensures |s| <= |u| <= 2 * |s|
  {
    if s == [] then [] else CharUnits(s[0]) + Utf16(s[1..])
  }

  /** JavaScript's `s.length`: the number of UTF-16 code units. */
  function JsLength(s: string): nat {
    |Utf16(s)|
  }

  /** Every character lies in the Basic Multilingual Plane, so takes one code unit. */
  predicate Bmp(s: string) {
    forall i :: 0 <= i < |s| ==> s[i] as int < 0x1_0000
  }

  /** Encoding distributes over concatenation. */
  lemma {:induction false} Utf16Append(a: string, b: string)
    ensures Utf16(a + b) == Utf16(a) + Utf16(b)
    decreases |a|
  {
    if a == [] {
      assert a + b == b;
    } else {
      assert (a + b)[0] == a[0] && (a + b)[1..] == a[1..] + b;
      Utf16Append(a[1..], b);
    }
  }

  /** On the Basic Multilingual Plane one character is one code unit, its own code point. */
  lemma {:induction false} BmpUnits(s: string)
    requires Bmp(s)
    ensures |Utf16(s)| == |s|
    ensures forall i :: 0 <= i < |s| ==> Utf16(s)[i] == s[i] as int
    decreases |s|
  {
    if s != [] {
      assert Bmp(s[1..]) by {
        forall i | 0 <= i < |s[1..]| ensures s[1..][i] as int < 0x1_0000 {
          assert s[1..][i] == s[i + 1];
        }
      }
      BmpUnits(s[1..]);
    }
  }

  /** Outside that plane the counts part: 26 emoji are 26 characters but 52 code units. */
  lemma AstralCountsTwice()
    ensures JsLength(seq(26, _ => '\U{1F600}')) == 52
  {
    var e := '\U{1F600}';
    var s: string := seq(26, _ => e);
    assert |CharUnits(e)| == 2;
    assert forall k :: 0 <= k <= 26 ==> |Utf16(s[26 - k..])| == 2 * k by {
      forall k | 0 <= k <= 26 ensures |Utf16(s[26 - k..])| == 2 * k {
        UniformLength(s, e, 26 - k);
      }
    }
    assert s[0..] == s;
  }

  /** A text made of one character repeated takes that character's units once per character. */
  lemma {:induction false} UniformLength(s: string, c: char, j: nat)
    requires j <= |s| && forall i :: 0 <= i < |s| ==> s[i] == c
    ensures |Utf16(s[j..])| == (|s| - j) * |CharUnits(c)|
    decreases |s| - j
  {
    if j < |s| {
      assert s[j..][1..] == s[j + 1..];
      UniformLength(s, c, j + 1);
    }
  }

  // ---------------------------------------------------------------- split and join

  /** Python's `s.split(sep)` / JavaScript's `s.split(sep)` on a one-character separator. */
  function SplitOn(s: string, sep: char): (r: seq<string>)
    ensures |r| >= 1
    ensures forall i :: 0 <= i < |r| ==> sep !in r[i]
    decreases |s|
  {
    if sep !in s then [s]
    else
      var k := FirstIndex(s, sep);
      [s[..k]] + SplitOn(s[k + 1..], sep)
  }

  /** `sep.join(parts)` in Python, `parts.join(sep)` in JavaScript. */
  function Join(sep: string, parts: seq<string>): string {
    if |parts| == 0 then ""
    else if |parts| == 1 then parts[0]
    else parts[0] + sep + Join(sep, parts[1..])
  }

  /** Splitting on a character and joining on it again gives back the text. */
  lemma {:induction false} JoinSplitOn(s: string, sep: char)
    ensures Join([sep], SplitOn(s, sep)) == s
    decreases |s|
  {
    if sep in s {
      var k := FirstIndex(s, sep);
      var tail := SplitOn(s[k + 1..], sep);
      JoinSplitOn(s[k + 1..], sep);
      assert SplitOn(s, sep) == [s[..k]] + tail;
      assert Join([sep], [s[..k]] + tail) == s[..k] + [sep] + Join([sep], tail) by {
        assert ([s[..k]] + tail)[1..] == tail;
      }
      assert s == s[..k] + [sep] + s[k + 1..];
    }
  }

  /** A text without the separator splits into itself alone. */
  lemma SplitOnAbsent(s: string, sep: char)
    requires sep !in s
    ensures SplitOn(s, sep) == [s]
  {
  }

  /** Length of the leading run of characters that are not Python whitespace. */
  function NonSpaceRun(s: string): (k: nat)
    ensures k <= |s|
    ensures forall i :: 0 <= i < k ==> !IsPySpace(s[i])
    ensures k == |s| || IsPySpace(s[k])
  {
    if s == [] || IsPySpace(s[0]) then 0 else 1 + NonSpaceRun(s[1..])
  }

  /** Python's `s.split()`: the maximal runs of non-whitespace characters. */
  function Words(s: string): (r: seq<string>)
    ensures forall i :: 0 <= i < |r| ==> r[i] != [] && forall j :: 0 <= j < |r[i]| ==> !IsPySpace(r[i][j])
    decreases |s|
  {
    var t := TrimStart(s, IsPySpace);
    if t == [] then []
    else
      var k := NonSpaceRun(t);
      [t[..k]] + Words(t[k..])
  }

  // ---------------------------------------------------------------- slicing and numbers

  /** Python's `xs[:n]` and JavaScript's `xs.slice(0, n)` for `n >= 0`. */
  function Take<T>(xs: seq<T>, n: nat): (r: seq<T>)
    ensures |r| == if n <= |xs| then n else |xs|
  {
    if n <= |xs| then xs[..n] else xs
  }

  /** Capping before appending more changes nothing once the cap is applied again. */
  lemma TakeOfTake<T>(xs: seq<T>, ys: seq<T>, n: nat)
    ensures Take(Take(xs, n) + ys, n) == Take(xs + ys, n)
  {
    if n <= |xs| {
      assert (xs[..n] + ys)[..n] == xs[..n] == (xs + ys)[..n];
    }
  }

  /** Concatenation regroups freely. */
  lemma ConcatAssoc(a: string, b: string, c: string)
    ensures (a + b) + c == a + (b + c)
  {
  }

  /** What `Take` keeps is a prefix of its input. */
  lemma TakePrefix<T>(xs: seq<T>, n: nat)
    ensures Take(xs, n) == xs[..|Take(xs, n)|]
    ensures forall i :: 0 <= i < |Take(xs, n)| ==> Take(xs, n)[i] == xs[i]
  {
  }

  /** JavaScript's `s.replace(c, by)` with a one-character string pattern: only the first occurrence. */
  function ReplaceFirst(s: string, c: char, repl: string): (r: string)
    ensures c !in s ==> r == s
    ensures c in s ==> r == s[..FirstIndex(s, c)] + repl + s[FirstIndex(s, c) + 1..]
  {
    if c !in s then s else s[..FirstIndex(s, c)] + repl + s[FirstIndex(s, c) + 1..]
  }

  function DigitChar(d: nat): (c: char)
    requires d < 10
    ensures IsDigit(c) && c as int - '0' as int == d
  {
    (d + '0' as int) as char
  }

  /** The decimal numeral of a natural number, as `String(n)` / `${n}` print it. */
  function NatToString(n: nat): (r: string)
    ensures r != []
    ensures forall i :: 0 <= i < |r| ==> IsDigit(r[i])
  {
    if n < 10 then [DigitChar(n)] else NatToString(n / 10) + [DigitChar(n % 10)]
  }

  /** The value of a string of decimal digits. */
  function DigitsValue(s: string): nat
    requires forall i :: 0 <= i < |s| ==> IsDigit(s[i])
  {
    if s == [] then 0 else 10 * DigitsValue(s[..|s| - 1]) + DigitValue(s[|s| - 1])
  }

  function DigitValue(c: char): nat
    requires IsDigit(c)
  {
    c as int - '0' as int
  }

  /** Reading back a printed numeral gives the number. */
  lemma {:induction false} NatToStringRoundTrip(n: nat)
    ensures DigitsValue(NatToString(n)) == n
  {
    if n >= 10 {
      NatToStringRoundTrip(n / 10);
      var s := NatToString(n);
      assert s[..|s| - 1] == NatToString(n / 10);
    }
  }
}
