/** The pieces of Python's `str` behaviour that the agents rely on: whitespace as
    `str.isspace` sees it, `strip`/`rstrip`, ASCII `lower`, the `in` test, `split`,
    `join`, `str(int)`, `f"{n:+d}"`, zero padding and `int(str)`. */
module Text {
  import opened Wrappers

  /** `str.isspace()` for one character: the characters CPython treats as whitespace
      (also what the regular expression `\s` matches on `str` patterns). */
  predicate IsSpace(c: char) {
    || c == ' '
    || ('\t' <= c <= '\r')
    || ('\U{1c}' <= c <= '\U{1f}')
    || c == '\U{85}' || c == '\U{a0}' || c == '\U{1680}'
    || ('\U{2000}' <= c <= '\U{200a}')
    || c == '\U{2028}' || c == '\U{2029}' || c == '\U{202f}' || c == '\U{205f}' || c == '\U{3000}'
  }

  /** Python truthiness of an optional string: present and non-empty. */
  predicate TruthyText(v: Option<string>) {
    v.Some? && v.value != ""
  }

  /** True when every character of `s` is whitespace (vacuously for ""). */
  predicate AllSpace(s: string) {
    forall i :: 0 <= i < |s| ==> IsSpace(s[i])
  }

  /** `s.lstrip()`: drops the leading whitespace and nothing else. */
  function LStrip(s: string): (r: string)
    ensures |r| <= |s| && r == s[|s| - |r|..]
    ensures r == [] || !IsSpace(r[0])
    ensures AllSpace(s[..|s| - |r|])
    ensures forall k :: 0 <= k < |s| && !IsSpace(s[k]) ==> |s| - |r| <= k
  {
    if |s| > 0 && IsSpace(s[0]) then LStrip(s[1..]) else s
  }

  /** `s.rstrip()`: drops the trailing whitespace and nothing else. */
  function RStrip(s: string): (r: string)
    ensures |r| <= |s| && r == s[..|r|]
    ensures r == [] || !IsSpace(r[|r| - 1])
    ensures AllSpace(s[|r|..])
    ensures forall k :: 0 <= k < |s| && !IsSpace(s[k]) ==> k < |r|
  {
    if |s| > 0 && IsSpace(s[|s| - 1]) then RStrip(s[..|s| - 1]) else s
  }

  /** A string with no whitespace at either end, as `str.strip()` leaves it. */
  predicate Stripped(s: string) {
    s == [] || (!IsSpace(s[0]) && !IsSpace(s[|s| - 1]))
  }

  /** `s.strip()`. */
  function Strip(s: string): (r: string)
    ensures |r| <= |s|
    ensures Stripped(r)
    ensures r == [] <==> AllSpace(s)
  {
    var l := LStrip(s);
    var r := RStrip(l);
    StripEmptyAllSpace(s, l, r);
    r
  }

  /** When stripping leaves nothing, every character of `s` was whitespace. */
  lemma StripEmptyAllSpace(s: string, l: string, r: string)
    requires l == LStrip(s) && r == RStrip(l)
    ensures r == [] <==> AllSpace(s)
  {
    var k := |s| - |l|;
    if r == [] {
      assert l[|r|..] == l;
      assert |l| == 0;
      assert s[..k] == s;
    } else {
      assert l[0] == r[0];
      assert s[k] == l[0];
    }
  }

  /** `s.rstrip(c)` for a single character `c`, as in `base_url.rstrip("/")`. */
  function RStripChar(s: string, c: char): (r: string)
    ensures |r| <= |s| && r == s[..|r|]
    ensures r == [] || r[|r| - 1] != c
    ensures forall i :: |r| <= i < |s| ==> s[i] == c
  {
    if |s| > 0 && s[|s| - 1] == c then RStripChar(s[..|s| - 1], c) else s
  }

  /** ASCII case mapping of one character. */
  function LowerChar(c: char): char {
    if 'A' <= c <= 'Z' then (c as int - 'A' as int + 'a' as int) as char else c
  }

  /** `s.lower()` restricted to ASCII letters. */
  function Lower(s: string): (r: string)
    ensures |r| == |s|
    ensures forall i :: 0 <= i < |s| ==> r[i] == LowerChar(s[i])
  {
    seq(|s|, i requires 0 <= i < |s| => LowerChar(s[i]))
  }

  /** Lower-casing twice changes nothing more. */
  lemma LowerIdempotent(s: string)
    ensures Lower(Lower(s)) == Lower(s)
  {
  }

  /** Lower-casing works character by character, so it splits over concatenation. */
  lemma LowerConcat(a: string, b: string)
    ensures Lower(a + b) == Lower(a) + Lower(b)
  {
    assert forall i :: 0 <= i < |a| ==> (a + b)[i] == a[i];
    assert forall i :: |a| <= i < |a + b| ==> (a + b)[i] == b[i - |a|];
  }

  /** `s.startswith(p)`. */
  predicate StartsWith(s: string, p: string) {
    |p| <= |s| && s[..|p|] == p
  }

  /** `s.endswith(p)`. */
  predicate EndsWith(s: string, p: string) {
    |p| <= |s| && s[|s| - |p|..] == p
  }

  /** A concatenation starts with its first part and ends with its last. */
  lemma Affixes(a: string, b: string, c: string)
    ensures StartsWith(a + b + c, a) && EndsWith(a + b + c, c)
  {
    assert (a + b + c)[..|a|] == a;
    assert (a + b + c)[|a + b|..] == c;
  }

  /** A concatenation starts with its first part. */
  lemma PrefixOf(a: string, b: string)
    ensures StartsWith(a + b, a)
  {
    assert (a + b)[..|a|] == a;
  }

  /** A concatenation ends with its second part. */
  lemma SuffixOf(a: string, b: string)
    ensures EndsWith(a + b, b)
  {
    assert (a + b)[|a|..] == b;
  }

  /** `t` occurs in `s` starting at index `j`. */
  predicate OccursAt(s: string, t: string, j: nat) {
    j + |t| <= |s| && s[j..j + |t|] == t
  }

  /** `s.find(t)`: the first index where `t` occurs in `s`, or None. */
  function Find(s: string, t: string): (r: Option<nat>)
    ensures r.Some? ==> OccursAt(s, t, r.value)
    ensures r.Some? ==> forall j: nat :: j < r.value ==> !OccursAt(s, t, j)
    ensures r.None? ==> forall j: nat :: !OccursAt(s, t, j)
    decreases |s|
  {
    if |t| > |s| then None
    else if s[..|t|] == t then Some(0)
    else
      OccursShift(s, t);
      match Find(s[1..], t)
      case None => None
      case Some(k) => Some(k + 1)
  }

  /** Past the first character, the occurrences of `t` in `s` are those in `s[1..]`, shifted by one. */
  lemma OccursShift(s: string, t: string)
    requires |s| > 0
    ensures forall j: nat :: 1 <= j ==> OccursAt(s, t, j) == OccursAt(s[1..], t, j - 1)
    ensures !OccursAt(s, t, 0) <==> !StartsWith(s, t)
  {
    forall j: nat | 1 <= j ensures OccursAt(s, t, j) == OccursAt(s[1..], t, j - 1) {
      if j + |t| <= |s| {
        assert s[1..][j - 1..j - 1 + |t|] == s[j..j + |t|];
      }
    }
  }

  /** An occurrence with none before it is the one `s.find(t)` reports. */
  lemma FindFirst(s: string, t: string, i: nat)
    requires OccursAt(s, t, i)
    requires forall j: nat :: j < i ==> !OccursAt(s, t, j)
    ensures Find(s, t) == Some(i)
  {
    var r := Find(s, t);
    assert r.Some?;
    assert !(r.value < i) && !(i < r.value);
  }

  /** Python's `t in s` for strings. */
  predicate Contains(s: string, t: string) {
    Find(s, t).Some?
  }

  /** Text around a string keeps every substring it had. */
  lemma ContainsWithin(s: string, t: string, before: string, after: string)
    requires Contains(s, t)
    ensures Contains(before + s + after, t)
  {
    var j := Find(s, t).value;
    var whole := before + s + after;
    assert whole[|before| + j..|before| + j + |t|] == s[j..j + |t|];
    ContainsAt(whole, t, |before| + j);
  }

  /** An occurrence of `t` anywhere in `s` makes `t in s` true. */
  lemma ContainsAt(s: string, t: string, i: nat)
    requires OccursAt(s, t, i)
    ensures Contains(s, t)
  {
  }

  /** An occurrence of `t` inside a slice of `s` is an occurrence in `s`. */
  lemma ContainsInSlice(s: string, t: string, a: nat, b: nat)
    requires a <= b <= |s| && Contains(s[a..b], t)
    ensures Contains(s, t)
  {
    var k := Find(s[a..b], t).value;
    assert OccursAt(s[a..b], t, k);
    SliceOfSlice(s, a, b, k, k + |t|);
    ContainsAt(s, t, a + k);
  }

  lemma SliceOfSlice(s: string, a: nat, b: nat, i: nat, j: nat)
    requires a <= b <= |s| && i <= j <= b - a
    ensures s[a..b][i..j] == s[a + i..a + j]
  {
    assert forall x :: 0 <= x < j - i ==> s[a..b][i..j][x] == s[a + i + x];
  }

  /** `sep.join(parts)`. */
  function Join(sep: string, parts: seq<string>): string {
    if |parts| == 0 then ""
    else if |parts| == 1 then parts[0]
    else parts[0] + sep + Join(sep, parts[1..])
  }

  /** A join starts with its first part. */
  lemma JoinStarts(sep: string, parts: seq<string>)
    requires |parts| >= 1
    ensures StartsWith(Join(sep, parts), parts[0])
  {
    if |parts| >= 2 {
      PrefixOf(parts[0], sep + Join(sep, parts[1..]));
      assert Join(sep, parts) == parts[0] + (sep + Join(sep, parts[1..]));
    }
  }

  /** A join of several parts starts with the first part followed by the separator. */
  lemma JoinFirst(sep: string, parts: seq<string>)
    requires |parts| >= 2
    ensures StartsWith(Join(sep, parts), parts[0] + sep)
  {
    PrefixOf(parts[0] + sep, Join(sep, parts[1..]));
  }

  /** Joining three parts puts the separator between each neighbouring pair. */
  lemma Join3(sep: string, a: string, b: string, c: string)
    ensures Join(sep, [a, b, c]) == a + sep + (b + sep + c)
  {
    assert [a, b, c][1..] == [b, c];
    assert [b, c][1..] == [c];
    assert Join(sep, [c]) == c;
    assert Join(sep, [b, c]) == b + sep + c;
  }

  /** Appending one part to a non-empty list adds the separator and the part at the end. */
  lemma {:induction false} JoinAppend(sep: string, parts: seq<string>, p: string)
    requires |parts| > 0
    ensures Join(sep, parts + [p]) == Join(sep, parts) + sep + p
    decreases |parts|
  {
    if |parts| == 1 {
      assert parts + [p] == [parts[0], p];
    } else {
      assert (parts + [p])[1..] == parts[1..] + [p];
      JoinAppend(sep, parts[1..], p);
    }
  }

  /** Joining two non-empty lists is joining each and gluing them with the separator. */
  lemma {:induction false} JoinConcat(sep: string, a: seq<string>, b: seq<string>)
    requires |a| > 0 && |b| > 0
    ensures Join(sep, a + b) == Join(sep, a) + sep + Join(sep, b)
    decreases |a|
  {
    if |a| == 1 {
      assert (a + b)[1..] == b;
    } else {
      assert (a + b)[1..] == a[1..] + b;
      JoinConcat(sep, a[1..], b);
    }
  }

  /** `s.split(sep)` for a non-empty separator. Splitting and joining again gives
      back `s`, and no piece contains the separator. */
  function Split(s: string, sep: string): (r: seq<string>)
    requires |sep| > 0
    ensures |r| >= 1
    ensures Join(sep, r) == s
    ensures |r| == 1 <==> !Contains(s, sep)
    ensures forall k :: 0 <= k < |r| ==> !Contains(r[k], sep)
    decreases |s|
  {
    match Find(s, sep)
    case None => [s]
    case Some(i) =>
      var rest := Split(s[i + |sep|..], sep);
      PrefixBeforeFirst(s, sep, i);
      [s[..i]] + rest
  }

  /** The text before the first occurrence of `sep` does not contain `sep`, and `s` is
      that text, `sep`, and the rest. */
  lemma PrefixBeforeFirst(s: string, sep: string, i: nat)
    requires |sep| > 0 && Find(s, sep) == Some(i)
    ensures !Contains(s[..i], sep)
    ensures s == s[..i] + sep + s[i + |sep|..]
  {
    Decompose(s, sep, i);
    var f := Find(s[..i], sep);
    if f.Some? {
      OccursInPrefix(s, i, sep, f.value);
    }
  }

  /** Text around an occurrence of `t` at `i` is the part before, `t`, and the part after. */
  lemma Decompose(s: string, t: string, i: nat)
    requires OccursAt(s, t, i)
    ensures s == s[..i] + t + s[i + |t|..]
  {
    assert s == s[..i] + s[i..i + |t|] + s[i + |t|..];
  }

  /** An occurrence inside a prefix is an occurrence in the whole text. */
  lemma OccursInPrefix(s: string, i: nat, t: string, j: nat)
    requires i <= |s| && OccursAt(s[..i], t, j)
    ensures OccursAt(s, t, j)
  {
    SliceOfSlice(s, 0, i, j, j + |t|);
  }

  /** Splitting where the first occurrence of `sep` is at `i` gives the text before it,
      then the pieces of the text after it. */
  lemma SplitAtFirst(s: string, sep: string, i: nat)
    requires |sep| > 0 && Find(s, sep) == Some(i)
    ensures Split(s, sep) == [s[..i]] + Split(s[i + |sep|..], sep)
  {
  }

  /** Joining pieces that do not contain the one-character separator, then splitting on
      it, gives back the pieces. */
  lemma {:induction false} SplitJoin(c: char, parts: seq<string>)
    requires |parts| >= 1 && forall k :: 0 <= k < |parts| ==> !Contains(parts[k], [c])
    ensures Split(Join([c], parts), [c]) == parts
    decreases |parts|
  {
    if |parts| > 1 {
      var p, rest := parts[0], Join([c], parts[1..]);
      var s := p + [c] + rest;
      assert Join([c], parts) == s;
      assert OccursAt(s, [c], |p|);
      var i := Find(s, [c]).value;
      if i < |p| {
        assert s[i..i + 1] == p[i..i + 1];
        ContainsAt(p, [c], i);
      }
      assert i == |p|;
      SplitAtFirst(s, [c], i);
      assert s[..i] == p && s[i + 1..] == rest;
      SplitJoin(c, parts[1..]);
    }
  }

  /** The character for a decimal digit. */
  function DigitChar(d: nat): char
    requires d < 10
  {
    "0123456789"[d]
  }

  predicate IsDigit(c: char) {
    '0' <= c <= '9'
  }

  function DigitValue(c: char): nat
    requires IsDigit(c)
  {
    c as int - '0' as int
  }

  predicate AllDigits(s: string) {
    forall i :: 0 <= i < |s| ==> IsDigit(s[i])
  }

  /** The number a string of decimal digits denotes. */
  function DigitsValue(s: string): nat
    requires AllDigits(s)
  {
    if |s| == 0 then 0 else 10 * DigitsValue(s[..|s| - 1]) + DigitValue(s[|s| - 1])
  }

  /** `str(n)` for a natural number: its decimal digits, without leading zeros. */
  function NatToStr(n: nat): (r: string)
    ensures |r| >= 1 && AllDigits(r)
    ensures DigitsValue(r) == n
    ensures r[0] == '0' ==> n == 0
  {
    if n < 10 then [DigitChar(n)]
    else
      var p := NatToStr(n / 10);
      var r := p + [DigitChar(n % 10)];
      assert r[..|r| - 1] == p;
      r
  }

  /** `str(n)` for any Python int. */
  function IntToStr(n: int): string {
    if n < 0 then "-" + NatToStr(-n) else NatToStr(n)
  }

  /** `f"{n:+d}"`: the number with an explicit sign, `+0` for zero. */
  function SignedIntToStr(n: int): (r: string)
    ensures |r| >= 2 && (r[0] == '+' <==> n >= 0) && (r[0] == '-' <==> n < 0)
  {
    if n < 0 then "-" + NatToStr(-n) else "+" + NatToStr(n)
  }

  /** `'%0*d' % (width, n)` for a natural number: padded on the left with zeros. */
  function ZeroPad(n: nat, width: nat): (r: string)
    ensures |r| >= width && AllDigits(r)
    ensures DigitsValue(r) == n
  {
    var s := NatToStr(n);
    if |s| >= width then s else ZeroPadDigits(s, width - |s|)
  }

  /** `10 ** k`. */
  function Pow10(k: nat): (r: nat)
    ensures r >= 1
  {
    if k == 0 then 1 else 10 * Pow10(k - 1)
  }

  /** A number below `10 ** k` has at most `k` decimal digits. */
  lemma {:induction false} NatToStrLength(n: nat, k: nat)
    requires 1 <= k && n < Pow10(k)
    ensures |NatToStr(n)| <= k
  {
    if n >= 10 {
      NatToStrLength(n / 10, k - 1);
    }
  }

  /** A digit string of length `k` denotes a number below `10 ** k`. */
  lemma {:induction false} DigitsValueBound(s: string)
    requires AllDigits(s)
    ensures DigitsValue(s) < Pow10(|s|)
  {
    if |s| > 0 {
      DigitsValueBound(s[..|s| - 1]);
    }
  }

  /** Two digit strings of the same length that denote the same number are equal. */
  lemma {:induction false} DigitsUnique(a: string, b: string)
    requires AllDigits(a) && AllDigits(b) && |a| == |b|
    requires DigitsValue(a) == DigitsValue(b)
    ensures a == b
  {
    if |a| > 0 {
      var a', b' := a[..|a| - 1], b[..|b| - 1];
      assert DigitsValue(a') == DigitsValue(a) / 10 == DigitsValue(b');
      DigitsUnique(a', b');
      assert a == a' + [a[|a| - 1]] && b == b' + [b[|b| - 1]];
    }
  }

  /** Zero padding a number that fits in `width` digits gives exactly `width` digits,
      and those are the only `width` digits that denote it. */
  lemma ZeroPadExact(n: nat, width: nat, s: string)
    requires 1 <= width && n < Pow10(width)
    requires AllDigits(s) && |s| == width && DigitsValue(s) == n
    ensures |ZeroPad(n, width)| == width && ZeroPad(n, width) == s
  {
    NatToStrLength(n, width);
    DigitsUnique(ZeroPad(n, width), s);
  }

  /** A number below `10 ** width` pads to exactly `width` digits. */
  lemma ZeroPadWidth(n: nat, width: nat)
    requires 1 <= width && n < Pow10(width)
    ensures |ZeroPad(n, width)| == width
  {
    NatToStrLength(n, width);
  }

  /** Puts `k` zeros in front of a digit string; the value is unchanged. */
  function ZeroPadDigits(s: string, k: nat): (r: string)
    requires AllDigits(s)
    ensures |r| == |s| + k && AllDigits(r)
    ensures DigitsValue(r) == DigitsValue(s)
    decreases k
  {
    if k == 0 then s
    else
      var t := ZeroPadDigits(s, k - 1);
      DigitsLeadingZero(t);
      "0" + t
  }

  /** A leading zero does not change the value of a digit string. */
  lemma {:induction false} DigitsLeadingZero(s: string)
    requires AllDigits(s)
    ensures AllDigits("0" + s) && DigitsValue("0" + s) == DigitsValue(s)
    decreases |s|
  {
    if |s| > 0 {
      var t := "0" + s;
      assert t[..|t| - 1] == "0" + s[..|s| - 1];
      DigitsLeadingZero(s[..|s| - 1]);
    }
  }

  /** The body of a Python decimal literal as `int()` accepts it: digits, with single
      underscores allowed between two digits. */
  predicate DigitGroups(s: string) {
    && |s| > 0
    && IsDigit(s[0]) && IsDigit(s[|s| - 1])
    && (forall i :: 0 <= i < |s| ==> IsDigit(s[i]) || s[i] == '_')
    && (forall i :: 0 <= i < |s| - 1 ==> !(s[i] == '_' && s[i + 1] == '_'))
  }

  /** The digits of a literal body with its underscores removed. */
  function DropUnderscores(s: string): (r: string)
    requires forall i :: 0 <= i < |s| ==> IsDigit(s[i]) || s[i] == '_'
    ensures AllDigits(r) && |r| <= |s|
  {
    if |s| == 0 then ""
    else if s[|s| - 1] == '_' then DropUnderscores(s[..|s| - 1])
    else DropUnderscores(s[..|s| - 1]) + [s[|s| - 1]]
  }

  /** `int(s)` for a `str` in base 10: surrounding whitespace is ignored, then a
      literal. None stands for the `ValueError` Python raises. */
  function ParseInt(s: string): Option<int> {
    ParseLiteral(Strip(s))
  }

  /** One optional sign, then a digit literal. */
  function ParseLiteral(t: string): Option<int> {
    var signed := |t| > 0 && (t[0] == '+' || t[0] == '-');
    var body := if signed then t[1..] else t;
    if DigitGroups(body) then
      var v: int := DigitsValue(DropUnderscores(body));
      Some(if signed && t[0] == '-' then -v else v)
    else None
  }

  /** A non-empty digit string is a literal body. */
  lemma DigitsAreGroups(s: string)
    requires |s| > 0 && AllDigits(s)
    ensures DigitGroups(s)
  {
  }

  /** A digit string is its own literal body. */
  lemma DropUnderscoresDigits(s: string)
    requires AllDigits(s)
    ensures DropUnderscores(s) == s
  {
    if |s| > 0 {
      DropUnderscoresDigits(s[..|s| - 1]);
      assert s == s[..|s| - 1] + [s[|s| - 1]];
    }
  }

  /** A string that starts and ends with a non-space character is its own strip. */
  lemma StripNoSpace(s: string)
    requires |s| > 0 && !IsSpace(s[0]) && !IsSpace(s[|s| - 1])
    ensures Strip(s) == s
  {
  }

  /** Stripping a string with no surrounding whitespace leaves it as it is. */
  lemma StrippedFixed(s: string)
    requires Stripped(s)
    ensures Strip(s) == s
  {
    if s != [] {
      StripNoSpace(s);
    }
  }

  /** Stripping keeps a suffix that neither starts nor ends with whitespace. */
  lemma StripKeepsSuffix(s: string, t: string)
    requires EndsWith(s, t) && t != [] && !IsSpace(t[0]) && !IsSpace(t[|t| - 1])
    ensures EndsWith(Strip(s), t)
  {
    var l := LStrip(s);
    var n := |s| - |l|;
    assert s[|s| - |t|] == t[0];
    SuffixOfSuffix(s, n, t);
    assert l == s[n..];
    assert l[|l| - 1] == t[|t| - 1];
    assert RStrip(l) == l;
  }

  /** A suffix of `s` that is long enough still ends with what `s` ends with. */
  lemma SuffixOfSuffix(s: string, n: nat, t: string)
    requires EndsWith(s, t) && n <= |s| - |t|
    ensures EndsWith(s[n..], t)
  {
    assert s[n..][|s| - n - |t|..] == s[|s| - |t|..];
  }


  /** A sign (or none) followed by a non-empty digit string parses to its value with that sign. */
  lemma ParseSignedBody(s: string, sign: string, d: string)
    requires sign == "" || sign == "+" || sign == "-"
    requires |d| > 0 && AllDigits(d) && s == sign + d
    ensures ParseInt(s) == Some(if sign == "-" then -(DigitsValue(d) as int) else DigitsValue(d))
  {
    assert s[|s| - 1] == d[|d| - 1];
    assert s[0] == if sign == "" then d[0] else sign[0];
    StripNoSpace(s);
    LiteralSignedBody(s, sign, d);
  }

  /** The literal part of `ParseSignedBody`, before whitespace is considered. */
  lemma LiteralSignedBody(s: string, sign: string, d: string)
    requires sign == "" || sign == "+" || sign == "-"
    requires |d| > 0 && AllDigits(d) && s == sign + d
    ensures ParseLiteral(s) == Some(if sign == "-" then -(DigitsValue(d) as int) else DigitsValue(d))
  {
    if sign == "" {
      assert s == d;
      LiteralDigits(d);
    } else {
      assert s[1..] == d;
      LiteralSigned(s, d);
    }
  }

  /** An unsigned digit string is a literal of its own value. */
  lemma LiteralDigits(d: string)
    requires |d| > 0 && AllDigits(d)
    ensures ParseLiteral(d) == Some(DigitsValue(d) as int)
  {
    assert IsDigit(d[0]);
    DigitsAreGroups(d);
    DropUnderscoresDigits(d);
  }

  /** A sign character before a digit string applies that sign to its value. */
  lemma LiteralSigned(s: string, d: string)
    requires |s| > 0 && (s[0] == '+' || s[0] == '-')
    requires |d| > 0 && AllDigits(d) && s[1..] == d
    ensures ParseLiteral(s) == Some(if s[0] == '-' then -(DigitsValue(d) as int) else DigitsValue(d))
  {
    DigitsAreGroups(d);
    DropUnderscoresDigits(d);
  }

  /** `int(str(n)) == n`: the decimal rendering of an int parses back to it. */
  lemma ParseIntToStr(n: int)
    ensures ParseInt(IntToStr(n)) == Some(n)
  {
    if n < 0 {
      var d := NatToStr(-n);
      ParseSignedBody("-" + d, "-", d);
    } else {
      var d := NatToStr(n);
      assert "" + d == d;
      ParseSignedBody(d, "", d);
    }
  }

  /** `int(f"{n:+d}") == n`: the signed rendering parses back too. */
  lemma ParseIntSigned(n: int)
    ensures ParseInt(SignedIntToStr(n)) == Some(n)
  {
    if n < 0 {
      var d := NatToStr(-n);
      ParseSignedBody("-" + d, "-", d);
    } else {
      var d := NatToStr(n);
      ParseSignedBody("+" + d, "+", d);
    }
  }
}
