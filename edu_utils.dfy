/** The Edulink agent's text helpers: collapsing whitespace, picking the first
    non-blank value of a list, and the guard around date parsing. */
module EduUtils {
  import opened Wrappers
  import opened Text
  import opened Calendar

  /** No whitespace character other than a plain space, and never two in a row: the
      shape `re.sub(r"\s+", " ", s)` leaves a string in. */
  predicate SingleSpaced(s: string) {
    && (forall i :: 0 <= i < |s| && IsSpace(s[i]) ==> s[i] == ' ')
    && (forall i :: 0 <= i < |s| - 1 ==> !(IsSpace(s[i]) && IsSpace(s[i + 1])))
  }

  /** The non-whitespace characters of `s`, in order. */
  function NonSpace(s: string): string {
    if s == [] then [] else (if IsSpace(s[0]) then [] else [s[0]]) + NonSpace(s[1..])
  }

  /** `re.sub(r"\s+", " ", s)`: every maximal run of whitespace becomes one space. */
  function Collapse(s: string): (r: string)
    ensures |r| <= |s|
    ensures s != [] ==> r != [] && (if IsSpace(s[0]) then r[0] == ' ' else r[0] == s[0])
    ensures SingleSpaced(r)
    decreases |s|
  {
    if s == [] then []
    else if IsSpace(s[0]) then " " + Collapse(LStrip(s[1..]))
    else [s[0]] + Collapse(s[1..])
  }

  /** `normalise_whitespace(text)`: whitespace runs collapsed to one space, then the
      ends stripped; None counts as "". */
  function NormaliseWhitespace(text: Option<string>): (r: string)
    ensures Stripped(r) && SingleSpaced(r)
  {
    var c := Collapse(text.GetOr(""));
    StripSingleSpaced(c);
    Strip(c)
  }

  /** `s.strip()` keeps a contiguous piece of `s`, so it keeps single spacing. */
  lemma StripSingleSpaced(s: string)
    requires SingleSpaced(s)
    ensures SingleSpaced(Strip(s))
  {
    var l := LStrip(s);
    SingleSpacedSlice(s, |s| - |l|, |s|);
    var r := RStrip(l);
    SingleSpacedSlice(l, 0, |r|);
  }

  /** A contiguous piece of a single-spaced string is single-spaced. */
  lemma SingleSpacedSlice(s: string, a: nat, b: nat)
    requires a <= b <= |s| && SingleSpaced(s)
    ensures SingleSpaced(s[a..b])
  {
    var t := s[a..b];
    forall i | 0 <= i < |t| - 1 ensures !(IsSpace(t[i]) && IsSpace(t[i + 1])) {
      assert t[i] == s[a + i] && t[i + 1] == s[a + i + 1];
    }
  }

  /** A single-spaced string is left as it is by `re.sub(r"\s+", " ", ...)`. */
  lemma {:induction false} CollapseFixed(s: string)
    requires SingleSpaced(s)
    ensures Collapse(s) == s
    decreases |s|
  {
    if s != [] {
      var t := s[1..];
      assert SingleSpaced(t) by {
        SingleSpacedSlice(s, 1, |s|);
      }
      if IsSpace(s[0]) {
        assert t == [] || !IsSpace(t[0]);
        assert LStrip(t) == t;
      }
      CollapseFixed(t);
      assert s == [s[0]] + t;
    }
  }

  /** Normalising twice is the same as normalising once. */
  lemma NormaliseIdempotent(text: Option<string>)
    ensures NormaliseWhitespace(Some(NormaliseWhitespace(text))) == NormaliseWhitespace(text)
  {
    var n := NormaliseWhitespace(text);
    CollapseFixed(n);
    StrippedFixed(n);
  }

  /** The non-whitespace characters of a concatenation are those of its parts. */
  lemma {:induction false} NonSpaceConcat(a: string, b: string)
    ensures NonSpace(a + b) == NonSpace(a) + NonSpace(b)
    decreases |a|
  {
    if a != [] {
      assert a + b == [a[0]] + (a[1..] + b) && a == [a[0]] + a[1..];
      NonSpaceCons(a[0], a[1..] + b);
      NonSpaceCons(a[0], a[1..]);
      NonSpaceConcat(a[1..], b);
    } else {
      assert a + b == b;
    }
  }

  /** A string of whitespace has no non-whitespace characters, and only such a one. */
  lemma {:induction false} NonSpaceEmpty(s: string)
    ensures NonSpace(s) == [] <==> AllSpace(s)
    decreases |s|
  {
    if s != [] {
      NonSpaceEmpty(s[1..]);
      assert AllSpace(s) <==> IsSpace(s[0]) && AllSpace(s[1..]);
    }
  }

  /** Dropping leading whitespace keeps every other character. */
  lemma {:induction false} NonSpaceLStrip(s: string)
    ensures NonSpace(LStrip(s)) == NonSpace(s)
    decreases |s|
  {
    if s != [] && IsSpace(s[0]) {
      NonSpaceLStrip(s[1..]);
    }
  }

  /** Dropping trailing whitespace keeps every other character. */
  lemma NonSpaceRStrip(s: string)
    ensures NonSpace(RStrip(s)) == NonSpace(s)
  {
    var r := RStrip(s);
    var tail := s[|r|..];
    assert s == r + tail;
    NonSpaceConcat(r, tail);
    NonSpaceEmpty(tail);
  }

  /** `str.strip()` drops only whitespace. */
  lemma NonSpaceStrip(s: string)
    ensures NonSpace(Strip(s)) == NonSpace(s)
  {
    NonSpaceLStrip(s);
    NonSpaceRStrip(LStrip(s));
  }

  /** The non-whitespace characters of a string with one more character in front. */
  lemma NonSpaceCons(c: char, t: string)
    ensures NonSpace([c] + t) == (if IsSpace(c) then [] else [c]) + NonSpace(t)
  {
    assert ([c] + t)[0] == c && ([c] + t)[1..] == t;
  }

  /** Collapsing whitespace keeps every other character, in order. */
  lemma {:induction false} NonSpaceCollapse(s: string)
    ensures NonSpace(Collapse(s)) == NonSpace(s)
    decreases |s|
  {
    if s != [] {
      if IsSpace(s[0]) {
        var t := LStrip(s[1..]);
        NonSpaceCollapse(t);
        NonSpaceLStrip(s[1..]);
        NonSpaceCons(' ', Collapse(t));
      } else {
        NonSpaceCollapse(s[1..]);
        NonSpaceCons(s[0], Collapse(s[1..]));
      }
    }
  }

  /** The non-whitespace characters of the input survive normalisation, in order. */
  lemma NormaliseKeepsText(text: Option<string>)
    ensures NonSpace(NormaliseWhitespace(text)) == NonSpace(text.GetOr(""))
  {
    var c := Collapse(text.GetOr(""));
    NonSpaceCollapse(text.GetOr(""));
    NonSpaceStrip(c);
  }

  /** Normalising gives "" exactly for None, "" and all-whitespace input. */
  lemma NormaliseBlank(text: Option<string>)
    ensures NormaliseWhitespace(text) == "" <==> text.None? || AllSpace(text.value)
  {
    var s := text.GetOr("");
    var n := NormaliseWhitespace(text);
    NormaliseKeepsText(text);
    NonSpaceEmpty(s);
    NonSpaceEmpty(n);
    if AllSpace(s) {
      assert NonSpace(n) == [];
      assert AllSpace(n);
    }
  }

  /** True when `first_non_empty` passes over `v`: None, "" or only whitespace. */
  predicate Blank(v: Option<string>) {
    v.None? || Strip(v.value) == ""
  }

  /** `parse_date(text)`: None for a missing or blank text, otherwise what the date
      parser (day first, fuzzy) makes of the stripped text, None when it gives up. */
  function ParseDate(text: Option<string>, parser: string -> Option<Ordinal>): (r: Option<Ordinal>)
    ensures Blank(text) ==> r.None?
    ensures !Blank(text) ==> r == parser(Strip(text.value))
  {
    if !TruthyText(text) then None
    else
      var cleaned := Strip(text.value);
      if cleaned == "" then None else parser(cleaned)
  }

  /** `first_non_empty(values)`: the first value that is not blank, stripped. */
  method FirstNonEmpty(values: seq<Option<string>>) returns (r: Option<string>)
    ensures r.None? <==> forall k :: 0 <= k < |values| ==> Blank(values[k])
    ensures r.Some? ==> exists k :: (0 <= k < |values| && !Blank(values[k])
      && r.value == Strip(values[k].value) && forall j :: 0 <= j < k ==> Blank(values[j]))
    ensures r.Some? ==> r.value != "" && Stripped(r.value)
  {
    for i := 0 to |values|
      invariant forall k :: 0 <= k < i ==> Blank(values[k])
    {
      var value := values[i];
      if value.Some? && value.value != "" {
        var stripped := Strip(value.value);
        if stripped != "" {
          return Some(stripped);
        }
      }
    }
    return None;
  }
}
