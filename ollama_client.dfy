/** The deterministic side of the Ollama client: the prompt's truncation, the bounded
    retry of the generate call, the defensive reading of the model's reply, and the
    assembly of a `TeeSheetAnalysis`. The HTTP call and `json.loads` are parameters. */
module OllamaClient {
  import opened Wrappers
  import opened Text
  import opened PyJson
  import opened TeeModels
  import opened Comprehension

  /** A Markdown code fence. */
  const Fence: string := "```"

  /** How much of each captured fragment the prompt may embed. */
  const HtmlLimit: nat := 30000
  const TextLimit: nat := 20000

  /** `stop_after_attempt(3)`. */
  const MaxAttempts: nat := 3

  /** The empty dict `_parse_response` falls back to. */
  const EmptyDict: Json := JObject([])

  // ----- _coerce_int -----

  /** `_coerce_int(value)`: None and "" give None; otherwise `int(value)`, with None in
      place of the `TypeError` or `ValueError` it may raise. */
  function CoerceInt(v: Json): (r: Option<int>)
    ensures v == JNull || v == JStr("") ==> r.None?
    ensures v.JInt? ==> r == Some(v.i)
    ensures v.JBool? ==> r == Some(if v.b then 1 else 0)
    ensures v.JStr? ==> r == ParseInt(v.s)
    ensures v.JArray? || v.JObject? ==> r.None?
  {
    if v == JNull || v == JStr("") then None else ToInt(v)
  }

  /** A count the model wrote as decimal text is read back as that number. */
  lemma CoerceIntText(n: int)
    ensures CoerceInt(JStr(IntToStr(n))) == Some(n)
  {
    ParseIntToStr(n);
  }

  // ----- _parse_response -----

  /** The text the fence rule selects: between the first and second fence when there are
      two or more, after the only fence when there is one, everything when there is none. */
  function FenceBody(c: string): (r: string)
    ensures !Contains(c, Fence) ==> r == c
  {
    if Contains(c, Fence) then
      var parts := Split(c, Fence);
      if |parts| >= 3 then parts[1] else parts[|parts| - 1]
    else c
  }

  /** With two or more fences, the body is the text between the first two. */
  lemma FenceBodyBetween(c: string, i: nat, j: nat)
    requires Find(c, Fence) == Some(i)
    requires Find(c[i + 3..], Fence) == Some(j)
    ensures FenceBody(c) == c[i + 3..][..j]
  {
    SplitAtFirst(c, Fence, i);
    SplitAtFirst(c[i + 3..], Fence, j);
  }

  /** With exactly one fence, the body is the text after it. */
  lemma FenceBodyAfter(c: string, i: nat)
    requires Find(c, Fence) == Some(i)
    requires !Contains(c[i + 3..], Fence)
    ensures FenceBody(c) == c[i + 3..]
  {
    SplitAtFirst(c, Fence, i);
    var rest := Split(c[i + 3..], Fence);
    assert |rest| == 1;
    assert Join(Fence, rest) == rest[0];
  }

  /** A `json` language tag (in any letter case) is dropped with the whitespace after it. */
  function DropJsonTag(c: string): (r: string)
    ensures StartsWith(Lower(c), "json") ==> r == Strip(c[4..])
    ensures !StartsWith(Lower(c), "json") ==> r == c
  {
    if StartsWith(Lower(c), "json") then Strip(c[4..]) else c
  }

  /** The text `_parse_response` hands to the decoder, or None when the reply is blank and
      nothing is decoded. */
  function Candidate(raw: string): (r: Option<string>)
    ensures r.None? <==> AllSpace(raw)
    ensures r.Some? ==> r.value == DropJsonTag(Strip(FenceBody(Strip(raw))))
  {
    var c := Strip(raw);
    if c == "" then None else Some(DropJsonTag(Strip(FenceBody(c))))
  }

  /** `_parse_response(raw_text)`: never raises; a blank reply or one the decoder refuses
      gives the empty dict, anything else is what the decoder returned. */
  function ParseResponse(raw: string, decode: string -> Option<Json>): (r: Json)
    ensures AllSpace(raw) ==> r == EmptyDict
    ensures Candidate(raw).Some? ==> r == decode(Candidate(raw).value).GetOr(EmptyDict)
  {
    match Candidate(raw)
    case None => EmptyDict
    case Some(c) => decode(c).GetOr(EmptyDict)
  }

  /** A reply wrapped in a `json` fence is decoded from the stripped text inside it. */
  lemma FencedReply(body: string, decode: string -> Option<Json>)
    requires forall k :: 0 <= k < |body| ==> body[k] != '`'
    ensures ParseResponse(Fence + "json" + body + Fence, decode) == decode(Strip(body)).GetOr(EmptyDict)
  {
    var raw := Fence + "json" + body + Fence;
    var inner := "json" + body;
    StripNoSpace(raw);
    assert OccursAt(raw, Fence, 0);
    assert Find(raw, Fence) == Some(0);
    assert raw[3..] == inner + Fence;
    NoFenceWithoutBacktick(inner);
    FenceAtEnd(inner);
    FenceBodyBetween(raw, 0, |inner|);
    assert raw[3..][..|inner|] == inner;
    JsonTagStrip(body);
  }

  /** Text without a backtick holds no fence. */
  lemma NoFenceWithoutBacktick(s: string)
    requires forall k :: 0 <= k < |s| ==> s[k] != '`'
    ensures !Contains(s, Fence)
  {
    forall j: nat | j + 3 <= |s| ensures !OccursAt(s, Fence, j) {
      assert s[j..j + 3][0] == s[j];
    }
  }

  /** In text without a backtick followed by a fence, the first fence is the final one. */
  lemma FenceAtEnd(s: string)
    requires forall k :: 0 <= k < |s| ==> s[k] != '`'
    ensures Find(s + Fence, Fence) == Some(|s|)
  {
    var t := s + Fence;
    assert t[|s|..|s| + 3] == Fence;
    forall j: nat | j < |s| ensures !OccursAt(t, Fence, j) {
      NoFenceAtBacktickFree(s, j);
    }
    FindFirst(t, Fence, |s|);
  }

  /** A fence cannot start on a character of text without a backtick. */
  lemma NoFenceAtBacktickFree(s: string, j: nat)
    requires forall k :: 0 <= k < |s| ==> s[k] != '`'
    requires j < |s|
    ensures !OccursAt(s + Fence, Fence, j)
  {
    var t := s + Fence;
    assert t[j] == s[j];
    if j + 3 <= |t| {
      assert t[j..j + 3][0] == t[j];
    }
  }

  /** Stripping `json` and a body gives the stripped body. */
  lemma JsonTagStrip(body: string)
    ensures DropJsonTag(Strip("json" + body)) == Strip(body)
  {
    var st := Strip("json" + body);
    StripJsonHead(body);
    LowerJson(st);
  }

  /** Stripping `json` and a body keeps the tag, and the stripped rest is the stripped body. */
  lemma StripJsonHead(body: string)
    ensures var st := Strip("json" + body);
            |st| >= 4 && st[..4] == "json" && Strip(st[4..]) == Strip(body)
  {
    var t := "json" + body;
    assert t[..4] == "json";
    JsonHeadNotSpace(t);
    StripKeepsHead(t, 4);
    StripTailOfHead(t, 4);
    assert t[4..] == body;
  }

  /** The letters of `json` are not whitespace. */
  lemma JsonHeadNotSpace(t: string)
    requires |t| >= 4 && t[..4] == "json"
    ensures forall k :: 0 <= k < 4 ==> !IsSpace(t[k])
  {
    assert t[0] == 'j' && t[1] == 's' && t[2] == 'o' && t[3] == 'n';
  }

  /** Text starting with `json` starts with `json` once lower-cased. */
  lemma LowerJson(s: string)
    requires |s| >= 4 && s[..4] == "json"
    ensures StartsWith(Lower(s), "json")
  {
    assert s[0] == 'j' && s[1] == 's' && s[2] == 'o' && s[3] == 'n';
    assert Lower(s)[..4] == "json";
  }

  /** Stripping text whose first `n` characters are not whitespace keeps those characters. */
  lemma StripKeepsHead(t: string, n: nat)
    requires 0 < n <= |t| && forall k :: 0 <= k < n ==> !IsSpace(t[k])
    ensures |Strip(t)| >= n && Strip(t)[..n] == t[..n]
  {
    StripIsRStrip(t);
    var r := RStrip(t);
    assert !IsSpace(t[n - 1]);
    assert r[..n] == t[..n];
  }

  /** Text that starts with a non-whitespace character is only stripped at its end. */
  lemma StripIsRStrip(t: string)
    requires 0 < |t| && !IsSpace(t[0])
    ensures Strip(t) == RStrip(t)
  {
    StripUnfold(t);
    assert LStrip(t) == t;
  }

  /** After a non-whitespace head of length `n`, the stripped rest is the stripped tail. */
  lemma StripTailOfHead(t: string, n: nat)
    requires 0 < n <= |t| && forall k :: 0 <= k < n ==> !IsSpace(t[k])
    ensures |Strip(t)| >= n && Strip(Strip(t)[n..]) == Strip(t[n..])
  {
    StripKeepsHead(t, n);
    StripIsRStrip(t);
    RStripTail(t, n);
    var tail, m := t[n..], |RStrip(t)| - n;
    StripIgnoresTrailingSpace(tail, m);
    SameStrip(Strip(t)[n..], tail[..m], tail);
  }

  lemma SameStrip(a: string, b: string, c: string)
    requires a == b && Strip(b) == Strip(c)
    ensures Strip(a) == Strip(c)
  {
  }

  /** Past a head of length `n` that right stripping keeps, right stripping removes the
      tail's trailing whitespace. */
  lemma RStripTail(t: string, n: nat)
    requires n <= |RStrip(t)|
    ensures var r, tail := RStrip(t), t[n..];
            r[n..] == tail[..|r| - n] && AllSpace(tail[|r| - n..])
  {
    var r, tail := RStrip(t), t[n..];
    assert r[n..] == tail[..|r| - n];
    assert tail[|r| - n..] == t[|r|..];
  }

  /** Dropping some trailing whitespace does not change the strip. */
  lemma StripIgnoresTrailingSpace(s: string, m: nat)
    requires m <= |s| && AllSpace(s[m..])
    ensures Strip(s[..m]) == Strip(s)
  {
    StripPrefixSpace(s, m);
  }

  lemma {:induction false} StripPrefixSpace(s: string, m: nat)
    requires m <= |s| && AllSpace(s[m..])
    ensures Strip(s[..m]) == Strip(s)
    decreases |s| - m
  {
    if m < |s| {
      var s' := s[..|s| - 1];
      DropLastKeepsSpace(s, m);
      StripPrefixSpace(s', m);
      StripDropLastSpace(s);
    } else {
      assert s[..m] == s;
    }
  }

  lemma DropLastKeepsSpace(s: string, m: nat)
    requires m < |s| && AllSpace(s[m..])
    ensures AllSpace(s[..|s| - 1][m..]) && IsSpace(s[|s| - 1])
    ensures s[..|s| - 1][..m] == s[..m]
  {
    assert s[..|s| - 1][m..] == s[m..|s| - 1];
    assert s[|s| - 1] == s[m..][|s| - 1 - m];
  }

  /** A final whitespace character does not change the strip. */
  lemma StripDropLastSpace(s: string)
    requires |s| > 0 && IsSpace(s[|s| - 1])
    ensures Strip(s[..|s| - 1]) == Strip(s)
  {
    var s' := s[..|s| - 1];
    var l, l' := LStrip(s), LStrip(s');
    LStripPrefix(s);
    if l != [] {
      LastOfSuffix(s, l);
      RStripDropLastSpace(l);
      assert l' == l[..|l| - 1];
    } else {
      assert l' == [];
    }
    assert RStrip(l') == RStrip(l);
    StripUnfold(s);
    StripUnfold(s');
  }

  lemma StripUnfold(s: string)
    ensures Strip(s) == RStrip(LStrip(s))
  {
  }

  /** A non-empty left strip ends with the last character of the text. */
  lemma LastOfSuffix(s: string, l: string)
    requires l == LStrip(s) && l != []
    ensures l[|l| - 1] == s[|s| - 1]
  {
  }

  lemma RStripDropLastSpace(l: string)
    requires |l| > 0 && IsSpace(l[|l| - 1])
    ensures RStrip(l[..|l| - 1]) == RStrip(l)
  {
  }

  /** Left stripping commutes with dropping a final whitespace character. */
  lemma {:induction false} LStripPrefix(s: string)
    requires |s| > 0 && IsSpace(s[|s| - 1])
    ensures LStrip(s) == [] ==> LStrip(s[..|s| - 1]) == []
    ensures LStrip(s) != [] ==> LStrip(s[..|s| - 1]) == LStrip(s)[..|LStrip(s)| - 1]
    decreases |s|
  {
    var s' := s[..|s| - 1];
    if IsSpace(s[0]) {
      if |s| > 1 {
        assert s[1..][..|s| - 2] == s'[1..];
        LStripPrefix(s[1..]);
      }
    }
  }

  // ----- the tee_times and warnings comprehensions of analyse_snapshot -----


  /** `item.get(key, default)` on a dict's members. */
  function Field(members: seq<Member>, key: string, default: Json): Json {
    Lookup(members, key).GetOr(default)
  }

  /** The `TeeTimeSlot` built from one reply item (a dict). */
  function MakeSlot(members: seq<Member>): (slot: TeeTimeSlot)
    ensures Stripped(slot.time) && Stripped(slot.status)
    ensures slot.notes.Some? ==> Truthy(slot.notes.value)
    ensures Lookup(members, "is_bookable").None? ==> !slot.isBookable
    ensures Lookup(members, "notes").None? ==> slot.notes.None?
    ensures Lookup(members, "available_slots").None? ==> slot.availableSlots.None?
  {
    var notes := Field(members, "notes", JNull);
    TeeTimeSlot(
      time := Strip(Str(Field(members, "time", JStr("")))),
      status := Strip(Str(Field(members, "status", JStr("")))),
      availableSlots := CoerceInt(Field(members, "available_slots", JNull)),
      isBookable := Truthy(Field(members, "is_bookable", JBool(false))),
      notes := if Truthy(notes) then Some(notes) else None)
  }

  /** The members of a dict; any other value has none. */
  function MembersOf(j: Json): seq<Member> {
    if j.JObject? then j.members else []
  }

  /** A reply item is kept when its `time` is truthy. */
  predicate Timed(item: Json) {
    Truthy(Field(MembersOf(item), "time", JNull))
  }

  /** The slot built from a reply item. */
  function SlotOf(item: Json): TeeTimeSlot {
    MakeSlot(MembersOf(item))
  }

  /** The position of the first item that is not a dict, or the length when all are. */
  function FirstNonDict(items: seq<Json>): (k: nat)
    ensures k <= |items|
    ensures forall m :: 0 <= m < k ==> items[m].JObject?
    ensures k < |items| ==> !items[k].JObject?
  {
    if |items| == 0 || !items[0].JObject? then 0 else 1 + FirstNonDict(items[1..])
  }

  /** The `tee_times` comprehension over the iterated items. `item.get` raises
      `AttributeError` on the first item that is not a dict, so the list is built only
      when every item is a dict; then the items with a truthy `time` become slots, in
      order. */
  function SlotsFrom(items: seq<Json>): Result<seq<TeeTimeSlot>> {
    var k := FirstNonDict(items);
    if k < |items| then Failure(NoGet(items[k])) else Success(FilterMap(items, Timed, SlotOf))
  }

  /** The comprehension succeeds exactly when every item is a dict, and otherwise names
      the type of the first item that is not. */
  lemma SlotsFromFails(items: seq<Json>)
    ensures SlotsFrom(items).Success? <==> forall k :: 0 <= k < |items| ==> items[k].JObject?
    ensures SlotsFrom(items).Failure? ==>
              exists k :: 0 <= k < |items| && !items[k].JObject? && SlotsFrom(items).error == NoGet(items[k])
                          && forall m :: 0 <= m < k ==> items[m].JObject?
  {
    if SlotsFrom(items).Failure? {
      var k := FirstNonDict(items);
      assert !items[k].JObject? && SlotsFrom(items).error == NoGet(items[k]);
    }
  }

  /** When every item is a dict with a truthy time, each item becomes one slot, in order. */
  lemma SlotsFromAllTimed(items: seq<Json>)
    requires forall k :: 0 <= k < |items| ==> items[k].JObject? && Timed(items[k])
    ensures SlotsFrom(items).Success?
    ensures |SlotsFrom(items).value| == |items|
    ensures forall k :: 0 <= k < |items| ==> SlotsFrom(items).value[k] == MakeSlot(items[k].members)
  {
    FilterMapAll(items, Timed, SlotOf);
  }

  /** Dicts without a truthy time give no slots. */
  lemma SlotsFromUntimed(items: seq<Json>)
    requires forall k :: 0 <= k < |items| ==> items[k].JObject? && !Timed(items[k])
    ensures SlotsFrom(items) == Success([])
  {
    FilterMapNone(items, Timed, SlotOf);
  }

  /** Two lists of dicts glued together give the two slot lists glued together. */
  lemma SlotsFromConcat(a: seq<Json>, b: seq<Json>)
    requires SlotsFrom(a).Success? && SlotsFrom(b).Success?
    ensures SlotsFrom(a + b) == Success(SlotsFrom(a).value + SlotsFrom(b).value)
  {
    assert forall k :: 0 <= k < |a + b| ==> (a + b)[k].JObject? by {
      forall k | 0 <= k < |a + b| ensures (a + b)[k].JObject? {
        if k < |a| {
          assert (a + b)[k] == a[k];
        } else {
          assert (a + b)[k] == b[k - |a|];
        }
      }
    }
    FilterMapConcat(a, b, Timed, SlotOf);
  }

  /** One warning: `str(m).strip()`. */
  function WarningText(m: Json): string {
    Strip(Str(m))
  }

  /** An item gives a warning when its text is not blank. */
  predicate HasWarning(m: Json) {
    WarningText(m) != ""
  }

  /** A warning is a non-blank string with no surrounding whitespace. */
  predicate CleanWarning(w: string) {
    w != "" && Stripped(w)
  }

  predicate CleanWarnings(ws: seq<string>) {
    forall k :: 0 <= k < |ws| ==> CleanWarning(ws[k])
  }

  /** `[str(m).strip() for m in items if str(m).strip()]`: only clean warnings remain. */
  function WarningsFrom(items: seq<Json>): (r: seq<string>)
    ensures |r| <= |items|
    ensures CleanWarnings(r)
  {
    FilterMapKeeps(items, HasWarning, WarningText, CleanWarning);
    FilterMap(items, HasWarning, WarningText)
  }

  /** Warnings that are already clean strings are all kept, unchanged and in order. */
  lemma WarningsFromClean(items: seq<Json>, ws: seq<string>)
    requires CleanWarnings(ws) && |items| == |ws|
    requires forall k :: 0 <= k < |items| ==> items[k] == JStr(ws[k])
    ensures WarningsFrom(items) == ws
  {
    forall k | 0 <= k < |items| ensures HasWarning(items[k]) && WarningText(items[k]) == ws[k] {
      assert CleanWarning(ws[k]);
      StrippedFixed(ws[k]);
    }
    FilterMapAll(items, HasWarning, WarningText);
  }

  /** Blank warnings are dropped: they add nothing wherever they stand. */
  lemma WarningsFromConcat(a: seq<Json>, b: seq<Json>)
    ensures WarningsFrom(a + b) == WarningsFrom(a) + WarningsFrom(b)
  {
    FilterMapConcat(a, b, HasWarning, WarningText);
  }

  /** `parsed.get("tee_times", [])`, iterated through the comprehension: a missing key
      gives no slots, a value that cannot be iterated (a JSON null, number or boolean)
      raises `TypeError`, and otherwise the items go through the comprehension. */
  function TeeTimes(parsed: Json): (r: Result<seq<TeeTimeSlot>>)
    ensures !parsed.JObject? ==> r == Failure(NoGet(parsed))
    ensures parsed.JObject? && Lookup(parsed.members, "tee_times").None? ==> r == Success([])
    ensures parsed.JObject? ==>
              var v := Field(parsed.members, "tee_times", JArray([]));
              && (Iterate(v).Failure? ==> r == Failure(NotIterable(v)))
              && (Iterate(v).Success? ==> r == SlotsFrom(Iterate(v).value))
  {
    var value :- Get(parsed, "tee_times", JArray([]));
    var items :- Iterate(value);
    SlotsFrom(items)
  }

  /** `parsed.get("warnings", [])`, iterated through the comprehension: a missing key
      gives no warnings, a value that cannot be iterated raises `TypeError`, and otherwise
      the items are filtered to clean warnings. */
  function Warnings(parsed: Json): (r: Result<seq<string>>)
    ensures !parsed.JObject? ==> r == Failure(NoGet(parsed))
    ensures r.Success? ==> CleanWarnings(r.value)
    ensures parsed.JObject? && Lookup(parsed.members, "warnings").None? ==> r == Success([])
    ensures parsed.JObject? ==>
              var v := Field(parsed.members, "warnings", JArray([]));
              && (Iterate(v).Failure? ==> r == Failure(NotIterable(v)))
              && (Iterate(v).Success? ==> r == Success(WarningsFrom(Iterate(v).value)))
  {
    var value :- Get(parsed, "warnings", JArray([]));
    var items :- Iterate(value);
    Success(WarningsFrom(items))
  }

  // ----- _fallback_summary and the choice of summary -----

  /** `len([slot for slot in tee_times if slot.is_bookable])`. */
  function BookableCount(slots: seq<TeeTimeSlot>): (n: nat)
    ensures n <= |slots|
    ensures n == 0 <==> forall k :: 0 <= k < |slots| ==> !slots[k].isBookable
  {
    if |slots| == 0 then 0
    else (if slots[0].isBookable then 1 else 0) + BookableCount(slots[1..])
  }

  /** `_fallback_summary(tee_times, warnings, snapshot)`: never empty, and never starting
      with whitespace. */
  function FallbackSummary(slots: seq<TeeTimeSlot>, warnings: seq<string>, dayName: string, dateIso: string)
    : (r: string)
    ensures r != [] && !IsSpace(r[0])
  {
    var when := dayName + " " + dateIso;
    if slots == [] then
      if warnings != [] then ("No tee times parsed for " + when) + ("; warnings: " + warnings[0])
      else "No tee times parsed for " + when + "."
    else
      var count := BookableCount(slots);
      if count > 0 then
        NonNegativeText(count);
        IntToStr(count) + " bookable tee time(s) found for " + (when + ".")
      else "Tee sheet analysed for " + when + "; no bookable slots identified."
  }

  /** With no slots and some warnings, the fallback names the date and the first warning. */
  lemma FallbackFirstWarning(warnings: seq<string>, dayName: string, dateIso: string)
    requires warnings != []
    ensures var r := FallbackSummary([], warnings, dayName, dateIso);
            StartsWith(r, "No tee times parsed for " + dayName + " " + dateIso)
            && EndsWith(r, "; warnings: " + warnings[0])
  {
    Affixes("No tee times parsed for " + dayName + " " + dateIso, "", "; warnings: " + warnings[0]);
    assert "No tee times parsed for " + dayName + " " + dateIso + "" == "No tee times parsed for " + dayName + " " + dateIso;
  }

  /** With no slots and no warnings, the fallback names the date and ends the sentence. */
  lemma FallbackNothing(dayName: string, dateIso: string)
    ensures var r := FallbackSummary([], [], dayName, dateIso);
            StartsWith(r, "No tee times parsed for " + dayName + " " + dateIso) && EndsWith(r, ".")
  {
    Affixes("No tee times parsed for " + dayName + " " + dateIso, "", ".");
    assert "No tee times parsed for " + dayName + " " + dateIso + "" == "No tee times parsed for " + dayName + " " + dateIso;
  }

  /** With bookable slots, the fallback starts with their count and ends with the date. */
  lemma FallbackBookable(slots: seq<TeeTimeSlot>, dayName: string, dateIso: string)
    requires BookableCount(slots) > 0
    ensures var r := FallbackSummary(slots, [], dayName, dateIso);
            StartsWith(r, IntToStr(BookableCount(slots)) + " bookable tee time(s) found for ")
            && EndsWith(r, dayName + " " + dateIso + ".")
  {
    Affixes(IntToStr(BookableCount(slots)) + " bookable tee time(s) found for ", "", dayName + " " + dateIso + ".");
    assert IntToStr(BookableCount(slots)) + " bookable tee time(s) found for " + ""
        == IntToStr(BookableCount(slots)) + " bookable tee time(s) found for ";
  }

  /** With slots of which none is bookable, the fallback says so. */
  lemma FallbackNoneBookable(slots: seq<TeeTimeSlot>, dayName: string, dateIso: string)
    requires slots != [] && BookableCount(slots) == 0
    ensures var r := FallbackSummary(slots, [], dayName, dateIso);
            StartsWith(r, "Tee sheet analysed for ") && EndsWith(r, "; no bookable slots identified.")
  {
    Affixes("Tee sheet analysed for ", dayName + " " + dateIso, "; no bookable slots identified.");
  }

  /** The warnings only matter when there are no slots. */
  lemma FallbackIgnoresWarnings(slots: seq<TeeTimeSlot>, warnings: seq<string>, dayName: string, dateIso: string)
    requires slots != []
    ensures FallbackSummary(slots, warnings, dayName, dateIso) == FallbackSummary(slots, [], dayName, dateIso)
  {
  }

  /** The decimal text of a count starts with a digit. */
  lemma NonNegativeText(n: nat)
    ensures IntToStr(n) != [] && IsDigit(IntToStr(n)[0]) && !IsSpace(IntToStr(n)[0])
  {
  }

  /** `parsed.get("summary")` is used, stripped, when it is a string that is not blank;
      otherwise the fallback. Either way the summary is never empty. */
  function ChooseSummary(summary: Json, slots: seq<TeeTimeSlot>, warnings: seq<string>, dayName: string,
                         dateIso: string): (r: string)
    ensures r != [] && Stripped(r)
    ensures summary.JStr? && Strip(summary.s) != "" ==> r == Strip(summary.s)
    ensures !(summary.JStr? && Strip(summary.s) != "") ==> r == Strip(FallbackSummary(slots, warnings, dayName, dateIso))
  {
    if summary.JStr? && Strip(summary.s) != "" then Strip(summary.s)
    else
      var f := FallbackSummary(slots, warnings, dayName, dateIso);
      StripFirstKept(f);
      Strip(f)
  }

  /** Stripping text that starts with a non-whitespace character leaves something. */
  lemma StripFirstKept(s: string)
    requires s != [] && !IsSpace(s[0])
    ensures Strip(s) != []
  {
  }

  // ----- result assembly in analyse_snapshot -----

  /** The analysis built from the decoded reply `parsed`, whose stripped text was `raw`:
      the reply must be a dict (else `.get` raises); slots are read first, then warnings,
      then the summary. */
  function Analysis(parsed: Json, raw: string, snapshot: TeeSheetSnapshot, model: string)
    : (r: Result<TeeSheetAnalysis>)
    ensures !parsed.JObject? ==> r == Failure(NoGet(parsed))
    ensures r.Success? ==> r.value.summary != "" && Stripped(r.value.summary)
    ensures r.Success? ==> r.value.dateIso == snapshot.dateIso && r.value.dayName == snapshot.dayName
                           && r.value.sourceUrl == snapshot.url && r.value.modelUsed == "ollama:" + model
                           && r.value.modelRawResponse == raw
    ensures parsed.JObject? ==> (r.Success? <==> TeeTimes(parsed).Success? && Warnings(parsed).Success?)
    ensures parsed.JObject? && TeeTimes(parsed).Failure? ==> r == Failure(TeeTimes(parsed).error)
    ensures parsed.JObject? && TeeTimes(parsed).Success? && Warnings(parsed).Failure? ==>
              r == Failure(Warnings(parsed).error)
    ensures r.Success? ==>
              && r.value.teeTimes == TeeTimes(parsed).value
              && r.value.warnings == Warnings(parsed).value
              && r.value.summary == ChooseSummary(Field(parsed.members, "summary", JNull), r.value.teeTimes,
                                                  r.value.warnings, snapshot.dayName, snapshot.dateIso)
  {
    match parsed
    case JObject(members) =>
      var slots :- TeeTimes(parsed);
      var warnings :- Warnings(parsed);
      var summary := Field(members, "summary", JNull);
      Success(TeeSheetAnalysis(
        dateIso := snapshot.dateIso,
        dayName := snapshot.dayName,
        summary := ChooseSummary(summary, slots, warnings, snapshot.dayName, snapshot.dateIso),
        teeTimes := slots,
        warnings := warnings,
        sourceUrl := snapshot.url,
        modelUsed := "ollama:" + model,
        modelRawResponse := raw))
    case _ => Failure(NoGet(parsed))
  }

  /** The analysis `analyse_snapshot` builds from the generate call's JSON response: the
      response must be a dict; its `response` text, stripped, is parsed leniently. */
  function Assemble(response: Json, snapshot: TeeSheetSnapshot, model: string, decode: string -> Option<Json>)
    : (r: Result<TeeSheetAnalysis>)
    ensures !response.JObject? ==> r == Failure(NoGet(response))
    ensures r.Success? ==> r.value.summary != "" && Stripped(r.value.summary)
    ensures r.Success? ==> Stripped(r.value.modelRawResponse)
    ensures response.JObject? ==>
              var raw := Strip(Str(Field(response.members, "response", JStr(""))));
              r == Analysis(ParseResponse(raw, decode), raw, snapshot, model)
  {
    var reply :- Get(response, "response", JStr(""));
    var raw := Strip(Str(reply));
    Analysis(ParseResponse(raw, decode), raw, snapshot, model)
  }

  /** An empty reply dict gives an analysis with no slots, no warnings and the fallback
      summary for an empty sheet. */
  lemma EmptyAnalysis(raw: string, snapshot: TeeSheetSnapshot, model: string)
    ensures Analysis(EmptyDict, raw, snapshot, model)
            == Success(TeeSheetAnalysis(snapshot.dateIso, snapshot.dayName,
                                        Strip(FallbackSummary([], [], snapshot.dayName, snapshot.dateIso)),
                                        [], [], snapshot.url, "ollama:" + model, raw))
  {
    EmptyDictReads();
  }

  /** A reply the decoder cannot read still gives an analysis: no slots, no warnings, and
      the fallback summary for an empty sheet. */
  lemma UndecodableReply(response: Json, reply: string, snapshot: TeeSheetSnapshot, model: string,
                         decode: string -> Option<Json>)
    requires Get(response, "response", JStr("")) == Success(JStr(reply))
    requires var c := Candidate(Strip(reply)); c.None? || decode(c.value).None?
    ensures Assemble(response, snapshot, model, decode)
            == Success(TeeSheetAnalysis(snapshot.dateIso, snapshot.dayName,
                                        Strip(FallbackSummary([], [], snapshot.dayName, snapshot.dateIso)),
                                        [], [], snapshot.url, "ollama:" + model, Strip(reply)))
  {
    AssembleReads(response, reply, snapshot, model, decode);
    UndecodableParsesEmpty(Strip(reply), decode);
    EmptyAnalysis(Strip(reply), snapshot, model);
  }

  /** `Assemble` once the response's reply text is known. */
  lemma AssembleReads(response: Json, reply: string, snapshot: TeeSheetSnapshot, model: string,
                      decode: string -> Option<Json>)
    requires Get(response, "response", JStr("")) == Success(JStr(reply))
    ensures Assemble(response, snapshot, model, decode)
            == Analysis(ParseResponse(Strip(reply), decode), Strip(reply), snapshot, model)
  {
    var got := Get(response, "response", JStr(""));
    assert !got.IsFailure() && got.Extract() == JStr(reply);
    assert Str(JStr(reply)) == reply;
  }

  /** A reply with no candidate, or one the decoder refuses, is read as the empty dict. */
  lemma UndecodableParsesEmpty(raw: string, decode: string -> Option<Json>)
    requires var c := Candidate(raw); c.None? || decode(c.value).None?
    ensures ParseResponse(raw, decode) == EmptyDict
  {
  }

  /** A reply whose `tee_times` is JSON null is a dict, yet building its analysis raises
      the `TypeError` of iterating None. */
  lemma NullTeeTimesFails(raw: string, snapshot: TeeSheetSnapshot, model: string)
    ensures Analysis(JObject([Member("tee_times", JNull)]), raw, snapshot, model) == Failure(NotIterable(JNull))
  {
    assert Lookup([Member("tee_times", JNull)], "tee_times") == Some(JNull);
  }

  /** The empty dict yields no slots, no warnings and no summary. */
  lemma EmptyDictReads()
    ensures TeeTimes(EmptyDict) == Success([])
    ensures Warnings(EmptyDict) == Success([])
  {
    assert Get(EmptyDict, "tee_times", JArray([])) == Success(JArray([]));
    assert Get(EmptyDict, "warnings", JArray([])) == Success(JArray([]));
  }

  // ----- _build_prompt -----

  /** The first `limit` characters of a fragment, or all of it when it is shorter. */
  function Truncate(s: string, limit: nat): (r: string)
    ensures |r| == if |s| <= limit then |s| else limit
    ensures r == s[..|r|]
  {
    if |s| > limit then s[..limit] else s
  }

  /** What the prompt carries from the snapshot; the instructions around them are fixed. */
  datatype Prompt = Prompt(dateIso: string, dayName: string, url: string, html: string, text: string)

  /** The values `_build_prompt(snapshot)` splices into its template: the date, day and
      URL, and the HTML and visible text cut to at most 30000 and 20000 characters. The
      dedenting and stripping of the finished text are not part of the model. */
  function BuildPrompt(snapshot: TeeSheetSnapshot): (p: Prompt)
    ensures p.dateIso == snapshot.dateIso && p.dayName == snapshot.dayName && p.url == snapshot.url
    ensures StartsWith(snapshot.htmlFragment, p.html) && |p.html| <= HtmlLimit
    ensures StartsWith(snapshot.textFragment, p.text) && |p.text| <= TextLimit
    ensures |snapshot.htmlFragment| <= HtmlLimit ==> p.html == snapshot.htmlFragment
    ensures |snapshot.textFragment| <= TextLimit ==> p.text == snapshot.textFragment
  {
    Prompt(snapshot.dateIso, snapshot.dayName, snapshot.url,
           Truncate(snapshot.htmlFragment, HtmlLimit), Truncate(snapshot.textFragment, TextLimit))
  }

  // ----- _invoke_generate -----

  /** The request body: model name, prompt, and `stream` switched off. */
  datatype Payload = Payload(model: string, prompt: Prompt, stream: bool)

  function Pow2(k: nat): (r: nat)
    ensures r >= 1
  {
    if k == 0 then 1 else 2 * Pow2(k - 1)
  }

  /** `wait_exponential(multiplier=1, min=1, max=8)` after attempt `n` fails. */
  function WaitAfter(n: nat): (w: int)
    requires n >= 1
    ensures 1 <= w <= 8
  {
    var e := Pow2(n - 1);
    if e < 1 then 1 else if e > 8 then 8 else e
  }

  /** `_invoke_generate(payload)`: up to three attempts; the first success is returned, and
      when all fail the last attempt's error is raised again (`reraise=True`). The outcome
      of attempt `n` is `generate(payload, n)`; `waits` are the back-offs slept between
      attempts, in seconds. */
  method InvokeGenerate(payload: Payload, generate: (Payload, nat) -> Result<Json>)
    returns (r: Result<Json>, attempts: nat, waits: seq<int>)
    ensures 1 <= attempts <= MaxAttempts
    ensures r == generate(payload, attempts)
    ensures forall n :: 1 <= n < attempts ==> generate(payload, n).Failure?
    ensures r.Failure? ==> attempts == MaxAttempts
    ensures waits == [1, 2][..attempts - 1]
  {
    attempts := 1;
    waits := [];
    r := generate(payload, 1);
    while r.Failure? && attempts < MaxAttempts
      invariant 1 <= attempts <= MaxAttempts
      invariant r == generate(payload, attempts)
      invariant forall n :: 1 <= n < attempts ==> generate(payload, n).Failure?
      invariant waits == [1, 2][..attempts - 1]
      decreases MaxAttempts - attempts
    {
      waits := waits + [WaitAfter(attempts)];
      attempts := attempts + 1;
      r := generate(payload, attempts);
    }
  }

  // ----- analyse_snapshot -----

  /** The attempt whose outcome `_invoke_generate` keeps: the first that succeeds, or
      the last when none does. */
  function DecisiveAttempt(payload: Payload, generate: (Payload, nat) -> Result<Json>): (n: nat)
    ensures 1 <= n <= MaxAttempts
    ensures forall m :: 1 <= m < n ==> generate(payload, m).Failure?
    ensures generate(payload, n).Failure? ==> n == MaxAttempts
  {
    if generate(payload, 1).Success? then 1 else if generate(payload, 2).Success? then 2 else 3
  }

  /** The outcome of `analyse_snapshot(snapshot)` for given generate and decode behaviour. */
  function Analysed(snapshot: TeeSheetSnapshot, model: string,
                    generate: (Payload, nat) -> Result<Json>, decode: string -> Option<Json>)
    : Result<TeeSheetAnalysis>
  {
    var payload := Payload(model, BuildPrompt(snapshot), false);
    match generate(payload, DecisiveAttempt(payload, generate))
    case Failure(e) => Failure(e)
    case Success(response) => Assemble(response, snapshot, model, decode)
  }

  /** `analyse_snapshot(snapshot)`: build the prompt, call generate with retries, and
      assemble the analysis from the response. A generate error after the last attempt
      propagates unchanged. */
  method AnalyseSnapshot(snapshot: TeeSheetSnapshot, model: string,
                         generate: (Payload, nat) -> Result<Json>, decode: string -> Option<Json>)
    returns (r: Result<TeeSheetAnalysis>, attempts: nat)
    ensures 1 <= attempts <= MaxAttempts
    ensures r == Analysed(snapshot, model, generate, decode)
    ensures var payload := Payload(model, BuildPrompt(snapshot), false);
            && (forall n :: 1 <= n < attempts ==> generate(payload, n).Failure?)
            && (match generate(payload, attempts)
                case Failure(e) => attempts == MaxAttempts && r == Failure(e)
                case Success(response) => r == Assemble(response, snapshot, model, decode))
  {
    var payload := Payload(model, BuildPrompt(snapshot), false);
    var response, waits;
    response, attempts, waits := InvokeGenerate(payload, generate);
    assert attempts == DecisiveAttempt(payload, generate);
    match response
    case Failure(e) => r := Failure(e);
    case Success(json) => r := Assemble(json, snapshot, model, decode);
  }
}
