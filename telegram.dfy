/** The Telegram side of the tee-time agent: the text of one tee time, the whole message
    for one analysed date, and whether sending it succeeded. */
module Telegram {
  import opened Wrappers
  import opened Text
  import opened PyJson
  import opened TeeModels

  /** The separator between the pieces of one tee time: a spaced em dash. */
  const PieceSep: string := " — "

  /** The index of the first item that is not a string, or `|items|` when all are. */
  function FirstNonStr(items: seq<Json>): (k: nat)
    ensures k <= |items|
    ensures forall m :: 0 <= m < k ==> items[m].JStr?
    ensures k < |items| ==> !items[k].JStr?
  {
    if |items| == 0 || !items[0].JStr? then 0 else 1 + FirstNonStr(items[1..])
  }

  /** The text of each item, as `str()` gives it. */
  function Texts(items: seq<Json>): (r: seq<string>)
    ensures |r| == |items|
    ensures forall k :: 0 <= k < |items| && items[k].JStr? ==> r[k] == items[k].s
  {
    seq(|items|, k requires 0 <= k < |items| => Str(items[k]))
  }

  /** The message of the `TypeError` `str.join` raises on an item that is not a string. */
  function JoinTypeError(k: nat, item: Json): string {
    "sequence item " + NatToStr(k) + ": expected str instance, " + TypeName(item) + " found"
  }

  /** `sep.join(items)`: every item must be a string, and the first that is not is named
      by its index and type. */
  function StrJoin(sep: string, items: seq<Json>): (r: Result<string>)
    ensures r.Success? <==> forall k :: 0 <= k < |items| ==> items[k].JStr?
    ensures r.Success? ==> r.value == Join(sep, Texts(items))
    ensures r.Failure? ==> exists k :: 0 <= k < |items| && !items[k].JStr?
                                       && (forall m :: 0 <= m < k ==> items[m].JStr?)
                                       && r.error == JoinTypeError(k, items[k])
  {
    var k := FirstNonStr(items);
    if k < |items| then Failure(JoinTypeError(k, items[k])) else Success(Join(sep, Texts(items)))
  }

  /** The count piece: `"1 slot"`, otherwise `"<n> slots"` (also for zero). */
  function CountPiece(n: int): (r: string)
    ensures StartsWith(r, IntToStr(n) + " ")
    ensures EndsWith(r, "slot") <==> n == 1
  {
    var noun := if n == 1 then "slot" else "slots";
    Affixes(IntToStr(n) + " ", "", noun);
    assert IntToStr(n) + " " + "" + noun == IntToStr(n) + " " + noun;
    assert n != 1 ==> (IntToStr(n) + " " + noun)[|IntToStr(n) + " " + noun| - 1] == 's';
    IntToStr(n) + " " + noun
  }

  /** The `Bookable` marker is added for a bookable slot whose status does not already
      mention booking. */
  predicate MarkBookable(slot: TeeTimeSlot) {
    slot.isBookable && !Contains(Lower(slot.status), "book")
  }

  /** The notes piece is present only for truthy notes. */
  predicate HasNotes(slot: TeeTimeSlot) {
    slot.notes.Some? && Truthy(slot.notes.value)
  }

  /** The `pieces` list of `format_slot`, in the order it appends them. */
  function SlotPieces(slot: TeeTimeSlot): (p: seq<Json>)
    ensures |p| == 2 + (if slot.availableSlots.Some? then 1 else 0) + (if HasNotes(slot) then 1 else 0)
                     + (if MarkBookable(slot) then 1 else 0)
  {
    [JStr(slot.time), JStr(slot.status)]
    + (if slot.availableSlots.Some? then [JStr(CountPiece(slot.availableSlots.value))] else [])
    + (if HasNotes(slot) then [slot.notes.value] else [])
    + (if MarkBookable(slot) then [JStr("Bookable")] else [])
  }

  /** The pieces come in the order time, status, count, notes, marker, each present
      exactly when its condition holds. */
  lemma SlotPiecesOrder(slot: TeeTimeSlot)
    ensures var p := SlotPieces(slot);
            p[0] == JStr(slot.time) && p[1] == JStr(slot.status)
            && (slot.availableSlots.Some? ==> p[2] == JStr(CountPiece(slot.availableSlots.value)))
            && (HasNotes(slot) ==> p[if slot.availableSlots.Some? then 3 else 2] == slot.notes.value)
            && (MarkBookable(slot) ==> p[|p| - 1] == JStr("Bookable"))
  {
  }

  /** A slot `format_slot` can format: its notes, if truthy, are a string. */
  predicate Formattable(slot: TeeTimeSlot) {
    !HasNotes(slot) || slot.notes.value.JStr?
  }

  /** `format_slot(slot)`: fails only on truthy notes that are not a string. */
  function SlotText(slot: TeeTimeSlot): (r: Result<string>)
    ensures r.Success? <==> Formattable(slot)
    ensures r.Failure? ==> r.error == JoinTypeError(if slot.availableSlots.Some? then 3 else 2, slot.notes.value)
  {
    SlotPiecesOrder(slot);
    var p := SlotPieces(slot);
    var k := if slot.availableSlots.Some? then 3 else 2;
    assert forall m :: 0 <= m < |p| && m != k ==> p[m].JStr?;
    StrJoin(PieceSep, p)
  }

  /** A formatted slot starts with its time and status, separated by the em dash. */
  lemma SlotTextStart(slot: TeeTimeSlot)
    requires SlotText(slot).Success?
    ensures StartsWith(SlotText(slot).value, slot.time + PieceSep + slot.status)
  {
    var p := SlotPieces(slot);
    var t := Texts(p);
    assert t == [slot.time, slot.status] + t[2..];
    if |t| == 2 {
      assert Join(PieceSep, t) == slot.time + PieceSep + slot.status;
    } else {
      JoinConcat(PieceSep, [slot.time, slot.status], t[2..]);
      assert Join(PieceSep, [slot.time, slot.status]) == slot.time + PieceSep + slot.status;
      Affixes(slot.time + PieceSep + slot.status, PieceSep, Join(PieceSep, t[2..]));
    }
  }

  /** `format_slot(slot)`, appending to `pieces` as the source does. */
  method FormatSlot(slot: TeeTimeSlot) returns (r: Result<string>)
    ensures r == SlotText(slot)
  {
    var pieces := [JStr(slot.time), JStr(slot.status)];
    if slot.availableSlots.Some? {
      var noun := if slot.availableSlots.value == 1 then "slot" else "slots";
      pieces := pieces + [JStr(IntToStr(slot.availableSlots.value) + " " + noun)];
      assert IntToStr(slot.availableSlots.value) + " " + noun == CountPiece(slot.availableSlots.value);
    }
    if slot.notes.Some? && Truthy(slot.notes.value) {
      pieces := pieces + [slot.notes.value];
    }
    if slot.isBookable && !Contains(Lower(slot.status), "book") {
      pieces := pieces + [JStr("Bookable")];
    }
    assert pieces == SlotPieces(slot);
    r := StrJoin(PieceSep, pieces);
  }

  /** The index of the first slot that cannot be formatted, or `|slots|` when every one can. */
  function FirstBadSlot(slots: seq<TeeTimeSlot>): (k: nat)
    ensures k <= |slots|
    ensures forall m :: 0 <= m < k ==> Formattable(slots[m])
    ensures k < |slots| ==> !Formattable(slots[k])
  {
    if |slots| == 0 || !Formattable(slots[0]) then 0 else 1 + FirstBadSlot(slots[1..])
  }

  /** One `- ` line per formatted slot; the first slot that cannot be formatted stops the
      list with its error. */
  function SlotLines(slots: seq<TeeTimeSlot>): (r: Result<seq<string>>)
    ensures r.Success? <==> forall k :: 0 <= k < |slots| ==> Formattable(slots[k])
    ensures r.Success? ==> |r.value| == |slots|
                           && forall k :: 0 <= k < |slots| ==> r.value[k] == "- " + SlotText(slots[k]).value
    ensures r.Failure? ==> FirstBadSlot(slots) < |slots| && r.error == SlotText(slots[FirstBadSlot(slots)]).error
  {
    var k := FirstBadSlot(slots);
    if k < |slots| then Failure(SlotText(slots[k]).error)
    else Success(seq(|slots|, i requires 0 <= i < |slots| && Formattable(slots[i]) =>
                                "- " + SlotText(slots[i]).value))
  }

  /** One `- ` line per warning. */
  function Bullets(ws: seq<string>): (r: seq<string>)
    ensures |r| == |ws| && forall k :: 0 <= k < |ws| ==> r[k] == "- " + ws[k]
  {
    seq(|ws|, k requires 0 <= k < |ws| => "- " + ws[k])
  }

  /** The first line of a message: the day and the ISO date. */
  function Header(a: TeeSheetAnalysis): string {
    a.dayName + " (" + a.dateIso + ")"
  }

  /** The block listing the tee times, or saying there are none. */
  function TimesBlock(slots: seq<TeeTimeSlot>, slotLines: seq<string>): (r: seq<string>)
    ensures slots == [] ==> r == ["No tee times parsed."]
    ensures slots != [] ==> r == ["Tee times:"] + slotLines
  {
    if slots != [] then ["Tee times:"] + slotLines else ["No tee times parsed."]
  }

  /** The warnings block, present only when there are warnings. */
  function WarningsBlock(ws: seq<string>): (r: seq<string>)
    ensures ws == [] <==> r == []
    ensures ws != [] ==> |r| == |ws| + 2 && r[0] == "" && r[1] == "Warnings:"
                         && forall k :: 0 <= k < |ws| ==> r[k + 2] == "- " + ws[k]
  {
    if ws != [] then ["", "Warnings:"] + Bullets(ws) else []
  }

  /** The line naming the page the tee sheet came from. */
  function SourceLine(a: TeeSheetAnalysis): string {
    "Source: " + a.sourceUrl
  }

  /** The line naming the model that analysed it. */
  function ModelLine(a: TeeSheetAnalysis): string {
    "(Model: " + a.modelUsed + ")"
  }

  /** The closing lines: a blank line, the source and the model. */
  function Footer(a: TeeSheetAnalysis): seq<string> {
    ["", SourceLine(a), ModelLine(a)]
  }

  /** The `lines` list `format_message` builds. */
  function MessageLines(a: TeeSheetAnalysis): Result<seq<string>> {
    var slotLines :- SlotLines(a.teeTimes);
    Success([Header(a), a.summary, ""] + TimesBlock(a.teeTimes, slotLines) + WarningsBlock(a.warnings) + Footer(a))
  }

  /** `format_message(analysis)`: the lines joined by newlines, then stripped. */
  function Message(a: TeeSheetAnalysis): Result<string> {
    var lines :- MessageLines(a);
    Success(Strip(Join("\n", lines)))
  }

  /** A message can be built exactly when every slot can be formatted; otherwise the
      error is that of the first slot that cannot. */
  lemma MessageFails(a: TeeSheetAnalysis)
    ensures Message(a).Success? <==> forall k :: 0 <= k < |a.teeTimes| ==> Formattable(a.teeTimes[k])
    ensures Message(a).Failure? ==>
              var k := FirstBadSlot(a.teeTimes);
              k < |a.teeTimes| && Message(a).error == SlotText(a.teeTimes[k]).error
  {
  }

  /** A message is the stripped join of its lines. */
  lemma MessageOfLines(a: TeeSheetAnalysis)
    requires MessageLines(a).Success?
    ensures Message(a) == Success(Strip(Join("\n", MessageLines(a).value)))
  {
    var got := MessageLines(a);
    assert !got.IsFailure() && got.Extract() == MessageLines(a).value;
  }

  /** The lines of a message whose slots all format. */
  lemma LinesOfMessage(a: TeeSheetAnalysis)
    requires SlotLines(a.teeTimes).Success? || MessageLines(a).Success?
    ensures SlotLines(a.teeTimes).Success?
    ensures MessageLines(a) == Success([Header(a), a.summary, ""] + TimesBlock(a.teeTimes, SlotLines(a.teeTimes).value)
                                       + WarningsBlock(a.warnings) + Footer(a))
  {
  }

  /** `format_message(analysis)`: the header lines, then the two loops, then the footer. */
  method FormatMessage(a: TeeSheetAnalysis) returns (r: Result<string>)
    ensures r == Message(a)
  {
    var lines := [a.dayName + " (" + a.dateIso + ")", a.summary, ""];
    var withTimes := AppendTeeTimes(lines, a.teeTimes);
    if withTimes.Failure? {
      return Failure(withTimes.error);
    }
    lines := AppendWarnings(withTimes.value, a.warnings);
    lines := lines + ["", "Source: " + a.sourceUrl, "(Model: " + a.modelUsed + ")"];
    LinesOfMessage(a);
    MessageOfLines(a);
    r := Success(Strip(Join("\n", lines)));
  }

  /** The tee-times part of `format_message`: a heading and one line per slot, or the
      line saying there are none. A slot that cannot be formatted stops the message. */
  method AppendTeeTimes(lines: seq<string>, slots: seq<TeeTimeSlot>) returns (r: Result<seq<string>>)
    ensures r.Success? <==> SlotLines(slots).Success?
    ensures r.Success? ==> r.value == lines + TimesBlock(slots, SlotLines(slots).value)
    ensures r.Failure? ==> r.error == SlotLines(slots).error
  {
    if |slots| == 0 {
      return Success(lines + ["No tee times parsed."]);
    }
    var out := lines + ["Tee times:"];
    for i := 0 to |slots|
      invariant |out| == |lines| + 1 + i && out[..|lines| + 1] == lines + ["Tee times:"]
      invariant forall m :: 0 <= m < i ==>
                  Formattable(slots[m]) && out[|lines| + 1 + m] == "- " + SlotText(slots[m]).value
    {
      var text := FormatSlot(slots[i]);
      if text.Failure? {
        assert FirstBadSlot(slots) == i;
        return Failure(text.error);
      }
      out := out + ["- " + text.value];
    }
    TeeTimesBlockOf(lines, slots, out);
    r := Success(out);
  }

  /** Lines built one per slot, after a heading, are the tee-times block. */
  lemma TeeTimesBlockOf(lines: seq<string>, slots: seq<TeeTimeSlot>, out: seq<string>)
    requires slots != []
    requires |out| == |lines| + 1 + |slots| && out[..|lines| + 1] == lines + ["Tee times:"]
    requires forall m :: 0 <= m < |slots| ==>
               Formattable(slots[m]) && out[|lines| + 1 + m] == "- " + SlotText(slots[m]).value
    ensures SlotLines(slots).Success? && out == lines + TimesBlock(slots, SlotLines(slots).value)
  {
    var block := SlotLines(slots).value;
    var want := lines + TimesBlock(slots, block);
    assert |want| == |out|;
    forall k | 0 <= k < |out| ensures out[k] == want[k] {
      if k < |lines| + 1 {
        assert out[k] == out[..|lines| + 1][k];
      } else {
        var j := k - |lines| - 1;
        assert out[|lines| + 1 + j] == "- " + SlotText(slots[j]).value;
        assert want[k] == block[j];
      }
    }
  }

  /** The warnings part of `format_message`: nothing without warnings, otherwise a blank
      line, a heading and one line per warning. */
  method AppendWarnings(lines: seq<string>, ws: seq<string>) returns (r: seq<string>)
    ensures r == lines + WarningsBlock(ws)
  {
    r := lines;
    if |ws| > 0 {
      r := r + ["", "Warnings:"];
      for i := 0 to |ws|
        invariant |r| == |lines| + 2 + i && r[..|lines| + 2] == lines + ["", "Warnings:"]
        invariant forall m :: 0 <= m < i ==> r[|lines| + 2 + m] == "- " + ws[m]
      {
        r := r + ["- " + ws[i]];
      }
      WarningsBlockOf(lines, ws, r);
    }
  }

  /** Lines built one per warning, after a blank line and a heading, are the warnings block. */
  lemma WarningsBlockOf(lines: seq<string>, ws: seq<string>, out: seq<string>)
    requires ws != []
    requires |out| == |lines| + 2 + |ws| && out[..|lines| + 2] == lines + ["", "Warnings:"]
    requires forall m :: 0 <= m < |ws| ==> out[|lines| + 2 + m] == "- " + ws[m]
    ensures out == lines + WarningsBlock(ws)
  {
    var n := |lines| + 2;
    assert out[n..] == Bullets(ws) by {
      forall j | 0 <= j < |ws| ensures out[n..][j] == Bullets(ws)[j] {
        assert out[n + j] == "- " + ws[j];
      }
    }
    assert out == out[..n] + out[n..];
    assert WarningsBlock(ws) == ["", "Warnings:"] + Bullets(ws);
    assert lines + ["", "Warnings:"] + Bullets(ws) == lines + (["", "Warnings:"] + Bullets(ws));
  }


  /** The lines of a message: the header, the summary and a blank line; the tee times
      block; the warnings block (empty without warnings); and the footer. */
  lemma MessageLinesShape(a: TeeSheetAnalysis)
    requires MessageLines(a).Success?
    ensures SlotLines(a.teeTimes).Success?
    ensures var lines := MessageLines(a).value;
            var times := TimesBlock(a.teeTimes, SlotLines(a.teeTimes).value);
            var t := |times|;
            |lines| == 3 + t + |WarningsBlock(a.warnings)| + 3
            && lines[..3] == [Header(a), a.summary, ""]
            && lines[3..3 + t] == times
            && lines[3 + t..|lines| - 3] == WarningsBlock(a.warnings)
            && lines[|lines| - 3..] == Footer(a)
  {
    LinesOfMessage(a);
    Parts4([Header(a), a.summary, ""], TimesBlock(a.teeTimes, SlotLines(a.teeTimes).value),
           WarningsBlock(a.warnings), Footer(a));
  }

  /** Where each of four glued pieces sits in the result. */
  lemma Parts4(h: seq<string>, t: seq<string>, w: seq<string>, f: seq<string>)
    ensures var x := h + t + w + f;
            |x| == |h| + |t| + |w| + |f|
            && x[..|h|] == h
            && x[|h|..|h| + |t|] == t
            && x[|h| + |t|..|x| - |f|] == w
            && x[|x| - |f|..] == f
  {
    var x := h + t + w + f;
    assert x[..|h|] == h;
    assert x[|h|..|h| + |t|] == t;
    assert x[|h| + |t|..|x| - |f|] == w;
    assert x[|x| - |f|..] == f;
  }

  /** The message always ends with the source line and then the model line. */
  lemma MessageEnd(a: TeeSheetAnalysis)
    requires MessageLines(a).Success?
    ensures EndsWith(Message(a).value, SourceLine(a) + "\n" + ModelLine(a))
  {
    MessageOfLines(a);
    JoinedMessageEnd(a);
    FooterEnds(a);
    StrippedEnd(Message(a), Join("\n", MessageLines(a).value), SourceLine(a) + "\n" + ModelLine(a));
  }

  /** Stripping a text that ends with the closing lines keeps them. */
  lemma StrippedEnd(m: Result<string>, joined: string, tail: string)
    requires m == Success(Strip(joined)) && EndsWith(joined, tail)
    requires tail != [] && tail[0] == 'S' && tail[|tail| - 1] == ')'
    ensures m.Success? && EndsWith(m.value, tail)
  {
    StripKeepsSuffix(joined, tail);
  }

  /** Before the final strip, the joined lines end with the source and model lines. */
  lemma JoinedMessageEnd(a: TeeSheetAnalysis)
    requires MessageLines(a).Success?
    ensures EndsWith(Join("\n", MessageLines(a).value), SourceLine(a) + "\n" + ModelLine(a))
  {
    var lines := MessageLines(a).value;
    MessageLinesShape(a);
    assert lines == lines[..|lines| - 3] + ["", SourceLine(a), ModelLine(a)];
    JoinedEnd(lines[..|lines| - 3], SourceLine(a), ModelLine(a));
  }

  /** The closing text starts with `S` and ends with `)`. */
  lemma FooterEnds(a: TeeSheetAnalysis)
    ensures var t := SourceLine(a) + "\n" + ModelLine(a);
            t != [] && t[0] == 'S' && t[|t| - 1] == ')'
  {
  }

  /** Lines ending with a blank line and two more join to a text ending with those two. */
  lemma JoinedEnd(body: seq<string>, src: string, mdl: string)
    requires body != []
    ensures EndsWith(Join("\n", body + ["", src, mdl]), src + "\n" + mdl)
  {
    JoinConcat("\n", body, ["", src, mdl]);
    Join3("\n", "", src, mdl);
    assert Join("\n", body + ["", src, mdl]) == (Join("\n", body) + "\n" + "\n") + (src + "\n" + mdl);
    SuffixOf(Join("\n", body) + "\n" + "\n", src + "\n" + mdl);
  }

  /** When the day name starts with a visible character, the final strip removes nothing,
      and the message opens with the header, the summary and a blank line. */
  lemma MessageStart(a: TeeSheetAnalysis)
    requires MessageLines(a).Success? && a.dayName != [] && !IsSpace(a.dayName[0])
    ensures Message(a).value == Join("\n", MessageLines(a).value)
    ensures StartsWith(Message(a).value, Header(a) + "\n" + a.summary + "\n\n")
  {
    var joined := Join("\n", MessageLines(a).value);
    var opening := Header(a) + "\n" + a.summary + "\n\n";
    MessageOfLines(a);
    JoinedMessageStart(a);
    JoinedMessageEnd(a);
    FooterEnds(a);
    assert opening[0] == a.dayName[0];
    EndPoints(joined, opening, SourceLine(a) + "\n" + ModelLine(a));
    StrippedFixed(joined);
  }

  /** A text's first and last characters are those of a prefix and a suffix it has. */
  lemma EndPoints(s: string, p: string, q: string)
    requires StartsWith(s, p) && EndsWith(s, q) && p != [] && q != []
    ensures s[0] == p[0] && s[|s| - 1] == q[|q| - 1]
  {
    assert s[..|p|][0] == s[0];
    assert s[|s| - |q|..][|q| - 1] == s[|s| - 1];
  }

  /** Before the final strip, the joined lines open with the header, the summary and a
      blank line. */
  lemma JoinedMessageStart(a: TeeSheetAnalysis)
    requires MessageLines(a).Success?
    ensures StartsWith(Join("\n", MessageLines(a).value), Header(a) + "\n" + a.summary + "\n\n")
  {
    var lines := MessageLines(a).value;
    MessageLinesShape(a);
    assert lines == [Header(a), a.summary, ""] + lines[3..];
    JoinedStart(Header(a), a.summary, lines[3..]);
  }

  /** Lines opening with two lines and a blank one join to a text opening with those. */
  lemma JoinedStart(h: string, s: string, rest: seq<string>)
    requires rest != []
    ensures StartsWith(Join("\n", [h, s, ""] + rest), h + "\n" + s + "\n\n")
  {
    JoinConcat("\n", [h, s, ""], rest);
    Join3("\n", h, s, "");
    assert Join("\n", [h, s, ""] + rest) == (h + "\n" + s + "\n\n") + Join("\n", rest);
    PrefixOf(h + "\n" + s + "\n\n", Join("\n", rest));
  }

  /** The endpoint path messages are posted to. */
  function SendUrl(endpoint: string): (r: string)
    ensures StartsWith(r, endpoint) && EndsWith(r, "/sendMessage")
  {
    Affixes(endpoint, "", "/sendMessage");
    assert endpoint + "" + "/sendMessage" == endpoint + "/sendMessage";
    endpoint + "/sendMessage"
  }

  /** The JSON body of a `sendMessage` request. */
  datatype SendRequest = SendRequest(chatId: string, text: string, disableWebPagePreview: bool)

  /** The status code and body text of an HTTP response. */
  datatype HttpResponse = HttpResponse(status: int, body: string)

  /** `response.is_success`: a 2xx status. */
  predicate IsSuccess(status: int) {
    200 <= status <= 299
  }

  /** The message of the `RuntimeError` raised for a response that is not a success. */
  function SendFailed(response: HttpResponse): (e: string)
    ensures StartsWith(e, "Telegram send failed with " + IntToStr(response.status) + ": ")
    ensures EndsWith(e, response.body)
  {
    Affixes("Telegram send failed with " + IntToStr(response.status) + ": ", "", response.body);
    assert "Telegram send failed with " + IntToStr(response.status) + ": " + "" + response.body
        == "Telegram send failed with " + IntToStr(response.status) + ": " + response.body;
    "Telegram send failed with " + IntToStr(response.status) + ": " + response.body
  }

  /** `post_to_telegram(settings, text)`. `post` stands for the HTTP call; its failure
      is a transport error, which propagates. */
  function PostToTelegram(endpoint: string, chatId: string, text: string,
                          post: (string, SendRequest) -> Result<HttpResponse>): (r: Result<HttpResponse>)
    ensures var sent := post(SendUrl(endpoint), SendRequest(chatId, text, true));
            && (sent.Failure? ==> r == sent)
            && (sent.Success? ==> (r.Success? <==> IsSuccess(sent.value.status)))
            && (sent.Success? && r.Success? ==> r == sent)
            && (sent.Success? && r.Failure? ==> r.error == SendFailed(sent.value))
  {
    var response :- post(SendUrl(endpoint), SendRequest(chatId, text, true));
    if IsSuccess(response.status) then Success(response) else Failure(SendFailed(response))
  }
}
