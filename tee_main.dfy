/** The two pieces of logic in the tee-time agent's entry point: choosing the target
    dates, honouring a forced date, and flattening an agent event to text. */
module TeeMain {
  import opened Wrappers
  import opened Text
  import opened Calendar
  import opened DateWindow

  /** `resolve_targets(force_date)`: a non-empty forced date must parse and is then the
      only target, whatever its weekday; otherwise the default ten-day rule applies. The
      failure text is the `SystemExit` message. */
  function ResolveTargets(forceDate: Option<string>, clock: Ordinal): (r: Result<seq<TargetDate>>)
    ensures forceDate.Some? && forceDate.value != "" ==>
              match ParseIso(forceDate.value)
              case Some(n) => r == Success([TargetDate(n)])
              case None => r == Failure("Invalid --force-date: " + forceDate.value)
    ensures forceDate.None? || forceDate.value == "" ==> r == DefaultTargetDates(clock)
  {
    if forceDate.Some? && forceDate.value != "" then
      match ParseIso(forceDate.value)
      case Some(n) => Success([TargetDate(n)])
      case None => Failure("Invalid --force-date: " + forceDate.value)
    else DefaultTargetDates(clock)
  }

  /** Forcing any date by its ISO text selects exactly that date, with no weekday filter. */
  lemma ForcedDateSelected(n: Ordinal, clock: Ordinal)
    ensures ResolveTargets(Some(Iso(n)), clock) == Success([TargetDate(n)])
  {
    ParseIsoIso(n);
  }

  /** A forced date that is accepted is reported back under the same ISO text. */
  lemma ForcedDateEchoed(s: string, clock: Ordinal)
    requires s != "" && ResolveTargets(Some(s), clock).Success?
    ensures ResolveTargets(Some(s), clock).value[0].Iso() == s
  {
    IsoParseIso(s);
  }

  /** A part of an event's content; `text` is None for parts that carry no text. */
  datatype Part = Part(text: Option<string>)

  /** The content of an event; `parts` may be missing. */
  datatype Content = Content(parts: Option<seq<Part>>)

  /** An agent event, reduced to its content. */
  datatype AgentEvent = AgentEvent(content: Option<Content>)

  /** A part's text is kept when it is present and non-empty. */
  predicate HasText(p: Part) {
    p.text.Some? && p.text.value != ""
  }

  /** The non-empty part texts, in order. */
  function Fragments(parts: seq<Part>): (r: seq<string>)
    ensures |r| <= |parts|
    ensures forall k :: 0 <= k < |r| ==> r[k] != ""
  {
    if |parts| == 0 then []
    else (if HasText(parts[0]) then [parts[0].text.value] else []) + Fragments(parts[1..])
  }

  /** Filtering text parts distributes over concatenation. */
  lemma {:induction false} FragmentsConcat(a: seq<Part>, b: seq<Part>)
    ensures Fragments(a + b) == Fragments(a) + Fragments(b)
    decreases |a|
  {
    if |a| > 0 {
      var h := if HasText(a[0]) then [a[0].text.value] else [];
      assert (a + b)[0] == a[0];
      assert (a + b)[1..] == a[1..] + b;
      assert Fragments(a + b) == h + Fragments(a[1..] + b);
      FragmentsConcat(a[1..], b);
      assert Fragments(a) == h + Fragments(a[1..]);
    } else {
      assert a + b == b;
    }
  }

  /** When every part has text, the fragments are exactly those texts. */
  lemma {:induction false} FragmentsAllText(parts: seq<Part>)
    requires forall k :: 0 <= k < |parts| ==> HasText(parts[k])
    ensures |Fragments(parts)| == |parts|
    ensures forall k :: 0 <= k < |parts| ==> parts[k].text == Some(Fragments(parts)[k])
    decreases |parts|
  {
    if |parts| > 0 {
      FragmentsAllText(parts[1..]);
    }
  }

  /** `_extract_event_text(event)`: the non-empty part texts joined by single spaces, or ""
      when there is no content or no parts. */
  function ExtractEventText(e: AgentEvent): (r: string)
    ensures e.content.None? || e.content.value.parts.None? || e.content.value.parts.value == [] ==> r == ""
    ensures e.content.Some? && e.content.value.parts.Some? ==>
              r == Join(" ", Fragments(e.content.value.parts.value))
  {
    if e.content.Some? && e.content.value.parts.Some? && |e.content.value.parts.value| > 0 then
      Join(" ", Fragments(e.content.value.parts.value))
    else ""
  }

  /** When the kept texts contain no spaces, splitting the result on spaces recovers them,
      in order. */
  lemma ExtractEventTextSplits(parts: seq<Part>)
    requires |Fragments(parts)| >= 1
    requires forall k :: 0 <= k < |Fragments(parts)| ==> !Contains(Fragments(parts)[k], " ")
    ensures Split(ExtractEventText(AgentEvent(Some(Content(Some(parts))))), " ") == Fragments(parts)
  {
    SplitJoin(' ', Fragments(parts));
  }
}
