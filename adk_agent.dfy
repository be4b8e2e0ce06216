/** The tee-time run, `TeeTimeAgent._run_async_impl`: fetch every target date's tee sheet
    inside one browser session, then analyse, format and post each captured sheet in turn,
    reporting progress as a stream of text events that ends with one final event. The
    browser, the model server and the Telegram API enter only as outcomes. */
module AdkAgent {
  import opened Wrappers
  import opened Text
  import opened DateWindow
  import opened TeeModels
  import opened Comprehension
  import opened Sorting
  import TeeConfig
  import PyJson
  import OllamaClient
  import Telegram

  // ----- settings, events and the outside world -----

  /** The settings the run reads. */
  datatype Settings = Settings(baseUrl: string, clubSlug: string, courseId: string,
                               ollamaModel: string, botToken: string, chatId: string)

  /** An ADK event reduced to what the run decides: its text, and whether it ends the agent. */
  datatype Event = Event(text: string, final: bool)

  /** The markup captured from a loaded tee sheet page. */
  datatype Capture = Capture(html: string, text: string)

  /** The browser session as outcomes. `landing` is the page URL once the login form has been
      submitted, or the error raised while launching the browser or logging in; `fetch` is
      the outcome of loading a tee sheet URL; `closing` is the error raised when the session
      is closed, if any. */
  datatype Browser = Browser(landing: Result<string>, fetch: string -> Result<Capture>,
                             closing: Option<string>)

  /** The settings, the model server (see `OllamaClient.Analysed`) and the Telegram API (see
      `Telegram.PostToTelegram`). */
  datatype Services = Services(
    settings: Settings,
    generate: (OllamaClient.Payload, nat) -> Result<PyJson.Json>,
    decode: string -> Option<PyJson.Json>,
    post: (string, Telegram.SendRequest) -> Result<Telegram.HttpResponse>)

  /** What the run reads of a target date: its ISO date, its day name and the URL of its
      tee sheet. */
  datatype Target = Target(iso: string, dayName: string, url: string)

  /** A target together with the tee sheet captured for it. */
  datatype SnapshotRecord = SnapshotRecord(target: Target, snapshot: TeeSheetSnapshot)

  /** What a run leaves behind: the events emitted, in order; the delivered dates and the
      failure entries; whether a browser session was started; how many analyses and posts
      were made; and the error that escaped the run, if one did. */
  datatype Run = Run(events: seq<Event>, delivered: seq<string>, failures: seq<string>,
                     started: bool, analyses: nat, posts: nat, crash: Option<string>)

  const NoTargetsText: string := "No target dates fall on Friday/Saturday/Sunday 10 days ahead. Exiting."
  const NoSnapshotsText: string := "No tee sheets captured successfully. See previous logs for details."
  const LoginFailed: string := "Login failed - still on login page after submission"

  /** The dash of the delivery summary as the source spells it: an em dash whose UTF-8 bytes
      were read as Windows-1252. */
  const SummaryDash: string := "\U{E2}\U{20AC}\U{201D}"

  /** The day name and the ISO date, as the event texts show a target. */
  function When(t: Target): string {
    t.dayName + " " + t.iso
  }

  function SessionFailedText(e: string): string {
    "Playwright session failed: " + e
  }

  // ----- the browser session -----

  /** Entering the browser session: a launch or login error propagates, and a page still on
      a URL containing "login" once the form is submitted is a failed login. */
  function Enter(landing: Result<string>): (r: Result<string>)
    ensures r.Success? <==> landing.Success? && !Contains(Lower(landing.value), "login")
    ensures r.Success? || landing.Failure? ==> r == landing
    ensures landing.Success? && r.Failure? ==> r.error == LoginFailed
  {
    var url :- landing;
    if Contains(Lower(url), "login") then Failure(LoginFailed) else Success(url)
  }

  // ----- the fetch loop -----

  /** What the loop reads of `t`: `target.iso`, `target.day_name` and
      `settings.tee_sheet_url(target.value)`. */
  function View(settings: Settings, t: TargetDate): Target {
    Target(t.Iso(), t.DayName(), TeeConfig.TeeSheetUrl(settings.baseUrl, settings.clubSlug, settings.courseId, t.value))
  }

  function Views(settings: Settings, targets: seq<TargetDate>): (vs: seq<Target>)
    ensures |vs| == |targets| && forall k :: 0 <= k < |targets| ==> vs[k] == View(settings, targets[k])
  {
    seq(|targets|, k requires 0 <= k < |targets| => View(settings, targets[k]))
  }

  /** The fetch of `t`'s tee sheet succeeds. */
  predicate Fetched(fetch: string -> Result<Capture>, t: Target) {
    fetch(t.url).Success?
  }

  /** `Fetched` as a value, for comprehensions. */
  function FetchedBy(fetch: string -> Result<Capture>): Target -> bool {
    (t: Target) => Fetched(fetch, t)
  }

  /** The event the fetch of `t` emits, whichever way it goes. */
  function FetchEvent(fetch: string -> Result<Capture>, t: Target): Event {
    match fetch(t.url)
    case Success(_) => Event("Fetched tee sheet for " + When(t) + ".", false)
    case Failure(e) => Event("Failed to fetch tee sheet for " + When(t) + ": " + e, false)
  }

  /** `snapshot_for_date`'s result for `t` from the captured markup. */
  function SnapshotOf(t: Target, c: Capture): (s: TeeSheetSnapshot)
    ensures s.url == t.url && s.dateIso == t.iso && s.dayName == t.dayName
  {
    TeeSheetSnapshot(t.url, t.iso, t.dayName, c.html, c.text)
  }

  /** The events and the snapshot records of the fetch loop. */
  datatype Fetch = Fetch(events: seq<Event>, records: seq<SnapshotRecord>)

  /** The fetch loop over `targets` inside an open session: one non-final event per target,
      in target order, and one record for each target whose fetch succeeded, holding the
      snapshot built from that target's capture. */
  function FetchAll(fetch: string -> Result<Capture>, targets: seq<Target>): (f: Fetch)
    ensures |f.events| == |targets| && |f.records| <= |targets|
    ensures forall k :: 0 <= k < |targets| ==> f.events[k] == FetchEvent(fetch, targets[k])
    ensures forall k :: 0 <= k < |f.events| ==> !f.events[k].final
    ensures forall k :: 0 <= k < |f.records| ==>
              Fetched(fetch, f.records[k].target)
              && f.records[k].snapshot == SnapshotOf(f.records[k].target, fetch(f.records[k].target.url).value)
    decreases |targets|
  {
    if targets == [] then Fetch([], [])
    else
      var f := FetchAll(fetch, targets[..|targets| - 1]);
      var t := targets[|targets| - 1];
      var events := f.events + [FetchEvent(fetch, t)];
      match fetch(t.url)
      case Success(c) => Fetch(events, f.records + [SnapshotRecord(t, SnapshotOf(t, c))])
      case Failure(_) => Fetch(events, f.records)
  }

  /** The targets of some records, in order. */
  function Targets(records: seq<SnapshotRecord>): (ts: seq<Target>)
    ensures |ts| == |records| && forall k :: 0 <= k < |records| ==> ts[k] == records[k].target
  {
    seq(|records|, k requires 0 <= k < |records| => records[k].target)
  }

  function Same(t: Target): Target {
    t
  }

  /** The snapshots kept are those of the targets whose fetch succeeded, in target order. */
  lemma {:induction false} FetchedInOrder(fetch: string -> Result<Capture>, targets: seq<Target>)
    ensures Targets(FetchAll(fetch, targets).records) == FilterMap(targets, FetchedBy(fetch), Same)
    decreases |targets|
  {
    if targets != [] {
      var init := targets[..|targets| - 1];
      var t := targets[|targets| - 1];
      FetchedInOrder(fetch, init);
      assert targets == init + [t];
      FilterMapConcat(init, [t], FetchedBy(fetch), Same);
      var f := FetchAll(fetch, init);
      var g := FetchAll(fetch, targets);
      if Fetched(fetch, t) {
        assert FilterMap([t], FetchedBy(fetch), Same) == [t];
        assert g.records == f.records + [g.records[|g.records| - 1]];
        assert Targets(g.records) == Targets(f.records) + [t];
      } else {
        assert FilterMap([t], FetchedBy(fetch), Same) == [];
        assert g.records == f.records;
      }
    }
  }

  /** One more target for the fetch loop. */
  lemma FetchNext(fetch: string -> Result<Capture>, targets: seq<Target>, i: nat)
    requires i < |targets|
    ensures var f := FetchAll(fetch, targets[..i]);
            var t := targets[i];
            FetchAll(fetch, targets[..i + 1])
            == Fetch(f.events + [FetchEvent(fetch, t)],
                     f.records + (if Fetched(fetch, t) then [SnapshotRecord(t, SnapshotOf(t, fetch(t.url).value))] else []))
  {
    assert targets[..i + 1][..i] == targets[..i];
  }

  /** The fetch loop of the session body. */
  method FetchSheets(settings: Settings, fetch: string -> Result<Capture>, targets: seq<TargetDate>)
    returns (events: seq<Event>, snapshots: seq<SnapshotRecord>)
    ensures Fetch(events, snapshots) == FetchAll(fetch, Views(settings, targets))
  {
    events, snapshots := FetchEach(fetch, Views(settings, targets));
  }

  /** The loop itself: fetch each view in turn. */
  method FetchEach(fetch: string -> Result<Capture>, views: seq<Target>)
    returns (events: seq<Event>, snapshots: seq<SnapshotRecord>)
    ensures Fetch(events, snapshots) == FetchAll(fetch, views)
  {
    events, snapshots := [], [];
    for i := 0 to |views|
      invariant Fetch(events, snapshots) == FetchAll(fetch, views[..i])
    {
      FetchNext(fetch, views, i);
      var event, record := FetchOne(fetch, views[i]);
      events := events + [event];
      snapshots := snapshots + record;
    }
    assert views[..|views|] == views;
  }

  /** One pass of the fetch loop: the event it logs, and the record it keeps when the
      fetch succeeds. */
  method FetchOne(fetch: string -> Result<Capture>, target: Target) returns (event: Event, record: seq<SnapshotRecord>)
    ensures event == FetchEvent(fetch, target)
    ensures record == if Fetched(fetch, target) then [SnapshotRecord(target, SnapshotOf(target, fetch(target.url).value))] else []
  {
    match fetch(target.url)
    case Success(c) =>
      record := [SnapshotRecord(target, SnapshotOf(target, c))];
      event := Event("Fetched tee sheet for " + When(target) + ".", false);
    case Failure(e) =>
      record := [];
      event := Event("Failed to fetch tee sheet for " + When(target) + ": " + e, false);
  }

  // ----- the delivery loop -----

  /** How the handling of one snapshot ends: the analysis fails; or it succeeds (with the
      summary shown) and then formatting the message raises, the post fails, or the post
      succeeds. */
  datatype Outcome =
    | AnalysisFailed(error: string)
    | Unformattable(summary: string, error: string)
    | PostFailed(summary: string, error: string)
    | Posted(summary: string)

  /** `settings.telegram_api_endpoint`. */
  function Endpoint(s: Services): string {
    TeeConfig.TelegramApiEndpoint(s.settings.botToken)
  }

  /** The outcome of analysing, formatting and posting `r`'s snapshot. */
  function OutcomeOf(s: Services, r: SnapshotRecord): Outcome {
    match OllamaClient.Analysed(r.snapshot, s.settings.ollamaModel, s.generate, s.decode)
    case Failure(e) => AnalysisFailed(e)
    case Success(a) =>
      match Telegram.Message(a)
      case Failure(e) => Unformattable(a.summary, e)
      case Success(text) =>
        match Telegram.PostToTelegram(Endpoint(s), s.settings.chatId, text, s.post)
        case Failure(e) => PostFailed(a.summary, e)
        case Success(_) => Posted(a.summary)
  }

  /** `OutcomeOf` as a value. */
  function OutcomeBy(s: Services): SnapshotRecord -> Outcome {
    (r: SnapshotRecord) => OutcomeOf(s, r)
  }

  function AnalysedEvent(t: Target, summary: string): Event {
    Event("Analysed tee sheet for " + When(t) + ": " + summary, false)
  }

  /** The events one snapshot emits: one for the analysis, and one for the post when the
      message could be formatted; none of them final. */
  function OutcomeEvents(t: Target, o: Outcome): (es: seq<Event>)
    ensures |es| == (if o.AnalysisFailed? || o.Unformattable? then 1 else 2)
    ensures forall k :: 0 <= k < |es| ==> !es[k].final
  {
    match o
    case AnalysisFailed(e) => [Event("Ollama analysis failed for " + When(t) + ": " + e, false)]
    case Unformattable(summary, _) => [AnalysedEvent(t, summary)]
    case PostFailed(summary, e) =>
      [AnalysedEvent(t, summary), Event("Telegram send failed for " + When(t) + ": " + e, false)]
    case Posted(summary) =>
      [AnalysedEvent(t, summary), Event("Telegram update sent for " + When(t) + ".", false)]
  }

  predicate Failed(o: Outcome) {
    o.AnalysisFailed? || o.PostFailed?
  }

  /** The entry a failed snapshot adds to the failures. */
  function FailureEntry(t: Target, o: Outcome): string
    requires Failed(o)
  {
    match o
    case AnalysisFailed(e) => "Ollama analysis failed for " + t.iso + ": " + e
    case PostFailed(_, e) => "Telegram send failed for " + t.iso + ": " + e
  }

  /** The events, delivered dates, failure entries, call counts and escaped error of the
      delivery loop so far. */
  datatype Delivery = Delivery(events: seq<Event>, delivered: seq<string>, failures: seq<string>,
                               analyses: nat, posts: nat, crash: Option<string>)

  /** One turn of the delivery loop, for a snapshot of `t` whose handling ends in `o`. */
  function Step(d: Delivery, t: Target, o: Outcome): Delivery {
    Delivery(d.events + OutcomeEvents(t, o),
             d.delivered + (if o.Posted? then [t.iso] else []),
             d.failures + (if Failed(o) then [FailureEntry(t, o)] else []),
             d.analyses + 1,
             d.posts + (if o.Posted? || o.PostFailed? then 1 else 0),
             if o.Unformattable? then Some(o.error) else None)
  }

  /** The delivery loop over `records`, where `outcome` says how each snapshot's handling
      ends; the loop stops at the first message that cannot be formatted. Every event is
      non-final; there is one analysis per snapshot handled, a post only after a successful
      analysis and a delivered date only after a post; and when nothing escapes, each
      snapshot leaves exactly one delivered date or failure entry. */
  function DeliverAll(outcome: SnapshotRecord -> Outcome, records: seq<SnapshotRecord>): (d: Delivery)
    ensures forall k :: 0 <= k < |d.events| ==> !d.events[k].final
    ensures |d.delivered| <= d.posts <= d.analyses <= |records|
    ensures d.crash.None? ==> d.analyses == |records| && |d.delivered| + |d.failures| == |records|
    decreases |records|
  {
    if records == [] then Delivery([], [], [], 0, 0, None)
    else
      var d := DeliverAll(outcome, records[..|records| - 1]);
      var r := records[|records| - 1];
      if d.crash.Some? then d else Step(d, r.target, outcome(r))
  }

  /** Once a message cannot be formatted, the rest of the snapshots are not handled. */
  lemma {:induction false} DeliverStops(outcome: SnapshotRecord -> Outcome, records: seq<SnapshotRecord>, n: nat)
    requires n <= |records| && DeliverAll(outcome, records[..n]).crash.Some?
    ensures DeliverAll(outcome, records) == DeliverAll(outcome, records[..n])
    decreases |records| - n
  {
    if n < |records| {
      assert records[..n + 1][..n] == records[..n];
      DeliverStops(outcome, records, n + 1);
    } else {
      assert records[..n] == records;
    }
  }

  function DeliveredBy(outcome: SnapshotRecord -> Outcome): SnapshotRecord -> bool {
    (r: SnapshotRecord) => outcome(r).Posted?
  }

  function FailedBy(outcome: SnapshotRecord -> Outcome): SnapshotRecord -> bool {
    (r: SnapshotRecord) => Failed(outcome(r))
  }

  function IsoOf(r: SnapshotRecord): string {
    r.target.iso
  }

  function FailureEntryBy(outcome: SnapshotRecord -> Outcome): SnapshotRecord -> string {
    (r: SnapshotRecord) => if Failed(outcome(r)) then FailureEntry(r.target, outcome(r)) else ""
  }

  /** When nothing escapes, the delivered dates are, in order, those of the snapshots whose
      post went through, and the failure entries are, in order, those of the snapshots whose
      analysis or post failed. */
  lemma {:induction false} DeliveredInOrder(outcome: SnapshotRecord -> Outcome, records: seq<SnapshotRecord>)
    requires DeliverAll(outcome, records).crash.None?
    ensures DeliverAll(outcome, records).delivered == FilterMap(records, DeliveredBy(outcome), IsoOf)
    ensures DeliverAll(outcome, records).failures == FilterMap(records, FailedBy(outcome), FailureEntryBy(outcome))
    decreases |records|
  {
    if records != [] {
      var init := records[..|records| - 1];
      var r := records[|records| - 1];
      DeliveredInOrder(outcome, init);
      assert records == init + [r];
      FilterMapConcat(init, [r], DeliveredBy(outcome), IsoOf);
      FilterMapConcat(init, [r], FailedBy(outcome), FailureEntryBy(outcome));
    }
  }

  /** One more snapshot for the delivery loop, when none has escaped so far. */
  lemma DeliverNext(outcome: SnapshotRecord -> Outcome, records: seq<SnapshotRecord>, i: nat)
    requires i < |records| && DeliverAll(outcome, records[..i]).crash.None?
    ensures DeliverAll(outcome, records[..i + 1])
            == Step(DeliverAll(outcome, records[..i]), records[i].target, outcome(records[i]))
  {
    assert records[..i + 1][..i] == records[..i];
  }

  /** The body of the delivery loop up to its bookkeeping: analyse the snapshot, and on
      success format the message and post it. */
  method HandleSnapshot(s: Services, record: SnapshotRecord) returns (o: Outcome)
    ensures o == OutcomeOf(s, record) && o == OutcomeBy(s)(record)
  {
    assert OutcomeBy(s)(record) == OutcomeOf(s, record);
    var analysis, attempts := OllamaClient.AnalyseSnapshot(record.snapshot, s.settings.ollamaModel,
                                                            s.generate, s.decode);
    if analysis.Failure? {
      return AnalysisFailed(analysis.error);
    }
    var a := analysis.value;
    var message := Telegram.FormatMessage(a);
    if message.Failure? {
      return Unformattable(a.summary, message.error);
    }
    var sent := Telegram.PostToTelegram(Endpoint(s), s.settings.chatId, message.value, s.post);
    if sent.Success? {
      o := Posted(a.summary);
    } else {
      o := PostFailed(a.summary, sent.error);
    }
  }

  /** The bookkeeping of the delivery loop for a snapshot of `t` whose handling ended in
      `o`: the events emitted and the delivered date or failure entry recorded. */
  method Record(d: Delivery, t: Target, o: Outcome) returns (next: Delivery)
    ensures next == Step(d, t, o)
  {
    var events, delivered, failures, posts := d.events, d.delivered, d.failures, d.posts;
    var crash := None;
    match o {
      case AnalysisFailed(e) =>
        failures := failures + ["Ollama analysis failed for " + t.iso + ": " + e];
        events := events + [Event("Ollama analysis failed for " + When(t) + ": " + e, false)];
      case Unformattable(summary, e) =>
        events := events + [Event("Analysed tee sheet for " + When(t) + ": " + summary, false)];
        crash := Some(e);
      case PostFailed(summary, e) =>
        events := events + [Event("Analysed tee sheet for " + When(t) + ": " + summary, false)];
        posts := posts + 1;
        failures := failures + ["Telegram send failed for " + t.iso + ": " + e];
        events := events + [Event("Telegram send failed for " + When(t) + ": " + e, false)];
      case Posted(summary) =>
        events := events + [Event("Analysed tee sheet for " + When(t) + ": " + summary, false)];
        posts := posts + 1;
        delivered := delivered + [t.iso];
        events := events + [Event("Telegram update sent for " + When(t) + ".", false)];
    }
    next := Delivery(events, delivered, failures, d.analyses + 1, posts, crash);
  }

  /** The delivery loop: each snapshot's analysis error or failed post is recorded and the
      loop goes on; an error raised while formatting a message escapes the loop. */
  method DeliverSnapshots(s: Services, snapshots: seq<SnapshotRecord>) returns (d: Delivery)
    ensures d == DeliverAll(OutcomeBy(s), snapshots)
  {
    d := Delivery([], [], [], 0, 0, None);
    for i := 0 to |snapshots|
      invariant d == DeliverAll(OutcomeBy(s), snapshots[..i]) && d.crash.None?
    {
      var o := HandleSnapshot(s, snapshots[i]);
      DeliverNext(OutcomeBy(s), snapshots, i);
      d := Record(d, snapshots[i].target, o);
      if d.crash.Some? {
        DeliverStops(OutcomeBy(s), snapshots, i + 1);
        return;
      }
    }
    assert snapshots[..|snapshots|] == snapshots;
  }

  // ----- the delivery summary -----

  /** The first line of the delivery summary. */
  function SummaryHeader(succeeded: nat, failed: nat): string {
    "Delivery summary " + SummaryDash + " succeeded: " + NatToStr(succeeded) + ", failed: "
    + NatToStr(failed) + "."
  }

  /** The line listing the delivered dates, sorted. */
  function DatesLine(delivered: seq<string>): string {
    "Delivered dates: " + Join(", ", Sort(delivered)) + "."
  }

  /** The lines of the delivery summary: the counts, then the delivered dates when there are
      any, then a heading and one line per failure, in recorded order, when there are any. */
  function SummaryLines(delivered: seq<string>, failures: seq<string>): (lines: seq<string>)
    ensures |lines| == 1 + (if delivered == [] then 0 else 1) + (if failures == [] then 0 else 1 + |failures|)
  {
    [SummaryHeader(|delivered|, |failures|)]
    + (if delivered == [] then [] else [DatesLine(delivered)])
    + (if failures == [] then [] else ["Failures:"] + Telegram.Bullets(failures))
  }

  /** The text of the final event. */
  function SummaryText(delivered: seq<string>, failures: seq<string>): string {
    Join("\n", SummaryLines(delivered, failures))
  }

  /** Where each part of the summary sits: the counts first; the delivered dates, in
      ascending order, next when there are any; and the failures, each in its own line and
      in recorded order, after a heading at the end. */
  lemma SummaryShape(delivered: seq<string>, failures: seq<string>)
    ensures var lines := SummaryLines(delivered, failures);
            var n := |lines|;
            && lines[0] == SummaryHeader(|delivered|, |failures|)
            && (delivered != [] ==> lines[1] == DatesLine(delivered))
            && (failures != [] ==> lines[n - |failures| - 1] == "Failures:"
                                   && lines[n - |failures|..] == Telegram.Bullets(failures))
            && (failures == [] ==> n == (if delivered == [] then 1 else 2))
  {
    var lines := SummaryLines(delivered, failures);
    var head := [SummaryHeader(|delivered|, |failures|)] + (if delivered == [] then [] else [DatesLine(delivered)]);
    if failures != [] {
      assert lines == head + ["Failures:"] + Telegram.Bullets(failures);
      assert lines[|head| + 1..] == Telegram.Bullets(failures);
    }
  }

  /** The delivered-dates line lists every delivered date once per delivery, in ascending
      order, whatever order the posts went through in. */
  lemma DatesSorted(delivered: seq<string>)
    ensures DatesLine(delivered) == "Delivered dates: " + Join(", ", Sort(delivered)) + "."
    ensures Sorted(Sort(delivered)) && multiset(Sort(delivered)) == multiset(delivered)
    ensures forall ds :: Sorted(ds) && multiset(ds) == multiset(delivered) ==> ds == Sort(delivered)
  {
    SortSorted(delivered);
    forall ds | Sorted(ds) && multiset(ds) == multiset(delivered) ensures ds == Sort(delivered) {
      SortedUnique(ds, Sort(delivered));
    }
  }

  /** The summary lines, built by appending. */
  method BuildSummaryLines(delivered: seq<string>, failures: seq<string>) returns (lines: seq<string>)
    ensures lines == SummaryLines(delivered, failures)
  {
    lines := [SummaryHeader(|delivered|, |failures|)];
    if |delivered| > 0 {
      lines := lines + ["Delivered dates: " + Join(", ", Sort(delivered)) + "."];
    }
    if |failures| > 0 {
      lines := AppendFailures(lines, failures);
    }
  }

  /** The failures part of the summary: a heading, then one line per failure. */
  method AppendFailures(lines: seq<string>, failures: seq<string>) returns (r: seq<string>)
    ensures r == lines + (["Failures:"] + Telegram.Bullets(failures))
  {
    r := lines + ["Failures:"];
    for i := 0 to |failures|
      invariant r == lines + ["Failures:"] + Telegram.Bullets(failures[..i])
    {
      assert Telegram.Bullets(failures[..i + 1]) == Telegram.Bullets(failures[..i]) + ["- " + failures[i]];
      r := r + ["- " + failures[i]];
    }
    assert failures[..|failures|] == failures;
  }

  // ----- the whole run -----

  /** The end of a run whose session produced `events` and some snapshots, once the
      delivery loop has given `d`: the escaped error, or the summary as the final event. */
  function Finish(events: seq<Event>, d: Delivery): Run {
    if d.crash.Some? then Run(events + d.events, d.delivered, d.failures, true, d.analyses, d.posts, d.crash)
    else Run(events + d.events + [Event(SummaryText(d.delivered, d.failures), true)],
             d.delivered, d.failures, true, d.analyses, d.posts, None)
  }

  /** The run over targets read as `targets`, with the browser as given and each snapshot's
      handling ending as `outcome` says. */
  function RunOf(browser: Browser, targets: seq<Target>, outcome: SnapshotRecord -> Outcome): Run {
    if targets == [] then Run([Event(NoTargetsText, true)], [], [], false, 0, 0, None)
    else
      match Enter(browser.landing)
      case Failure(e) => Run([Event(SessionFailedText(e), true)], [], [], true, 0, 0, None)
      case Success(_) =>
        var f := FetchAll(browser.fetch, targets);
        if browser.closing.Some? then
          Run(f.events + [Event(SessionFailedText(browser.closing.value), true)], [], [], true, 0, 0, None)
        else if f.records == [] then
          Run(f.events + [Event(NoSnapshotsText, true)], [], [], true, 0, 0, None)
        else
          Finish(f.events, DeliverAll(outcome, f.records))
  }

  /** `_run_async_impl` over the targets, with the browser and the services as given. */
  function RunSpec(s: Services, browser: Browser, targets: seq<TargetDate>): Run {
    RunOf(browser, Views(s.settings, targets), OutcomeBy(s))
  }

  /** `TeeTimeAgent._run_async_impl`: the events of the run, in order, and what it
      delivered and recorded as failed. */
  method RunAgent(s: Services, browser: Browser, targets: seq<TargetDate>) returns (run: Run)
    ensures run == RunSpec(s, browser, targets)
  {
    if |targets| == 0 {
      return Run([Event(NoTargetsText, true)], [], [], false, 0, 0, None);
    }
    var session := Enter(browser.landing);
    if session.Failure? {
      return Run([Event("Playwright session failed: " + session.error, true)], [], [], true, 0, 0, None);
    }
    var events, snapshots := FetchSheets(s.settings, browser.fetch, targets);
    if browser.closing.Some? {
      return Run(events + [Event("Playwright session failed: " + browser.closing.value, true)],
                 [], [], true, 0, 0, None);
    }
    if |snapshots| == 0 {
      return Run(events + [Event(NoSnapshotsText, true)], [], [], true, 0, 0, None);
    }
    var d := DeliverSnapshots(s, snapshots);
    if d.crash.Some? {
      return Run(events + d.events, d.delivered, d.failures, true, d.analyses, d.posts, d.crash);
    }
    var lines := BuildSummaryLines(d.delivered, d.failures);
    run := Run(events + d.events + [Event(Join("\n", lines), true)], d.delivered, d.failures,
               true, d.analyses, d.posts, None);
  }

  // ----- properties of a run -----

  /** With no targets the run emits exactly one event, final, and starts no browser. */
  lemma NoTargetsRun(browser: Browser, outcome: SnapshotRecord -> Outcome)
    ensures var run := RunOf(browser, [], outcome);
            run.events == [Event(NoTargetsText, true)] && !run.started
            && run.analyses == 0 && run.posts == 0 && run.crash.None?
  {
  }

  /** When entering or leaving the session fails, the run ends with one final "Playwright
      session failed" event after the fetch events, if any; nothing is analysed or posted,
      even when some sheets were fetched. */
  lemma SessionFailureRun(browser: Browser, targets: seq<Target>, outcome: SnapshotRecord -> Outcome)
    requires targets != [] && (Enter(browser.landing).Failure? || browser.closing.Some?)
    ensures var run := RunOf(browser, targets, outcome);
            var error := if Enter(browser.landing).Failure? then Enter(browser.landing).error
                         else browser.closing.value;
            var fetched := if Enter(browser.landing).Failure? then []
                           else FetchAll(browser.fetch, targets).events;
            && run.events == fetched + [Event(SessionFailedText(error), true)]
            && run.analyses == 0 && run.posts == 0 && run.delivered == [] && run.failures == []
            && run.crash.None?
  {
  }

  /** When no sheet could be fetched, the run ends with one final "No tee sheets captured"
      event after one event per target, and nothing is analysed or posted. */
  lemma NoSnapshotsRun(browser: Browser, targets: seq<Target>, outcome: SnapshotRecord -> Outcome)
    requires targets != [] && Enter(browser.landing).Success? && browser.closing.None?
    requires forall k :: 0 <= k < |targets| ==> !Fetched(browser.fetch, targets[k])
    ensures var run := RunOf(browser, targets, outcome);
            && |run.events| == |targets| + 1
            && run.events[|targets|] == Event(NoSnapshotsText, true)
            && run.analyses == 0 && run.posts == 0 && run.delivered == [] && run.failures == []
  {
    FetchedInOrder(browser.fetch, targets);
    FilterMapNone(targets, FetchedBy(browser.fetch), Same);
  }

  /** A run that no error escapes emits exactly one final event, its last; a run that an
      error escapes emits none. */
  lemma FinalEventLast(browser: Browser, targets: seq<Target>, outcome: SnapshotRecord -> Outcome)
    ensures var run := RunOf(browser, targets, outcome);
            && (run.crash.None? ==> run.events != [] && run.events[|run.events| - 1].final
                                    && forall k :: 0 <= k < |run.events| - 1 ==> !run.events[k].final)
            && (run.crash.Some? ==> forall k :: 0 <= k < |run.events| ==> !run.events[k].final)
  {
    var run := RunOf(browser, targets, outcome);
    if targets != [] && Enter(browser.landing).Success? {
      var f := FetchAll(browser.fetch, targets);
      if browser.closing.None? && f.records != [] {
        var d := DeliverAll(outcome, f.records);
        assert forall k :: 0 <= k < |f.events + d.events| ==> !(f.events + d.events)[k].final;
        if d.crash.None? {
          assert run.events == (f.events + d.events) + [run.events[|run.events| - 1]];
        }
      }
    }
  }

  /** The bounds on what a run does: a delivered date only after a post, a post only after
      an analysis, and at most one analysis per target. */
  lemma RunCounts(browser: Browser, targets: seq<Target>, outcome: SnapshotRecord -> Outcome)
    ensures var run := RunOf(browser, targets, outcome);
            |run.delivered| <= run.posts <= run.analyses <= |targets|
  {
  }

  /** A run whose session held and that no error escaped ends with the delivery summary;
      each fetched sheet left exactly one delivered date or failure entry, so the counts in
      the summary add up to the number of sheets; and the delivered dates and failure entries
      are those of the sheets whose post went through, and whose analysis or post failed,
      in fetch order. */
  lemma DeliveredRun(browser: Browser, targets: seq<Target>, outcome: SnapshotRecord -> Outcome)
    requires targets != [] && Enter(browser.landing).Success? && browser.closing.None?
    requires FetchAll(browser.fetch, targets).records != []
    requires RunOf(browser, targets, outcome).crash.None?
    ensures var run := RunOf(browser, targets, outcome);
            var records := FetchAll(browser.fetch, targets).records;
            && run.events[|run.events| - 1] == Event(SummaryText(run.delivered, run.failures), true)
            && |run.delivered| + |run.failures| == |records| == run.analyses
            && run.delivered == FilterMap(records, DeliveredBy(outcome), IsoOf)
            && run.failures == FilterMap(records, FailedBy(outcome), FailureEntryBy(outcome))
  {
    DeliveredInOrder(outcome, FetchAll(browser.fetch, targets).records);
  }
}
