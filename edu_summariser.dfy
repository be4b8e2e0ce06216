/** The daily message the Edulink agent sends: a heading, then the homework, behaviour
    and mailbox sections separated by blank lines, then a sign-off. */
module EduSummariser {
  import opened Wrappers
  import opened Text
  import opened Calendar
  import opened EduUtils
  import opened EduModels
  import opened Comprehension

  const HomeworkHeader: string := "\U{1F4DA} Outstanding homework:"
  const NoHomework: string := "\U{1F4DA} No outstanding homework today."
  const PointsPrefix: string := "\U{2B50} Achievement points: "
  const BehaviourHeader: string := "   New entries from yesterday:"
  const NoBehaviour: string := "   No new behaviour entries yesterday."
  const MailHeader: string := "\U{1F4EC} New communicator messages (yesterday):"
  const NoMail: string := "\U{1F4EC} No new communicator messages yesterday."
  const SignOff: string := "Have a great day!"

  /** `_fallback(value, default)`: the value with its whitespace normalised, or the
      default when nothing is left of it. */
  function Fallback(value: Option<string>, default: string): (r: string)
    ensures value.None? || AllSpace(value.value) ==> r == default
    ensures !(value.None? || AllSpace(value.value)) ==> r == NormaliseWhitespace(value) && r != ""
  {
    NormaliseBlank(value);
    var candidate := NormaliseWhitespace(value);
    if candidate != "" then candidate else default
  }

  /** The first line: the child's name appears only when it is a non-empty string. */
  function Heading(report: EdulinkReport): string {
    var name := if TruthyText(report.childName) then " for " + report.childName.value else "";
    "Edulink daily summary" + name + " \U{2014} " + LongDate(report.generatedOn)
  }

  /** The bullet for one homework item. */
  function HomeworkLine(item: HomeworkItem): string {
    var subject := Fallback(item.subject, "Subject unknown");
    var title := Fallback(item.title, "Untitled task");
    var due := if item.dueDate.Some? then ShortDate(item.dueDate.value) else "No due date";
    var teacher := if TruthyText(item.setBy) then " \U{2014} " + item.setBy.value else "";
    " \U{2022} " + subject + ": " + title + teacher + " (due " + due + ")"
  }

  /** `f"{points:+d}"`, or "N/A" when the points are unknown. */
  function PointsText(points: Option<int>): (r: string)
    ensures |r| >= 2 && (points.None? <==> r == "N/A")
    ensures points.Some? ==> (r[0] == '+' <==> points.value >= 0) && (r[0] == '-' <==> points.value < 0)
  {
    if points.Some? then SignedIntToStr(points.value) else "N/A"
  }

  /** The bullet for one behaviour entry. */
  function BehaviourLine(entry: BehaviourEntry): string {
    var category := Fallback(entry.category, "General");
    var points := PointsText(entry.points);
    var description := Fallback(entry.description, "No description provided");
    var staff := if TruthyText(entry.staff) then " (" + entry.staff.value + ")" else "";
    "   \U{2022} " + category + ": " + description + staff + " \U{2014} " + points + " points"
  }

  /** The tail of a mailbox bullet: the normalised summary after an en dash, present
      only when the summary has some text. */
  function SummarySuffix(summary: Option<string>): (r: string)
    ensures r == "" <==> summary.None? || AllSpace(summary.value)
    ensures r != "" ==> r == " \U{2013} " + NormaliseWhitespace(summary)
  {
    var text := Fallback(summary, "");
    if text != "" then " \U{2013} " + text else ""
  }

  /** The bullet for one mailbox item. */
  function MailLine(mail: MailEntry): string {
    var sender := Fallback(mail.sender, "Unknown sender");
    var subject := Fallback(mail.subject, "No subject");
    " \U{2022} " + sender + ": " + subject + SummarySuffix(mail.summary)
  }

  /** The achievement line. */
  function PointsLine(total: Option<int>): string {
    if total.Some? then PointsPrefix + IntToStr(total.value) else PointsPrefix + "unavailable"
  }

  /** The homework section: a header and one bullet per item, or a single line. */
  function HomeworkSection(items: seq<HomeworkItem>): seq<string> {
    if |items| > 0 then [HomeworkHeader] + Map(items, HomeworkLine) else [NoHomework]
  }

  /** The behaviour section: the points line, then a header and one bullet per entry,
      or a single line. */
  function BehaviourSection(total: Option<int>, entries: seq<BehaviourEntry>): seq<string> {
    [PointsLine(total)] + (if |entries| > 0 then [BehaviourHeader] + Map(entries, BehaviourLine) else [NoBehaviour])
  }

  /** The mailbox section: a header and one bullet per message, or a single line. */
  function MailSection(mails: seq<MailEntry>): seq<string> {
    if |mails| > 0 then [MailHeader] + Map(mails, MailLine) else [NoMail]
  }

  /** The message's layout: the heading and a blank line, then the three sections each
      followed by a blank line, then the sign-off. */
  function Layout(heading: string, homework: seq<string>, behaviour: seq<string>, mail: seq<string>): seq<string> {
    [heading, ""] + homework + [""] + behaviour + [""] + mail + ["", SignOff]
  }

  /** The lines `build_summary` collects. */
  function SummaryLines(report: EdulinkReport): seq<string> {
    Layout(Heading(report), HomeworkSection(report.homeworkOutstanding),
      BehaviourSection(report.totalAchievementPoints, report.behaviourNew), MailSection(report.mailboxNew))
  }

  /** `build_summary(report)` as a value. */
  function SummaryText(report: EdulinkReport): string {
    Join("\n", SummaryLines(report))
  }

  /** The heading names the child exactly when `child_name` is a non-empty string, and
      always ends with the long form of the report's date. */
  lemma HeadingNamesChild(report: EdulinkReport)
    ensures StartsWith(Heading(report), "Edulink daily summary for ") <==> TruthyText(report.childName)
    ensures TruthyText(report.childName) ==> StartsWith(Heading(report), "Edulink daily summary for " + report.childName.value + " \U{2014} ")
    ensures EndsWith(Heading(report), " \U{2014} " + LongDate(report.generatedOn))
  {
    if TruthyText(report.childName) {
      HeadingNamed(report.childName.value, LongDate(report.generatedOn));
    } else {
      HeadingUnnamed(LongDate(report.generatedOn));
    }
  }

  /** The heading's text when a name is given. */
  lemma HeadingNamed(name: string, date: string)
    ensures var h := "Edulink daily summary" + (" for " + name) + " \U{2014} " + date;
      && StartsWith(h, "Edulink daily summary for " + name + " \U{2014} ")
      && StartsWith(h, "Edulink daily summary for ")
      && EndsWith(h, " \U{2014} " + date)
  {
    var front := "Edulink daily summary for " + name + " \U{2014} ";
    var h := "Edulink daily summary" + (" for " + name) + " \U{2014} " + date;
    assert h == front + date;
    PrefixOf(front, date);
    assert front == "Edulink daily summary for " + (name + " \U{2014} ");
    PrefixOf("Edulink daily summary for ", name + " \U{2014} ");
    assert h[..|front|][..26] == h[..26];
    assert h == ("Edulink daily summary for " + name) + (" \U{2014} " + date);
    SuffixOf("Edulink daily summary for " + name, " \U{2014} " + date);
  }

  /** The heading's text when no name is given. */
  lemma HeadingUnnamed(date: string)
    ensures var h := "Edulink daily summary" + "" + " \U{2014} " + date;
      && !StartsWith(h, "Edulink daily summary for ")
      && EndsWith(h, " \U{2014} " + date)
  {
    var h := "Edulink daily summary" + "" + " \U{2014} " + date;
    assert h == "Edulink daily summary" + (" \U{2014} " + date);
    SuffixOf("Edulink daily summary", " \U{2014} " + date);
    assert h[22] == '\U{2014}';
    assert "Edulink daily summary for "[22] == 'f';
  }

  /** The achievement line says "unavailable" exactly when the total is unknown. */
  lemma PointsUnavailable(total: Option<int>)
    ensures PointsLine(total) == PointsPrefix + "unavailable" <==> total.None?
  {
    if total.Some? {
      var n := total.value;
      var digits := if n < 0 then "-" + NatToStr(-n) else NatToStr(n);
      assert IntToStr(n) == digits;
      assert digits[0] == '-' || IsDigit(digits[0]);
      assert (PointsPrefix + digits)[|PointsPrefix|] == digits[0];
      assert (PointsPrefix + "unavailable")[|PointsPrefix|] == 'u';
    }
  }

  /** The message starts with the heading and a blank line, and ends with a blank line
      and the sign-off; each section sits between the separators, in the order homework,
      behaviour, mail. */
  lemma LayoutShape(heading: string, h: seq<string>, b: seq<string>, m: seq<string>)
    ensures var lines := Layout(heading, h, b, m);
      && |lines| == |h| + |b| + |m| + 6
      && lines[0] == heading && lines[1] == ""
      && lines[2..2 + |h|] == h && lines[2 + |h|] == ""
      && lines[3 + |h|..3 + |h| + |b|] == b && lines[3 + |h| + |b|] == ""
      && lines[4 + |h| + |b|..4 + |h| + |b| + |m|] == m
      && lines[|lines| - 2] == "" && lines[|lines| - 1] == SignOff
  {
    var p1 := [heading, ""] + h + [""];
    var p2 := p1 + b + [""];
    var p3 := p2 + m;
    var lines := Layout(heading, h, b, m);
    assert lines == p3 + ["", SignOff];
    assert lines[..|p3|] == p3;
    assert lines[|p2|..|p3|] == p3[|p2|..] == m;
    assert p3[..|p2|] == p2;
    assert lines[|p1|..|p1| + |b|] == p2[|p1|..|p1| + |b|] == b;
    assert lines[2..2 + |h|] == p1[2..2 + |h|] == h;
  }

  /** The message text starts with the heading on its own line and ends with the
      sign-off on its own line. */
  lemma LayoutText(heading: string, h: seq<string>, b: seq<string>, m: seq<string>)
    ensures StartsWith(Join("\n", Layout(heading, h, b, m)), heading + "\n")
    ensures EndsWith(Join("\n", Layout(heading, h, b, m)), "\n" + SignOff)
  {
    var lines := Layout(heading, h, b, m);
    LayoutShape(heading, h, b, m);
    var front := lines[..|lines| - 1];
    assert lines == front + [SignOff];
    JoinAppend("\n", front, SignOff);
    assert Join("\n", lines) == Join("\n", front) + ("\n" + SignOff);
    SuffixOf(Join("\n", front), "\n" + SignOff);
    JoinFirst("\n", lines);
  }

  /** Every homework item gets its own bullet, in the report's order, after the header;
      an empty list gives the single "no homework" line. */
  lemma HomeworkBullets(items: seq<HomeworkItem>)
    ensures var section := HomeworkSection(items);
      && (|items| == 0 ==> section == [NoHomework])
      && (|items| > 0 ==> (|section| == |items| + 1 && section[0] == HomeworkHeader
            && forall k :: 0 <= k < |items| ==> section[k + 1] == HomeworkLine(items[k])))
  {
    if |items| > 0 {
      assert HomeworkSection(items) == [HomeworkHeader] + Map(items, HomeworkLine);
      HeadThenMap([HomeworkHeader], items, HomeworkLine);
    }
  }

  /** The behaviour section always opens with the points line; the entries' bullets
      follow a header, or a single line says there were none. */
  lemma BehaviourBullets(total: Option<int>, entries: seq<BehaviourEntry>)
    ensures var section := BehaviourSection(total, entries);
      && section[0] == PointsLine(total)
      && (|entries| == 0 ==> section == [PointsLine(total), NoBehaviour])
      && (|entries| > 0 ==> (|section| == |entries| + 2 && section[1] == BehaviourHeader
            && forall k :: 0 <= k < |entries| ==> section[k + 2] == BehaviourLine(entries[k])))
  {
    if |entries| > 0 {
      assert BehaviourSection(total, entries) == [PointsLine(total), BehaviourHeader] + Map(entries, BehaviourLine);
      HeadThenMap([PointsLine(total), BehaviourHeader], entries, BehaviourLine);
    }
  }

  /** Every message gets its own bullet, in order, after the header; an empty mailbox
      gives the single "no messages" line. */
  lemma MailBullets(mails: seq<MailEntry>)
    ensures var section := MailSection(mails);
      && (|mails| == 0 ==> section == [NoMail])
      && (|mails| > 0 ==> (|section| == |mails| + 1 && section[0] == MailHeader
            && forall k :: 0 <= k < |mails| ==> section[k + 1] == MailLine(mails[k])))
  {
    if |mails| > 0 {
      assert MailSection(mails) == [MailHeader] + Map(mails, MailLine);
      HeadThenMap([MailHeader], mails, MailLine);
    }
  }

  /** The homework part of `build_summary`'s appends. */
  method AppendHomework(lines: seq<string>, items: seq<HomeworkItem>) returns (r: seq<string>)
    ensures r == lines + HomeworkSection(items)
  {
    if |items| > 0 {
      r := AppendEach(lines + [HomeworkHeader], items, HomeworkLine);
      AppendTwice(lines, [HomeworkHeader], Map(items, HomeworkLine));
    } else {
      r := lines + [NoHomework];
    }
  }

  /** The behaviour part of `build_summary`'s appends. */
  method AppendBehaviour(lines: seq<string>, total: Option<int>, entries: seq<BehaviourEntry>) returns (r: seq<string>)
    ensures r == lines + BehaviourSection(total, entries)
  {
    var pointsLine := if total.Some? then PointsPrefix + IntToStr(total.value) else PointsPrefix + "unavailable";
    assert pointsLine == PointsLine(total);
    r := lines + [pointsLine];
    ghost var rest: seq<string>;
    if |entries| > 0 {
      r := AppendEach(r + [BehaviourHeader], entries, BehaviourLine);
      rest := [BehaviourHeader] + Map(entries, BehaviourLine);
      AppendTwice(lines + [pointsLine], [BehaviourHeader], Map(entries, BehaviourLine));
    } else {
      r := r + [NoBehaviour];
      rest := [NoBehaviour];
    }
    assert r == lines + [pointsLine] + rest;
    AppendTwice(lines, [pointsLine], rest);
  }

  /** The mailbox part of `build_summary`'s appends. */
  method AppendMail(lines: seq<string>, mails: seq<MailEntry>) returns (r: seq<string>)
    ensures r == lines + MailSection(mails)
  {
    if |mails| > 0 {
      r := AppendEach(lines + [MailHeader], mails, MailLine);
      AppendTwice(lines, [MailHeader], Map(mails, MailLine));
    } else {
      r := lines + [NoMail];
    }
  }

  /** `build_summary(report)`. */
  method BuildSummary(report: EdulinkReport) returns (text: string)
    ensures text == SummaryText(report)
  {
    var heading := SummaryHeading(report);
    var lines: seq<string> := [];
    lines := lines + [heading];
    lines := lines + [""];
    lines := AppendHomework(lines, report.homeworkOutstanding);
    lines := lines + [""];
    lines := AppendBehaviour(lines, report.totalAchievementPoints, report.behaviourNew);
    lines := lines + [""];
    lines := AppendMail(lines, report.mailboxNew);
    lines := lines + [""];
    lines := lines + [SignOff];
    LayoutSteps(heading, HomeworkSection(report.homeworkOutstanding),
      BehaviourSection(report.totalAchievementPoints, report.behaviourNew), MailSection(report.mailboxNew));
    text := Join("\n", lines);
  }

  /** The heading `build_summary` writes first. */
  method SummaryHeading(report: EdulinkReport) returns (heading: string)
    ensures heading == Heading(report)
  {
    var headingName := if TruthyText(report.childName) then " for " + report.childName.value else "";
    heading := "Edulink daily summary" + headingName + " \U{2014} " + LongDate(report.generatedOn);
  }

  /** Appending the lines one group at a time, as `build_summary` does, gives the layout. */
  lemma LayoutSteps(heading: string, h: seq<string>, b: seq<string>, m: seq<string>)
    ensures [] + [heading] + [""] + h + [""] + b + [""] + m + [""] + [SignOff] == Layout(heading, h, b, m)
  {
  }
}
