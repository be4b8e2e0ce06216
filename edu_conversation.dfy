/** The Edulink agent's question answering: a question is routed by the keywords it
    contains to a description of the homework, the behaviour record, the mailbox, or the
    whole summary. */
module EduConversation {
  import opened Wrappers
  import opened Text
  import opened Calendar
  import opened EduModels
  import opened Comprehension
  import EduSummariser

  const NoQuestion: string := "I didn't catch a question. Ask me about homework, behaviour, achievement points, or recent messages."
  const NotSure: string := "I'm not sure how to help with that. Try asking about homework, behaviour/achievement points, or communicator messages."
  const NoHomeworkReply: string := "There is no outstanding " + "homework at the moment."
  const HomeworkIntro: string := "Here's the outstanding homework:"
  const NoBehaviourReply: string := "I couldn't retrieve " + "behaviour information right now."
  const BehaviourIntro: string := "Yesterday's behaviour entries:"
  const NoBehaviourEntries: string := "No new behaviour entries yesterday."
  const NoMailReply: string := "There were no new " + "communicator messages yesterday."
  const MailIntro: string := "Yesterday's communicator messages:"

  /** The keywords of each topic, in the order `answer_question` tries them. */
  const HomeworkWords: seq<string> := ["homework", "assignment", "tasks"]
  const BehaviourWords: seq<string> := ["behaviour", "behavior", "achievement", "points"]
  const MailWords: seq<string> := ["mail", "email", "message", "communicator", "inbox"]
  const SummaryWords: seq<string> := ["summary", "everything"]

  /** Some keyword of `words` occurs in `text`. */
  predicate Mentions(text: string, words: seq<string>) {
    exists w :: w in words && Contains(text, w)
  }

  /** Python's `value or default` for an optional string. */
  function Or(value: Option<string>, default: string): (r: string)
    ensures TruthyText(value) ==> r == value.value
    ensures !TruthyText(value) ==> r == default
    ensures default != "" ==> r != ""
  {
    if TruthyText(value) then value.value else default
  }

  /** The bullet `_describe_homework` writes for one item. */
  function HomeworkBullet(item: HomeworkItem): string {
    var due := if item.dueDate.Some? then ShortDate(item.dueDate.value) else "no due date";
    var teacher := if TruthyText(item.setBy) then " set by " + item.setBy.value else "";
    " \U{2022} " + Or(item.subject, "Subject unknown") + ": " + Or(item.title, "Untitled task") + teacher + ", due " + due + "."
  }

  /** The bullet `_describe_behaviour` writes for one entry. */
  function BehaviourBullet(entry: BehaviourEntry): string {
    var staff := if TruthyText(entry.staff) then " (" + entry.staff.value + ")" else "";
    " \U{2022} " + Or(entry.category, "General") + staff + ": " + Or(entry.description, "No description")
      + " \U{2014} " + EduSummariser.PointsText(entry.points) + " points"
  }

  /** The bullet `_describe_mail` writes for one message. */
  function MailBullet(mail: MailEntry): string {
    var summary := if TruthyText(mail.summary) then " \U{2014} " + mail.summary.value else "";
    " \U{2022} " + Or(mail.sender, "Unknown sender") + ": " + Or(mail.subject, "No subject") + summary
  }

  /** The line giving the total, when it is known. */
  function TotalLine(total: int): string {
    "Total achievement points: " + IntToStr(total) + "."
  }

  /** The lines `_describe_behaviour` collects when it has something to say. */
  function BehaviourLines(total: Option<int>, entries: seq<BehaviourEntry>): seq<string> {
    (if total.Some? then [TotalLine(total.value)] else [])
      + (if |entries| > 0 then [BehaviourIntro] + Map(entries, BehaviourBullet) else [NoBehaviourEntries])
  }

  /** `_describe_homework(items)` as a value. */
  function HomeworkReply(items: seq<HomeworkItem>): string {
    if |items| == 0 then NoHomeworkReply else Join("\n", [HomeworkIntro] + Map(items, HomeworkBullet))
  }

  /** `_describe_behaviour(total_points, entries)` as a value. */
  function BehaviourReply(total: Option<int>, entries: seq<BehaviourEntry>): string {
    if total.None? && |entries| == 0 then NoBehaviourReply else Join("\n", BehaviourLines(total, entries))
  }

  /** `_describe_mail(entries)` as a value. */
  function MailReply(mails: seq<MailEntry>): string {
    if |mails| == 0 then NoMailReply else Join("\n", [MailIntro] + Map(mails, MailBullet))
  }

  /** `_describe_homework(items)`. */
  method DescribeHomework(items: seq<HomeworkItem>) returns (reply: string)
    ensures reply == HomeworkReply(items)
  {
    if |items| == 0 {
      return NoHomeworkReply;
    }
    var lines := AppendEach([HomeworkIntro], items, HomeworkBullet);
    reply := Join("\n", lines);
  }

  /** `_describe_behaviour(total_points, entries)`. */
  method DescribeBehaviour(total: Option<int>, entries: seq<BehaviourEntry>) returns (reply: string)
    ensures reply == BehaviourReply(total, entries)
  {
    if total.None? && |entries| == 0 {
      return NoBehaviourReply;
    }
    var lines: seq<string> := [];
    if total.Some? {
      lines := lines + [TotalLine(total.value)];
    }
    ghost var head := lines;
    if |entries| > 0 {
      lines := AppendEach(lines + [BehaviourIntro], entries, BehaviourBullet);
      AppendTwice(head, [BehaviourIntro], Map(entries, BehaviourBullet));
    } else {
      lines := lines + [NoBehaviourEntries];
    }
    reply := Join("\n", lines);
  }

  /** `_describe_mail(entries)`. */
  method DescribeMail(mails: seq<MailEntry>) returns (reply: string)
    ensures reply == MailReply(mails)
  {
    if |mails| == 0 {
      return NoMailReply;
    }
    var lines := AppendEach([MailIntro], mails, MailBullet);
    reply := Join("\n", lines);
  }
  /** `answer_question(report, question)`: an empty question gets a fixed reply; otherwise
      the lower-cased question is checked for the homework, behaviour, mailbox and summary
      keywords in that order, and the first topic mentioned is described. */
  function AnswerQuestion(report: EdulinkReport, question: string): string {
    if question == "" then NoQuestion
    else
      var text := Lower(question);
      if Mentions(text, HomeworkWords) then HomeworkReply(report.homeworkOutstanding)
      else if Mentions(text, BehaviourWords) then BehaviourReply(report.totalAchievementPoints, report.behaviourNew)
      else if Mentions(text, MailWords) then MailReply(report.mailboxNew)
      else if Mentions(text, SummaryWords) then report.summaryText
      else NotSure
  }

  /** Lower-casing the question first never changes the reply. */
  lemma AnswerIgnoresCase(report: EdulinkReport, question: string)
    ensures AnswerQuestion(report, Lower(question)) == AnswerQuestion(report, question)
  {
    LowerIdempotent(question);
  }

  /** A question that mentions homework is answered with the homework, whatever other
      words come before or after it. */
  lemma HomeworkComesFirst(report: EdulinkReport, question: string, before: string, after: string)
    requires Mentions(Lower(question), HomeworkWords)
    ensures AnswerQuestion(report, before + question + after) == HomeworkReply(report.homeworkOutstanding)
  {
    var w :| w in HomeworkWords && Contains(Lower(question), w);
    LowerConcat(before + question, after);
    LowerConcat(before, question);
    ContainsWithin(Lower(question), w, Lower(before), Lower(after));
    assert |before + question + after| > 0;
  }

  /** Every reply is non-empty, except the stored summary when that is itself empty. */
  lemma AnswerNonEmpty(report: EdulinkReport, question: string)
    ensures AnswerQuestion(report, question) == "" ==> report.summaryText == ""
  {
    HomeworkReplyShape(report.homeworkOutstanding);
    BehaviourReplyShape(report.totalAchievementPoints, report.behaviourNew);
    MailReplyShape(report.mailboxNew);
  }

  /** The homework reply: the fixed sentence exactly when nothing is outstanding;
      otherwise the introduction on its own line, then one bullet per item in order. */
  lemma HomeworkReplyShape(items: seq<HomeworkItem>)
    ensures HomeworkReply(items) == NoHomeworkReply <==> |items| == 0
    ensures |items| > 0 ==> StartsWith(HomeworkReply(items), HomeworkIntro + "\n")
    ensures HomeworkReply(items) != ""
  {
    if |items| > 0 {
      var lines := [HomeworkIntro] + Map(items, HomeworkBullet);
      JoinFirst("\n", lines);
      var r := HomeworkReply(items);
      assert r[..|HomeworkIntro + "\n"|][0] == r[0] == 'H';
      assert NoHomeworkReply[0] == 'T';
    }
  }

  /** The mailbox reply: the fixed sentence exactly when nothing arrived; otherwise the
      introduction on its own line, then one bullet per message in order. */
  lemma MailReplyShape(mails: seq<MailEntry>)
    ensures MailReply(mails) == NoMailReply <==> |mails| == 0
    ensures |mails| > 0 ==> StartsWith(MailReply(mails), MailIntro + "\n")
    ensures MailReply(mails) != ""
  {
    if |mails| > 0 {
      var lines := [MailIntro] + Map(mails, MailBullet);
      JoinFirst("\n", lines);
      var r := MailReply(mails);
      assert r[..|MailIntro + "\n"|][0] == r[0] == 'Y';
      assert NoMailReply[0] == 'T';
    }
  }

  /** The behaviour reply: "couldn't retrieve" exactly when neither a total nor an entry is
      known; otherwise it opens with the total when there is one, and ends by listing the
      entries or saying there were none. */
  lemma BehaviourReplyShape(total: Option<int>, entries: seq<BehaviourEntry>)
    ensures BehaviourReply(total, entries) == NoBehaviourReply <==> total.None? && |entries| == 0
    ensures total.Some? ==> StartsWith(BehaviourReply(total, entries), TotalLine(total.value))
    ensures total.None? && |entries| > 0 ==> StartsWith(BehaviourReply(total, entries), BehaviourIntro)
    ensures total.Some? && |entries| == 0 ==> BehaviourReply(total, entries) == TotalLine(total.value) + "\n" + NoBehaviourEntries
    ensures BehaviourReply(total, entries) != ""
  {
    if !(total.None? && |entries| == 0) {
      var lines := BehaviourLines(total, entries);
      JoinStarts("\n", lines);
      var first := lines[0];
      assert first[0] != 'I' && first != "" by {
        if total.Some? {
          assert first == TotalLine(total.value);
        } else {
          assert first == BehaviourIntro;
        }
      }
      var r := BehaviourReply(total, entries);
      assert r[..|first|][0] == r[0] == first[0];
      assert NoBehaviourReply[0] == 'I';
      if total.Some? && |entries| == 0 {
        assert lines == [TotalLine(total.value), NoBehaviourEntries];
        assert lines[1..] == [NoBehaviourEntries];
        assert Join("\n", lines[1..]) == NoBehaviourEntries;
      }
    }
  }

  /** A mail bullet ends with the message's summary after an em dash when there is one,
      and with the subject otherwise. */
  lemma MailBulletSummary(mail: MailEntry)
    ensures TruthyText(mail.summary) ==> EndsWith(MailBullet(mail), " \U{2014} " + mail.summary.value)
    ensures !TruthyText(mail.summary) ==> EndsWith(MailBullet(mail), Or(mail.subject, "No subject"))
  {
    var head := " \U{2022} " + Or(mail.sender, "Unknown sender") + ": ";
    if TruthyText(mail.summary) {
      SuffixOf(head + Or(mail.subject, "No subject"), " \U{2014} " + mail.summary.value);
    } else {
      assert MailBullet(mail) == head + Or(mail.subject, "No subject");
      SuffixOf(head, Or(mail.subject, "No subject"));
    }
  }
}
