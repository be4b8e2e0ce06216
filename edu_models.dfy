/** The records the Edulink agent scrapes and reports. Every text field is optional, as
    in the pydantic models; dates are calendar days. */
module EduModels {
  import opened Wrappers
  import opened Calendar

  /** One outstanding homework entry. */
  datatype HomeworkItem = HomeworkItem(
    subject: Option<string>,
    title: Option<string>,
    setBy: Option<string>,
    dueDate: Option<Ordinal>,
    submissionStatus: Option<string>,
    details: Option<string>)

  /** One behaviour record (an achievement and its points). */
  datatype BehaviourEntry = BehaviourEntry(
    date: Option<Ordinal>,
    category: Option<string>,
    points: Option<int>,
    description: Option<string>,
    staff: Option<string>)

  /** One communicator mailbox item. */
  datatype MailEntry = MailEntry(
    date: Option<Ordinal>,
    sender: Option<string>,
    subject: Option<string>,
    summary: Option<string>)

  /** The complete report. `generatedOn` is the calendar day of `generated_at`: its time
      of day is never shown. */
  datatype EdulinkReport = EdulinkReport(
    generatedOn: Ordinal,
    timezone: string,
    childName: Option<string>,
    totalAchievementPoints: Option<int>,
    homeworkOutstanding: seq<HomeworkItem>,
    behaviourNew: seq<BehaviourEntry>,
    mailboxNew: seq<MailEntry>,
    summaryText: string)
}
