/**
 * The dashboard's company cards: the status badge, the services line and
 * the submission line of each recent company, and the message shown when
 * there is none.
 */
module HomePage {

  import opened Wrappers
  import Text
  import Dates
  import Companies
  import Tables

  /** `statusLabel`: the three known statuses have fixed labels; any other has its first underscore turned into a space. */
  function StatusLabel(status: string): (r: string)
    ensures status == "submitted" ==> r == "Questionnaire submitted"
    ensures status == "in_progress" ==> r == "In progress"
    ensures status == "reviewed" ==> r == "Reviewed"
    ensures status !in {"submitted", "in_progress", "reviewed"} ==> r == Text.ReplaceFirst(status, '_', ' ')
  {
    match status
    case "submitted" => "Questionnaire submitted"
    case "in_progress" => "In progress"
    case "reviewed" => "Reviewed"
    case _ => Text.ReplaceFirst(status, '_', ' ')
  }

  /**
   * Only the first underscore of an unknown status is replaced: a status
   * with several keeps all but one.
   */
  lemma UnknownStatusKeepsLaterUnderscores(status: string)
    requires status !in {"submitted", "in_progress", "reviewed"} && '_' in status
    ensures multiset(StatusLabel(status))['_'] == multiset(status)['_'] - 1
  {
    Text.ReplaceFirstRemovesOne(status, '_', ' ');
  }

  const NotSubmittedText := "Not yet submitted"

  /** `formatDate`: the localized date, or "Not yet submitted" for a missing, empty or invalid date. */
  function FormatDate(s: Option<string>, locale: Dates.DateLocale): (r: string)
    ensures s.None? || s.value == "" || !locale.isValid(s.value) ==> r == NotSubmittedText
    ensures s.Some? && s.value != "" && locale.isValid(s.value) ==> r == locale.dateOnly(s.value)
  {
    if s.None? || s.value == "" then NotSubmittedText
    else if !locale.isValid(s.value) then NotSubmittedText
    else locale.dateOnly(s.value)
  }

  /** One company card. */
  datatype Card = Card(name: string, badge: string, servicesLine: string, submissionLine: string)

  /** The services line: the names joined with ", ", or a placeholder when there are none. */
  function ServicesLine(services: seq<string>): (line: string)
    ensures services == [] ==> line == "No services selected"
    ensures services != [] ==> line == Text.Join(services, ", ")
  {
    if |services| > 0 then Text.Join(services, ", ") else "No services selected"
  }

  /** The submission line: the submission date when there is one, else "Submission pending". */
  function SubmissionLine(submittedAt: Option<string>, locale: Dates.DateLocale): (line: string)
    ensures submittedAt.None? || submittedAt.value == "" ==> line == "Submission pending"
    ensures submittedAt.Some? && submittedAt.value != "" ==> line == "Submitted " + FormatDate(submittedAt, locale)
  {
    if submittedAt.Some? && submittedAt.value != "" then "Submitted " + FormatDate(submittedAt, locale)
    else "Submission pending"
  }

  /** One company card: name, status badge, services line and submission line. */
  function CardOf(s: Companies.CompanySummary, locale: Dates.DateLocale): Card {
    Card(s.name, StatusLabel(s.status), ServicesLine(s.services), SubmissionLine(s.submittedAt, locale))
  }

  /** The "Active companies" section: one card per summary, or the empty message. */
  datatype CompaniesSection = NoCompanies(message: string) | Cards(cards: seq<Card>)

  const NoCompaniesMessage := "No questionnaires submitted yet. Start by inviting a client to complete the onboarding wizard."

  /**
   * `AppHomePage`: the summaries come from `getRecentCompanySummaries`; when
   * that throws, the page logs it and shows no company.
   */
  function ActiveCompanies(loaded: Result<seq<Companies.CompanySummary>, Tables.Failure>, locale: Dates.DateLocale): (r: CompaniesSection)
    ensures r.NoCompanies? <==> loaded.Err? || loaded.value == []
    ensures r.NoCompanies? ==> r.message == NoCompaniesMessage
    ensures r.Cards? ==> |r.cards| == |loaded.value| && forall i :: 0 <= i < |loaded.value| ==> r.cards[i] == CardOf(loaded.value[i], locale)
  {
    var summaries := if loaded.Ok? then loaded.value else [];
    if |summaries| > 0 then Cards(seq(|summaries|, i requires 0 <= i < |summaries| => CardOf(summaries[i], locale)))
    else NoCompanies(NoCompaniesMessage)
  }

  /**
   * A company without questionnaires shows as in progress, with no services
   * and its submission pending.
   */
  lemma NewCompanyCard(c: Companies.CompanyView, parseDate: Tables.Timestamp -> int, locale: Dates.DateLocale)
    requires c.questionnaires.None? || c.questionnaires.value == []
    ensures CardOf(Companies.Summary(c, parseDate), locale) ==
      Card(c.name, "In progress", "No services selected", "Submission pending")
  {
    Companies.NoQuestionnaireDefaults(c, parseDate);
  }
}
