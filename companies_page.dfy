/**
 * The companies table: the status badge, the business-type, services and
 * last-update cells of each company row, and the message shown when there
 * is no company.
 */
module CompaniesPage {

  import opened Wrappers
  import Text
  import Dates
  import Tables
  import Companies

  /**
   * `formatStatus`: the three known statuses have fixed labels; any other has
   * its first underscore turned into a space. The companies page keeps its
   * own copy of the home page's `statusLabel`, so the model keeps one too.
   */
  function FormatStatus(status: string): (r: string)
    ensures status == "submitted" ==> r == "Submitted"
    ensures status == "in_progress" ==> r == "In progress"
    ensures status == "reviewed" ==> r == "Reviewed"
    ensures status !in {"submitted", "in_progress", "reviewed"} ==> r == Text.ReplaceFirst(status, '_', ' ')
  {
    match status
    case "submitted" => "Submitted"
    case "in_progress" => "In progress"
    case "reviewed" => "Reviewed"
    case _ => Text.ReplaceFirst(status, '_', ' ')
  }

  /** Only the first underscore of an unknown status is replaced. */
  lemma UnknownStatusKeepsLaterUnderscores(status: string)
    requires status !in {"submitted", "in_progress", "reviewed"} && '_' in status
    ensures multiset(FormatStatus(status))['_'] == multiset(status)['_'] - 1
  {
    Text.ReplaceFirstRemovesOne(status, '_', ' ');
  }

  const Placeholder := "--"

  /** `formatDate`: the localized date, or "--" for a missing, empty or invalid date. */
  function FormatDate(s: Option<string>, locale: Dates.DateLocale): (r: string)
    ensures s.None? || s.value == "" || !locale.isValid(s.value) ==> r == Placeholder
    ensures s.Some? && s.value != "" && locale.isValid(s.value) ==> r == locale.dateOnly(s.value)
  {
    if s.None? || s.value == "" then Placeholder
    else if !locale.isValid(s.value) then Placeholder
    else locale.dateOnly(s.value)
  }

  /** `updatedAt ?? submittedAt ?? null`: a present value, even an empty one, wins. */
  function LastUpdate(updatedAt: Option<string>, submittedAt: Option<string>): (r: Option<string>)
    ensures updatedAt.Some? ==> r == updatedAt
    ensures updatedAt.None? ==> r == submittedAt
  {
    if updatedAt.Some? then updatedAt else submittedAt
  }

  /** The cells of one table row. */
  datatype Row = Row(
    name: string,
    website: Option<string>,
    businessType: string,
    services: string,
    lastUpdate: string,
    status: string)

  function RowOf(c: Companies.CompanyTableRow, locale: Dates.DateLocale): (r: Row)
    ensures r.name == c.name && r.status == FormatStatus(c.status)
    ensures r.website.Some? <==> c.website.Some? && c.website.value != ""
    ensures r.website.Some? ==> r.website == c.website
    ensures c.businessType.None? ==> r.businessType == Placeholder
    ensures c.businessType.Some? ==> r.businessType == c.businessType.value
    ensures c.services == [] ==> r.services == "No services captured"
    ensures c.services != [] ==> r.services == Text.Join(c.services, ", ")
    ensures r.lastUpdate == FormatDate(LastUpdate(c.updatedAt, c.submittedAt), locale)
  {
    Row(c.name,
        if c.website.Some? && c.website.value != "" then c.website else None,
        if c.businessType.Some? then c.businessType.value else Placeholder,
        if |c.services| > 0 then Text.Join(c.services, ", ") else "No services captured",
        FormatDate(LastUpdate(c.updatedAt, c.submittedAt), locale),
        FormatStatus(c.status))
  }

  /** The table body: one row per company, or the empty message. */
  datatype TableBody = NoCompanies(message: string) | Rows(rows: seq<Row>)

  const NoCompaniesMessage := "No companies found. Once clients submit the onboarding wizard, their profiles will appear here automatically."

  /** `CompaniesPage`: rows from `getCompanyTable`; when that throws, the page logs it and shows no company. */
  function Body(loaded: Result<seq<Companies.CompanyTableRow>, Tables.Failure>, locale: Dates.DateLocale): (b: TableBody)
    ensures b.NoCompanies? <==> loaded.Err? || loaded.value == []
    ensures b.NoCompanies? ==> b.message == NoCompaniesMessage
    ensures b.Rows? ==> |b.rows| == |loaded.value| && forall i :: 0 <= i < |loaded.value| ==> b.rows[i] == RowOf(loaded.value[i], locale)
  {
    var companies := if loaded.Ok? then loaded.value else [];
    if |companies| > 0 then Rows(seq(|companies|, i requires 0 <= i < |companies| => RowOf(companies[i], locale)))
    else NoCompanies(NoCompaniesMessage)
  }

  /**
   * A company without questionnaires shows as in progress with no services,
   * and its last update is its own update time.
   */
  lemma NewCompanyRow(c: Companies.CompanyView, parseDate: Tables.Timestamp -> int, locale: Dates.DateLocale)
    requires c.questionnaires.None? || c.questionnaires.value == []
    ensures var r := RowOf(Companies.TableRow(c, parseDate), locale);
      r.status == "In progress" && r.services == "No services captured"
      && r.lastUpdate == FormatDate(c.updatedAt, locale)
  {
    Companies.NoQuestionnaireDefaults(c, parseDate);
  }
}
