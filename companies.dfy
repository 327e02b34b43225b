/**
 * The read side of the company pages: the latest questionnaire of a company,
 * the summary and table rows built from it, the mapping from stored service
 * keys to display names, the per-section map of stored responses, and the
 * company lookups that answer null for an unknown company. The rows the
 * queries return (already filtered, ordered and limited by the database) are
 * inputs.
 */
module Companies {

  import opened Wrappers
  import opened Forms
  import opened Tables
  import Text
  import Services
  import Intake

  // ---------------------------------------------------------------------------
  // Service display names

  /** `SERVICE_KEY_TO_DISPLAY[key] ?? key.toUpperCase()`. */
  function ServiceDisplay(key: string): (d: string)
    ensures key in Services.KeyToDisplay() ==> d == Services.KeyToDisplay()[key]
    ensures key !in Services.KeyToDisplay() ==> d == Text.ToUpper(key)
  {
    if key in Services.KeyToDisplay() then Services.KeyToDisplay()[key] else Text.ToUpper(key)
  }

  /** `selected_services?.map(...) ?? []`: one display name per stored key, in the same order. */
  function DisplayServices(keys: Option<seq<string>>): (ds: seq<string>)
    ensures keys.None? ==> ds == []
    ensures keys.Some? ==> |ds| == |keys.value| && forall i :: 0 <= i < |ds| ==> ds[i] == ServiceDisplay(keys.value[i])
  {
    if keys.None? then [] else seq(|keys.value|, i requires 0 <= i < |keys.value| => ServiceDisplay(keys.value[i]))
  }

  /**
   * The display name of a catalogue key is the catalogue's, and maps back to
   * that key; so the keys the intake stores are shown as the names the
   * client picked.
   */
  lemma CatalogueKeyDisplayRoundTrip(k: string)
    requires k in Services.ServiceKeys()
    ensures ServiceDisplay(k) in Services.DisplayToKey() && Services.DisplayToKey()[ServiceDisplay(k)] == k
  {
    Services.KeyRoundTrip(k);
  }

  /** The display names the intake form offers come back unchanged through key and display mapping. */
  lemma DisplayNameRoundTrip(d: string)
    requires d in Services.DisplayToKey()
    ensures ServiceDisplay(Services.DisplayToKey()[d]) == d
  {
    Services.DisplayRoundTrip(d);
  }

  // ---------------------------------------------------------------------------
  // The latest questionnaire

  /** A questionnaire as the company list queries select it. */
  datatype QuestionnaireView = QuestionnaireView(
    id: Id,
    status: string,
    submittedAt: Option<Timestamp>,
    selectedServices: Option<seq<string>>)

  /**
   * The sort key: the parsed submission time, or 0 for a questionnaire not
   * submitted. `parseDate` stands for `Date.parse` on the stored timestamps.
   */
  function Rank(q: QuestionnaireView, parseDate: Timestamp -> int): int {
    if q.submittedAt.Some? && q.submittedAt.value != "" then parseDate(q.submittedAt.value) else 0
  }

  /** The sort key of each questionnaire, in order. */
  function Ranks(qs: seq<QuestionnaireView>, parseDate: Timestamp -> int): (ranks: seq<int>)
    ensures |ranks| == |qs| && forall j :: 0 <= j < |qs| ==> ranks[j] == Rank(qs[j], parseDate)
  {
    seq(|qs|, j requires 0 <= j < |qs| => Rank(qs[j], parseDate))
  }

  /**
   * The position a stable sort by descending key puts first: one of maximal
   * key, before which every key is lower.
   */
  function FirstMaximal(ranks: seq<int>): (i: nat)
    requires |ranks| > 0
    ensures i < |ranks|
    ensures forall j :: 0 <= j < |ranks| ==> ranks[j] <= ranks[i]
    ensures forall j :: 0 <= j < i ==> ranks[j] < ranks[i]
  {
    if |ranks| == 1 then 0
    else
      var init := ranks[..|ranks| - 1];
      var p := FirstMaximal(init);
      assert forall j :: 0 <= j < |init| ==> init[j] == ranks[j];
      if ranks[|ranks| - 1] > ranks[p] then |ranks| - 1 else p
  }

  /** The first of maximal key is the only position with both properties. */
  lemma FirstMaximalIsUnique(ranks: seq<int>, k: nat)
    requires k < |ranks|
    requires forall j :: 0 <= j < |ranks| ==> ranks[j] <= ranks[k]
    requires forall j :: 0 <= j < k ==> ranks[j] < ranks[k]
    ensures FirstMaximal(ranks) == k
  {
  }

  /** The index of the latest questionnaire. */
  function LatestIndex(qs: seq<QuestionnaireView>, parseDate: Timestamp -> int): (i: nat)
    requires |qs| > 0
    ensures i < |qs|
    ensures forall j :: 0 <= j < |qs| ==> Rank(qs[j], parseDate) <= Rank(qs[i], parseDate)
    ensures forall j :: 0 <= j < i ==> Rank(qs[j], parseDate) < Rank(qs[i], parseDate)
  {
    FirstMaximal(Ranks(qs, parseDate))
  }

  /** `questionnaires?.sort(byDescendingSubmission)[0] ?? null`. */
  function Latest(qs: Option<seq<QuestionnaireView>>, parseDate: Timestamp -> int): (r: Option<QuestionnaireView>)
    ensures r.None? <==> qs.None? || qs.value == []
    ensures r.Some? ==> r.value == qs.value[LatestIndex(qs.value, parseDate)]
  {
    if qs.None? || qs.value == [] then None else Some(qs.value[LatestIndex(qs.value, parseDate)])
  }

  /** A submitted questionnaire is preferred to every unsubmitted one, whatever the order they come in. */
  lemma SubmittedBeatsDraft(qs: seq<QuestionnaireView>, parseDate: Timestamp -> int, s: nat)
    requires s < |qs| && Rank(qs[s], parseDate) > 0
    ensures Latest(Some(qs), parseDate).value.submittedAt.Some?
  {
    var i := LatestIndex(qs, parseDate);
    assert Rank(qs[s], parseDate) <= Rank(qs[i], parseDate);
  }

  // ---------------------------------------------------------------------------
  // Summary and table rows

  /** A company as the list queries select it, with its questionnaires. */
  datatype CompanyView = CompanyView(
    id: Id,
    name: string,
    website: Option<string>,
    businessType: Option<string>,
    updatedAt: Option<Timestamp>,
    questionnaires: Option<seq<QuestionnaireView>>)

  datatype CompanySummary = CompanySummary(
    id: Id,
    name: string,
    website: Option<string>,
    status: string,
    submittedAt: Option<Timestamp>,
    services: seq<string>)

  datatype CompanyTableRow = CompanyTableRow(
    id: Id,
    name: string,
    website: Option<string>,
    businessType: Option<string>,
    updatedAt: Option<Timestamp>,
    submittedAt: Option<Timestamp>,
    status: string,
    services: seq<string>)

  const DefaultStatus := "in_progress"

  /** The status, submission time and services the latest questionnaire gives a company. */
  datatype Progress = Progress(status: string, submittedAt: Option<Timestamp>, services: seq<string>)

  function ProgressOf(latest: Option<QuestionnaireView>): (p: Progress)
    ensures latest.None? ==> p == Progress(DefaultStatus, None, [])
    ensures latest.Some? ==> p.status == latest.value.status && p.submittedAt == latest.value.submittedAt
    ensures latest.Some? ==> p.services == DisplayServices(latest.value.selectedServices)
  {
    if latest.None? then Progress(DefaultStatus, None, [])
    else Progress(latest.value.status, latest.value.submittedAt, DisplayServices(latest.value.selectedServices))
  }

  /** One element of `getRecentCompanySummaries`. */
  function Summary(c: CompanyView, parseDate: Timestamp -> int): CompanySummary {
    var p := ProgressOf(Latest(c.questionnaires, parseDate));
    CompanySummary(c.id, c.name, c.website, p.status, p.submittedAt, p.services)
  }

  /** One element of `getCompanyTable`. */
  function TableRow(c: CompanyView, parseDate: Timestamp -> int): CompanyTableRow {
    var p := ProgressOf(Latest(c.questionnaires, parseDate));
    CompanyTableRow(c.id, c.name, c.website, c.businessType, c.updatedAt, p.submittedAt, p.status, p.services)
  }

  /** `getRecentCompanySummaries`: one summary per fetched company, in the fetched order. */
  function Summaries(rows: seq<CompanyView>, parseDate: Timestamp -> int): (r: seq<CompanySummary>)
    ensures |r| == |rows| && forall i :: 0 <= i < |rows| ==> r[i] == Summary(rows[i], parseDate)
  {
    seq(|rows|, i requires 0 <= i < |rows| => Summary(rows[i], parseDate))
  }

  /** `getCompanyTable`: one row per fetched company, in the fetched order. */
  function Table(rows: seq<CompanyView>, parseDate: Timestamp -> int): (r: seq<CompanyTableRow>)
    ensures |r| == |rows| && forall i :: 0 <= i < |rows| ==> r[i] == TableRow(rows[i], parseDate)
  {
    seq(|rows|, i requires 0 <= i < |rows| => TableRow(rows[i], parseDate))
  }

  /** A company without questionnaires is `in_progress`, never submitted, with no services. */
  lemma NoQuestionnaireDefaults(c: CompanyView, parseDate: Timestamp -> int)
    requires c.questionnaires.None? || c.questionnaires.value == []
    ensures var s := Summary(c, parseDate); s.status == DefaultStatus && s.submittedAt.None? && s.services == []
    ensures var t := TableRow(c, parseDate); t.status == DefaultStatus && t.submittedAt.None? && t.services == []
  {
  }

  /** The summary and the table row of a company agree on everything they both show. */
  lemma SummaryAgreesWithTableRow(c: CompanyView, parseDate: Timestamp -> int)
    ensures var s := Summary(c, parseDate); var t := TableRow(c, parseDate);
      s.id == t.id && s.name == t.name && s.website == t.website
      && s.status == t.status && s.submittedAt == t.submittedAt && s.services == t.services
  {
  }

  /**
   * A company's services are those of its latest questionnaire: one display
   * name per stored key, in the stored order.
   */
  lemma SummaryServicesFollowLatest(c: CompanyView, parseDate: Timestamp -> int)
    requires c.questionnaires.Some? && c.questionnaires.value != []
    ensures var q := c.questionnaires.value[LatestIndex(c.questionnaires.value, parseDate)];
      var s := Summary(c, parseDate);
      s.status == q.status && s.submittedAt == q.submittedAt
      && |s.services| == (if q.selectedServices.Some? then |q.selectedServices.value| else 0)
  {
  }

  // ---------------------------------------------------------------------------
  // Company lookups

  /** What `getCompanyById` returns. */
  datatype CompanyRef = CompanyRef(id: Id, name: string)

  /** `getCompanyById`: the company's id and name, or null when there is no such company. */
  function GetCompanyById(t: Tables, companyId: Id): (r: Option<CompanyRef>)
    ensures r.None? <==> companyId !in t.companies
    ensures r.Some? ==> r.value == CompanyRef(companyId, t.companies[companyId].name)
  {
    if companyId in t.companies then Some(CompanyRef(companyId, t.companies[companyId].name)) else None
  }

  /**
   * A company the intake creates can be read back under the id the draft
   * returns, with the name the client entered.
   */
  lemma CreatedCompanyIsReadable(t: Tables, b: Backend, keys: Option<seq<string>>, p: Intake.Profile, uid: Id, ctx: Intake.DraftContext)
    requires !Intake.Present(ctx.companyId)
    requires Intake.DraftSpec(t, b, keys, p, uid, ctx).0.Ok?
    ensures var r := Intake.DraftSpec(t, b, keys, p, uid, ctx);
      p.name.Some? && GetCompanyById(r.1, r.0.value.companyId) == Some(CompanyRef(r.0.value.companyId, p.name.value))
  {
    Intake.DraftSucceeded(t, b, keys, p, uid, ctx);
    var c := Intake.CompanyStep(t, b, ctx, p);
    var m := Intake.MembershipStep(c.1, b, c.0.value, uid);
    var sv := Intake.ServicesStep(m.1, b, c.0.value, keys.value);
    var q := Intake.QuestionnaireStep(sv.1, b, ctx, c.0.value, uid, keys.value);
    assert c.1.companies[b.companyIdDrawn].name == p.name.value;
  }

  // ---------------------------------------------------------------------------
  // getCompanyDetail

  /** A `questionnaire_responses` row as `getCompanyDetail` selects it. */
  datatype ResponseView = ResponseView(sectionKey: string, responses: Option<Values>, updatedAt: Option<Timestamp>)

  /** The entry of one section in the responses map. */
  datatype SectionResponses = SectionResponses(updatedAt: Option<Timestamp>, values: Values)

  /** `{ updatedAt: row.updated_at ?? null, values: row.responses ?? {} }`. */
  function EntryOf(row: ResponseView): (e: SectionResponses)
    ensures row.responses.None? ==> e.values == map[]
    ensures row.responses.Some? ==> e.values == row.responses.value
    ensures e.updatedAt == row.updatedAt
  {
    SectionResponses(row.updatedAt, if row.responses.Some? then row.responses.value else map[])
  }

  /** The responses map after folding `rows` in order. */
  function ResponsesBySection(rows: seq<ResponseView>): (r: map<string, SectionResponses>)
    ensures forall k :: k in r ==> exists i :: 0 <= i < |rows| && rows[i].sectionKey == k && r[k] == EntryOf(rows[i])
    ensures rows != [] ==> rows[|rows| - 1].sectionKey in r && r[rows[|rows| - 1].sectionKey] == EntryOf(rows[|rows| - 1])
  {
    if rows == [] then map[]
    else
      var init := rows[..|rows| - 1];
      var last := rows[|rows| - 1];
      assert forall i :: 0 <= i < |init| ==> init[i] == rows[i];
      ResponsesBySection(init)[last.sectionKey := EntryOf(last)]
  }

  /** The map holds exactly the section keys of the rows. */
  lemma {:induction false} ResponsesKeys(rows: seq<ResponseView>, k: string)
    ensures k in ResponsesBySection(rows) <==> exists i :: 0 <= i < |rows| && rows[i].sectionKey == k
  {
    if rows != [] {
      var init := rows[..|rows| - 1];
      ResponsesKeys(init, k);
      if exists i :: 0 <= i < |init| && init[i].sectionKey == k {
        var i :| 0 <= i < |init| && init[i].sectionKey == k;
        assert rows[i].sectionKey == k;
      }
      if exists i :: 0 <= i < |rows| && rows[i].sectionKey == k {
        var i :| 0 <= i < |rows| && rows[i].sectionKey == k;
        if i < |init| {
          assert init[i].sectionKey == k;
        }
      }
    }
  }

  /** A section's entry comes from the last row with its key: later rows override earlier ones. */
  lemma {:induction false} LastRowWins(rows: seq<ResponseView>, i: nat)
    requires i < |rows|
    requires forall j :: i < j < |rows| ==> rows[j].sectionKey != rows[i].sectionKey
    ensures rows[i].sectionKey in ResponsesBySection(rows)
    ensures ResponsesBySection(rows)[rows[i].sectionKey] == EntryOf(rows[i])
  {
    if i < |rows| - 1 {
      var init := rows[..|rows| - 1];
      assert init[i] == rows[i];
      LastRowWins(init, i);
    }
  }

  /** `responseRows.reduce((acc, row) => { acc[row.section_key] = ...; return acc; }, {})`. */
  method FoldResponses(rows: seq<ResponseView>) returns (acc: map<string, SectionResponses>)
    ensures acc == ResponsesBySection(rows)
  {
    acc := map[];
    for i := 0 to |rows|
      invariant acc == ResponsesBySection(rows[..i])
    {
      assert rows[..i + 1][..i] == rows[..i];
      acc := acc[rows[i].sectionKey := EntryOf(rows[i])];
    }
    assert rows[..|rows|] == rows;
  }

  /** A `company_services` row joined with its service, as `getCompanyDetail` selects it. */
  datatype ServiceRef = ServiceRef(key: Option<string>, labelText: Option<string>)
  datatype CompanyServiceView = CompanyServiceView(status: string, service: Option<ServiceRef>)

  datatype ServiceEntry = ServiceEntry(key: string, labelText: string, status: string)

  /** `{ key: service?.key ?? "", label: service?.label ?? service?.key ?? "", status }`. */
  function ServiceEntryOf(item: CompanyServiceView): (e: ServiceEntry)
    ensures e.status == item.status
    ensures item.service.None? ==> e.key == "" && e.labelText == ""
    ensures item.service.Some? ==> e.key == item.service.value.key.GetOr("")
    ensures item.service.Some? && item.service.value.labelText.Some? ==> e.labelText == item.service.value.labelText.value
    ensures item.service.Some? && item.service.value.labelText.None? ==> e.labelText == e.key
  {
    if item.service.None? then ServiceEntry("", "", item.status)
    else
      var s := item.service.value;
      ServiceEntry(s.key.GetOr(""), if s.labelText.Some? then s.labelText.value else s.key.GetOr(""), item.status)
  }

  /** The company row `getCompanyDetail` selects. */
  datatype CompanyDetailRow = CompanyDetailRow(
    id: Id,
    name: string,
    website: Option<string>,
    industry: Option<string>,
    businessType: Option<string>,
    country: Option<string>,
    timezone: Option<string>,
    notes: Option<string>)

  /** The latest questionnaire row `getCompanyDetail` selects. */
  datatype QuestionnaireDetailRow = QuestionnaireDetailRow(
    id: Id,
    status: string,
    submittedAt: Option<Timestamp>,
    selectedServices: Option<seq<string>>)

  datatype QuestionnaireDetail = QuestionnaireDetail(
    id: Id,
    status: string,
    submittedAt: Option<Timestamp>,
    selectedServices: seq<string>,
    responses: map<string, SectionResponses>)

  datatype CompanyDetail = CompanyDetail(
    company: CompanyDetailRow,
    services: seq<ServiceEntry>,
    questionnaire: Option<QuestionnaireDetail>)

  /**
   * `getCompanyDetail` over the rows its queries return: null without a
   * company; otherwise the company, its services, and its latest
   * questionnaire with the responses folded by section.
   */
  function DetailOf(company: Option<CompanyDetailRow>, questionnaire: Option<QuestionnaireDetailRow>,
                    responseRows: Option<seq<ResponseView>>, companyServices: Option<seq<CompanyServiceView>>): (r: Option<CompanyDetail>)
    ensures r.None? <==> company.None?
    ensures r.Some? ==> r.value.company == company.value
    ensures r.Some? ==> (r.value.questionnaire.None? <==> questionnaire.None?)
    ensures r.Some? && questionnaire.Some? ==>
      var q := r.value.questionnaire.value;
      && q.id == questionnaire.value.id && q.status == questionnaire.value.status
      && q.submittedAt == questionnaire.value.submittedAt
      && q.selectedServices == DisplayServices(questionnaire.value.selectedServices)
      && q.responses == (if responseRows.Some? then ResponsesBySection(responseRows.value) else map[])
    ensures r.Some? ==>
      var items := companyServices.GetOr([]);
      |r.value.services| == |items| && forall i :: 0 <= i < |items| ==> r.value.services[i] == ServiceEntryOf(items[i])
  {
    if company.None? then None
    else
      var responses := if questionnaire.Some? && responseRows.Some? then ResponsesBySection(responseRows.value) else map[];
      var items := companyServices.GetOr([]);
      var services := seq(|items|, i requires 0 <= i < |items| => ServiceEntryOf(items[i]));
      var q := if questionnaire.None? then None
               else Some(QuestionnaireDetail(questionnaire.value.id, questionnaire.value.status, questionnaire.value.submittedAt,
                                             DisplayServices(questionnaire.value.selectedServices), responses));
      Some(CompanyDetail(company.value, services, q))
  }

  /** `getCompanyDetail`, folding the response rows with the loop above. */
  method GetCompanyDetail(company: Option<CompanyDetailRow>, questionnaire: Option<QuestionnaireDetailRow>,
                          responseRows: Option<seq<ResponseView>>, companyServices: Option<seq<CompanyServiceView>>)
    returns (r: Option<CompanyDetail>)
    ensures r == DetailOf(company, questionnaire, responseRows, companyServices)
  {
    if company.None? {
      return None;
    }
    var responses := map[];
    if questionnaire.Some? && responseRows.Some? {
      responses := FoldResponses(responseRows.value);
    }
    var items := companyServices.GetOr([]);
    var services := seq(|items|, i requires 0 <= i < |items| => ServiceEntryOf(items[i]));
    var q := None;
    if questionnaire.Some? {
      q := Some(QuestionnaireDetail(questionnaire.value.id, questionnaire.value.status, questionnaire.value.submittedAt,
                                    DisplayServices(questionnaire.value.selectedServices), responses));
    }
    return Some(CompanyDetail(company.value, services, q));
  }
}
