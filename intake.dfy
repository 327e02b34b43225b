/**
 * The intake server actions: creating or updating the draft company and
 * questionnaire, saving one section, and submitting the whole questionnaire.
 * Each action is a method that changes the database in place and is proved
 * equal to a specification function from the old tables to the result and
 * the new tables; the lemmas state what the actions promise about that function.
 */
module Intake {

  import opened Wrappers
  import opened Collections
  import opened Forms
  import opened Tables
  import Text
  import Services
  import Schema

  // ---------------------------------------------------------------------------
  // Pure helpers

  /** `normalizeNullable`: a string trimmed, or null when it is not a string or is blank. */
  function NormalizeNullable(v: Value): (r: Option<string>)
    ensures r.Some? <==> v.Str? && Text.Trim(v.s) != ""
    ensures r.Some? ==> r.value == Text.Trim(v.s) && r.value != ""
  {
    if !v.Str? then None
    else
      var trimmed := Text.Trim(v.s);
      if |trimmed| > 0 then Some(trimmed) else None
  }

  /** A profile field as normalization leaves it: null, or a string that normalizing again keeps. */
  predicate Clean(o: Option<string>) {
    o.None? || NormalizeNullable(Str(o.value)) == o
  }

  /** What normalization returns is clean. */
  lemma NormalizedIsClean(v: Value)
    ensures Clean(NormalizeNullable(v))
  {
    if NormalizeNullable(v).Some? {
      NormalizeNullableIdempotent(v);
    }
  }

  /** Normalizing an already normalized value changes nothing. */
  lemma NormalizeNullableIdempotent(v: Value)
    requires NormalizeNullable(v).Some?
    ensures NormalizeNullable(Str(NormalizeNullable(v).value)) == NormalizeNullable(v)
  {
    Text.TrimIdempotent(v.s);
  }

  /** `items.filter(Boolean)` on strings: the non-empty ones, in order. */
  function NonEmpty(items: seq<string>): (r: seq<string>)
    ensures forall i :: 0 <= i < |r| ==> r[i] != "" && r[i] in items
    ensures forall i :: 0 <= i < |items| && items[i] != "" ==> items[i] in r
  {
    if items == [] then []
    else
      var init := NonEmpty(items[..|items| - 1]);
      var last := items[|items| - 1];
      assert forall x :: x in items[..|items| - 1] ==> x in items;
      if last != "" then init + [last] else init
  }

  /** The display names of `selected_services`, or None where the value is not a list and `.filter` would throw. */
  function DisplayServices(v: Value): Option<seq<string>> {
    match v
    case Absent => Some([])
    case Null => Some([])
    case List(items) => Some(NonEmpty(items))
    case _ => None
  }

  /** `.map(service => DISPLAY_SERVICE_TO_KEY[service]).filter(Boolean)`: the non-empty keys of the known names, in order. */
  function KnownKeys(ds: seq<string>): seq<string> {
    if ds == [] then []
    else
      var init := KnownKeys(ds[..|ds| - 1]);
      var d := ds[|ds| - 1];
      var m := Services.DisplayToKey();
      if d in m && m[d] != "" then init + [m[d]] else init
  }

  /** Every mapped key is one of the catalogue's service keys. */
  lemma {:induction false} KnownKeysAreServiceKeys(ds: seq<string>, k: string)
    requires k in KnownKeys(ds)
    ensures k in Services.ServiceKeys()
    decreases |ds|
  {
    var init := KnownKeys(ds[..|ds| - 1]);
    var d := ds[|ds| - 1];
    var m := Services.DisplayToKey();
    if k in init {
      KnownKeysAreServiceKeys(ds[..|ds| - 1], k);
    } else {
      assert d in m && k == m[d];
      Services.ValueIsKey(k);
    }
  }

  /** `extractServiceKeys(values).serviceKeys`, or None when `selected_services` is not a list. */
  function ExtractServiceKeys(values: Values): (r: Option<seq<string>>)
    ensures var v := Lookup(values, SelectedServicesField); r.None? <==> !(v.Absent? || v.Null? || v.List?)
    ensures Lookup(values, SelectedServicesField).Absent? ==> r == Some([])
    ensures r.Some? ==> Distinct(r.value)
  {
    var ds := DisplayServices(Lookup(values, SelectedServicesField));
    if ds.None? then None else Some(Dedup(KnownKeys(ds.value)))
  }

  /** The extracted keys are distinct and in the order in which they first occur among the known keys. */
  lemma ExtractedKeysInFirstOccurrenceOrder(values: Values, i: nat, j: nat)
    requires ExtractServiceKeys(values).Some?
    requires i < j < |ExtractServiceKeys(values).value|
    ensures Distinct(ExtractServiceKeys(values).value)
    ensures var known := KnownKeys(DisplayServices(Lookup(values, SelectedServicesField)).value);
      FirstIndex(known, ExtractServiceKeys(values).value[i]) < FirstIndex(known, ExtractServiceKeys(values).value[j])
  {
    DedupKeepsFirstOccurrenceOrder(KnownKeys(DisplayServices(Lookup(values, SelectedServicesField)).value), i, j);
  }

  /** Every extracted key is one of the catalogue's service keys. */
  lemma ExtractedKeysAreCatalogueKeys(values: Values, k: string)
    requires ExtractServiceKeys(values).Some? && k in ExtractServiceKeys(values).value
    ensures k in Services.ServiceKeys()
  {
    var known := KnownKeys(DisplayServices(Lookup(values, SelectedServicesField)).value);
    var keys := Dedup(known);
    var a :| 0 <= a < |keys| && keys[a] == k;
    var b :| 0 <= b < |known| && known[b] == k;
    KnownKeysAreServiceKeys(DisplayServices(Lookup(values, SelectedServicesField)).value, k);
  }

  /** A known display name survives the `filter(Boolean)`. */
  lemma KnownDisplayNameKept(items: seq<string>, d: string)
    requires d in items && d in Services.DisplayToKey()
    ensures d in NonEmpty(items)
  {
    Services.DisplayNameNonEmpty(d);
    var a := FirstIndex(items, d);
  }

  /** A known display name contributes its key to the mapped list. */
  lemma {:induction false} KnownDisplayNameMapped(ds: seq<string>, d: string)
    requires d in ds && d in Services.DisplayToKey()
    ensures Services.DisplayToKey()[d] in KnownKeys(ds)
    decreases |ds|
  {
    var m := Services.DisplayToKey();
    var init := KnownKeys(ds[..|ds| - 1]);
    var last := ds[|ds| - 1];
    if last == d {
      Services.KeyNonEmpty(d);
      assert KnownKeys(ds) == init + [m[d]];
    } else {
      var i :| 0 <= i < |ds| && ds[i] == d;
      assert ds[..|ds| - 1][i] == d;
      KnownDisplayNameMapped(ds[..|ds| - 1], d);
      assert KnownKeys(ds) == init || KnownKeys(ds) == init + [m[last]];
    }
  }


  /** A known display name's key survives the de-duplication. */
  lemma KnownDisplayNameDeduped(items: seq<string>, d: string)
    requires d in items && d in Services.DisplayToKey()
    ensures Services.DisplayToKey()[d] in Dedup(KnownKeys(NonEmpty(items)))
  {
    KnownDisplayNameKept(items, d);
    KnownDisplayNameMapped(NonEmpty(items), d);
    var known := KnownKeys(NonEmpty(items));
    var c := FirstIndex(known, Services.DisplayToKey()[d]);
  }

  /** When `selected_services` holds a list, the extracted keys are the de-duplicated keys of its known names. */
  lemma ExtractFromList(values: Values, items: seq<string>)
    requires Lookup(values, SelectedServicesField) == List(items)
    ensures ExtractServiceKeys(values) == Some(Dedup(KnownKeys(NonEmpty(items))))
  {
  }

  /** Every selected display name the catalogue knows contributes its key. */
  lemma KnownDisplayNameIsExtracted(values: Values, items: seq<string>, d: string)
    requires Lookup(values, SelectedServicesField) == List(items)
    requires d in items && d in Services.DisplayToKey()
    ensures ExtractServiceKeys(values).Some?
    ensures Services.DisplayToKey()[d] in ExtractServiceKeys(values).value
  {
    ExtractFromList(values, items);
    KnownDisplayNameDeduped(items, d);
  }

  /** `SECTION_KEY_MAP`: the section keys stored under a different key. */
  const SectionKeyMap: map<string, string> := map[
    "company" := "business",
    "services" := "services",
    "seo" := "seo",
    "ppc" := "ppc",
    "social" := "social",
    "analytics" := "analytics",
    "webdev" := "webdev",
    "email" := "email"]

  /** `SECTION_KEY_MAP[key] ?? key`: the `section_key` a section's responses are stored under. */
  function DbSectionKey(key: string): string {
    if key in SectionKeyMap then SectionKeyMap[key] else key
  }

  /**
   * Only the company section is renamed: every other key is stored as it is,
   * so a section whose own key is "business" shares its row with "company".
   */
  lemma DbSectionKeyRenamesOnlyCompany(key: string)
    ensures DbSectionKey(key) == (if key == "company" then "business" else key)
    ensures DbSectionKey(key) == DbSectionKey("company") <==> key == "company" || key == "business"
  {
  }

  /** `responsePayload`: every declared field key mapped to its parsed value, or null when it has none. */
  function Payload(fields: seq<FormField>, data: Values): (p: Values)
    ensures forall k :: k in p <==> k in Schema.KeysOf(fields)
    ensures forall k :: k in p ==> p[k] == OrNull(Lookup(data, k))
  {
    if fields == [] then map[]
    else
      var last := fields[|fields| - 1];
      Payload(fields[..|fields| - 1], data)[last.key := OrNull(Lookup(data, last.key))]
  }

  /** The loop that fills `responsePayload` for the fields of one section. */
  method ResponsePayloadOf(fields: seq<FormField>, data: Values) returns (payload: Values)
    ensures payload == Payload(fields, data)
  {
    payload := map[];
    for i := 0 to |fields|
      invariant payload == Payload(fields[..i], data)
    {
      assert fields[..i + 1][..i] == fields[..i];
      payload := payload[fields[i].key := OrNull(Lookup(data, fields[i].key))];
    }
    assert fields[..|fields|] == fields;
  }

  /** `onboardingSections.find(section => section.key === key)`. */
  function FindSection(sections: seq<FormSection>, key: string): (r: Option<FormSection>)
    ensures r.Some? ==> r.value in sections && r.value.key == key
    ensures r.None? <==> forall i :: 0 <= i < |sections| ==> sections[i].key != key
    ensures r.Some? ==> exists i :: (0 <= i < |sections| && sections[i] == r.value &&
      forall j :: 0 <= j < i ==> sections[j].key != key)
  {
    if sections == [] then None
    else if sections[0].key == key then Some(sections[0])
    else
      var r := FindSection(sections[1..], key);
      if r.Some? then
        ghost var i :| 0 <= i < |sections| - 1 && sections[1..][i] == r.value &&
          forall j :: 0 <= j < i ==> sections[1..][j].key != key;
        assert sections[i + 1] == r.value;
        r
      else r
  }

  // ---------------------------------------------------------------------------
  // ensureDraftEntities

  /** `DraftContext`: the ids the wizard already holds; an empty id counts as none. */
  datatype DraftContext = DraftContext(companyId: Option<Id>, questionnaireId: Option<Id>)

  /** The truthiness test `if (id)`. */
  predicate Present(id: Option<Id>) {
    id.Some? && id.value != ""
  }

  /** The company profile fields, normalized. */
  datatype Profile = Profile(
    name: Option<string>,
    website: Option<string>,
    industry: Option<string>,
    businessType: Option<string>,
    country: Option<string>,
    timezone: Option<string>)

  /** The profile `ensureDraftEntities` writes: each company field of the values, normalized. */
  function ProfileOf(values: Values): (p: Profile)
    ensures p.name.Some? <==> Lookup(values, "company_name").Str? && Text.Trim(Lookup(values, "company_name").s) != ""
    ensures Clean(p.name) && Clean(p.website) && Clean(p.industry)
    ensures Clean(p.businessType) && Clean(p.country) && Clean(p.timezone)
  {
    NormalizedIsClean(Lookup(values, "company_name"));
    NormalizedIsClean(Lookup(values, "website"));
    NormalizedIsClean(Lookup(values, "industry"));
    NormalizedIsClean(Lookup(values, "business_type"));
    NormalizedIsClean(Lookup(values, "country"));
    NormalizedIsClean(Lookup(values, "timezone"));
    Profile(
      NormalizeNullable(Lookup(values, "company_name")),
      NormalizeNullable(Lookup(values, "website")),
      NormalizeNullable(Lookup(values, "industry")),
      NormalizeNullable(Lookup(values, "business_type")),
      NormalizeNullable(Lookup(values, "country")),
      NormalizeNullable(Lookup(values, "timezone")))
  }

  /** What `ensureDraftEntities` returns. */
  datatype Draft = Draft(companyId: Id, questionnaireId: Id, serviceKeys: seq<string>)

  /** The messages and names the server actions use. */
  const CreateCompanyMessage := "Failed to create the company profile."
  const UpdateCompanyMessage := "Unable to update company information."
  const AttachMemberMessage := "Unable to attach your account to the company profile."
  const LoadCatalogMessage := "Could not load service catalog."
  const LinkServicesMessage := "Failed to connect services to the company."
  const CreateQuestionnaireMessage := "Failed to create questionnaire draft."
  const UpdateQuestionnaireMessage := "Unable to update questionnaire draft."
  const MissingCompanyIdMessage := "Company ID is required but was not created or provided."
  const MissingQuestionnaireIdMessage := "Questionnaire ID is required but was not created."
  const SaveSignInMessage := "You must be signed in to save progress."
  const UnknownSectionMessage := "Unknown questionnaire section."
  const InvalidSubmissionMessage := "The submitted data did not pass validation. Please review the required fields."
  const SubmitSignInMessage := "You must be signed in to submit the questionnaire."
  const StoreResponsesMessage := "Unable to store questionnaire responses."
  const FinaliseMessage := "Failed to finalise the questionnaire."
  const SubmitAction := "submit_questionnaire"
  const SelectedServicesField := "selected_services"

  const MissingNameMessage := "Please provide the company name before saving progress."
  /** Stands for the TypeError `.filter` throws when `selected_services` is not a list. */
  const SelectedServicesTypeError := "values.selected_services?.filter is not a function"

  /** The company row as `companyUpdate` leaves it. */
  function UpdatedCompany(row: CompanyRow, p: Profile, now: Timestamp): CompanyRow {
    row.(name := p.name.GetOr(row.name),
         website := p.website, industry := p.industry, businessType := p.businessType,
         country := p.country, timezone := p.timezone, updatedAt := now)
  }

  /** Insert a new company, or update the one the context names. */
  function CompanyStep(t: Tables, b: Backend, ctx: DraftContext, p: Profile): (r: (Result<Id, Failure>, Tables))
    ensures r.1 == t.(companies := r.1.companies)
    ensures Present(ctx.companyId) ==> r.1.companies.Keys == t.companies.Keys
    ensures Present(ctx.companyId) && r.0.Ok? ==> r.0.value == ctx.companyId.value
    ensures Present(ctx.companyId) ==> (r.0.Ok? <==> UpdateCompany !in b.faults)
    ensures Present(ctx.companyId) && r.0.Ok? ==>
      var cid := ctx.companyId.value;
      r.1.companies == if cid in t.companies then t.companies[cid := UpdatedCompany(t.companies[cid], p, b.now)] else t.companies
    ensures !Present(ctx.companyId) ==>
      (r.0.Ok? <==> p.name.Some? && InsertCompany !in b.faults && b.companyIdDrawn !in t.companies)
    ensures !Present(ctx.companyId) && r.0.Ok? ==>
      && r.0.value == b.companyIdDrawn
      && r.1.companies == t.companies[b.companyIdDrawn :=
           CompanyRow(p.name.value, p.website, p.industry, p.businessType, p.country, p.timezone, b.now, b.now)]
    ensures r.0.Err? ==> r.1 == t
  {
    if !Present(ctx.companyId) then
      if p.name.None? then (Err(Error(MissingNameMessage)), t)
      else if InsertCompany in b.faults || b.companyIdDrawn in t.companies then
        (Err(Error(CreateCompanyMessage)), t)
      else
        var row := CompanyRow(p.name.value, p.website, p.industry, p.businessType, p.country, p.timezone, b.now, b.now);
        (Ok(b.companyIdDrawn), t.(companies := t.companies[b.companyIdDrawn := row]))
    else
      var cid := ctx.companyId.value;
      if UpdateCompany in b.faults then (Err(Error(UpdateCompanyMessage)), t)
      else if cid in t.companies then
        (Ok(cid), t.(companies := t.companies[cid := UpdatedCompany(t.companies[cid], p, b.now)]))
      else (Ok(cid), t)
  }

  /** Read the caller's membership and attach them as `client_admin` when they have none. */
  function MembershipStep(t: Tables, b: Backend, cid: Id, uid: Id): (r: (Option<Failure>, Tables))
    ensures r.1 == t.(members := r.1.members)
    ensures (cid, uid) in t.members ==> r.1 == t
    ensures r.0.Some? ==> r.1 == t
    ensures r.0.None? && (cid, uid) !in t.members ==> r.1.members == t.members[(cid, uid) := MemberRow("client_admin", b.now)]
  {
    if ReadMembership in b.faults then (Some(Opaque), t)
    else if (cid, uid) in t.members then (None, t)
    else if AttachMember in b.faults then (Some(Error(AttachMemberMessage)), t)
    else (None, t.(members := t.members[(cid, uid) := MemberRow("client_admin", b.now)]))
  }

  /** Whether the catalogue row `sid` is one of the selected keys. */
  predicate Selected(catalogue: map<Id, string>, sid: Id, keys: seq<string>) {
    sid in catalogue && catalogue[sid] in keys
  }

  /** The `company_services` upsert: a `selected` row for each catalogue service whose key is selected. */
  function LinkedServices(cs: map<(Id, Id), CompanyServiceRow>, catalogue: map<Id, string>, cid: Id, keys: seq<string>, now: Timestamp): map<(Id, Id), CompanyServiceRow> {
    var linked := set sid | sid in catalogue && catalogue[sid] in keys :: (cid, sid);
    map k | k in cs.Keys + linked :: if k.0 == cid && Selected(catalogue, k.1, keys) then CompanyServiceRow("selected", now, now) else cs[k]
  }

  /** Link the selected services to the company, when any are selected. */
  function ServicesStep(t: Tables, b: Backend, cid: Id, keys: seq<string>): (r: (Option<Failure>, Tables))
    ensures r.1 == t.(companyServices := r.1.companyServices)
    ensures r.0.None? ==>
      r.1.companyServices == (if |keys| == 0 then t.companyServices else LinkedServices(t.companyServices, t.services, cid, keys, b.now))
    ensures r.0.Some? ==> r.1 == t
  {
    if |keys| == 0 then (None, t)
    else if LoadCatalog in b.faults then (Some(Error(LoadCatalogMessage)), t)
    else if LinkServices in b.faults then (Some(Error(LinkServicesMessage)), t)
    else (None, t.(companyServices := LinkedServices(t.companyServices, t.services, cid, keys, b.now)))
  }

  /** Insert a new questionnaire draft, or reset the one the context names. */
  function QuestionnaireStep(t: Tables, b: Backend, ctx: DraftContext, cid: Id, uid: Id, keys: seq<string>): (r: (Result<Id, Failure>, Tables))
    ensures r.1 == t.(questionnaires := r.1.questionnaires)
    ensures Present(ctx.questionnaireId) ==> r.1.questionnaires.Keys == t.questionnaires.Keys
  {
    if !Present(ctx.questionnaireId) then
      if InsertQuestionnaire in b.faults || b.questionnaireIdDrawn in t.questionnaires then
        (Err(Error(CreateQuestionnaireMessage)), t)
      else
        var row := QuestionnaireRow(cid, 1, keys, "in_progress", uid, None, b.now, b.now);
        (Ok(b.questionnaireIdDrawn), t.(questionnaires := t.questionnaires[b.questionnaireIdDrawn := row]))
    else
      var qid := ctx.questionnaireId.value;
      if UpdateQuestionnaire in b.faults then (Err(Error(UpdateQuestionnaireMessage)), t)
      else if qid in t.questionnaires then
        var row := t.questionnaires[qid].(selectedServices := keys, status := "in_progress", updatedAt := b.now);
        (Ok(qid), t.(questionnaires := t.questionnaires[qid := row]))
      else (Ok(qid), t)
  }

  /**
   * `ensureDraftEntities` as a function of the tables before the call: its
   * outcome and the tables after it, given the service keys extracted from
   * the values (None where the extraction throws) and the normalized profile.
   */
  function DraftSpec(t: Tables, b: Backend, keys: Option<seq<string>>, p: Profile, uid: Id, ctx: DraftContext): (r: (Result<Draft, Failure>, Tables))
    ensures r.1.responses == t.responses && r.1.invites == t.invites && r.1.auditLogs == t.auditLogs
    ensures r.1.services == t.services
  {
    if keys.None? then (Err(Error(SelectedServicesTypeError)), t)
    else
      var c := CompanyStep(t, b, ctx, p);
      if c.0.Err? then (Err(c.0.error), c.1)
      else
        var m := MembershipStep(c.1, b, c.0.value, uid);
        if m.0.Some? then (Err(m.0.value), m.1)
        else
          var sv := ServicesStep(m.1, b, c.0.value, keys.value);
          if sv.0.Some? then (Err(sv.0.value), sv.1)
          else
            var q := QuestionnaireStep(sv.1, b, ctx, c.0.value, uid, keys.value);
            if q.0.Err? then (Err(q.0.error), q.1)
            else if c.0.value == "" then (Err(Error(MissingCompanyIdMessage)), q.1)
            else if q.0.value == "" then (Err(Error(MissingQuestionnaireIdMessage)), q.1)
            else (Ok(Draft(c.0.value, q.0.value, keys.value)), q.1)
  }

  /** A successful draft is the four steps, each succeeding, one after another. */
  lemma DraftSucceeded(t: Tables, b: Backend, keys: Option<seq<string>>, p: Profile, uid: Id, ctx: DraftContext)
    requires DraftSpec(t, b, keys, p, uid, ctx).0.Ok?
    ensures keys.Some?
    ensures var keys := keys.value;
      var c := CompanyStep(t, b, ctx, p);
      && c.0.Ok? && c.0.value != ""
      && var m := MembershipStep(c.1, b, c.0.value, uid);
      && m.0.None?
      && var sv := ServicesStep(m.1, b, c.0.value, keys);
      && sv.0.None?
      && var q := QuestionnaireStep(sv.1, b, ctx, c.0.value, uid, keys);
      && q.0.Ok? && q.0.value != ""
      && DraftSpec(t, b, Some(keys), p, uid, ctx) == (Ok(Draft(c.0.value, q.0.value, keys)), q.1)
  {
  }

  /** The company insert or update of `ensureDraftEntities`. */
  method WriteCompany(db: Database, b: Backend, ctx: DraftContext, p: Profile) returns (c: Result<Id, Failure>)
    modifies db
    ensures (c, db.State()) == CompanyStep(old(db.State()), b, ctx, p)
  {
    if !Present(ctx.companyId) {
      if p.name.None? {
        return Err(Error(MissingNameMessage));
      }
      if InsertCompany in b.faults || b.companyIdDrawn in db.companies {
        return Err(Error(CreateCompanyMessage));
      }
      db.companies := db.companies[b.companyIdDrawn :=
        CompanyRow(p.name.value, p.website, p.industry, p.businessType, p.country, p.timezone, b.now, b.now)];
      return Ok(b.companyIdDrawn);
    }
    var cid := ctx.companyId.value;
    if UpdateCompany in b.faults {
      return Err(Error(UpdateCompanyMessage));
    }
    if cid in db.companies {
      db.companies := db.companies[cid := UpdatedCompany(db.companies[cid], p, b.now)];
    }
    return Ok(cid);
  }

  /** The membership read and `client_admin` upsert of `ensureDraftEntities`. */
  method AttachMembership(db: Database, b: Backend, cid: Id, uid: Id) returns (failure: Option<Failure>)
    modifies db
    ensures (failure, db.State()) == MembershipStep(old(db.State()), b, cid, uid)
  {
    if ReadMembership in b.faults {
      return Some(Opaque);
    }
    if (cid, uid) !in db.members {
      if AttachMember in b.faults {
        return Some(Error(AttachMemberMessage));
      }
      db.members := db.members[(cid, uid) := MemberRow("client_admin", b.now)];
    }
    return None;
  }

  /** The catalogue read and `company_services` upsert of `ensureDraftEntities`. */
  method AttachServices(db: Database, b: Backend, cid: Id, keys: seq<string>) returns (failure: Option<Failure>)
    modifies db
    ensures (failure, db.State()) == ServicesStep(old(db.State()), b, cid, keys)
  {
    if |keys| > 0 {
      if LoadCatalog in b.faults {
        return Some(Error(LoadCatalogMessage));
      }
      if LinkServices in b.faults {
        return Some(Error(LinkServicesMessage));
      }
      db.companyServices := LinkedServices(db.companyServices, db.services, cid, keys, b.now);
    }
    return None;
  }

  /** The questionnaire insert or update of `ensureDraftEntities`. */
  method WriteQuestionnaire(db: Database, b: Backend, ctx: DraftContext, cid: Id, uid: Id, keys: seq<string>) returns (q: Result<Id, Failure>)
    modifies db
    ensures (q, db.State()) == QuestionnaireStep(old(db.State()), b, ctx, cid, uid, keys)
  {
    if !Present(ctx.questionnaireId) {
      if InsertQuestionnaire in b.faults || b.questionnaireIdDrawn in db.questionnaires {
        return Err(Error(CreateQuestionnaireMessage));
      }
      db.questionnaires := db.questionnaires[b.questionnaireIdDrawn :=
        QuestionnaireRow(cid, 1, keys, "in_progress", uid, None, b.now, b.now)];
      return Ok(b.questionnaireIdDrawn);
    }
    var qid := ctx.questionnaireId.value;
    if UpdateQuestionnaire in b.faults {
      return Err(Error(UpdateQuestionnaireMessage));
    }
    if qid in db.questionnaires {
      db.questionnaires := db.questionnaires[qid :=
        db.questionnaires[qid].(selectedServices := keys, status := "in_progress", updatedAt := b.now)];
    }
    return Ok(qid);
  }

  /** `ensureDraftEntities`: the company, membership, service links and questionnaire written one call after another. */
  method EnsureDraftEntities(db: Database, b: Backend, values: Values, uid: Id, ctx: DraftContext) returns (r: Result<Draft, Failure>)
    modifies db
    ensures (r, db.State()) == DraftSpec(old(db.State()), b, ExtractServiceKeys(values), ProfileOf(values), uid, ctx)
  {
    var keys := ExtractServiceKeys(values);
    if keys.None? {
      return Err(Error(SelectedServicesTypeError));
    }
    var c := WriteCompany(db, b, ctx, ProfileOf(values));
    if c.Err? {
      return Err(c.error);
    }
    var m := AttachMembership(db, b, c.value, uid);
    if m.Some? {
      return Err(m.value);
    }
    var s := AttachServices(db, b, c.value, keys.value);
    if s.Some? {
      return Err(s.value);
    }
    var q := WriteQuestionnaire(db, b, ctx, c.value, uid, keys.value);
    if q.Err? {
      return Err(q.error);
    }
    if c.value == "" {
      return Err(Error(MissingCompanyIdMessage));
    }
    if q.value == "" {
      return Err(Error(MissingQuestionnaireIdMessage));
    }
    return Ok(Draft(c.value, q.value, keys.value));
  }

  /** With no company yet and no usable company name, the draft fails before any table is written. */
  lemma MissingNameWritesNothing(t: Tables, b: Backend, keys: Option<seq<string>>, p: Profile, uid: Id, ctx: DraftContext)
    requires keys.Some?
    requires !Present(ctx.companyId) && p.name.None?
    ensures DraftSpec(t, b, keys, p, uid, ctx) == (Err(Error(MissingNameMessage)), t)
  {
  }

  /**
   * Updating an existing company: the name changes only to a non-blank
   * normalized name, while website, industry, business type, country and
   * timezone are always overwritten with their normalized value or null.
   */
  lemma CompanyUpdateOverwritesProfile(t: Tables, b: Backend, keys: Option<seq<string>>, p: Profile, uid: Id, ctx: DraftContext)
    requires Present(ctx.companyId) && ctx.companyId.value in t.companies
    requires DraftSpec(t, b, keys, p, uid, ctx).0.Ok?
    ensures var old_ := t.companies[ctx.companyId.value];
      var row := DraftSpec(t, b, keys, p, uid, ctx).1.companies[ctx.companyId.value];
      && row.name == (if p.name.Some? then p.name.value else old_.name)
      && row.website == p.website && row.industry == p.industry && row.businessType == p.businessType
      && row.country == p.country && row.timezone == p.timezone
      && row.createdAt == old_.createdAt && row.updatedAt == b.now
  {
    DraftSucceeded(t, b, keys, p, uid, ctx);
    var c := CompanyStep(t, b, ctx, p);
    var m := MembershipStep(c.1, b, c.0.value, uid);
    var sv := ServicesStep(m.1, b, c.0.value, keys.value);
    var q := QuestionnaireStep(sv.1, b, ctx, c.0.value, uid, keys.value);
    var cid := ctx.companyId.value;
    assert c.1.companies[cid] == UpdatedCompany(t.companies[cid], p, b.now);
    assert q.1.companies == c.1.companies;
  }

  /**
   * After a successful draft the caller is a member of the company: an
   * existing membership is left exactly as it was, and a missing one is
   * created with the `client_admin` role.
   */
  lemma MembershipAttachedOnlyWhenAbsent(t: Tables, b: Backend, keys: Option<seq<string>>, p: Profile, uid: Id, ctx: DraftContext)
    requires DraftSpec(t, b, keys, p, uid, ctx).0.Ok?
    ensures var r := DraftSpec(t, b, keys, p, uid, ctx);
      var key := (r.0.value.companyId, uid);
      && key in r.1.members
      && (key in t.members ==> r.1.members == t.members)
      && (key !in t.members ==> r.1.members == t.members[key := MemberRow("client_admin", b.now)])
  {
    DraftSucceeded(t, b, keys, p, uid, ctx);
    var c := CompanyStep(t, b, ctx, p);
    var m := MembershipStep(c.1, b, c.0.value, uid);
    var sv := ServicesStep(m.1, b, c.0.value, keys.value);
    var q := QuestionnaireStep(sv.1, b, ctx, c.0.value, uid, keys.value);
    assert c.1.members == t.members;
    assert q.1.members == m.1.members;
  }

  /**
   * A successful draft returns two non-empty ids. A new questionnaire is
   * version 1, `in_progress`, started by the caller and holds the selected
   * keys; an existing one gets the selected keys and is reset to
   * `in_progress`, everything else about it kept.
   */
  lemma QuestionnaireDraftState(t: Tables, b: Backend, keys: Option<seq<string>>, p: Profile, uid: Id, ctx: DraftContext)
    requires DraftSpec(t, b, keys, p, uid, ctx).0.Ok?
    ensures var r := DraftSpec(t, b, keys, p, uid, ctx);
      var d := r.0.value;
      && d.companyId != "" && d.questionnaireId != ""
      && d.serviceKeys == keys.value
      && (!Present(ctx.questionnaireId) ==>
            && d.questionnaireId !in t.questionnaires
            && r.1.questionnaires == t.questionnaires[d.questionnaireId :=
                 QuestionnaireRow(d.companyId, 1, d.serviceKeys, "in_progress", uid, None, b.now, b.now)])
      && (Present(ctx.questionnaireId) && d.questionnaireId in t.questionnaires ==>
            r.1.questionnaires == t.questionnaires[d.questionnaireId :=
              t.questionnaires[d.questionnaireId].(selectedServices := d.serviceKeys, status := "in_progress", updatedAt := b.now)])
      && (Present(ctx.questionnaireId) ==> d.questionnaireId == ctx.questionnaireId.value)
  {
    DraftSucceeded(t, b, keys, p, uid, ctx);
    var c := CompanyStep(t, b, ctx, p);
    var m := MembershipStep(c.1, b, c.0.value, uid);
    var sv := ServicesStep(m.1, b, c.0.value, keys.value);
    var q := QuestionnaireStep(sv.1, b, ctx, c.0.value, uid, keys.value);
    assert sv.1.questionnaires == t.questionnaires;
  }

  /**
   * After a successful draft every catalogue service whose key was selected
   * is linked to the company as `selected`; no other link changes.
   */
  lemma SelectedServicesLinked(t: Tables, b: Backend, keys: Option<seq<string>>, p: Profile, uid: Id, ctx: DraftContext)
    requires DraftSpec(t, b, keys, p, uid, ctx).0.Ok?
    ensures var r := DraftSpec(t, b, keys, p, uid, ctx);
      var d := r.0.value;
      && (forall sid :: Selected(t.services, sid, d.serviceKeys) ==>
            (d.companyId, sid) in r.1.companyServices &&
            r.1.companyServices[(d.companyId, sid)] == CompanyServiceRow("selected", b.now, b.now))
      && (forall k :: k in t.companyServices && !(k.0 == d.companyId && Selected(t.services, k.1, d.serviceKeys)) ==>
            k in r.1.companyServices && r.1.companyServices[k] == t.companyServices[k])
  {
    DraftSucceeded(t, b, keys, p, uid, ctx);
    var c := CompanyStep(t, b, ctx, p);
    var m := MembershipStep(c.1, b, c.0.value, uid);
    var sv := ServicesStep(m.1, b, c.0.value, keys.value);
    var q := QuestionnaireStep(sv.1, b, ctx, c.0.value, uid, keys.value);
    assert m.1.services == t.services && m.1.companyServices == t.companyServices;
    assert q.1.companyServices == sv.1.companyServices;
    if |keys.value| > 0 {
      LinkedServicesRows(t.companyServices, t.services, c.0.value, keys.value, b.now);
    }
  }

  /** The upsert gives every selected service a `selected` row and leaves every other row as it was. */
  lemma LinkedServicesRows(cs: map<(Id, Id), CompanyServiceRow>, catalogue: map<Id, string>, cid: Id, keys: seq<string>, now: Timestamp)
    ensures var r := LinkedServices(cs, catalogue, cid, keys, now);
      && (forall sid :: Selected(catalogue, sid, keys) ==>
            (cid, sid) in r && r[(cid, sid)] == CompanyServiceRow("selected", now, now))
      && (forall k :: k in cs && !(k.0 == cid && Selected(catalogue, k.1, keys)) ==> k in r && r[k] == cs[k])
  {
  }

  /**
   * A draft that names both ids, for a caller who is already a member,
   * creates no company, membership or questionnaire row: which is what a
   * repeated save sends.
   */
  lemma DraftWithContextCreatesNoRows(t: Tables, b: Backend, keys: Option<seq<string>>, p: Profile, uid: Id, ctx: DraftContext)
    requires Present(ctx.companyId) && Present(ctx.questionnaireId)
    requires (ctx.companyId.value, uid) in t.members
    ensures var r := DraftSpec(t, b, keys, p, uid, ctx);
      && r.1.companies.Keys == t.companies.Keys
      && r.1.members == t.members
      && r.1.questionnaires.Keys == t.questionnaires.Keys
  {
    if keys.Some? {
      var c := CompanyStep(t, b, ctx, p);
      assert c.1.companies.Keys == t.companies.Keys && c.1.members == t.members && c.1.questionnaires == t.questionnaires;
      if c.0.Ok? {
        var m := MembershipStep(c.1, b, c.0.value, uid);
        assert m.1 == c.1;
        if m.0.None? {
          var sv := ServicesStep(m.1, b, c.0.value, keys.value);
          if sv.0.None? {
            var q := QuestionnaireStep(sv.1, b, ctx, c.0.value, uid, keys.value);
            assert q.1.companies == c.1.companies && q.1.members == c.1.members;
            assert q.1.questionnaires.Keys == t.questionnaires.Keys;
          }
        }
      }
    }
  }

  // ---------------------------------------------------------------------------
  // saveIntakeSection

  datatype SaveStatus = SaveSuccess | SaveError

  /** `SaveSectionResult`. */
  datatype SaveSectionResult = SaveSectionResult(
    status: SaveStatus,
    message: Option<string>,
    companyId: Option<Id>,
    questionnaireId: Option<Id>)

  function SaveFailed(message: string): SaveSectionResult {
    SaveSectionResult(SaveError, Some(message), None, None)
  }

  const SaveFallbackMessage := "Unable to save progress for this section."
  const SavedMessage := "Progress saved."

  /** The message the `catch` block reports: an `Error`'s own, or the fallback. */
  function CaughtMessage(f: Failure): string {
    match f
    case Error(message) => message
    case Opaque => SaveFallbackMessage
  }

  /** The audit entry a successful save appends. */
  function SaveAudit(uid: Id, d: Draft, dbKey: string, now: Timestamp): AuditEntry {
    AuditEntry(uid, d.companyId, "update_response", "questionnaire", d.questionnaireId, map["section" := Str(dbKey)], now)
  }

  /** `intakeSchema.partial().safeParse(values)`. */
  function ParsePartial(sections: seq<FormSection>, values: Values, lib: Schema.Library): (r: Result<Values, Schema.Issue>)
    ensures r.Ok? ==> forall k :: k in r.value <==> k in Schema.KeysOf(Schema.AllFields(sections))
    ensures values == map[] ==> r.Ok?
  {
    Schema.ShapeOfWellFormed(sections);
    ParsedKeysAreFieldKeys(sections);
    Schema.Parse(Schema.ShapeOf(sections), values, lib, Schema.AsWritten, true)
  }

  /** The keys of the built schema are the keys of the form's fields. */
  lemma ParsedKeysAreFieldKeys(sections: seq<FormSection>)
    ensures forall k :: k in Schema.ShapeOf(sections).keys <==> k in Schema.KeysOf(Schema.AllFields(sections))
  {
    Schema.ShapeOfSections(sections);
    Schema.ShapeFieldsAreFieldKeys(Schema.AllFields(sections));
  }

  /**
   * `saveIntakeSection` as a function of the tables before the call and of
   * the partial parse of the submitted values: its result and the tables after it.
   */
  function SaveSpec(t: Tables, b: Backend, sections: seq<FormSection>, parsed: Result<Values, Schema.Issue>, user: Option<Id>,
                    sectionKey: string, ctx: DraftContext): (r: (SaveSectionResult, Tables))
    ensures r.1.invites == t.invites && r.1.services == t.services
    ensures r.0.status.SaveSuccess? ==>
      && parsed.Ok? && user.Some? && FindSection(sections, sectionKey).Some?
      && r.0.companyId.Some? && r.0.questionnaireId.Some?
  {
    if parsed.Err? then (SaveFailed(Schema.IssueMessage(parsed.error)), t)
    else if user.None? then (SaveFailed(SaveSignInMessage), t)
    else
      var section := FindSection(sections, sectionKey);
      if section.None? then (SaveFailed(UnknownSectionMessage), t)
      else
        var d := DraftSpec(t, b, ExtractServiceKeys(parsed.value), ProfileOf(parsed.value), user.value, ctx);
        if d.0.Err? then (SaveFailed(CaughtMessage(d.0.error)), d.1)
        else
          WriteSpec(d.1, b, d.0.value, user.value, DbSectionKey(sectionKey), Payload(section.value.fields, parsed.value))
  }

  /** Once the draft exists: upsert the section's row, then append the audit entry. */
  function WriteSpec(t: Tables, b: Backend, d: Draft, uid: Id, dbKey: string, payload: Values): (r: (SaveSectionResult, Tables))
    ensures r.1.invites == t.invites && r.1.services == t.services
    ensures r.0.status.SaveSuccess? ==> r.0.companyId == Some(d.companyId) && r.0.questionnaireId == Some(d.questionnaireId)
  {
    if UpsertResponse(dbKey) in b.faults then (SaveFailed(SaveFallbackMessage), t)
    else
      var t2 := t.(responses := t.responses[(d.questionnaireId, dbKey) := ResponseRow(payload, uid, b.now)]);
      var t3 := t2.(auditLogs := t2.auditLogs + [SaveAudit(uid, d, dbKey, b.now)]);
      (SaveSectionResult(SaveSuccess, Some(SavedMessage), Some(d.companyId), Some(d.questionnaireId)), t3)
  }

  /** `saveIntakeSection`: validate, check the session, find the section, write the draft, then the section's row and the audit entry. */
  method SaveIntakeSection(db: Database, b: Backend, sections: seq<FormSection>, lib: Schema.Library, user: Option<Id>,
                           sectionKey: string, values: Values, ctx: DraftContext) returns (r: SaveSectionResult)
    modifies db
    ensures (r, db.State()) == SaveSpec(old(db.State()), b, sections, ParsePartial(sections, values, lib), user, sectionKey, ctx)
  {
    var shape := Schema.BuildFormSchema(sections);
    Schema.ShapeOfWellFormed(sections);
    var parsed := Schema.Parse(shape, values, lib, Schema.AsWritten, true);
    if parsed.Err? {
      return SaveFailed(Schema.IssueMessage(parsed.error));
    }
    if user.None? {
      return SaveFailed(SaveSignInMessage);
    }
    var section := FindSection(sections, sectionKey);
    if section.None? {
      return SaveFailed(UnknownSectionMessage);
    }
    var draft := EnsureDraftEntities(db, b, parsed.value, user.value, ctx);
    if draft.Err? {
      return SaveFailed(CaughtMessage(draft.error));
    }
    var payload := ResponsePayloadOf(section.value.fields, parsed.value);
    r := WriteSection(db, b, draft.value, user.value, DbSectionKey(sectionKey), payload);
  }

  /** The section's upsert and audit insert of `saveIntakeSection`. */
  method WriteSection(db: Database, b: Backend, d: Draft, uid: Id, dbKey: string, payload: Values) returns (r: SaveSectionResult)
    modifies db
    ensures (r, db.State()) == WriteSpec(old(db.State()), b, d, uid, dbKey, payload)
  {
    if UpsertResponse(dbKey) in b.faults {
      return SaveFailed(SaveFallbackMessage);
    }
    db.responses := db.responses[(d.questionnaireId, dbKey) := ResponseRow(payload, uid, b.now)];
    db.auditLogs := db.auditLogs + [SaveAudit(uid, d, dbKey, b.now)];
    return SaveSectionResult(SaveSuccess, Some(SavedMessage), Some(d.companyId), Some(d.questionnaireId));
  }

  /**
   * Invalid data, then a missing session, then an unknown section key are
   * rejected in that order, each with its message and without any write.
   */
  lemma SaveRejectsBeforeWriting(t: Tables, b: Backend, sections: seq<FormSection>, parsed: Result<Values, Schema.Issue>,
                                 user: Option<Id>, sectionKey: string, ctx: DraftContext)
    ensures var r := SaveSpec(t, b, sections, parsed, user, sectionKey, ctx);
      && (parsed.Err? ==> r == (SaveFailed(Schema.IssueMessage(parsed.error)), t))
      && (parsed.Ok? && user.None? ==> r == (SaveFailed(SaveSignInMessage), t))
      && (parsed.Ok? && user.Some? && (forall i :: 0 <= i < |sections| ==> sections[i].key != sectionKey) ==>
            r == (SaveFailed(UnknownSectionMessage), t))
  {
  }

  /**
   * A successful save writes exactly one response row, keyed by the
   * questionnaire and the mapped section key, whose payload holds exactly
   * the section's declared field keys (missing values as null), and appends
   * one audit entry; the ids it returns are the draft's.
   */
  lemma SaveWritesOneResponse(t: Tables, b: Backend, sections: seq<FormSection>, parsed: Result<Values, Schema.Issue>,
                              user: Option<Id>, sectionKey: string, ctx: DraftContext)
    requires SaveSpec(t, b, sections, parsed, user, sectionKey, ctx).0.status == SaveSuccess
    ensures parsed.Ok? && user.Some? && FindSection(sections, sectionKey).Some?
    ensures var data := parsed.value;
      var d := DraftSpec(t, b, ExtractServiceKeys(data), ProfileOf(data), user.value, ctx);
      var r := SaveSpec(t, b, sections, parsed, user, sectionKey, ctx);
      var key := (d.0.value.questionnaireId, DbSectionKey(sectionKey));
      var fields := FindSection(sections, sectionKey).value.fields;
      && d.0.Ok?
      && r.0.companyId == Some(d.0.value.companyId) && r.0.questionnaireId == Some(d.0.value.questionnaireId)
      && r.1.responses.Keys == t.responses.Keys + {key}
      && (forall k :: k in t.responses && k != key ==> r.1.responses[k] == t.responses[k])
      && (forall f :: f in r.1.responses[key].responses <==> f in Schema.KeysOf(fields))
      && (forall f :: f in r.1.responses[key].responses ==> r.1.responses[key].responses[f] == OrNull(Lookup(data, f)))
      && |r.1.auditLogs| == |t.auditLogs| + 1
  {
    SaveSuccessWrites(t, b, sections, parsed, user, sectionKey, ctx);
    var data := parsed.value;
    var d := DraftSpec(t, b, ExtractServiceKeys(data), ProfileOf(data), user.value, ctx);
    WriteWritesOneResponse(d.1, b, d.0.value, user.value, DbSectionKey(sectionKey),
                           Payload(FindSection(sections, sectionKey).value.fields, data));
  }

  /** A successful save is the section write after a successful draft step. */
  lemma SaveSuccessWrites(t: Tables, b: Backend, sections: seq<FormSection>, parsed: Result<Values, Schema.Issue>,
                          user: Option<Id>, sectionKey: string, ctx: DraftContext)
    requires SaveSpec(t, b, sections, parsed, user, sectionKey, ctx).0.status == SaveSuccess
    ensures parsed.Ok? && user.Some? && FindSection(sections, sectionKey).Some?
    ensures var data := parsed.value;
      var d := DraftSpec(t, b, ExtractServiceKeys(data), ProfileOf(data), user.value, ctx);
      && d.0.Ok? && d.1.responses == t.responses && d.1.auditLogs == t.auditLogs
      && SaveSpec(t, b, sections, parsed, user, sectionKey, ctx)
         == WriteSpec(d.1, b, d.0.value, user.value, DbSectionKey(sectionKey), Payload(FindSection(sections, sectionKey).value.fields, data))
  {
  }

  /** A successful section write upserts exactly the one row, holding the payload, and appends one audit entry. */
  lemma WriteWritesOneResponse(t: Tables, b: Backend, d: Draft, uid: Id, dbKey: string, payload: Values)
    requires WriteSpec(t, b, d, uid, dbKey, payload).0.status == SaveSuccess
    ensures var r := WriteSpec(t, b, d, uid, dbKey, payload);
      var key := (d.questionnaireId, dbKey);
      && r.0.companyId == Some(d.companyId) && r.0.questionnaireId == Some(d.questionnaireId)
      && r.1.responses.Keys == t.responses.Keys + {key}
      && (forall k :: k in t.responses && k != key ==> r.1.responses[k] == t.responses[k])
      && r.1.responses[key].responses == payload
      && |r.1.auditLogs| == |t.auditLogs| + 1
  {
  }

  // ---------------------------------------------------------------------------
  // submitIntake

  /** What a successful `submitIntake` returns. */
  datatype Submitted = Submitted(companyId: Id, questionnaireId: Id)

  /**
   * The loop over the sections, as a function of the sections handled so
   * far: whether an upsert failed, and the tables after the rows written.
   */
  function StoreResponses(t: Tables, b: Backend, sections: seq<FormSection>, data: Values, qid: Id, uid: Id): (r: (bool, Tables))
    ensures r.1 == t.(responses := r.1.responses)
  {
    if sections == [] then (false, t)
    else
      var prev := StoreResponses(t, b, sections[..|sections| - 1], data, qid, uid);
      var section := sections[|sections| - 1];
      var key := DbSectionKey(section.key);
      if prev.0 || UpsertResponse(key) in b.faults then (true, prev.1)
      else (false, prev.1.(responses := prev.1.responses[(qid, key) := ResponseRow(Payload(section.fields, data), uid, b.now)]))
  }

  /** The first failing upsert aborts the loop: no later section's row is written. */
  lemma {:induction false} FirstFailureAborts(t: Tables, b: Backend, sections: seq<FormSection>, data: Values, qid: Id, uid: Id, i: nat, j: nat)
    requires i < j <= |sections|
    requires !StoreResponses(t, b, sections[..i], data, qid, uid).0
    requires UpsertResponse(DbSectionKey(sections[i].key)) in b.faults
    ensures StoreResponses(t, b, sections[..j], data, qid, uid) == (true, StoreResponses(t, b, sections[..i], data, qid, uid).1)
  {
    if j == i + 1 {
      assert sections[..j][..i] == sections[..i];
      assert sections[..j][i] == sections[i];
    } else {
      FirstFailureAborts(t, b, sections, data, qid, uid, i, j - 1);
      assert sections[..j][..j - 1] == sections[..j - 1];
      assert StoreResponses(t, b, sections[..j][..j - 1], data, qid, uid).0;
    }
  }

  /** The loop succeeds exactly when no section's upsert fails. */
  lemma {:induction false} StoreSucceedsIffNoFault(t: Tables, b: Backend, sections: seq<FormSection>, data: Values, qid: Id, uid: Id)
    ensures !StoreResponses(t, b, sections, data, qid, uid).0 <==>
      forall i :: 0 <= i < |sections| ==> UpsertResponse(DbSectionKey(sections[i].key)) !in b.faults
  {
    if sections != [] {
      StoreSucceedsIffNoFault(t, b, sections[..|sections| - 1], data, qid, uid);
    }
  }

  /**
   * When the loop succeeds, every section's row holds that section's payload
   * — for sections sharing a stored key, the last one's. Every other row is
   * untouched, whether the loop succeeds or not: `StoreKeepsOtherRows`.
   */
  lemma {:induction false} StoreWritesEverySection(t: Tables, b: Backend, sections: seq<FormSection>, data: Values, qid: Id, uid: Id, i: nat)
    requires !StoreResponses(t, b, sections, data, qid, uid).0
    requires i < |sections|
    requires forall j :: i < j < |sections| ==> DbSectionKey(sections[j].key) != DbSectionKey(sections[i].key)
    ensures var rs := StoreResponses(t, b, sections, data, qid, uid).1.responses;
      (qid, DbSectionKey(sections[i].key)) in rs &&
      rs[(qid, DbSectionKey(sections[i].key))] == ResponseRow(Payload(sections[i].fields, data), uid, b.now)
  {
    var n := |sections|;
    if i < n - 1 {
      StoreWritesEverySection(t, b, sections[..n - 1], data, qid, uid, i);
    }
  }

  /**
   * The loop writes only the rows of questionnaire `qid` under the stored
   * keys of the sections: any other row exists afterwards exactly when it
   * existed before, and holds what it held.
   */
  lemma {:induction false} StoreKeepsOtherRows(t: Tables, b: Backend, sections: seq<FormSection>, data: Values, qid: Id, uid: Id, k: (Id, string))
    requires k.0 != qid || forall i :: 0 <= i < |sections| ==> DbSectionKey(sections[i].key) != k.1
    ensures k in StoreResponses(t, b, sections, data, qid, uid).1.responses <==> k in t.responses
    ensures k in t.responses ==> StoreResponses(t, b, sections, data, qid, uid).1.responses[k] == t.responses[k]
  {
    if sections != [] {
      var n := |sections|;
      var init := sections[..n - 1];
      OtherRowOfPrefix(sections, qid, k);
      StoreKeepsOtherRows(t, b, init, data, qid, uid, k);
      var prev := StoreResponses(t, b, init, data, qid, uid).1.responses;
      var rs := StoreResponses(t, b, sections, data, qid, uid).1.responses;
      var written := (qid, DbSectionKey(sections[n - 1].key));
      assert rs == prev || (written in rs && rs == prev[written := rs[written]]);
    }
  }

  /** A row no section of `sections` stores to is stored to by no section of its prefix, and not by its last section. */
  lemma OtherRowOfPrefix(sections: seq<FormSection>, qid: Id, k: (Id, string))
    requires sections != []
    requires k.0 != qid || forall i :: 0 <= i < |sections| ==> DbSectionKey(sections[i].key) != k.1
    ensures var init := sections[..|sections| - 1];
      k.0 != qid || forall i :: 0 <= i < |init| ==> DbSectionKey(init[i].key) != k.1
    ensures k != (qid, DbSectionKey(sections[|sections| - 1].key))
  {
    assert forall i :: 0 <= i < |sections| - 1 ==> sections[..|sections| - 1][i] == sections[i];
  }

  /** The audit entry a successful submission appends. */
  function SubmitAudit(uid: Id, d: Draft, now: Timestamp): AuditEntry {
    AuditEntry(uid, d.companyId, SubmitAction, "questionnaire", d.questionnaireId,
      map[SelectedServicesField := List(d.serviceKeys), "submitted_at" := Str(now)], now)
  }

  /** The questionnaire after the final update: `submitted`, with `submitted_at` now. */
  function Finalised(t: Tables, qid: Id, now: Timestamp): (r: Tables)
    ensures r == t.(questionnaires := r.questionnaires)
    ensures qid in r.questionnaires <==> qid in t.questionnaires
    ensures qid in r.questionnaires ==> r.questionnaires[qid].status == "submitted" && r.questionnaires[qid].submittedAt == Some(now)
  {
    if qid in t.questionnaires then
      t.(questionnaires := t.questionnaires[qid := t.questionnaires[qid].(status := "submitted", submittedAt := Some(now), updatedAt := now)])
    else t
  }

  /** `intakeSchema.safeParse(values)`. */
  function ParseFull(sections: seq<FormSection>, values: Values, lib: Schema.Library): (r: Result<Values, Schema.Issue>)
    ensures r.Ok? ==> forall k :: k in r.value <==> k in Schema.KeysOf(Schema.AllFields(sections))
    ensures r.Ok? ==> ParsePartial(sections, values, lib).Ok?
  {
    Schema.ShapeOfWellFormed(sections);
    ParsedKeysAreFieldKeys(sections);
    Schema.Parse(Schema.ShapeOf(sections), values, lib, Schema.AsWritten, false)
  }

  /**
   * `submitIntake` as a function of the tables before the call and of the
   * full parse of the submitted values: its outcome and the tables after it.
   */
  function SubmitSpec(t: Tables, b: Backend, sections: seq<FormSection>, parsed: Result<Values, Schema.Issue>,
                      user: Option<Id>, ctx: DraftContext): (r: (Result<Submitted, Failure>, Tables))
    ensures r.1.invites == t.invites && r.1.services == t.services
    ensures r.0.Ok? ==> parsed.Ok? && user.Some?
    ensures parsed.Err? || user.None? ==> r.1 == t
  {
    if parsed.Err? then
      (Err(Error(InvalidSubmissionMessage)), t)
    else if user.None? then (Err(Error(SubmitSignInMessage)), t)
    else
      var d := DraftSpec(t, b, ExtractServiceKeys(parsed.value), ProfileOf(parsed.value), user.value, ctx);
      if d.0.Err? then (Err(d.0.error), d.1)
      else StoreAndFinalise(d.1, b, sections, parsed.value, user.value, d.0.value)
  }

  /** The part of `submitIntake` after the draft: store every section's row, finalise, and log. */
  function StoreAndFinalise(t: Tables, b: Backend, sections: seq<FormSection>, data: Values, uid: Id, d: Draft): (Result<Submitted, Failure>, Tables)
  {
    var stored := StoreResponses(t, b, sections, data, d.questionnaireId, uid);
    if stored.0 then (Err(Error(StoreResponsesMessage)), stored.1)
    else if FinaliseQuestionnaire in b.faults then (Err(Error(FinaliseMessage)), stored.1)
    else
      var t3 := Finalised(stored.1, d.questionnaireId, b.now);
      (Ok(Submitted(d.companyId, d.questionnaireId)), t3.(auditLogs := t3.auditLogs + [SubmitAudit(uid, d, b.now)]))
  }

  /** The loop of `submitIntake` over the sections: upsert each section's row, stopping at the first failure. */
  method StoreAllResponses(db: Database, b: Backend, sections: seq<FormSection>, data: Values, qid: Id, uid: Id) returns (failed: bool)
    modifies db
    ensures (failed, db.State()) == StoreResponses(old(db.State()), b, sections, data, qid, uid)
  {
    ghost var t := db.State();
    for i := 0 to |sections|
      invariant StoreResponses(t, b, sections[..i], data, qid, uid) == (false, db.State())
    {
      assert sections[..i + 1][..i] == sections[..i];
      var payload := ResponsePayloadOf(sections[i].fields, data);
      var key := DbSectionKey(sections[i].key);
      if UpsertResponse(key) in b.faults {
        FirstFailureAborts(t, b, sections, data, qid, uid, i, |sections|);
        assert sections[..|sections|] == sections;
        return true;
      }
      db.responses := db.responses[(qid, key) := ResponseRow(payload, uid, b.now)];
    }
    assert sections[..|sections|] == sections;
    return false;
  }

  /** The final questionnaire update of `submitIntake`. */
  method MarkSubmitted(db: Database, qid: Id, now: Timestamp)
    modifies db
    ensures db.State() == Finalised(old(db.State()), qid, now)
  {
    if qid in db.questionnaires {
      db.questionnaires := db.questionnaires[qid :=
        db.questionnaires[qid].(status := "submitted", submittedAt := Some(now), updatedAt := now)];
    }
  }

  /** `submitIntake`: validate, check the session, write the draft, store every section's row, then finalise. */
  method SubmitIntake(db: Database, b: Backend, sections: seq<FormSection>, lib: Schema.Library, user: Option<Id>,
                      values: Values, ctx: DraftContext) returns (r: Result<Submitted, Failure>)
    modifies db
    ensures (r, db.State()) == SubmitSpec(old(db.State()), b, sections, ParseFull(sections, values, lib), user, ctx)
  {
    var shape := Schema.BuildFormSchema(sections);
    Schema.ShapeOfWellFormed(sections);
    var parsed := Schema.Parse(shape, values, lib, Schema.AsWritten, false);
    if parsed.Err? {
      return Err(Error(InvalidSubmissionMessage));
    }
    if user.None? {
      return Err(Error(SubmitSignInMessage));
    }
    var draft := EnsureDraftEntities(db, b, parsed.value, user.value, ctx);
    if draft.Err? {
      return Err(draft.error);
    }
    r := StoreAndFinaliseDraft(db, b, sections, parsed.value, user.value, draft.value);
  }

  /** The part of `submitIntake` after the draft. */
  method StoreAndFinaliseDraft(db: Database, b: Backend, sections: seq<FormSection>, data: Values, uid: Id, d: Draft)
    returns (r: Result<Submitted, Failure>)
    modifies db
    ensures (r, db.State()) == StoreAndFinalise(old(db.State()), b, sections, data, uid, d)
  {
    var failed := StoreAllResponses(db, b, sections, data, d.questionnaireId, uid);
    if failed {
      return Err(Error(StoreResponsesMessage));
    }
    if FinaliseQuestionnaire in b.faults {
      return Err(Error(FinaliseMessage));
    }
    MarkSubmitted(db, d.questionnaireId, b.now);
    db.auditLogs := db.auditLogs + [SubmitAudit(uid, d, b.now)];
    return Ok(Submitted(d.companyId, d.questionnaireId));
  }

  /**
   * A successful submission wrote every section's row before finalising, and
   * leaves the questionnaire `submitted` with `submitted_at` set to now.
   */
  lemma SubmitFinalises(t: Tables, b: Backend, sections: seq<FormSection>, parsed: Result<Values, Schema.Issue>,
                        user: Option<Id>, ctx: DraftContext)
    requires SubmitSpec(t, b, sections, parsed, user, ctx).0.Ok?
    ensures var r := SubmitSpec(t, b, sections, parsed, user, ctx);
      var qid := r.0.value.questionnaireId;
      && (forall i :: 0 <= i < |sections| ==> UpsertResponse(DbSectionKey(sections[i].key)) !in b.faults)
      && (qid in r.1.questionnaires ==>
            r.1.questionnaires[qid].status == "submitted" && r.1.questionnaires[qid].submittedAt == Some(b.now))
      && r.1.auditLogs[|r.1.auditLogs| - 1].action == SubmitAction
  {
    var data := parsed.value;
    var d := DraftSpec(t, b, ExtractServiceKeys(data), ProfileOf(data), user.value, ctx);
    StoreSucceedsIffNoFault(d.1, b, sections, data, d.0.value.questionnaireId, user.value);
  }
}
