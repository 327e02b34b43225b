# Client onboarding portal — intake, invites and company views

This project models the core of a client-onboarding web portal. Signed-in
clients fill a multi-section intake questionnaire. The wizard shows only the
sections that match the selected services, and it saves one section at a
time. The server actions `saveIntakeSection` and `submitIntake` resolve a
draft first: they create or update the company, the caller's membership, the
service links and the questionnaire header. Then they store each section's
responses and append audit entries. Invite links attach a user to a company.
The agency pages project companies into cards, table rows and a detail view,
and they format statuses, dates and audit actions for display. A maintenance
script reads the local `.env.local` file and refuses to run without the database
URL and the service-role key.

The backend is a set of in-memory tables, `Tables.Tables`. The server actions
change them in place through the `Tables.Database` class. Each server action
is a method proved equal to a specification function of the tables before
the call: `(result, db.State()) == Spec(old(db.State()), ...)`. Lemmas about
those functions then state what the source promises. Failures of individual
backend calls are a parameter, `Backend.faults`, and so are the clock
(`Backend.now`) and the ids the database generates. The validation library's
email, URL and number parsing is a parameter, `Schema.Library`. Date parsing
and locale formatting are a parameter, `Dates.DateLocale`. The onboarding
section catalogue is a parameter too: a `seq<FormSection>`.

Validation has two rule sets, `Schema.Rules`. `AsWritten` is `fieldToSchema`
exactly as the source writes it, and the server actions and the wizard
validate with it. `Corrected` is the rule the source evidently intends (see
"## Findings"); the lemmas about the renderer's untouched defaults are stated
against both. The wizard's form values include those defaults: each render
of a step puts the default of every field of the current section whose value
is still undefined into the form (`Wizard.Rendered`), so the wizard validates,
saves and submits "", [] or false for a field the user never touched.

Modules, one per source file:

- `Services`: `lib/constants/services.ts`.
- `Forms` and `Schema`: `types/forms.ts` and `lib/forms/schema.ts`.
- `FieldRenderer`: `components/forms/field-renderer.tsx`.
- `Intake`: `app/app/intake/actions.ts`.
- `Invites`: `lib/data/invites.ts`.
- `Wizard`: `app/app/intake/intake-wizard.tsx`.
- `Companies`: `lib/data/companies.ts`.
- `ActivityFeed`, `HomePage` and `CompaniesPage`: the three pages' formatters.
- `VerifyDatabase`: `scripts/verify-database.ts`.

Supporting modules:

- `Text`: `trim`, `split`, `join`, `replace` and ASCII case mapping.
- `Collections`: first index and `Array.from(new Set(...))`.
- `Dates`: `String(n)` and the locale parameter.
- `Tables`: the rows and the database.
- `Wrappers`: `Option` and `Result`.

## Model

| member | source | states |
|---|---|---|
| Services.CatalogueDistinct | onboarding-app/src/lib/constants/services.ts:1-10 | no display name and no service key occurs twice in the catalogue |
| Services.CatalogueNonEmpty | onboarding-app/src/lib/constants/services.ts:1-10 | every display name and every key of the catalogue is non-empty |
| Services.FromEntriesHas | onboarding-app/src/lib/constants/services.ts:12-14 | `Object.fromEntries` maps an entry's key to that entry's value when no later entry repeats the key |
| Services.FromEntriesFrom | onboarding-app/src/lib/constants/services.ts:12-14 | every key of an object built by `Object.fromEntries` comes from an entry, with that entry's value |
| Services.Swapped | onboarding-app/src/lib/constants/services.ts:13 | the swapped entries have the same length, each pair reversed |
| Services.DisplayToKeyEntries | onboarding-app/src/lib/constants/services.ts:1-10 | DISPLAY_SERVICE_TO_KEY holds exactly the catalogue's pairs, both directions |
| Services.KeyToDisplayEntries | onboarding-app/src/lib/constants/services.ts:12-14 | SERVICE_KEY_TO_DISPLAY holds exactly the reversed catalogue pairs, both directions |
| Services.ServiceKeys | onboarding-app/src/lib/constants/services.ts:16 | SERVICE_KEYS is the catalogue's keys in declaration order |
| Services.KeyNonEmpty | onboarding-app/src/lib/constants/services.ts:1-10 | no display name maps to an empty key |
| Services.DisplayNameNonEmpty | onboarding-app/src/lib/constants/services.ts:1-10 | no display name is empty |
| Services.ValueIsKey | onboarding-app/src/lib/constants/services.ts:1-16 | every value of DISPLAY_SERVICE_TO_KEY is in SERVICE_KEYS and in SERVICE_KEY_TO_DISPLAY |
| Services.DisplayToKeyInjective | onboarding-app/src/lib/constants/services.ts:1-10 | two different display names never share a key |
| Services.DisplayRoundTrip | onboarding-app/src/lib/constants/services.ts:12-14 | `SERVICE_KEY_TO_DISPLAY[DISPLAY_SERVICE_TO_KEY[d]] == d` for every display name |
| Services.KeyRoundTrip | onboarding-app/src/lib/constants/services.ts:12-16 | `DISPLAY_SERVICE_TO_KEY[SERVICE_KEY_TO_DISPLAY[k]] == k` for every key of SERVICE_KEYS |
| Services.ServiceKeysExact | onboarding-app/src/lib/constants/services.ts:12-16 | SERVICE_KEYS has no duplicate, and a key is in it iff SERVICE_KEY_TO_DISPLAY knows it |
| Forms.Lookup | onboarding-app/src/types/forms.ts:1-37 | a key the form values lack reads as undefined; a present key reads as its value |
| Forms.OrNull | onboarding-app/src/app/app/intake/actions.ts:286-287 | `value ?? null`: never undefined; undefined and null become null, and any other value is kept |
| Schema.TextFieldRule | onboarding-app/src/lib/forms/schema.ts:25-29 | text/textarea accept a string unchanged, except "" when required (with `<label> is required`); absence only when optional |
| Schema.FormatFieldRule | onboarding-app/src/lib/forms/schema.ts:9-16 | an optional email/url accepts absence; a non-blank string is accepted iff it passes the format check, otherwise it is rejected with the format message |
| Schema.NumberFieldRule | onboarding-app/src/lib/forms/schema.ts:17-24 | a blank number is absent (required: the required message); a required number rejects absence and yields a number; a coercible value becomes that number |
| Schema.ChoiceFieldRule | onboarding-app/src/lib/forms/schema.ts:30-34 | a select/radio string is accepted iff it is an option, otherwise an invalid-enum issue; absence iff optional |
| Schema.ListFieldRule | onboarding-app/src/lib/forms/schema.ts:35-49 | multiselect/checkbox-group default a missing value to [], reject [] when required, and keep a list unchanged |
| Schema.CheckboxFieldRule | onboarding-app/src/lib/forms/schema.ts:50-57 | a required checkbox accepts only true (else the required message); an optional one accepts any boolean or absence |
| Schema.PartialAcceptsAbsence | onboarding-app/src/app/app/intake/actions.ts:246 | under `.partial()` every field accepts a missing value, under either rule set |
| Schema.BlankNumberAsWritten | onboarding-app/src/lib/forms/schema.ts:17-24 | as written, "" coerces to 0, so every number field, required or not, accepts it as 0 |
| Schema.BlankNumberRule | onboarding-app/src/lib/forms/schema.ts:18-20 | the union of `coerce.number()` and `string().length(0)` maps "" to 0 |
| Schema.BlankCoercesToZero | onboarding-app/src/lib/forms/schema.ts:19 | `Number("")` is 0 |
| Schema.BlankOptionalChoiceAsWritten | onboarding-app/src/lib/forms/schema.ts:9-16 | as written, an optional email, url, select or radio field rejects "" |
| Schema.KeysOf | onboarding-app/src/lib/forms/schema.ts:66-70 | one key per field, in order |
| Schema.ShapeFieldsAreFieldKeys | onboarding-app/src/lib/forms/schema.ts:63-73 | the built shape has an entry for exactly the fields' keys |
| Schema.ShapeKeysAreFirstOccurrences | onboarding-app/src/lib/forms/schema.ts:63-73 | the shape's key order is the order in which the keys first occur |
| Schema.ShapeLastFieldWins | onboarding-app/src/lib/forms/schema.ts:66-70 | a key validates with the last field declared under it |
| Schema.BuildFormSchema | onboarding-app/src/lib/forms/schema.ts:63-73 | the nested loops assign every field of every section, giving the shape `ShapeOf(sections)` |
| Schema.ShapeOfSections | onboarding-app/src/lib/forms/schema.ts:63-73 | the schema's keys are distinct, are the first occurrences of all field keys, and each has a rule |
| Schema.ParseKeys | onboarding-app/src/lib/forms/schema.ts:72 | for any field rule, an object parse succeeds iff every key's value passes the rule; it then holds exactly the shape's keys, each with its parsed value |
| Schema.ParseFieldAsWritten | onboarding-app/src/lib/forms/schema.ts:5-61 | `fieldToSchema(field)` as written: a missing value passes exactly when the field is optional; an accepted value is the input itself, except that a number field may coerce it and a missing list defaults to [] |
| Schema.ParseField | onboarding-app/src/lib/forms/schema.ts:5-61 | the corrected rule agrees with the rule as written on every value but the blank string; a missing value passes exactly when the field is optional |
| Schema.Parse | onboarding-app/src/lib/forms/schema.ts:63-73 | the object parse succeeds exactly when every key of the schema passes its rule, and then holds exactly the schema's keys, each with the value its rule produced |
| Schema.ParseKeysFirstIssue | onboarding-app/src/lib/forms/schema.ts:72 | a failed parse reports the issue of the first failing key in shape order |
| Schema.ShapeOfWellFormed | onboarding-app/src/lib/forms/schema.ts:63-73 | every key of a built schema has a rule |
| FieldRenderer.DefaultValue | onboarding-app/src/components/forms/field-renderer.tsx:39-45 | false iff checkbox, [] iff multiselect or checkbox-group, "" iff any other kind |
| FieldRenderer.WithDefaults | onboarding-app/src/components/forms/field-renderer.tsx:31-45 | mounting the fields' controllers: every field key ends up with a value; a key still undefined gets the default of the first field with that key; defined values and keys of no field are kept; only undefined values change, and only to a default |
| FieldRenderer.WithDefaultsIdempotent | onboarding-app/src/components/forms/field-renderer.tsx:31-45 | mounting the same controllers again changes nothing |
| FieldRenderer.DefaultsOfRegistered | onboarding-app/src/components/forms/field-renderer.tsx:31-45 | when every field already holds a value, mounting leaves the values as they are |
| FieldRenderer.RequiredRule | onboarding-app/src/components/forms/field-renderer.tsx:34-38 | a rule exists iff the field is required, with message `<label> is required` |
| FieldRenderer.IsChecked | onboarding-app/src/components/forms/field-renderer.tsx:93-95 | an option is checked iff the value is a list containing it |
| FieldRenderer.RemoveAll | onboarding-app/src/components/forms/field-renderer.tsx:113-118 | the filtered list lacks the option and has only elements of the original |
| FieldRenderer.RemoveAllKeepsOthers | onboarding-app/src/components/forms/field-renderer.tsx:113-118 | every other value keeps its number of occurrences |
| FieldRenderer.RemoveAllAppend | onboarding-app/src/components/forms/field-renderer.tsx:113-118 | filtering distributes over concatenation, so kept elements stay in order |
| FieldRenderer.RemoveAllAbsent | onboarding-app/src/components/forms/field-renderer.tsx:113-118 | filtering out an option that is not there changes nothing |
| FieldRenderer.Check | onboarding-app/src/components/forms/field-renderer.tsx:106-112 | checking appends the option after the current items (a non-list counts as []) |
| FieldRenderer.Uncheck | onboarding-app/src/components/forms/field-renderer.tsx:113-120 | unchecking removes every occurrence, leaving the option unchecked |
| FieldRenderer.Toggle | onboarding-app/src/components/forms/field-renderer.tsx:105-120 | after the handler the option is checked iff the box was checked |
| FieldRenderer.ToggleRoundTrip | onboarding-app/src/components/forms/field-renderer.tsx:105-120 | checking then unchecking an unchecked option restores the list |
| FieldRenderer.UncheckKeepsOthers | onboarding-app/src/components/forms/field-renderer.tsx:113-120 | unchecking keeps the other options in their order |
| FieldRenderer.CheckboxValue | onboarding-app/src/components/forms/field-renderer.tsx:136-139 | a single checkbox's value is exactly the checked boolean |
| FieldRenderer.CheckboxValueValidates | onboarding-app/src/components/forms/field-renderer.tsx:136-139 | the checkbox value passes its rule iff checked or optional |
| FieldRenderer.OptionalFieldAcceptsDefault | onboarding-app/src/components/forms/field-renderer.tsx:39-45 | the corrected rules accept every optional field's untouched value |
| FieldRenderer.RequiredFieldRejectsDefault | onboarding-app/src/components/forms/field-renderer.tsx:34-45 | the corrected rules reject every required field's untouched value, with the renderer's required message except for format and choice kinds |
| FieldRenderer.DefaultsAsWritten | onboarding-app/src/components/forms/field-renderer.tsx:39-45 | as written, an untouched optional website is rejected and an untouched required number is accepted as 0 |
| Intake.NormalizeNullable | onboarding-app/src/app/app/intake/actions.ts:38-42 | a value iff a string whose trim is non-empty, and then that trimmed string |
| Intake.NormalizeNullableIdempotent | onboarding-app/src/app/app/intake/actions.ts:38-42 | normalizing a normalized string changes nothing |
| Intake.NonEmpty | onboarding-app/src/app/app/intake/actions.ts:46 | `filter(Boolean)` keeps exactly the non-empty strings |
| Intake.KnownKeysAreServiceKeys | onboarding-app/src/app/app/intake/actions.ts:51-53 | every mapped key is a catalogue service key |
| Intake.ExtractedKeysInFirstOccurrenceOrder | onboarding-app/src/app/app/intake/actions.ts:48-54 | the extracted keys are distinct and in first-occurrence order |
| Intake.ExtractedKeysAreCatalogueKeys | onboarding-app/src/app/app/intake/actions.ts:44-57 | every extracted key is a catalogue service key |
| Intake.ExtractServiceKeys | onboarding-app/src/app/app/intake/actions.ts:44-57 | no keys when `selected_services` is missing; the extraction throws exactly when it is present, non-null and not a list; otherwise the keys are distinct |
| Intake.ProfileOf | onboarding-app/src/app/app/intake/actions.ts:72-78 | the name is present exactly when `company_name` is a string that is not blank; every field is null or already normalized |
| Intake.ParsePartial | onboarding-app/src/app/app/intake/actions.ts:246-252 | `intakeSchema.partial()` with the rules as written: the parsed values hold exactly the form's field keys, and an empty form always passes |
| Intake.ParseFull | onboarding-app/src/app/app/intake/actions.ts:340-345 | `intakeSchema` with the rules as written: the parsed values hold exactly the form's field keys, and whatever passes the full parse passes the partial one |
| Intake.SaveSpec | onboarding-app/src/app/app/intake/actions.ts:237-334 | a save never touches invites or the service catalogue, and succeeds only with valid values, a session and a known section, returning both ids |
| Intake.WriteSpec | onboarding-app/src/app/app/intake/actions.ts:290-314 | the section write touches neither invites nor the catalogue, and on success returns the draft's two ids |
| Intake.SubmitSpec | onboarding-app/src/app/app/intake/actions.ts:336-421 | a submission never touches invites or the catalogue; invalid values or no session change nothing; success needs both |
| Intake.KnownDisplayNameKept | onboarding-app/src/app/app/intake/actions.ts:46 | a known display name survives `filter(Boolean)` |
| Intake.KnownDisplayNameMapped | onboarding-app/src/app/app/intake/actions.ts:51-53 | a known display name contributes its key |
| Intake.KnownDisplayNameDeduped | onboarding-app/src/app/app/intake/actions.ts:48-54 | a known display name's key survives de-duplication |
| Intake.ExtractFromList | onboarding-app/src/app/app/intake/actions.ts:44-57 | for a list value, the keys are the de-duplicated keys of its known non-empty names |
| Intake.KnownDisplayNameIsExtracted | onboarding-app/src/app/app/intake/actions.ts:44-57 | every selected known display name's key is extracted |
| Intake.DbSectionKeyRenamesOnlyCompany | onboarding-app/src/app/app/intake/actions.ts:15-24 | only "company" is renamed (to "business"), so "company" and "business" share a row |
| Intake.Payload | onboarding-app/src/app/app/intake/actions.ts:284-288 | the payload has exactly the section's field keys, each the parsed value or null |
| Intake.ResponsePayloadOf | onboarding-app/src/app/app/intake/actions.ts:284-288 | the loop builds exactly `Payload(fields, data)` |
| Intake.FindSection | onboarding-app/src/app/app/intake/actions.ts:262-271 | the first section with the key, or none iff no section has it |
| Intake.CompanyStep | onboarding-app/src/app/app/intake/actions.ts:83-128 | only companies change, and a failure changes nothing; without a company id the insert succeeds exactly when a name is given and the insert does not fail, and it adds the row (profile fields, both timestamps `now`) under the drawn id; with one, the update succeeds unless it fails, returns the context's id and rewrites that row, if it exists, with the profile |
| Intake.MembershipStep | onboarding-app/src/app/app/intake/actions.ts:130-157 | only memberships change; nothing changes for an existing member or on failure; otherwise the caller is attached as `client_admin` |
| Intake.ServicesStep | onboarding-app/src/app/app/intake/actions.ts:159-185 | only company service links change; a failed step changes nothing; otherwise no selected key leaves the links as they were, and any selection upserts them with `LinkedServices` |
| Intake.QuestionnaireStep | onboarding-app/src/app/app/intake/actions.ts:187-220 | only questionnaires change; an update keeps their key set |
| Intake.DraftSpec | onboarding-app/src/app/app/intake/actions.ts:59-235 | the draft never touches responses, invites, audit entries or the service catalogue |
| Intake.DraftSucceeded | onboarding-app/src/app/app/intake/actions.ts:59-235 | a successful draft is the four steps, each succeeding, in order |
| Intake.WriteCompany | onboarding-app/src/app/app/intake/actions.ts:83-128 | the company insert or update is `CompanyStep` |
| Intake.AttachMembership | onboarding-app/src/app/app/intake/actions.ts:130-157 | the membership read and upsert is `MembershipStep` |
| Intake.AttachServices | onboarding-app/src/app/app/intake/actions.ts:159-185 | the catalogue read and link upsert is `ServicesStep` |
| Intake.WriteQuestionnaire | onboarding-app/src/app/app/intake/actions.ts:187-220 | the questionnaire insert or update is `QuestionnaireStep` |
| Intake.EnsureDraftEntities | onboarding-app/src/app/app/intake/actions.ts:59-235 | the four writes in sequence give `DraftSpec` |
| Intake.MissingNameWritesNothing | onboarding-app/src/app/app/intake/actions.ts:83-86 | a new company without a usable name fails before any write |
| Intake.CompanyUpdateOverwritesProfile | onboarding-app/src/app/app/intake/actions.ts:108-128 | an update changes the name only to a non-blank one and always overwrites the other profile fields |
| Intake.MembershipAttachedOnlyWhenAbsent | onboarding-app/src/app/app/intake/actions.ts:130-157 | afterwards the caller is a member; an existing row is kept; a missing one is created as `client_admin` |
| Intake.QuestionnaireDraftState | onboarding-app/src/app/app/intake/actions.ts:187-228 | non-empty ids; a new questionnaire is version 1 and in progress; an existing one is reset to in progress with the selected keys |
| Intake.SelectedServicesLinked | onboarding-app/src/app/app/intake/actions.ts:159-185 | every selected catalogue service is linked as `selected`; no other link changes |
| Intake.LinkedServicesRows | onboarding-app/src/app/app/intake/actions.ts:169-181 | the upsert writes a `selected` row per selected service and keeps every other row |
| Intake.DraftWithContextCreatesNoRows | onboarding-app/src/app/app/intake/actions.ts:59-235 | a draft naming both ids, for an existing member, creates no company, membership or questionnaire row |
| Intake.SaveIntakeSection | onboarding-app/src/app/app/intake/actions.ts:237-334 | validate with the rules as written, check the session, find the section, draft, then write: equals `SaveSpec` |
| Intake.WriteSection | onboarding-app/src/app/app/intake/actions.ts:290-324 | the section upsert and audit append equal `WriteSpec` |
| Intake.SaveRejectsBeforeWriting | onboarding-app/src/app/app/intake/actions.ts:246-271 | invalid data, then no session, then an unknown section fail in that order, each with its message and no write |
| Intake.SaveWritesOneResponse | onboarding-app/src/app/app/intake/actions.ts:282-324 | a successful save adds or overwrites exactly the one row under the mapped section key, holds exactly the section's keys (null when missing), logs once, and returns the draft ids |
| Intake.SaveSuccessWrites | onboarding-app/src/app/app/intake/actions.ts:237-324 | a successful save is the section write after a successful draft |
| Intake.WriteWritesOneResponse | onboarding-app/src/app/app/intake/actions.ts:290-324 | a successful write touches one response row and appends one audit entry |
| Intake.StoreResponses | onboarding-app/src/app/app/intake/actions.ts:361-384 | the section loop changes only responses |
| Intake.FirstFailureAborts | onboarding-app/src/app/app/intake/actions.ts:361-384 | after the first failing upsert no later section is written |
| Intake.StoreSucceedsIffNoFault | onboarding-app/src/app/app/intake/actions.ts:361-384 | the loop succeeds iff no section's upsert fails |
| Intake.StoreWritesEverySection | onboarding-app/src/app/app/intake/actions.ts:361-384 | on success each section's row holds its payload (the last section wins a shared key) |
| Intake.StoreKeepsOtherRows | onboarding-app/src/app/app/intake/actions.ts:361-384 | success or not, a row of another questionnaire, or under a key no section stores to, exists afterwards iff it existed before, and holds what it held |
| Intake.Finalised | onboarding-app/src/app/app/intake/actions.ts:386-397 | only the questionnaire changes, to `submitted` with `submitted_at` now |
| Intake.StoreAllResponses | onboarding-app/src/app/app/intake/actions.ts:361-384 | the loop equals `StoreResponses` |
| Intake.MarkSubmitted | onboarding-app/src/app/app/intake/actions.ts:386-397 | the final update equals `Finalised` |
| Intake.SubmitIntake | onboarding-app/src/app/app/intake/actions.ts:336-421 | validate with the rules as written, check the session, draft, store and finalise: equals `SubmitSpec` |
| Intake.StoreAndFinaliseDraft | onboarding-app/src/app/app/intake/actions.ts:358-420 | the part after the draft equals `StoreAndFinalise` |
| Intake.SubmitFinalises | onboarding-app/src/app/app/intake/actions.ts:361-420 | success implies every upsert succeeded, the questionnaire is submitted now, and the last audit entry is the submission |
| Invites.TokenMatches | onboarding-app/src/lib/data/invites.ts:61-69 | exactly the invites carrying the token |
| Invites.Project | onboarding-app/src/lib/data/invites.ts:40-47 | the metadata copies the invite's fields and its company's name |
| Invites.JoinedMatches | onboarding-app/src/lib/data/invites.ts:26-38 | the invites with the token whose company exists |
| Invites.GetInviteByToken | onboarding-app/src/lib/data/invites.ts:12-48 | null for an empty token or no joined match; the unique joined invite, projected, whenever exactly one matches; a thrown value exactly when the token is non-empty and the read fails or several invites match |
| Invites.InvitedMember | onboarding-app/src/lib/data/invites.ts:90-104 | the member gets the invite's role, `client_member` when it has none |
| Invites.AcceptInviteByToken | onboarding-app/src/lib/data/invites.ts:50-128 | the accept workflow equals `AcceptSpec` |
| Invites.AcceptSpec | onboarding-app/src/lib/data/invites.ts:50-128 | acceptance changes only memberships, invites and audit entries; it succeeds only when the read works and exactly one invite carries the token, and then returns that invite's company |
| Invites.AcceptOfInvite | onboarding-app/src/lib/data/invites.ts:61-73 | with one invite for the token, acceptance proceeds with that invite |
| Invites.UnknownTokenWritesNothing | onboarding-app/src/lib/data/invites.ts:71-73 | an unknown token fails with the invalid-link message and writes nothing |
| Invites.AcceptedInviteIsNoOp | onboarding-app/src/lib/data/invites.ts:75-77 | an accepted invite returns its company and changes no table |
| Invites.EmailGate | onboarding-app/src/lib/data/invites.ts:79-86 | a case-insensitive mismatch fails with the invite's address and writes nothing; a match or empty address goes through |
| Invites.AcceptAttachesMember | onboarding-app/src/lib/data/invites.ts:90-127 | success upserts the membership with the role, marks the invite, logs once, returns the company, and changes no other table |
| Invites.MarkingKeepsTokens | onboarding-app/src/lib/data/invites.ts:106-113 | marking an invite accepted keeps every token's matches |
| Invites.SecondAcceptanceChangesNothing | onboarding-app/src/lib/data/invites.ts:75-77 | after a successful acceptance, accepting again returns the same company and changes nothing |
| Invites.FailureBeforeUpsertWritesNothing | onboarding-app/src/lib/data/invites.ts:61-104 | every failure before the mark step leaves all tables unchanged |
| Wizard.SelectedServices | onboarding-app/src/app/app/intake/intake-wizard.tsx:48-51 | the selected services when the form holds a list, else none |
| Wizard.VisibleSections | onboarding-app/src/app/app/intake/intake-wizard.tsx:53-71 | the visible sections are exactly the sections passing the filter, no more |
| Wizard.VisibleSectionsKeepOrder | onboarding-app/src/app/app/intake/intake-wizard.tsx:54-70 | the filter distributes over concatenation, so order is kept |
| Wizard.NoServiceShowsOnlyUngated | onboarding-app/src/app/app/intake/intake-wizard.tsx:54-70 | with nothing selected, a section shows iff always visible or ungated |
| Wizard.SelectingAServiceShowsItsSections | onboarding-app/src/app/app/intake/intake-wizard.tsx:60-68 | selecting one of a gated section's services shows it |
| Wizard.Clamp | onboarding-app/src/app/app/intake/intake-wizard.tsx:107 | `max(0, min(i, n-1))`: in range when n > 0, the index itself when in range, 0 below, n-1 above |
| Wizard.CurrentSection | onboarding-app/src/app/app/intake/intake-wizard.tsx:73-75 | the indexed section, or the last one when out of range, or none iff nothing is visible |
| Wizard.MergeDraft | onboarding-app/src/app/app/intake/intake-wizard.tsx:88-91 | each id is the returned one when present, else the previous one |
| Wizard.Rendered | onboarding-app/src/app/app/intake/intake-wizard.tsx:224-228 | the values after rendering a step: every field of the current section holds a value, defined values are kept, and the selected services (so the visible sections) do not change |
| Wizard.RenderedIdempotent | onboarding-app/src/app/app/intake/intake-wizard.tsx:224-228 | rendering the same step again changes nothing |
| Wizard.UntouchedOptionalUrlBlocksNext | onboarding-app/src/app/app/intake/intake-wizard.tsx:114-119 | as written, an untouched optional url field of the first step holds "" after the first render and fails validation, so "Save & Continue" stays (an undefined value would pass) |
| Wizard.UntouchedRequiredNumberSavedAsZero | onboarding-app/src/app/app/intake/intake-wizard.tsx:79-86 | as written, an untouched required number field of the first step holds "", passes as 0, and a successful partial parse for the save holds 0 under its key (an undefined value would fail) |
| Wizard.IntakeWizard.constructor | onboarding-app/src/app/app/intake/intake-wizard.tsx:29-46 | the form holds exactly the defaults the first visible section registers on the first render; no draft, idle, first step |
| Wizard.IntakeWizard.ShowCurrentSection | onboarding-app/src/app/app/intake/intake-wizard.tsx:224-228 | the render after a state change: the values become `Rendered` of the current step; the visible sections and everything else are unchanged |
| Wizard.IntakeWizard.SetValue | onboarding-app/src/components/forms/field-renderer.tsx:105-139 | a field change sets one value, then the render registers the defaults of the step now current; nothing else changes |
| Wizard.IntakeWizard.GoToStep | onboarding-app/src/app/app/intake/intake-wizard.tsx:106-108 | the step becomes the clamped index and that step's defaults are registered; the visible sections and everything else stay |
| Wizard.IntakeWizard.HandlePrevious | onboarding-app/src/app/app/intake/intake-wizard.tsx:110-112 | one step back, clamped, with that step's defaults registered; step 0 stays 0 |
| Wizard.IntakeWizard.PersistCurrentSection | onboarding-app/src/app/app/intake/intake-wizard.tsx:79-104 | the tables follow `SaveSpec`; on success the draft merges the ids; the status shows the result |
| Wizard.IntakeWizard.SettleSave | onboarding-app/src/app/app/intake/intake-wizard.tsx:87-103 | a successful save merges the returned ids into the draft and shows its message or "Progress saved."; a failed one keeps the draft and shows its message or "Could not save progress."; the form is untouched |
| Wizard.IntakeWizard.HandleNext | onboarding-app/src/app/app/intake/intake-wizard.tsx:114-123 | invalid fields (by the rules as written, on values that include the step's defaults) change nothing but the render; otherwise save, show the save's status line, and advance by one only when the save succeeds; the step shown registers its defaults |
| Wizard.FieldsValid | onboarding-app/src/app/app/intake/intake-wizard.tsx:115-118 | `form.trigger` with the rules as written: a section passes only when every required field has a value |
| Wizard.IntakeWizard.HandleSubmit | onboarding-app/src/app/app/intake/intake-wizard.tsx:125-159 | invalid values change nothing but the render; valid ones are submitted, updating the draft, form and banners |
| Wizard.IntakeWizard.SubmitValues | onboarding-app/src/app/app/intake/intake-wizard.tsx:125-159 | the tables follow `SubmitSpec`, and the wizard settles on its result |
| Wizard.IntakeWizard.BeginSubmit | onboarding-app/src/app/app/intake/intake-wizard.tsx:126-127 | submitting is on and the banner is cleared |
| Wizard.IntakeWizard.Settle | onboarding-app/src/app/app/intake/intake-wizard.tsx:128-158 | success sets the draft ids, resets the form to the parsed values and shows the success banner; failure keeps the draft and shows the error; then the current step's defaults are registered |
| Companies.ServiceDisplay | onboarding-app/src/lib/data/companies.ts:228-231 | a key's display name when known, else the uppercased key |
| Companies.DisplayServices | onboarding-app/src/lib/data/companies.ts:264-267 | one display name per stored key, same order; none when null |
| Companies.CatalogueKeyDisplayRoundTrip | onboarding-app/src/lib/data/companies.ts:228-231 | a catalogue key's display name maps back to the key |
| Companies.DisplayNameRoundTrip | onboarding-app/src/lib/data/companies.ts:228-231 | a display name stored as its key shows as itself |
| Companies.Ranks | onboarding-app/src/lib/data/companies.ts:256-261 | each questionnaire's sort key, null submission as 0 |
| Companies.FirstMaximal | onboarding-app/src/lib/data/companies.ts:256-261 | the first position with the maximal key |
| Companies.FirstMaximalIsUnique | onboarding-app/src/lib/data/companies.ts:256-261 | that position is the only one with both properties |
| Companies.LatestIndex | onboarding-app/src/lib/data/companies.ts:256-261 | the latest questionnaire has a maximal key, strictly above all earlier ones |
| Companies.Latest | onboarding-app/src/lib/data/companies.ts:256-262 | the latest questionnaire, null iff there is none |
| Companies.SubmittedBeatsDraft | onboarding-app/src/lib/data/companies.ts:256-261 | a submitted questionnaire wins over every unsubmitted one |
| Companies.ProgressOf | onboarding-app/src/lib/data/companies.ts:269-275 | status, submission time and services from the latest questionnaire, else `in_progress`, null and [] |
| Companies.Summaries | onboarding-app/src/lib/data/companies.ts:238-280 | one summary per company, in fetched order |
| Companies.Table | onboarding-app/src/lib/data/companies.ts:282-321 | one table row per company, in fetched order |
| Companies.NoQuestionnaireDefaults | onboarding-app/src/lib/data/companies.ts:269-275 | no questionnaire means `in_progress`, never submitted, no services, in both projections |
| Companies.SummaryAgreesWithTableRow | onboarding-app/src/lib/data/companies.ts:269-319 | the summary and the table row agree on every shared field |
| Companies.SummaryServicesFollowLatest | onboarding-app/src/lib/data/companies.ts:256-276 | a summary's status, submission time and service count come from the latest questionnaire |
| Companies.GetCompanyById | onboarding-app/src/lib/data/companies.ts:79-99 | id and name, null iff the company is absent |
| Companies.CreatedCompanyIsReadable | onboarding-app/src/lib/data/companies.ts:79-99 | a company the draft creates reads back under its id with the entered name |
| Companies.EntryOf | onboarding-app/src/lib/data/companies.ts:149-152 | a row's entry: its update time and its responses, null as {} |
| Companies.ResponsesKeys | onboarding-app/src/lib/data/companies.ts:146-155 | the folded map has exactly the rows' section keys |
| Companies.ResponsesBySection | onboarding-app/src/lib/data/companies.ts:146-155 | each section key maps to the entry of a row with that key, and the last row's entry always stands |
| Companies.LastRowWins | onboarding-app/src/lib/data/companies.ts:146-155 | a later row with the same section key overrides an earlier one |
| Companies.FoldResponses | onboarding-app/src/lib/data/companies.ts:146-155 | the `reduce` loop builds `ResponsesBySection(rows)` |
| Companies.ServiceEntryOf | onboarding-app/src/lib/data/companies.ts:167-175 | a missing key is ""; the label falls back to the key, then "" |
| Companies.DetailOf | onboarding-app/src/lib/data/companies.ts:101-236 | null iff no company; otherwise the company, one entry per service link, and the latest questionnaire with display services and folded responses |
| Companies.GetCompanyDetail | onboarding-app/src/lib/data/companies.ts:101-236 | the detail built with the fold loop equals `DetailOf` |
| ActivityFeed.FormatLabel | onboarding-app/src/components/company/activity-feed.tsx:10-22 | a known action's fixed label; else the action with every underscore turned into a space, other characters kept |
| ActivityFeed.FormatDate | onboarding-app/src/components/company/activity-feed.tsx:24-37 | the localized date-time, or the input unchanged when it is not a date |
| ActivityFeed.DetailLine | onboarding-app/src/components/company/activity-feed.tsx:71-81 | the key with each underscore turned into a space and every other character kept, and the value as text |
| ActivityFeed.ValueText | onboarding-app/src/components/company/activity-feed.tsx:78 | `String(value)`: a string as itself, a boolean as "true" or "false", a number with "-" first exactly when negative |
| ActivityFeed.ViewOf | onboarding-app/src/components/company/activity-feed.tsx:56-82 | an entry's title, time, and detail lines iff it has details |
| ActivityFeed.Feed | onboarding-app/src/components/company/activity-feed.tsx:39-87 | the empty message iff no entry, else one view per entry in order |
| ActivityFeed.LabelsHaveNoUnderscore | onboarding-app/src/components/company/activity-feed.tsx:10-22 | no feed title contains an underscore |
| ActivityFeed.LabelValuesHaveNoUnderscore | onboarding-app/src/components/company/activity-feed.tsx:10-18 | no fixed label contains an underscore |
| Dates.IntText | onboarding-app/src/components/company/activity-feed.tsx:78 | `String(n)`: "-" first iff n is negative, then decimal digits without a leading zero that read back as the magnitude of n |
| Dates.NatText | onboarding-app/src/components/company/activity-feed.tsx:78 | decimal digits without a leading zero |
| Dates.NatTextRoundTrip | onboarding-app/src/components/company/activity-feed.tsx:78 | reading the digits back gives the number |
| HomePage.StatusLabel | onboarding-app/src/app/app/page.tsx:33-44 | fixed labels for the three statuses; else only the first underscore becomes a space |
| HomePage.UnknownStatusKeepsLaterUnderscores | onboarding-app/src/app/app/page.tsx:42 | an unknown status loses exactly one underscore |
| HomePage.FormatDate | onboarding-app/src/app/app/page.tsx:22-31 | "Not yet submitted" for missing, empty or invalid, else the localized date |
| HomePage.ServicesLine | onboarding-app/src/app/app/page.tsx:113-115 | the names joined with ", ", or "No services selected" |
| HomePage.SubmissionLine | onboarding-app/src/app/app/page.tsx:118-120 | "Submitted …" iff a non-empty submission time, else "Submission pending" |
| HomePage.ActiveCompanies | onboarding-app/src/app/app/page.tsx:48-54 | the empty message iff loading failed or found none, else one card per summary |
| HomePage.NewCompanyCard | onboarding-app/src/app/app/page.tsx:97-129 | a company without questionnaires shows in progress, no services, submission pending |
| CompaniesPage.FormatStatus | onboarding-app/src/app/app/companies/page.tsx:5-16 | fixed labels for the three statuses; else only the first underscore becomes a space |
| CompaniesPage.UnknownStatusKeepsLaterUnderscores | onboarding-app/src/app/app/companies/page.tsx:14 | an unknown status loses exactly one underscore |
| CompaniesPage.FormatDate | onboarding-app/src/app/app/companies/page.tsx:18-27 | "--" for missing, empty or invalid, else the localized date |
| CompaniesPage.LastUpdate | onboarding-app/src/app/app/companies/page.tsx:86 | updatedAt when present, else submittedAt |
| CompaniesPage.RowOf | onboarding-app/src/app/app/companies/page.tsx:61-113 | the row's cells: website only when non-empty, "--" business type, "No services captured", the last-update date |
| CompaniesPage.Body | onboarding-app/src/app/app/companies/page.tsx:30-36 | the empty message iff loading failed or found none, else one row per company |
| CompaniesPage.NewCompanyRow | onboarding-app/src/app/app/companies/page.tsx:61-113 | a company without questionnaires shows in progress, no services captured, its own update date |
| VerifyDatabase.LineEntry | onboarding-app/scripts/verify-database.ts:9-12 | a line gives an entry exactly when it has an "=" that is not its first character |
| VerifyDatabase.LineEntryMeaning | onboarding-app/scripts/verify-database.ts:9-12 | an entry's key and value are the trimmed parts before and after the first "=" |
| VerifyDatabase.EnvOf | onboarding-app/scripts/verify-database.ts:8-14 | no lines give no variables; a line with an entry sets its key to its value, over any earlier line |
| VerifyDatabase.ParseEnvFile | onboarding-app/scripts/verify-database.ts:8-14 | the `reduce` over lines builds `EnvOf(lines)` |
| VerifyDatabase.LastLineWins | onboarding-app/scripts/verify-database.ts:8-14 | a variable holds the value of the last line that sets it |
| VerifyDatabase.EveryVariableFromALine | onboarding-app/scripts/verify-database.ts:8-14 | every variable comes from some line |
| VerifyDatabase.StartWith | onboarding-app/scripts/verify-database.ts:16-24 | the script connects iff both variables are non-empty, else it stops naming which are set |
| Text.Trim | onboarding-app/src/app/app/intake/actions.ts:40 | a slice of the input with only white space before and after it, and none at its own ends; empty iff all white space |
| Text.TrimIdempotent | onboarding-app/src/app/app/intake/actions.ts:40 | trimming twice is trimming once |
| Text.ToLower | onboarding-app/src/lib/data/invites.ts:81 | each character lowercased, same length |
| Text.ToUpper | onboarding-app/src/lib/data/companies.ts:230 | each character uppercased, same length |
| Text.ReplaceAll | onboarding-app/src/components/company/activity-feed.tsx:21 | every occurrence replaced, other characters kept |
| Text.ReplaceFirst | onboarding-app/src/app/app/page.tsx:42 | only the first occurrence is replaced |
| Text.ReplaceFirstRemovesOne | onboarding-app/src/app/app/page.tsx:42 | exactly one occurrence is removed |
| Text.Split | onboarding-app/scripts/verify-database.ts:8-9 | at least one piece |
| Text.SplitJoin | onboarding-app/scripts/verify-database.ts:9-11 | joining the pieces with the separator gives the string back |
| Text.SplitPiecesFree | onboarding-app/scripts/verify-database.ts:9 | no piece contains the separator |
| Text.SplitWithoutSeparator | onboarding-app/scripts/verify-database.ts:9-10 | without a separator there is one piece, the string |
| Text.SplitAtFirst | onboarding-app/scripts/verify-database.ts:9-11 | the first piece is what precedes the first separator |
| Collections.FirstIndex | onboarding-app/src/app/app/intake/actions.ts:48-54 | the first position holding the element |
| Collections.Dedup | onboarding-app/src/app/app/intake/actions.ts:48-54 | `Array.from(new Set(...))`: distinct, and the same elements |
| Collections.DedupKeepsFirstOccurrenceOrder | onboarding-app/src/app/app/intake/actions.ts:48-54 | elements keep the order of their first occurrences |
| Collections.DedupOfDistinct | onboarding-app/src/app/app/intake/actions.ts:48-54 | a list without duplicates is unchanged |

## Left out

- The backend's transport, row-level security, foreign keys and concurrency are not modelled. Tables are maps with keyed upsert. Each backend call's failure is an input, `Backend.faults`. Generated ids and the clock are inputs too.
- A backend `PostgrestError` is modelled as `Failure.Opaque`. Its own message is not modelled, so the fallback message is shown wherever the source would use it.
- `revalidatePath`, cookies, the session lookup and `console` output are left out. The signed-in user is an `Option<Id>` parameter.
- Audit inserts are modelled as appends that cannot fail, because their errors are ignored.
- The read queries' filtering, ordering and limits are left to the database. Their results are parameters. Query errors on the read side are not modelled, apart from the page loaders' fallback to the empty message.
- Companies.Latest: the date parser is a total `Timestamp -> int`, so a date that parses to NaN is not modelled. In the source a NaN makes the comparator inconsistent (companies.ts:256-261), and the order `sort` then produces is left to the engine.
- Companies.Latest: `sort` reorders the array in place. The model picks only the element that ends up first: the first of the maximal keys, assuming a stable sort. The rest of the reordering is not modelled.
- Companies.DetailOf: the assets and secrets projections of `getCompanyDetail` are not modelled.
- `Date.parse`, `new Date(...)` validity and locale formatting are abstract functions. Floating-point numbers and NaN are modelled as integers and `None`. `Number(...)` on a non-blank string is abstract.
- Case mapping covers ASCII letters only.
- Object prototype keys (`__proto__`, `toString`, `constructor`) are not modelled in any object lookup: DISPLAY_SERVICE_TO_KEY (actions.ts:48-54), SERVICE_KEY_TO_DISPLAY (companies.ts:230), ACTION_LABELS (activity-feed.tsx:10-22) or SECTION_KEY_MAP (actions.ts:15-24, 282). Each is modelled as a map that holds only its declared keys.
- The TypeError that `.filter` throws on a non-list `selected_services` is modelled by a placeholder message.
- Exact validation issue texts are modelled only where the source chooses them (required, format and enum messages).
- Wizard.SelectedServices: a non-list `selected_services` counts as no selection, so the wizard's `includes` call on a string is not modelled.
- Wizard.IntakeWizard.SetValue: a value set to undefined gets its default again at the next render, while react-hook-form registers a controller only once and would keep it undefined. The renderer's inputs never produce undefined.
- Wizard.IntakeWizard.ShowCurrentSection: React may batch renders. The model renders once at the end of each handler; a render with nothing new to register changes nothing (`Wizard.RenderedIdempotent`).
- Wizard.IntakeWizard.HandleNext: `form.trigger` is modelled as every field of the section passing its own rule. A section that repeats a field key is not distinguished.
- The welcome line, CSS `capitalize`, button disabling, descriptions, placeholders and all markup are left out.
- The verify-database script's table, extension and auth checks are left out, along with its process exit codes and console output. Only the `.env` parser and the required-variable check are modelled.
- The onboarding section catalogue is not part of this model. Every operation takes the sections as a parameter.

## Findings

| source | as written | input that shows it | evidently intended | confidence | as-written member | corrected member |
|---|---|---|---|---|---|---|
| onboarding-app/src/lib/forms/schema.ts:17-24 | `z.coerce.number()` is tried first and turns "" into 0, so the `string().length(0)` branch is never reached for "" | a required number field left untouched, value "" | "" counts as not provided: a required number reports `<label> is required`, and an optional one is absent | not executed | Schema.BlankNumberAsWritten, FieldRenderer.DefaultsAsWritten, Wizard.UntouchedRequiredNumberSavedAsZero | Schema.NumberFieldRule, FieldRenderer.RequiredFieldRejectsDefault |
| onboarding-app/src/lib/forms/schema.ts:9-16, 30-34 | the optional email, url, select and radio rules accept only absence, but the renderer's default for those fields is "" | an optional website (url) field left untouched, value "" | an untouched optional field passes validation | not executed | Schema.BlankOptionalChoiceAsWritten, FieldRenderer.DefaultsAsWritten, Wizard.UntouchedOptionalUrlBlocksNext | Schema.FormatFieldRule, Schema.ChoiceFieldRule, FieldRenderer.OptionalFieldAcceptsDefault |
