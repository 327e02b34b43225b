/**
 * The database tables the intake workflow and invite acceptance read and
 * write, held in memory: one map per table keyed by its primary key (or by
 * the conflict key its upserts name), and the audit log as an append-only
 * sequence. The backend's behaviour that the code cannot see — the clock,
 * the ids it generates, and which calls fail — is an input.
 */
module Tables {

  import opened Wrappers
  import opened Forms

  type Id = string
  /** An ISO-8601 timestamp, kept opaque. */
  type Timestamp = string

  datatype CompanyRow = CompanyRow(
    name: string,
    website: Option<string>,
    industry: Option<string>,
    businessType: Option<string>,
    country: Option<string>,
    timezone: Option<string>,
    createdAt: Timestamp,
    updatedAt: Timestamp)

  /** A `company_members` row, keyed by (company_id, user_id). */
  datatype MemberRow = MemberRow(role: string, createdAt: Timestamp)

  /** A `company_services` row, keyed by (company_id, service_id). */
  datatype CompanyServiceRow = CompanyServiceRow(status: string, createdAt: Timestamp, updatedAt: Timestamp)

  datatype QuestionnaireRow = QuestionnaireRow(
    companyId: Id,
    version: int,
    selectedServices: seq<string>,
    status: string,
    startedBy: Id,
    submittedAt: Option<Timestamp>,
    createdAt: Timestamp,
    updatedAt: Timestamp)

  /** A `questionnaire_responses` row, keyed by (questionnaire_id, section_key). */
  datatype ResponseRow = ResponseRow(responses: Values, updatedBy: Id, updatedAt: Timestamp)

  /** An `invites` row, keyed by its id; `email` may be empty and `role` missing. */
  datatype InviteRow = InviteRow(companyId: Id, email: string, role: Option<string>, token: string, accepted: bool)

  datatype AuditEntry = AuditEntry(
    actor: Id,
    companyId: Id,
    action: string,
    targetType: string,
    targetId: Id,
    details: map<string, Value>,
    createdAt: Timestamp)

  /** The state of every table at one moment. */
  datatype Tables = Tables(
    companies: map<Id, CompanyRow>,
    members: map<(Id, Id), MemberRow>,
    services: map<Id, string>,                 // the service catalogue: id to key
    companyServices: map<(Id, Id), CompanyServiceRow>,
    questionnaires: map<Id, QuestionnaireRow>,
    responses: map<(Id, string), ResponseRow>,
    invites: map<Id, InviteRow>,
    auditLogs: seq<AuditEntry>)

  /** The database, whose tables the server actions change in place. */
  class Database {
    var companies: map<Id, CompanyRow>
    var members: map<(Id, Id), MemberRow>
    var services: map<Id, string>
    var companyServices: map<(Id, Id), CompanyServiceRow>
    var questionnaires: map<Id, QuestionnaireRow>
    var responses: map<(Id, string), ResponseRow>
    var invites: map<Id, InviteRow>
    var auditLogs: seq<AuditEntry>

    /** The current contents of every table. */
    function State(): Tables
      reads this
    {
      Tables(companies, members, services, companyServices, questionnaires, responses, invites, auditLogs)
    }

    constructor (t: Tables)
      ensures State() == t
    {
      companies := t.companies;
      members := t.members;
      services := t.services;
      companyServices := t.companyServices;
      questionnaires := t.questionnaires;
      responses := t.responses;
      invites := t.invites;
      auditLogs := t.auditLogs;
    }
  }

  /** A backend call that reports an error. */
  datatype Fault =
    | InsertCompany
    | UpdateCompany
    | ReadMembership
    | AttachMember
    | LoadCatalog
    | LinkServices
    | InsertQuestionnaire
    | UpdateQuestionnaire
    | UpsertResponse(sectionKey: string)
    | FinaliseQuestionnaire
    | ReadInvite
    | UpsertInviteMember
    | MarkInviteAccepted

  /**
   * What the backend does during one request: the time `new Date()` reads,
   * the ids the database assigns to a new company and a new questionnaire,
   * and the calls that fail.
   */
  datatype Backend = Backend(now: Timestamp, companyIdDrawn: Id, questionnaireIdDrawn: Id, faults: set<Fault>)

  /** How a request fails: an `Error` with its message, or a thrown value that is not an `Error`. */
  datatype Failure = Error(message: string) | Opaque
}
