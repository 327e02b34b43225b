/**
 * Invite lookup and acceptance over the `invites`, `companies`,
 * `company_members` and `audit_logs` tables. An invite is a two-state
 * machine (not accepted, accepted); accepting it attaches the user to the
 * invite's company, and accepting it again changes nothing.
 */
module Invites {

  import opened Wrappers
  import opened Forms
  import opened Tables
  import Text

  /** `InviteMetadata`: what the invite page shows about an invite. */
  datatype InviteMetadata = InviteMetadata(
    id: Id,
    email: string,
    role: Option<string>,
    companyId: Id,
    companyName: string,
    accepted: bool)

  const UnknownCompanyName := "Unknown company"

  /** The ids of the invites whose token is `token`. */
  function TokenMatches(invites: map<Id, InviteRow>, token: string): (ids: set<Id>)
    ensures forall id :: id in ids <==> id in invites && invites[id].token == token
  {
    set id | id in invites && invites[id].token == token
  }

  /** The one element of a set of size one. */
  lemma OnlyMember<T>(s: set<T>, x: T, y: T)
    requires |s| == 1 && x in s && y in s
    ensures x == y
  {
    if x != y {
      assert {x, y} <= s;
      assert |{x, y}| == 2;
      SubsetSize({x, y}, s);
    }
  }

  lemma SubsetSize<T>(a: set<T>, b: set<T>)
    requires a <= b
    ensures |a| <= |b|
  {
    assert b == a + (b - a);
  }

  /** The row `select(...).eq("token", token)` joins with its company, projected. */
  function Project(id: Id, row: InviteRow, company: Option<CompanyRow>): (m: InviteMetadata)
    ensures m.id == id && m.email == row.email && m.role == row.role
    ensures m.companyId == row.companyId && m.accepted == row.accepted
    ensures company.Some? ==> m.companyName == company.value.name
    ensures company.None? ==> m.companyName == UnknownCompanyName
  {
    InviteMetadata(id, row.email, row.role, row.companyId,
                   if company.Some? then company.value.name else UnknownCompanyName, row.accepted)
  }

  /** The invites whose token is `token` and whose company exists (the `companies!inner` join). */
  function JoinedMatches(t: Tables, token: string): (ids: set<Id>)
    ensures ids <= TokenMatches(t.invites, token)
    ensures forall id :: id in ids <==> id in t.invites && t.invites[id].token == token && t.invites[id].companyId in t.companies
  {
    set id | id in t.invites && t.invites[id].token == token && t.invites[id].companyId in t.companies
  }

  /**
   * `getInviteByToken`: null for an empty token or when no invite joined with
   * its company carries the token; the projected row when exactly one does;
   * a thrown (non-`Error`) value when the read fails or `maybeSingle` finds
   * more than one row.
   */
  function GetInviteByToken(t: Tables, b: Backend, token: string): (r: Result<Option<InviteMetadata>, Failure>)
    ensures token == "" ==> r == Ok(None)
    ensures r.Err? ==> r.error == Opaque
    ensures r.Err? <==> token != "" && (ReadInvite in b.faults || |JoinedMatches(t, token)| > 1)
    ensures token != "" && ReadInvite !in b.faults && |JoinedMatches(t, token)| == 1 ==> r.Ok? && r.value.Some?
    ensures r == Ok(None) ==>
      token == "" || (ReadInvite !in b.faults && forall id :: id in t.invites && t.invites[id].token == token ==> t.invites[id].companyId !in t.companies)
    ensures r.Ok? && r.value.Some? ==>
      var m := r.value.value;
      && m.id in t.invites && t.invites[m.id].token == token
      && m.companyId == t.invites[m.id].companyId && m.companyId in t.companies
      && m.companyName == t.companies[m.companyId].name
      && m.email == t.invites[m.id].email && m.role == t.invites[m.id].role && m.accepted == t.invites[m.id].accepted
      && forall other :: other in t.invites && t.invites[other].token == token && t.invites[other].companyId in t.companies ==> other == m.id
  {
    if token == "" then Ok(None)
    else if ReadInvite in b.faults then Err(Opaque)
    else
      var ids := JoinedMatches(t, token);
      if |ids| == 0 then Ok(None)
      else if |ids| > 1 then Err(Opaque)
      else
        UniqueChoice(ids);
        var id :| id in ids;
        var row := t.invites[id];
        Ok(Some(Project(id, row, Some(t.companies[row.companyId]))))
  }

  lemma UniqueChoice<T>(s: set<T>)
    requires |s| == 1
    ensures forall x, y :: x in s && y in s ==> x == y
  {
    forall x, y | x in s && y in s
      ensures x == y
    {
      OnlyMember(s, x, y);
    }
  }

  // ---------------------------------------------------------------------------
  // acceptInviteByToken

  const ValidateMessage := "Unable to validate the invite token."
  const InvalidMessage := "This invite link is invalid or has expired."
  const AttachMessage := "Failed to attach your account to the company."
  const MarkMessage := "Unable to mark this invite as accepted."
  const DefaultRole := "client_member"

  /** The message that refuses a user signed in with another address. */
  function WrongEmailMessage(email: string): string {
    "This invite was sent to " + email + ". Please sign in with that email address."
  }

  /** The email gate: an invite with an address only admits that address, in any letter case. */
  predicate EmailAdmits(inviteEmail: string, userEmail: string) {
    inviteEmail == "" || Text.ToLower(inviteEmail) == Text.ToLower(userEmail)
  }

  /** The audit entry a successful acceptance appends. */
  function AcceptAudit(uid: Id, id: Id, row: InviteRow, now: Timestamp): AuditEntry {
    AuditEntry(uid, row.companyId, "invite_accepted", "invite", id, map["email" := Str(row.email)], now)
  }

  /** The membership row the upsert writes. */
  function InvitedMember(row: InviteRow, now: Timestamp): (m: MemberRow)
    ensures row.role.Some? ==> m.role == row.role.value
    ensures row.role.None? ==> m.role == DefaultRole
  {
    MemberRow(row.role.GetOr(DefaultRole), now)
  }

  /** Acceptance once the one invite with the token, `id`, has been read. */
  function AcceptFound(t: Tables, b: Backend, id: Id, uid: Id, userEmail: string): (r: (Result<Id, Failure>, Tables))
    requires id in t.invites
  {
    var row := t.invites[id];
    if row.accepted then (Ok(row.companyId), t)
    else if !EmailAdmits(row.email, userEmail) then (Err(Error(WrongEmailMessage(row.email))), t)
    else if UpsertInviteMember in b.faults then (Err(Error(AttachMessage)), t)
    else
      var t1 := t.(members := t.members[(row.companyId, uid) := InvitedMember(row, b.now)]);
      if MarkInviteAccepted in b.faults then (Err(Error(MarkMessage)), t1)
      else
        var t2 := t1.(invites := t1.invites[id := row.(accepted := true)]);
        (Ok(row.companyId), t2.(auditLogs := t2.auditLogs + [AcceptAudit(uid, id, row, b.now)]))
  }

  /**
   * `acceptInviteByToken` as a function of the tables before the call: its
   * result (the company id, or the failure it throws) and the tables after it.
   */
  function AcceptSpec(t: Tables, b: Backend, token: string, uid: Id, userEmail: string): (r: (Result<Id, Failure>, Tables))
    ensures r.1 == t.(members := r.1.members, invites := r.1.invites, auditLogs := r.1.auditLogs)
    ensures r.0.Ok? ==> ReadInvite !in b.faults && |TokenMatches(t.invites, token)| == 1
    ensures r.0.Ok? ==> forall id :: id in TokenMatches(t.invites, token) ==> r.0.value == t.invites[id].companyId
  {
    var ids := TokenMatches(t.invites, token);
    if ReadInvite in b.faults || |ids| > 1 then (Err(Error(ValidateMessage)), t)
    else if |ids| == 0 then (Err(Error(InvalidMessage)), t)
    else
      UniqueChoice(ids);
      var id :| id in ids;
      AcceptFound(t, b, id, uid, userEmail)
  }

  /** `acceptInviteByToken`: the accept workflow run against the tables, step by step. */
  method AcceptInviteByToken(db: Database, b: Backend, token: string, uid: Id, userEmail: string)
    returns (r: Result<Id, Failure>)
    modifies db
    ensures (r, db.State()) == AcceptSpec(old(db.State()), b, token, uid, userEmail)
  {
    var ids := TokenMatches(db.invites, token);
    if ReadInvite in b.faults || |ids| > 1 {
      return Err(Error(ValidateMessage));
    }
    if |ids| == 0 {
      return Err(Error(InvalidMessage));
    }
    var id :| id in ids;
    UniqueChoice(ids);
    var row := db.invites[id];
    if row.accepted {
      return Ok(row.companyId);
    }
    if row.email != "" && Text.ToLower(row.email) != Text.ToLower(userEmail) {
      return Err(Error(WrongEmailMessage(row.email)));
    }
    if UpsertInviteMember in b.faults {
      return Err(Error(AttachMessage));
    }
    db.members := db.members[(row.companyId, uid) := InvitedMember(row, b.now)];
    if MarkInviteAccepted in b.faults {
      return Err(Error(MarkMessage));
    }
    db.invites := db.invites[id := row.(accepted := true)];
    db.auditLogs := db.auditLogs + [AcceptAudit(uid, id, row, b.now)];
    return Ok(row.companyId);
  }

  /** Acceptance reads the one invite with the token: the result in terms of that invite. */
  lemma AcceptOfInvite(t: Tables, b: Backend, token: string, uid: Id, userEmail: string, id: Id)
    requires ReadInvite !in b.faults
    requires TokenMatches(t.invites, token) == {id}
    ensures id in t.invites
    ensures AcceptSpec(t, b, token, uid, userEmail) == AcceptFound(t, b, id, uid, userEmail)
  {
    assert |{id}| == 1;
  }

  /** An unknown token fails with the invalid-link message and writes nothing. */
  lemma UnknownTokenWritesNothing(t: Tables, b: Backend, token: string, uid: Id, userEmail: string)
    requires ReadInvite !in b.faults
    requires forall id :: id in t.invites ==> t.invites[id].token != token
    ensures AcceptSpec(t, b, token, uid, userEmail) == (Err(Error(InvalidMessage)), t)
  {
    var ids := TokenMatches(t.invites, token);
    assert ids == {};
  }

  /** Accepting an accepted invite returns its company and changes no table. */
  lemma AcceptedInviteIsNoOp(t: Tables, b: Backend, token: string, uid: Id, userEmail: string, id: Id)
    requires ReadInvite !in b.faults
    requires TokenMatches(t.invites, token) == {id}
    requires id in t.invites && t.invites[id].accepted
    ensures AcceptSpec(t, b, token, uid, userEmail) == (Ok(t.invites[id].companyId), t)
  {
    AcceptOfInvite(t, b, token, uid, userEmail, id);
  }

  /**
   * The email gate: a pending invite whose address differs from the user's,
   * ignoring letter case, is refused with a message naming that address and
   * nothing is written; one whose address matches, or is empty, goes through
   * when the writes succeed.
   */
  lemma EmailGate(t: Tables, b: Backend, token: string, uid: Id, userEmail: string, id: Id)
    requires ReadInvite !in b.faults
    requires TokenMatches(t.invites, token) == {id}
    requires id in t.invites && !t.invites[id].accepted
    ensures var email := t.invites[id].email;
      email != "" && Text.ToLower(email) != Text.ToLower(userEmail) ==>
        AcceptSpec(t, b, token, uid, userEmail) == (Err(Error(WrongEmailMessage(email))), t)
    ensures var email := t.invites[id].email;
      (email == "" || Text.ToLower(email) == Text.ToLower(userEmail)) && b.faults !! {UpsertInviteMember, MarkInviteAccepted} ==>
        AcceptSpec(t, b, token, uid, userEmail).0 == Ok(t.invites[id].companyId)
  {
    AcceptOfInvite(t, b, token, uid, userEmail, id);
  }

  /**
   * A successful first acceptance: the user becomes a member of the invite's
   * company with the invite's role (`client_member` when it has none), the
   * invite is marked accepted, one `invite_accepted` entry is logged, and the
   * company id is returned; no other table changes.
   */
  lemma AcceptAttachesMember(t: Tables, b: Backend, token: string, uid: Id, userEmail: string, id: Id)
    requires b.faults !! {ReadInvite, UpsertInviteMember, MarkInviteAccepted}
    requires TokenMatches(t.invites, token) == {id}
    requires id in t.invites && !t.invites[id].accepted
    requires EmailAdmits(t.invites[id].email, userEmail)
    ensures var row := t.invites[id];
      var r := AcceptSpec(t, b, token, uid, userEmail);
      && r.0 == Ok(row.companyId)
      && r.1.members == t.members[(row.companyId, uid) := MemberRow(row.role.GetOr(DefaultRole), b.now)]
      && r.1.invites == t.invites[id := row.(accepted := true)]
      && r.1.auditLogs == t.auditLogs + [AcceptAudit(uid, id, row, b.now)]
      && r.1.companies == t.companies && r.1.questionnaires == t.questionnaires
      && r.1.responses == t.responses && r.1.companyServices == t.companyServices
  {
    AcceptOfInvite(t, b, token, uid, userEmail, id);
  }

  /** Marking an invite accepted leaves the set of invites with each token as it was. */
  lemma MarkingKeepsTokens(invites: map<Id, InviteRow>, id: Id, token: string)
    requires id in invites
    ensures TokenMatches(invites[id := invites[id].(accepted := true)], token) == TokenMatches(invites, token)
  {
  }

  /**
   * Acceptance is idempotent: after a successful acceptance, accepting the
   * same token again — by any user, at any time — returns the same company
   * and changes no table, so no second membership is added.
   */
  lemma SecondAcceptanceChangesNothing(t: Tables, b: Backend, token: string, uid: Id, userEmail: string,
                                       b2: Backend, uid2: Id, userEmail2: string)
    requires ReadInvite !in b.faults && ReadInvite !in b2.faults
    requires AcceptSpec(t, b, token, uid, userEmail).0.Ok?
    ensures var first := AcceptSpec(t, b, token, uid, userEmail);
      AcceptSpec(first.1, b2, token, uid2, userEmail2) == (first.0, first.1)
  {
    var ids := TokenMatches(t.invites, token);
    assert |ids| == 1;
    var id :| id in ids;
    assert ids == {id} by {
      forall x | x in ids
        ensures x == id
      {
        OnlyMember(ids, x, id);
      }
    }
    AcceptOfInvite(t, b, token, uid, userEmail, id);
    var first := AcceptSpec(t, b, token, uid, userEmail);
    var row := t.invites[id];
    if row.accepted {
      AcceptedInviteIsNoOp(t, b2, token, uid2, userEmail2, id);
    } else {
      assert first.1.invites == t.invites[id := row.(accepted := true)];
      MarkingKeepsTokens(t.invites, id, token);
      AcceptedInviteIsNoOp(first.1, b2, token, uid2, userEmail2, id);
    }
  }

  /** Every failure but the last step's leaves every table as it was. */
  lemma FailureBeforeUpsertWritesNothing(t: Tables, b: Backend, token: string, uid: Id, userEmail: string)
    requires MarkInviteAccepted !in b.faults
    ensures AcceptSpec(t, b, token, uid, userEmail).0.Err? ==> AcceptSpec(t, b, token, uid, userEmail).1 == t
  {
  }
}
