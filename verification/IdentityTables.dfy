/** The tables behind internal/identity/repository.go and the transactions that change them.

    `Tables` is the committed database, restricted to the columns the session logic reads. A secret
    and the row its SHA-256 hash selects are identified by the row's id. Each transaction is given
    twice: as a verdict plus the tables it commits (functions), and as a method of
    `IdentityRepository` that performs the statements one by one and rolls back where the source
    does. Row-level security shows up as the `tenant ==` conditions: a transaction scoped to a
    tenant sees and writes that tenant's rows only. */
module IdentityTables {
  import opened Wrappers

  type Id = nat

  datatype Tenant = Tenant(active: bool, deleted: bool)

  datatype User = User(tenant: Id, disabled: bool, deleted: bool, password: nat, verified: bool)

  datatype Token = Token(tenant: Id, user: Id, family: Id, expiresAt: int,
                         revokedAt: Option<int>, replacedBy: Option<Id>)

  /** The row newRefreshTokenRow builds: neither revoked nor replaced. */
  datatype Draft = Draft(tenant: Id, user: Id, family: Id, expiresAt: int)

  datatype Purpose = PasswordReset | EmailVerification

  datatype Verification = Verification(tenant: Id, user: Id, purpose: Purpose, expiresAt: int, usedAt: Option<int>)

  datatype Tables = Tables(tenants: map<Id, Tenant>, users: map<Id, User>,
                           tokens: map<Id, Token>, verifications: map<Id, Verification>)

  /** The rows an UPDATE ... WHERE selects: one login's lineage, or all sessions of a user. */
  datatype Scope = OfFamily(family: Id) | OfUser(user: Id)

  predicate Selects(scope: Scope, tenant: Id, t: Token) {
    && t.tenant == tenant
    && match scope
       case OfFamily(f) => t.family == f
       case OfUser(u) => t.user == u
  }

  predicate Live(t: Token) {
    t.revokedAt.None?
  }

  /** UPDATE refresh_tokens SET revoked_at = now() WHERE <scope> AND revoked_at IS NULL. */
  function RevokeRows(tokens: map<Id, Token>, tenant: Id, scope: Scope, now: int): map<Id, Token> {
    map id | id in tokens ::
      if Selects(scope, tenant, tokens[id]) && Live(tokens[id])
      then tokens[id].(revokedAt := Some(now))
      else tokens[id]
  }

  function Fresh(d: Draft): Token {
    Token(d.tenant, d.user, d.family, d.expiresAt, None, None)
  }

  // ---- who may use a credential ----

  /** The tenant's row is active and not deleted. */
  predicate TenantActive(d: Tables, tenant: Id) {
    tenant in d.tenants && d.tenants[tenant].active && !d.tenants[tenant].deleted
  }

  /** And the user's row is of that tenant, not deleted and not disabled. */
  predicate MayAct(d: Tables, tenant: Id, user: Id) {
    && TenantActive(d, tenant)
    && user in d.users && d.users[user].tenant == tenant && !d.users[user].deleted && !d.users[user].disabled
  }

  datatype Standing = Active | TenantInactive | UserInactive

  function StandingOf(d: Tables, tenant: Id, user: Id): Standing {
    if tenant !in d.tenants || !d.tenants[tenant].active || d.tenants[tenant].deleted then
      TenantInactive
    else if user !in d.users || d.users[user].tenant != tenant || d.users[user].deleted || d.users[user].disabled then
      UserInactive
    else
      Active
  }

  // ---- rotation ----

  /** The ways RotateRefreshToken ends. `Mismatch` and `Duplicate` return an error from inside the
      transaction and roll it back; all other verdicts commit, even those the caller sees as errors. */
  datatype RotateVerdict =
    | Rotated
    | RejectedSubject(standing: Standing)
    | Unknown
    | Reused
    | Expired
    | Mismatch
    | Duplicate

  predicate Spent(t: Token) {
    t.revokedAt.Some? || t.replacedBy.Some?
  }

  function Rotation(d: Tables, tenant: Id, oldId: Id, newId: Id, draft: Draft, now: int): RotateVerdict {
    var standing := StandingOf(d, tenant, draft.user);
    if standing != Active then RejectedSubject(standing)
    else if oldId !in d.tokens || d.tokens[oldId].tenant != tenant then Unknown
    else if Spent(d.tokens[oldId]) then Reused
    else if d.tokens[oldId].expiresAt <= now then Expired
    else if draft.tenant != d.tokens[oldId].tenant || draft.user != d.tokens[oldId].user
            || draft.family != d.tokens[oldId].family then Mismatch
    else if newId in d.tokens then Duplicate
    else Rotated
  }

  /** The tables a rotation commits: only a rotation and a detected reuse write anything. */
  function AfterRotation(d: Tables, tenant: Id, oldId: Id, newId: Id, draft: Draft, now: int): Tables {
    match Rotation(d, tenant, oldId, newId, draft, now)
    case Rotated =>
      d.(tokens := d.tokens[newId := Fresh(draft)]
                           [oldId := d.tokens[oldId].(revokedAt := Some(now), replacedBy := Some(newId))])
    case Reused => d.(tokens := RevokeRows(d.tokens, tenant, OfFamily(d.tokens[oldId].family), now))
    case _ => d
  }

  // ---- verification tokens ----

  datatype ClaimVerdict = Claimed | RefusedSubject(standing: Standing) | Refused

  function Claim(d: Tables, tenant: Id, tokenId: Id, user: Id, purpose: Purpose, now: int): ClaimVerdict {
    var standing := StandingOf(d, tenant, user);
    if standing != Active then RefusedSubject(standing)
    else if tokenId !in d.verifications || d.verifications[tokenId].tenant != tenant then Refused
    else
      var v := d.verifications[tokenId];
      if v.user != user || v.purpose != purpose || v.usedAt.Some? || v.expiresAt <= now then Refused else Claimed
  }

  function AfterPasswordReset(d: Tables, tenant: Id, tokenId: Id, user: Id, password: nat, now: int): Tables {
    if Claim(d, tenant, tokenId, user, PasswordReset, now) == Claimed then
      Tables(d.tenants, d.users[user := d.users[user].(password := password)],
             RevokeRows(d.tokens, tenant, OfUser(user), now),
             d.verifications[tokenId := d.verifications[tokenId].(usedAt := Some(now))])
    else d
  }

  function AfterEmailVerification(d: Tables, tenant: Id, tokenId: Id, user: Id, now: int): Tables {
    if Claim(d, tenant, tokenId, user, EmailVerification, now) == Claimed then
      d.(users := d.users[user := d.users[user].(verified := true)],
         verifications := d.verifications[tokenId := d.verifications[tokenId].(usedAt := Some(now))])
    else d
  }

  /** The tables as mutable state, changed statement by statement. */
  class IdentityRepository {
    var tenants: map<Id, Tenant>
    var users: map<Id, User>
    var tokens: map<Id, Token>
    var verifications: map<Id, Verification>

    ghost function Current(): Tables
      reads this
    {
      Tables(tenants, users, tokens, verifications)
    }

    constructor (d: Tables)
      ensures Current() == d
    {
      tenants, users, tokens, verifications := d.tenants, d.users, d.tokens, d.verifications;
    }

    method ActiveCredentialUser(tenant: Id, user: Id) returns (standing: Standing)
      ensures standing == Active <==> MayAct(Current(), tenant, user)
      ensures standing == TenantInactive <==> !TenantActive(Current(), tenant)
      ensures standing == StandingOf(Current(), tenant, user)
    {
      if tenant !in tenants { return TenantInactive; }
      var t := tenants[tenant];
      if !t.active || t.deleted { return TenantInactive; }
      if user !in users { return UserInactive; }
      var u := users[user];
      if u.tenant != tenant || u.deleted { return UserInactive; }
      if u.disabled { return UserInactive; }
      return Active;
    }

    /** UPDATE ... WHERE <scope> AND revoked_at IS NULL, row by row: a selected live row gets the time, every
        other row and every earlier revocation time stays. */
    method RevokeWhere(tenant: Id, scope: Scope, now: int)
      modifies this`tokens
      ensures tokens.Keys == old(tokens).Keys
      ensures forall id <- tokens :: !Selects(scope, tenant, tokens[id]) ==> tokens[id] == old(tokens)[id]
      ensures forall id <- tokens :: Selects(scope, tenant, tokens[id]) ==>
                var was := old(tokens)[id];
                tokens[id] == was.(revokedAt := if Live(was) then Some(now) else was.revokedAt)
      ensures tokens == RevokeRows(old(tokens), tenant, scope, now)
    {
      var rest := tokens.Keys;
      while rest != {}
        invariant rest <= tokens.Keys == old(tokens).Keys
        invariant forall id <- tokens ::
                    tokens[id] == if id in rest then old(tokens)[id]
                                  else RevokeRows(old(tokens), tenant, scope, now)[id]
        decreases |rest|
      {
        var id :| id in rest;
        rest := rest - {id};
        if Selects(scope, tenant, tokens[id]) && tokens[id].revokedAt.None? {
          tokens := tokens[id := tokens[id].(revokedAt := Some(now))];
        }
      }
    }

    /** The last step of a login; inserting an id twice is the database's error. */
    method CreateRefreshToken(id: Id, draft: Draft) returns (created: bool)
      modifies this`tokens
      ensures created <==> id !in old(tokens)
      ensures Current() ==
              if created then old(Current()).(tokens := old(tokens)[id := Fresh(draft)]) else old(Current())
    {
      created := id !in tokens;
      if created {
        tokens := tokens[id := Fresh(draft)];
      }
    }

    /** Serves Logout's second half, reuse detection and the step after a password change. */
    method RevokeRefreshTokenFamily(tenant: Id, family: Id, now: int)
      modifies this`tokens
      ensures Current() == old(Current()).(tokens := RevokeRows(old(tokens), tenant, OfFamily(family), now))
      ensures forall id <- tokens :: tokens[id].tenant == tenant && tokens[id].family == family ==>
                tokens[id].revokedAt == if Live(old(tokens)[id]) then Some(now) else old(tokens)[id].revokedAt
      ensures forall id <- tokens :: tokens[id].tenant != tenant || tokens[id].family != family ==>
                tokens[id] == old(tokens)[id]
    {
      RevokeWhere(tenant, OfFamily(family), now);
    }

    /** Locks and consumes the old token and inserts its replacement. `outcome` is an error the
        transaction still commits; `failed` is one that rolls it back. */
    method RotateRefreshToken(tenant: Id, oldId: Id, newId: Id, draft: Draft, now: int)
      returns (verdict: RotateVerdict)
      modifies this`tokens
      ensures verdict == Rotated <==>
                && MayAct(old(Current()), tenant, draft.user) && oldId in old(tokens) && newId !in old(tokens)
                && var was := old(tokens)[oldId];
                   was.tenant == tenant == draft.tenant && was.user == draft.user && was.family == draft.family
                   && was.revokedAt.None? && was.replacedBy.None? && now < was.expiresAt
      ensures verdict == Rotation(old(Current()), tenant, oldId, newId, draft, now)
      ensures Current() == AfterRotation(old(Current()), tenant, oldId, newId, draft, now)
    {
      var begin := tokens;
      var outcome: Option<RotateVerdict> := None;
      var failed: Option<RotateVerdict> := None;

      var standing := ActiveCredentialUser(tenant, draft.user);
      if standing != Active {
        outcome := Some(RejectedSubject(standing));
      } else if oldId !in tokens || tokens[oldId].tenant != tenant {
        outcome := Some(Unknown);
      } else {
        var current := tokens[oldId];
        if current.revokedAt.Some? || current.replacedBy.Some? {
          RevokeWhere(tenant, OfFamily(current.family), now);
          outcome := Some(Reused);
        } else if !(now < current.expiresAt) {
          outcome := Some(Expired);
        } else if draft.tenant != current.tenant || draft.user != current.user || draft.family != current.family {
          failed := Some(Mismatch);
        } else if newId in tokens {
          failed := Some(Duplicate);
        } else {
          tokens := tokens[newId := Fresh(draft)];
          var affected := 0;
          if tokens[oldId].revokedAt.None? && tokens[oldId].replacedBy.None? {
            tokens := tokens[oldId := tokens[oldId].(revokedAt := Some(now), replacedBy := Some(newId))];
            affected := 1;
          }
          if affected != 1 {
            failed := Some(Unknown);
          }
        }
      }

      if failed.Some? {
        tokens := begin;
        return failed.value;
      }
      if outcome.Some? {
        return outcome.value;
      }
      return Rotated;
    }

    method ClaimVerificationToken(tokenId: Id, tenant: Id, user: Id, purpose: Purpose, now: int) returns (claimed: bool)
      requires StandingOf(Current(), tenant, user) == Active
      modifies this`verifications
      ensures claimed <==>
                && tokenId in old(verifications)
                && var v := old(verifications)[tokenId];
                   v.tenant == tenant && v.user == user && v.purpose == purpose && v.usedAt.None? && now < v.expiresAt
      ensures claimed <==> Claim(old(Current()), tenant, tokenId, user, purpose, now) == Claimed
      ensures claimed ==>
                verifications == old(verifications)[tokenId := old(verifications)[tokenId].(usedAt := Some(now))]
      ensures !claimed ==> verifications == old(verifications)
    {
      if tokenId !in verifications || verifications[tokenId].tenant != tenant { return false; }
      var token := verifications[tokenId];
      if token.user != user || token.purpose != purpose || token.usedAt.Some? || !(now < token.expiresAt) {
        return false;
      }
      verifications := verifications[tokenId := token.(usedAt := Some(now))];
      return true;
    }

    method ConsumePasswordReset(tenant: Id, tokenId: Id, user: Id, password: nat, now: int)
      returns (verdict: ClaimVerdict)
      modifies this`users, this`tokens, this`verifications
      ensures verdict == Claim(old(Current()), tenant, tokenId, user, PasswordReset, now)
      ensures Current() == AfterPasswordReset(old(Current()), tenant, tokenId, user, password, now)
    {
      var standing := ActiveCredentialUser(tenant, user);
      if standing != Active { return RefusedSubject(standing); }
      var claimed := ClaimVerificationToken(tokenId, tenant, user, PasswordReset, now);
      if !claimed { return Refused; }
      users := users[user := users[user].(password := password)];
      RevokeWhere(tenant, OfUser(user), now);
      return Claimed;
    }

    method ConsumeEmailVerification(tenant: Id, tokenId: Id, user: Id, now: int) returns (verdict: ClaimVerdict)
      modifies this`users, this`verifications
      ensures verdict == Claim(old(Current()), tenant, tokenId, user, EmailVerification, now)
      ensures Current() == AfterEmailVerification(old(Current()), tenant, tokenId, user, now)
    {
      var standing := ActiveCredentialUser(tenant, user);
      if standing != Active { return RefusedSubject(standing); }
      var claimed := ClaimVerificationToken(tokenId, tenant, user, EmailVerification, now);
      if !claimed { return Refused; }
      users := users[user := users[user].(verified := true)];
      return Claimed;
    }

    /** The revocation step of a password change (internal/preferences/repository.go). */
    method RevokeAllRefreshTokens(tenant: Id, user: Id, now: int)
      modifies this`tokens
      ensures Current() == old(Current()).(tokens := RevokeRows(old(tokens), tenant, OfUser(user), now))
      ensures forall id <- tokens :: tokens[id].tenant == tenant && tokens[id].user == user ==>
                tokens[id].revokedAt == if Live(old(tokens)[id]) then Some(now) else old(tokens)[id].revokedAt
      ensures forall id <- tokens :: tokens[id].tenant != tenant || tokens[id].user != user ==>
                tokens[id] == old(tokens)[id]
    {
      RevokeWhere(tenant, OfUser(user), now);
    }
  }
}
