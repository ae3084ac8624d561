/** Refresh-token families over unbounded runs (section 4.14.2 of RFC 9700: rotation with reuse detection).

    A run is any sequence of steps by any number of logins and refreshers. A transaction is one step;
    `Service.Refresh` takes two (look the token up, rotate it) and `Service.Login` takes two (check the
    password, issue the pair), with a write of the whole user row in between, so anything may interleave. */
module TokenRuns {
  import opened Wrappers
  import opened IdentityTables

  /** What a refresher remembers between its lookup and its rotation. */
  datatype Seen = Seen(id: Id, tenant: Id, user: Id, family: Id)

  /** A user whose credentials were accepted but whose tokens are not issued yet. */
  datatype Admitted = Admitted(tenant: Id, user: Id)

  /** `rows` are the user rows that logins read for their password check and will write back. */
  datatype Sys = Sys(db: Tables, seen: map<Id, Seen>, admitted: map<Id, Admitted>, rows: map<Id, User>)

  /** `AdmitLogin` is a login without a password: a registration that committed, or an OAuth login past
      ValidateCredentialState. */
  datatype Step =
    | CheckLogin(p: Id, user: Id, password: nat)
    | AdmitLogin(p: Id, tenant: Id, user: Id)
    | WriteBack(p: Id)
    | IssueLogin(p: Id, id: Id, family: Id, expiresAt: int)
    | Lookup(p: Id, id: Id)
    | Rotate(p: Id, newId: Id, expiresAt: int, now: int)
    | RevokeFamily(tenant: Id, family: Id, now: int)
    | RevokeUser(tenant: Id, user: Id, now: int)
    | ConsumeReset(tenant: Id, tokenId: Id, user: Id, password: nat, now: int)
    | ConsumeEmail(tenant: Id, tokenId: Id, user: Id, now: int)
    | MintVerification(tokenId: Id, verification: Verification)
    | PutTenant(tenantId: Id, tenantRow: Tenant)
    | PutUser(userId: Id, userRow: User)

  predicate Known(tokens: map<Id, Token>, family: Id) {
    exists id :: id in tokens && tokens[id].family == family
  }

  predicate FamilyLive(tokens: map<Id, Token>, family: Id) {
    exists id :: id in tokens && tokens[id].family == family && Live(tokens[id])
  }

  predicate Dead(tokens: map<Id, Token>, family: Id) {
    Known(tokens, family) && !FamilyLive(tokens, family)
  }

  function DraftOf(seen: Seen, expiresAt: int): Draft {
    Draft(seen.tenant, seen.user, seen.family, expiresAt)
  }

  function Apply(s: Sys, a: Step): Sys {
    match a
    case CheckLogin(p, user, password) =>
      if user in s.db.users && s.db.users[user].password == password
         && StandingOf(s.db, s.db.users[user].tenant, user) == Active
      then s.(admitted := s.admitted[p := Admitted(s.db.users[user].tenant, user)],
              rows := s.rows[p := s.db.users[user]])
      else s
    case AdmitLogin(p, tenant, user) =>
      if StandingOf(s.db, tenant, user) == Active
      then s.(admitted := s.admitted[p := Admitted(tenant, user)], rows := s.rows - {p})
      else s
    case WriteBack(p) =>
      if p in s.admitted && p in s.rows
      then s.(db := s.db.(users := s.db.users[s.admitted[p].user := s.rows[p]]), rows := s.rows - {p})
      else s
    case IssueLogin(p, id, family, expiresAt) =>
      if p in s.admitted && id !in s.db.tokens && !Known(s.db.tokens, family) then
        var who := s.admitted[p];
        s.(db := s.db.(tokens := s.db.tokens[id := Fresh(Draft(who.tenant, who.user, family, expiresAt))]),
           admitted := s.admitted - {p}, rows := s.rows - {p})
      else s
    case Lookup(p, id) =>
      if id in s.db.tokens then
        var t := s.db.tokens[id];
        s.(seen := s.seen[p := Seen(id, t.tenant, t.user, t.family)])
      else s
    case Rotate(p, newId, expiresAt, now) =>
      if p in s.seen then
        var x := s.seen[p];
        s.(db := AfterRotation(s.db, x.tenant, x.id, newId, DraftOf(x, expiresAt), now), seen := s.seen - {p})
      else s
    case RevokeFamily(tenant, family, now) =>
      s.(db := s.db.(tokens := RevokeRows(s.db.tokens, tenant, OfFamily(family), now)))
    case RevokeUser(tenant, user, now) =>
      s.(db := s.db.(tokens := RevokeRows(s.db.tokens, tenant, OfUser(user), now)))
    case ConsumeReset(tenant, tokenId, user, password, now) =>
      s.(db := AfterPasswordReset(s.db, tenant, tokenId, user, password, now))
    case ConsumeEmail(tenant, tokenId, user, now) =>
      s.(db := AfterEmailVerification(s.db, tenant, tokenId, user, now))
    case MintVerification(tokenId, v) =>
      if tokenId in s.db.verifications then s
      else s.(db := s.db.(verifications := s.db.verifications[tokenId := v.(usedAt := None)]))
    case PutTenant(id, row) => s.(db := s.db.(tenants := s.db.tenants[id := row]))
    case PutUser(id, row) => s.(db := s.db.(users := s.db.users[id := row]))
  }

  function Run(s: Sys, steps: seq<Step>): Sys {
    if steps == [] then s else Apply(Run(s, steps[..|steps| - 1]), steps[|steps| - 1])
  }

  /** The verdict of a rotation step of a refresher that has looked its token up. */
  function VerdictAt(s: Sys, a: Step): Option<RotateVerdict> {
    if a.Rotate? && a.p in s.seen then
      Some(Rotation(s.db, s.seen[a.p].tenant, s.seen[a.p].id, a.newId, DraftOf(s.seen[a.p], a.expiresAt), a.now))
    else None
  }

  predicate Rotates(s: Sys, a: Step, id: Id) {
    VerdictAt(s, a) == Some(Rotated) && s.seen[a.p].id == id
  }

  /** One of the two consumers claims the verification token. */
  predicate Claims(s: Sys, a: Step, tokenId: Id) {
    match a
    case ConsumeReset(tenant, v, user, _, now) =>
      v == tokenId && Claim(s.db, tenant, v, user, PasswordReset, now) == Claimed
    case ConsumeEmail(tenant, v, user, now) =>
      v == tokenId && Claim(s.db, tenant, v, user, EmailVerification, now) == Claimed
    case _ => false
  }

  /** The step by which a login opens a family. */
  predicate Opens(s: Sys, a: Step, family: Id) {
    a.IssueLogin? && a.family == family && !Known(s.db.tokens, family) && Known(Apply(s, a).db.tokens, family)
  }

  lemma {:induction false} RunPrefix(s: Sys, steps: seq<Step>, i: nat)
    requires i < |steps|
    ensures Run(s, steps[..i + 1]) == Apply(Run(s, steps[..i]), steps[i])
  {
    assert steps[..i + 1][..i] == steps[..i];
  }

  // ---- the chain of one family ----

  predicate SameOrigin(a: Token, b: Token) {
    a.tenant == b.tenant && a.user == b.user && a.family == b.family
  }

  /** `chain` lists the whole family, oldest first: each token but the last was replaced by the next one
      and is revoked, the last was not replaced, and all belong to one tenant and one user. */
  ghost predicate IsChain(tokens: map<Id, Token>, family: Id, chain: seq<Id>) {
    && |chain| > 0
    && (forall i | 0 <= i < |chain| :: chain[i] in tokens && tokens[chain[i]].family == family)
    && (forall i | 0 <= i < |chain| :: SameOrigin(tokens[chain[i]], tokens[chain[0]]))
    && (forall i, j | 0 <= i < j < |chain| :: chain[i] != chain[j])
    && (forall id {:trigger id in chain} | id in tokens && tokens[id].family == family :: id in chain)
    && (forall i, j | 0 <= i < j < |chain| && j == i + 1 :: tokens[chain[i]].replacedBy == Some(chain[j]))
    && (forall i | 0 <= i < |chain| - 1 :: tokens[chain[i]].replacedBy.Some? && !Live(tokens[chain[i]]))
    && tokens[chain[|chain| - 1]].replacedBy.None?
  }

  ghost predicate Chained(tokens: map<Id, Token>) {
    forall f | Known(tokens, f) :: exists chain :: IsChain(tokens, f, chain)
  }

  ghost predicate Inv(s: Sys) {
    && Chained(s.db.tokens)
    && (forall p | p in s.seen ::
          var x := s.seen[p];
          x.id in s.db.tokens && x.tenant == s.db.tokens[x.id].tenant && x.user == s.db.tokens[x.id].user
          && x.family == s.db.tokens[x.id].family)
  }

  lemma ChainOf(tokens: map<Id, Token>, id: Id) returns (chain: seq<Id>)
    requires Chained(tokens) && id in tokens
    ensures IsChain(tokens, tokens[id].family, chain) && id in chain
  {
    assert Known(tokens, tokens[id].family);
    chain :| IsChain(tokens, tokens[id].family, chain);
  }

  lemma ChainSurvivesRevocation(tokens: map<Id, Token>, tenant: Id, scope: Scope, now: int)
    requires Chained(tokens)
    ensures Chained(RevokeRows(tokens, tenant, scope, now))
  {
    var tokens' := RevokeRows(tokens, tenant, scope, now);
    forall f | Known(tokens', f) ensures exists chain :: IsChain(tokens', f, chain) {
      var id :| id in tokens' && tokens'[id].family == f;
      var chain := ChainOf(tokens, id);
      assert IsChain(tokens', f, chain);
    }
  }

  lemma ChainStartsWithLogin(tokens: map<Id, Token>, newId: Id, d: Draft)
    requires Chained(tokens) && newId !in tokens && !Known(tokens, d.family)
    ensures Chained(tokens[newId := Fresh(d)])
  {
    var tokens' := tokens[newId := Fresh(d)];
    forall f | Known(tokens', f) ensures exists chain :: IsChain(tokens', f, chain) {
      if f == d.family {
        assert IsChain(tokens', f, [newId]);
      } else {
        var id :| id in tokens' && tokens'[id].family == f;
        var chain := ChainOf(tokens, id);
        assert IsChain(tokens', f, chain);
      }
    }
  }

  /** The tokens after a rotation of `oldId`. */
  function Replaced(tokens: map<Id, Token>, oldId: Id, newId: Id, d: Draft, now: int): map<Id, Token>
    requires oldId in tokens
  {
    tokens[newId := Fresh(d)][oldId := tokens[oldId].(revokedAt := Some(now), replacedBy := Some(newId))]
  }

  /** A rotation appends to the chain of its family, because only the last token is unspent. */
  lemma ChainExtends(tokens: map<Id, Token>, oldId: Id, newId: Id, d: Draft, now: int, chain: seq<Id>)
    requires oldId in tokens && newId !in tokens && !Spent(tokens[oldId]) && SameOrigin(Fresh(d), tokens[oldId])
    requires IsChain(tokens, d.family, chain) && oldId in chain
    ensures IsChain(Replaced(tokens, oldId, newId, d, now), d.family, chain + [newId])
  {
    assert chain[|chain| - 1] == oldId;
  }

  lemma ChainGrowsByRotation(tokens: map<Id, Token>, oldId: Id, newId: Id, d: Draft, now: int)
    requires Chained(tokens) && oldId in tokens && newId !in tokens && !Spent(tokens[oldId])
    requires SameOrigin(Fresh(d), tokens[oldId])
    ensures Chained(Replaced(tokens, oldId, newId, d, now))
  {
    var tokens' := Replaced(tokens, oldId, newId, d, now);
    forall f | Known(tokens', f) ensures exists chain :: IsChain(tokens', f, chain) {
      if f == d.family {
        var chain := ChainOf(tokens, oldId);
        ChainExtends(tokens, oldId, newId, d, now, chain);
      } else {
        var id :| id in tokens' && tokens'[id].family == f;
        var chain := ChainOf(tokens, id);
        assert IsChain(tokens', f, chain);
      }
    }
  }

  lemma RotateKeepsInv(s: Sys, a: Step)
    requires Inv(s) && a.Rotate?
    ensures Inv(Apply(s, a))
  {
    if a.p in s.seen {
      var x := s.seen[a.p];
      match VerdictAt(s, a).value
      case Rotated => ChainGrowsByRotation(s.db.tokens, x.id, a.newId, DraftOf(x, a.expiresAt), a.now);
      case Reused => ChainSurvivesRevocation(s.db.tokens, x.tenant, OfFamily(s.db.tokens[x.id].family), a.now);
      case _ =>
    }
  }

  lemma StepKeepsInv(s: Sys, a: Step)
    requires Inv(s)
    ensures Inv(Apply(s, a))
  {
    match a
    case IssueLogin(p, id, family, expiresAt) =>
      if p in s.admitted && id !in s.db.tokens && !Known(s.db.tokens, family) {
        ChainStartsWithLogin(s.db.tokens, id, Draft(s.admitted[p].tenant, s.admitted[p].user, family, expiresAt));
      }
    case Rotate(_, _, _, _) => RotateKeepsInv(s, a);
    case RevokeFamily(tenant, family, now) => ChainSurvivesRevocation(s.db.tokens, tenant, OfFamily(family), now);
    case RevokeUser(tenant, user, now) => ChainSurvivesRevocation(s.db.tokens, tenant, OfUser(user), now);
    case ConsumeReset(tenant, tokenId, user, password, now) =>
      ChainSurvivesRevocation(s.db.tokens, tenant, OfUser(user), now);
    case _ =>
  }

  /** In every reachable state the tokens of every family form one chain. */
  lemma {:induction false} FamiliesAreChains(s: Sys, steps: seq<Step>)
    requires Inv(s)
    ensures Inv(Run(s, steps))
  {
    if steps != [] {
      FamiliesAreChains(s, steps[..|steps| - 1]);
      StepKeepsInv(Run(s, steps[..|steps| - 1]), steps[|steps| - 1]);
    }
  }

  /** Hence a family never has two usable tokens, and the usable one is the one not yet replaced. */
  lemma {:induction false} OnlyTheTailIsLive(s: Sys, steps: seq<Step>, x: Id, y: Id)
    requires Inv(s)
    requires var tokens := Run(s, steps).db.tokens;
             x in tokens && y in tokens && tokens[x].family == tokens[y].family && Live(tokens[x])
    ensures var tokens := Run(s, steps).db.tokens;
            && tokens[x].replacedBy.None?
            && SameOrigin(tokens[x], tokens[y])
            && (Live(tokens[y]) ==> x == y)
            && (x != y ==> tokens[y].replacedBy.Some?)
  {
    FamiliesAreChains(s, steps);
    var tokens := Run(s, steps).db.tokens;
    var chain := ChainOf(tokens, x);
    assert y in chain;
  }

  // ---- what never comes back ----

  /** Rows are never deleted and keep their origin, revocations and replacements are final, a claimed
      verification token stays claimed, and no row is ever added to a family without a live token. */
  predicate Evolves(s: Tables, t: Tables) {
    && (forall id | id in s.tokens :: id in t.tokens && SameOrigin(s.tokens[id], t.tokens[id]))
    && (forall id | id in s.tokens && !Live(s.tokens[id]) :: t.tokens[id].revokedAt == s.tokens[id].revokedAt)
    && (forall id | id in s.tokens && s.tokens[id].replacedBy.Some? ::
          t.tokens[id].replacedBy == s.tokens[id].replacedBy)
    && (forall id | id in t.tokens && id !in s.tokens ::
          Known(s.tokens, t.tokens[id].family) ==> FamilyLive(s.tokens, t.tokens[id].family))
    && (forall v | v in s.verifications :: v in t.verifications
          && (s.verifications[v].usedAt.Some? ==> t.verifications[v].usedAt == s.verifications[v].usedAt))
  }

  lemma RevocationEvolves(d: Tables, tenant: Id, scope: Scope, now: int)
    ensures Evolves(d, d.(tokens := RevokeRows(d.tokens, tenant, scope, now)))
  {}

  lemma RotationEvolves(d: Tables, tenant: Id, oldId: Id, newId: Id, draft: Draft, now: int)
    ensures Evolves(d, AfterRotation(d, tenant, oldId, newId, draft, now))
  {
    match Rotation(d, tenant, oldId, newId, draft, now)
    case Rotated =>
      assert Live(d.tokens[oldId]) && FamilyLive(d.tokens, draft.family);
    case Reused => RevocationEvolves(d, tenant, OfFamily(d.tokens[oldId].family), now);
    case _ =>
  }

  lemma ResetEvolves(d: Tables, tenant: Id, tokenId: Id, user: Id, password: nat, now: int)
    ensures Evolves(d, AfterPasswordReset(d, tenant, tokenId, user, password, now))
  {
    RevocationEvolves(d, tenant, OfUser(user), now);
  }

  lemma IssueEvolves(d: Tables, id: Id, draft: Draft)
    requires id !in d.tokens && !Known(d.tokens, draft.family)
    ensures Evolves(d, d.(tokens := d.tokens[id := Fresh(draft)]))
  {}

  lemma StepEvolves(s: Sys, a: Step)
    ensures Evolves(s.db, Apply(s, a).db)
  {
    match a
    case IssueLogin(p, id, family, expiresAt) =>
      if p in s.admitted && id !in s.db.tokens && !Known(s.db.tokens, family) {
        IssueEvolves(s.db, id, Draft(s.admitted[p].tenant, s.admitted[p].user, family, expiresAt));
      }
    case Rotate(p, newId, expiresAt, now) =>
      if p in s.seen {
        RotationEvolves(s.db, s.seen[p].tenant, s.seen[p].id, newId, DraftOf(s.seen[p], expiresAt), now);
      }
    case RevokeFamily(tenant, family, now) => RevocationEvolves(s.db, tenant, OfFamily(family), now);
    case RevokeUser(tenant, user, now) => RevocationEvolves(s.db, tenant, OfUser(user), now);
    case ConsumeReset(tenant, tokenId, user, password, now) => ResetEvolves(s.db, tenant, tokenId, user, password, now);
    case _ =>
  }

  lemma EvolvesOn(r: Tables, s: Tables, t: Tables)
    requires Evolves(r, s) && Evolves(s, t)
    ensures Evolves(r, t)
  {
    forall id | id in t.tokens && id !in r.tokens && Known(r.tokens, t.tokens[id].family)
      ensures FamilyLive(r.tokens, t.tokens[id].family)
    {
      var f := t.tokens[id].family;
      if id !in s.tokens {
        var k :| k in r.tokens && r.tokens[k].family == f;
        assert k in s.tokens && s.tokens[k].family == f;
        var y :| y in s.tokens && s.tokens[y].family == f && Live(s.tokens[y]);
        if y in r.tokens {
          assert Live(r.tokens[y]);
        }
      }
    }
  }

  lemma {:induction false} StepInRunEvolves(s: Sys, steps: seq<Step>, j: nat)
    requires j < |steps|
    ensures Evolves(Run(s, steps[..j]).db, Run(s, steps[..j + 1]).db)
  {
    RunPrefix(s, steps, j);
    StepEvolves(Run(s, steps[..j]), steps[j]);
  }

  lemma {:induction false} RunEvolves(s: Sys, steps: seq<Step>, i: nat, j: nat)
    requires i <= j <= |steps|
    ensures Evolves(Run(s, steps[..i]).db, Run(s, steps[..j]).db)
    decreases j
  {
    if i < j {
      RunEvolves(s, steps, i, j - 1);
      StepInRunEvolves(s, steps, j - 1);
      EvolvesOn(Run(s, steps[..i]).db, Run(s, steps[..j - 1]).db, Run(s, steps[..j]).db);
    }
  }

  /** Once a family has no live token it never has one again, whatever interleaves. */
  lemma {:induction false} DeadFamilyStaysDead(s: Sys, steps: seq<Step>, i: nat, j: nat, family: Id)
    requires i <= j <= |steps|
    requires Dead(Run(s, steps[..i]).db.tokens, family)
    ensures Dead(Run(s, steps[..j]).db.tokens, family)
  {
    RunEvolves(s, steps, i, j);
    var before, after := Run(s, steps[..i]).db.tokens, Run(s, steps[..j]).db.tokens;
    var k :| k in before && before[k].family == family;
    assert k in after && after[k].family == family;
  }

  lemma OnlyLoginsOpenFamilies(s: Sys, a: Step, family: Id)
    requires Inv(s) && !Known(s.db.tokens, family) && Known(Apply(s, a).db.tokens, family)
    ensures Opens(s, a, family)
  {
    var id :| id in Apply(s, a).db.tokens && Apply(s, a).db.tokens[id].family == family;
    assert id !in s.db.tokens;
  }

  lemma {:induction false} NewFamilyWasOpened(s: Sys, steps: seq<Step>, k: nat, family: Id)
    requires Inv(s) && k < |steps|
    requires !Known(Run(s, steps[..k]).db.tokens, family) && Known(Run(s, steps[..k + 1]).db.tokens, family)
    ensures Opens(Run(s, steps[..k]), steps[k], family)
  {
    RunPrefix(s, steps, k);
    FamiliesAreChains(s, steps[..k]);
    OnlyLoginsOpenFamilies(Run(s, steps[..k]), steps[k], family);
  }

  /** A family that is known now and was not known then was opened by a login in between. */
  lemma {:induction false} FamilyOpenedInBetween(s: Sys, steps: seq<Step>, i: nat, j: nat, family: Id) returns (k: nat)
    requires i <= j <= |steps| && Inv(s)
    requires !Known(Run(s, steps[..i]).db.tokens, family) && Known(Run(s, steps[..j]).db.tokens, family)
    ensures i <= k < j && Opens(Run(s, steps[..k]), steps[k], family)
    decreases j
  {
    if Known(Run(s, steps[..j - 1]).db.tokens, family) {
      k := FamilyOpenedInBetween(s, steps, i, j - 1, family);
    } else {
      k := j - 1;
      NewFamilyWasOpened(s, steps, k, family);
    }
  }

  /** A step that leaves no live token of the user (respectively of the family). */
  predicate SignsOut(s: Sys, a: Step, tenant: Id, scope: Scope) {
    match a
    case ConsumeReset(t, v, user, _, now) =>
      t == tenant && scope == OfUser(user) && Claim(s.db, t, v, user, PasswordReset, now) == Claimed
    case RevokeUser(t, user, _) => t == tenant && scope == OfUser(user)
    case RevokeFamily(t, family, _) => t == tenant && scope == OfFamily(family)
    case Rotate(p, _, _, _) =>
      VerdictAt(s, a) == Some(Reused) && s.seen[p].tenant == tenant && scope == OfFamily(s.seen[p].family)
    case _ => false
  }

  lemma SignOutLeavesNothingLive(s: Sys, a: Step, tenant: Id, scope: Scope, id: Id)
    requires Inv(s) && SignsOut(s, a, tenant, scope)
    requires id in Apply(s, a).db.tokens && Selects(scope, tenant, Apply(s, a).db.tokens[id])
    ensures !Live(Apply(s, a).db.tokens[id])
  {
  }

  /** Rows of one family share tenant and user, so a scope selects all of them or none. */
  lemma ScopeSelectsWholeFamilies(tokens: map<Id, Token>, tenant: Id, scope: Scope, x: Id, y: Id)
    requires Chained(tokens) && x in tokens && y in tokens && tokens[x].family == tokens[y].family
    requires Selects(scope, tenant, tokens[x])
    ensures Selects(scope, tenant, tokens[y])
  {
    var chain := ChainOf(tokens, x);
    assert y in chain;
  }

  /** After a password reset, the revocation step of a password change, a logout or a detected reuse,
      every live token of the user or family belongs to a family that a login opened afterwards,
      however many refreshers had already looked their token up. */
  lemma {:induction false} LiveTokensStemFromLaterLogin(s: Sys, steps: seq<Step>, i: nat, j: nat, tenant: Id,
          scope: Scope, id: Id)
    returns (k: nat)
    requires Inv(s) && i < j <= |steps|
    requires SignsOut(Run(s, steps[..i]), steps[i], tenant, scope)
    requires var tokens := Run(s, steps[..j]).db.tokens;
             id in tokens && Selects(scope, tenant, tokens[id]) && Live(tokens[id])
    ensures i < k < j && Opens(Run(s, steps[..k]), steps[k], Run(s, steps[..j]).db.tokens[id].family)
  {
    var after, later := Run(s, steps[..i + 1]).db.tokens, Run(s, steps[..j]).db.tokens;
    var f := later[id].family;
    if Known(after, f) {
      assert !FamilyLive(after, f) by {
        forall y | y in after && after[y].family == f ensures !Live(after[y]) {
          SignedOutRowStaysRevoked(s, steps, i, j, tenant, scope, id, y);
        }
      }
      DeadFamilyStaysDead(s, steps, i + 1, j, f);
    }
    k := FamilyOpenedInBetween(s, steps, i + 1, j, f);
  }

  lemma {:induction false} SignedOutRowStaysRevoked(s: Sys, steps: seq<Step>, i: nat, j: nat, tenant: Id,
          scope: Scope, id: Id, y: Id)
    requires Inv(s) && i < j <= |steps|
    requires SignsOut(Run(s, steps[..i]), steps[i], tenant, scope)
    requires id in Run(s, steps[..j]).db.tokens && Selects(scope, tenant, Run(s, steps[..j]).db.tokens[id])
    requires y in Run(s, steps[..i + 1]).db.tokens
    requires Run(s, steps[..i + 1]).db.tokens[y].family == Run(s, steps[..j]).db.tokens[id].family
    ensures !Live(Run(s, steps[..i + 1]).db.tokens[y])
  {
    RunEvolves(s, steps, i + 1, j);
    FamiliesAreChains(s, steps[..j]);
    ScopeSelectsWholeFamilies(Run(s, steps[..j]).db.tokens, tenant, scope, id, y);
    RunPrefix(s, steps, i);
    FamiliesAreChains(s, steps[..i]);
    SignOutLeavesNothingLive(Run(s, steps[..i]), steps[i], tenant, scope, y);
  }

  // ---- each token is used once ----

  lemma RotationSpendsToken(s: Sys, a: Step, id: Id)
    requires Rotates(s, a, id)
    ensures id in Apply(s, a).db.tokens && Spent(Apply(s, a).db.tokens[id])
  {
  }

  /** Among any number of interleaved refreshes with one token at most one succeeds. */
  lemma {:induction false} AtMostOneRotation(s: Sys, steps: seq<Step>, i: nat, j: nat, id: Id)
    requires i < j < |steps|
    requires Rotates(Run(s, steps[..i]), steps[i], id)
    ensures !Rotates(Run(s, steps[..j]), steps[j], id)
  {
    RunPrefix(s, steps, i);
    RotationSpendsToken(Run(s, steps[..i]), steps[i], id);
    RunEvolves(s, steps, i + 1, j);
  }

  /** Detected reuse revokes every row of the token's family, and the revocation commits. */
  lemma ReuseKillsFamily(s: Sys, a: Step)
    requires Inv(s) && VerdictAt(s, a) == Some(Reused)
    ensures Dead(Apply(s, a).db.tokens, s.seen[a.p].family)
  {
    var x := s.seen[a.p];
    var after := Apply(s, a).db.tokens;
    forall y | y in after && after[y].family == x.family ensures !Live(after[y]) {
      ScopeSelectsWholeFamilies(s.db.tokens, x.tenant, OfFamily(x.family), x.id, y);
    }
    assert x.id in after && after[x.id].family == x.family;
  }

  /** A refresh writes exactly if it succeeds or detects reuse in a family that still has a live token; every
      other outcome leaves all tables as they were, whether its transaction commits or rolls back. */
  lemma RefreshWritesExactly(s: Sys, a: Step)
    requires Inv(s) && VerdictAt(s, a).Some?
    ensures Apply(s, a).db != s.db <==>
            VerdictAt(s, a) == Some(Rotated)
            || (VerdictAt(s, a) == Some(Reused) && FamilyLive(s.db.tokens, s.seen[a.p].family))
  {
    var x := s.seen[a.p];
    if VerdictAt(s, a) == Some(Reused) {
      var after := Apply(s, a).db.tokens;
      if FamilyLive(s.db.tokens, x.family) {
        var y :| y in s.db.tokens && s.db.tokens[y].family == x.family && Live(s.db.tokens[y]);
        ReuseKillsFamily(s, a);
        assert y in after && after[y].family == x.family;
      } else {
        assert after == s.db.tokens;
      }
    }
  }

  lemma SpentTokenIsRefused(s: Sys, a: Step)
    requires Inv(s) && VerdictAt(s, a).Some? && Spent(s.db.tokens[s.seen[a.p].id])
    ensures var x := s.seen[a.p]; var standing := StandingOf(s.db, x.tenant, x.user);
            VerdictAt(s, a) == Some(if standing == Active then Reused else RejectedSubject(standing))
  {
  }

  /** A later use of the same token is answered `Reused` exactly when its subject is still active. In that
      case the whole family is revoked and stays so, although the caller gets an error; otherwise the
      tables are left as they were. */
  lemma {:induction false} SecondUseRevokesFamily(s: Sys, steps: seq<Step>, i: nat, j: nat, n: nat, id: Id)
    requires Inv(s) && i < j < n <= |steps|
    requires Rotates(Run(s, steps[..i]), steps[i], id)
    requires VerdictAt(Run(s, steps[..j]), steps[j]).Some? && Run(s, steps[..j]).seen[steps[j].p].id == id
    ensures var t := Run(s, steps[..j]); var x := t.seen[steps[j].p]; var v := VerdictAt(t, steps[j]).value;
            if StandingOf(t.db, x.tenant, x.user) == Active then
              v == Reused && Dead(Run(s, steps[..n]).db.tokens, x.family)
            else
              v.RejectedSubject? && Apply(t, steps[j]).db == t.db
  {
    var t := Run(s, steps[..j]);
    assert id in t.db.tokens && Spent(t.db.tokens[id]) by {
      RunPrefix(s, steps, i);
      RotationSpendsToken(Run(s, steps[..i]), steps[i], id);
      RunEvolves(s, steps, i + 1, j);
    }
    FamiliesAreChains(s, steps[..j]);
    SpentTokenIsRefused(t, steps[j]);
    var x := t.seen[steps[j].p];
    if StandingOf(t.db, x.tenant, x.user) == Active {
      ReuseKillsFamily(t, steps[j]);
      RunPrefix(s, steps, j);
      DeadFamilyStaysDead(s, steps, j + 1, n, x.family);
    }
  }

  /** In a run a refresher's remembered origin always matches the row, so the branch that rolls a
      rotation back for a mismatched replacement, and the lookup of a vanished row, are never taken. */
  lemma {:induction false} RefreshNeverMismatches(s: Sys, steps: seq<Step>, a: Step)
    requires Inv(s)
    ensures VerdictAt(Run(s, steps), a) != Some(Mismatch) && VerdictAt(Run(s, steps), a) != Some(Unknown)
  {
    FamiliesAreChains(s, steps);
  }

  /** Of a verification token at most one use succeeds, whichever of its two consumers makes it. */
  lemma {:induction false} AtMostOneClaim(s: Sys, steps: seq<Step>, i: nat, j: nat, tokenId: Id)
    requires i < j < |steps|
    requires Claims(Run(s, steps[..i]), steps[i], tokenId)
    ensures !Claims(Run(s, steps[..j]), steps[j], tokenId)
  {
    RunPrefix(s, steps, i);
    RunEvolves(s, steps, i + 1, j);
  }

  // ---- logins whose password check came before the sign-out ----

  /** Some login has passed its check as this user and not issued its tokens yet. */
  predicate Pending(s: Sys, tenant: Id, user: Id) {
    exists p <- s.admitted :: s.admitted[p] == Admitted(tenant, user)
  }

  /** The step by which process p passes its check: the rows of its subject are active, and a password is the one
      in the row. */
  predicate Admits(s: Sys, a: Step, p: Id, who: Admitted) {
    && (a.CheckLogin? || a.AdmitLogin?) && a.p == p && a.user == who.user
    && p in Apply(s, a).admitted && Apply(s, a).admitted[p] == who
    && MayAct(s.db, who.tenant, who.user)
    && (a.CheckLogin? ==> s.db.users[who.user].password == a.password)
  }

  /** Between steps i and j a login passed its check and then opened the family. */
  ghost predicate OpenedByLaterCheck(s: Sys, steps: seq<Step>, i: nat, j: nat, who: Admitted, family: Id) {
    exists m, k :: i < m < k < j <= |steps| && Opens(Run(s, steps[..k]), steps[k], family)
                   && Admits(Run(s, steps[..m]), steps[m], steps[k].p, who)
  }

  predicate IsAdmitted(s: Sys, p: Id, who: Admitted) {
    p in s.admitted && s.admitted[p] == who
  }

  lemma NewlyAdmitted(s: Sys, a: Step, p: Id, who: Admitted)
    requires IsAdmitted(Apply(s, a), p, who) && !IsAdmitted(s, p, who)
    ensures Admits(s, a, p, who)
  {}

  lemma {:induction false} NewlyAdmittedInRun(s: Sys, steps: seq<Step>, m: nat, p: Id, who: Admitted)
    requires m < |steps|
    requires IsAdmitted(Run(s, steps[..m + 1]), p, who) && !IsAdmitted(Run(s, steps[..m]), p, who)
    ensures Admits(Run(s, steps[..m]), steps[m], p, who)
  {
    RunPrefix(s, steps, m);
    NewlyAdmitted(Run(s, steps[..m]), steps[m], p, who);
  }

  lemma {:induction false} AdmittedSince(s: Sys, steps: seq<Step>, i: nat, k: nat, p: Id, who: Admitted)
    returns (m: nat)
    requires i <= k <= |steps|
    requires IsAdmitted(Run(s, steps[..k]), p, who) && !IsAdmitted(Run(s, steps[..i]), p, who)
    ensures i <= m < k && Admits(Run(s, steps[..m]), steps[m], p, who)
    decreases k
  {
    if IsAdmitted(Run(s, steps[..k - 1]), p, who) {
      m := AdmittedSince(s, steps, i, k - 1, p, who);
    } else {
      m := k - 1;
      NewlyAdmittedInRun(s, steps, m, p, who);
    }
  }

  /** The login that opened the family of a live token was admitted as that token's tenant and user. */
  lemma {:induction false} OpenerOwnsTheFamily(s: Sys, steps: seq<Step>, k: nat, j: nat, tenant: Id, user: Id, id: Id)
    requires Inv(s) && k < j <= |steps|
    requires id in Run(s, steps[..j]).db.tokens && Selects(OfUser(user), tenant, Run(s, steps[..j]).db.tokens[id])
    requires Opens(Run(s, steps[..k]), steps[k], Run(s, steps[..j]).db.tokens[id].family)
    ensures steps[k].p in Run(s, steps[..k]).admitted
    ensures Run(s, steps[..k]).admitted[steps[k].p] == Admitted(tenant, user)
  {
    var first := steps[k].id;
    RunPrefix(s, steps, k);
    RunEvolves(s, steps, k + 1, j);
    FamiliesAreChains(s, steps[..j]);
    ScopeSelectsWholeFamilies(Run(s, steps[..j]).db.tokens, tenant, OfUser(user), id, first);
  }

  /** If no login of the user is pending when the sign-out commits, every live token afterwards comes from a
      login that passed its check after it, so one that knew the password of that later moment. */
  lemma {:induction false} LiveTokensStemFromLaterCheck(s: Sys, steps: seq<Step>, i: nat, j: nat, tenant: Id, user: Id,
                                                        id: Id)
    requires Inv(s) && i < j <= |steps|
    requires SignsOut(Run(s, steps[..i]), steps[i], tenant, OfUser(user)) && !Pending(Run(s, steps[..i]), tenant, user)
    requires var tokens := Run(s, steps[..j]).db.tokens;
             id in tokens && Selects(OfUser(user), tenant, tokens[id]) && Live(tokens[id])
    ensures OpenedByLaterCheck(s, steps, i, j, Admitted(tenant, user), Run(s, steps[..j]).db.tokens[id].family)
  {
    var k := LiveTokensStemFromLaterLogin(s, steps, i, j, tenant, OfUser(user), id);
    OpenerOwnsTheFamily(s, steps, k, j, tenant, user, id);
    RunPrefix(s, steps, i);
    var m := AdmittedSince(s, steps, i + 1, k, steps[k].p, Admitted(tenant, user));
  }

  /** If one is pending, it can go on right after the sign-out and its token is live, whatever new id and family
      it is given. */
  lemma PendingLoginOutlives(s: Sys, a: Step, tenant: Id, user: Id, p: Id, id: Id, family: Id, expiresAt: int)
    requires SignsOut(s, a, tenant, OfUser(user)) && p in s.admitted && s.admitted[p] == Admitted(tenant, user)
    requires id !in Apply(s, a).db.tokens && !Known(Apply(s, a).db.tokens, family)
    ensures var t := Apply(Apply(s, a), IssueLogin(p, id, family, expiresAt)).db.tokens;
            id in t && Selects(OfUser(user), tenant, t[id]) && Live(t[id]) && t[id].family == family
  {
    assert Apply(s, a).admitted == s.admitted;
  }

  lemma {:induction false} UnusedId(used: set<Id>) returns (id: Id)
    ensures forall x <- used :: x < id
    decreases |used|
  {
    if used == {} {
      id := 0;
    } else {
      var x :| x in used;
      id := UnusedId(used - {x});
      if id <= x { id := x + 1; }
      assert forall y <- used :: y == x || y in used - {x};
    }
  }

  /** Every live token of the user comes from a login that passed its check after the first step. */
  ghost predicate AllCheckedLater(s: Sys, steps: seq<Step>, tenant: Id, user: Id) {
    var tokens := Run(s, steps).db.tokens;
    forall id <- tokens :: Selects(OfUser(user), tenant, tokens[id]) && Live(tokens[id]) ==>
      OpenedByLaterCheck(s, steps, 0, |steps|, Admitted(tenant, user), tokens[id].family)
  }

  lemma {:induction false} PendingLoginBreaksIn(s: Sys, a: Step, tenant: Id, user: Id) returns (steps: seq<Step>)
    requires SignsOut(s, a, tenant, OfUser(user)) && Pending(s, tenant, user)
    ensures |steps| > 0 && steps[0] == a && !AllCheckedLater(s, steps, tenant, user)
  {
    var p :| p in s.admitted && s.admitted[p] == Admitted(tenant, user);
    var tokens := Apply(s, a).db.tokens;
    var id := UnusedId(tokens.Keys);
    var families := set x | x in tokens :: tokens[x].family;
    var family := UnusedId(families);
    assert forall x <- tokens :: tokens[x].family in families;
    PendingLoginOutlives(s, a, tenant, user, p, id, family, 0);
    steps := [a, IssueLogin(p, id, family, 0)];
    assert steps[..0] == [] && steps[..2] == steps;
    RunPrefix(s, steps, 0);
    RunPrefix(s, steps, 1);
    assert Run(s, steps) == Apply(Apply(s, a), steps[1]);
    assert Live(Run(s, steps).db.tokens[id]);
  }

  /** A sign-out shuts out every login whose check came before it, in all runs that go on from it, exactly if none
      is pending when it commits. */
  lemma {:induction false} ShutsOutExactly(s: Sys, a: Step, tenant: Id, user: Id)
    requires Inv(s) && SignsOut(s, a, tenant, OfUser(user))
    ensures !Pending(s, tenant, user) <==>
            forall steps: seq<Step> :: |steps| > 0 && steps[0] == a ==> AllCheckedLater(s, steps, tenant, user)
  {
    if Pending(s, tenant, user) {
      var steps := PendingLoginBreaksIn(s, a, tenant, user);
    } else {
      forall steps: seq<Step> | |steps| > 0 && steps[0] == a ensures AllCheckedLater(s, steps, tenant, user) {
        var tokens := Run(s, steps).db.tokens;
        forall id | id in tokens && Selects(OfUser(user), tenant, tokens[id]) && Live(tokens[id])
          ensures OpenedByLaterCheck(s, steps, 0, |steps|, Admitted(tenant, user), tokens[id].family)
        {
          assert steps[..0] == [] && steps[..|steps|] == steps;
          LiveTokensStemFromLaterCheck(s, steps, 0, |steps|, tenant, user, id);
        }
      }
    }
  }

  // ---- whether a new password survives the logins in flight ----

  /** A login in flight read the user's row with another password and will write it back. */
  predicate Restores(s: Sys, user: Id, password: nat) {
    exists p <- s.rows :: p in s.admitted && s.admitted[p].user == user && s.rows[p].password != password
  }

  /** The user's password is set otherwise than by a login's write-back. */
  predicate SetsPassword(a: Step, user: Id) {
    (a.ConsumeReset? && a.user == user) || (a.PutUser? && a.userId == user)
  }

  predicate HasPassword(s: Sys, user: Id, password: nat) {
    user in s.db.users && s.db.users[user].password == password
  }

  lemma StepKeepsPassword(s: Sys, a: Step, user: Id, password: nat)
    requires HasPassword(s, user, password) && !Restores(s, user, password) && !SetsPassword(a, user)
    ensures HasPassword(Apply(s, a), user, password) && !Restores(Apply(s, a), user, password)
  {}

  lemma {:induction false} RunKeepsPassword(s: Sys, steps: seq<Step>, user: Id, password: nat)
    requires HasPassword(s, user, password) && !Restores(s, user, password)
    requires forall a <- steps :: !SetsPassword(a, user)
    ensures HasPassword(Run(s, steps), user, password) && !Restores(Run(s, steps), user, password)
  {
    if steps != [] {
      RunKeepsPassword(s, steps[..|steps| - 1], user, password);
      StepKeepsPassword(Run(s, steps[..|steps| - 1]), steps[|steps| - 1], user, password);
    }
  }

  /** A password stays until it is set again, in all runs, exactly if no login in flight read the user's row with
      another one: a login writes the whole row back, password hash included. */
  lemma {:induction false} PasswordSurvivesExactly(s: Sys, user: Id, password: nat)
    requires HasPassword(s, user, password)
    ensures !Restores(s, user, password) <==>
            forall steps: seq<Step> ::
              (forall a <- steps :: !SetsPassword(a, user)) ==> HasPassword(Run(s, steps), user, password)
  {
    if Restores(s, user, password) {
      var p :| p in s.rows && p in s.admitted && s.admitted[p].user == user && s.rows[p].password != password;
      var steps := [WriteBack(p)];
      assert steps[..0] == [] && Run(s, steps) == Apply(s, WriteBack(p));
      assert !HasPassword(Run(s, steps), user, password);
    } else {
      forall steps: seq<Step> | forall a <- steps :: !SetsPassword(a, user)
        ensures HasPassword(Run(s, steps), user, password)
      {
        RunKeepsPassword(s, steps, user, password);
      }
    }
  }

  /** So a reset's password survives the logins whose row it overtook exactly if none of them is still in flight
      when it commits, but those that had read the very same password. */
  lemma {:induction false} ResetSurvivesExactly(s: Sys, tenant: Id, v: Id, user: Id, password: nat, now: int)
    requires Claim(s.db, tenant, v, user, PasswordReset, now) == Claimed
    ensures var t := Apply(s, ConsumeReset(tenant, v, user, password, now));
            && HasPassword(t, user, password)
            && (!Restores(s, user, password) <==>
                forall steps: seq<Step> ::
                  (forall a <- steps :: !SetsPassword(a, user)) ==> HasPassword(Run(t, steps), user, password))
  {
    var t := Apply(s, ConsumeReset(tenant, v, user, password, now));
    assert t.rows == s.rows && t.admitted == s.admitted;
    PasswordSurvivesExactly(t, user, password);
  }

  /** One active user with a pending password reset. */
  function OneUser(): Sys {
    Sys(Tables(map[1 := Tenant(true, false)], map[7 := User(1, false, false, 100, true)], map[],
               map[5 := Verification(1, 7, PasswordReset, 50, None)]), map[], map[], map[])
  }

  /** A pending login with the old password does occur: its check precedes a reset and its token follows it. */
  lemma LoginInFlightOutlivesReset()
    ensures
      var checked := Apply(OneUser(), CheckLogin(3, 7, 100));
      var reset := Apply(checked, ConsumeReset(1, 5, 7, 200, 10));
      var issued := Apply(reset, IssueLogin(3, 20, 30, 90));
      && Inv(OneUser()) && checked.admitted == map[3 := Admitted(1, 7)]
      && SignsOut(checked, ConsumeReset(1, 5, 7, 200, 10), 1, OfUser(7))
      && 7 in reset.db.users && reset.db.users[7].password != 100
      && 20 in issued.db.tokens && Selects(OfUser(7), 1, issued.db.tokens[20]) && Live(issued.db.tokens[20])
  {
    var checked := Apply(OneUser(), CheckLogin(3, 7, 100));
    assert checked.admitted == map[3 := Admitted(1, 7)] && 3 in checked.admitted;
    assert Claim(checked.db, 1, 5, 7, PasswordReset, 10) == Claimed;
    var reset := Apply(checked, ConsumeReset(1, 5, 7, 200, 10));
    assert reset.admitted == checked.admitted && reset.db.tokens == map[];
    assert !Known(reset.db.tokens, 30);
  }
}
