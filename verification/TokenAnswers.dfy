/** When the token operations succeed, told from the rows and from the steps that made them: refreshes, verification
    tokens, and what a disabled user or a deactivated tenant can still do (internal/identity/repository.go). */
module TokenAnswers {
  import opened Wrappers
  import opened IdentityTables
  import opened TokenRuns

  // ---- a refresh ----

  /** The step adds the token row `id` with this expiry: the tokens of a login, or of an earlier refresh. */
  predicate Makes(s: Sys, a: Step, id: Id, expiresAt: int) {
    && id !in s.db.tokens && id in Apply(s, a).db.tokens
    && match a
       case IssueLogin(_, newId, _, e) => newId == id && e == expiresAt
       case Rotate(_, newId, e, _) => newId == id && e == expiresAt
       case _ => false
  }

  predicate Expires(s: Sys, id: Id, expiresAt: int) {
    id in s.db.tokens && s.db.tokens[id].expiresAt == expiresAt
  }

  lemma StepKeepsExpiry(s: Sys, a: Step, id: Id, expiresAt: int)
    requires Expires(s, id, expiresAt)
    ensures Expires(Apply(s, a), id, expiresAt)
  {}

  lemma {:induction false} StepInRunKeepsExpiry(s: Sys, steps: seq<Step>, j: nat, id: Id, expiresAt: int)
    requires j < |steps| && Expires(Run(s, steps[..j]), id, expiresAt)
    ensures Expires(Run(s, steps[..j + 1]), id, expiresAt)
  {
    RunPrefix(s, steps, j);
    StepKeepsExpiry(Run(s, steps[..j]), steps[j], id, expiresAt);
  }

  lemma MadeRowExpires(s: Sys, a: Step, id: Id, expiresAt: int)
    requires Makes(s, a, id, expiresAt)
    ensures Expires(Apply(s, a), id, expiresAt)
  {}

  lemma {:induction false} MadeRowInRun(s: Sys, steps: seq<Step>, m: nat, id: Id, expiresAt: int)
    requires m < |steps| && Makes(Run(s, steps[..m]), steps[m], id, expiresAt)
    ensures Expires(Run(s, steps[..m + 1]), id, expiresAt)
  {
    RunPrefix(s, steps, m);
    MadeRowExpires(Run(s, steps[..m]), steps[m], id, expiresAt);
  }

  lemma {:induction false} ExpiryStays(s: Sys, steps: seq<Step>, i: nat, j: nat, id: Id, expiresAt: int)
    requires i <= j <= |steps| && Expires(Run(s, steps[..i]), id, expiresAt)
    ensures Expires(Run(s, steps[..j]), id, expiresAt)
    decreases j
  {
    if i < j {
      ExpiryStays(s, steps, i, j - 1, id, expiresAt);
      StepInRunKeepsExpiry(s, steps, j - 1, id, expiresAt);
    }
  }

  lemma {:induction false} MadeRowKeepsExpiry(s: Sys, steps: seq<Step>, m: nat, j: nat, id: Id, expiresAt: int)
    requires m < j <= |steps| && Makes(Run(s, steps[..m]), steps[m], id, expiresAt)
    ensures Expires(Run(s, steps[..j]), id, expiresAt)
  {
    MadeRowInRun(s, steps, m, id, expiresAt);
    ExpiryStays(s, steps, m + 1, j, id, expiresAt);
  }

  /** The token can still be exchanged, if its subject may act. */
  predicate Usable(t: Token, expiresAt: int, now: int) {
    t.revokedAt.None? && t.replacedBy.None? && now < expiresAt
  }

  /** Whatever happened since a step made token `id`, and between the lookup of it and this rotation: the refresh adds
      its new row exactly if the token is neither revoked nor replaced, the expiry it was made with has not come, its
      subject's rows are active and the new id is unused. Then it writes the new row and the link to it, and nothing
      else. */
  lemma {:induction false} RefreshSucceedsExactly(s: Sys, steps: seq<Step>, m: nat, j: nat, id: Id, expiresAt: int)
    requires Inv(s) && m < j < |steps| && Makes(Run(s, steps[..m]), steps[m], id, expiresAt)
    requires var a := steps[j];
             a.Rotate? && a.p in Run(s, steps[..j]).seen && Run(s, steps[..j]).seen[a.p].id == id
    ensures var t, u, a := Run(s, steps[..j]).db, Run(s, steps[..j + 1]).db, steps[j];
            && id in t.tokens
            && var row := t.tokens[id];
               && ((a.newId !in t.tokens && a.newId in u.tokens) <==>
                     Usable(row, expiresAt, a.now) && MayAct(t, row.tenant, row.user) && a.newId !in t.tokens)
               && (a.newId !in t.tokens && a.newId in u.tokens ==>
                     u == t.(tokens := t.tokens[id := row.(revokedAt := Some(a.now), replacedBy := Some(a.newId))]
                                       [a.newId := Token(row.tenant, row.user, row.family, a.expiresAt, None, None)]))
  {
    MadeRowKeepsExpiry(s, steps, m, j, id, expiresAt);
    FamiliesAreChains(s, steps[..j]);
    RunPrefix(s, steps, j);
    RefreshWrites(Run(s, steps[..j]), steps[j]);
  }

  lemma RefreshWrites(s: Sys, a: Step)
    requires Inv(s) && VerdictAt(s, a).Some?
    ensures var row := s.db.tokens[s.seen[a.p].id];
            && (VerdictAt(s, a) == Some(Rotated) <==>
                  Usable(row, row.expiresAt, a.now) && MayAct(s.db, row.tenant, row.user) && a.newId !in s.db.tokens)
            && (VerdictAt(s, a) != Some(Rotated) ==> Apply(s, a).db.tokens.Keys == s.db.tokens.Keys)
            && (VerdictAt(s, a) == Some(Rotated) ==>
                  Apply(s, a).db == s.db.(tokens :=
                    s.db.tokens[s.seen[a.p].id := row.(revokedAt := Some(a.now), replacedBy := Some(a.newId))]
                               [a.newId := Token(row.tenant, row.user, row.family, a.expiresAt, None, None)]))
  {
    var id := s.seen[a.p].id;
    if VerdictAt(s, a) == Some(Rotated) {
      assert id != a.newId;
    }
  }

  /** The other answers, each exactly when. */
  lemma {:induction false} RefreshRefusalsExactly(s: Sys, steps: seq<Step>, m: nat, j: nat, id: Id, expiresAt: int)
    requires Inv(s) && m < j < |steps| && Makes(Run(s, steps[..m]), steps[m], id, expiresAt)
    requires var a := steps[j];
             a.Rotate? && a.p in Run(s, steps[..j]).seen && Run(s, steps[..j]).seen[a.p].id == id
    ensures var t, a := Run(s, steps[..j]).db, steps[j];
            && id in t.tokens
            && var row := t.tokens[id];
               var verdict := VerdictAt(Run(s, steps[..j]), a).value;
               && (verdict == RejectedSubject(TenantInactive) <==> !TenantActive(t, row.tenant))
               && (verdict == RejectedSubject(UserInactive) <==>
                     TenantActive(t, row.tenant) && !MayAct(t, row.tenant, row.user))
               && (verdict == Reused <==>
                     MayAct(t, row.tenant, row.user) && (row.revokedAt.Some? || row.replacedBy.Some?))
               && (verdict == Expired <==>
                     && MayAct(t, row.tenant, row.user) && row.revokedAt.None? && row.replacedBy.None?
                     && expiresAt <= a.now)
               && (verdict == Duplicate <==>
                     MayAct(t, row.tenant, row.user) && Usable(row, expiresAt, a.now) && a.newId in t.tokens)
  {
    MadeRowKeepsExpiry(s, steps, m, j, id, expiresAt);
    FamiliesAreChains(s, steps[..j]);
  }

  // ---- a verification token ----

  /** One of the two consumers is asked to use v and writes something. */
  predicate Uses(s: Sys, a: Step, v: Id) {
    (a.ConsumeReset? || a.ConsumeEmail?) && a.tokenId == v && Apply(s, a).db != s.db
  }

  /** The step adds the verification row. */
  predicate Mints(s: Sys, a: Step, v: Id, row: Verification) {
    a == MintVerification(v, row) && v !in s.db.verifications
  }

  /** The claim's condition, on the minted row. */
  predicate Claimable(row: Verification, tenant: Id, user: Id, purpose: Purpose, now: int) {
    row.purpose == purpose && row.tenant == tenant && row.user == user && now < row.expiresAt
  }

  predicate Unused(s: Sys, v: Id, row: Verification) {
    v in s.db.verifications && s.db.verifications[v] == row.(usedAt := None)
  }

  predicate Used(s: Sys, v: Id, row: Verification) {
    && v in s.db.verifications && s.db.verifications[v].usedAt.Some?
    && s.db.verifications[v] == row.(usedAt := s.db.verifications[v].usedAt)
  }

  /** What a consumer does with a row that is unused, or used. */
  lemma ConsumersUseExactly(s: Sys, a: Step, v: Id, row: Verification)
    requires (a.ConsumeReset? || a.ConsumeEmail?) && a.tokenId == v && (Unused(s, v, row) || Used(s, v, row))
    ensures var purpose := if a.ConsumeReset? then PasswordReset else EmailVerification;
            Uses(s, a, v) <==>
            Unused(s, v, row) && Claimable(row, a.tenant, a.user, purpose, a.now) && MayAct(s.db, a.tenant, a.user)
    ensures Uses(s, a, v) ==> Used(Apply(s, a), v, row)
  {
    if a.ConsumeReset? && Claim(s.db, a.tenant, v, a.user, PasswordReset, a.now) == Claimed {
      assert Apply(s, a).db.verifications[v].usedAt.Some?;
    }
    if a.ConsumeEmail? && Claim(s.db, a.tenant, v, a.user, EmailVerification, a.now) == Claimed {
      assert Apply(s, a).db.verifications[v].usedAt.Some?;
    }
  }

  lemma OtherStepsKeepRow(s: Sys, a: Step, v: Id)
    requires v in s.db.verifications && !Uses(s, a, v)
    ensures v in Apply(s, a).db.verifications && Apply(s, a).db.verifications[v] == s.db.verifications[v]
  {}

  /** A step between the minting and j used v. */
  ghost predicate UsedBefore(s: Sys, steps: seq<Step>, m: nat, j: nat, v: Id)
    requires j <= |steps|
  {
    exists n :: m < n < j && Uses(Run(s, steps[..n]), steps[n], v)
  }

  lemma MintedIsUnused(s: Sys, a: Step, v: Id, row: Verification)
    requires Mints(s, a, v, row)
    ensures Unused(Apply(s, a), v, row)
  {}

  predicate SameRow(s: Sys, t: Sys, v: Id) {
    v in s.db.verifications && v in t.db.verifications && t.db.verifications[v] == s.db.verifications[v]
  }

  lemma SameRowOn(s: Sys, t: Sys, u: Sys, v: Id)
    requires SameRow(s, t, v) && SameRow(t, u, v)
    ensures SameRow(s, u, v)
  {}

  lemma UsedOn(s: Sys, t: Sys, v: Id, row: Verification)
    requires Used(s, v, row) && SameRow(s, t, v)
    ensures Used(t, v, row)
  {}

  lemma {:induction false} StepInRunKeepsRow(s: Sys, steps: seq<Step>, j: nat, v: Id)
    requires j < |steps| && v in Run(s, steps[..j]).db.verifications && !Uses(Run(s, steps[..j]), steps[j], v)
    ensures SameRow(Run(s, steps[..j]), Run(s, steps[..j + 1]), v)
  {
    RunPrefix(s, steps, j);
    OtherStepsKeepRow(Run(s, steps[..j]), steps[j], v);
  }

  /** Only a use changes the row. */
  lemma {:induction false} ChangedRowWasUsed(s: Sys, steps: seq<Step>, i: nat, j: nat, v: Id) returns (n: nat)
    requires i <= j <= |steps| && v in Run(s, steps[..i]).db.verifications
    requires !SameRow(Run(s, steps[..i]), Run(s, steps[..j]), v)
    ensures i <= n < j && Uses(Run(s, steps[..n]), steps[n], v)
    decreases j
  {
    n := j - 1;
    if !SameRow(Run(s, steps[..i]), Run(s, steps[..n]), v) {
      n := ChangedRowWasUsed(s, steps, i, n, v);
    } else if !Uses(Run(s, steps[..n]), steps[n], v) {
      StepInRunKeepsRow(s, steps, n, v);
      SameRowOn(Run(s, steps[..i]), Run(s, steps[..n]), Run(s, steps[..j]), v);
    }
  }

  lemma UnusedOn(s: Sys, t: Sys, v: Id, row: Verification)
    requires Unused(s, v, row) && SameRow(s, t, v)
    ensures Unused(t, v, row)
  {}

  lemma {:induction false} MintedRowInRun(s: Sys, steps: seq<Step>, m: nat, v: Id, row: Verification)
    requires m < |steps| && Mints(Run(s, steps[..m]), steps[m], v, row)
    ensures Unused(Run(s, steps[..m + 1]), v, row)
  {
    RunPrefix(s, steps, m);
    MintedIsUnused(Run(s, steps[..m]), steps[m], v, row);
  }

  lemma {:induction false} MintedRowUnused(s: Sys, steps: seq<Step>, m: nat, j: nat, v: Id, row: Verification)
    requires m < j <= |steps| && Mints(Run(s, steps[..m]), steps[m], v, row) && !UsedBefore(s, steps, m, j, v)
    ensures Unused(Run(s, steps[..j]), v, row)
  {
    MintedRowInRun(s, steps, m, v, row);
    if SameRow(Run(s, steps[..m + 1]), Run(s, steps[..j]), v) {
      UnusedOn(Run(s, steps[..m + 1]), Run(s, steps[..j]), v, row);
    } else {
      var n := ChangedRowWasUsed(s, steps, m + 1, j, v);
    }
  }

  /** The minted row, used or not. */
  predicate Minted(s: Sys, v: Id, row: Verification) {
    v in s.db.verifications && s.db.verifications[v] == row.(usedAt := s.db.verifications[v].usedAt)
  }

  lemma StepKeepsMinted(s: Sys, a: Step, v: Id, row: Verification)
    requires Minted(s, v, row)
    ensures Minted(Apply(s, a), v, row)
  {}

  lemma {:induction false} StepInRunKeepsMinted(s: Sys, steps: seq<Step>, j: nat, v: Id, row: Verification)
    requires j < |steps| && Minted(Run(s, steps[..j]), v, row)
    ensures Minted(Run(s, steps[..j + 1]), v, row)
  {
    RunPrefix(s, steps, j);
    StepKeepsMinted(Run(s, steps[..j]), steps[j], v, row);
  }

  lemma {:induction false} MintedStays(s: Sys, steps: seq<Step>, m: nat, j: nat, v: Id, row: Verification)
    requires m < j <= |steps| && Mints(Run(s, steps[..m]), steps[m], v, row)
    ensures Minted(Run(s, steps[..j]), v, row)
    decreases j
  {
    if m + 1 < j {
      MintedStays(s, steps, m, j - 1, v, row);
      StepInRunKeepsMinted(s, steps, j - 1, v, row);
    } else {
      MintedRowInRun(s, steps, m, v, row);
    }
  }

  lemma {:induction false} UseMarksRow(s: Sys, steps: seq<Step>, n: nat, v: Id, row: Verification)
    requires n < |steps| && Minted(Run(s, steps[..n]), v, row) && Uses(Run(s, steps[..n]), steps[n], v)
    ensures Used(Run(s, steps[..n + 1]), v, row)
  {
    ConsumersUseExactly(Run(s, steps[..n]), steps[n], v, row);
    RunPrefix(s, steps, n);
  }

  lemma UsedStepStays(s: Sys, a: Step, v: Id)
    requires v in s.db.verifications && s.db.verifications[v].usedAt.Some?
    ensures SameRow(s, Apply(s, a), v)
  {}

  lemma {:induction false} StepInRunKeepsUsed(s: Sys, steps: seq<Step>, j: nat, v: Id)
    requires j < |steps| && v in Run(s, steps[..j]).db.verifications
    requires Run(s, steps[..j]).db.verifications[v].usedAt.Some?
    ensures SameRow(Run(s, steps[..j]), Run(s, steps[..j + 1]), v)
  {
    RunPrefix(s, steps, j);
    UsedStepStays(Run(s, steps[..j]), steps[j], v);
  }

  lemma {:induction false} UsedRowStays(s: Sys, steps: seq<Step>, i: nat, j: nat, v: Id)
    requires i <= j <= |steps|
    requires v in Run(s, steps[..i]).db.verifications && Run(s, steps[..i]).db.verifications[v].usedAt.Some?
    ensures SameRow(Run(s, steps[..i]), Run(s, steps[..j]), v)
    decreases j
  {
    if i < j {
      UsedRowStays(s, steps, i, j - 1, v);
      StepInRunKeepsUsed(s, steps, j - 1, v);
      SameRowOn(Run(s, steps[..i]), Run(s, steps[..j - 1]), Run(s, steps[..j]), v);
    }
  }

  lemma {:induction false} MintedRowUsed(s: Sys, steps: seq<Step>, m: nat, n: nat, j: nat, v: Id, row: Verification)
    requires m < n < j <= |steps| && Mints(Run(s, steps[..m]), steps[m], v, row)
    requires Uses(Run(s, steps[..n]), steps[n], v)
    ensures Used(Run(s, steps[..j]), v, row)
  {
    MintedStays(s, steps, m, n, v, row);
    UseMarksRow(s, steps, n, v, row);
    UsedRowStays(s, steps, n + 1, j, v);
    UsedOn(Run(s, steps[..n + 1]), Run(s, steps[..j]), v, row);
  }

  lemma {:induction false} MintedRowStays(s: Sys, steps: seq<Step>, m: nat, j: nat, v: Id, row: Verification)
    requires m < j <= |steps| && Mints(Run(s, steps[..m]), steps[m], v, row)
    ensures UsedBefore(s, steps, m, j, v) ==> Used(Run(s, steps[..j]), v, row)
    ensures !UsedBefore(s, steps, m, j, v) ==> Unused(Run(s, steps[..j]), v, row)
  {
    if UsedBefore(s, steps, m, j, v) {
      var n :| m < n < j && Uses(Run(s, steps[..n]), steps[n], v);
      MintedRowUsed(s, steps, m, n, j, v, row);
    } else {
      MintedRowUnused(s, steps, m, j, v, row);
    }
  }

  /** What the tables are after a reset that used v. */
  ghost predicate IsReset(d: Tables, t: Tables, tenant: Id, user: Id, v: Id, password: nat, now: int)
    requires user in d.users && v in d.verifications
  {
    && t.tenants == d.tenants
    && t.users == d.users[user := d.users[user].(password := password)]
    && t.verifications == d.verifications[v := d.verifications[v].(usedAt := Some(now))]
    && t.tokens.Keys == d.tokens.Keys
    && forall id <- d.tokens ::
         t.tokens[id] == if d.tokens[id].tenant == tenant && d.tokens[id].user == user && d.tokens[id].revokedAt.None?
                         then d.tokens[id].(revokedAt := Some(now)) else d.tokens[id]
  }

  lemma ResetWrites(s: Sys, a: Step)
    requires a.ConsumeReset? && Uses(s, a, a.tokenId)
    ensures a.user in s.db.users && a.tokenId in s.db.verifications
    ensures IsReset(s.db, Apply(s, a).db, a.tenant, a.user, a.tokenId, a.password, a.now)
  {}

  /** Whatever happened since a step minted v: a reset with v writes something exactly if v was minted as that user's
      password reset in that tenant, its expiry has not come, no step has used it, and the subject's rows are active.
      Then it sets the password, marks v used and ends every session of the user; nothing else changes. */
  lemma {:induction false} ResetSucceedsExactly(s: Sys, steps: seq<Step>, m: nat, j: nat, v: Id, row: Verification)
    requires m < j < |steps| && Mints(Run(s, steps[..m]), steps[m], v, row)
    requires steps[j].ConsumeReset? && steps[j].tokenId == v
    ensures var t, u, a := Run(s, steps[..j]).db, Run(s, steps[..j + 1]).db, steps[j];
            && (u != t <==>
                  && Claimable(row, a.tenant, a.user, PasswordReset, a.now)
                  && !UsedBefore(s, steps, m, j, v) && MayAct(t, a.tenant, a.user))
            && (u != t ==> a.user in t.users && v in t.verifications
                           && IsReset(t, u, a.tenant, a.user, v, a.password, a.now))
  {
    MintedRowStays(s, steps, m, j, v, row);
    RunPrefix(s, steps, j);
    ConsumersUseExactly(Run(s, steps[..j]), steps[j], v, row);
    if Uses(Run(s, steps[..j]), steps[j], v) {
      ResetWrites(Run(s, steps[..j]), steps[j]);
    }
  }

  /** The same for an email verification, which marks the address verified and v used and changes nothing else. */
  lemma {:induction false} VerificationSucceedsExactly(s: Sys, steps: seq<Step>, m: nat, j: nat, v: Id,
          row: Verification)
    requires m < j < |steps| && Mints(Run(s, steps[..m]), steps[m], v, row)
    requires steps[j].ConsumeEmail? && steps[j].tokenId == v
    ensures var t, u, a := Run(s, steps[..j]).db, Run(s, steps[..j + 1]).db, steps[j];
            && (u != t <==>
                  && Claimable(row, a.tenant, a.user, EmailVerification, a.now)
                  && !UsedBefore(s, steps, m, j, v) && MayAct(t, a.tenant, a.user))
            && (u != t ==> a.user in t.users && v in t.verifications
                           && var used := t.verifications[v].(usedAt := Some(a.now));
                              u == t.(users := t.users[a.user := t.users[a.user].(verified := true)],
                                      verifications := t.verifications[v := used]))
  {
    MintedRowStays(s, steps, m, j, v, row);
    RunPrefix(s, steps, j);
    ConsumersUseExactly(Run(s, steps[..j]), steps[j], v, row);
  }

  // ---- only active subjects act ----

  /** A password login is admitted exactly if the password is the one in the row and the subject's rows are active. */
  lemma LoginAdmitsExactly(s: Sys, p: Id, user: Id, password: nat)
    requires p !in s.admitted
    ensures p in Apply(s, CheckLogin(p, user, password)).admitted <==>
            && user in s.db.users && s.db.users[user].password == password
            && MayAct(s.db, s.db.users[user].tenant, user)
    ensures p in Apply(s, CheckLogin(p, user, password)).admitted ==>
            Apply(s, CheckLogin(p, user, password)).admitted[p] == Admitted(s.db.users[user].tenant, user)
  {}

  /** Whoever a login, a refresh or a consumer acts for: if the step writes a table or admits, the subject's rows
      are active. (A detected reuse is such a write.) */
  lemma OnlyActiveSubjectsAct(s: Sys, a: Step)
    requires Inv(s)
    ensures a.CheckLogin? && Apply(s, a) != s ==>
            a.user in s.db.users && MayAct(s.db, s.db.users[a.user].tenant, a.user)
    ensures a.AdmitLogin? && Apply(s, a) != s ==> MayAct(s.db, a.tenant, a.user)
    ensures a.Rotate? && Apply(s, a).db != s.db ==>
            a.p in s.seen && MayAct(s.db, s.seen[a.p].tenant, s.seen[a.p].user)
    ensures (a.ConsumeReset? || a.ConsumeEmail?) && Apply(s, a).db != s.db ==> MayAct(s.db, a.tenant, a.user)
  {}

  // ---- suspensions ----

  /** What is suspended: one account, or everyone of one tenant. */
  datatype Suspension = OfAccount(user: Id) | OfTenant(tenant: Id)

  predicate Covers(b: Suspension, tenant: Id, user: Id) {
    match b
    case OfAccount(u) => user == u
    case OfTenant(t) => tenant == t
  }

  /** The step disables or deletes the account, or deactivates or deletes the tenant. */
  predicate Suspends(a: Step, b: Suspension) {
    match b
    case OfAccount(u) => a.PutUser? && a.userId == u && (a.userRow.disabled || a.userRow.deleted)
    case OfTenant(t) => a.PutTenant? && a.tenantId == t && (!a.tenantRow.active || a.tenantRow.deleted)
  }

  /** The step writes the row in question on purpose. */
  predicate Resets(a: Step, b: Suspension) {
    match b
    case OfAccount(u) => a.PutUser? && a.userId == u
    case OfTenant(t) => a.PutTenant? && a.tenantId == t
  }

  /** And a login's write-back, which carries the row as that login read it. */
  predicate WritesBack(s: Sys, a: Step, b: Suspension) {
    b.OfAccount? && a.WriteBack? && a.p in s.admitted && s.admitted[a.p].user == b.user
  }

  predicate Suspended(s: Sys, b: Suspension) {
    match b
    case OfAccount(u) => u in s.db.users && (s.db.users[u].disabled || s.db.users[u].deleted)
    case OfTenant(t) => t in s.db.tenants && (!s.db.tenants[t].active || s.db.tenants[t].deleted)
  }

  predicate PendingIn(s: Sys, b: Suspension) {
    exists p <- s.admitted :: Covers(b, s.admitted[p].tenant, s.admitted[p].user)
  }

  lemma StepKeepsSuspended(s: Sys, a: Step, b: Suspension)
    requires Suspended(s, b) && !Resets(a, b) && !WritesBack(s, a, b)
    ensures Suspended(Apply(s, a), b)
  {}

  lemma SuspendedIsNotActive(s: Sys, b: Suspension, tenant: Id, user: Id)
    requires Suspended(s, b) && Covers(b, tenant, user)
    ensures !MayAct(s.db, tenant, user)
  {}

  lemma {:induction false} StepInRunKeepsSuspended(s: Sys, steps: seq<Step>, j: nat, b: Suspension)
    requires j < |steps| && Suspended(Run(s, steps[..j]), b)
    requires !Resets(steps[j], b) && !WritesBack(Run(s, steps[..j]), steps[j], b)
    ensures Suspended(Run(s, steps[..j + 1]), b)
  {
    RunPrefix(s, steps, j);
    StepKeepsSuspended(Run(s, steps[..j]), steps[j], b);
  }

  lemma {:induction false} SuspensionBegins(s: Sys, steps: seq<Step>, i: nat, b: Suspension)
    requires i < |steps| && Suspends(steps[i], b)
    ensures Suspended(Run(s, steps[..i + 1]), b)
  {
    RunPrefix(s, steps, i);
  }

  lemma {:induction false} SuspensionLasts(s: Sys, steps: seq<Step>, i: nat, j: nat, b: Suspension)
    requires i < j <= |steps| && Suspends(steps[i], b)
    requires forall n | i < n < j :: !Resets(steps[n], b) && !WritesBack(Run(s, steps[..n]), steps[n], b)
    ensures Suspended(Run(s, steps[..j]), b)
    decreases j
  {
    if i + 1 < j {
      SuspensionLasts(s, steps, i, j - 1, b);
      StepInRunKeepsSuspended(s, steps, j - 1, b);
    } else {
      SuspensionBegins(s, steps, i, b);
    }
  }

  /** From the step that disables a user, or deactivates a tenant, until the row is next written: no login of theirs
      is admitted, and none of their refreshes, resets or verifications writes anything. */
  lemma {:induction false} SuspendedCannotAct(s: Sys, steps: seq<Step>, i: nat, j: nat, b: Suspension)
    requires Inv(s) && i < j < |steps| && Suspends(steps[i], b)
    requires forall n | i < n < j :: !Resets(steps[n], b) && !WritesBack(Run(s, steps[..n]), steps[n], b)
    ensures var t, a := Run(s, steps[..j]), steps[j];
            && (forall p: Id, who: Admitted :: Covers(b, who.tenant, who.user) ==> !Admits(t, a, p, who))
            && (a.Rotate? && a.p in t.seen && Covers(b, t.seen[a.p].tenant, t.seen[a.p].user) ==>
                  Apply(t, a).db == t.db)
            && ((a.ConsumeReset? || a.ConsumeEmail?) && Covers(b, a.tenant, a.user) ==> Apply(t, a).db == t.db)
  {
    var t := Run(s, steps[..j]);
    SuspensionLasts(s, steps, i, j, b);
    forall tenant, user | Covers(b, tenant, user) ensures !MayAct(t.db, tenant, user) {
      SuspendedIsNotActive(t, b, tenant, user);
    }
    FamiliesAreChains(s, steps[..j]);
    OnlyActiveSubjectsAct(t, steps[j]);
  }

  /** Every token of theirs was there before. */
  predicate NoneAdded(before: map<Id, Token>, after: map<Id, Token>, b: Suspension) {
    forall id <- after :: Covers(b, after[id].tenant, after[id].user) ==> id in before
  }

  lemma StepAddsNone(s: Sys, a: Step, b: Suspension)
    requires Suspended(s, b) && !PendingIn(s, b) && !Resets(a, b)
    ensures Suspended(Apply(s, a), b) && !PendingIn(Apply(s, a), b)
    ensures NoneAdded(s.db.tokens, Apply(s, a).db.tokens, b)
  {
    StepKeepsSuspended(s, a, b);
  }

  lemma NoneAddedOn(d: Tables, e: Tables, f: Tables, b: Suspension)
    requires NoneAdded(d.tokens, e.tokens, b) && NoneAdded(e.tokens, f.tokens, b) && Evolves(e, f)
    ensures NoneAdded(d.tokens, f.tokens, b)
  {}

  lemma {:induction false} RunAddsNone(s: Sys, steps: seq<Step>, b: Suspension)
    requires Suspended(s, b) && !PendingIn(s, b) && forall a <- steps :: !Resets(a, b)
    ensures Suspended(Run(s, steps), b) && !PendingIn(Run(s, steps), b)
    ensures NoneAdded(s.db.tokens, Run(s, steps).db.tokens, b)
  {
    if steps != [] {
      var before, last := Run(s, steps[..|steps| - 1]), steps[|steps| - 1];
      RunAddsNone(s, steps[..|steps| - 1], b);
      StepAddsNone(before, last, b);
      StepEvolves(before, last);
      NoneAddedOn(s.db, before.db, Apply(before, last).db, b);
    }
  }

  lemma {:induction false} PendingLoginAddsOne(s: Sys, b: Suspension) returns (steps: seq<Step>)
    requires PendingIn(s, b)
    ensures (forall a <- steps :: !Resets(a, b)) && !NoneAdded(s.db.tokens, Run(s, steps).db.tokens, b)
  {
    var p :| p in s.admitted && Covers(b, s.admitted[p].tenant, s.admitted[p].user);
    var id := UnusedId(s.db.tokens.Keys);
    var families := set x | x in s.db.tokens :: s.db.tokens[x].family;
    var family := UnusedId(families);
    assert forall x <- s.db.tokens :: s.db.tokens[x].family in families;
    steps := [IssueLogin(p, id, family, 0)];
    assert steps[..0] == [] && Run(s, steps) == Apply(s, steps[0]);
  }

  /** Disabling a user, or deactivating a tenant, keeps them from getting any further token, in all runs until the row
      is set again, exactly if none of their logins is between its check and its tokens when it commits. */
  lemma {:induction false} SuspensionStopsTokensExactly(s: Sys, a: Step, b: Suspension)
    requires Suspends(a, b)
    ensures var t := Apply(s, a);
            !PendingIn(s, b) <==>
            forall steps: seq<Step> :: (forall c <- steps :: !Resets(c, b)) ==>
              NoneAdded(t.db.tokens, Run(t, steps).db.tokens, b)
  {
    var t := Apply(s, a);
    assert t.admitted == s.admitted && Suspended(t, b);
    if PendingIn(s, b) {
      var steps := PendingLoginAddsOne(t, b);
    } else {
      forall steps: seq<Step> | forall c <- steps :: !Resets(c, b)
        ensures NoneAdded(t.db.tokens, Run(t, steps).db.tokens, b)
      {
        RunAddsNone(t, steps, b);
      }
    }
  }
}
