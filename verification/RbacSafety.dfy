/** What every run of role mutations keeps, whoever acts: `org:manage` stays exclusive to the Owner role,
    the organization keeps an active Owner, and conditional permission edits lose no update. */
module RbacSafety {
  import opened Wrappers
  import opened Rbac

  ghost predicate Consistent(o: Org) {
    && (forall r, q | r in o.roles && q in o.roles && o.roles[r].slug == o.roles[q].slug :: r == q)
    && (forall r | r in o.roles && o.roles[r].slug == OWNER :: o.roles[r].system)
    && (forall r | r in o.roles :: ORG_MANAGE in o.roles[r].perms <==> o.roles[r].slug == OWNER)
    && (forall r | r in o.roles :: o.roles[r].revision in o.stamps && r in o.usedIds)
    && (forall g | g in o.grants :: g.0 in o.members && g.1 in o.usedIds)
    && (forall i | i in o.invites :: o.invites[i].role in o.roles)
  }

  ghost predicate HasOwner(o: Org) {
    exists u :: u in o.members && ActiveOwner(o, u)
  }

  ghost predicate WellFormed(o: Org) {
    Consistent(o) && HasOwner(o)
  }

  lemma OwnerSlugTaken(o: Org)
    requires WellFormed(o)
    ensures SlugTaken(o, OWNER)
  {
    var u :| u in o.members && ActiveOwner(o, u);
    var r :| r in Held(o, u) && o.roles[r].slug == OWNER;
  }

  /** An active Owner stays one if they keep the grant, the role its slug, and the account its flags. */
  lemma OwnerStays(o: Org, p: Org, u: Id, r: Id)
    requires r in o.roles && o.roles[r].slug == OWNER && (u, r) in o.grants && ActiveMember(o, u)
    requires r in p.roles && p.roles[r].slug == OWNER && (u, r) in p.grants && ActiveMember(p, u)
    ensures exists w :: w in p.members && ActiveOwner(p, w)
  {
    assert r in Held(p, u);
    assert ActiveOwner(p, u);
  }

  lemma SomeOwner(o: Org) returns (u: Id, r: Id)
    requires WellFormed(o)
    ensures ActiveMember(o, u) && r in o.roles && o.roles[r].slug == OWNER && (u, r) in o.grants
  {
    u :| u in o.members && ActiveOwner(o, u);
    r :| r in Held(o, u) && o.roles[r].slug == OWNER;
  }

  lemma CreateKeepsConsistent(o: Org, op: Op)
    requires WellFormed(o) && op.CreateRole?
    ensures Consistent(Apply(o, op))
  {
    OwnerSlugTaken(o);
  }

  lemma AcceptKeepsConsistent(o: Org, op: Op)
    requires Consistent(o) && op.AcceptInvite?
    ensures Consistent(Apply(o, op))
  {
  }

  lemma EditKeepsConsistent(o: Org, op: Op)
    requires Consistent(o) && op.UpdatePermissions?
    ensures Consistent(Apply(o, op))
  {
  }

  lemma DeleteKeepsConsistent(o: Org, op: Op)
    requires Consistent(o) && op.DeleteRole?
    ensures Consistent(Apply(o, op))
  {
  }

  lemma OtherOpsKeepConsistent(o: Org, op: Op)
    requires Consistent(o)
    requires op.AssignRole? || op.RevokeRole? || op.InsertInvite? || op.SettleInvite?
    ensures Consistent(Apply(o, op))
  {
  }

  lemma StepKeepsOwner(o: Org, op: Op)
    requires WellFormed(o)
    ensures HasOwner(Apply(o, op))
  {
    var p := Apply(o, op);
    var u, r := SomeOwner(o);
    if Legal(o, op) && Verdict(o, op) == Ok && op.RevokeRole? && o.roles[op.role].slug == OWNER {
      var w :| w in o.members && ActiveOwner(o.(grants := o.grants - {(op.user, op.role)}), w);
      assert ActiveOwner(p, w);
    } else {
      OwnerStays(o, p, u, r);
    }
  }

  lemma StepKeepsWellFormed(o: Org, op: Op)
    requires WellFormed(o)
    ensures WellFormed(Apply(o, op))
  {
    StepKeepsOwner(o, op);
    if op.CreateRole? {
      CreateKeepsConsistent(o, op);
    } else if op.AcceptInvite? {
      AcceptKeepsConsistent(o, op);
    } else if op.UpdatePermissions? {
      EditKeepsConsistent(o, op);
    } else if op.DeleteRole? {
      DeleteKeepsConsistent(o, op);
    } else {
      OtherOpsKeepConsistent(o, op);
    }
  }

  /** In every reachable state some active user holds Owner and only the Owner role carries org:manage. */
  lemma {:induction false} RunKeepsWellFormed(o: Org, ops: seq<Op>)
    requires WellFormed(o)
    ensures WellFormed(Run(o, ops))
  {
    if ops != [] {
      RunKeepsWellFormed(o, ops[..|ops| - 1]);
      StepKeepsWellFormed(Run(o, ops[..|ops| - 1]), ops[|ops| - 1]);
    }
  }

  lemma OwnersManage(o: Org, user: Id)
    requires Consistent(o)
    ensures IsOwner(o, user) <==> ORG_MANAGE in PermsOf(o, user)
  {
    if IsOwner(o, user) {
      var r :| r in Held(o, user) && o.roles[r].slug == OWNER;
      assert ORG_MANAGE in o.roles[r].perms;
    }
  }

  /** So holding the Owner role and possessing org:manage are the same thing, for every user at any time. */
  lemma {:induction false} OwnerIffOrgManage(o: Org, ops: seq<Op>, user: Id)
    requires WellFormed(o)
    ensures IsOwner(Run(o, ops), user) <==> ORG_MANAGE in PermsOf(Run(o, ops), user)
  {
    RunKeepsWellFormed(o, ops);
    OwnersManage(Run(o, ops), user);
  }

  // ---- registration establishes the invariant ----

  const MANAGER_CODES := {"org:view", "member:invite", "member:view", "role:view", "team:create", "team:manage",
                          "team:view", "project:create", "project:manage", "project:view", "apikey:view",
                          "file:view", "file:upload", "file:delete"}
  const MEMBER_CODES := {"org:view", "member:view", "role:view", "team:view", "project:create", "project:view",
                         "file:view", "file:upload"}
  const GUEST_CODES := {"org:view", "member:view", "team:view", "project:view", "file:view"}

  /** The seeded roles, whatever the three lower ones may do. */
  function Seeded(catalog: set<string>, manager: set<string>, member: set<string>, guest: set<string>): map<Id, Role> {
    map[0 := Role(OWNER, true, 0, catalog, 0),
        1 := Role("admin", true, 10, catalog - {ORG_MANAGE}, 0),
        2 := Role("manager", true, 20, manager, 0),
        3 := Role("member", true, 30, member, 0),
        4 := Role("guest", true, 40, guest, 0)]
  }

  /** The organization Register leaves behind: five seeded roles and one Owner. */
  function Registered(catalog: set<string>, user: Id, email: string): Org {
    Org(catalog, map[user := Member(email, false, false)],
        Seeded(catalog, MANAGER_CODES * catalog, MEMBER_CODES * catalog, GUEST_CODES * catalog),
        {(user, 0)}, map[], {0}, {0, 1, 2, 3, 4})
  }

  lemma OnlyOwnerIsSeededWithOrgManage()
    ensures ORG_MANAGE !in MANAGER_CODES && ORG_MANAGE !in MEMBER_CODES && ORG_MANAGE !in GUEST_CODES
  {
    assert forall c <- MANAGER_CODES + MEMBER_CODES + GUEST_CODES :: |c| != |ORG_MANAGE|;
  }

  lemma SeededSlugsDiffer()
    ensures OWNER != "admin" && OWNER != "manager" && OWNER != "member" && OWNER != "guest"
    ensures "admin" != "manager" && "admin" != "member" && "admin" != "guest"
    ensures "manager" != "member" && "manager" != "guest" && "member" != "guest"
  {
    assert OWNER[0] == 'o' && "admin"[0] == 'a' && "guest"[0] == 'g' && "manager"[0] == 'm' && "member"[0] == 'm';
    assert |"manager"| == 7 && |"member"| == 6;
  }

  lemma SeededKeepsOrgManage(catalog: set<string>, manager: set<string>, member: set<string>, guest: set<string>, r: Id)
    requires ORG_MANAGE in catalog && ORG_MANAGE !in manager && ORG_MANAGE !in member && ORG_MANAGE !in guest
    requires r in Seeded(catalog, manager, member, guest)
    ensures var role := Seeded(catalog, manager, member, guest)[r];
            role.system && role.revision == 0 && (ORG_MANAGE in role.perms <==> role.slug == OWNER)
  {
    SeededSlugsDiffer();
  }

  lemma SeededSlugsAreUnique(catalog: set<string>, manager: set<string>, member: set<string>, guest: set<string>,
          r: Id, q: Id)
    requires r in Seeded(catalog, manager, member, guest) && q in Seeded(catalog, manager, member, guest)
    requires Seeded(catalog, manager, member, guest)[r].slug == Seeded(catalog, manager, member, guest)[q].slug
    ensures r == q
  {
    SeededSlugsDiffer();
  }

  lemma RegistrationIsConsistent(catalog: set<string>, user: Id, email: string)
    requires ORG_MANAGE in catalog
    ensures Consistent(Registered(catalog, user, email))
  {
    var o := Registered(catalog, user, email);
    OnlyOwnerIsSeededWithOrgManage();
    var manager, member, guest := MANAGER_CODES * catalog, MEMBER_CODES * catalog, GUEST_CODES * catalog;
    forall r, q | r in o.roles && q in o.roles && o.roles[r].slug == o.roles[q].slug ensures r == q {
      SeededSlugsAreUnique(catalog, manager, member, guest, r, q);
    }
    forall r | r in o.roles
      ensures o.roles[r].system && o.roles[r].revision == 0
              && (ORG_MANAGE in o.roles[r].perms <==> o.roles[r].slug == OWNER)
    {
      SeededKeepsOrgManage(catalog, manager, member, guest, r);
    }
    assert forall r <- o.roles :: r in o.usedIds;
  }

  lemma RegistrationIsWellFormed(catalog: set<string>, user: Id, email: string)
    requires ORG_MANAGE in catalog
    ensures WellFormed(Registered(catalog, user, email))
  {
    var o := Registered(catalog, user, email);
    RegistrationIsConsistent(catalog, user, email);
    OwnerStays(o, o, user, 0);
  }

  // ---- conditional edits ----

  /** The op edits `role`'s permissions and commits. */
  ghost predicate Edits(o: Org, op: Op, role: Id) {
    op.UpdatePermissions? && op.role == role && Legal(o, op) && Verdict(o, op) == Ok
  }

  /** From o to p the role either kept its permissions and revision or got a revision new since o. */
  ghost predicate EditedSince(o: Org, p: Org, role: Id) {
    && o.stamps <= p.stamps && o.usedIds <= p.usedIds
    && (role in p.roles && role in o.usedIds ==>
          role in o.roles
          && (p.roles[role].revision in o.stamps ==> p.roles[role] == o.roles[role]))
  }

  lemma StepEditsSince(o: Org, op: Op, role: Id)
    requires WellFormed(o)
    ensures EditedSince(o, Apply(o, op), role)
    ensures Edits(o, op, role) ==> Apply(o, op).roles[role].revision !in o.stamps
    ensures !Edits(o, op, role) && role in o.roles && role in Apply(o, op).roles ==>
              Apply(o, op).roles[role] == o.roles[role]
  {
  }

  lemma EditedSinceOn(o: Org, p: Org, q: Org, role: Id)
    requires EditedSince(o, p, role) && EditedSince(p, q, role)
    ensures EditedSince(o, q, role)
  {}

  lemma {:induction false} StepInRunEditsSince(o: Org, ops: seq<Op>, j: nat, role: Id)
    requires WellFormed(o) && 0 < j <= |ops|
    ensures EditedSince(Run(o, ops[..j - 1]), Run(o, ops[..j]), role)
  {
    RunPrefix(o, ops, j - 1);
    RunKeepsWellFormed(o, ops[..j - 1]);
    StepEditsSince(Run(o, ops[..j - 1]), ops[j - 1], role);
  }

  lemma {:induction false} RunEditsSince(o: Org, ops: seq<Op>, i: nat, j: nat, role: Id)
    requires WellFormed(o) && i <= j <= |ops|
    ensures EditedSince(Run(o, ops[..i]), Run(o, ops[..j]), role)
    decreases j
  {
    if i < j {
      RunEditsSince(o, ops, i, j - 1, role);
      StepInRunEditsSince(o, ops, j, role);
      EditedSinceOn(Run(o, ops[..i]), Run(o, ops[..j - 1]), Run(o, ops[..j]), role);
    }
  }

  /** After an edit the role never again has a revision it had before. */
  lemma {:induction false} EditRetiresRevisions(o: Org, ops: seq<Op>, k: nat, j: nat, i: nat, role: Id)
    requires WellFormed(o) && k <= j < i <= |ops|
    requires Edits(Run(o, ops[..j]), ops[j], role) && role in Run(o, ops[..i]).roles
    ensures Run(o, ops[..i]).roles[role].revision !in Run(o, ops[..k]).stamps
  {
    RunPrefix(o, ops, j);
    RunKeepsWellFormed(o, ops[..j]);
    StepEditsSince(Run(o, ops[..j]), ops[j], role);
    RunEditsSince(o, ops, k, j, role);
    RunEditsSince(o, ops, j + 1, i, role);
  }

  /** No lost update: an edit that carries the revision read at step k commits only if no edit of that
      role committed since, and then it replaces exactly the permissions that were read. */
  lemma {:induction false} NoLostUpdate(o: Org, ops: seq<Op>, k: nat, i: nat, role: Id)
    requires WellFormed(o) && k <= i < |ops|
    requires Edits(Run(o, ops[..i]), ops[i], role)
    requires role in Run(o, ops[..k]).roles && ops[i].expected == Some(Run(o, ops[..k]).roles[role].revision)
    ensures forall j | k <= j < i :: !Edits(Run(o, ops[..j]), ops[j], role)
    ensures Run(o, ops[..i]).roles[role].perms == Run(o, ops[..k]).roles[role].perms
  {
    RunKeepsWellFormed(o, ops[..k]);
    RunEditsSince(o, ops, k, i, role);
    forall j | k <= j < i ensures !Edits(Run(o, ops[..j]), ops[j], role) {
      if Edits(Run(o, ops[..j]), ops[j], role) {
        EditRetiresRevisions(o, ops, k, j, i, role);
      }
    }
  }

  lemma UneditedStepKept(o: Org, p: Org, op: Op, role: Id)
    requires WellFormed(p) && role in o.usedIds && EditedSince(o, p, role)
    requires !Edits(p, op, role) && role in Apply(p, op).roles
    ensures role in p.roles && Apply(p, op).roles[role] == p.roles[role]
  {
    StepEditsSince(p, op, role);
  }

  lemma {:induction false} RolesAreUsedIds(o: Org, ops: seq<Op>, role: Id)
    requires WellFormed(o) && role in Run(o, ops).roles
    ensures role in Run(o, ops).usedIds
  {
    RunKeepsWellFormed(o, ops);
  }

  lemma {:induction false} UneditedStepInRun(o: Org, ops: seq<Op>, r: Org, j: nat, role: Id)
    requires WellFormed(o) && 0 < j <= |ops| && role in r.usedIds && EditedSince(r, Run(o, ops[..j - 1]), role)
    requires role in Run(o, ops[..j]).roles && !Edits(Run(o, ops[..j - 1]), ops[j - 1], role)
    ensures role in Run(o, ops[..j - 1]).roles
    ensures Run(o, ops[..j]).roles[role] == Run(o, ops[..j - 1]).roles[role]
  {
    RunPrefix(o, ops, j - 1);
    RunKeepsWellFormed(o, ops[..j - 1]);
    UneditedStepKept(r, Run(o, ops[..j - 1]), ops[j - 1], role);
  }

  lemma {:induction false} UneditedRoleKept(o: Org, ops: seq<Op>, i: nat, j: nat, role: Id)
    requires WellFormed(o) && i <= j <= |ops|
    requires role in Run(o, ops[..i]).roles && role in Run(o, ops[..j]).roles
    requires forall n | i <= n < j :: !Edits(Run(o, ops[..n]), ops[n], role)
    ensures Run(o, ops[..j]).roles[role] == Run(o, ops[..i]).roles[role]
    decreases j
  {
    if i < j {
      RolesAreUsedIds(o, ops[..i], role);
      RunEditsSince(o, ops, i, j - 1, role);
      UneditedStepInRun(o, ops, Run(o, ops[..i]), j, role);
      UneditedRoleKept(o, ops, i, j - 1, role);
    }
  }

  /** Successful conditional edits form a chain: each one carries the revision its immediate predecessor
      wrote, so it is based on exactly that predecessor's permissions. */
  lemma {:induction false} EditsFormAChain(o: Org, ops: seq<Op>, i: nat, j: nat, role: Id)
    requires WellFormed(o) && i < j < |ops|
    requires Edits(Run(o, ops[..i]), ops[i], role) && Edits(Run(o, ops[..j]), ops[j], role)
    requires forall n | i < n < j :: !Edits(Run(o, ops[..n]), ops[n], role)
    requires ops[j].expected.Some?
    ensures ops[j].expected == Some(ops[i].stamp)
    ensures Run(o, ops[..j]).roles[role].perms == ops[i].codes
  {
    RunPrefix(o, ops, i);
    UneditedRoleKept(o, ops, i + 1, j, role);
  }
}
