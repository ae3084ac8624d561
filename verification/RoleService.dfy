/** The role mutations statement by statement (internal/authz/service.go and repository.go), each proved
    to commit exactly what `Rbac.Apply` says and to answer `Rbac.Verdict`. */
module RoleService {
  import opened Wrappers
  import opened Rbac
  import Slug

  function Codes(codes: seq<string>): set<string> {
    set c | c in codes
  }

  ghost predicate Distinct(codes: seq<string>) {
    forall i, j | 0 <= i < j < |codes| :: codes[i] != codes[j]
  }

  /** `kept` are the positions of the survivors, in order. */
  ghost predicate FirstOccurrences(codes: seq<string>, out: seq<string>, kept: seq<nat>) {
    && |kept| == |out|
    && (forall i | 0 <= i < |kept| :: kept[i] < |codes| && codes[kept[i]] == out[i] && out[i] !in codes[..kept[i]])
    && (forall i, j | 0 <= i < j < |kept| :: kept[i] < kept[j])
  }

  /** Duplicates go, first occurrences stay in their order. */
  method UniquePermissionCodes(codes: seq<string>) returns (out: seq<string>, ghost kept: seq<nat>)
    ensures Distinct(out) && Codes(out) == Codes(codes)
    ensures FirstOccurrences(codes, out, kept)
  {
    var seen: set<string> := {};
    out, kept := [], [];
    for i := 0 to |codes|
      invariant seen == Codes(codes[..i]) == Codes(out)
      invariant Distinct(out)
      invariant FirstOccurrences(codes[..i], out, kept)
    {
      var code := codes[i];
      assert codes[..i + 1] == codes[..i] + [code];
      assert forall k | 0 <= k < |kept| :: codes[..i + 1][..kept[k]] == codes[..i][..kept[k]];
      if code in seen {
        continue;
      }
      assert code !in out && codes[..i + 1][..i] == codes[..i];
      seen := seen + {code};
      out := out + [code];
      kept := kept + [i];
    }
    assert codes[..|codes|] == codes;
  }

  lemma DistinctCount(codes: seq<string>)
    requires Distinct(codes)
    ensures |Codes(codes)| == |codes|
  {
    if codes != [] {
      var init := codes[..|codes| - 1];
      DistinctCount(init);
      assert Codes(codes) == Codes(init) + {codes[|codes| - 1]};
    }
  }

  lemma BestRankIsUnique(o: Org, user: Id, a: int, b: int)
    requires IsBestRank(o, user, a) && IsBestRank(o, user, b)
    ensures a == b
  {
  }

  /** authorizeRoleDelegation */
  method AuthorizeRoleDelegation(actor: Access, role: Role, codes: seq<string>) returns (allowed: bool)
    ensures allowed <==> MayDelegate(actor, role, Codes(codes))
  {
    if role.slug == OWNER && !actor.isOwner { return false; }
    if !actor.isOwner && role.rank <= actor.rank { return false; }
    for i := 0 to |codes|
      invariant forall k | 0 <= k < i :: codes[k] in actor.perms && (codes[k] == ORG_MANAGE ==> role.slug == OWNER)
    {
      if codes[i] == ORG_MANAGE && role.slug != OWNER { return false; }
      if codes[i] !in actor.perms { return false; }
    }
    return true;
  }

  class RoleService {
    var catalog: set<string>
    var members: map<Id, Member>
    var roles: map<Id, Role>
    var grants: set<(Id, Id)>
    var invites: map<Id, Invite>
    var stamps: set<nat>
    var usedIds: set<Id>

    ghost function State(): Org
      reads this
    {
      Org(catalog, members, roles, grants, invites, stamps, usedIds)
    }

    constructor (o: Org)
      ensures State() == o
    {
      catalog, members, roles, grants := o.catalog, o.members, o.roles, o.grants;
      invites, stamps, usedIds := o.invites, o.stamps, o.usedIds;
    }

    /** actorAccessTx: the actor's best rank, ownership and permission union, or none without a role. */
    method ActorAccess(user: Id) returns (access: Option<Access>)
      ensures access == AccessOf(State(), user)
    {
      if user !in members || members[user].deleted { return None; }
      var held := set r | r in roles && (user, r) in grants;
      ghost var o := State();
      assert held == Held(o, user);
      if held == {} { return None; }
      var first :| first in held;
      var rank, isOwner, perms := roles[first].rank, roles[first].slug == OWNER, roles[first].perms;
      var rest := held - {first};
      while rest != {}
        invariant rest <= held && first in held && first !in rest
        invariant exists r :: r in held - rest && roles[r].rank == rank
        invariant forall r | r in held - rest :: rank <= roles[r].rank
        invariant isOwner <==> exists r :: r in held - rest && roles[r].slug == OWNER
        invariant forall p :: p in perms <==> exists r :: r in held - rest && p in roles[r].perms
      {
        ghost var done := held - rest;
        var r :| r in rest;
        rest := rest - {r};
        assert held - rest == done + {r};
        if roles[r].rank < rank { rank := roles[r].rank; }
        if roles[r].slug == OWNER { isOwner := true; }
        perms := perms + roles[r].perms;
      }
      assert held - rest == held;
      assert IsBestRank(o, user, rank);
      BestRankIsUnique(o, user, rank, BestRank(o, user));
      assert perms == PermsOf(o, user);
      return Some(Access(rank, isOwner, perms));
    }

    /** The delegation check against another user: may the actor touch this user's roles at all? */
    method MayTouch(actor: Access, user: Id) returns (allowed: bool)
      ensures allowed <==> OutranksUser(State(), actor, user)
    {
      ghost var o := State();
      var held := set r | r in roles && (user, r) in grants;
      assert held == Held(o, user);
      if held == {} || actor.isOwner { return true; }
      allowed := true;
      var rest := held;
      while rest != {}
        invariant rest <= held
        invariant allowed <==> forall r | r in held - rest :: actor.rank < roles[r].rank
      {
        ghost var done := held - rest;
        var r :| r in rest;
        rest := rest - {r};
        assert held - rest == done + {r};
        if roles[r].rank <= actor.rank { allowed := false; }
      }
      assert held - rest == held;
      assert IsBestRank(o, user, BestRank(o, user));
    }

    method CreateRole(actorId: Id, role: Id, name: string, permissionCodes: seq<string>, stamp: nat)
      returns (out: Outcome)
      requires Legal(State(), Op.CreateRole(actorId, role, name, Codes(permissionCodes), stamp))
      modifies this`roles, this`stamps, this`usedIds
      ensures out == Verdict(old(State()), Op.CreateRole(actorId, role, name, Codes(permissionCodes), stamp))
      ensures State() == Apply(old(State()), Op.CreateRole(actorId, role, name, Codes(permissionCodes), stamp))
    {
      var codes, _ := UniquePermissionCodes(permissionCodes);
      var slug := Slug.Make(name);
      var actor := ActorAccess(actorId);
      if actor.None? { return Err(NotFound); }
      if !actor.value.isOwner && CUSTOM_RANK <= actor.value.rank { return Err(Forbidden); }
      var known := PermissionsByCodes(codes);
      if !known { return Err(Validation); }
      for i := 0 to |codes|
        invariant forall k | 0 <= k < i :: codes[k] != ORG_MANAGE && codes[k] in actor.value.perms
      {
        if codes[i] == ORG_MANAGE { return Err(Forbidden); }
        if codes[i] !in actor.value.perms { return Err(Forbidden); }
      }
      if exists r :: r in roles && roles[r].slug == slug { return Err(Internal); }
      roles := roles[role := Role(slug, false, CUSTOM_RANK, Codes(codes), stamp)];
      stamps, usedIds := stamps + {stamp}, usedIds + {role};
      return Ok;
    }

    /** permissionsByCodesTx: as many catalog rows as codes, or some code is unknown. */
    method PermissionsByCodes(codes: seq<string>) returns (known: bool)
      requires Distinct(codes)
      ensures known <==> Codes(codes) <= catalog
    {
      var found := set c | c in catalog && c in codes;
      DistinctCount(codes);
      assert found == Codes(codes) * catalog;
      known := |found| == |codes|;
      if known {
        CountedSubset(found, Codes(codes));
      } else {
        assert Codes(codes) <= catalog ==> found == Codes(codes);
      }
    }

    method UpdateRolePermissions(actorId: Id, roleId: Id, permissionCodes: seq<string>, expected: Option<nat>,
            stamp: nat)
      returns (out: Outcome)
      requires Legal(State(), UpdatePermissions(actorId, roleId, Codes(permissionCodes), expected, stamp))
      modifies this`roles, this`stamps
      ensures out == Verdict(old(State()), UpdatePermissions(actorId, roleId, Codes(permissionCodes), expected, stamp))
      ensures State() ==
              Apply(old(State()), UpdatePermissions(actorId, roleId, Codes(permissionCodes), expected, stamp))
    {
      var codes, _ := UniquePermissionCodes(permissionCodes);
      var actor := ActorAccess(actorId);
      if actor.None? { return Err(NotFound); }
      if roleId !in roles { return Err(NotFound); }
      var role := roles[roleId];
      if expected.Some? && role.revision != expected.value { return Err(Conflict); }
      var known := PermissionsByCodes(codes);
      if !known { return Err(Validation); }
      var allowed := AuthorizeRoleDelegation(actor.value, role, codes);
      if !allowed { return Err(Forbidden); }
      if role.slug == OWNER {
        var hasOrgManage := false;
        for i := 0 to |codes|
          invariant hasOrgManage <==> ORG_MANAGE in codes[..i]
        {
          if codes[i] == ORG_MANAGE { hasOrgManage := true; }
        }
        assert codes[..|codes|] == codes;
        if !hasOrgManage { return Err(Forbidden); }
      }
      roles := roles[roleId := role.(perms := Codes(codes), revision := stamp)];
      stamps := stamps + {stamp};
      return Ok;
    }

    /** The role goes with its grants, unless an invitation still names it. */
    method DeleteRole(actorId: Id, roleId: Id) returns (out: Outcome)
      modifies this`roles, this`grants
      ensures out == Verdict(old(State()), Op.DeleteRole(actorId, roleId))
      ensures State() == Apply(old(State()), Op.DeleteRole(actorId, roleId))
    {
      var actor := ActorAccess(actorId);
      if actor.None? { return Err(NotFound); }
      if roleId !in roles { return Err(NotFound); }
      var role := roles[roleId];
      if role.system { return Err(Forbidden); }
      if !MayControl(actor.value, role, role.perms) { return Err(Forbidden); }
      if exists i :: i in invites && invites[i].role == roleId { return Err(Internal); }
      roles := roles - {roleId};
      grants := set g | g in grants && g.1 != roleId;
      return Ok;
    }

    method AssignRole(userId: Id, roleId: Id, assignedBy: Id) returns (out: Outcome)
      modifies this`grants
      ensures out == Verdict(old(State()), Op.AssignRole(assignedBy, userId, roleId))
      ensures State() == Apply(old(State()), Op.AssignRole(assignedBy, userId, roleId))
    {
      var actor := ActorAccess(assignedBy);
      if actor.None? { return Err(NotFound); }
      if roleId !in roles { return Err(NotFound); }
      var role := roles[roleId];
      if !MayDelegate(actor.value, role, role.perms) { return Err(Forbidden); }
      if userId !in members || members[userId].deleted { return Err(NotFound); }
      var allowed := MayTouch(actor.value, userId);
      if !allowed { return Err(Forbidden); }
      grants := grants + {(userId, roleId)};
      return Ok;
    }

    /** Deletes first and counts afterwards; a last Owner's removal is rolled back. */
    method RevokeRole(actorId: Id, userId: Id, roleId: Id) returns (out: Outcome)
      modifies this`grants
      ensures out == Verdict(old(State()), Op.RevokeRole(actorId, userId, roleId))
      ensures State() == Apply(old(State()), Op.RevokeRole(actorId, userId, roleId))
    {
      var begin := grants;
      var actor := ActorAccess(actorId);
      if actor.None? { return Err(NotFound); }
      if roleId !in roles { return Err(NotFound); }
      var role := roles[roleId];
      if !MayControl(actor.value, role, role.perms) { return Err(Forbidden); }
      if userId !in members || members[userId].deleted { return Err(NotFound); }
      var allowed := MayTouch(actor.value, userId);
      if !allowed { return Err(Forbidden); }
      if (userId, roleId) !in grants { return Err(Conflict); }
      grants := grants - {(userId, roleId)};
      if role.slug == OWNER {
        var owners := OwnerCount();
        assert State() == old(State()).(grants := grants);
        if owners == 0 {
          grants := begin;
          return Err(Conflict);
        }
      }
      return Ok;
    }

    /** ownerCountTx: the rows that grant an owner role to an active account. */
    method OwnerCount() returns (count: nat)
      ensures count > 0 <==> OwnerRemains(State(), grants)
    {
      var rows := set g | g in grants && g.1 in roles && roles[g.1].slug == OWNER
                          && g.0 in members && !members[g.0].deleted && !members[g.0].disabled;
      count := |rows|;
      ghost var o := State();
      assert o.(grants := grants) == o;
      if count > 0 {
        var g :| g in rows;
        assert g.1 in Held(o, g.0);
        assert ActiveOwner(o, g.0);
      } else {
        forall u: Id, r: Id | ActiveMember(o, u) && r in Held(o, u) ensures o.roles[r].slug != OWNER {
          assert (u, r) !in rows;
        }
      }
    }
  }

  lemma CountedSubset<T>(a: set<T>, b: set<T>)
    requires a <= b && |a| == |b|
    ensures a == b
  {
    assert b == a + (b - a) && |b| == |a| + |b - a|;
  }
}
