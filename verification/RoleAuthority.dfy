/** What each role mutation requires, told from roles and grants alone: in every reachable organization it commits
    exactly under these conditions and then changes exactly this (internal/authz/service.go). */
module RoleAuthority {
  import opened Wrappers
  import opened Rbac
  import opened RbacSafety
  import Slug

  // ---- authority, from the grants ----

  /** The actor has an account and a role. */
  predicate Acts(o: Org, actor: Id) {
    actor in o.members && !o.members[actor].deleted && exists r <- o.roles :: (actor, r) in o.grants
  }

  predicate Owns(o: Org, actor: Id) {
    exists r <- o.roles :: (actor, r) in o.grants && o.roles[r].slug == "owner"
  }

  /** The actor holds a role that ranks above the given rank; lower numbers rank higher. */
  predicate Outranks(o: Org, actor: Id, rank: int) {
    exists r <- o.roles :: (actor, r) in o.grants && o.roles[r].rank < rank
  }

  /** Some role of the actor ranks above every role of the user. */
  predicate IsAbove(o: Org, actor: Id, user: Id) {
    exists r <- o.roles :: (actor, r) in o.grants
      && forall q <- o.roles :: (user, q) in o.grants ==> o.roles[r].rank < o.roles[q].rank
  }

  /** Every code is in some role of the actor. */
  predicate Possesses(o: Org, actor: Id, codes: set<string>) {
    forall c <- codes :: exists r <- o.roles :: (actor, r) in o.grants && c in o.roles[r].perms
  }

  /** The actor may deal with a role of this rank and these codes at all. */
  predicate Commands(o: Org, actor: Id, rank: int, codes: set<string>) {
    Acts(o, actor) && (Owns(o, actor) || Outranks(o, actor, rank)) && Possesses(o, actor, codes)
  }

  /** And with this user. */
  predicate MayTouch(o: Org, actor: Id, user: Id) {
    && user in o.members && !o.members[user].deleted
    && (Owns(o, actor) || IsAbove(o, actor, user))
  }

  /** Without that grant some active account still holds Owner. */
  predicate OwnerLeft(o: Org, user: Id, role: Id) {
    exists u <- o.members :: !o.members[u].deleted && !o.members[u].disabled
      && exists r <- o.roles :: (u, r) in o.grants && (u, r) != (user, role) && o.roles[r].slug == "owner"
  }

  // ---- what the transactions compute is that ----

  lemma AccessMeans(o: Org, actor: Id)
    ensures AccessOf(o, actor).Some? <==> Acts(o, actor)
    ensures Acts(o, actor) ==>
              var access := AccessOf(o, actor).value;
              && (access.isOwner <==> Owns(o, actor))
              && forall c :: c in access.perms <==> Possesses(o, actor, {c})
  {
    if Acts(o, actor) {
      var r :| r in o.roles && (actor, r) in o.grants;
      assert r in Held(o, actor);
      if Owns(o, actor) {
        var q :| q in o.roles && (actor, q) in o.grants && o.roles[q].slug == "owner";
        assert q in Held(o, actor);
      }
      forall c ensures c in PermsOf(o, actor) <==> Possesses(o, actor, {c}) {
        if Possesses(o, actor, {c}) {
          assert c in {c};
        }
      }
    }
  }

  lemma RankMeans(o: Org, actor: Id, rank: int)
    requires Acts(o, actor)
    ensures AccessOf(o, actor).Some? && (AccessOf(o, actor).value.rank < rank <==> Outranks(o, actor, rank))
  {
    AccessMeans(o, actor);
    var best := AccessOf(o, actor).value.rank;
    var b :| b in Held(o, actor) && o.roles[b].rank == best;
    if Outranks(o, actor, rank) {
      var r :| r in o.roles && (actor, r) in o.grants && o.roles[r].rank < rank;
      assert r in Held(o, actor);
    }
  }

  lemma PossessionMeans(o: Org, actor: Id, codes: set<string>)
    requires Acts(o, actor)
    ensures AccessOf(o, actor).Some? && (codes <= AccessOf(o, actor).value.perms <==> Possesses(o, actor, codes))
  {
    AccessMeans(o, actor);
    forall c | c in codes ensures c in AccessOf(o, actor).value.perms <==> Possesses(o, actor, {c}) {}
    if codes <= AccessOf(o, actor).value.perms {
      forall c | c in codes ensures exists r <- o.roles :: (actor, r) in o.grants && c in o.roles[r].perms {
        assert c in {c} && Possesses(o, actor, {c});
      }
    }
  }

  lemma TouchMeans(o: Org, actor: Id, user: Id)
    requires Acts(o, actor) && Exists(o, user)
    ensures AccessOf(o, actor).Some? && (OutranksUser(o, AccessOf(o, actor).value, user) <==> MayTouch(o, actor, user))
  {
    AccessMeans(o, actor);
    var best := AccessOf(o, actor).value.rank;
    var b :| b in Held(o, actor) && o.roles[b].rank == best;
    if Held(o, user) != {} {
      var theirs := BestRank(o, user);
      var q :| q in Held(o, user) && o.roles[q].rank == theirs;
      if IsAbove(o, actor, user) {
        var r :| r in o.roles && (actor, r) in o.grants
          && forall q <- o.roles :: (user, q) in o.grants ==> o.roles[r].rank < o.roles[q].rank;
        assert r in Held(o, actor);
      }
      if best < theirs {
        assert forall q <- o.roles :: (user, q) in o.grants ==> q in Held(o, user);
      }
    } else {
      assert forall q <- o.roles :: (user, q) in o.grants ==> q in Held(o, user);
    }
  }

  /** org:manage needs no rule of its own for a role that exists: only an Owner possesses it. */
  lemma CommandMeans(o: Org, actor: Id, role: Id)
    requires Consistent(o) && role in o.roles
    ensures var a := AccessOf(o, actor);
            Commands(o, actor, o.roles[role].rank, o.roles[role].perms) <==>
            a.Some? && MayDelegate(a.value, o.roles[role], o.roles[role].perms)
    ensures var a := AccessOf(o, actor);
            Commands(o, actor, o.roles[role].rank, o.roles[role].perms) <==>
            a.Some? && MayControl(a.value, o.roles[role], o.roles[role].perms)
  {
    AccessMeans(o, actor);
    if Acts(o, actor) {
      RankMeans(o, actor, o.roles[role].rank);
      PossessionMeans(o, actor, o.roles[role].perms);
      OwnersManage(o, actor);
    }
  }

  // ---- the mutations ----

  /** A role is given exactly by an actor who is an Owner or ranks above the role and above everything the user holds,
      and who possesses all its codes. */
  lemma {:induction false} AssignsExactly(start: Org, ops: seq<Op>, actor: Id, user: Id, role: Id)
    requires WellFormed(start)
    ensures var o := Run(start, ops);
            Verdict(o, AssignRole(actor, user, role)) == Ok <==>
            && role in o.roles && Commands(o, actor, o.roles[role].rank, o.roles[role].perms)
            && MayTouch(o, actor, user)
    ensures var o := Run(start, ops);
            Apply(o, AssignRole(actor, user, role)) ==
            if Verdict(o, AssignRole(actor, user, role)) == Ok then o.(grants := o.grants + {(user, role)}) else o
  {
    var o := Run(start, ops);
    RunKeepsWellFormed(start, ops);
    if role in o.roles {
      CommandMeans(o, actor, role);
      AccessMeans(o, actor);
      if Acts(o, actor) && Exists(o, user) {
        TouchMeans(o, actor, user);
      }
    }
  }

  lemma OwnerLeftMeans(o: Org, user: Id, role: Id)
    ensures OwnerRemains(o, o.grants - {(user, role)}) <==> OwnerLeft(o, user, role)
  {
    var p := o.(grants := o.grants - {(user, role)});
    if OwnerRemains(o, p.grants) {
      var u :| u in o.members && ActiveOwner(p, u);
      var r :| r in Held(p, u) && p.roles[r].slug == OWNER;
      assert (u, r) in o.grants && (u, r) != (user, role);
    }
    if OwnerLeft(o, user, role) {
      var u :| u in o.members && !o.members[u].deleted && !o.members[u].disabled
        && exists r <- o.roles :: (u, r) in o.grants && (u, r) != (user, role) && o.roles[r].slug == "owner";
      var r :| r in o.roles && (u, r) in o.grants && (u, r) != (user, role) && o.roles[r].slug == "owner";
      assert r in Held(p, u);
      assert ActiveOwner(p, u);
    }
  }

  lemma OtherGrantsLeaveOwner(o: Org, user: Id, role: Id)
    requires WellFormed(o) && role in o.roles && o.roles[role].slug != OWNER
    ensures OwnerLeft(o, user, role)
  {
    var u, r := SomeOwner(o);
    assert (u, r) in o.grants && (u, r) != (user, role);
  }

  /** And taken, if the user holds it and an active Owner is left. */
  lemma {:induction false} RevokesExactly(start: Org, ops: seq<Op>, actor: Id, user: Id, role: Id)
    requires WellFormed(start)
    ensures var o := Run(start, ops);
            Verdict(o, RevokeRole(actor, user, role)) == Ok <==>
            && role in o.roles && Commands(o, actor, o.roles[role].rank, o.roles[role].perms)
            && MayTouch(o, actor, user) && (user, role) in o.grants && OwnerLeft(o, user, role)
    ensures var o := Run(start, ops);
            Apply(o, RevokeRole(actor, user, role)) ==
            if Verdict(o, RevokeRole(actor, user, role)) == Ok then o.(grants := o.grants - {(user, role)}) else o
  {
    var o := Run(start, ops);
    RunKeepsWellFormed(start, ops);
    if role in o.roles {
      CommandMeans(o, actor, role);
      AccessMeans(o, actor);
      OwnerLeftMeans(o, user, role);
      if o.roles[role].slug != OWNER {
        OtherGrantsLeaveOwner(o, user, role);
      }
      if Acts(o, actor) && Exists(o, user) {
        TouchMeans(o, actor, user);
      }
    }
  }

  /** Nobody's roles are changed by a peer: whoever assigns or revokes a role of a user holds Owner, or a role that
      ranks strictly above everything the user held. */
  lemma {:induction false} PeersAreOutOfReach(start: Org, ops: seq<Op>, i: nat, user: Id, role: Id)
    requires WellFormed(start) && i < |ops| && (ops[i].AssignRole? || ops[i].RevokeRole?)
    requires ((user, role) in Run(start, ops[..i + 1]).grants) != ((user, role) in Run(start, ops[..i]).grants)
    ensures var o := Run(start, ops[..i]);
            ops[i].user == user && ops[i].role == role
            && (Owns(o, ops[i].actor) || IsAbove(o, ops[i].actor, user))
  {
    RunPrefix(start, ops, i);
    if ops[i].AssignRole? {
      AssignsExactly(start, ops[..i], ops[i].actor, ops[i].user, ops[i].role);
    } else {
      RevokesExactly(start, ops[..i], ops[i].actor, ops[i].user, ops[i].role);
    }
  }

  /** A role is deleted exactly if it is no system role, no invitation names it, and the actor commands it. It goes
      with its grants. */
  lemma {:induction false} DeletesExactly(start: Org, ops: seq<Op>, actor: Id, role: Id)
    requires WellFormed(start)
    ensures var o := Run(start, ops);
            Verdict(o, DeleteRole(actor, role)) == Ok <==>
            && role in o.roles && !o.roles[role].system && (forall i <- o.invites :: o.invites[i].role != role)
            && Commands(o, actor, o.roles[role].rank, o.roles[role].perms)
    ensures var o := Run(start, ops);
            var p := Apply(o, DeleteRole(actor, role));
            if Verdict(o, DeleteRole(actor, role)) == Ok
            then p == o.(roles := o.roles - {role}, grants := p.grants)
                 && forall u, r :: (u, r) in p.grants <==> (u, r) in o.grants && r != role
            else p == o
  {
    RunKeepsWellFormed(start, ops);
    if role in Run(start, ops).roles {
      CommandMeans(Run(start, ops), actor, role);
    }
  }

  /** A role's codes are replaced exactly by an actor who commands the role with the new codes, all of the catalog;
      only the Owner role has org:manage, and keeps it; and a revision that was sent is still the role's. */
  lemma {:induction false} EditsExactly(start: Org, ops: seq<Op>, actor: Id, role: Id, codes: set<string>,
          expected: Option<nat>, stamp: nat)
    requires WellFormed(start) && stamp !in Run(start, ops).stamps
    ensures var o := Run(start, ops);
            Verdict(o, UpdatePermissions(actor, role, codes, expected, stamp)) == Ok <==>
            && role in o.roles && (expected.None? || expected.value == o.roles[role].revision) && codes <= o.catalog
            && (ORG_MANAGE in codes <==> o.roles[role].slug == "owner") && Commands(o, actor, o.roles[role].rank, codes)
    ensures var o := Run(start, ops);
            Apply(o, UpdatePermissions(actor, role, codes, expected, stamp)) ==
            if Verdict(o, UpdatePermissions(actor, role, codes, expected, stamp)) != Ok then o
            else o.(roles := o.roles[role := o.roles[role].(perms := codes, revision := stamp)],
                    stamps := o.stamps + {stamp})
  {
    var o := Run(start, ops);
    RunKeepsWellFormed(start, ops);
    AccessMeans(o, actor);
    if role in o.roles && Acts(o, actor) {
      RankMeans(o, actor, o.roles[role].rank);
      PossessionMeans(o, actor, codes);
      OwnersManage(o, actor);
    }
  }

  /** A role is created, at rank 100, exactly by an actor who commands that rank with its codes, all of the catalog and
      without org:manage, under a slug that is free. */
  lemma {:induction false} CreatesExactly(start: Org, ops: seq<Op>, actor: Id, role: Id, name: string,
          codes: set<string>, stamp: nat)
    requires WellFormed(start) && Legal(Run(start, ops), CreateRole(actor, role, name, codes, stamp))
    ensures var o := Run(start, ops);
            Verdict(o, CreateRole(actor, role, name, codes, stamp)) == Ok <==>
            && Commands(o, actor, 100, codes) && codes <= o.catalog && ORG_MANAGE !in codes
            && forall r <- o.roles :: o.roles[r].slug != Slug.Slugify(name)
    ensures var o := Run(start, ops);
            Apply(o, CreateRole(actor, role, name, codes, stamp)) ==
            if Verdict(o, CreateRole(actor, role, name, codes, stamp)) != Ok then o
            else o.(roles := o.roles[role := Role(Slug.Slugify(name), false, 100, codes, stamp)],
                    stamps := o.stamps + {stamp}, usedIds := o.usedIds + {role})
  {
    var o := Run(start, ops);
    AccessMeans(o, actor);
    if Acts(o, actor) {
      RankMeans(o, actor, 100);
      PossessionMeans(o, actor, codes);
    }
  }

  /** An inviter is cleared for a role exactly as for giving it away. */
  lemma {:induction false} InvitesExactly(start: Org, ops: seq<Op>, actor: Id, role: Id)
    requires WellFormed(start)
    ensures var o := Run(start, ops);
            DelegateVerdict(o, actor, role) == Ok <==>
            role in o.roles && Commands(o, actor, o.roles[role].rank, o.roles[role].perms)
  {
    RunKeepsWellFormed(start, ops);
    if role in Run(start, ops).roles {
      CommandMeans(Run(start, ops), actor, role);
    }
  }

  // ---- system roles ----

  /** The system roles are still there, under their slugs and ranks; every other role has rank 100. */
  predicate KeepsSystemRoles(o: Org, p: Org) {
    && (forall r <- o.roles :: o.roles[r].system ==>
          r in p.roles && p.roles[r].system && p.roles[r].slug == o.roles[r].slug && p.roles[r].rank == o.roles[r].rank)
    && (forall r <- p.roles :: p.roles[r].system ==> r in o.roles && o.roles[r].system)
    && (forall r <- p.roles :: !p.roles[r].system ==> p.roles[r].rank == 100)
  }

  lemma StepKeepsSystemRole(o: Org, op: Op, r: Id)
    requires Consistent(o) && r in o.roles && o.roles[r].system
    ensures var p := Apply(o, op);
            && r in p.roles && p.roles[r].system
            && p.roles[r].slug == o.roles[r].slug && p.roles[r].rank == o.roles[r].rank
  {}

  /** A role after the step was there before, with that rank, or it is a new custom role. */
  lemma StepAddsCustomRoles(o: Org, op: Op, r: Id)
    requires r in Apply(o, op).roles
    ensures var role := Apply(o, op).roles[r];
            || (r in o.roles && role.system == o.roles[r].system && role.rank == o.roles[r].rank)
            || (!role.system && role.rank == 100)
  {}

  lemma StepKeepsSystemRoles(o: Org, p: Org, op: Op)
    requires Consistent(p) && KeepsSystemRoles(o, p)
    ensures KeepsSystemRoles(o, Apply(p, op))
  {
    forall r | r in o.roles && o.roles[r].system
      ensures var q := Apply(p, op);
              && r in q.roles && q.roles[r].system
              && q.roles[r].slug == o.roles[r].slug && q.roles[r].rank == o.roles[r].rank
    {
      StepKeepsSystemRole(p, op, r);
    }
    forall r | r in Apply(p, op).roles
      ensures var role := Apply(p, op).roles[r];
              if role.system then r in o.roles && o.roles[r].system else role.rank == 100
    {
      StepAddsCustomRoles(p, op, r);
    }
  }

  lemma {:induction false} RunKeepsSystemRoles(o: Org, ops: seq<Op>)
    requires WellFormed(o) && forall r <- o.roles :: !o.roles[r].system ==> o.roles[r].rank == 100
    ensures KeepsSystemRoles(o, Run(o, ops))
  {
    if ops != [] {
      RunKeepsSystemRoles(o, ops[..|ops| - 1]);
      RunKeepsWellFormed(o, ops[..|ops| - 1]);
      StepKeepsSystemRoles(o, Run(o, ops[..|ops| - 1]), ops[|ops| - 1]);
    }
  }

  lemma SeededRole(catalog: set<string>, user: Id, email: string, r: Id)
    ensures var roles := Registered(catalog, user, email).roles;
            (r in roles <==> r < 5) && (r in roles ==> roles[r].system && roles[r].rank == 10 * r)
  {}

  /** From registration on, the five seeded roles never go away and rank above every role ever created. */
  lemma {:induction false} SeededRolesRankFirst(catalog: set<string>, user: Id, email: string, ops: seq<Op>, r: Id,
          q: Id)
    requires ORG_MANAGE in catalog && r < 5 && q >= 5
    ensures var o := Run(Registered(catalog, user, email), ops);
            r in o.roles && o.roles[r].rank == 10 * r && (q in o.roles ==> o.roles[r].rank < o.roles[q].rank == 100)
  {
    var start := Registered(catalog, user, email);
    RegistrationIsWellFormed(catalog, user, email);
    forall x ensures (x in start.roles <==> x < 5) && (x in start.roles ==> start.roles[x].system) {
      SeededRole(catalog, user, email, x);
    }
    SeededRole(catalog, user, email, r);
    RunKeepsSystemRoles(start, ops);
  }
}
