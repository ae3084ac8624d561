/** What a coalition can reach with the role engine.

    A coalition is a set of users, the invitations it can redeem, and the role delegations it has
    already been cleared for (an invitation is authorized in one transaction and inserted in a later
    one). Only its members act, in any order and any number of times; accounts created by redeeming the
    coalition's invitations join it. */
module Coalition {
  import opened Rbac
  import opened RbacSafety

  datatype Plot = Plot(org: Org, crew: set<Id>, links: set<Id>, cleared: set<(Id, Id)>)

  datatype Move =
    | Mutate(op: Op)
    | Clear(actor: Id, role: Id)
    | Invite(actor: Id, invite: Id, email: string, role: Id, expiresAt: int)
    | Redeem(invite: Id, newUser: Id, now: int)
    | Settle(invite: Id, status: Status)

  predicate IsRoleOp(op: Op) {
    op.CreateRole? || op.UpdatePermissions? || op.DeleteRole? || op.AssignRole? || op.RevokeRole?
  }

  ghost function Apply(c: Plot, m: Move): Plot {
    match m
    case Mutate(op) =>
      if IsRoleOp(op) && op.actor in c.crew then c.(org := Rbac.Apply(c.org, op)) else c
    case Clear(actor, role) =>
      if actor in c.crew && DelegateVerdict(c.org, actor, role) == Ok
      then c.(cleared := c.cleared + {(actor, role)})
      else c
    case Invite(actor, invite, email, role, expiresAt) =>
      var op := InsertInvite(actor, invite, email, role, expiresAt);
      if (actor, role) in c.cleared && Legal(c.org, op) && Verdict(c.org, op) == Ok
      then c.(org := Rbac.Apply(c.org, op), links := c.links + {invite})
      else c
    case Redeem(invite, newUser, now) =>
      var op := AcceptInvite(invite, newUser, now);
      if invite in c.links && Legal(c.org, op) && Verdict(c.org, op) == Ok then
        var after := Rbac.Apply(c.org, op);
        c.(org := after, crew := if newUser in after.members then c.crew + {newUser} else c.crew)
      else c
    case Settle(invite, status) => c.(org := Rbac.Apply(c.org, SettleInvite(invite, status)))
  }

  ghost function Run(c: Plot, moves: seq<Move>): Plot {
    if moves == [] then c else Apply(Run(c, moves[..|moves| - 1]), moves[|moves| - 1])
  }

  /** The union of the members' effective permissions. */
  function CrewPerms(c: Plot): set<string> {
    set u, p | u in c.crew && p in PermsOf(c.org, u) :: p
  }

  /** The roles within the coalition's reach: held, in an invitation it can redeem, or cleared for one. */
  ghost predicate Reaches(c: Plot, role: Id) {
    && role in c.org.roles
    && (|| (exists u :: u in c.crew && Holds(c.org, u, role))
        || (exists i :: i in c.links && i in c.org.invites && c.org.invites[i].role == role)
        || (exists a :: a in c.cleared && a.1 == role))
  }

  /** Bookkeeping every run keeps. */
  ghost predicate Sound(c: Plot) {
    WellFormed(c.org) && Booked(c)
  }

  ghost predicate PermsWithin(c: Plot, bound: set<string>) {
    forall r | r in c.org.roles && Reaches(c, r) :: c.org.roles[r].perms <= bound
  }

  ghost predicate RanksWithin(c: Plot, bound: int) {
    forall r | r in c.org.roles && Reaches(c, r) :: bound <= c.org.roles[r].rank && c.org.roles[r].slug != OWNER
  }

  lemma ActorPermsWithin(c: Plot, actor: Id, bound: set<string>)
    requires actor in c.crew && PermsWithin(c, bound)
    ensures PermsOf(c.org, actor) <= bound
  {
    forall p | p in PermsOf(c.org, actor) ensures p in bound {
      var r :| r in Held(c.org, actor) && p in c.org.roles[r].perms;
      assert Holds(c.org, actor, r);
      assert Reaches(c, r);
    }
  }

  lemma ActorRankWithin(c: Plot, actor: Id, bound: int)
    requires actor in c.crew && RanksWithin(c, bound) && AccessOf(c.org, actor).Some?
    ensures !AccessOf(c.org, actor).value.isOwner && bound <= AccessOf(c.org, actor).value.rank
  {
    forall r | r in Held(c.org, actor) ensures Reaches(c, r) {
      assert Holds(c.org, actor, r);
    }
  }

  lemma OpsOnlyAdd(o: Org, op: Op)
    ensures o.invites.Keys <= Rbac.Apply(o, op).invites.Keys && o.usedIds <= Rbac.Apply(o, op).usedIds
  {
  }

  lemma OrgStaysWellFormed(c: Plot, m: Move)
    requires WellFormed(c.org)
    ensures WellFormed(Apply(c, m).org)
  {
    match m
    case Mutate(op) => StepKeepsWellFormed(c.org, op);
    case Clear(actor, role) =>
    case Invite(actor, invite, email, role, expiresAt) =>
      StepKeepsWellFormed(c.org, InsertInvite(actor, invite, email, role, expiresAt));
    case Redeem(invite, newUser, now) => StepKeepsWellFormed(c.org, AcceptInvite(invite, newUser, now));
    case Settle(invite, status) => StepKeepsWellFormed(c.org, SettleInvite(invite, status));
  }

  ghost predicate Booked(c: Plot) {
    && c.links <= c.org.invites.Keys
    && (forall a | a in c.cleared :: a.0 in c.crew && a.1 in c.org.usedIds)
  }

  lemma StepKeepsBooked(c: Plot, m: Move)
    requires Booked(c) && Consistent(c.org)
    ensures Booked(Apply(c, m))
  {
    match m
    case Mutate(op) => OpsOnlyAdd(c.org, op);
    case Clear(actor, role) =>
    case Invite(actor, invite, email, role, expiresAt) =>
      OpsOnlyAdd(c.org, InsertInvite(actor, invite, email, role, expiresAt));
    case Redeem(invite, newUser, now) => OpsOnlyAdd(c.org, AcceptInvite(invite, newUser, now));
    case Settle(invite, status) => OpsOnlyAdd(c.org, SettleInvite(invite, status));
  }

  lemma StepKeepsSound(c: Plot, m: Move)
    requires Sound(c)
    ensures Sound(Apply(c, m))
  {
    OrgStaysWellFormed(c, m);
    StepKeepsBooked(c, m);
  }

  /** Some member could delegate a role with these permissions, rank and slug. */
  ghost predicate Vouched(c: Plot, role: Role) {
    exists actor :: actor in c.crew && Vouches(c.org, actor, role)
  }

  ghost predicate Vouches(o: Org, actor: Id, role: Role) {
    && AccessOf(o, actor).Some?
    && role.perms <= AccessOf(o, actor).value.perms
    && (AccessOf(o, actor).value.isOwner || AccessOf(o, actor).value.rank < role.rank)
    && (role.slug == OWNER ==> AccessOf(o, actor).value.isOwner)
  }

  /** What a move brings within reach, or changes there, a member could delegate. */
  ghost predicate Justified(c: Plot, d: Plot) {
    forall r | r in d.org.roles && Reaches(d, r) ::
      (Reaches(c, r) && d.org.roles[r] == c.org.roles[r]) || Vouched(c, d.org.roles[r])
  }

  lemma RoleOpIsJustified(c: Plot, op: Op)
    requires Sound(c) && IsRoleOp(op) && op.actor in c.crew
    ensures Justified(c, c.(org := Rbac.Apply(c.org, op)))
  {
    var d := c.(org := Rbac.Apply(c.org, op));
    if d.org != c.org {
      forall r | r in d.org.roles && Reaches(d, r)
        ensures (Reaches(c, r) && d.org.roles[r] == c.org.roles[r]) || Vouched(c, d.org.roles[r])
      {
        if op.UpdatePermissions? && r == op.role {
          assert Vouches(c.org, op.actor, d.org.roles[r]);
        } else if op.AssignRole? && r == op.role {
          assert Vouches(c.org, op.actor, d.org.roles[r]);
        } else {
          RoleOpReachesNothingElse(c, op, r);
        }
      }
    }
  }

  lemma RoleOpReachesNothingElse(c: Plot, op: Op, r: Id)
    requires Sound(c) && IsRoleOp(op) && Legal(c.org, op) && Verdict(c.org, op) == Ok
    requires Reaches(c.(org := Rbac.Apply(c.org, op)), r)
    requires (op.UpdatePermissions? || op.AssignRole?) ==> r != op.role
    ensures Reaches(c, r) && Rbac.Apply(c.org, op).roles[r] == c.org.roles[r]
  {
    var d := c.(org := Rbac.Apply(c.org, op));
    if u :| u in d.crew && Holds(d.org, u, r) {
      assert Holds(c.org, u, r);
    } else if i :| i in d.links && i in d.org.invites && d.org.invites[i].role == r {
      assert i in c.links && i in c.org.invites && c.org.invites[i].role == r;
    } else {
      var a :| a in d.cleared && a.1 == r;
      assert a in c.cleared && a.1 == r;
    }
  }

  /** Redeeming grants no role but the invitation's, and leaves roles and the invitations' roles alone. */
  lemma RedeemGrantsTheInvitedRole(o: Org, op: Op)
    requires Consistent(o) && op.AcceptInvite? && Legal(o, op) && Verdict(o, op) == Ok
    ensures var p := Rbac.Apply(o, op);
            && p.roles == o.roles && p.invites.Keys == o.invites.Keys
            && (forall i <- p.invites :: p.invites[i].role == o.invites[i].role)
            && (forall g <- p.grants :: g in o.grants || g.1 == o.invites[op.invite].role)
            && (op.newUser in p.members || p.members == o.members)
            && (forall g <- p.grants :: g in o.grants || g.0 == op.newUser || g.0 in o.members)
  {}

  lemma RedeemReachesNothingElse(c: Plot, m: Move, r: Id)
    requires Sound(c) && m.Redeem? && Reaches(Apply(c, m), r)
    ensures Reaches(c, r) && Apply(c, m).org.roles[r] == c.org.roles[r]
  {
    var d := Apply(c, m);
    var op := AcceptInvite(m.invite, m.newUser, m.now);
    if m.invite in c.links && Legal(c.org, op) && Verdict(c.org, op) == Ok {
      RedeemGrantsTheInvitedRole(c.org, op);
      ReachBeforeRedeeming(c, d, m.invite, r);
    }
  }

  lemma ReachBeforeRedeeming(c: Plot, d: Plot, invite: Id, r: Id)
    requires Consistent(c.org) && Reaches(d, r) && d.org.roles == c.org.roles && d.links == c.links
              && d.cleared == c.cleared
    requires d.org.invites.Keys == c.org.invites.Keys
    requires forall i <- d.org.invites :: d.org.invites[i].role == c.org.invites[i].role
    requires invite in c.links && invite in c.org.invites
    requires forall g <- d.org.grants :: g in c.org.grants || g.1 == c.org.invites[invite].role
    requires forall u <- d.crew :: u in c.crew || u !in c.org.members
    ensures Reaches(c, r)
  {
    if u :| u in d.crew && Holds(d.org, u, r) {
      if (u, r) in c.org.grants {
        assert Holds(c.org, u, r);
      } else {
        assert (u, r) in d.org.grants && (u, r).1 == c.org.invites[invite].role;
      }
    } else if i :| i in d.links && i in d.org.invites && d.org.invites[i].role == r {
      assert i in c.links && i in c.org.invites && c.org.invites[i].role == r;
    } else {
      var a :| a in d.cleared && a.1 == r;
    }
  }

  lemma RedeemIsJustified(c: Plot, m: Move)
    requires Sound(c) && m.Redeem?
    ensures Justified(c, Apply(c, m))
  {
    forall r | r in Apply(c, m).org.roles && Reaches(Apply(c, m), r)
      ensures Reaches(c, r) && Apply(c, m).org.roles[r] == c.org.roles[r]
    {
      RedeemReachesNothingElse(c, m, r);
    }
  }

  lemma InviteIsJustified(c: Plot, m: Move)
    requires Sound(c) && m.Invite?
    ensures Justified(c, Apply(c, m))
  {
    var d := Apply(c, m);
    forall r | r in d.org.roles && Reaches(d, r) ensures Reaches(c, r) && d.org.roles[r] == c.org.roles[r] {
      if u :| u in d.crew && Holds(d.org, u, r) {
        assert Holds(c.org, u, r);
      } else if i :| i in d.links && i in d.org.invites && d.org.invites[i].role == r {
        if i in c.links {
          assert i in c.org.invites && c.org.invites[i].role == r;
        } else {
          assert (m.actor, r) in c.cleared && (m.actor, r).1 == r;
        }
      } else {
        var a :| a in d.cleared && a.1 == r;
      }
    }
  }

  lemma ClearIsJustified(c: Plot, m: Move)
    requires Sound(c) && m.Clear?
    ensures Justified(c, Apply(c, m))
  {
    var d := Apply(c, m);
    forall r | r in d.org.roles && Reaches(d, r) ensures Reaches(c, r) || Vouched(c, d.org.roles[r]) {
      if a :| a in d.cleared && a !in c.cleared && a.1 == r {
        assert Vouches(c.org, m.actor, d.org.roles[r]);
      }
    }
  }

  lemma SettleIsJustified(c: Plot, m: Move)
    requires Sound(c) && m.Settle?
    ensures Justified(c, Apply(c, m))
  {
    var d := Apply(c, m);
    forall r | r in d.org.roles && Reaches(d, r) ensures Reaches(c, r) && d.org.roles[r] == c.org.roles[r] {
      if u :| u in d.crew && Holds(d.org, u, r) {
        assert Holds(c.org, u, r);
      } else if i :| i in d.links && i in d.org.invites && d.org.invites[i].role == r {
        assert i in c.org.invites && c.org.invites[i].role == r;
      } else {
        var a :| a in d.cleared && a.1 == r;
      }
    }
  }

  lemma MoveIsJustified(c: Plot, m: Move)
    requires Sound(c)
    ensures Justified(c, Apply(c, m))
  {
    match m {
      case Mutate(op) =>
        if IsRoleOp(op) && op.actor in c.crew {
          RoleOpIsJustified(c, op);
        }
      case Redeem(_, _, _) => RedeemIsJustified(c, m);
      case Invite(_, _, _, _, _) => InviteIsJustified(c, m);
      case Clear(_, _) => ClearIsJustified(c, m);
      case Settle(_, _) => SettleIsJustified(c, m);
    }
  }

  lemma MoveKeepsPerms(c: Plot, m: Move, bound: set<string>)
    requires Sound(c) && PermsWithin(c, bound)
    ensures PermsWithin(Apply(c, m), bound)
  {
    var d := Apply(c, m);
    MoveIsJustified(c, m);
    forall r | r in d.org.roles && Reaches(d, r) ensures d.org.roles[r].perms <= bound {
      if Vouched(c, d.org.roles[r]) {
        var actor :| actor in c.crew && Vouches(c.org, actor, d.org.roles[r]);
        ActorPermsWithin(c, actor, bound);
      }
    }
  }

  lemma MoveKeepsRanks(c: Plot, m: Move, bound: int)
    requires Sound(c) && RanksWithin(c, bound)
    ensures RanksWithin(Apply(c, m), bound)
  {
    var d := Apply(c, m);
    MoveIsJustified(c, m);
    forall r | r in d.org.roles && Reaches(d, r) ensures bound <= d.org.roles[r].rank && d.org.roles[r].slug != OWNER {
      if Vouched(c, d.org.roles[r]) {
        var actor :| actor in c.crew && Vouches(c.org, actor, d.org.roles[r]);
        ActorRankWithin(c, actor, bound);
      }
    }
  }

  lemma {:induction false} RunKeepsPerms(c: Plot, moves: seq<Move>, bound: set<string>)
    requires Sound(c) && PermsWithin(c, bound)
    ensures Sound(Run(c, moves)) && PermsWithin(Run(c, moves), bound)
  {
    if moves != [] {
      var prefix := moves[..|moves| - 1];
      RunKeepsPerms(c, prefix, bound);
      StepKeepsSound(Run(c, prefix), moves[|moves| - 1]);
      MoveKeepsPerms(Run(c, prefix), moves[|moves| - 1], bound);
    }
  }

  lemma {:induction false} RunKeepsRanks(c: Plot, moves: seq<Move>, bound: int)
    requires Sound(c) && RanksWithin(c, bound)
    ensures Sound(Run(c, moves)) && RanksWithin(Run(c, moves), bound)
  {
    if moves != [] {
      var prefix := moves[..|moves| - 1];
      RunKeepsRanks(c, prefix, bound);
      StepKeepsSound(Run(c, prefix), moves[|moves| - 1]);
      MoveKeepsRanks(Run(c, prefix), moves[|moves| - 1], bound);
    }
  }

  /** A coalition as it starts: it has nothing but the roles its members hold. */
  ghost predicate Fresh(c: Plot) {
    WellFormed(c.org) && c.links == {} && c.cleared == {}
  }

  /** However a coalition acts, its members' permissions never leave the union they started with. This
      holds of every coalition, even one with Owners in it. */
  lemma {:induction false} PermissionsNeverGrow(c: Plot, moves: seq<Move>)
    requires Fresh(c)
    ensures CrewPerms(Run(c, moves)) <= CrewPerms(c)
  {
    forall r, p | r in c.org.roles && Reaches(c, r) && p in c.org.roles[r].perms ensures p in CrewPerms(c) {
      var u :| u in c.crew && Holds(c.org, u, r);
      assert r in Held(c.org, u);
      assert p in PermsOf(c.org, u);
    }
    RunKeepsPerms(c, moves, CrewPerms(c));
    var d := Run(c, moves);
    forall u, p | u in d.crew && p in PermsOf(d.org, u) ensures p in CrewPerms(c) {
      ActorPermsWithin(d, u, CrewPerms(c));
    }
  }

  /** A coalition without an Owner never gets one, and no member, original or recruited, ever reaches a
      better rank than the best the coalition started with. */
  lemma {:induction false} RankNeverImproves(c: Plot, moves: seq<Move>, best: int)
    requires Fresh(c)
    requires forall u | u in c.crew :: !IsOwner(c.org, u)
    requires forall u | u in c.crew && Held(c.org, u) != {} :: best <= BestRank(c.org, u)
    ensures var d := Run(c, moves); forall u | u in d.crew :: !IsOwner(d.org, u)
    ensures var d := Run(c, moves); forall u | u in d.crew && Held(d.org, u) != {} :: best <= BestRank(d.org, u)
  {
    forall r | r in c.org.roles && Reaches(c, r) ensures best <= c.org.roles[r].rank && c.org.roles[r].slug != OWNER {
      var u :| u in c.crew && Holds(c.org, u, r);
      assert r in Held(c.org, u);
    }
    RunKeepsRanks(c, moves, best);
    var d := Run(c, moves);
    forall u, r | u in d.crew && r in Held(d.org, u) ensures best <= d.org.roles[r].rank
        && d.org.roles[r].slug != OWNER {
      assert Holds(d.org, u, r);
      assert Reaches(d, r);
    }
  }
}
