/** The role engine of one organization (internal/authz, with the invitation writes that grant roles).

    `Org` is the committed database of one tenant. Each mutation is given by a verdict and the state it
    commits (ghost functions over `Org`) and by a method of `RoleService` that runs the transaction's
    statements in the source's order on mutable tables. Assumed of the schema: (tenant, slug) is unique
    for roles, deleting a role deletes its grants but is refused while an invitation names it, role ids
    are never reused, and every role edit gets a revision no role had before. */
module Rbac {
  import opened Wrappers
  import Slug

  type Id = nat

  const OWNER := "owner"
  const ORG_MANAGE := "org:manage"
  const CUSTOM_RANK := 100

  datatype Role = Role(slug: string, system: bool, rank: int, perms: set<string>, revision: nat)

  datatype Member = Member(email: string, deleted: bool, disabled: bool)

  datatype Status = Pending | Accepted | Revoked | Expired

  datatype Invite = Invite(email: string, role: Id, status: Status, invitedBy: Id, expiresAt: int)

  /** `stamps` are the revisions and `usedIds` the role ids handed out so far. */
  datatype Org = Org(catalog: set<string>, members: map<Id, Member>, roles: map<Id, Role>, grants: set<(Id, Id)>,
                     invites: map<Id, Invite>, stamps: set<nat>, usedIds: set<Id>)

  datatype Error = Forbidden | NotFound | Validation | Conflict | Internal

  datatype Outcome = Ok | Err(error: Error)

  // ---- queries ----

  predicate Holds(o: Org, user: Id, role: Id) {
    role in o.roles && (user, role) in o.grants
  }

  function Held(o: Org, user: Id): set<Id> {
    set r | r in o.roles && (user, r) in o.grants
  }

  /** UserPermissionCodes: the union over the user's roles. */
  function PermsOf(o: Org, user: Id): set<string> {
    set r, p | r in Held(o, user) && p in o.roles[r].perms :: p
  }

  predicate IsOwner(o: Org, user: Id) {
    exists r :: r in Held(o, user) && o.roles[r].slug == OWNER
  }

  predicate ActiveMember(o: Org, user: Id) {
    user in o.members && !o.members[user].deleted && !o.members[user].disabled
  }

  predicate ActiveOwner(o: Org, user: Id) {
    ActiveMember(o, user) && IsOwner(o, user)
  }

  predicate Exists(o: Org, user: Id) {
    user in o.members && !o.members[user].deleted
  }

  ghost predicate IsBestRank(o: Org, user: Id, rank: int) {
    && (exists r :: r in Held(o, user) && o.roles[r].rank == rank)
    && (forall r | r in Held(o, user) :: rank <= o.roles[r].rank)
  }

  /** The lowest, that is most powerful, rank among the user's roles. */
  ghost function BestRank(o: Org, user: Id): (rank: int)
    requires Held(o, user) != {}
    ensures IsBestRank(o, user, rank)
  {
    BestRankExists(o, user);
    var rank :| IsBestRank(o, user, rank);
    rank
  }

  lemma BestRankExists(o: Org, user: Id)
    requires Held(o, user) != {}
    ensures exists rank :: IsBestRank(o, user, rank)
  {
    var r := LowestRanked(o, Held(o, user));
    assert IsBestRank(o, user, o.roles[r].rank);
  }

  lemma LowestRanked(o: Org, some: set<Id>) returns (r: Id)
    requires some != {} && some <= o.roles.Keys
    ensures r in some && forall q | q in some :: o.roles[r].rank <= o.roles[q].rank
  {
    var x :| x in some;
    r := x;
    if some - {x} != {} {
      var y := LowestRanked(o, some - {x});
      r := if o.roles[y].rank <= o.roles[x].rank then y else x;
    } else {
      assert some == {x};
    }
  }

  /** actorAccess: what a transaction loads about its actor. */
  datatype Access = Access(rank: int, isOwner: bool, perms: set<string>)

  ghost function AccessOf(o: Org, user: Id): Option<Access> {
    if !Exists(o, user) || Held(o, user) == {} then None
    else Some(Access(BestRank(o, user), IsOwner(o, user), PermsOf(o, user)))
  }

  // ---- authorization ----

  /** authorizeRoleDelegation: may the actor give `role` the permissions `codes`, or hand it out with them? */
  predicate MayDelegate(actor: Access, role: Role, codes: set<string>) {
    && (role.slug == OWNER ==> actor.isOwner)
    && (actor.isOwner || actor.rank < role.rank)
    && (ORG_MANAGE in codes ==> role.slug == OWNER)
    && codes <= actor.perms
  }

  /** authorizeRoleControl: may the actor take `role`, which carries `codes`, away? */
  predicate MayControl(actor: Access, role: Role, codes: set<string>) {
    && (role.slug == OWNER ==> actor.isOwner)
    && (actor.isOwner || actor.rank < role.rank)
    && (ORG_MANAGE in codes ==> actor.isOwner)
    && codes <= actor.perms
  }

  /** A non-Owner may not touch the roles of a user at or above their own rank. */
  ghost predicate OutranksUser(o: Org, actor: Access, user: Id) {
    Held(o, user) != {} ==> actor.isOwner || actor.rank < BestRank(o, user)
  }

  // ---- the mutations ----

  datatype Op =
    | CreateRole(actor: Id, role: Id, name: string, codes: set<string>, stamp: nat)
    | UpdatePermissions(actor: Id, role: Id, codes: set<string>, expected: Option<nat>, stamp: nat)
    | DeleteRole(actor: Id, role: Id)
    | AssignRole(actor: Id, user: Id, role: Id)
    | RevokeRole(actor: Id, user: Id, role: Id)
    | InsertInvite(actor: Id, invite: Id, email: string, role: Id, expiresAt: int)
    | AcceptInvite(invite: Id, newUser: Id, now: int)
    | SettleInvite(invite: Id, status: Status)

  predicate SlugTaken(o: Org, slug: string) {
    exists r :: r in o.roles && o.roles[r].slug == slug
  }

  predicate RoleInvited(o: Org, role: Id) {
    exists i :: i in o.invites && o.invites[i].role == role
  }

  predicate EmailPending(o: Org, email: string) {
    exists i :: i in o.invites && o.invites[i].email == email && o.invites[i].status == Pending
  }

  predicate HasAccount(o: Org, email: string, user: Id) {
    user in o.members && !o.members[user].deleted && o.members[user].email == email
  }

  predicate Redeemable(o: Org, invite: Id, now: int) {
    invite in o.invites && o.invites[invite].status == Pending && now < o.invites[invite].expiresAt
  }

  /** Ids and revisions the database hands out are new. */
  predicate Legal(o: Org, op: Op) {
    match op
    case CreateRole(_, role, _, _, stamp) => role !in o.usedIds && stamp !in o.stamps
    case UpdatePermissions(_, _, _, _, stamp) => stamp !in o.stamps
    case InsertInvite(_, invite, _, _, _) => invite !in o.invites
    case AcceptInvite(_, newUser, _) => newUser !in o.members
    case SettleInvite(_, status) => status == Revoked || status == Expired
    case _ => true
  }

  ghost function Verdict(o: Org, op: Op): Outcome {
    match op
    case CreateRole(actor, _, name, codes, _) => CreateVerdict(o, AccessOf(o, actor), Slug.Slugify(name), codes)
    case UpdatePermissions(actor, role, codes, expected, _) =>
      UpdateVerdict(o, AccessOf(o, actor), role, codes, expected)
    case DeleteRole(actor, role) => DeleteVerdict(o, AccessOf(o, actor), role)
    case AssignRole(actor, user, role) => AssignVerdict(o, AccessOf(o, actor), user, role)
    case RevokeRole(actor, user, role) => RevokeVerdict(o, AccessOf(o, actor), user, role)
    case InsertInvite(_, _, email, role, _) =>
      if role !in o.roles then Err(Internal) else if EmailPending(o, email) then Err(Conflict) else Ok
    case AcceptInvite(invite, _, now) => if Redeemable(o, invite, now) then Ok else Err(Conflict)
    case SettleInvite(invite, _) =>
      if invite in o.invites && o.invites[invite].status == Pending then Ok else Err(Conflict)
  }

  function CreateVerdict(o: Org, actor: Option<Access>, slug: string, codes: set<string>): Outcome {
    if actor.None? then Err(NotFound)
    else if !actor.value.isOwner && CUSTOM_RANK <= actor.value.rank then Err(Forbidden)
    else if !(codes <= o.catalog) then Err(Validation)
    else if ORG_MANAGE in codes || !(codes <= actor.value.perms) then Err(Forbidden)
    else if SlugTaken(o, slug) then Err(Internal)
    else Ok
  }

  function UpdateVerdict(o: Org, actor: Option<Access>, role: Id, codes: set<string>, expected: Option<nat>): Outcome {
    if actor.None? || role !in o.roles then Err(NotFound)
    else if expected.Some? && o.roles[role].revision != expected.value then Err(Conflict)
    else if !(codes <= o.catalog) then Err(Validation)
    else if !MayDelegate(actor.value, o.roles[role], codes) then Err(Forbidden)
    else if o.roles[role].slug == OWNER && ORG_MANAGE !in codes then Err(Forbidden)
    else Ok
  }

  function DeleteVerdict(o: Org, actor: Option<Access>, role: Id): Outcome {
    if actor.None? || role !in o.roles then Err(NotFound)
    else if o.roles[role].system then Err(Forbidden)
    else if !MayControl(actor.value, o.roles[role], o.roles[role].perms) then Err(Forbidden)
    else if RoleInvited(o, role) then Err(Internal)
    else Ok
  }

  ghost function AssignVerdict(o: Org, actor: Option<Access>, user: Id, role: Id): Outcome {
    if actor.None? || role !in o.roles then Err(NotFound)
    else if !MayDelegate(actor.value, o.roles[role], o.roles[role].perms) then Err(Forbidden)
    else if !Exists(o, user) then Err(NotFound)
    else if !OutranksUser(o, actor.value, user) then Err(Forbidden)
    else Ok
  }

  predicate OwnerRemains(o: Org, grants: set<(Id, Id)>) {
    exists u :: u in o.members && ActiveOwner(o.(grants := grants), u)
  }

  ghost function RevokeVerdict(o: Org, actor: Option<Access>, user: Id, role: Id): Outcome {
    if actor.None? || role !in o.roles then Err(NotFound)
    else if !MayControl(actor.value, o.roles[role], o.roles[role].perms) then Err(Forbidden)
    else if !Exists(o, user) then Err(NotFound)
    else if !OutranksUser(o, actor.value, user) then Err(Forbidden)
    else if (user, role) !in o.grants then Err(Conflict)
    else if o.roles[role].slug == OWNER && !OwnerRemains(o, o.grants - {(user, role)}) then Err(Conflict)
    else Ok
  }

  /** CanDelegateRole, which an invitation passes in a transaction of its own before it is inserted. */
  ghost function DelegateVerdict(o: Org, actor: Id, role: Id): Outcome {
    var a := AccessOf(o, actor);
    if a.None? || role !in o.roles then Err(NotFound)
    else if !MayDelegate(a.value, o.roles[role], o.roles[role].perms) then Err(Forbidden)
    else Ok
  }

  /** accept_invitation: claim the invitation, reuse the account with that email or create one, grant the role. */
  ghost function Accepting(o: Org, invite: Id, newUser: Id): Org
    requires invite in o.invites
  {
    var i := o.invites[invite];
    var claimed := o.(invites := o.invites[invite := i.(status := Accepted)]);
    if exists u :: HasAccount(o, i.email, u) then
      var u :| HasAccount(o, i.email, u);
      claimed.(grants := o.grants + {(u, i.role)})
    else
      claimed.(members := o.members[newUser := Member(i.email, false, false)], grants := o.grants + {(newUser, i.role)})
  }

  ghost function Apply(o: Org, op: Op): Org {
    if !Legal(o, op) || Verdict(o, op) != Ok then o else
    match op
    case CreateRole(_, role, name, codes, stamp) =>
      o.(roles := o.roles[role := Role(Slug.Slugify(name), false, CUSTOM_RANK, codes, stamp)],
         stamps := o.stamps + {stamp}, usedIds := o.usedIds + {role})
    case UpdatePermissions(_, role, codes, _, stamp) =>
      o.(roles := o.roles[role := o.roles[role].(perms := codes, revision := stamp)], stamps := o.stamps + {stamp})
    case DeleteRole(_, role) =>
      o.(roles := o.roles - {role}, grants := set g | g in o.grants && g.1 != role)
    case AssignRole(_, user, role) => o.(grants := o.grants + {(user, role)})
    case RevokeRole(_, user, role) => o.(grants := o.grants - {(user, role)})
    case InsertInvite(actor, invite, email, role, expiresAt) =>
      o.(invites := o.invites[invite := Invite(email, role, Pending, actor, expiresAt)])
    case AcceptInvite(invite, newUser, _) => Accepting(o, invite, newUser)
    case SettleInvite(invite, status) =>
      o.(invites := o.invites[invite := o.invites[invite].(status := status)])
  }

  ghost function Run(o: Org, ops: seq<Op>): Org {
    if ops == [] then o else Apply(Run(o, ops[..|ops| - 1]), ops[|ops| - 1])
  }

  lemma {:induction false} RunPrefix(o: Org, ops: seq<Op>, i: nat)
    requires i < |ops|
    ensures Run(o, ops[..i + 1]) == Apply(Run(o, ops[..i]), ops[i])
  {
    assert ops[..i + 1][..i] == ops[..i];
  }
}
