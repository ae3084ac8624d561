/** The read-through permission cache (internal/platform/cache/cache.go) behind UserPermissions, as a
    refinement of the union-of-roles query: runs of whole calls with Redis and the holder lookup
    succeeding. `CacheStaleness` treats the interleaved calls. */
module PermissionCache {
  import opened Wrappers
  import opened Rbac
  import opened RbacSafety

  const TTL := 300

  datatype Entry = Entry(codes: set<string>, expiresAt: int)

  /** The Redis adapter for one tenant: an entry is a hit until its TTL has run out. */
  class Cache {
    var entries: map<Id, Entry>

    ghost function Hit(user: Id, now: int): Option<set<string>>
      reads this
    {
      if user in entries && now < entries[user].expiresAt then Some(entries[user].codes) else None
    }

    /** The unexpired entries, as `Server` has them. */
    ghost function Unexpired(now: int): map<Id, set<string>>
      reads this
    {
      map u | u in entries && now < entries[u].expiresAt :: entries[u].codes
    }

    constructor ()
      ensures entries == map[]
    {
      entries := map[];
    }

    method GetUserPermissions(user: Id, now: int) returns (codes: Option<set<string>>)
      ensures codes == Hit(user, now)
    {
      if user in entries && now < entries[user].expiresAt {
        return Some(entries[user].codes);
      }
      return None;
    }

    method SetUserPermissions(user: Id, codes: set<string>, now: int)
      modifies this
      ensures forall t :: Hit(user, t) == if t < now + 300 then Some(codes) else None
      ensures forall u, t | u != user :: Hit(u, t) == old(Hit(u, t))
    {
      entries := entries[user := Entry(codes, now + TTL)];
    }

    method InvalidateUserPermissions(user: Id)
      modifies this
      ensures forall t :: Hit(user, t).None?
      ensures forall u, t | u != user :: Hit(u, t) == old(Hit(u, t))
    {
      entries := entries - {user};
    }

    /** Cache first, then the query, whose answer is stored for TTL seconds. */
    method UserPermissions(o: Org, user: Id, now: int) returns (codes: set<string>)
      modifies this
      ensures codes == if old(Hit(user, now)).Some? then old(Hit(user, now)).value else PermsOf(o, user)
      ensures Hit(user, now) == Some(codes)
      ensures forall u, t | u != user :: Hit(u, t) == old(Hit(u, t))
      ensures forall gained ::
                && codes == Answer(Server(o, old(Unexpired(now)), gained), user)
                && Unexpired(now) == Asked(Server(o, old(Unexpired(now)), gained), user).cached
    {
      ghost var before := Unexpired(now);
      var cached := GetUserPermissions(user, now);
      if cached.Some? {
        return cached.value;
      }
      codes := PermsOf(o, user);
      SetUserPermissions(user, codes, now);
      assert forall u :: u in Unexpired(now) <==> Hit(u, now).Some?;
      assert Unexpired(now) == before[user := codes];
    }

    /** The loop after a committed role edit or deletion: every holder's entry goes, no other does. */
    method InvalidateHolders(holders: set<Id>)
      modifies this
      ensures forall u, t :: Hit(u, t) == if u in holders then None else old(Hit(u, t))
    {
      var rest := holders;
      while rest != {}
        invariant rest <= holders
        invariant forall u, t :: Hit(u, t) == if u in holders - rest then None else old(Hit(u, t))
      {
        var u :| u in rest;
        InvalidateUserPermissions(u);
        rest := rest - {u};
      }
    }

    /** What each mutation does about the cache once it has committed; `looked` are the holders that an edit or
        deletion read in an earlier transaction. */
    method InvalidateAfter(op: Op, looked: set<Id>)
      modifies this
      ensures forall now :: Unexpired(now) == old(Unexpired(now)) - DropSet(op, looked)
    {
      match op {
        case UpdatePermissions(_, _, _, _, _) => InvalidateHolders(looked);
        case DeleteRole(_, _) => InvalidateHolders(looked);
        case AssignRole(_, user, _) => InvalidateUserPermissions(user);
        case RevokeRole(_, user, _) => InvalidateUserPermissions(user);
        case _ =>
      }
      forall now ensures Unexpired(now) == old(Unexpired(now)) - DropSet(op, looked) {
        assert forall u :: u in Unexpired(now) <==> Hit(u, now).Some?;
        assert forall u :: u in old(Unexpired(now)) <==> old(Hit(u, now)).Some?;
      }
    }
  }

  // ---- refinement over runs of calls ----

  /** `cached` are the unexpired entries. `gained` is history: the codes that an accepted invitation's role
      gave a user since their entry was filled. accept_invitation runs in SQL and invalidates nothing. */
  datatype Server = Server(org: Org, cached: map<Id, set<string>>, gained: set<(Id, string)>)

  datatype Call = Ask(user: Id) | Mutate(op: Op) | Expire(user: Id)

  function Holders(o: Org, role: Id): set<Id> {
    set g | g in o.grants && g.1 == role :: g.0
  }

  /** Whose entries the service drops once the mutation has committed. An edit or deletion drops those of the
      users it `looked` up before. */
  function DropSet(op: Op, looked: set<Id>): set<Id> {
    match op
    case UpdatePermissions(_, _, _, _, _) => looked
    case DeleteRole(_, _) => looked
    case AssignRole(_, user, _) => {user}
    case RevokeRole(_, user, _) => {user}
    case _ => {}
  }

  /** The same if nothing commits between the lookup and the mutation. */
  function Invalidated(o: Org, op: Op): set<Id> {
    DropSet(op, if op.UpdatePermissions? || op.DeleteRole? then Holders(o, op.role) else {})
  }

  /** The codes of the roles that `after` grants and `before` did not, with their users. */
  function Granted(before: Org, after: Org): set<(Id, string)> {
    set g, c | g in after.grants && g !in before.grants && g.1 in after.roles && c in after.roles[g.1].perms :: (g.0, c)
  }

  function Answer(s: Server, user: Id): set<string> {
    if user in s.cached then s.cached[user] else PermsOf(s.org, user)
  }

  /** A miss fills the entry. */
  function Asked(s: Server, user: Id): Server {
    if user in s.cached then s
    else Server(s.org, s.cached[user := PermsOf(s.org, user)], set g | g in s.gained && g.0 != user)
  }

  ghost function Apply(s: Server, c: Call): Server {
    match c
    case Ask(user) => Asked(s, user)
    case Expire(user) => s.(cached := s.cached - {user})
    case Mutate(op) =>
      if Legal(s.org, op) && Verdict(s.org, op) == Ok then
        var after := Rbac.Apply(s.org, op);
        Server(after, s.cached - Invalidated(s.org, op),
               if op.AcceptInvite? then s.gained + Granted(s.org, after) else s.gained)
      else s
  }

  ghost function Run(s: Server, calls: seq<Call>): Server {
    if calls == [] then s else Apply(Run(s, calls[..|calls| - 1]), calls[|calls| - 1])
  }

  /** What an entry lacks is exactly what invitations gave its user since it was filled. */
  ghost predicate Faithful(s: Server) {
    && WellFormed(s.org)
    && forall u, c :: u in s.cached ==> (c in PermsOf(s.org, u) <==> c in s.cached[u] || (u, c) in s.gained)
  }

  lemma HolderIsInvalidated(o: Org, u: Id, r: Id)
    requires (u, r) in o.grants
    ensures u in Holders(o, r)
  {
    var g := (u, r);
    assert g in o.grants && g.1 == r && g.0 == u;
  }

  lemma HeldRoleIsKept(o: Org, op: Op, u: Id, r: Id)
    requires WellFormed(o) && Legal(o, op) && Verdict(o, op) == Ok && u !in Invalidated(o, op) && r in Held(o, u)
    ensures r in Held(Rbac.Apply(o, op), u) && Rbac.Apply(o, op).roles[r] == o.roles[r]
  {
    HolderIsInvalidated(o, u, r);
  }

  lemma OldGrantMeansOldRole(o: Org, op: Op, u: Id, r: Id)
    requires WellFormed(o) && Legal(o, op) && Verdict(o, op) == Ok && u !in Invalidated(o, op)
    requires r in Held(Rbac.Apply(o, op), u) && (u, r) in o.grants
    ensures r in Held(o, u)
  {
    assert r in o.usedIds;
  }

  /** Only an assignment, which invalidates its user, and an accepted invitation add a grant. */
  lemma NewGrantMeansAccepted(o: Org, op: Op, u: Id, c: string)
    requires WellFormed(o) && Legal(o, op) && Verdict(o, op) == Ok && u !in Invalidated(o, op)
    requires (u, c) in Granted(o, Rbac.Apply(o, op))
    ensures op.AcceptInvite?
  {
  }

  /** A mutation leaves the permissions of everyone it does not invalidate alone, except that accepting an
      invitation adds those of the role it grants. */
  lemma MutationTouchesInvalidated(o: Org, op: Op, u: Id, c: string)
    requires WellFormed(o) && Legal(o, op) && Verdict(o, op) == Ok && u !in Invalidated(o, op)
    ensures var p := Rbac.Apply(o, op);
            c in PermsOf(p, u) <==> c in PermsOf(o, u) || (op.AcceptInvite? && (u, c) in Granted(o, p))
  {
    var p := Rbac.Apply(o, op);
    if c in PermsOf(o, u) {
      var r :| r in Held(o, u) && c in o.roles[r].perms;
      HeldRoleIsKept(o, op, u, r);
    } else if (u, c) in Granted(o, p) {
      var g :| g in p.grants && g !in o.grants && g.1 in p.roles && c in p.roles[g.1].perms && (g.0, c) == (u, c);
      assert g.1 in Held(p, u);
      NewGrantMeansAccepted(o, op, u, c);
    }
    if c in PermsOf(p, u) {
      var r :| r in Held(p, u) && c in p.roles[r].perms;
      if (u, r) in o.grants {
        OldGrantMeansOldRole(o, op, u, r);
        HeldRoleIsKept(o, op, u, r);
      } else {
        var g := (u, r);
        assert g in p.grants && g !in o.grants;
        assert (u, c) in Granted(o, p);
        NewGrantMeansAccepted(o, op, u, c);
      }
    }
  }

  lemma MutationKeepsFaithful(s: Server, op: Op)
    requires Faithful(s)
    ensures Faithful(Apply(s, Mutate(op)))
  {
    if Legal(s.org, op) && Verdict(s.org, op) == Ok {
      StepKeepsWellFormed(s.org, op);
      var t := Apply(s, Mutate(op));
      forall u, c | u in t.cached ensures c in PermsOf(t.org, u) <==> c in t.cached[u] || (u, c) in t.gained {
        MutationTouchesInvalidated(s.org, op, u, c);
        assert c in PermsOf(s.org, u) <==> c in s.cached[u] || (u, c) in s.gained;
      }
    }
  }

  lemma CallKeepsFaithful(s: Server, c: Call)
    requires Faithful(s)
    ensures Faithful(Apply(s, c))
  {
    match c
    case Mutate(op) => MutationKeepsFaithful(s, op);
    case _ =>
  }

  lemma {:induction false} RunKeepsFaithful(s: Server, calls: seq<Call>)
    requires Faithful(s)
    ensures Faithful(Run(s, calls))
  {
    if calls != [] {
      RunKeepsFaithful(s, calls[..|calls| - 1]);
      CallKeepsFaithful(Run(s, calls[..|calls| - 1]), calls[|calls| - 1]);
    }
  }

  /** The cached HasPermission never says yes where the query says no, and it says no where the query says yes
      exactly for the codes that an invitation accepted since the fill has added. */
  lemma {:induction false} CacheRefinesQuery(o: Org, calls: seq<Call>, user: Id, code: string)
    requires WellFormed(o)
    ensures var s := Run(Server(o, map[], {}), calls);
            && (code in Answer(s, user) ==> code in PermsOf(s.org, user))
            && (code in PermsOf(s.org, user) && code !in Answer(s, user) <==>
                user in s.cached && code !in s.cached[user] && (user, code) in s.gained)
  {
    RunKeepsFaithful(Server(o, map[], {}), calls);
  }

  /** So the whole answer is right exactly if the user has no entry or the entry already holds everything that
      those invitations gave. */
  lemma {:induction false} AnswerIsRightExactly(o: Org, calls: seq<Call>, user: Id)
    requires WellFormed(o)
    ensures var s := Run(Server(o, map[], {}), calls);
            Answer(s, user) == PermsOf(s.org, user) <==>
            user !in s.cached || forall c :: (user, c) in s.gained ==> c in s.cached[user]
  {
    var s := Run(Server(o, map[], {}), calls);
    RunKeepsFaithful(Server(o, map[], {}), calls);
    if user in s.cached && forall c :: (user, c) in s.gained ==> c in s.cached[user] {
      assert forall c :: c in PermsOf(s.org, user) <==> c in s.cached[user];
    }
    if user in s.cached && Answer(s, user) == PermsOf(s.org, user) {
      forall c | (user, c) in s.gained ensures c in s.cached[user] {
        assert c in PermsOf(s.org, user);
      }
    }
  }

  /** The user asks, then redeems an invitation: the answer lacks every code of the new role that the user did
      not have before. */
  lemma AcceptedRoleIsNotServed(o: Org, op: Op, user: Id, code: string)
    requires WellFormed(o) && op.AcceptInvite? && Legal(o, op) && Verdict(o, op) == Ok
    requires (user, o.invites[op.invite].role) in Rbac.Apply(o, op).grants
    requires code in o.roles[o.invites[op.invite].role].perms && code !in PermsOf(o, user)
    ensures var s := Run(Server(o, map[], {}), [Ask(user), Mutate(op)]);
            code in PermsOf(s.org, user) && code !in Answer(s, user)
  {
    var calls := [Ask(user), Mutate(op)];
    var start := Server(o, map[], {});
    assert calls[..1] == [Ask(user)] && calls[..1][..0] == [];
    assert Run(start, [Ask(user)]) == Apply(start, Ask(user)) by {
      assert [Ask(user)][..0] == [];
    }
    var s := Run(start, calls);
    assert s == Apply(Apply(start, Ask(user)), Mutate(op));
    var role := o.invites[op.invite].role;
    assert role in Held(s.org, user) && code in s.org.roles[role].perms;
  }
}
