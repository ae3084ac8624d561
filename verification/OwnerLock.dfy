/** The last-Owner rule under concurrency (internal/authz/service.go RevokeRole).

    A revocation is not one step here: it loads its actor, locks the role row, deletes the grant where
    only it can see that, counts the remaining Owners, and commits or rolls back. Any number of
    revocations interleave with each other and with every other mutation; a mutation that needs a
    locked role row waits. A transaction may also fail at any point. */
module OwnerLock {
  import opened Rbac
  import opened RbacSafety

  datatype Phase = Loaded | Locked | Deleted | Counted

  datatype Tx = Tx(actor: Access, user: Id, role: Id, phase: Phase)

  /** The committed organization, the holder of each locked role row, and the open transactions. */
  datatype Db = Db(org: Org, holder: map<Id, Id>, txs: map<Id, Tx>)

  datatype Step =
    | Begin(t: Id, actor: Id, user: Id, role: Id)
    | Lock(t: Id)
    | Delete(t: Id)
    | Count(t: Id)
    | Commit(t: Id)
    | Abort(t: Id)
    | Other(op: Op)

  predicate NeedsLocked(d: Db, op: Op) {
    (op.UpdatePermissions? || op.DeleteRole? || op.AssignRole?) && op.role in d.holder
  }

  /** Rolled back: the row lock is released and nothing was committed. */
  function Rollback(d: Db, t: Id): Db
    requires t in d.txs
  {
    d.(holder := map r | r in d.holder && d.holder[r] != t :: d.holder[r], txs := d.txs - {t})
  }

  function Grant(x: Tx): (Id, Id) {
    (x.user, x.role)
  }

  ghost predicate Authorized(o: Org, x: Tx) {
    && x.role in o.roles
    && MayControl(x.actor, o.roles[x.role], o.roles[x.role].perms)
    && Exists(o, x.user)
    && OutranksUser(o, x.actor, x.user)
  }

  ghost function Apply(d: Db, s: Step): Db {
    match s
    case Begin(t, actor, user, role) =>
      if t !in d.txs && AccessOf(d.org, actor).Some?
      then d.(txs := d.txs[t := Tx(AccessOf(d.org, actor).value, user, role, Loaded)])
      else d
    case Lock(t) =>
      if t in d.txs && d.txs[t].phase == Loaded && d.txs[t].role !in d.holder then
        if Authorized(d.org, d.txs[t])
        then d.(holder := d.holder[d.txs[t].role := t], txs := d.txs[t := d.txs[t].(phase := Locked)])
        else Rollback(d, t)
      else d
    case Delete(t) =>
      if t in d.txs && d.txs[t].phase == Locked then
        if Grant(d.txs[t]) in d.org.grants then d.(txs := d.txs[t := d.txs[t].(phase := Deleted)]) else Rollback(d, t)
      else d
    case Count(t) =>
      if t in d.txs && d.txs[t].phase == Deleted then
        if d.txs[t].role in d.org.roles && d.org.roles[d.txs[t].role].slug == OWNER
           && !OwnerRemains(d.org, d.org.grants - {Grant(d.txs[t])})
        then Rollback(d, t)
        else d.(txs := d.txs[t := d.txs[t].(phase := Counted)])
      else d
    case Commit(t) =>
      if t in d.txs && d.txs[t].phase == Counted
      then Rollback(d, t).(org := d.org.(grants := d.org.grants - {Grant(d.txs[t])}))
      else d
    case Abort(t) => if t in d.txs then Rollback(d, t) else d
    case Other(op) => if op.RevokeRole? || NeedsLocked(d, op) then d else d.(org := Rbac.Apply(d.org, op))
  }

  ghost function Run(d: Db, steps: seq<Step>): Db {
    if steps == [] then d else Apply(Run(d, steps[..|steps| - 1]), steps[|steps| - 1])
  }

  /** Somebody other than `user` holds the role `role` on an active account. */
  ghost predicate HeldBesides(o: Org, user: Id, role: Id) {
    exists w :: w in o.members && ActiveMember(o, w) && w != user && (w, role) in o.grants
  }

  /** Past its lock a transaction owns its role row; past its count the Owner role, if that is what it
      takes away, is held by somebody else. */
  ghost predicate Guarded(d: Db, t: Id)
    requires t in d.txs
  {
    var x := d.txs[t];
    x.phase != Loaded ==>
      && x.role in d.holder && d.holder[x.role] == t
      && x.role in d.org.roles
      && (x.phase == Counted && d.org.roles[x.role].slug == OWNER ==> HeldBesides(d.org, x.user, x.role))
  }

  ghost predicate Inv(d: Db) {
    WellFormed(d.org) && forall t | t in d.txs :: Guarded(d, t)
  }

  lemma CountMeansHeldBesides(o: Org, user: Id, role: Id)
    requires Consistent(o) && role in o.roles && o.roles[role].slug == OWNER
    ensures OwnerRemains(o, o.grants - {(user, role)}) <==> HeldBesides(o, user, role)
  {
    var p := o.(grants := o.grants - {(user, role)});
    if OwnerRemains(o, p.grants) {
      var u :| u in o.members && ActiveOwner(p, u);
      var r :| r in Held(p, u) && p.roles[r].slug == OWNER;
      assert r == role;
    }
    if HeldBesides(o, user, role) {
      var w :| w in o.members && ActiveMember(o, w) && w != user && (w, role) in o.grants;
      assert role in Held(p, w);
      assert ActiveOwner(p, w);
    }
  }

  lemma OtherOpsKeepHolders(d: Db, op: Op, t: Id)
    requires Inv(d) && t in d.txs && !op.RevokeRole? && !NeedsLocked(d, op)
    ensures Guarded(d.(org := Rbac.Apply(d.org, op)), t)
  {
    var x, p := d.txs[t], Rbac.Apply(d.org, op);
    if x.phase == Counted && x.role in d.org.roles && d.org.roles[x.role].slug == OWNER {
      var w :| w in d.org.members && ActiveMember(d.org, w) && w != x.user && (w, x.role) in d.org.grants;
      assert ActiveMember(p, w) && (w, x.role) in p.grants;
    }
  }

  /** The committing transaction holds the only lock on the Owner role, so nobody else's count is stale. */
  lemma CommitKeepsOthers(d: Db, t: Id, s: Id)
    requires Inv(d) && t in d.txs && s in d.txs && t != s && d.txs[t].phase == Counted
    ensures Guarded(Apply(d, Commit(t)), s)
  {
    var x, y := d.txs[s], d.txs[t];
    var p := Apply(d, Commit(t)).org;
    if x.phase == Counted && d.org.roles[x.role].slug == OWNER {
      assert x.role != y.role;
      var w :| w in d.org.members && ActiveMember(d.org, w) && w != x.user && (w, x.role) in d.org.grants;
      assert ActiveMember(p, w) && (w, x.role) in p.grants;
    }
  }

  lemma CommitKeepsWellFormed(d: Db, t: Id)
    requires Inv(d) && t in d.txs && d.txs[t].phase == Counted
    ensures WellFormed(Apply(d, Commit(t)).org)
  {
    var x := d.txs[t];
    var p := Apply(d, Commit(t)).org;
    if d.org.roles[x.role].slug == OWNER {
      var w :| w in d.org.members && ActiveMember(d.org, w) && w != x.user && (w, x.role) in d.org.grants;
      OwnerStays(d.org, p, w, x.role);
    } else {
      var u, r := SomeOwner(d.org);
      OwnerStays(d.org, p, u, r);
    }
  }

  lemma CountKeepsInv(d: Db, t: Id)
    requires Inv(d)
    ensures Inv(Apply(d, Count(t)))
  {
    var e := Apply(d, Count(t));
    if t in d.txs && d.txs[t].phase == Deleted {
      assert Guarded(d, t);
      if d.org.roles[d.txs[t].role].slug == OWNER {
        CountMeansHeldBesides(d.org, d.txs[t].user, d.txs[t].role);
      }
      forall u | u in e.txs ensures Guarded(e, u) { assert Guarded(d, u); }
    }
  }

  lemma OtherKeepsInv(d: Db, op: Op)
    requires Inv(d)
    ensures Inv(Apply(d, Other(op)))
  {
    if !op.RevokeRole? && !NeedsLocked(d, op) {
      var e := Apply(d, Other(op));
      StepKeepsWellFormed(d.org, op);
      forall t | t in e.txs ensures Guarded(e, t) { OtherOpsKeepHolders(d, op, t); }
    }
  }

  lemma CommitKeepsInv(d: Db, t: Id)
    requires Inv(d)
    ensures Inv(Apply(d, Commit(t)))
  {
    if t in d.txs && d.txs[t].phase == Counted {
      var e := Apply(d, Commit(t));
      CommitKeepsWellFormed(d, t);
      forall u | u in e.txs ensures Guarded(e, u) { CommitKeepsOthers(d, t, u); }
    }
  }

  lemma WorkKeepsInv(d: Db, s: Step)
    requires Inv(d) && (s.Begin? || s.Lock? || s.Delete? || s.Abort?)
    ensures Inv(Apply(d, s))
  {
    var e := Apply(d, s);
    forall u | u in e.txs ensures Guarded(e, u) {
      if u in d.txs {
        assert Guarded(d, u);
      }
    }
  }

  lemma StepKeepsInv(d: Db, s: Step)
    requires Inv(d)
    ensures Inv(Apply(d, s))
  {
    match s
    case Other(op) => OtherKeepsInv(d, op);
    case Commit(t) => CommitKeepsInv(d, t);
    case Count(t) => CountKeepsInv(d, t);
    case Begin(_, _, _, _) => WorkKeepsInv(d, s);
    case Lock(_) => WorkKeepsInv(d, s);
    case Delete(_) => WorkKeepsInv(d, s);
    case Abort(_) => WorkKeepsInv(d, s);
  }

  /** However revocations interleave at lock granularity, an active Owner always remains, and the other
      invariants of the role engine hold in every state anyone can observe. */
  lemma {:induction false} AnOwnerAlwaysRemains(d: Db, steps: seq<Step>)
    requires WellFormed(d.org) && d.txs == map[]
    ensures Inv(Run(d, steps)) && HasOwner(Run(d, steps).org)
  {
    if steps != [] {
      AnOwnerAlwaysRemains(d, steps[..|steps| - 1]);
      StepKeepsInv(Run(d, steps[..|steps| - 1]), steps[|steps| - 1]);
    }
  }

  /** And holding Owner still means having org:manage, in every state of every such run. */
  lemma {:induction false} OwnerIffOrgManage(d: Db, steps: seq<Step>, user: Id)
    requires WellFormed(d.org) && d.txs == map[]
    ensures IsOwner(Run(d, steps).org, user) <==> ORG_MANAGE in PermsOf(Run(d, steps).org, user)
  {
    AnOwnerAlwaysRemains(d, steps);
    OwnersManage(Run(d, steps).org, user);
  }

  /** Two transactions are never both past the lock of the same role row. */
  lemma {:induction false} RowLockExcludes(d: Db, steps: seq<Step>, t: Id, u: Id)
    requires WellFormed(d.org) && d.txs == map[]
    requires var e := Run(d, steps);
             t in e.txs && u in e.txs && e.txs[t].phase != Loaded && e.txs[u].phase != Loaded
             && e.txs[t].role == e.txs[u].role
    ensures t == u
  {
    AnOwnerAlwaysRemains(d, steps);
    var e := Run(d, steps);
    assert Guarded(e, t) && Guarded(e, u);
  }

  ghost function Serial(d: Db, t: Id, actor: Id, user: Id, role: Id): Db {
    Apply(Apply(Apply(Apply(Apply(d, Begin(t, actor, user, role)), Lock(t)), Delete(t)), Count(t)), Commit(t))
  }

  /** Run without interruption the five steps commit exactly what the atomic mutation does, and let go
      of everything they locked. */
  lemma SerialRevokeIsAtomic(d: Db, t: Id, actor: Id, user: Id, role: Id)
    requires d.txs == map[] && d.holder == map[]
    ensures Serial(d, t, actor, user, role) == Db(Rbac.Apply(d.org, RevokeRole(actor, user, role)), map[], map[])
  {
    var access := AccessOf(d.org, actor);
    if access.Some? {
      var x := Tx(access.value, user, role, Loaded);
      var d1 := Apply(d, Begin(t, actor, user, role));
      assert d1 == Db(d.org, map[], map[t := x]);
      var d2 := Apply(d1, Lock(t));
      if Authorized(d.org, x) {
        assert d2 == Db(d.org, map[role := t], map[t := x.(phase := Locked)]);
      } else {
        assert d2.txs == map[] && d2.holder == map[];
      }
    }
  }
}
