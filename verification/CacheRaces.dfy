/** The permission cache of all users under concurrency (internal/authz/service.go, internal/platform/cache/cache.go).

    A role mutation takes several steps: an edit or a deletion first looks the role's holders up in a transaction of
    its own, without a lock; then the mutation commits; then the entries of the looked-up users are dropped one
    by one (an assignment or a revocation drops its user's). A reader looks in the cache, queries, and writes the
    cache. Any number of mutations, readers, redemptions and expiring entries interleave. */
module CacheRaces {
  import opened Wrappers
  import opened Rbac
  import opened RbacSafety
  import P = PermissionCache

  datatype Reader = Missed(user: Id) | Fetched(user: Id, codes: set<string>)

  datatype Mutation = LookedUp(op: Op, looked: set<Id>) | Dropping(todo: set<Id>)

  /** `cached` are the unexpired entries. */
  datatype World = World(org: Org, cached: map<Id, set<string>>, readers: map<Id, Reader>, mutations: map<Id, Mutation>)

  /** `found` is false if the lookup fails, `reachable` if Redis does not answer. */
  datatype Step =
    | LookUp(t: Id, op: Op, found: bool)
    | Commit(t: Id)
    | Drop(t: Id, user: Id, reachable: bool)
    | Redeem(op: Op)
    | Get(p: Id, user: Id, reachable: bool)
    | Fetch(p: Id)
    | Store(p: Id, reachable: bool)
    | Expire(user: Id)

  ghost predicate Commits(o: Org, op: Op) {
    Legal(o, op) && Verdict(o, op) == Ok
  }

  function LookedFor(o: Org, op: Op, found: bool): set<Id> {
    P.DropSet(op, if found && (op.UpdatePermissions? || op.DeleteRole?) then P.Holders(o, op.role) else {})
  }

  predicate Hits(w: World, user: Id, reachable: bool) {
    reachable && user in w.cached
  }

  ghost function Apply(w: World, a: Step): World {
    match a
    case LookUp(t, op, found) =>
      if t in w.mutations || op.InsertInvite? || op.AcceptInvite? || op.SettleInvite? then w
      else w.(mutations := w.mutations[t := LookedUp(op, LookedFor(w.org, op, found))])
    case Commit(t) =>
      if t !in w.mutations || !w.mutations[t].LookedUp? then w
      else if Commits(w.org, w.mutations[t].op)
      then w.(org := Rbac.Apply(w.org, w.mutations[t].op),
              mutations := w.mutations[t := Dropping(w.mutations[t].looked)])
      else w.(mutations := w.mutations[t := Dropping({})])
    case Drop(t, user, reachable) =>
      if t !in w.mutations || !w.mutations[t].Dropping? || user !in w.mutations[t].todo then w
      else w.(mutations := w.mutations[t := Dropping(w.mutations[t].todo - {user})],
              cached := if reachable then w.cached - {user} else w.cached)
    case Redeem(op) =>
      if op.InsertInvite? || op.AcceptInvite? || op.SettleInvite? then w.(org := Rbac.Apply(w.org, op)) else w
    case Get(p, user, reachable) =>
      if Hits(w, user, reachable) then w else w.(readers := w.readers[p := Missed(user)])
    case Fetch(p) =>
      if p in w.readers && w.readers[p].Missed?
      then w.(readers := w.readers[p := Fetched(w.readers[p].user, PermsOf(w.org, w.readers[p].user))])
      else w
    case Store(p, reachable) =>
      if p in w.readers && w.readers[p].Fetched?
      then w.(readers := w.readers - {p},
              cached := if reachable then w.cached[w.readers[p].user := w.readers[p].codes] else w.cached)
      else w
    case Expire(user) => w.(cached := w.cached - {user})
  }

  ghost function Run(w: World, steps: seq<Step>): World {
    if steps == [] then w else Apply(Run(w, steps[..|steps| - 1]), steps[|steps| - 1])
  }

  /** The user asked about and the set returned, if the step ends a UserPermissions call. */
  function Answer(w: World, a: Step): Option<(Id, set<string>)> {
    match a
    case Get(_, user, reachable) => if Hits(w, user, reachable) then Some((user, w.cached[user])) else None
    case Store(p, _) =>
      if p in w.readers && w.readers[p].Fetched? then Some((w.readers[p].user, w.readers[p].codes)) else None
    case _ => None
  }

  lemma {:induction false} RunExtends(w: World, steps: seq<Step>, a: Step)
    ensures Run(w, steps + [a]) == Apply(Run(w, steps), a)
  {
    assert (steps + [a])[..|steps + [a]| - 1] == steps;
  }

  lemma {:induction false} RunPrefix(w: World, steps: seq<Step>, i: nat)
    requires i < |steps|
    ensures Run(w, steps[..i + 1]) == Apply(Run(w, steps[..i]), steps[i])
  {
    assert steps[..i + 1][..i] == steps[..i];
  }

  lemma {:induction false} RunJoins(w: World, first: seq<Step>, second: seq<Step>)
    ensures Run(w, first + second) == Run(Run(w, first), second)
  {
    if second == [] {
      assert first + second == first;
    } else {
      var init := second[..|second| - 1];
      RunJoins(w, first, init);
      assert (first + second)[..|first + second| - 1] == first + init;
    }
  }

  // ---- when nothing stale can be served, to anyone ----

  predicate ReadersRight(w: World, o: Org) {
    forall p <- w.readers :: w.readers[p].Fetched? ==> w.readers[p].codes == PermsOf(o, w.readers[p].user)
  }

  predicate EntriesRight(w: World, o: Org) {
    forall u <- w.cached :: w.cached[u] == PermsOf(o, u)
  }

  predicate Settled(w: World) {
    ReadersRight(w, w.org) && EntriesRight(w, w.org)
  }

  /** No step of the run can change roles, grants or members. */
  predicate Quiet(steps: seq<Step>) {
    forall a <- steps :: !a.Commit? && !a.Redeem?
  }

  /** Until the next change every answer to anyone is what the query says. */
  ghost predicate NeverStale(w: World) {
    forall steps: seq<Step>, a: Step ::
      Quiet(steps) && Answer(Run(w, steps), a).Some? ==>
        Answer(Run(w, steps), a).value.1 == PermsOf(w.org, Answer(Run(w, steps), a).value.0)
  }

  lemma QuietStepKeepsSettled(w: World, a: Step)
    requires Settled(w) && !a.Commit? && !a.Redeem?
    ensures Settled(Apply(w, a)) && Apply(w, a).org == w.org
  {}

  lemma {:induction false} QuietRunKeepsSettled(w: World, steps: seq<Step>)
    requires Settled(w) && Quiet(steps)
    ensures Settled(Run(w, steps)) && Run(w, steps).org == w.org
  {
    if steps != [] {
      QuietRunKeepsSettled(w, steps[..|steps| - 1]);
      QuietStepKeepsSettled(Run(w, steps[..|steps| - 1]), steps[|steps| - 1]);
    }
  }

  lemma {:induction false} SettledExactly(w: World)
    ensures Settled(w) <==> NeverStale(w)
  {
    if Settled(w) {
      forall steps: seq<Step>, a: Step | Quiet(steps) && Answer(Run(w, steps), a).Some?
        ensures Answer(Run(w, steps), a).value.1 == PermsOf(w.org, Answer(Run(w, steps), a).value.0)
      {
        QuietRunKeepsSettled(w, steps);
      }
    } else if !EntriesRight(w, w.org) {
      var u :| u in w.cached && w.cached[u] != PermsOf(w.org, u);
      assert Quiet([]) && Answer(Run(w, []), Get(0, u, true)) == Some((u, w.cached[u]));
    } else {
      var p :| p in w.readers && w.readers[p].Fetched? && w.readers[p].codes != PermsOf(w.org, w.readers[p].user);
      assert Quiet([]) && Answer(Run(w, []), Store(p, true)) == Some((w.readers[p].user, w.readers[p].codes));
    }
  }

  // ---- one mutation: its commit and its loop ----

  predicate Done(w: World, t: Id) {
    t in w.mutations && w.mutations[t] == Dropping({})
  }

  /** Mutation t commits and its loop runs to the end with Redis answering; anything else interleaves, but no other
      change commits. */
  ghost predicate Loop(w: World, t: Id, steps: seq<Step>) {
    && |steps| > 0 && steps[0] == Commit(t) && Quiet(steps[1..])
    && (forall a <- steps :: a.Drop? && a.t == t ==> a.reachable)
    && Done(Run(w, steps), t)
  }

  /** Every reader between query and write already holds the new set, and every entry that is not the new set
      belongs to a looked-up user. */
  predicate Covered(w: World, o: Org, looked: set<Id>) {
    ReadersRight(w, o) && forall u <- w.cached :: u in looked || w.cached[u] == PermsOf(o, u)
  }

  /** Within the loop. */
  predicate InLoop(w: World, t: Id, o: Org) {
    && w.org == o && t in w.mutations && w.mutations[t].Dropping?
    && Covered(w, o, w.mutations[t].todo)
  }

  lemma LoopStepKeepsCovered(w: World, t: Id, o: Org, a: Step)
    requires InLoop(w, t, o) && !a.Commit? && !a.Redeem? && (a.Drop? && a.t == t ==> a.reachable)
    ensures InLoop(Apply(w, a), t, o)
  {}

  lemma {:induction false} LoopKeepsCovered(w: World, t: Id, steps: seq<Step>)
    requires t in w.mutations && w.mutations[t].LookedUp? && Commits(w.org, w.mutations[t].op)
    requires Covered(w, Rbac.Apply(w.org, w.mutations[t].op), w.mutations[t].looked)
    requires |steps| > 0 && steps[0] == Commit(t) && Quiet(steps[1..])
    requires forall a <- steps :: a.Drop? && a.t == t ==> a.reachable
    ensures InLoop(Run(w, steps), t, Rbac.Apply(w.org, w.mutations[t].op))
  {
    var prefix := steps[..|steps| - 1];
    if prefix == [] {
      assert Run(w, steps) == Apply(w, Commit(t));
    } else {
      assert forall a <- prefix[1..] :: a in steps[1..];
      LoopKeepsCovered(w, t, prefix);
      assert steps[|steps| - 1] in steps[1..];
      LoopStepKeepsCovered(Run(w, prefix), t, Rbac.Apply(w.org, w.mutations[t].op), steps[|steps| - 1]);
    }
  }

  /** The loop on its own: it drops the looked-up users' entries and touches nothing else. */
  lemma {:induction false} LoopExists(w: World, t: Id, todo: set<Id>) returns (steps: seq<Step>)
    requires t in w.mutations && w.mutations[t] == Dropping(todo)
    ensures Quiet(steps) && forall a <- steps :: a.Drop? && a.t == t && a.reachable
    ensures Run(w, steps) == w.(cached := w.cached - todo, mutations := w.mutations[t := Dropping({})])
    decreases |todo|
  {
    if todo == {} {
      steps := [];
    } else {
      var u :| u in todo;
      var v := Apply(w, Drop(t, u, true));
      var rest := LoopExists(v, t, todo - {u});
      steps := [Drop(t, u, true)] + rest;
      RunJoins(w, [Drop(t, u, true)], rest);
      assert Run(w, [Drop(t, u, true)]) == v by {
        RunExtends(w, [], Drop(t, u, true));
      }
      assert w.cached - {u} - (todo - {u}) == w.cached - todo;
    }
  }

  lemma {:induction false} BareLoop(w: World, t: Id) returns (steps: seq<Step>)
    requires t in w.mutations && w.mutations[t].LookedUp? && Commits(w.org, w.mutations[t].op)
    ensures Loop(w, t, steps)
    ensures var v := Run(w, steps);
            && v.org == Rbac.Apply(w.org, w.mutations[t].op) && v.readers == w.readers
            && v.cached == w.cached - w.mutations[t].looked && v.mutations == w.mutations[t := Dropping({})]
  {
    var v := Apply(w, Commit(t));
    var rest := LoopExists(v, t, w.mutations[t].looked);
    steps := [Commit(t)] + rest;
    RunJoins(w, [Commit(t)], rest);
    RunExtends(w, [], Commit(t));
    assert steps[1..] == rest;
  }

  /** However the loop interleaves with readers and other loops, nothing stale is left for anyone when it ends,
      exactly if at the commit no reader holds an outdated set and no user with an outdated entry was missed by
      the lookup. */
  lemma {:induction false} LoopSettlesExactly(w: World, t: Id)
    requires t in w.mutations && w.mutations[t].LookedUp? && Commits(w.org, w.mutations[t].op)
    ensures Covered(w, Rbac.Apply(w.org, w.mutations[t].op), w.mutations[t].looked) <==>
            forall steps: seq<Step> :: Loop(w, t, steps) ==> NeverStale(Run(w, steps))
  {
    var o := Rbac.Apply(w.org, w.mutations[t].op);
    if Covered(w, o, w.mutations[t].looked) {
      forall steps: seq<Step> | Loop(w, t, steps) ensures NeverStale(Run(w, steps)) {
        LoopKeepsCovered(w, t, steps);
        SettledExactly(Run(w, steps));
      }
    } else {
      var steps := BareLoop(w, t);
      var v := Run(w, steps);
      assert !Settled(v) by {
        if Settled(v) {
          assert ReadersRight(w, o);
          forall u | u in w.cached && u !in w.mutations[t].looked ensures w.cached[u] == PermsOf(o, u) {
            assert u in v.cached && v.cached[u] == w.cached[u];
          }
        }
      }
      SettledExactly(v);
    }
  }

  // ---- an edit or deletion from its lookup on ----

  lemma StepKeepsOrgWellFormed(w: World, a: Step)
    requires WellFormed(w.org)
    ensures WellFormed(Apply(w, a).org)
  {
    match a
    case Commit(t) =>
      if t in w.mutations && w.mutations[t].LookedUp? {
        StepKeepsWellFormed(w.org, w.mutations[t].op);
      }
    case Redeem(op) => StepKeepsWellFormed(w.org, op);
    case _ =>
  }

  lemma {:induction false} RunKeepsOrgWellFormed(w: World, steps: seq<Step>)
    requires WellFormed(w.org)
    ensures WellFormed(Run(w, steps).org)
  {
    if steps != [] {
      RunKeepsOrgWellFormed(w, steps[..|steps| - 1]);
      StepKeepsOrgWellFormed(Run(w, steps[..|steps| - 1]), steps[|steps| - 1]);
    }
  }

  lemma LookupStays(w: World, a: Step, t: Id)
    requires t in w.mutations && w.mutations[t].LookedUp? && a != Commit(t)
    ensures t in Apply(w, a).mutations && Apply(w, a).mutations[t] == w.mutations[t]
  {}

  /** Mutation t looked the role's holders up at step i and has not committed before j. */
  ghost predicate LookedUpAt(w: World, steps: seq<Step>, i: nat, j: nat, t: Id, op: Op) {
    && i < j <= |steps| && steps[i] == LookUp(t, op, true) && (op.UpdatePermissions? || op.DeleteRole?)
    && t !in Run(w, steps[..i]).mutations
    && forall n :: i < n < j ==> steps[n] != Commit(t)
  }

  lemma {:induction false} LookupPersists(w: World, steps: seq<Step>, i: nat, j: nat, t: Id, op: Op)
    requires LookedUpAt(w, steps, i, j, t, op)
    ensures var v := Run(w, steps[..j]);
            t in v.mutations && v.mutations[t] == LookedUp(op, P.Holders(Run(w, steps[..i]).org, op.role))
    decreases j
  {
    RunPrefix(w, steps, j - 1);
    if i + 1 < j {
      LookupPersists(w, steps, i, j - 1, t, op);
      LookupStays(Run(w, steps[..j - 1]), steps[j - 1], t);
    }
  }

  /** The operation that the step tries to commit. */
  function Committed(w: World, a: Step): Option<Op> {
    if a.Redeem? then Some(a.op)
    else if a.Commit? && a.t in w.mutations && w.mutations[a.t].LookedUp? then Some(w.mutations[a.t].op)
    else None
  }

  /** The step commits a grant of the role to the user: an assignment, or a redemption of an invitation to it. */
  ghost predicate Grants(w: World, a: Step, user: Id, role: Id) {
    && (user, role) !in w.org.grants && (user, role) in Apply(w, a).org.grants
    && match Committed(w, a)
       case Some(AssignRole(_, u, r)) => u == user && r == role
       case Some(AcceptInvite(invite, _, _)) => invite in w.org.invites && w.org.invites[invite].role == role
       case _ => false
  }

  lemma OnlyTwoOpsGrant(o: Org, op: Op, user: Id, role: Id)
    requires (user, role) !in o.grants && (user, role) in Rbac.Apply(o, op).grants
    ensures match op
            case AssignRole(_, u, r) => u == user && r == role
            case AcceptInvite(invite, _, _) => invite in o.invites && o.invites[invite].role == role
            case _ => false
  {}

  lemma OrgChangesByCommitting(w: World, a: Step)
    requires Apply(w, a).org != w.org
    ensures Committed(w, a).Some? && Apply(w, a).org == Rbac.Apply(w.org, Committed(w, a).value)
  {}

  lemma NewGrantIsGranted(w: World, a: Step, user: Id, role: Id)
    requires (user, role) !in w.org.grants && (user, role) in Apply(w, a).org.grants
    ensures Grants(w, a, user, role)
  {
    OrgChangesByCommitting(w, a);
    OnlyTwoOpsGrant(w.org, Committed(w, a).value, user, role);
  }

  lemma {:induction false} GrantedBetween(w: World, steps: seq<Step>, i: nat, j: nat, user: Id, role: Id)
    returns (k: nat)
    requires i <= j <= |steps|
    requires (user, role) !in Run(w, steps[..i]).org.grants && (user, role) in Run(w, steps[..j]).org.grants
    ensures i <= k < j && Grants(Run(w, steps[..k]), steps[k], user, role)
    decreases j
  {
    RunPrefix(w, steps, j - 1);
    if (user, role) in Run(w, steps[..j - 1]).org.grants {
      k := GrantedBetween(w, steps, i, j - 1, user, role);
    } else {
      k := j - 1;
      NewGrantIsGranted(Run(w, steps[..k]), steps[k], user, role);
    }
  }

  lemma IsHolder(o: Org, user: Id, role: Id)
    ensures user in P.Holders(o, role) <==> (user, role) in o.grants
  {
    if (user, role) in o.grants {
      P.HolderIsInvalidated(o, user, role);
    }
  }

  /** An edit or deletion changes the permissions of holders of its role only. */
  lemma ChangedUserIsHolder(o: Org, op: Op, user: Id)
    requires WellFormed(o) && Commits(o, op) && (op.UpdatePermissions? || op.DeleteRole?)
    requires PermsOf(Rbac.Apply(o, op), user) != PermsOf(o, user)
    ensures (user, op.role) in o.grants
  {
    IsHolder(o, user, op.role);
    if (user, op.role) !in o.grants {
      forall c ensures c in PermsOf(Rbac.Apply(o, op), user) <==> c in PermsOf(o, user) {
        P.MutationTouchesInvalidated(o, op, user, c);
      }
    }
  }

  /** With every entry right before an edit or deletion commits, its loop leaves nothing stale for anyone, however it
      interleaves, exactly if no reader holds an outdated set at the commit and every user with an entry whose
      permissions it changes held the role when the holders were looked up. */
  lemma {:induction false} EditSettlesExactly(w: World, steps: seq<Step>, i: nat, j: nat, t: Id, op: Op)
    requires LookedUpAt(w, steps, i, j, t, op)
    requires var v := Run(w, steps[..j]); Commits(v.org, op) && EntriesRight(v, v.org)
    ensures var v := Run(w, steps[..j]);
            var o := Rbac.Apply(v.org, op);
            var before := Run(w, steps[..i]).org;
            (forall loop: seq<Step> :: Loop(v, t, loop) ==> NeverStale(Run(v, loop))) <==>
            && ReadersRight(v, o)
            && forall u <- v.cached :: PermsOf(o, u) != PermsOf(v.org, u) ==> (u, op.role) in before.grants
  {
    var v := Run(w, steps[..j]);
    LookupPersists(w, steps, i, j, t, op);
    LoopSettlesExactly(v, t);
    forall u ensures u in v.mutations[t].looked <==> (u, op.role) in Run(w, steps[..i]).org.grants {
      IsHolder(Run(w, steps[..i]).org, u, op.role);
    }
  }

  lemma {:induction false} ChangedUserIsHolderThen(w: World, steps: seq<Step>, op: Op, user: Id)
    requires WellFormed(w.org) && (op.UpdatePermissions? || op.DeleteRole?)
    requires var o := Run(w, steps).org; Commits(o, op) && PermsOf(Rbac.Apply(o, op), user) != PermsOf(o, user)
    ensures (user, op.role) in Run(w, steps).org.grants
  {
    RunKeepsOrgWellFormed(w, steps);
    ChangedUserIsHolder(Run(w, steps).org, op, user);
  }

  /** A user whose permissions the edit changes and whom the lookup missed was granted the role in between. */
  lemma {:induction false} MissedUserWasGranted(w: World, steps: seq<Step>, i: nat, j: nat, t: Id, op: Op, user: Id)
    returns (k: nat)
    requires WellFormed(w.org) && LookedUpAt(w, steps, i, j, t, op)
    requires var o := Run(w, steps[..j]).org; Commits(o, op) && PermsOf(Rbac.Apply(o, op), user) != PermsOf(o, user)
    requires (user, op.role) !in Run(w, steps[..i]).org.grants
    ensures i < k < j && Grants(Run(w, steps[..k]), steps[k], user, op.role)
  {
    ChangedUserIsHolderThen(w, steps[..j], op, user);
    k := GrantedBetween(w, steps, i, j, user, op.role);
    assert steps[k] != LookUp(t, op, true);
  }

  // ---- and the missed user does occur ----

  ghost function AssignedInBetween(o: Org, edit: Op, assign: Op): World
    requires assign.AssignRole?
  {
    var looked := Apply(Apply(World(o, map[], map[], map[]), LookUp(1, edit, true)), LookUp(2, assign, true));
    Apply(Apply(looked, Commit(2)), Drop(2, assign.user, true))
  }

  /** The state after: an edit looked the holders up, the user was then assigned the role, and asked. */
  ghost function AskedInBetween(o: Org, edit: Op, assign: Op): World
    requires assign.AssignRole?
  {
    Apply(Apply(Apply(AssignedInBetween(o, edit, assign), Get(3, assign.user, true)), Fetch(3)), Store(3, true))
  }

  /** The assignment commits, then the edit takes `code` from the role; the user has neither before. */
  ghost predicate IsLateGrant(o: Org, edit: Op, assign: Op, code: string) {
    && assign.AssignRole? && edit.UpdatePermissions? && edit.role == assign.role
    && Commits(o, assign) && Commits(Rbac.Apply(o, assign), edit) && (assign.user, assign.role) !in o.grants
    && assign.role in o.roles && code in o.roles[assign.role].perms
    && code !in edit.codes && code !in PermsOf(o, assign.user)
  }

  lemma LateGrantOf(o: Org, p: Org, edit: Op, assign: Op, code: string)
    requires assign.AssignRole? && edit.UpdatePermissions? && edit.role == assign.role
    requires Commits(o, assign) && Rbac.Apply(o, assign) == p && Commits(p, edit)
    requires (assign.user, assign.role) !in o.grants && assign.role in o.roles
    requires code in o.roles[assign.role].perms && code !in edit.codes && code !in PermsOf(o, assign.user)
    ensures IsLateGrant(o, edit, assign, code)
  {}

  /** For every organization: the edit's lookup misses a user who is assigned the role before it commits and asks
      in between. After the loop, with nothing pending and Redis answering throughout, the user is still
      served every code that the edit took from the role and no other role gives. */
  lemma {:induction false} LateHolderIsServedOldCodes(o: Org, edit: Op, assign: Op, code: string)
    returns (loop: seq<Step>)
    requires WellFormed(o) && IsLateGrant(o, edit, assign, code)
    ensures var w := AskedInBetween(o, edit, assign);
            var v := Run(w, loop);
            && EntriesRight(w, w.org) && w.readers == map[]
            && Loop(w, 1, loop) && v.readers == map[] && Done(v, 1) && Done(v, 2)
            && Answer(v, Get(4, assign.user, true)).Some?
            && code in Answer(v, Get(4, assign.user, true)).value.1 && code !in PermsOf(v.org, assign.user)
  {
    var w := AskedInBetween(o, edit, assign);
    AskedInBetweenIs(o, edit, assign);
    IsHolder(o, assign.user, assign.role);
    CodeComesAndGoes(o, edit, assign, code);
    loop := BareLoop(w, 1);
    assert assign.user in Run(w, loop).cached;
  }

  lemma AssignedInBetweenIs(o: Org, edit: Op, assign: Op)
    requires assign.AssignRole? && edit.UpdatePermissions? && Commits(o, assign)
    ensures AssignedInBetween(o, edit, assign) ==
            World(Rbac.Apply(o, assign), map[], map[],
                  map[1 := LookedUp(edit, P.Holders(o, edit.role)), 2 := Dropping({})])
  {
    var looked := Apply(Apply(World(o, map[], map[], map[]), LookUp(1, edit, true)), LookUp(2, assign, true));
    assert looked.mutations == map[1 := LookedUp(edit, P.Holders(o, edit.role)), 2 := LookedUp(assign, {assign.user})];
    var committed := Apply(looked, Commit(2));
    assert committed.mutations == looked.mutations[2 := Dropping({assign.user})];
    assert {assign.user} - {assign.user} == {};
  }

  lemma AskedInBetweenIs(o: Org, edit: Op, assign: Op)
    requires assign.AssignRole? && edit.UpdatePermissions? && Commits(o, assign)
    ensures AskedInBetween(o, edit, assign) ==
            World(Rbac.Apply(o, assign), map[assign.user := PermsOf(Rbac.Apply(o, assign), assign.user)], map[],
                  map[1 := LookedUp(edit, P.Holders(o, edit.role)), 2 := Dropping({})])
  {
    AssignedInBetweenIs(o, edit, assign);
  }

  lemma CodeComesAndGoes(o: Org, edit: Op, assign: Op, code: string)
    requires WellFormed(o) && assign.AssignRole? && edit.UpdatePermissions? && edit.role == assign.role
    requires Commits(o, assign) && Commits(Rbac.Apply(o, assign), edit)
    requires code in o.roles[assign.role].perms && code !in edit.codes && code !in PermsOf(o, assign.user)
    ensures code in PermsOf(Rbac.Apply(o, assign), assign.user)
    ensures code !in PermsOf(Rbac.Apply(Rbac.Apply(o, assign), edit), assign.user)
  {
    var user, role, p := assign.user, assign.role, Rbac.Apply(o, assign);
    assert role in Held(p, user) && code in p.roles[role].perms;
    var q := Rbac.Apply(p, edit);
    forall r | r in Held(q, user) ensures code !in q.roles[r].perms {
      if r != role {
        assert r in Held(o, user) && q.roles[r] == o.roles[r];
      }
    }
  }

  /** One Owner, one member without a role, and the seeded roles, of which guest gives just `code`. */
  function TwoMembers(catalog: set<string>, code: string): Org {
    Org(catalog, map[7 := Member("owner@x", false, false), 8 := Member("late@x", false, false)],
        Seeded(catalog, {}, {}, {code}), {(7, 0)}, map[], {0}, {0, 1, 2, 3, 4})
  }

  lemma TwoMembersAreWellFormed(catalog: set<string>, code: string)
    requires ORG_MANAGE in catalog && code != ORG_MANAGE
    ensures WellFormed(TwoMembers(catalog, code))
  {
    var o := TwoMembers(catalog, code);
    forall r, q | r in o.roles && q in o.roles && o.roles[r].slug == o.roles[q].slug ensures r == q {
      SeededSlugsAreUnique(catalog, {}, {}, {code}, r, q);
    }
    forall r | r in o.roles
      ensures o.roles[r].system && o.roles[r].revision == 0
      ensures ORG_MANAGE in o.roles[r].perms <==> o.roles[r].slug == OWNER
    {
      SeededKeepsOrgManage(catalog, {}, {}, {code}, r);
    }
    assert forall r <- o.roles :: r in o.usedIds;
    OwnerStays(o, o, 7, 0);
  }

  lemma OwnerActs(o: Org, user: Id)
    requires Exists(o, user) && Held(o, user) == {0} && o.roles[0].slug == OWNER
    ensures AccessOf(o, user).Some? && AccessOf(o, user).value.isOwner
    ensures AccessOf(o, user).value.perms == o.roles[0].perms
  {
    assert 0 in Held(o, user);
  }

  lemma OwnerMayAssign(o: Org, actor: Id, user: Id, role: Id)
    requires AccessOf(o, actor).Some? && AccessOf(o, actor).value.isOwner && Exists(o, user) && role in o.roles
    requires o.roles[role].perms <= AccessOf(o, actor).value.perms && ORG_MANAGE !in o.roles[role].perms
    ensures Commits(o, AssignRole(actor, user, role))
  {}

  lemma OwnerMayEmpty(o: Org, actor: Id, role: Id, stamp: nat)
    requires AccessOf(o, actor).Some? && AccessOf(o, actor).value.isOwner
    requires role in o.roles && o.roles[role].slug != OWNER && stamp !in o.stamps
    ensures Commits(o, UpdatePermissions(actor, role, {}, None, stamp))
  {}

  /** An Owner `a`, a user `u` without a role, and a role `r` that gives just `code`. */
  ghost predicate SimpleCase(o: Org, a: Id, u: Id, r: Id, code: string) {
    && Exists(o, a) && Held(o, a) == {0} && o.roles[0].slug == OWNER && code in o.roles[0].perms
    && Exists(o, u) && u != a && Held(o, u) == {} && (u, r) !in o.grants
    && r in o.roles && r != 0 && o.roles[r].slug != OWNER && o.roles[r].perms == {code} && code != ORG_MANAGE
  }

  lemma SimpleCaseAssigns(o: Org, a: Id, u: Id, r: Id, code: string) returns (p: Org)
    requires SimpleCase(o, a, u, r, code)
    ensures Commits(o, AssignRole(a, u, r)) && p == Rbac.Apply(o, AssignRole(a, u, r))
    ensures p == o.(grants := o.grants + {(u, r)}) && Held(p, a) == {0}
  {
    OwnerActs(o, a);
    OwnerMayAssign(o, a, u, r);
    p := o.(grants := o.grants + {(u, r)});
    assert forall x :: x in Held(p, a) <==> x in Held(o, a);
  }

  lemma SimpleCaseIsLate(o: Org, a: Id, u: Id, r: Id, code: string, stamp: nat)
    requires SimpleCase(o, a, u, r, code) && stamp !in o.stamps
    ensures IsLateGrant(o, UpdatePermissions(a, r, {}, None, stamp), AssignRole(a, u, r), code)
  {
    var p := SimpleCaseAssigns(o, a, u, r, code);
    OwnerActs(p, a);
    OwnerMayEmpty(p, a, r, stamp);
    LateGrantOf(o, p, UpdatePermissions(a, r, {}, None, stamp), AssignRole(a, u, r), code);
  }

  lemma TwoMembersAreSimple(catalog: set<string>, code: string)
    requires code in catalog && code != ORG_MANAGE
    ensures SimpleCase(TwoMembers(catalog, code), 7, 8, 4, code)
  {
    SeededSlugsDiffer();
    assert Held(TwoMembers(catalog, code), 7) == {0} && Held(TwoMembers(catalog, code), 8) == {};
  }

  lemma SimpleCaseExists(catalog: set<string>, code: string) returns (o: Org)
    requires ORG_MANAGE in catalog && code in catalog && code != ORG_MANAGE
    ensures WellFormed(o) && SimpleCase(o, 7, 8, 4, code) && 1 !in o.stamps
  {
    o := TwoMembers(catalog, code);
    TwoMembersAreWellFormed(catalog, code);
    TwoMembersAreSimple(catalog, code);
  }

  /** The hypotheses of `LateHolderIsServedOldCodes` are met, for every code but org:manage. */
  lemma LateHolderExists(catalog: set<string>, code: string) returns (o: Org, edit: Op, assign: Op)
    requires ORG_MANAGE in catalog && code in catalog && code != ORG_MANAGE
    ensures WellFormed(o) && IsLateGrant(o, edit, assign, code)
  {
    o := SimpleCaseExists(catalog, code);
    edit, assign := UpdatePermissions(7, 4, {}, None, 1), AssignRole(7, 8, 4);
    SimpleCaseIsLate(o, 7, 8, 4, code, 1);
  }
}
