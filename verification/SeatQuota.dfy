/** Invitations against the plan's seat limit (internal/invitations, internal/billing/service.go,
    migrations/000012).

    `Create` counts seats and pending invitations, compares, and inserts; redemptions, revocations, the expiry
    sweep and the clock interleave with any number of such requests. */
module SeatQuota {
  import opened Wrappers
  import Q = QuotaGate
  import R = Rbac

  type Id = Q.Id

  /** The tables of one tenant that the count reads. */
  datatype Tables = Tables(users: map<Id, R.Member>, invites: map<Id, R.Invite>)

  /** `inviters` are the requests between their count and their insert. */
  datatype State = State(db: Tables, now: int, inviters: map<Id, Q.Request>)

  datatype Plan = Plan(maxSeats: Option<nat>, ttl: nat)

  datatype Step =
    | Count(p: Id)
    | Check(p: Id)
    | Issue(p: Id, id: Id, email: string, role: Id, actor: Id)
    | Abandon(p: Id)
    | Accept(id: Id, userId: Id)
    | Revoke(id: Id)
    | ExpirePending
    | Tick(time: int)

  function Seats(db: Tables): set<Id> {
    set u | u in db.users && !db.users[u].deleted && !db.users[u].disabled
  }

  /** The invitations that count: still pending and not past their expiry. */
  function Open(db: Tables, now: int): set<Id> {
    set i | i in db.invites && db.invites[i].status == R.Pending && db.invites[i].expiresAt > now
  }

  function Usage(db: Tables, now: int): nat {
    |Seats(db)| + |Open(db, now)|
  }

  /** The partial unique index on pending invitations ignores their expiry. */
  predicate EmailPending(db: Tables, email: string) {
    exists i <- db.invites :: db.invites[i].status == R.Pending && db.invites[i].email == email
  }

  predicate Member(db: Tables, email: string) {
    exists u <- db.users :: !db.users[u].deleted && db.users[u].email == email
  }

  predicate Allows(plan: Plan, n: nat) {
    plan.maxSeats.None? || n < plan.maxSeats.value
  }

  function Issued(db: Tables, id: Id, email: string, role: Id, actor: Id, expiresAt: int): Tables {
    if id in db.invites || EmailPending(db, email) then db
    else db.(invites := db.invites[id := R.Invite(email, role, R.Pending, actor, expiresAt)])
  }

  /** UPDATE invitations SET status = to WHERE id = ... AND status = 'pending'. */
  function Settled(db: Tables, id: Id, to: R.Status): Tables {
    if id in db.invites && db.invites[id].status == R.Pending
    then db.(invites := db.invites[id := db.invites[id].(status := to)])
    else db
  }

  predicate Redeemable(db: Tables, now: int, id: Id) {
    id in db.invites && db.invites[id].status == R.Pending && db.invites[id].expiresAt > now
  }

  /** accept_invitation: claims the invitation and adds a user unless the email is already a member. */
  function Redeemed(db: Tables, now: int, id: Id, userId: Id): Tables {
    if !Redeemable(db, now, id) then db
    else
      var email := db.invites[id].email;
      if Member(db, email) then Settled(db, id, R.Accepted)
      else if userId in db.users then db
      else Settled(db, id, R.Accepted).(users := db.users[userId := R.Member(email, false, false)])
  }

  /** Pending invitations past their expiry. */
  function Due(db: Tables, now: int): set<Id> {
    set i | i in db.invites && db.invites[i].status == R.Pending && db.invites[i].expiresAt <= now
  }

  function Swept(db: Tables, now: int): Tables {
    db.(invites := map i | i in db.invites ::
      if db.invites[i].status == R.Pending && db.invites[i].expiresAt <= now
      then db.invites[i].(status := R.Expired) else db.invites[i])
  }

  function Apply(s: State, plan: Plan, a: Step): State {
    match a
    case Count(p) => if p in s.inviters then s else s.(inviters := s.inviters[p := Q.Counted(Usage(s.db, s.now), 1)])
    case Check(p) =>
      if p !in s.inviters || !s.inviters[p].Counted? then s
      else if Allows(plan, s.inviters[p].n) then s.(inviters := s.inviters[p := Q.Passed(1)])
      else s.(inviters := s.inviters - {p})
    case Issue(p, id, email, role, actor) =>
      if p !in s.inviters || !s.inviters[p].Passed? then s
      else s.(db := Issued(s.db, id, email, role, actor, s.now + plan.ttl), inviters := s.inviters - {p})
    case Abandon(p) => s.(inviters := s.inviters - {p})
    case Accept(id, userId) => s.(db := Redeemed(s.db, s.now, id, userId))
    case Revoke(id) => s.(db := Settled(s.db, id, R.Revoked))
    case ExpirePending => s.(db := Swept(s.db, s.now))
    case Tick(time) => if time >= s.now then s.(now := time) else s
  }

  // ---- what each change does to the count ----

  /** A user takes one place exactly while neither deleted nor disabled. */
  lemma EachUserTakesOnePlace(db: Tables, now: int, id: Id)
    requires id in db.users
    ensures var u := db.users[id];
            Usage(db, now) == Usage(db.(users := db.users - {id}), now) + if u.deleted || u.disabled then 0 else 1
  {
    var without := db.(users := db.users - {id});
    assert Seats(without) == Seats(db) - {id};
    assert Open(without, now) == Open(db, now);
  }

  /** An invitation takes one while pending and not past its expiry. */
  lemma EachInvitationTakesOnePlace(db: Tables, now: int, id: Id)
    requires id in db.invites
    ensures var i := db.invites[id];
            Usage(db, now) ==
            Usage(db.(invites := db.invites - {id}), now) + if i.status == R.Pending && now < i.expiresAt then 1 else 0
  {
    var without := db.(invites := db.invites - {id});
    assert Open(without, now) == Open(db, now) - {id};
    assert Seats(without) == Seats(db);
  }

  /** So disabling an active user frees exactly one place. */
  lemma DisablingFreesOnePlace(db: Tables, now: int, id: Id)
    requires id in db.users && !db.users[id].deleted && !db.users[id].disabled
    ensures Usage(db.(users := db.users[id := db.users[id].(disabled := true)]), now) == Usage(db, now) - 1
  {
    var off := db.(users := db.users[id := db.users[id].(disabled := true)]);
    EachUserTakesOnePlace(db, now, id);
    EachUserTakesOnePlace(off, now, id);
    assert off.users - {id} == db.users - {id};
  }

  /** Redeeming turns the invitation's place into the seat: the count never grows. */
  lemma RedeemingMovesThePlace(db: Tables, now: int, id: Id, userId: Id)
    ensures Usage(Redeemed(db, now, id, userId), now) <= Usage(db, now)
    ensures Redeemable(db, now, id) && !Member(db, db.invites[id].email) && userId !in db.users ==>
              && Seats(Redeemed(db, now, id, userId)) == Seats(db) + {userId}
              && Usage(Redeemed(db, now, id, userId), now) == Usage(db, now)
  {
    var after := Redeemed(db, now, id, userId);
    if after != db {
      assert id in Open(db, now);
      assert Open(after, now) == Open(db, now) - {id};
      if Member(db, db.invites[id].email) {
        assert Seats(after) == Seats(db);
      } else {
        assert Seats(after) == Seats(db) + {userId};
      }
    }
  }

  lemma SettlingFrees(db: Tables, now: int, id: Id, to: R.Status)
    requires to != R.Pending
    ensures Usage(Settled(db, id, to), now) <= Usage(db, now)
  {
    Q.FewerInSubset(Open(Settled(db, id, to), now), Open(db, now));
  }

  /** The sweep is only a convenience: what counts, and what can be redeemed, is the same without it. */
  lemma SweepIsUnobserved(db: Tables, now: int, later: int)
    requires now <= later
    ensures Open(Swept(db, now), later) == Open(db, later)
    ensures Usage(Swept(db, now), later) == Usage(db, later)
    ensures forall id :: Redeemable(Swept(db, now), later, id) <==> Redeemable(db, later, id)
  {
    assert Open(Swept(db, now), later) == Open(db, later);
  }

  lemma IssuingTakesOnePlace(db: Tables, now: int, id: Id, email: string, role: Id, actor: Id, expiresAt: int)
    ensures Usage(Issued(db, id, email, role, actor, expiresAt), now) <= Usage(db, now) + 1
  {
    Q.FewerInSubset(Open(Issued(db, id, email, role, actor, expiresAt), now), Open(db, now) + {id});
  }

  lemma TimeFrees(db: Tables, now: int, later: int)
    requires now <= later
    ensures Usage(db, later) <= Usage(db, now)
  {
    Q.FewerInSubset(Open(db, later), Open(db, now));
  }

  // ---- requests refine the gate ----

  predicate Ones(s: State) {
    forall p <- s.inviters :: s.inviters[p].amount == 1
  }

  function View(s: State): Q.Gate {
    Q.Gate(Usage(s.db, s.now), s.inviters)
  }

  function MoveOf(s: State, plan: Plan, a: Step): Q.Move {
    var t := Apply(s, plan, a);
    match a
    case Count(p) => Q.Count(p, 1)
    case Check(p) => Q.Check(p)
    case Issue(p, id, email, role, actor) =>
      Q.Insert(p, Usage(Issued(s.db, id, email, role, actor, s.now + plan.ttl), s.now))
    case Abandon(p) => Q.Leave(p)
    case _ => Q.Shrink(Usage(t.db, t.now))
  }

  lemma StepRefines(s: State, plan: Plan, a: Step)
    requires Ones(s)
    ensures Ones(Apply(s, plan, a))
    ensures View(Apply(s, plan, a)) == Q.Apply(View(s), plan.maxSeats, MoveOf(s, plan, a))
  {
    match a
    case Issue(_, id, email, role, actor) =>
      IssuingTakesOnePlace(s.db, s.now, id, email, role, actor, s.now + plan.ttl);
    case Accept(id, userId) => RedeemingMovesThePlace(s.db, s.now, id, userId);
    case Revoke(id) => SettlingFrees(s.db, s.now, id, R.Revoked);
    case ExpirePending => SweepIsUnobserved(s.db, s.now, s.now);
    case Tick(time) => if time >= s.now { TimeFrees(s.db, s.now, time); }
    case _ =>
  }

  function Requests(plan: Plan): Q.Quota<State, Step> {
    Q.Quota(plan.maxSeats, (s, a) => Apply(s, plan, a), s => View(s), (s, a) => MoveOf(s, plan, a), s => Ones(s))
  }

  function Run(s: State, plan: Plan, steps: seq<Step>): State {
    Q.Run(Requests(plan), s, steps)
  }

  lemma RequestsRefine(plan: Plan)
    ensures Q.Refines(Requests(plan)) && Q.AmountsAtMost(Requests(plan), 1)
  {
    forall s, a | Ones(s)
      ensures Ones(Apply(s, plan, a))
      ensures View(Apply(s, plan, a)) == Q.Apply(View(s), plan.maxSeats, MoveOf(s, plan, a))
    {
      StepRefines(s, plan, a);
    }
  }

  // ---- the seat limit over runs, and the bound is reached ----

  /** Seats and open invitations together stay within the plan when requests are serial, and within `k - 1` of
      it with at most `k` requests at once. */
  lemma SeatsAreBounded(s: State, plan: Plan, k: nat, steps: seq<Step>)
    requires k > 0 && plan.maxSeats.Some? && s.inviters == map[] && Usage(s.db, s.now) <= plan.maxSeats.value
    requires Q.AtMostAtOnce(Requests(plan), s, steps, k)
    ensures var t := Run(s, plan, steps); |Seats(t.db)| + |Open(t.db, t.now)| <= plan.maxSeats.value + k - 1
  {
    RequestsRefine(plan);
    Q.UseIsBounded(Requests(plan), s, plan.maxSeats.value, k, 1, steps);
  }

  /** Invitation ids from `base` on, and emails of such lengths, are unused. */
  predicate UnusedFrom(db: Tables, base: nat) {
    forall i <- db.invites :: i < base && |db.invites[i].email| < base
  }

  function Burst(): Q.Burst<State, Step> {
    Q.Burst(1, p => Count(p), p => Check(p), (p, n) => Issue(p, n, Q.Name(n), 0, 0),
            (s: State, n) => UnusedFrom(s.db, n))
  }

  lemma UnusedIsIssued(db: Tables, now: int, unused: nat, expiresAt: int)
    requires UnusedFrom(db, unused) && expiresAt > now
    ensures var t := Issued(db, unused, Q.Name(unused), 0, 0, expiresAt);
            UnusedFrom(t, unused + 1) && Usage(t, now) == Usage(db, now) + 1
  {
    assert !EmailPending(db, Q.Name(unused));
    var row := R.Invite(Q.Name(unused), 0, R.Pending, 0, expiresAt);
    var t := db.(invites := db.invites[unused := row]);
    assert t == Issued(db, unused, Q.Name(unused), 0, 0, expiresAt);
    EachInvitationTakesOnePlace(t, now, unused);
    assert t.invites - {unused} == db.invites;
  }

  lemma IssueIsRealized(s: State, plan: Plan, p: Id, n: nat)
    requires plan.ttl > 0 && UnusedFrom(s.db, n) && p in s.inviters && s.inviters[p] == Q.Passed(1)
    ensures MoveOf(s, plan, Issue(p, n, Q.Name(n), 0, 0)) == Q.Insert(p, View(s).used + 1)
    ensures UnusedFrom(Apply(s, plan, Issue(p, n, Q.Name(n), 0, 0)).db, n + 1)
  {
    UnusedIsIssued(s.db, s.now, n, s.now + plan.ttl);
  }

  lemma BurstIsRealized(plan: Plan)
    requires plan.ttl > 0
    ensures Q.Realizes(Requests(plan), Burst())
  {
    forall s: State, p, n: nat | UnusedFrom(s.db, n) && p in s.inviters && s.inviters[p] == Q.Passed(1)
      ensures MoveOf(s, plan, Issue(p, n, Q.Name(n), 0, 0)) == Q.Insert(p, View(s).used + 1)
      ensures UnusedFrom(Apply(s, plan, Issue(p, n, Q.Name(n), 0, 0)).db, n + 1)
    {
      IssueIsRealized(s, plan, p, n);
    }
  }

  /** From one below the plan, `k` requests, never more than `k` at once, reach `maxSeats + k - 1`. */
  lemma SeatBoundIsReached(s: State, plan: Plan, k: nat, base: nat)
    requires s.inviters == map[] && UnusedFrom(s.db, base) && plan.ttl > 0
    requires plan.maxSeats.Some? && Usage(s.db, s.now) == plan.maxSeats.value - 1
    ensures Q.AtMostAtOnce(Requests(plan), s, Q.Rush(Burst(), k, base), k)
    ensures var t := Run(s, plan, Q.Rush(Burst(), k, base)); Usage(t.db, t.now) == plan.maxSeats.value + k - 1
  {
    RequestsRefine(plan);
    BurstIsRealized(plan);
    Q.RushGetsIn(Requests(plan), Burst(), s, k, base);
  }

  // ---- the life of one invitation ----

  predicate Redeems(s: State, a: Step, id: Id) {
    a.Accept? && a.id == id && Redeemed(s.db, s.now, id, a.userId) != s.db
  }

  lemma {:induction false} RunPrefix(s: State, plan: Plan, steps: seq<Step>, i: nat)
    requires i < |steps|
    ensures Run(s, plan, steps[..i + 1]) == Apply(Run(s, plan, steps[..i]), plan, steps[i])
  {
    assert steps[..i + 1][..i] == steps[..i];
  }

  lemma StepKeepsSettled(s: State, plan: Plan, a: Step, id: Id)
    requires id in s.db.invites
    ensures id in Apply(s, plan, a).db.invites
    ensures s.db.invites[id].status != R.Pending ==> Apply(s, plan, a).db.invites[id] == s.db.invites[id]
  {}

  /** Accepted, revoked and expired are final. */
  lemma {:induction false} SettledStaysSettled(s: State, plan: Plan, steps: seq<Step>, i: nat, j: nat, id: Id)
    requires i <= j <= |steps|
    requires id in Run(s, plan, steps[..i]).db.invites && Run(s, plan, steps[..i]).db.invites[id].status != R.Pending
    ensures id in Run(s, plan, steps[..j]).db.invites
    ensures Run(s, plan, steps[..j]).db.invites[id] == Run(s, plan, steps[..i]).db.invites[id]
    decreases j
  {
    if i < j {
      SettledStaysSettled(s, plan, steps, i, j - 1, id);
      RunPrefix(s, plan, steps, j - 1);
      StepKeepsSettled(Run(s, plan, steps[..j - 1]), plan, steps[j - 1], id);
    }
  }

  /** Of any number of redemptions and revocations of one invitation at most one redemption succeeds. */
  lemma {:induction false} RedeemedAtMostOnce(s: State, plan: Plan, steps: seq<Step>, i: nat, j: nat, id: Id)
    requires i < j < |steps|
    requires Redeems(Run(s, plan, steps[..i]), steps[i], id)
    ensures !Redeems(Run(s, plan, steps[..j]), steps[j], id)
  {
    RunPrefix(s, plan, steps, i);
    SettledStaysSettled(s, plan, steps, i + 1, j, id);
  }

  /** No email ever has two pending invitations. */
  predicate OnePendingEach(db: Tables) {
    forall i, j ::
      (i in db.invites && j in db.invites && db.invites[i].status == R.Pending && db.invites[j].status == R.Pending
       && db.invites[i].email == db.invites[j].email) ==> i == j
  }

  lemma {:induction false} RunKeepsOnePendingEach(s: State, plan: Plan, steps: seq<Step>)
    requires OnePendingEach(s.db)
    ensures OnePendingEach(Run(s, plan, steps).db)
  {
    if steps != [] {
      RunKeepsOnePendingEach(s, plan, steps[..|steps| - 1]);
      StepKeepsOnePendingEach(Run(s, plan, steps[..|steps| - 1]), plan, steps[|steps| - 1]);
    }
  }

  lemma IssueKeepsOnePendingEach(db: Tables, id: Id, email: string, role: Id, actor: Id, expiresAt: int)
    requires OnePendingEach(db)
    ensures OnePendingEach(Issued(db, id, email, role, actor, expiresAt))
  {}

  lemma StepKeepsOnePendingEach(s: State, plan: Plan, a: Step)
    requires OnePendingEach(s.db)
    ensures OnePendingEach(Apply(s, plan, a).db)
  {
    match a
    case Issue(_, id, email, role, actor) => IssueKeepsOnePendingEach(s.db, id, email, role, actor, s.now + plan.ttl);
    case _ =>
  }

  // ---- the same invitations as in the role engine ----

  function TablesOf(o: R.Org): Tables {
    Tables(o.members, o.invites)
  }

  /** Issuing, settling and redeeming here are the role engine's operations, seen without roles and grants.
      Redeeming there also grants the invitation's role. */
  lemma RoleEngineAgrees(o: R.Org, op: R.Op)
    requires R.Legal(o, op)
    ensures match op
            case InsertInvite(actor, id, email, role, expiresAt) =>
              role in o.roles ==> TablesOf(R.Apply(o, op)) == Issued(TablesOf(o), id, email, role, actor, expiresAt)
            case SettleInvite(id, status) => TablesOf(R.Apply(o, op)) == Settled(TablesOf(o), id, status)
            case AcceptInvite(id, userId, now) =>
              && TablesOf(R.Apply(o, op)) == Redeemed(TablesOf(o), now, id, userId)
              && (Redeemable(TablesOf(o), now, id) ==>
                    exists u <- R.Apply(o, op).members ::
                      R.Apply(o, op).members[u].email == o.invites[id].email
                      && R.Apply(o, op).grants == o.grants + {(u, o.invites[id].role)})
            case _ => true
  {
    match op
    case AcceptInvite(id, userId, now) =>
      if Redeemable(TablesOf(o), now, id) {
        RedeemingAgrees(o, id, userId, now);
      }
    case _ =>
  }

  lemma RedeemingAgrees(o: R.Org, id: Id, userId: Id, now: int)
    requires R.Redeemable(o, id, now) && userId !in o.members
    ensures TablesOf(R.Accepting(o, id, userId)) == Redeemed(TablesOf(o), now, id, userId)
    ensures exists u <- R.Accepting(o, id, userId).members ::
              R.Accepting(o, id, userId).members[u].email == o.invites[id].email
              && R.Accepting(o, id, userId).grants == o.grants + {(u, o.invites[id].role)}
  {
    var email := o.invites[id].email;
    assert Member(TablesOf(o), email) <==> exists u :: R.HasAccount(o, email, u) by {
      if u :| R.HasAccount(o, email, u) {
        assert u in TablesOf(o).users;
      }
      if Member(TablesOf(o), email) {
        var u :| u in o.members && !o.members[u].deleted && o.members[u].email == email;
        assert R.HasAccount(o, email, u);
      }
    }
    var p := R.Accepting(o, id, userId);
    if Member(TablesOf(o), email) {
      var u :| R.HasAccount(o, email, u) && p.grants == o.grants + {(u, o.invites[id].role)};
      assert u in p.members;
    } else {
      assert userId in p.members;
    }
  }

  // ---- the service ----

  datatype CreateVerdict =
    | Invited | EmailRequired | RoleNotFound | NotDelegable(reason: R.Outcome) | SeatsFull | AlreadyPending

  class InvitationService {
    var users: map<Id, R.Member>
    var invites: map<Id, R.Invite>
    const plan: Plan

    constructor (db: Tables, plan: Plan)
      ensures Now() == db && this.plan == plan
    {
      users, invites, this.plan := db.users, db.invites, plan;
    }

    function Now(): Tables
      reads this
    {
      Tables(users, invites)
    }

    method CheckSeatQuota(now: int) returns (ok: bool)
      ensures ok <==> Allows(plan, Usage(Now(), now))
    {
      if plan.maxSeats.None? { return true; }
      var seats, pending := |Seats(Now())|, |Open(Now(), now)|;
      if seats + pending >= plan.maxSeats.value { return false; }
      return true;
    }

    /** One request with nothing in between is the run count, check, issue. `role` is what resolveRole found
        and `clearance` what CanDelegateRole answered. */
    method Create(id: Id, email: string, role: Option<Id>, clearance: R.Outcome, actor: Id, now: int)
      returns (verdict: CreateVerdict)
      requires id !in invites
      modifies this`invites
      ensures verdict == EmailRequired <==> email == ""
      ensures verdict == RoleNotFound <==> email != "" && role.None?
      ensures verdict.NotDelegable? <==> email != "" && role.Some? && clearance != R.Ok
      ensures verdict.NotDelegable? ==> verdict.reason == clearance
      ensures verdict.SeatsFull? <==>
                email != "" && role.Some? && clearance == R.Ok && !Allows(plan, Usage(old(Now()), now))
      ensures email != "" && role.Some? && clearance == R.Ok ==>
                var counted := Apply(State(old(Now()), now, map[]), plan, Count(0));
                State(Now(), now, map[]) ==
                Apply(Apply(counted, plan, Check(0)), plan, Issue(0, id, email, role.value, actor))
      ensures verdict.AlreadyPending? ==> EmailPending(Now(), email)
      ensures if verdict.Invited?
              then invites == old(invites)[id := R.Invite(email, role.value, R.Pending, actor, now + plan.ttl)]
              else invites == old(invites)
    {
      if email == "" { return EmailRequired; }
      if role.None? { return RoleNotFound; }
      if clearance != R.Ok { return NotDelegable(clearance); }
      var ok := CheckSeatQuota(now);
      if !ok { return SeatsFull; }
      if EmailPending(Now(), email) { return AlreadyPending; }
      invites := invites[id := R.Invite(email, role.value, R.Pending, actor, now + plan.ttl)];
      return Invited;
    }

    /** The guarded transition: it reports whether a row matched. */
    method UpdateStatus(id: Id, from: R.Status, to: R.Status) returns (found: bool)
      modifies this`invites
      ensures found <==> id in old(invites) && old(invites)[id].status == from
      ensures invites == if found then old(invites)[id := old(invites)[id].(status := to)] else old(invites)
    {
      found := id in invites && invites[id].status == from;
      if found {
        invites := invites[id := invites[id].(status := to)];
      }
    }

    method Revoke(id: Id) returns (found: bool)
      modifies this`invites
      ensures found <==> id in old(invites) && old(invites)[id].status == R.Pending
      ensures Now() == Settled(old(Now()), id, R.Revoked)
    {
      if id !in invites || invites[id].status != R.Pending { return false; }
      found := UpdateStatus(id, R.Pending, R.Revoked);
    }

    method Accept(id: Id, userId: Id, now: int) returns (claimed: bool)
      requires userId !in users
      modifies this`invites, this`users
      ensures claimed <==> Redeemable(old(Now()), now, id)
      ensures Now() == Redeemed(old(Now()), now, id, userId)
    {
      if id !in invites || invites[id].status != R.Pending || !(now < invites[id].expiresAt) { return false; }
      var email := invites[id].email;
      claimed := UpdateStatus(id, R.Pending, R.Accepted);
      if !Member(Now(), email) {
        users := users[userId := R.Member(email, false, false)];
      }
    }

    /** The sweep, row by row: it counts the rows it expires. */
    method Expire(now: int) returns (affected: nat)
      modifies this`invites
      ensures invites.Keys == old(invites).Keys
      ensures forall i <- invites :: invites[i].status == R.Expired && old(invites)[i].status == R.Pending <==>
                i in Due(old(Now()), now)
      ensures forall i <- invites :: i !in Due(old(Now()), now) ==> invites[i] == old(invites)[i]
      ensures affected == |Due(old(Now()), now)|
      ensures Now() == Swept(old(Now()), now)
    {
      affected := 0;
      ghost var was, due, done := invites, Due(Now(), now), {};
      var rest := invites.Keys;
      while rest != {}
        invariant rest <= invites.Keys == was.Keys
        invariant forall i <- was :: invites[i] == if i in done then was[i].(status := R.Expired) else was[i]
        invariant done <= due && forall i <- due :: i in done <==> i !in rest
        invariant affected == |done|
        decreases |rest|
      {
        var i :| i in rest;
        rest := rest - {i};
        if invites[i].status == R.Pending && invites[i].expiresAt <= now {
          invites := invites[i := invites[i].(status := R.Expired)];
          affected := affected + 1;
          done := done + {i};
        }
      }
      assert done == due;
    }
  }
}
