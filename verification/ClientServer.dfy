/** One browser tab composed with the server's refresh-token families.

    The tab runs the protocol of `ClientSession`; a refresh token is the id of its row. Rotation k of the tab is
    process k of `TokenRuns`: its request is posted, looked up, served, and its answer delivered or lost, with
    any other client's steps in between. The question is when the server takes its reuse branch for a request
    that the tab itself sent, which revokes the tab's own family. */
module ClientServer {
  import opened Wrappers
  import opened IdentityTables
  import C = ClientSession
  import T = TokenRuns

  datatype Reply = Success(id: Id) | Refusal(status: nat)

  datatype Msg = Posted(token: Option<Id>) | Working | Replied(reply: Reply)

  /** `family` is the family of the tab's session. `spoiled` is history: since the tab entered this session,
      somebody other than its own answered refreshes changed rows of that family, or the answer to one of its
      successful refreshes was lost or replaced by an error. `entered` are the families whose login the tab has
      received; each login opens a family of its own. */
  datatype World = World(tab: C.TabState, srv: T.Sys, net: map<nat, Msg>, family: Id, spoiled: bool, entered: set<Id>)

  /** `Serve` with `broken` is a rotation that commits but is answered with an error, because signing the access
      token fails afterwards; `Fail` is an error before anything is committed. `Lose(k)` is a network error at
      the tab; what was sent to the server stays there. */
  datatype Step =
    | Local(a: C.Step)
    | Post
    | Look(k: nat)
    | Serve(k: nat, newId: Id, expiresAt: int, now: int, broken: bool)
    | Fail(k: nat, status: nat)
    | Deliver(k: nat, access: Id)
    | Lose(k: nat)
    | Login(access: Id, id: Id)
    | Others(e: T.Step)

  /** Rotation k is under way in the current session, with the token the tab holds. */
  predicate Own(x: World, k: nat) {
    x.tab.refresh.Some? && x.tab.flight == C.Asked(k, x.tab.epoch, x.tab.refresh)
  }

  /** The rows of the family are the same. */
  predicate Untouched(before: map<Id, Token>, after: map<Id, Token>, family: Id) {
    && (forall id <- before :: before[id].family == family ==> id in after && after[id] == before[id])
    && (forall id <- after :: after[id].family == family ==> id in before && after[id] == before[id])
  }

  /** The switch at the end of Refresh. */
  function StatusOf(v: RotateVerdict): nat
    requires v != Rotated
  {
    match v
    case RejectedSubject(_) => 403
    case Duplicate => 500
    case Unknown | Reused | Expired | Mismatch => 401
  }

  /** Somebody other than the tab moved the server to `srv`. */
  function Meddled(x: World, srv: T.Sys): World {
    x.(srv := srv, spoiled := x.spoiled || !Untouched(x.srv.db.tokens, srv.db.tokens, x.family))
  }

  function Served(x: World, a: Step): World
    requires a.Serve? && a.k in x.srv.seen
  {
    var rotate := T.Rotate(a.k, a.newId, a.expiresAt, a.now);
    var v := T.VerdictAt(x.srv, rotate).value;
    var reply := if v == Rotated && !a.broken then Success(a.newId)
                 else Refusal(if v == Rotated then 500 else StatusOf(v));
    var after := if Own(x, a.k) && reply.Success? then x.(srv := T.Apply(x.srv, rotate))
                 else Meddled(x, T.Apply(x.srv, rotate));
    after.(net := x.net[a.k := Replied(reply)])
  }

  function AnswerOf(reply: Reply, access: Id): C.Answer {
    match reply
    case Success(id) => C.Tokens(access, id)
    case Refusal(status) => C.Error(status)
  }

  predicate Names(e: T.Step, net: map<nat, Msg>) {
    match e
    case Lookup(p, _) => p in net
    case Rotate(p, _, _, _) => p in net
    case _ => false
  }

  function Apply(x: World, a: Step): World {
    match a
    case Local(c) =>
      if c.StartTask? || c.Answered? || c.Enter? then x else x.(tab := C.Apply(x.tab, c))
    case Post =>
      if x.tab.flight.Scheduled?
      then x.(tab := C.Apply(x.tab, C.StartTask), net := x.net[x.tab.flight.k := Posted(x.tab.refresh)])
      else x
    case Look(k) =>
      if k !in x.net || !x.net[k].Posted? then x
      else if x.net[k].token.Some? && x.net[k].token.value in x.srv.db.tokens
      then x.(srv := T.Apply(x.srv, T.Lookup(k, x.net[k].token.value)), net := x.net[k := Working])
      else x.(net := x.net[k := Replied(Refusal(401))])
    case Serve(k, _, _, _, _) =>
      if k in x.net && x.net[k] == Working && k in x.srv.seen then Served(x, a) else x
    case Fail(k, status) =>
      if k in x.net && !x.net[k].Replied?
      then x.(srv := x.srv.(seen := x.srv.seen - {k}), net := x.net[k := Replied(Refusal(status))])
      else x
    case Deliver(k, access) =>
      if k in x.net && x.net[k].Replied? && x.tab.flight.Asked? && x.tab.flight.k == k
      then x.(tab := C.AfterAnswer(x.tab, AnswerOf(x.net[k].reply, access)), net := x.net - {k})
      else x
    case Lose(k) =>
      if x.tab.flight.Asked? && x.tab.flight.k == k
      then x.(tab := C.AfterAnswer(x.tab, C.Error(0)),
              spoiled := x.spoiled || (Own(x, k) && k in x.net && x.net[k].Replied? && x.net[k].reply.Success?))
      else x
    case Login(access, id) =>
      if id in x.srv.db.tokens && x.srv.db.tokens[id].family !in x.entered
      then x.(tab := C.Apply(x.tab, C.Enter(access, id)), family := x.srv.db.tokens[id].family,
              spoiled := !Live(x.srv.db.tokens[id]), entered := x.entered + {x.srv.db.tokens[id].family})
      else x
    case Others(e) => if Names(e, x.net) then x else Meddled(x, T.Apply(x.srv, e))
  }

  function Run(x: World, steps: seq<Step>): World {
    if steps == [] then x else Apply(Run(x, steps[..|steps| - 1]), steps[|steps| - 1])
  }

  /** A tab just loaded, with the session its storage holds. */
  ghost predicate Start(x: World) {
    && T.Inv(x.srv) && x.net == map[]
    && x.tab == C.Loaded(x.tab.access, x.tab.refresh)
    && (x.tab.refresh.Some? ==>
          && x.tab.refresh.value in x.srv.db.tokens
          && x.family == x.srv.db.tokens[x.tab.refresh.value].family && x.family in x.entered
          && x.spoiled == !Live(x.srv.db.tokens[x.tab.refresh.value]))
  }

  // ---- a family changes by losing all the rows it had ----

  lemma RevocationChange(tokens: map<Id, Token>, tenant: Id, scope: Scope, now: int, family: Id)
    requires T.Chained(tokens)
    requires !Untouched(tokens, RevokeRows(tokens, tenant, scope, now), family)
    ensures forall id <- tokens :: tokens[id].family == family ==> !Live(RevokeRows(tokens, tenant, scope, now)[id])
  {
    var after := RevokeRows(tokens, tenant, scope, now);
    var x :| x in tokens && tokens[x].family == family && after[x] != tokens[x];
    forall y | y in tokens && tokens[y].family == family ensures !Live(after[y]) {
      T.ScopeSelectsWholeFamilies(tokens, tenant, scope, x, y);
    }
  }

  lemma RotationChange(s: T.Sys, a: T.Step, family: Id)
    requires T.Inv(s) && T.VerdictAt(s, a) == Some(Rotated)
    requires !Untouched(s.db.tokens, T.Apply(s, a).db.tokens, family)
    ensures s.seen[a.p].family == family
    ensures forall id <- s.db.tokens :: s.db.tokens[id].family == family ==> !Live(T.Apply(s, a).db.tokens[id])
  {
    var tokens := s.db.tokens;
    var spent := s.seen[a.p].id;
    var chain := T.ChainOf(tokens, spent);
    forall y | y in tokens && tokens[y].family == family ensures !Live(T.Apply(s, a).db.tokens[y]) {
      assert y in chain;
      assert spent == chain[|chain| - 1];
    }
  }

  /** Every row of the family that was there is revoked. */
  predicate AllRevoked(before: map<Id, Token>, after: map<Id, Token>, family: Id) {
    forall id <- before :: before[id].family == family ==> id in after && !Live(after[id])
  }

  lemma RotateFamilyChange(s: T.Sys, a: T.Step, family: Id)
    requires T.Inv(s) && T.VerdictAt(s, a).Some?
    requires !Untouched(s.db.tokens, T.Apply(s, a).db.tokens, family)
    ensures AllRevoked(s.db.tokens, T.Apply(s, a).db.tokens, family)
  {
    match T.VerdictAt(s, a).value
    case Rotated => RotationChange(s, a, family);
    case Reused =>
      var row := s.db.tokens[s.seen[a.p].id];
      RevocationChange(s.db.tokens, row.tenant, OfFamily(row.family), a.now, family);
    case _ =>
  }

  /** Whatever changes rows of a known family leaves every row it had revoked. */
  lemma FamilyChange(s: T.Sys, a: T.Step, family: Id)
    requires T.Inv(s) && T.Known(s.db.tokens, family)
    requires !Untouched(s.db.tokens, T.Apply(s, a).db.tokens, family)
    ensures AllRevoked(s.db.tokens, T.Apply(s, a).db.tokens, family)
  {
    var tokens := s.db.tokens;
    match a
    case Rotate(p, _, _, _) =>
      if p in s.seen {
        RotateFamilyChange(s, a, family);
      }
    case RevokeFamily(tenant, f, now) => RevocationChange(tokens, tenant, OfFamily(f), now, family);
    case RevokeUser(tenant, user, now) => RevocationChange(tokens, tenant, OfUser(user), now, family);
    case ConsumeReset(tenant, v, user, _, now) =>
      if Claim(s.db, tenant, v, user, PasswordReset, now) == Claimed {
        RevocationChange(tokens, tenant, OfUser(user), now, family);
      }
    case _ =>
  }

  // ---- what every reachable world satisfies ----

  /** A request under way is about a family the tab has entered. That of an own rotation carries, or looked up,
      the token the tab holds; one sent without a token is refused. */
  ghost predicate RequestOk(x: World, k: nat)
    requires k in x.net
  {
    && k in x.tab.began
    && match x.net[k]
       case Posted(token) =>
         && (token.Some? ==> token.value in x.srv.db.tokens && x.srv.db.tokens[token.value].family in x.entered)
         && (Own(x, k) ==> token == x.tab.refresh)
         && (SentNothing(x, k) ==> token.None?)
       case Working =>
         && k in x.srv.seen && x.srv.seen[k].family in x.entered && !SentNothing(x, k)
         && (Own(x, k) ==> Some(x.srv.seen[k].id) == x.tab.refresh)
       case Replied(reply) => SentNothing(x, k) ==> reply.Refusal?
  }

  predicate SentNothing(x: World, k: nat) {
    x.tab.flight.Asked? && x.tab.flight.k == k && x.tab.flight.used.None?
  }

  ghost predicate RequestsMatch(x: World) {
    && (x.tab.refresh.Some? ==> x.family in x.entered)
    && forall k <- x.net :: RequestOk(x, k)
  }

  /** The row `id` belongs to the tab's family, and it is usable exactly if the session is not spoiled. */
  predicate Tail(x: World, id: Id) {
    && id in x.srv.db.tokens
    && x.srv.db.tokens[id].family == x.family
    && x.spoiled == !Live(x.srv.db.tokens[id])
  }

  /** A success is on its way to the tab. */
  predicate Arriving(x: World) {
    && x.tab.flight.Asked? && x.tab.flight.k in x.net && Own(x, x.tab.flight.k)
    && x.net[x.tab.flight.k].Replied? && x.net[x.tab.flight.k].reply.Success?
  }

  /** The newest token of the session: the one on its way to the tab, or else the one the tab holds. */
  function Newest(x: World): Id
    requires x.tab.refresh.Some?
  {
    if Arriving(x) then x.net[x.tab.flight.k].reply.id else x.tab.refresh.value
  }

  /** The family that a request under way, posted or looked up, is about. */
  function FamilyOf(x: World, k: nat): Option<Id>
    requires k in x.net
  {
    match x.net[k]
    case Posted(token) =>
      if token.Some? && token.value in x.srv.db.tokens then Some(x.srv.db.tokens[token.value].family) else None
    case Working => if k in x.srv.seen then Some(x.srv.seen[k].family) else None
    case Replied(_) => None
  }

  ghost predicate HoldsTail(x: World) {
    x.tab.refresh.Some? ==>
      && x.tab.refresh.value in x.srv.db.tokens
      && x.srv.db.tokens[x.tab.refresh.value].family == x.family
      && Tail(x, Newest(x))
      && (Arriving(x) ==> !Live(x.srv.db.tokens[x.tab.refresh.value]))
  }

  /** The invariant of the session. */
  ghost predicate SessionOk(x: World) {
    C.OneFlight(x.tab) && RequestsMatch(x) && HoldsTail(x)
  }

  ghost predicate Inv(x: World) {
    T.Inv(x.srv) && SessionOk(x)
  }

  lemma StartHasInv(x: World)
    requires Start(x)
    ensures Inv(x)
  {}

  /** What is used of a server step by somebody else: rows keep their origin, refreshers of the tab keep what
      they looked up, and the family is untouched or loses all the rows it had. */
  ghost predicate Drifts(x: World, srv: T.Sys) {
    && T.Inv(srv)
    && (forall id <- x.srv.db.tokens :: id in srv.db.tokens
          && srv.db.tokens[id].family == x.srv.db.tokens[id].family
          && (!Live(x.srv.db.tokens[id]) ==> !Live(srv.db.tokens[id])))
    && (forall k <- x.net :: x.net[k] == Working && k in x.srv.seen ==> k in srv.seen && srv.seen[k] == x.srv.seen[k])
    && (T.Known(x.srv.db.tokens, x.family) && !Untouched(x.srv.db.tokens, srv.db.tokens, x.family) ==>
          AllRevoked(x.srv.db.tokens, srv.db.tokens, x.family))
  }

  lemma RowsPersist(s: T.Sys, e: T.Step)
    ensures forall id <- s.db.tokens :: id in T.Apply(s, e).db.tokens
              && T.Apply(s, e).db.tokens[id].family == s.db.tokens[id].family
              && (!Live(s.db.tokens[id]) ==> !Live(T.Apply(s, e).db.tokens[id]))
  {
    T.StepEvolves(s, e);
  }

  lemma LookupsPersist(s: T.Sys, e: T.Step, k: nat)
    requires k in s.seen && (e.Lookup? || e.Rotate? ==> e.p != k)
    ensures k in T.Apply(s, e).seen && T.Apply(s, e).seen[k] == s.seen[k]
  {}

  lemma OthersDrift(x: World, e: T.Step)
    requires T.Inv(x.srv) && (Names(e, x.net) ==> e.Rotate? && x.net[e.p] != Working)
    ensures Drifts(x, T.Apply(x.srv, e))
  {
    T.StepKeepsInv(x.srv, e);
    RowsPersist(x.srv, e);
    forall k | k in x.net && x.net[k] == Working && k in x.srv.seen
      ensures k in T.Apply(x.srv, e).seen && T.Apply(x.srv, e).seen[k] == x.srv.seen[k]
    {
      LookupsPersist(x.srv, e, k);
    }
    if T.Known(x.srv.db.tokens, x.family) && !Untouched(x.srv.db.tokens, T.Apply(x.srv, e).db.tokens, x.family) {
      FamilyChange(x.srv, e, x.family);
    }
  }

  lemma MeddledKeepsTail(x: World, srv: T.Sys)
    requires HoldsTail(x) && Drifts(x, srv)
    ensures HoldsTail(Meddled(x, srv))
  {
    var before, after := x.srv.db.tokens, srv.db.tokens;
    if x.tab.refresh.Some? {
      var newest := Newest(x);
      assert newest in before && newest in after;
      if Untouched(before, after, x.family) {
        assert after[newest] == before[newest];
      }
    }
  }

  lemma MeddledKeepsRequests(x: World, srv: T.Sys)
    requires RequestsMatch(x) && Drifts(x, srv)
    ensures RequestsMatch(Meddled(x, srv))
  {}

  lemma MeddledKeepsSession(x: World, srv: T.Sys)
    requires SessionOk(x) && Drifts(x, srv)
    ensures SessionOk(Meddled(x, srv))
  {
    MeddledKeepsTail(x, srv);
    MeddledKeepsRequests(x, srv);
  }

  /** What Begin, Reply, Break, Clear, Resume and SignOut can do to the session. */
  lemma LocalStepsKeepSession(s: C.TabState, c: C.Step)
    requires !c.StartTask? && !c.Answered? && !c.Enter?
    ensures var t := C.Apply(s, c);
            && t.began == s.began
            && (t.refresh.None? || (t.refresh == s.refresh && t.epoch == s.epoch))
            && (t.flight.Asked? || s.flight.Asked? ==> t.flight == s.flight)
  {
    match c
    case Reply(id, _) => if id in s.calls {}
    case Resume(id) => if id in s.calls {}
    case _ =>
  }

  lemma LocalKeepsSession(x: World, tab: C.TabState)
    requires SessionOk(x) && C.OneFlight(tab)
    requires tab.began == x.tab.began
    requires tab.refresh.None? || (tab.refresh == x.tab.refresh && tab.epoch == x.tab.epoch)
    requires tab.flight.Asked? || x.tab.flight.Asked? ==> tab.flight == x.tab.flight
    ensures SessionOk(x.(tab := tab))
  {}

  lemma PostKeepsSession(x: World, tab: C.TabState, k: nat)
    requires SessionOk(x) && C.OneFlight(tab) && x.tab.flight == C.Scheduled(k)
    requires tab.flight == C.Asked(k, x.tab.epoch, x.tab.refresh) && tab.refresh == x.tab.refresh
    requires tab.epoch == x.tab.epoch && tab.began.Keys == x.tab.began.Keys + {k}
    ensures SessionOk(x.(tab := tab, net := x.net[k := Posted(x.tab.refresh)]))
  {}

  /** A lookup changes no row and remembers the posted token's. */
  lemma LookUpKeepsSession(x: World, k: nat, srv: T.Sys, id: Id)
    requires SessionOk(x) && k in x.net && x.net[k] == Posted(Some(id)) && id in x.srv.db.tokens
    requires srv.db == x.srv.db
    requires var row := srv.db.tokens[id];
             srv.seen == x.srv.seen[k := T.Seen(id, row.tenant, row.user, row.family)]
    ensures SessionOk(x.(srv := srv, net := x.net[k := Working]))
  {}

  /** A refusal that committed nothing. */
  lemma RefusalKeepsSession(x: World, k: nat, srv: T.Sys, status: nat)
    requires SessionOk(x) && k in x.net && !x.net[k].Replied? && srv.db == x.srv.db
    requires forall j <- x.srv.seen :: j != k ==> j in srv.seen && srv.seen[j] == x.srv.seen[j]
    ensures SessionOk(x.(srv := srv, net := x.net[k := Replied(Refusal(status))]))
  {}

  /** The tab's own rotation, committed and on its way back. */
  lemma OwnSuccessKeepsSession(x: World, k: nat, srv: T.Sys, newId: Id)
    requires SessionOk(x) && Own(x, k) && k in x.net && x.net[k] == Working && k in x.srv.seen
    requires newId in srv.db.tokens && newId !in x.srv.db.tokens
    requires srv.db.tokens[newId].family == x.srv.seen[k].family == x.family && Live(srv.db.tokens[newId])
    requires Live(x.srv.db.tokens[x.tab.refresh.value]) && x.tab.refresh.value in srv.db.tokens
    requires !Live(srv.db.tokens[x.tab.refresh.value])
    requires forall id <- x.srv.db.tokens ::
               id in srv.db.tokens && srv.db.tokens[id].family == x.srv.db.tokens[id].family
    requires srv.seen == x.srv.seen - {k}
    ensures SessionOk(x.(srv := srv, net := x.net[k := Replied(Success(newId))]))
  {
    assert Newest(x) == x.tab.refresh.value;
    assert Newest(x.(srv := srv, net := x.net[k := Replied(Success(newId))])) == newId;
  }

  lemma OwnSuccessKeepsInv(x: World, a: Step)
    requires Inv(x) && a.Serve? && a.k in x.net && x.net[a.k] == Working && Own(x, a.k) && !a.broken
    requires T.VerdictAt(x.srv, T.Rotate(a.k, a.newId, a.expiresAt, a.now)) == Some(Rotated)
    ensures Inv(Apply(x, a))
  {
    var rotate := T.Rotate(a.k, a.newId, a.expiresAt, a.now);
    T.StepKeepsInv(x.srv, rotate);
    OwnSuccessKeepsSession(x, a.k, T.Apply(x.srv, rotate), a.newId);
  }

  /** Answering any other rotation changes nothing about the session yet. */
  lemma AnsweredOtherKeepsSession(x: World, k: nat, reply: Reply)
    requires SessionOk(x) && k in x.net && x.net[k] == Working && (!Own(x, k) || reply.Refusal?)
    ensures SessionOk(x.(net := x.net[k := Replied(reply)]))
  {}

  /** Any other rotation served: to the session it is somebody else's. */
  lemma OtherServeKeepsInv(x: World, a: Step)
    requires Inv(x) && a.Serve? && a.k in x.net && x.net[a.k] == Working
    requires !Own(x, a.k) || !Served(x, a).net[a.k].reply.Success?
    ensures Inv(Apply(x, a))
  {
    var rotate := T.Rotate(a.k, a.newId, a.expiresAt, a.now);
    var x1 := x.(net := Served(x, a).net);
    AnsweredOtherKeepsSession(x, a.k, Served(x, a).net[a.k].reply);
    OthersDrift(x1, rotate);
    MeddledKeepsSession(x1, T.Apply(x.srv, rotate));
    assert Apply(x, a) == Meddled(x1, T.Apply(x.srv, rotate));
  }

  lemma ServeKeepsInv(x: World, a: Step)
    requires Inv(x) && a.Serve?
    ensures Inv(Apply(x, a))
  {
    if a.k in x.net && x.net[a.k] == Working {
      if Own(x, a.k) && Served(x, a).net[a.k].reply.Success? {
        OwnSuccessKeepsInv(x, a);
      } else {
        OtherServeKeepsInv(x, a);
      }
    }
  }

  lemma AnswerKeepsSession(s: C.TabState, answer: C.Answer)
    requires s.flight.Asked?
    ensures var t := C.AfterAnswer(s, answer);
            && t.epoch == s.epoch && t.began == s.began && t.flight.Settled?
            && t.refresh == if answer.Tokens? && s.flight.epoch == s.epoch && s.refresh == s.flight.used
                            then Some(answer.refresh) else s.refresh
  {}

  lemma DeliverKeepsSession(x: World, k: nat, tab: C.TabState)
    requires SessionOk(x) && C.OneFlight(tab)
    requires k in x.net && x.net[k].Replied? && x.tab.flight.Asked? && x.tab.flight.k == k
    requires tab.epoch == x.tab.epoch && tab.began == x.tab.began && tab.flight.Settled?
    requires var renews := x.tab.flight.epoch == x.tab.epoch && x.tab.refresh == x.tab.flight.used;
             tab.refresh == if x.net[k].reply.Success? && renews then Some(x.net[k].reply.id) else x.tab.refresh
    ensures SessionOk(x.(tab := tab, net := x.net - {k}))
  {}

  lemma LoseKeepsSession(x: World, k: nat, tab: C.TabState, spoiled: bool)
    requires SessionOk(x) && C.OneFlight(tab) && x.tab.flight.Asked? && x.tab.flight.k == k
    requires tab.epoch == x.tab.epoch && tab.began == x.tab.began && tab.flight.Settled? && tab.refresh == x.tab.refresh
    requires spoiled == (x.spoiled || Arriving(x))
    ensures SessionOk(x.(tab := tab, spoiled := spoiled))
  {}

  lemma LoginKeepsSession(x: World, tab: C.TabState, id: Id)
    requires SessionOk(x) && C.OneFlight(tab) && id in x.srv.db.tokens
    requires tab.refresh == Some(id) && tab.epoch > x.tab.epoch
    requires tab.began == x.tab.began && tab.flight == x.tab.flight
    ensures var family := x.srv.db.tokens[id].family;
            SessionOk(x.(tab := tab, family := family, spoiled := !Live(x.srv.db.tokens[id]),
                         entered := x.entered + {family}))
  {}

  /** What the tab and the network do, server rows untouched. */
  lemma TabStepKeepsSession(x: World, a: Step)
    requires SessionOk(x) && !a.Serve? && !a.Others?
    ensures SessionOk(Apply(x, a))
  {
    match a
    case Local(c) =>
      if !c.StartTask? && !c.Answered? && !c.Enter? {
        C.StepKeepsFlight(x.tab, c);
        LocalStepsKeepSession(x.tab, c);
        LocalKeepsSession(x, C.Apply(x.tab, c));
      }
    case Post =>
      if x.tab.flight.Scheduled? {
        C.StepKeepsFlight(x.tab, C.StartTask);
        PostKeepsSession(x, C.Apply(x.tab, C.StartTask), x.tab.flight.k);
      }
    case Look(k) => LookKeepsSession(x, k);
    case Fail(k, status) =>
      if k in x.net && !x.net[k].Replied? {
        RefusalKeepsSession(x, k, x.srv.(seen := x.srv.seen - {k}), status);
      }
    case Deliver(k, access) =>
      if k in x.net && x.net[k].Replied? && x.tab.flight.Asked? && x.tab.flight.k == k {
        var answer := AnswerOf(x.net[k].reply, access);
        C.AnswerKeepsFlight(x.tab, answer);
        AnswerKeepsSession(x.tab, answer);
        DeliverKeepsSession(x, k, C.AfterAnswer(x.tab, answer));
      }
    case Lose(k) =>
      if x.tab.flight.Asked? && x.tab.flight.k == k {
        C.AnswerKeepsFlight(x.tab, C.Error(0));
        AnswerKeepsSession(x.tab, C.Error(0));
        LoseKeepsSession(x, k, C.AfterAnswer(x.tab, C.Error(0)), Apply(x, a).spoiled);
      }
    case Login(access, id) =>
      C.StepKeepsFlight(x.tab, C.Enter(access, id));
      if id in x.srv.db.tokens {
        LoginKeepsSession(x, C.Apply(x.tab, C.Enter(access, id)), id);
      }
  }

  lemma LookKeepsSession(x: World, k: nat)
    requires SessionOk(x)
    ensures SessionOk(Apply(x, Look(k)))
  {
    if k in x.net && x.net[k].Posted? {
      var token := x.net[k].token;
      if token.Some? && token.value in x.srv.db.tokens {
        LookUpKeepsSession(x, k, T.Apply(x.srv, T.Lookup(k, token.value)), token.value);
      } else {
        RefusalKeepsSession(x, k, x.srv, 401);
      }
    }
  }

  lemma TabStepKeepsServer(x: World, a: Step)
    requires T.Inv(x.srv) && !a.Serve? && !a.Others?
    ensures T.Inv(Apply(x, a).srv)
  {
    if a.Look? && a.k in x.net && x.net[a.k].Posted? && x.net[a.k].token.Some? {
      T.StepKeepsInv(x.srv, T.Lookup(a.k, x.net[a.k].token.value));
    }
  }

  lemma StepKeepsInv(x: World, a: Step)
    requires Inv(x)
    ensures Inv(Apply(x, a))
  {
    match a
    case Serve(_, _, _, _, _) => ServeKeepsInv(x, a);
    case Others(e) =>
      if !Names(e, x.net) {
        OthersDrift(x, e);
        MeddledKeepsSession(x, T.Apply(x.srv, e));
      }
    case _ =>
      TabStepKeepsSession(x, a);
      TabStepKeepsServer(x, a);
  }

  lemma {:induction false} RunKeepsInv(x: World, steps: seq<Step>)
    requires Start(x)
    ensures Inv(Run(x, steps))
  {
    if steps == [] {
      StartHasInv(x);
    } else {
      RunKeepsInv(x, steps[..|steps| - 1]);
      StepKeepsInv(Run(x, steps[..|steps| - 1]), steps[|steps| - 1]);
    }
  }

  // ---- when the server takes its reuse branch for the tab's own refresh ----

  /** For a refresh of the current session the server detects reuse exactly if the session is spoiled and the
      subject is still active. An unspoiled one is refused with 401, the answer that signs the tab out, only
      for an expired token. */
  lemma {:induction false} ReuseMeansSpoiled(x: World, steps: seq<Step>, a: Step)
    requires Start(x) && a.Serve?
    requires var w := Run(x, steps); a.k in w.net && w.net[a.k] == Working && Own(w, a.k)
    ensures var w := Run(x, steps);
            a.k in w.srv.seen &&
            var who := w.srv.seen[a.k];
            var v := T.VerdictAt(w.srv, T.Rotate(a.k, a.newId, a.expiresAt, a.now)).value;
            && (v == Reused <==> w.spoiled && StandingOf(w.srv.db, who.tenant, who.user) == Active)
            && (!w.spoiled && v != Rotated && StatusOf(v) == 401 ==> v == Expired)
  {
    var w := Run(x, steps);
    RunKeepsInv(x, steps);
    var id := w.srv.seen[a.k].id;
    assert Newest(w) == id;
    var chain := T.ChainOf(w.srv.db.tokens, id);
  }

  lemma LiveMeansUnspent(s: T.Sys, id: Id)
    requires T.Inv(s) && id in s.db.tokens
    ensures Live(s.db.tokens[id]) <==> !Spent(s.db.tokens[id])
  {
    var chain := T.ChainOf(s.db.tokens, id);
  }

  /** What the server answers to the tab's own refresh in an unspoiled session, told from the rows. */
  lemma OwnAnswer(x: World, a: Step)
    requires Inv(x) && a.Serve? && !a.broken && a.k in x.net && x.net[a.k] == Working && Own(x, a.k) && !x.spoiled
    ensures x.tab.refresh.value in x.srv.db.tokens && Apply(x, a).tab == x.tab && a.k in Apply(x, a).net
    ensures var row := x.srv.db.tokens[x.tab.refresh.value];
            if a.now < row.expiresAt && MayAct(x.srv.db, row.tenant, row.user) && a.newId !in x.srv.db.tokens
            then Apply(x, a).net[a.k] == Replied(Success(a.newId))
            else Apply(x, a).net[a.k] == Replied(Refusal(if !MayAct(x.srv.db, row.tenant, row.user) then 403
                                                         else if row.expiresAt <= a.now then 401 else 500))
  {
    assert RequestOk(x, a.k);
    var id := x.srv.seen[a.k].id;
    assert Newest(x) == id;
    LiveMeansUnspent(x.srv, id);
  }

  /** The tab then holds the new tokens as soon as the answer is delivered. */
  lemma DeliveredSuccess(x: World, k: nat, id: Id, access: Id)
    requires Own(x, k) && k in x.net && x.net[k] == Replied(Success(id))
    ensures var tab := Apply(x, Deliver(k, access)).tab;
            tab.refresh == Some(id) && tab.access == Some(access) && tab.epoch == x.tab.epoch
  {}

  /** In every run: the tab's own refresh in an unspoiled session, answered as the server decided, succeeds exactly if
      the expiry of the token it holds has not come, its subject's rows are active and the new id is unused; the
      answer then brings the tab the new tokens. It is refused with 401, which signs the tab out, exactly for an
      expired token of an active subject. */
  lemma {:induction false} OwnRefreshSucceedsExactly(x: World, steps: seq<Step>, a: Step, access: Id)
    requires Start(x) && a.Serve? && !a.broken
    requires var w := Run(x, steps); a.k in w.net && w.net[a.k] == Working && Own(w, a.k) && !w.spoiled
    ensures var w := Run(x, steps);
            var v := Apply(w, a);
            && w.tab.refresh.value in w.srv.db.tokens && a.k in v.net && v.net[a.k].Replied?
            && var row := w.srv.db.tokens[w.tab.refresh.value];
               && (v.net[a.k].reply.Success? <==>
                     a.now < row.expiresAt && MayAct(w.srv.db, row.tenant, row.user) && a.newId !in w.srv.db.tokens)
               && (v.net[a.k].reply == Refusal(401) <==>
                     row.expiresAt <= a.now && MayAct(w.srv.db, row.tenant, row.user))
               && (v.net[a.k].reply == Refusal(403) <==> !MayAct(w.srv.db, row.tenant, row.user))
               && (v.net[a.k].reply.Success? ==>
                     var tab := Apply(v, Deliver(a.k, access)).tab;
                     tab.refresh == Some(a.newId) && tab.access == Some(access) && tab.epoch == w.tab.epoch)
  {
    var w := Run(x, steps);
    RunKeepsInv(x, steps);
    OwnAnswer(w, a);
    if Apply(w, a).net[a.k].reply.Success? {
      DeliveredSuccess(Apply(w, a), a.k, a.newId, access);
    }
  }

  /** The steps that spoil nothing: while the tab is signed in it receives the answers to the refreshes it
      sent, a refresh answered with an error committed nothing, nobody else changes rows of its family, and a
      login hands it a live token. */
  predicate Benign(x: World, a: Step) {
    match a
    case Lose(k) => !Own(x, k)
    case Serve(k, _, _, _, broken) => Own(x, k) ==> !broken
    case Others(_) =>
      x.tab.refresh.Some? ==> Untouched(x.srv.db.tokens, Apply(x, a).srv.db.tokens, x.family)
    case Login(_, id) => id in x.srv.db.tokens && Live(x.srv.db.tokens[id])
    case _ => true
  }

  /** The session is not spoiled, and no request under way but the tab's current rotation is about its family:
      rotations left over from earlier sessions are about theirs. */
  predicate Unspoiled(x: World) {
    x.tab.refresh.Some? ==>
      && !x.spoiled
      && forall k <- x.net :: Own(x, k) || FamilyOf(x, k) != Some(x.family)
  }

  lemma LocalSpoilsNothing(x: World, c: C.Step)
    requires Unspoiled(x)
    ensures Unspoiled(Apply(x, Local(c)))
  {
    if !c.StartTask? && !c.Answered? && !c.Enter? {
      LocalStepsKeepSession(x.tab, c);
    }
  }

  lemma PostSpoilsNothing(x: World)
    requires Unspoiled(x)
    ensures Unspoiled(Apply(x, Post))
  {}

  lemma LookSpoilsNothing(x: World, k: nat)
    requires Unspoiled(x)
    ensures Unspoiled(Apply(x, Look(k)))
  {}

  /** A rotation of another family leaves this one alone, whatever its outcome. */
  lemma OtherFamilyUntouched(s: T.Sys, a: T.Step, family: Id)
    requires T.Inv(s) && T.VerdictAt(s, a).Some? && s.seen[a.p].family != family
    ensures Untouched(s.db.tokens, T.Apply(s, a).db.tokens, family)
  {
    if T.VerdictAt(s, a) == Some(Rotated) && !Untouched(s.db.tokens, T.Apply(s, a).db.tokens, family) {
      RotationChange(s, a, family);
    }
  }

  /** The tab's own rotation of an unspoiled session is never refused as reuse. */
  lemma OwnIsNotReused(x: World, a: T.Step)
    requires Inv(x) && Unspoiled(x) && a.Rotate? && a.p in x.net && x.net[a.p] == Working && Own(x, a.p)
    ensures T.VerdictAt(x.srv, a).Some? && T.VerdictAt(x.srv, a) != Some(Reused)
  {
    assert RequestOk(x, a.p);
    assert Newest(x) == x.srv.seen[a.p].id;
    LiveMeansUnspent(x.srv, x.srv.seen[a.p].id);
  }

  /** So it changes rows only by succeeding. */
  lemma OwnServeSpoilsNothing(x: World, a: Step)
    requires Inv(x) && Unspoiled(x) && a.Serve? && a.k in x.net && x.net[a.k] == Working && Own(x, a.k) && !a.broken
    ensures Unspoiled(Apply(x, a))
  {
    OwnIsNotReused(x, T.Rotate(a.k, a.newId, a.expiresAt, a.now));
  }

  lemma StaleServeSpoilsNothing(x: World, a: Step)
    requires Inv(x) && Unspoiled(x) && a.Serve? && a.k in x.net && x.net[a.k] == Working && !Own(x, a.k)
    ensures Unspoiled(Apply(x, a))
  {
    if x.tab.refresh.Some? {
      OtherFamilyUntouched(x.srv, T.Rotate(a.k, a.newId, a.expiresAt, a.now), x.family);
    }
  }

  lemma DeliverSpoilsNothing(x: World, k: nat, access: Id)
    requires Inv(x) && Unspoiled(x)
    ensures Unspoiled(Apply(x, Deliver(k, access)))
  {
    if k in x.net && x.net[k].Replied? && x.tab.flight.Asked? {
      AnswerKeepsSession(x.tab, AnswerOf(x.net[k].reply, access));
    }
  }

  lemma LoseSpoilsNothing(x: World, k: nat)
    requires Unspoiled(x) && !Own(x, k)
    ensures Unspoiled(Apply(x, Lose(k)))
  {
    if x.tab.flight.Asked? {
      AnswerKeepsSession(x.tab, C.Error(0));
    }
  }

  lemma LoginSpoilsNothing(x: World, access: Id, id: Id)
    requires Inv(x) && Unspoiled(x) && id in x.srv.db.tokens && Live(x.srv.db.tokens[id])
    ensures Unspoiled(Apply(x, Login(access, id)))
  {}

  lemma OthersSpoilNothing(x: World, e: T.Step)
    requires Inv(x) && Unspoiled(x) && Benign(x, Others(e))
    ensures Unspoiled(Apply(x, Others(e)))
  {
    if !Names(e, x.net) {
      OthersDrift(x, e);
      OthersKeepFamilies(x, T.Apply(x.srv, e));
    }
  }

  lemma OthersKeepFamilies(x: World, srv: T.Sys)
    requires RequestsMatch(x) && Drifts(x, srv)
    ensures forall k <- x.net :: FamilyOf(Meddled(x, srv), k) == FamilyOf(x, k)
  {}

  lemma BenignStepSpoilsNothing(x: World, a: Step)
    requires Inv(x) && Benign(x, a) && Unspoiled(x)
    ensures Unspoiled(Apply(x, a))
  {
    match a
    case Local(c) => LocalSpoilsNothing(x, c);
    case Post => PostSpoilsNothing(x);
    case Look(k) => LookSpoilsNothing(x, k);
    case Serve(k, _, _, _, _) =>
      if k in x.net && x.net[k] == Working {
        if Own(x, k) { OwnServeSpoilsNothing(x, a); } else { StaleServeSpoilsNothing(x, a); }
      }
    case Fail(_, _) =>
    case Deliver(k, access) => DeliverSpoilsNothing(x, k, access);
    case Lose(k) => LoseSpoilsNothing(x, k);
    case Login(access, id) => LoginSpoilsNothing(x, access, id);
    case Others(e) => OthersSpoilNothing(x, e);
  }

  lemma {:induction false} BenignRunSpoilsNothing(x: World, steps: seq<Step>)
    requires Start(x) && Unspoiled(x)
    requires forall i :: 0 <= i < |steps| ==> Benign(Run(x, steps[..i]), steps[i])
    ensures Unspoiled(Run(x, steps))
  {
    if steps != [] {
      var prefix := steps[..|steps| - 1];
      forall i | 0 <= i < |prefix| ensures Benign(Run(x, prefix[..i]), prefix[i]) {
        assert prefix[..i] == steps[..i];
      }
      BenignRunSpoilsNothing(x, prefix);
      RunKeepsInv(x, prefix);
      BenignStepSpoilsNothing(Run(x, prefix), steps[|steps| - 1]);
    }
  }

  /** After any benign run, however its requests and 401s interleave, the server does not detect reuse in a
      refresh of the current session, and refuses one with 401 only if the token has expired. The tab's family
      keeps a live token, and the tab holds it or is about to receive it. */
  lemma {:induction false} TabNeverKillsItsOwnFamily(x: World, steps: seq<Step>, a: Step)
    requires Start(x) && Unspoiled(x)
    requires forall i :: 0 <= i < |steps| ==> Benign(Run(x, steps[..i]), steps[i])
    ensures var w := Run(x, steps);
            w.tab.refresh.Some? ==>
              && Newest(w) in w.srv.db.tokens && Live(w.srv.db.tokens[Newest(w)])
              && w.srv.db.tokens[Newest(w)].family == w.family
              && T.FamilyLive(w.srv.db.tokens, w.family)
    ensures var w := Run(x, steps);
            a.Serve? && a.k in w.net && w.net[a.k] == Working && Own(w, a.k) ==>
              var v := T.VerdictAt(w.srv, T.Rotate(a.k, a.newId, a.expiresAt, a.now));
              v.Some? && v != Some(Reused) && (v != Some(Rotated) && StatusOf(v.value) == 401 ==> v == Some(Expired))
  {
    var w := Run(x, steps);
    RunKeepsInv(x, steps);
    BenignRunSpoilsNothing(x, steps);
    if a.Serve? && a.k in w.net && w.net[a.k] == Working && Own(w, a.k) {
      ReuseMeansSpoiled(x, steps, a);
    }
  }
}
