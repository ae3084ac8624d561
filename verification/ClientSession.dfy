/** The browser client's session protocol (the AUTH_REQUEST region of app.js, with enter, signOut and
    session.load).

    JavaScript runs one handler at a time, so a step is one uninterrupted stretch between awaits: a call
    is begun, its response arrives, the single-flight rotation task starts, its answer arrives, the
    flight is cleared, a waiting call resumes. `TabState` is the state between steps and `Apply` what a
    step does to it; class `Tab` is the same protocol over mutable variables. */
module ClientSession {
  import opened Wrappers

  type Id = nat

  datatype Outcome = Renewed | Failed(status: nat) | Superseded

  /** inFlight: nothing, a promise whose task has not started yet, a task awaiting its answer (with the
      epoch and refresh token it captured), or a finished task whose `finally` has not run yet. */
  datatype Flight =
    | Idle
    | Scheduled(k: nat)
    | Asked(k: nat, epoch: nat, used: Option<Id>)
    | Settled(k: nat, epoch: nat, outcome: Outcome)

  /** `joined` records the epoch of the rotation a call joined if its task was already under way. */
  datatype Phase = InFlight | Waiting(refreshUsed: Id, k: nat, joined: Option<nat>) | Done

  /** `begun` is requestEpoch; `sends` lists the access token of each time the request went out. */
  datatype Call = Call(begun: nat, sends: seq<Option<Id>>, phase: Phase)

  datatype Answer = Tokens(access: Id, refresh: Id) | Error(status: nat)

  /** `installed` (which access tokens each epoch had) and `began` (the epoch each rotation's task started in
      and the refresh token it sent) are history; no step reads them. */
  datatype TabState = TabState(access: Option<Id>, refresh: Option<Id>, epoch: nat, signedOut: bool,
                               flight: Flight, next: nat, outcomes: map<nat, Outcome>, calls: map<Id, Call>,
                               installed: set<(nat, Id)>, began: map<nat, (nat, Option<Id>)>)

  datatype Step =
    | Begin(c: Id)
    | Reply(c: Id, unauthorized: bool)
    | Break(c: Id)
    | StartTask
    | Answered(answer: Answer)
    | Clear
    | Resume(c: Id)
    | Enter(access: Id, refresh: Id)
    | SignOut

  function Loaded(access: Option<Id>, refresh: Option<Id>): TabState {
    TabState(access, refresh, 1, false, Idle, 0, map[], map[],
             if access.Some? then {(1, access.value)} else {}, map[])
  }

  function SignedOff(s: TabState): TabState {
    if s.signedOut then s else s.(signedOut := true, epoch := s.epoch + 1, access := None, refresh := None)
  }

  function Finished(s: TabState, c: Id): TabState
    requires c in s.calls
  {
    s.(calls := s.calls[c := s.calls[c].(phase := Done)])
  }

  function Resent(s: TabState, c: Id): TabState
    requires c in s.calls
  {
    s.(calls := s.calls[c := s.calls[c].(sends := s.calls[c].sends + [s.access], phase := InFlight)])
  }

  function Retried(c: Call): bool {
    |c.sends| > 1
  }

  /** run(): join the flight, creating it first if there is none. */
  function Joined(s: TabState, c: Id): TabState
    requires c in s.calls && s.refresh.Some?
  {
    var k := if s.flight.Idle? then s.next else s.flight.k;
    var running := match s.flight
                   case Asked(_, epoch, _) => Some(epoch)
                   case Settled(_, epoch, _) => Some(epoch)
                   case _ => None;
    s.(flight := if s.flight.Idle? then Scheduled(k) else s.flight,
       next := if s.flight.Idle? then s.next + 1 else s.next,
       calls := s.calls[c := s.calls[c].(phase := Waiting(s.refresh.value, k, running))])
  }

  function AfterReply(s: TabState, c: Id, unauthorized: bool): TabState
    requires c in s.calls
  {
    var call := s.calls[c];
    if !call.phase.InFlight? || call.sends == [] then s
    else if call.begun != s.epoch then Finished(s, c)
    else if unauthorized && !Retried(call) && s.refresh.Some? then
      var used := call.sends[|call.sends| - 1];
      if used.Some? && used != s.access then Resent(s, c) else Joined(s, c)
    else if unauthorized then Finished(SignedOff(s), c)
    else Finished(s, c)
  }

  function AfterResume(s: TabState, c: Id): TabState
    requires c in s.calls
  {
    var call := s.calls[c];
    if !call.phase.Waiting? || call.phase.k !in s.outcomes then s
    else match s.outcomes[call.phase.k]
      case Renewed => if call.begun != s.epoch then Finished(s, c) else Resent(s, c)
      case Failed(status) =>
        if call.begun != s.epoch || s.refresh != Some(call.phase.refreshUsed) then Finished(s, c)
        else if status == 401 then Finished(SignedOff(s), c)
        else Finished(s, c)
      case Superseded => Finished(s, c)
  }

  function AfterAnswer(s: TabState, answer: Answer): TabState {
    if !s.flight.Asked? then s
    else match answer
      case Tokens(access, refresh) =>
        if s.flight.epoch != s.epoch || s.refresh != s.flight.used
        then s.(flight := Settled(s.flight.k, s.flight.epoch, Superseded))
        else s.(flight := Settled(s.flight.k, s.flight.epoch, Renewed),
                access := Some(access), refresh := Some(refresh),
                installed := s.installed + {(s.epoch, access)})
      case Error(status) => s.(flight := Settled(s.flight.k, s.flight.epoch, Failed(status)))
  }

  function Apply(s: TabState, a: Step): TabState {
    match a
    case Begin(c) => if c in s.calls then s else s.(calls := s.calls[c := Call(s.epoch, [s.access], InFlight)])
    case Reply(c, unauthorized) => if c in s.calls then AfterReply(s, c, unauthorized) else s
    case Break(c) => if c in s.calls && s.calls[c].phase.InFlight? then Finished(s, c) else s
    case StartTask =>
      if s.flight.Scheduled?
      then s.(flight := Asked(s.flight.k, s.epoch, s.refresh), began := s.began[s.flight.k := (s.epoch, s.refresh)])
      else s
    case Answered(answer) => AfterAnswer(s, answer)
    case Clear =>
      if s.flight.Settled? then s.(flight := Idle, outcomes := s.outcomes[s.flight.k := s.flight.outcome]) else s
    case Resume(c) => if c in s.calls then AfterResume(s, c) else s
    case Enter(access, refresh) =>
      s.(epoch := s.epoch + 1, signedOut := false, access := Some(access), refresh := Some(refresh),
         installed := s.installed + {(s.epoch + 1, access)})
    case SignOut => SignedOff(s)
  }

  function Run(s: TabState, steps: seq<Step>): TabState {
    if steps == [] then s else Apply(Run(s, steps[..|steps| - 1]), steps[|steps| - 1])
  }

  // ---- the protocol over mutable variables ----

  class Tab {
    var access: Option<Id>
    var refresh: Option<Id>
    var epoch: nat
    var signedOut: bool
    var flight: Flight
    var next: nat
    var outcomes: map<nat, Outcome>
    var calls: map<Id, Call>
    ghost var installed: set<(nat, Id)>
    ghost var began: map<nat, (nat, Option<Id>)>

    ghost function State(): TabState
      reads this
    {
      TabState(access, refresh, epoch, signedOut, flight, next, outcomes, calls, installed, began)
    }

    constructor Load(a: Option<Id>, r: Option<Id>)
      ensures State() == Loaded(a, r)
    {
      access, refresh, epoch, signedOut := a, r, 1, false;
      flight, next, outcomes, calls := Idle, 0, map[], map[];
      installed := if a.Some? then {(1, a.value)} else {};
      began := map[];
    }

    method BeginCall(c: Id)
      requires c !in calls
      modifies this`calls
      ensures State() == Apply(old(State()), Begin(c))
    {
      calls := calls[c := Call(epoch, [access], InFlight)];
    }

    method LeaveSession()
      modifies this`signedOut, this`epoch, this`access, this`refresh
      ensures State() == SignedOff(old(State()))
    {
      if signedOut { return; }
      signedOut := true;
      epoch := epoch + 1;
      access, refresh := None, None;
    }

    method EnterSession(a: Id, r: Id)
      modifies this`signedOut, this`epoch, this`access, this`refresh, this`installed
      ensures State() == Apply(old(State()), Enter(a, r))
    {
      epoch := epoch + 1;
      signedOut := false;
      access := Some(a);
      refresh := Some(r);
      installed := installed + {(epoch, a)};
    }

    method Settle(c: Id)
      requires c in calls
      modifies this`calls
      ensures State() == Finished(old(State()), c)
    {
      calls := calls[c := calls[c].(phase := Done)];
    }

    /** call(..., true, requestEpoch): the one retry goes out with the token of the moment. */
    method Resend(c: Id)
      requires c in calls
      modifies this`calls
      ensures State() == Resent(old(State()), c)
    {
      calls := calls[c := calls[c].(sends := calls[c].sends + [access], phase := InFlight)];
    }

    /** The continuation of `await fetch(...)` in call(). */
    method Response(c: Id, unauthorized: bool)
      requires c in calls && calls[c].phase.InFlight? && calls[c].sends != []
      modifies this
      ensures State() == Apply(old(State()), Reply(c, unauthorized))
    {
      var call := calls[c];
      if call.begun != epoch {
        Settle(c);
        return;
      }
      var accessUsed := call.sends[|call.sends| - 1];
      if unauthorized && !Retried(call) && refresh.Some? {
        if accessUsed.Some? && accessUsed != access {
          Resend(c);
          return;
        }
        Join(c);
        return;
      }
      if unauthorized {
        LeaveSession();
      }
      Settle(c);
    }

    /** `await rotate()`: the single flight is created only if there is none. */
    method Join(c: Id)
      requires c in calls && refresh.Some?
      modifies this`flight, this`next, this`calls
      ensures State() == Joined(old(State()), c)
    {
      var running := None;
      if flight.Asked? || flight.Settled? {
        running := Some(flight.epoch);
      }
      if flight.Idle? {
        flight := Scheduled(next);
        next := next + 1;
      }
      calls := calls[c := calls[c].(phase := Waiting(refresh.value, flight.k, running))];
    }

    /** The task captures the epoch and the refresh token it will send. */
    method StartRotation()
      requires flight.Scheduled?
      modifies this`flight, this`began
      ensures State() == Apply(old(State()), StartTask)
    {
      began := began[flight.k := (epoch, refresh)];
      flight := Asked(flight.k, epoch, refresh);
    }

    method RotationAnswered(answer: Answer)
      requires flight.Asked?
      modifies this`flight, this`access, this`refresh, this`installed
      ensures State() == Apply(old(State()), Answered(answer))
    {
      if answer.Error? {
        flight := Settled(flight.k, flight.epoch, Failed(answer.status));
      } else if flight.epoch != epoch || refresh != flight.used {
        flight := Settled(flight.k, flight.epoch, Superseded);
      } else {
        access := Some(answer.access);
        refresh := Some(answer.refresh);
        installed := installed + {(epoch, answer.access)};
        flight := Settled(flight.k, flight.epoch, Renewed);
      }
    }

    method ClearFlight()
      requires flight.Settled?
      modifies this`flight, this`outcomes
      ensures State() == Apply(old(State()), Clear)
    {
      outcomes := outcomes[flight.k := flight.outcome];
      flight := Idle;
    }

    /** The continuation of `await rotate()` in call(). */
    method ResumeCall(c: Id)
      requires c in calls && calls[c].phase.Waiting? && calls[c].phase.k in outcomes
      modifies this
      ensures State() == Apply(old(State()), Resume(c))
    {
      var call := calls[c];
      var outcome := outcomes[call.phase.k];
      if outcome.Renewed? {
        if call.begun == epoch {
          Resend(c);
          return;
        }
      } else if outcome.Failed? && call.begun == epoch && refresh == Some(call.phase.refreshUsed) {
        if outcome.status == 401 {
          LeaveSession();
        }
      }
      Settle(c);
    }
  }

  // ---- what every reachable state satisfies ----

  /** A send carries a token that the call's own epoch installed, and a call goes out at most twice. */
  ghost predicate SendsHome(call: Call, installed: set<(nat, Id)>, epoch: nat) {
    && call.begun <= epoch
    && 1 <= |call.sends| <= 2
    && (call.phase.Waiting? ==> |call.sends| == 1)
    && forall i :: 0 <= i < |call.sends| && call.sends[i].Some? ==> (call.begun, call.sends[i].value) in installed
  }

  ghost predicate Held(s: TabState) {
    s.access.Some? ==> (s.epoch, s.access.value) in s.installed
  }

  /** The flight is the one rotation that has begun and not ended. While it is under way in the current
      epoch, or has failed there, the refresh token it sent is still the one held. */
  ghost predicate OneFlight(s: TabState) {
    && (forall k <- s.outcomes :: k in s.began)
    && (forall k <- s.began :: s.began[k].0 <= s.epoch && k < s.next)
    && (forall k <- s.began :: k !in s.outcomes ==> (s.flight.Asked? || s.flight.Settled?) && s.flight.k == k)
    && match s.flight
       case Idle => true
       case Scheduled(k) => k < s.next && k !in s.began
       case Asked(k, epoch, used) =>
         && k in s.began && s.began[k] == (epoch, used) && k !in s.outcomes
         && (epoch == s.epoch ==> used == s.refresh)
       case Settled(k, epoch, outcome) =>
         && k in s.began && s.began[k].0 == epoch && k !in s.outcomes
         && (epoch == s.epoch && outcome.Failed? ==> s.began[k].1 == s.refresh)
  }

  /** Rotation k is under way, or it failed. */
  ghost predicate NotRenewed(s: TabState, k: nat) {
    || (s.flight.Asked? && s.flight.k == k)
    || (s.flight.Settled? && s.flight.k == k && s.flight.outcome.Failed?)
    || (k in s.outcomes && s.outcomes[k].Failed?)
  }

  /** A waiting call and the rotation it waits for: which epoch that began in and what it sent. */
  ghost predicate WaitsWell(s: TabState, call: Call) {
    call.phase.Waiting? ==>
      var Waiting(r, k, joined) := call.phase;
      && k < s.next
      && (k !in s.began ==>
            s.flight == Scheduled(k) && joined.None? && (call.begun == s.epoch ==> s.refresh == Some(r)))
      && (k in s.began && joined.None? ==>
            call.begun <= s.began[k].0 && (s.began[k].0 == call.begun ==> s.began[k].1 == Some(r)))
      && (k in s.began && joined.Some? ==>
            && s.began[k].0 == joined.value
            && (joined.value == call.begun && NotRenewed(s, k) ==> s.began[k].1 == Some(r)))
  }

  ghost predicate CallOk(s: TabState, call: Call) {
    SendsHome(call, s.installed, s.epoch) && WaitsWell(s, call)
  }

  ghost predicate Inv(s: TabState) {
    Held(s) && OneFlight(s) && forall c <- s.calls :: CallOk(s, s.calls[c])
  }

  // the flight alone, whatever the calls do

  lemma CallsDoNotMatter(s: TabState, calls: map<Id, Call>)
    requires OneFlight(s)
    ensures OneFlight(s.(calls := calls))
  {}

  lemma JoinedKeepsFlight(s: TabState, c: Id)
    requires OneFlight(s) && c in s.calls && s.refresh.Some?
    ensures OneFlight(Joined(s, c))
  {}

  lemma SignedOffKeepsFlight(s: TabState)
    requires OneFlight(s)
    ensures OneFlight(SignedOff(s))
  {}

  lemma AnswerKeepsFlight(s: TabState, answer: Answer)
    requires OneFlight(s)
    ensures OneFlight(AfterAnswer(s, answer))
  {}

  lemma ReplyKeepsFlight(s: TabState, c: Id, unauthorized: bool)
    requires OneFlight(s) && c in s.calls
    ensures OneFlight(AfterReply(s, c, unauthorized))
  {
    var t := AfterReply(s, c, unauthorized);
    SignedOffKeepsFlight(s);
    if t == s.(calls := t.calls) {
      CallsDoNotMatter(s, t.calls);
    } else if t == SignedOff(s).(calls := t.calls) {
      CallsDoNotMatter(SignedOff(s), t.calls);
    } else {
      JoinedKeepsFlight(s, c);
    }
  }

  lemma ResumeKeepsFlight(s: TabState, c: Id)
    requires OneFlight(s) && c in s.calls
    ensures OneFlight(AfterResume(s, c))
  {
    var t := AfterResume(s, c);
    SignedOffKeepsFlight(s);
    if t == s.(calls := t.calls) {
      CallsDoNotMatter(s, t.calls);
    } else {
      CallsDoNotMatter(SignedOff(s), t.calls);
    }
  }

  lemma StepKeepsFlight(s: TabState, a: Step)
    requires OneFlight(s)
    ensures OneFlight(Apply(s, a))
  {
    match a
    case Reply(c, unauthorized) => if c in s.calls { ReplyKeepsFlight(s, c, unauthorized); }
    case Resume(c) => if c in s.calls { ResumeKeepsFlight(s, c); }
    case Answered(answer) => AnswerKeepsFlight(s, answer);
    case SignOut => SignedOffKeepsFlight(s);
    case _ =>
  }

  // the whole invariant

  lemma FinishedKeepsInv(s: TabState, c: Id)
    requires Inv(s) && c in s.calls
    ensures Inv(Finished(s, c))
  {
    var t := Finished(s, c);
    assert CallOk(s, s.calls[c]);
    forall d | d in t.calls ensures CallOk(t, t.calls[d]) {
      assert CallOk(s, s.calls[d]);
    }
  }

  lemma ResentKeepsInv(s: TabState, c: Id)
    requires Inv(s) && c in s.calls && s.calls[c].begun == s.epoch && |s.calls[c].sends| == 1
    ensures Inv(Resent(s, c))
  {
    var t := Resent(s, c);
    assert CallOk(s, s.calls[c]);
    forall d | d in t.calls ensures CallOk(t, t.calls[d]) {
      assert CallOk(s, s.calls[d]);
    }
  }

  lemma JoinedKeepsInv(s: TabState, c: Id)
    requires Inv(s) && c in s.calls && s.calls[c].begun == s.epoch && |s.calls[c].sends| == 1 && s.refresh.Some?
    ensures Inv(Joined(s, c))
  {
    var t := Joined(s, c);
    assert CallOk(s, s.calls[c]);
    forall d | d in t.calls ensures CallOk(t, t.calls[d]) {
      assert CallOk(s, s.calls[d]);
    }
  }

  lemma SignedOffKeepsInv(s: TabState)
    requires Inv(s)
    ensures Inv(SignedOff(s))
  {
    var t := SignedOff(s);
    forall d | d in t.calls ensures CallOk(t, t.calls[d]) {
      assert CallOk(s, s.calls[d]);
    }
  }

  lemma SessionKeepsInv(s: TabState, a: Step)
    requires Inv(s) && (a.Begin? || a.Enter?)
    ensures Inv(Apply(s, a))
  {
    var t := Apply(s, a);
    forall d | d in t.calls ensures CallOk(t, t.calls[d]) {
      if d in s.calls {
        assert CallOk(s, s.calls[d]);
      }
    }
  }

  lemma StartKeepsInv(s: TabState)
    requires Inv(s)
    ensures Inv(Apply(s, StartTask))
  {
    var t := Apply(s, StartTask);
    forall d | d in t.calls ensures CallOk(t, t.calls[d]) {
      assert CallOk(s, s.calls[d]);
    }
  }

  lemma RenewalKeepsInv(s: TabState, access: Id, refresh: Id)
    requires Inv(s) && s.flight.Asked? && s.flight.epoch == s.epoch && s.refresh == s.flight.used
    ensures Inv(AfterAnswer(s, Tokens(access, refresh)))
  {
    var t := AfterAnswer(s, Tokens(access, refresh));
    forall d | d in t.calls ensures CallOk(t, t.calls[d]) {
      assert CallOk(s, s.calls[d]);
      assert SendsHome(t.calls[d], t.installed, t.epoch);
    }
  }

  lemma AnswerKeepsInv(s: TabState, answer: Answer)
    requires Inv(s)
    ensures Inv(AfterAnswer(s, answer))
  {
    if answer.Tokens? && s.flight.Asked? && s.flight.epoch == s.epoch && s.refresh == s.flight.used {
      RenewalKeepsInv(s, answer.access, answer.refresh);
    } else {
      var t := AfterAnswer(s, answer);
      forall d | d in t.calls ensures CallOk(t, t.calls[d]) {
        assert CallOk(s, s.calls[d]);
      }
    }
  }

  lemma ClearKeepsInv(s: TabState)
    requires Inv(s)
    ensures Inv(Apply(s, Clear))
  {
    var t := Apply(s, Clear);
    forall d | d in t.calls ensures CallOk(t, t.calls[d]) {
      assert CallOk(s, s.calls[d]);
    }
  }

  lemma StepKeepsInv(s: TabState, a: Step)
    requires Inv(s)
    ensures Inv(Apply(s, a))
  {
    match a
    case Begin(_) => SessionKeepsInv(s, a);
    case Enter(_, _) => SessionKeepsInv(s, a);
    case SignOut => SignedOffKeepsInv(s);
    case Break(c) => if c in s.calls { FinishedKeepsInv(s, c); }
    case StartTask => StartKeepsInv(s);
    case Answered(answer) => AnswerKeepsInv(s, answer);
    case Clear => ClearKeepsInv(s);
    case Reply(c, unauthorized) => ReplyKeepsInv(s, c, unauthorized);
    case Resume(c) => ResumeKeepsInv(s, c);
  }

  lemma ReplyKeepsInv(s: TabState, c: Id, unauthorized: bool)
    requires Inv(s)
    ensures Inv(Apply(s, Reply(c, unauthorized)))
  {
    if c in s.calls {
      var call := s.calls[c];
      assert CallOk(s, call);
      FinishedKeepsInv(s, c);
      SignedOffKeepsInv(s);
      FinishedKeepsInv(SignedOff(s), c);
      if call.begun == s.epoch && |call.sends| == 1 {
        ResentKeepsInv(s, c);
        if s.refresh.Some? {
          JoinedKeepsInv(s, c);
        }
      }
    }
  }

  lemma ResumeKeepsInv(s: TabState, c: Id)
    requires Inv(s)
    ensures Inv(Apply(s, Resume(c)))
  {
    if c in s.calls {
      var call := s.calls[c];
      assert CallOk(s, call);
      FinishedKeepsInv(s, c);
      SignedOffKeepsInv(s);
      FinishedKeepsInv(SignedOff(s), c);
      if call.begun == s.epoch && |call.sends| == 1 {
        ResentKeepsInv(s, c);
      }
    }
  }

  lemma {:induction false} RunKeepsInv(access: Option<Id>, refresh: Option<Id>, steps: seq<Step>)
    ensures Inv(Run(Loaded(access, refresh), steps))
  {
    if steps != [] {
      RunKeepsInv(access, refresh, steps[..|steps| - 1]);
      StepKeepsInv(Run(Loaded(access, refresh), steps[..|steps| - 1]), steps[|steps| - 1]);
    }
  }

  // ---- epoch isolation ----

  /** The access tokens a step brings in were never installed before. */
  predicate BringsNew(s: TabState, a: Step) {
    match a
    case Enter(access, _) => forall pair <- s.installed :: pair.1 != access
    case Answered(Tokens(access, _)) => forall pair <- s.installed :: pair.1 != access
    case _ => true
  }

  ghost predicate OneEpochEach(s: TabState) {
    forall p, q :: p in s.installed && q in s.installed && p.1 == q.1 ==> p == q
  }

  lemma StepKeepsOneEpochEach(s: TabState, a: Step)
    requires OneEpochEach(s) && BringsNew(s, a)
    ensures OneEpochEach(Apply(s, a))
  {
    var t := Apply(s, a);
    assert t.installed == s.installed || (a.Enter? && t.installed == s.installed + {(s.epoch + 1, a.access)})
           || (a.Answered? && a.answer.Tokens? && t.installed == s.installed + {(s.epoch, a.answer.access)});
  }

  lemma {:induction false} RunKeepsOneEpochEach(access: Option<Id>, refresh: Option<Id>, steps: seq<Step>)
    requires forall i :: 0 <= i < |steps| ==> BringsNew(Run(Loaded(access, refresh), steps[..i]), steps[i])
    ensures OneEpochEach(Run(Loaded(access, refresh), steps))
  {
    if steps != [] {
      var prefix := steps[..|steps| - 1];
      forall i | 0 <= i < |prefix| ensures BringsNew(Run(Loaded(access, refresh), prefix[..i]), prefix[i]) {
        assert prefix[..i] == steps[..i];
      }
      RunKeepsOneEpochEach(access, refresh, prefix);
      StepKeepsOneEpochEach(Run(Loaded(access, refresh), prefix), steps[|steps| - 1]);
    }
  }

  /** A request begun in one session is never sent, first or again, with a token of another session. */
  lemma {:induction false} NeverSentUnderAnotherSession(access: Option<Id>, refresh: Option<Id>, steps: seq<Step>,
          c: Id, i: nat,
                                     epoch: nat, token: Id)
    requires forall n :: 0 <= n < |steps| ==> BringsNew(Run(Loaded(access, refresh), steps[..n]), steps[n])
    requires c in Run(Loaded(access, refresh), steps).calls
    requires i < |Run(Loaded(access, refresh), steps).calls[c].sends|
    requires Run(Loaded(access, refresh), steps).calls[c].sends[i] == Some(token)
    requires (epoch, token) in Run(Loaded(access, refresh), steps).installed
    ensures epoch == Run(Loaded(access, refresh), steps).calls[c].begun
  {
    var s := Run(Loaded(access, refresh), steps);
    RunKeepsInv(access, refresh, steps);
    RunKeepsOneEpochEach(access, refresh, steps);
    assert CallOk(s, s.calls[c]);
    assert (s.calls[c].begun, token) in s.installed;
  }

  /** A call goes out once or twice, and it waits for a rotation only between the two. */
  lemma {:induction false} SentAtMostTwice(access: Option<Id>, refresh: Option<Id>, steps: seq<Step>, c: Id)
    requires c in Run(Loaded(access, refresh), steps).calls
    ensures var call := Run(Loaded(access, refresh), steps).calls[c];
            1 <= |call.sends| <= 2 && (call.phase.Waiting? ==> |call.sends| == 1)
  {
    var s := Run(Loaded(access, refresh), steps);
    RunKeepsInv(access, refresh, steps);
    assert CallOk(s, s.calls[c]);
  }

  /** Of all the rotations ever begun at most one has not ended. */
  lemma {:induction false} OneRotationAtATime(access: Option<Id>, refresh: Option<Id>, steps: seq<Step>, j: nat, k: nat)
    requires var s := Run(Loaded(access, refresh), steps);
             j in s.began && j !in s.outcomes && k in s.began && k !in s.outcomes
    ensures j == k
  {
    RunKeepsInv(access, refresh, steps);
  }

  /** A rotation writes tokens only while the epoch it began in is current and the refresh token it sent is
      held. */
  lemma {:induction false} RotationWritesItsOwnEpoch(access: Option<Id>, refresh: Option<Id>, steps: seq<Step>,
          answer: Answer)
    requires var s := Run(Loaded(access, refresh), steps);
             var t := AfterAnswer(s, answer);
             t.installed != s.installed || t.access != s.access || t.refresh != s.refresh
    ensures var s := Run(Loaded(access, refresh), steps);
            && s.flight.Asked? && s.flight.k in s.began && s.began[s.flight.k] == (s.epoch, s.refresh)
            && answer.Tokens?
  {
    RunKeepsInv(access, refresh, steps);
  }

  /** Whatever a call does, it ends a session only if it was begun in that session, and then leaves no token. */
  lemma CallsEndOnlyTheirOwnSession(s: TabState, a: Step, c: Id)
    requires (a.Reply? || a.Resume? || a.Break?) && a.c == c && Apply(s, a).epoch != s.epoch
    ensures c in s.calls && s.calls[c].begun == s.epoch
    ensures var t := Apply(s, a); t.epoch == s.epoch + 1 && t.signedOut && t.access.None? && t.refresh.None?
  {}

  /** A refused rotation ends a session only for a call of that session, with the refresh token it saw. What
      was refused is that very token, sent in that very epoch, exactly if the call did not join a rotation
      already under way from another epoch. */
  lemma {:induction false} RefusalEndsItsOwnSession(access: Option<Id>, refresh: Option<Id>, steps: seq<Step>, c: Id)
    requires var s := Run(Loaded(access, refresh), steps);
             c in s.calls && s.calls[c].phase.Waiting? && Apply(s, Resume(c)).epoch != s.epoch
    ensures var s := Run(Loaded(access, refresh), steps);
            var phase := s.calls[c].phase;
            && s.calls[c].begun == s.epoch && s.refresh == Some(phase.refreshUsed)
            && phase.k in s.began && s.outcomes[phase.k] == Failed(401)
            && (s.began[phase.k] == (s.epoch, s.refresh) <==>
                phase.joined.None? || phase.joined == Some(s.epoch))
  {
    var s := Run(Loaded(access, refresh), steps);
    RunKeepsInv(access, refresh, steps);
    assert CallOk(s, s.calls[c]);
  }

  lemma {:induction false} RunExtends(s: TabState, steps: seq<Step>, a: Step)
    ensures Run(s, steps + [a]) == Apply(Run(s, steps), a)
  {
    assert (steps + [a])[..|steps + [a]| - 1] == steps;
  }

  /** A rotation of `stale` is under way when the user signs out and in again. */
  function ReplacedWhileRotating(a: Id, stale: Id, b: Id, current: Id): TabState {
    var s := Apply(Apply(Loaded(Some(a), Some(stale)), Begin(1)), Reply(1, true));
    Apply(Apply(Apply(s, StartTask), SignOut), Enter(b, current))
  }

  lemma RotatingWhenReplaced(a: Id, stale: Id, b: Id, current: Id)
    ensures var t := ReplacedWhileRotating(a, stale, b, current);
            && t.flight == Asked(0, 1, Some(stale)) && t.epoch == 3 && !t.signedOut && t.outcomes == map[]
            && t.access == Some(b) && t.refresh == Some(current) && t.began == map[0 := (1, Some(stale))]
            && 2 !in t.calls
  {
    var begun := Apply(Loaded(Some(a), Some(stale)), Begin(1));
    assert begun.calls[1] == Call(1, [Some(a)], InFlight);
    var s := Apply(begun, Reply(1, true));
    assert s.calls.Keys == {1} && s.flight == Scheduled(0);
  }

  /** A user signs out and in again while request 1 has a rotation of `stale` under way; request 2 of the new
      session joins that rotation, which is then refused. */
  function LateJoin(b: Id, current: Id): seq<Step> {
    [Begin(1), Reply(1, true), StartTask, SignOut, Enter(b, current)]
    + [Begin(2), Reply(2, true), Answered(Error(401)), Clear]
  }

  lemma {:induction false} RunLateJoin(s: TabState, b: Id, current: Id)
    ensures var asked := Apply(Apply(Apply(s, Begin(1)), Reply(1, true)), StartTask);
            var t := Apply(Apply(asked, SignOut), Enter(b, current));
            Run(s, LateJoin(b, current)) ==
            Apply(Apply(Apply(Apply(t, Begin(2)), Reply(2, true)), Answered(Error(401))), Clear)
  {
    var enter := Enter(b, current);
    RunExtends(s, [], Begin(1));
    RunExtends(s, [Begin(1)], Reply(1, true));
    RunExtends(s, [Begin(1), Reply(1, true)], StartTask);
    RunExtends(s, [Begin(1), Reply(1, true), StartTask], SignOut);
    RunExtends(s, [Begin(1), Reply(1, true), StartTask, SignOut], enter);
    var first := [Begin(1), Reply(1, true), StartTask, SignOut, enter];
    RunExtends(s, first, Begin(2));
    RunExtends(s, first + [Begin(2)], Reply(2, true));
    RunExtends(s, first + [Begin(2)] + [Reply(2, true)], Answered(Error(401)));
    RunExtends(s, first + [Begin(2)] + [Reply(2, true)] + [Answered(Error(401))], Clear);
    assert LateJoin(b, current) == first + [Begin(2)] + [Reply(2, true)] + [Answered(Error(401))] + [Clear];
    assert [Begin(1)] == [] + [Begin(1)];
    assert [Begin(1), Reply(1, true)] == [Begin(1)] + [Reply(1, true)];
    assert [Begin(1), Reply(1, true), StartTask] == [Begin(1), Reply(1, true)] + [StartTask];
    assert [Begin(1), Reply(1, true), StartTask, SignOut] == [Begin(1), Reply(1, true), StartTask] + [SignOut];
    assert first == [Begin(1), Reply(1, true), StartTask, SignOut] + [enter];
  }

  /** The other case happens: after that run request 2 resumes and ends the new session, although the refresh
      token of the new session was never sent. */
  lemma {:induction false} LateJoinEndsTheWrongSession(a: Id, stale: Id, b: Id, current: Id)
    requires stale != current
    ensures
      var refused := Run(Loaded(Some(a), Some(stale)), LateJoin(b, current));
      && refused.refresh == Some(current) && !refused.signedOut
      && (forall k <- refused.began :: refused.began[k].1 != Some(current))
      && Apply(refused, Resume(2)).signedOut && Apply(refused, Resume(2)).refresh == None
  {
    RunLateJoin(Loaded(Some(a), Some(stale)), b, current);
    RotatingWhenReplaced(a, stale, b, current);
    var t := ReplacedWhileRotating(a, stale, b, current);
    var asked := Apply(t, Begin(2));
    assert asked.calls[2] == Call(3, [Some(b)], InFlight) && asked.flight == t.flight;
    var joined := Apply(asked, Reply(2, true));
    assert joined.calls[2] == Call(3, [Some(b)], Waiting(current, 0, Some(1)));
  }
}
