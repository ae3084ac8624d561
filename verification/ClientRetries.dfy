/** When a call of the browser client goes out again, and when it ends the session (call() in app.js), over all runs
    of `ClientSession`. */
module ClientRetries {
  import opened Wrappers
  import opened ClientSession

  // ---- what became of a rotation ----

  /** The answer brings tokens to a rotation that is still of the current epoch and sent the refresh token still
      held. */
  predicate Writes(s: TabState, a: Step, k: nat) {
    && a.Answered? && a.answer.Tokens? && s.flight.Asked? && s.flight.k == k
    && k in s.began && s.began[k] == (s.epoch, s.refresh)
  }

  predicate Refuses(s: TabState, a: Step, k: nat, status: nat) {
    a.Answered? && a.answer == Error(status) && s.flight.Asked? && s.flight.k == k
  }

  /** The step ends rotation k with this outcome. */
  predicate Ends(s: TabState, a: Step, k: nat, outcome: Outcome) {
    match outcome
    case Renewed => Writes(s, a, k)
    case Failed(status) => Refuses(s, a, k, status)
    case Superseded => false
  }

  /** One of the first j steps ended rotation k by writing its tokens. */
  predicate Wrote(s: TabState, steps: seq<Step>, j: nat, k: nat)
    requires j <= |steps|
  {
    exists n :: 0 <= n < j && Writes(Run(s, steps[..n]), steps[n], k)
  }

  predicate WasRefused(s: TabState, steps: seq<Step>, j: nat, k: nat, status: nat)
    requires j <= |steps|
  {
    exists n :: 0 <= n < j && Refuses(Run(s, steps[..n]), steps[n], k, status)
  }

  /** A step that ends rotation k by writing installs its tokens, for the epoch that goes on. */
  lemma {:induction false} RotationWritesExactly(access: Option<Id>, refresh: Option<Id>, steps: seq<Step>, a: Step)
    requires a.Answered? && a.answer.Tokens?
    ensures var s := Run(Loaded(access, refresh), steps);
            var t := Apply(s, a);
            s.flight.Asked? ==>
              && t.epoch == s.epoch
              && if Writes(s, a, s.flight.k)
                 then t.access == Some(a.answer.access) && t.refresh == Some(a.answer.refresh)
                 else t.access == s.access && t.refresh == s.refresh
  {
    RunKeepsInv(access, refresh, steps);
  }

  /** Rotation k has ended with this outcome, whether or not its `finally` has run. */
  predicate EndedWith(s: TabState, k: nat, outcome: Outcome) {
    || (s.flight.Settled? && s.flight.k == k && s.flight.outcome == outcome)
    || (k in s.outcomes && s.outcomes[k] == outcome)
  }


  /** What a call or a session step leaves of the flight. */
  lemma OthersKeepFlight(s: TabState, a: Step)
    requires !a.StartTask? && !a.Answered? && !a.Clear?
    ensures var t := Apply(s, a);
            t.outcomes == s.outcomes && (t.flight == s.flight || (s.flight.Idle? && t.flight.Scheduled?))
  {
    match a
    case Reply(c, _) => if c in s.calls {}
    case Resume(c) => if c in s.calls {}
    case _ =>
  }

  lemma AnswerExplains(s: TabState, a: Step, k: nat, status: nat)
    requires OneFlight(s) && a.Answered?
    ensures EndedWith(Apply(s, a), k, Renewed) <==> EndedWith(s, k, Renewed) || Writes(s, a, k)
    ensures EndedWith(Apply(s, a), k, Failed(status)) <==> EndedWith(s, k, Failed(status)) || Refuses(s, a, k, status)
  {}

  lemma StepExplains(s: TabState, a: Step, k: nat, status: nat)
    requires OneFlight(s)
    ensures EndedWith(Apply(s, a), k, Renewed) <==> EndedWith(s, k, Renewed) || Writes(s, a, k)
    ensures EndedWith(Apply(s, a), k, Failed(status)) <==> EndedWith(s, k, Failed(status)) || Refuses(s, a, k, status)
  {
    match a
    case StartTask =>
    case Clear =>
    case Answered(_) => AnswerExplains(s, a, k, status);
    case _ => OthersKeepFlight(s, a);
  }

  lemma {:induction false} RunPrefix(s: TabState, steps: seq<Step>, i: nat)
    requires i < |steps|
    ensures Run(s, steps[..i + 1]) == Apply(Run(s, steps[..i]), steps[i])
  {
    assert steps[..i + 1][..i] == steps[..i];
  }

  lemma {:induction false} StepInRunExplains(access: Option<Id>, refresh: Option<Id>, steps: seq<Step>, j: nat, k: nat,
          outcome: Outcome)
    requires j < |steps| && outcome != Superseded
    ensures var s := Loaded(access, refresh);
            EndedWith(Run(s, steps[..j + 1]), k, outcome) <==>
            EndedWith(Run(s, steps[..j]), k, outcome) || Ends(Run(s, steps[..j]), steps[j], k, outcome)
  {
    RunKeepsInv(access, refresh, steps[..j]);
    RunPrefix(Loaded(access, refresh), steps, j);
    StepExplains(Run(Loaded(access, refresh), steps[..j]), steps[j], k, if outcome.Failed? then outcome.status else 0);
  }

  lemma {:induction false} EndingLasts(access: Option<Id>, refresh: Option<Id>, steps: seq<Step>, n: nat, j: nat,
          k: nat, outcome: Outcome)
    requires n < j <= |steps| && outcome != Superseded
    requires Ends(Run(Loaded(access, refresh), steps[..n]), steps[n], k, outcome)
    ensures EndedWith(Run(Loaded(access, refresh), steps[..j]), k, outcome)
    decreases j
  {
    if n + 1 < j {
      EndingLasts(access, refresh, steps, n, j - 1, k, outcome);
    }
    StepInRunExplains(access, refresh, steps, j - 1, k, outcome);
  }

  lemma {:induction false} EndingHappened(access: Option<Id>, refresh: Option<Id>, steps: seq<Step>, j: nat, k: nat,
          outcome: Outcome)
    returns (n: nat)
    requires j <= |steps| && outcome != Superseded
    requires EndedWith(Run(Loaded(access, refresh), steps[..j]), k, outcome)
    ensures n < j && Ends(Run(Loaded(access, refresh), steps[..n]), steps[n], k, outcome)
    decreases j
  {
    assert j > 0;
    StepInRunExplains(access, refresh, steps, j - 1, k, outcome);
    n := j - 1;
    if EndedWith(Run(Loaded(access, refresh), steps[..n]), k, outcome) {
      n := EndingHappened(access, refresh, steps, n, k, outcome);
    }
  }

  lemma {:induction false} RenewalIsExplained(access: Option<Id>, refresh: Option<Id>, steps: seq<Step>, j: nat, k: nat)
    requires j <= |steps|
    ensures EndedWith(Run(Loaded(access, refresh), steps[..j]), k, Renewed) <==>
            Wrote(Loaded(access, refresh), steps, j, k)
  {
    if EndedWith(Run(Loaded(access, refresh), steps[..j]), k, Renewed) {
      var n := EndingHappened(access, refresh, steps, j, k, Renewed);
    } else if Wrote(Loaded(access, refresh), steps, j, k) {
      var n :| 0 <= n < j && Writes(Run(Loaded(access, refresh), steps[..n]), steps[n], k);
      EndingLasts(access, refresh, steps, n, j, k, Renewed);
    }
  }

  lemma {:induction false} RefusalIsExplained(access: Option<Id>, refresh: Option<Id>, steps: seq<Step>, j: nat, k: nat,
          status: nat)
    requires j <= |steps|
    ensures EndedWith(Run(Loaded(access, refresh), steps[..j]), k, Failed(status)) <==>
            WasRefused(Loaded(access, refresh), steps, j, k, status)
  {
    if EndedWith(Run(Loaded(access, refresh), steps[..j]), k, Failed(status)) {
      var n := EndingHappened(access, refresh, steps, j, k, Failed(status));
    } else if WasRefused(Loaded(access, refresh), steps, j, k, status) {
      var n :| 0 <= n < j && Refuses(Run(Loaded(access, refresh), steps[..n]), steps[n], k, status);
      EndingLasts(access, refresh, steps, n, j, k, Failed(status));
    }
  }

  // ---- what is sent ----

  function SendsOf(s: TabState, c: Id): seq<Option<Id>> {
    if c in s.calls then s.calls[c].sends else []
  }

  /** Whatever a step sends, first or again, carries the access token held at that moment; and a call that is begun goes
      out, in the current epoch. */
  lemma SendsCarryTheHeldToken(s: TabState, a: Step, c: Id)
    ensures SendsOf(Apply(s, a), c) == SendsOf(s, c) || SendsOf(Apply(s, a), c) == SendsOf(s, c) + [s.access]
    ensures a == Begin(c) && c !in s.calls ==>
              var t := Apply(s, a);
              c in t.calls && t.calls[c].begun == t.epoch == s.epoch && t.calls[c].phase.InFlight?
              && SendsOf(t, c) == [s.access]
  {
    match a
    case Reply(d, _) => if d in s.calls {}
    case Resume(d) => if d in s.calls {}
    case _ =>
  }

  // ---- a call after its rotation ----

  /** The call is out again, with the access token of the moment. */
  predicate GoesAgain(s: TabState, t: TabState, c: Id)
    requires c in s.calls
  {
    t == s.(calls := s.calls[c := s.calls[c].(sends := s.calls[c].sends + [s.access], phase := InFlight)])
  }

  /** The call is over; the session goes on. */
  predicate GivesUp(s: TabState, t: TabState, c: Id)
    requires c in s.calls
  {
    t == s.(calls := s.calls[c := s.calls[c].(phase := Done)])
  }

  /** The call is over and so is the session. */
  predicate EndsSession(s: TabState, t: TabState, c: Id)
    requires c in s.calls
  {
    t == s.(calls := s.calls[c := s.calls[c].(phase := Done)], signedOut := true, epoch := s.epoch + 1, access := None,
            refresh := None)
  }

  lemma ResumeFollows(s: TabState, c: Id)
    requires c in s.calls && s.calls[c].phase.Waiting? && s.calls[c].phase.k in s.outcomes
    ensures var t, call := Apply(s, Resume(c)), s.calls[c];
            var outcome := s.outcomes[call.phase.k];
            && (GoesAgain(s, t, c) <==> outcome == Renewed && call.begun == s.epoch)
            && (EndsSession(s, t, c) <==>
                  && outcome == Failed(401) && call.begun == s.epoch && s.refresh == Some(call.phase.refreshUsed)
                  && !s.signedOut)
            && (GoesAgain(s, t, c) || EndsSession(s, t, c) || GivesUp(s, t, c))
  {
    var t := Apply(s, Resume(c));
    assert t.calls[c].phase != s.calls[c].phase;
  }

  lemma ClearedIsEnded(s: TabState, k: nat, outcome: Outcome)
    requires OneFlight(s) && k in s.outcomes
    ensures EndedWith(s, k, outcome) <==> s.outcomes[k] == outcome
  {}

  /** In every run, when a waiting call resumes: it goes out exactly once more, with the access token held now, exactly
      if the rotation it waited for ended by writing its tokens and the call's session is still the current one. It
      ends the session exactly if the rotation was refused with 401, the session is still the call's, and its refresh
      token is the one the call saw. Otherwise it is over and nothing else changes. */
  lemma {:induction false} ResumesExactly(access: Option<Id>, refresh: Option<Id>, steps: seq<Step>, c: Id)
    requires var s := Run(Loaded(access, refresh), steps);
             c in s.calls && s.calls[c].phase.Waiting? && s.calls[c].phase.k in s.outcomes
    ensures var start := Loaded(access, refresh);
            var s := Run(start, steps);
            var t, call := Apply(s, Resume(c)), s.calls[c];
            && |call.sends| == 1
            && (GoesAgain(s, t, c) <==> Wrote(start, steps, |steps|, call.phase.k) && call.begun == s.epoch)
            && (EndsSession(s, t, c) <==>
                  && WasRefused(start, steps, |steps|, call.phase.k, 401) && call.begun == s.epoch
                  && s.refresh == Some(call.phase.refreshUsed) && !s.signedOut)
            && (GoesAgain(s, t, c) || EndsSession(s, t, c) || GivesUp(s, t, c))
  {
    var s := Run(Loaded(access, refresh), steps);
    var k := s.calls[c].phase.k;
    RunKeepsInv(access, refresh, steps);
    SentAtMostTwice(access, refresh, steps, c);
    RenewalIsExplained(access, refresh, steps, |steps|, k);
    RefusalIsExplained(access, refresh, steps, |steps|, k, 401);
    assert steps[..|steps|] == steps;
    ClearedIsEnded(s, k, Renewed);
    ClearedIsEnded(s, k, Failed(401));
    ResumeFollows(s, c);
  }

  // ---- a call after its response ----

  /** The call waits for the rotation in flight; a new one is scheduled only if there is none. */
  predicate Joins(s: TabState, t: TabState, c: Id)
    requires c in s.calls
  {
    && c in t.calls && t.calls[c].phase.Waiting? && !t.flight.Idle? && t.calls[c].phase.k == t.flight.k
    && Some(t.calls[c].phase.refreshUsed) == s.refresh
    && (if s.flight.Idle? then t.flight == Scheduled(s.next) else t.flight == s.flight)
    && t == s.(calls := s.calls[c := s.calls[c].(phase := t.calls[c].phase)], flight := t.flight, next := t.next)
  }

  /** In every run, when a response arrives: a 401 to a call of the current session that went out once, while a refresh
      token is held, sends it again at once if the token it carried has been replaced meanwhile, and else makes it wait
      for a rotation. A 401 to one that went out twice, or with no refresh token held, ends the session. Everything
      else ends the call alone. */
  lemma {:induction false} RepliesExactly(access: Option<Id>, refresh: Option<Id>, steps: seq<Step>, c: Id,
          unauthorized: bool)
    requires var s := Run(Loaded(access, refresh), steps); c in s.calls && s.calls[c].phase.InFlight?
    ensures var s := Run(Loaded(access, refresh), steps);
            var t, call := Apply(s, Reply(c, unauthorized)), s.calls[c];
            var refused := unauthorized && call.begun == s.epoch;
            && 1 <= |call.sends| <= 2
            && var replaced := call.sends[0].Some? && call.sends[0] != s.access;
               && (GoesAgain(s, t, c) <==> refused && |call.sends| == 1 && s.refresh.Some? && replaced)
               && (Joins(s, t, c) <==> refused && |call.sends| == 1 && s.refresh.Some? && !replaced)
               && (EndsSession(s, t, c) <==> refused && !s.signedOut && (|call.sends| == 2 || s.refresh.None?))
               && (GoesAgain(s, t, c) || Joins(s, t, c) || EndsSession(s, t, c) || GivesUp(s, t, c))
  {
    SentAtMostTwice(access, refresh, steps, c);
    ReplyFollows(Run(Loaded(access, refresh), steps), c, unauthorized);
  }

  lemma ReplyFollows(s: TabState, c: Id, unauthorized: bool)
    requires c in s.calls && s.calls[c].phase.InFlight? && 1 <= |s.calls[c].sends| <= 2
    ensures var t, call := Apply(s, Reply(c, unauthorized)), s.calls[c];
            var refused := unauthorized && call.begun == s.epoch;
            var replaced := call.sends[0].Some? && call.sends[0] != s.access;
            && (GoesAgain(s, t, c) <==> refused && |call.sends| == 1 && s.refresh.Some? && replaced)
            && (Joins(s, t, c) <==> refused && |call.sends| == 1 && s.refresh.Some? && !replaced)
            && (EndsSession(s, t, c) <==> refused && !s.signedOut && (|call.sends| == 2 || s.refresh.None?))
            && (GoesAgain(s, t, c) || Joins(s, t, c) || EndsSession(s, t, c) || GivesUp(s, t, c))
  {
    var t, call := Apply(s, Reply(c, unauthorized)), s.calls[c];
    assert t.calls[c].phase.InFlight? ==> |t.calls[c].sends| > |call.sends|;
  }
}
