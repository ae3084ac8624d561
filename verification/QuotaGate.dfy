/** What the plan quotas share: a request counts, compares with the limit, and inserts later, without a lock.

    A `Gate` is the amount in use and the requests between their count and their insert. A `Quota` is a machine that
    refines it: projects, seats and storage are three. How far concurrent requests overshoot, and that they do, is
    proved here for all of them. */
module QuotaGate {
  import opened Wrappers

  type Id = nat

  ghost function Pick(m: map<Id, nat>): (k: Id)
    requires m != map[]
    ensures k in m
  {
    var k :| k in m;
    k
  }

  ghost function Sum(m: map<Id, nat>): nat
    decreases |m|
  {
    if m == map[] then 0
    else
      var k := Pick(m);
      assert (m - {k}).Keys == m.Keys - {k};
      m[k] + Sum(m - {k})
  }

  lemma {:induction false} SumWithout(m: map<Id, nat>, k: Id)
    requires k in m
    ensures Sum(m) == m[k] + Sum(m - {k})
    decreases |m|
  {
    var j := Pick(m);
    if j != k {
      assert (m - {j}).Keys == m.Keys - {j};
      assert (m - {k}).Keys == m.Keys - {k};
      SumWithout(m - {j}, k);
      SumWithout(m - {k}, j);
      assert m - {j} - {k} == m - {k} - {j};
    }
  }

  lemma SumWith(m: map<Id, nat>, k: Id, n: nat)
    requires k !in m
    ensures Sum(m[k := n]) == n + Sum(m)
  {
    SumWithout(m[k := n], k);
    assert m[k := n] - {k} == m;
  }

  lemma {:induction false} SumAtMost(m: map<Id, nat>, b: nat)
    requires forall k <- m :: m[k] <= b
    ensures Sum(m) <= |m| * b
    decreases |m|
  {
    if m != map[] {
      var k := Pick(m);
      assert (m - {k}).Keys == m.Keys - {k};
      SumAtMost(m - {k}, b);
      assert |m| * b == (|m| - 1) * b + b;
    }
  }

  lemma {:induction false} FewerInSubset<T>(s: set<T>, t: set<T>)
    requires s <= t
    ensures |s| <= |t|
    decreases |s|
  {
    if s != {} {
      var x :| x in s;
      FewerInSubset(s - {x}, t - {x});
    }
  }

  lemma MoreCostsMore(i: nat, j: nat, b: nat)
    requires i <= j
    ensures i * b <= j * b
  {}

  /** There are at most n ids below n. */
  lemma {:induction false} FirstIds(ids: set<Id>, n: nat)
    requires forall id <- ids :: id < n
    ensures |ids| <= n
    decreases n
  {
    if n == 0 {
      assert ids == {};
    } else {
      FirstIds(ids - {n - 1}, n - 1);
      FewerInSubset(ids, ids - {n - 1} + {n - 1});
    }
  }

  // ---- the gate ----

  datatype Request = Counted(n: nat, amount: nat) | Passed(amount: nat)

  datatype Gate = Gate(used: nat, requests: map<Id, Request>)

  /** `Insert` and `Shrink` carry what is in use afterwards; an insert may also add less than it asked for, or
      nothing. */
  datatype Move =
    | Count(p: Id, amount: nat)
    | Check(p: Id)
    | Insert(p: Id, later: nat)
    | Leave(p: Id)
    | Shrink(later: nat)

  /** No limit means unlimited. */
  predicate Allows(limit: Option<nat>, n: nat, amount: nat) {
    limit.None? || n + amount <= limit.value
  }

  function Apply(g: Gate, limit: Option<nat>, m: Move): Gate {
    match m
    case Count(p, amount) =>
      if p in g.requests then g else g.(requests := g.requests[p := Counted(g.used, amount)])
    case Check(p) =>
      if p !in g.requests || !g.requests[p].Counted? then g
      else if Allows(limit, g.requests[p].n, g.requests[p].amount)
      then g.(requests := g.requests[p := Passed(g.requests[p].amount)])
      else g.(requests := g.requests - {p})
    case Insert(p, later) =>
      if p !in g.requests || !g.requests[p].Passed? || later > g.used + g.requests[p].amount then g
      else Gate(later, g.requests - {p})
    case Leave(p) => g.(requests := g.requests - {p})
    case Shrink(later) => if later <= g.used then g.(used := later) else g
  }

  // ---- quotas refine the gate ----

  /** A machine with states S and steps A: what the gate sees of a state, the move a step makes there, and an
      invariant `ok` of its own. */
  datatype Quota<!S, !A> =
    Quota(limit: Option<nat>, apply: (S, A) -> S, gate: S -> Gate, move: (S, A) -> Move, ok: S -> bool)

  ghost predicate Refines<S(!new), A(!new)>(q: Quota<S, A>) {
    forall s, a :: q.ok(s) ==>
      q.ok(q.apply(s, a)) && q.gate(q.apply(s, a)) == Apply(q.gate(s), q.limit, q.move(s, a))
  }

  function Run<S, A>(q: Quota<S, A>, s: S, steps: seq<A>): S {
    if steps == [] then s else q.apply(Run(q, s, steps[..|steps| - 1]), steps[|steps| - 1])
  }

  lemma {:induction false} RunExtends<S, A>(q: Quota<S, A>, s: S, steps: seq<A>, a: A)
    ensures Run(q, s, steps + [a]) == q.apply(Run(q, s, steps), a)
  {
    assert (steps + [a])[..|steps + [a]| - 1] == steps;
  }

  lemma {:induction false} RunKeepsOk<S(!new), A(!new)>(q: Quota<S, A>, s: S, steps: seq<A>)
    requires Refines(q) && q.ok(s)
    ensures q.ok(Run(q, s, steps))
  {
    if steps != [] {
      RunKeepsOk(q, s, steps[..|steps| - 1]);
    }
  }

  /** At most `k` requests are between their count and their insert at any time. */
  predicate AtMostAtOnce<S, A>(q: Quota<S, A>, s: S, steps: seq<A>, k: nat) {
    forall i :: 0 <= i <= |steps| ==> |q.gate(Run(q, s, steps[..i])).requests| <= k
  }

  ghost predicate AmountsAtMost<S(!new), A(!new)>(q: Quota<S, A>, b: nat) {
    forall s, a :: q.move(s, a).Count? ==> q.move(s, a).amount <= b
  }

  // ---- the overshoot is bounded ----

  /** What the requests that passed, or will pass, their check are about to add. */
  ghost function Going(g: Gate, limit: nat): map<Id, nat> {
    map p | p in g.requests && (g.requests[p].Passed? || g.requests[p].n + g.requests[p].amount <= limit)
      :: g.requests[p].amount
  }

  /** With at most `k` requests at once, each adding at most `b`: what is used and what is about to be added
      stay within the limit and `k - 1` requests. */
  ghost predicate Within(g: Gate, limit: nat, k: nat, b: nat)
    requires k > 0
  {
    && g.used + Sum(Going(g, limit)) <= limit + (k - 1) * b
    && (k == 1 || forall p <- g.requests :: g.requests[p].amount <= b)
  }

  lemma PassingSum(going: map<Id, nat>, p: Id, used: nat, amount: nat, limit: nat, k: nat, b: nat)
    requires p !in going && |going| < k && used + amount <= limit
    requires k == 1 || forall q <- going :: going[q] <= b
    ensures used + Sum(going[p := amount]) <= limit + (k - 1) * b
  {
    SumWith(going, p, amount);
    assert k == 1 ==> going == map[];
    SumAtMost(going, b);
    MoreCostsMore(|going|, k - 1, b);
  }

  lemma CountedIsGoing(g: Gate, limit: nat, p: Id, amount: nat)
    requires p !in g.requests
    ensures var t := Apply(g, Some(limit), Count(p, amount));
            && t.requests.Keys == g.requests.Keys + {p}
            && Going(t, limit) == if g.used + amount <= limit then Going(g, limit)[p := amount] else Going(g, limit)
  {
    assert Apply(g, Some(limit), Count(p, amount)).requests.Keys == g.requests.Keys + {p};
  }

  lemma CountKeepsWithin(g: Gate, limit: nat, k: nat, b: nat, p: Id, amount: nat)
    requires k > 0 && Within(g, limit, k, b) && (k == 1 || amount <= b)
    requires |Apply(g, Some(limit), Count(p, amount)).requests| <= k
    ensures Within(Apply(g, Some(limit), Count(p, amount)), limit, k, b)
  {
    if p !in g.requests {
      CountedIsGoing(g, limit, p, amount);
      if g.used + amount <= limit {
        FewerInSubset(Going(g, limit).Keys, g.requests.Keys);
        PassingSum(Going(g, limit), p, g.used, amount, limit, k, b);
      }
    }
  }

  lemma CheckKeepsWithin(g: Gate, limit: nat, k: nat, b: nat, p: Id)
    requires k > 0 && Within(g, limit, k, b)
    ensures Within(Apply(g, Some(limit), Check(p)), limit, k, b)
  {
    assert Going(Apply(g, Some(limit), Check(p)), limit) == Going(g, limit);
  }

  lemma LeaveKeepsWithin(g: Gate, limit: nat, k: nat, b: nat, p: Id, later: nat)
    requires k > 0 && Within(g, limit, k, b)
    requires later <= g.used + if p in Going(g, limit) then Going(g, limit)[p] else 0
    ensures Within(Gate(later, g.requests - {p}), limit, k, b)
  {
    var going := Going(g, limit);
    assert Going(Gate(later, g.requests - {p}), limit) == going - {p};
    if p in going {
      SumWithout(going, p);
    } else {
      assert going - {p} == going;
    }
  }

  lemma StepKeepsWithin(g: Gate, limit: nat, k: nat, b: nat, m: Move)
    requires k > 0 && Within(g, limit, k, b) && (k == 1 || (m.Count? ==> m.amount <= b))
    requires |Apply(g, Some(limit), m).requests| <= k
    ensures Within(Apply(g, Some(limit), m), limit, k, b)
  {
    match m
    case Count(p, amount) => CountKeepsWithin(g, limit, k, b, p, amount);
    case Check(p) => CheckKeepsWithin(g, limit, k, b, p);
    case Insert(p, later) =>
      if p in g.requests && g.requests[p].Passed? && later <= g.used + g.requests[p].amount {
        LeaveKeepsWithin(g, limit, k, b, p, later);
      }
    case Leave(p) => LeaveKeepsWithin(g, limit, k, b, p, g.used);
    case Shrink(later) =>
      if later <= g.used {
        assert Going(g.(used := later), limit) == Going(g, limit);
      }
  }

  lemma {:induction false} RunKeepsWithin<S(!new), A(!new)>(q: Quota<S, A>, s: S, limit: nat, k: nat, b: nat,
      steps: seq<A>)
    requires Refines(q) && q.ok(s) && q.limit == Some(limit) && (k == 1 || AmountsAtMost(q, b))
    requires k > 0 && q.gate(s).requests == map[] && q.gate(s).used <= limit
    requires AtMostAtOnce(q, s, steps, k)
    ensures Within(q.gate(Run(q, s, steps)), limit, k, b)
  {
    if steps == [] {
      assert Going(q.gate(s), limit) == map[];
    } else {
      var prefix, last := steps[..|steps| - 1], steps[|steps| - 1];
      assert AtMostAtOnce(q, s, prefix, k) by {
        forall i | 0 <= i <= |prefix| ensures |q.gate(Run(q, s, prefix[..i])).requests| <= k {
          assert prefix[..i] == steps[..i];
        }
      }
      RunKeepsWithin(q, s, limit, k, b, prefix);
      RunKeepsOk(q, s, prefix);
      assert steps[..|steps|] == steps;
      var before := Run(q, s, prefix);
      StepKeepsWithin(q.gate(before), limit, k, b, q.move(before, last));
    }
  }

  /** Serial requests never exceed the limit; with at most `k` at once, each adding at most `b`, they exceed it by at
      most `k - 1` requests. */
  lemma UseIsBounded<S(!new), A(!new)>(q: Quota<S, A>, s: S, limit: nat, k: nat, b: nat, steps: seq<A>)
    requires Refines(q) && q.ok(s) && q.limit == Some(limit) && (k == 1 || AmountsAtMost(q, b))
    requires k > 0 && q.gate(s).requests == map[] && q.gate(s).used <= limit
    requires AtMostAtOnce(q, s, steps, k)
    ensures q.gate(Run(q, s, steps)).used <= limit + (k - 1) * b
  {
    RunKeepsWithin(q, s, limit, k, b, steps);
  }

  // ---- and the bound is reached ----

  /** The steps of requests for `amount` each: `insert(p, n)` adds request p's amount in full where `unused(s, n)`. */
  datatype Burst<!S, !A> =
    Burst(amount: nat, count: Id -> A, check: Id -> A, insert: (Id, nat) -> A, unused: (S, nat) -> bool)

  ghost predicate Realizes<S(!new), A(!new)>(q: Quota<S, A>, b: Burst<S, A>) {
    && (forall s, p :: q.move(s, b.count(p)) == Count(p, b.amount))
    && (forall s, p :: q.move(s, b.check(p)) == Check(p))
    && (forall s, p, n: nat :: !q.move(s, b.insert(p, n)).Count?)
    && (forall s, p, n: nat :: b.unused(s, n) ==> b.unused(q.apply(s, b.count(p)), n))
    && (forall s, p, n: nat :: b.unused(s, n) ==> b.unused(q.apply(s, b.check(p)), n))
    && (forall s, p, n: nat ::
          p in q.gate(s).requests && q.gate(s).requests[p] == Passed(b.amount) && b.unused(s, n) ==>
            && q.move(s, b.insert(p, n)) == Insert(p, q.gate(s).used + b.amount)
            && b.unused(q.apply(s, b.insert(p, n)), n + 1))
  }

  function Counts<S, A>(b: Burst<S, A>, k: nat): seq<A> {
    if k == 0 then [] else Counts(b, k - 1) + [b.count(k - 1)]
  }

  function Inserts<S, A>(b: Burst<S, A>, base: nat, j: nat): seq<A> {
    if j == 0 then [] else Inserts(b, base, j - 1) + [b.check(j - 1), b.insert(j - 1, base + j - 1)]
  }

  /** `k` requests that all count before any of them inserts. */
  function Rush<S, A>(b: Burst<S, A>, k: nat, base: nat): seq<A> {
    Counts(b, k) + Inserts(b, base, k)
  }

  /** Requests `from` to `to` have counted `n` and the others are done. */
  predicate Queued(requests: map<Id, Request>, from: nat, to: nat, n: nat, amount: nat) {
    && (forall p <- requests :: from <= p < to && requests[p] == Counted(n, amount))
    && (forall p :: from <= p < to ==> p in requests)
  }

  /** From s, `j` of `k` queued requests were admitted. */
  predicate PiledUp<S, A>(q: Quota<S, A>, b: Burst<S, A>, s: S, t: S, k: nat, base: nat, j: nat) {
    && q.ok(t) && b.unused(t, base + j) && q.gate(t).used == q.gate(s).used + j * b.amount
    && Queued(q.gate(t).requests, j, k, q.gate(s).used, b.amount)
  }

  lemma {:induction false} CountsQueue<S(!new), A(!new)>(q: Quota<S, A>, b: Burst<S, A>, s: S, k: nat, base: nat)
    requires Refines(q) && Realizes(q, b) && q.ok(s) && b.unused(s, base) && q.gate(s).requests == map[]
    ensures PiledUp(q, b, s, Run(q, s, Counts(b, k)), k, base, 0)
  {
    if k > 0 {
      CountsQueue(q, b, s, k - 1, base);
      RunExtends(q, s, Counts(b, k - 1), b.count(k - 1));
    }
  }

  /** Request p checks and inserts its whole amount. */
  function Admitted<S, A>(q: Quota<S, A>, b: Burst<S, A>, r: S, p: Id, n: nat): S {
    q.apply(q.apply(r, b.check(p)), b.insert(p, n))
  }

  lemma CheckPasses(g: Gate, limit: Option<nat>, p: nat, k: nat, n: nat, amount: nat)
    requires p < k && Queued(g.requests, p, k, n, amount) && Allows(limit, n, amount)
    ensures Apply(g, limit, Check(p)) == g.(requests := g.requests[p := Passed(amount)])
    ensures var t := Apply(Apply(g, limit, Check(p)), limit, Insert(p, g.used + amount));
            t.used == g.used + amount && Queued(t.requests, p + 1, k, n, amount)
  {
    assert p in g.requests;
    var checked := g.(requests := g.requests[p := Passed(amount)]);
    assert Apply(checked, limit, Insert(p, g.used + amount)).requests == checked.requests - {p};
  }

  lemma OneMoreTime(j: nat, amount: nat)
    requires j > 0
    ensures j * amount == (j - 1) * amount + amount
  {}

  lemma AdmittedPilesUp<S(!new), A(!new)>(q: Quota<S, A>, b: Burst<S, A>, s: S, r: S, k: nat, base: nat, j: nat)
    requires Refines(q) && Realizes(q, b) && Allows(q.limit, q.gate(s).used, b.amount)
    requires 0 < j <= k && PiledUp(q, b, s, r, k, base, j - 1)
    ensures PiledUp(q, b, s, Admitted(q, b, r, j - 1, base + j - 1), k, base, j)
  {
    CheckPasses(q.gate(r), q.limit, j - 1, k, q.gate(s).used, b.amount);
    var checked := q.apply(r, b.check(j - 1));
    assert q.gate(checked).requests[j - 1] == Passed(b.amount) && b.unused(checked, base + j - 1);
    OneMoreTime(j, b.amount);
  }

  lemma {:induction false} InsertsPileUp<S(!new), A(!new)>(q: Quota<S, A>, b: Burst<S, A>, s: S, k: nat, base: nat,
      j: nat)
    requires Refines(q) && Realizes(q, b) && q.ok(s) && b.unused(s, base) && q.gate(s).requests == map[]
    requires Allows(q.limit, q.gate(s).used, b.amount) && j <= k
    ensures PiledUp(q, b, s, Run(q, s, Counts(b, k) + Inserts(b, base, j)), k, base, j)
  {
    if j == 0 {
      assert Counts(b, k) + Inserts(b, base, 0) == Counts(b, k);
      CountsQueue(q, b, s, k, base);
    } else {
      var before := Counts(b, k) + Inserts(b, base, j - 1);
      var check, insert := b.check(j - 1), b.insert(j - 1, base + j - 1);
      InsertsPileUp(q, b, s, k, base, j - 1);
      RunExtends(q, s, before, check);
      RunExtends(q, s, before + [check], insert);
      assert Counts(b, k) + Inserts(b, base, j) == before + [check] + [insert];
      AdmittedPilesUp(q, b, s, Run(q, s, before), k, base, j);
    }
  }

  /** Every request that one of the steps lets count is one of the first k. */
  ghost predicate CountsBelow<S(!new), A(!new)>(q: Quota<S, A>, steps: seq<A>, k: nat) {
    forall s, a :: a in steps && q.move(s, a).Count? ==> q.move(s, a).p < k
  }

  lemma {:induction false} FewRequests<S(!new), A(!new)>(q: Quota<S, A>, s: S, steps: seq<A>, k: nat)
    requires Refines(q) && q.ok(s) && q.gate(s).requests == map[] && CountsBelow(q, steps, k)
    ensures forall p <- q.gate(Run(q, s, steps)).requests :: p < k
    ensures |q.gate(Run(q, s, steps)).requests| <= k
  {
    if steps != [] {
      FewRequests(q, s, steps[..|steps| - 1], k);
      RunKeepsOk(q, s, steps[..|steps| - 1]);
    }
    FirstIds(q.gate(Run(q, s, steps)).requests.Keys, k);
  }

  lemma {:induction false} RushCountsBelow<S(!new), A(!new)>(q: Quota<S, A>, b: Burst<S, A>, k: nat, base: nat, j: nat)
    requires Realizes(q, b)
    ensures CountsBelow(q, Counts(b, k) + Inserts(b, base, j), k)
  {
    if j > 0 {
      RushCountsBelow(q, b, k, base, j - 1);
    } else if k > 0 {
      RushCountsBelow(q, b, k - 1, base, 0);
    }
  }

  /** If the first request would fit, all `k` get in, never more than `k` at once. */
  lemma RushGetsIn<S(!new), A(!new)>(q: Quota<S, A>, b: Burst<S, A>, s: S, k: nat, base: nat)
    requires Refines(q) && Realizes(q, b) && q.ok(s) && b.unused(s, base) && q.gate(s).requests == map[]
    requires Allows(q.limit, q.gate(s).used, b.amount)
    ensures AtMostAtOnce(q, s, Rush(b, k, base), k)
    ensures q.gate(Run(q, s, Rush(b, k, base))).used == q.gate(s).used + k * b.amount
  {
    var steps := Rush(b, k, base);
    RushCountsBelow(q, b, k, base, k);
    forall i | 0 <= i <= |steps| ensures |q.gate(Run(q, s, steps[..i])).requests| <= k {
      FewRequests(q, s, steps[..i], k);
    }
    InsertsPileUp(q, b, s, k, base, k);
  }

  /** A name of a given length, so that names of different lengths differ. */
  function Name(n: nat): (name: string)
    ensures |name| == n
  {
    seq(n, _ => 'x')
  }
}
