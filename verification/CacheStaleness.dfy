/** UserPermissions under concurrency: how stale an answer can be.

    One user's cache entry and true permission set, with readers that look in the cache, query the
    database and write the cache in three separate steps, mutations and invalidations that may come at
    any moment (or never: a dropped invalidation is just a missing step), Redis calls that may fail, and
    a clock. `at` fields name the step of the run at which something happened. */
module CacheStaleness {
  import opened Wrappers
  import opened PermissionCache

  datatype Filled = Filled(codes: set<string>, expiresAt: int, readAt: nat, wroteAt: nat)

  datatype Reader = Missed | Fetched(codes: set<string>, at: nat)

  datatype World = World(count: nat, clock: int, truth: set<string>, entry: Option<Filled>, readers: map<nat, Reader>)

  datatype Step =
    | Advance(seconds: nat)
    | Change(codes: set<string>)
    | Invalidate
    | Get(p: nat, reachable: bool)
    | Fetch(p: nat)
    | Store(p: nat, reachable: bool)

  predicate Hits(w: World, reachable: bool) {
    reachable && w.entry.Some? && w.clock < w.entry.value.expiresAt
  }

  function Apply(w: World, a: Step): World {
    var v := w.(count := w.count + 1);
    match a
    case Advance(seconds) => v.(clock := w.clock + seconds)
    case Change(codes) => v.(truth := codes)
    case Invalidate => v.(entry := None)
    case Get(p, reachable) => if Hits(w, reachable) then v else v.(readers := w.readers[p := Missed])
    case Fetch(p) =>
      if p in w.readers && w.readers[p].Missed? then v.(readers := w.readers[p := Fetched(w.truth, w.count)]) else v
    case Store(p, reachable) =>
      if p in w.readers && w.readers[p].Fetched? then
        var r := w.readers[p];
        v.(readers := w.readers - {p},
           entry := if reachable then Some(Filled(r.codes, w.clock + TTL, r.at, w.count)) else w.entry)
      else v
  }

  function Run(w: World, steps: seq<Step>): World {
    if steps == [] then w else Apply(Run(w, steps[..|steps| - 1]), steps[|steps| - 1])
  }

  /** What a step returns to its caller: a hit, or the fetched set once the write was attempted. */
  function Answer(w: World, a: Step): Option<set<string>> {
    match a
    case Get(_, reachable) => if Hits(w, reachable) then Some(w.entry.value.codes) else None
    case Store(p, _) => if p in w.readers && w.readers[p].Fetched? then Some(w.readers[p].codes) else None
    case _ => None
  }

  function Start(truth: set<string>): World {
    World(0, 0, truth, None, map[])
  }

  /** Reader p's query ran at step i and saw `codes`, which was the truth then, and p has held the result of that
      very query ever since, up to k. */
  ghost predicate HeldSince(w: World, steps: seq<Step>, i: nat, k: nat, p: nat, codes: set<string>) {
    && i < k <= |steps| && steps[i] == Fetch(p) && Run(w, steps[..i]).truth == codes
    && forall n | i < n <= k :: Holds(Run(w, steps[..n]), p, codes, i)
  }

  predicate Holds(v: World, p: nat, codes: set<string>, i: nat) {
    p in v.readers && v.readers[p] == Fetched(codes, i)
  }

  ghost predicate StoredAt(w: World, steps: seq<Step>, k: nat, p: nat, expiresAt: int) {
    k < |steps| && steps[k] == Store(p, true) && expiresAt == Run(w, steps[..k]).clock + TTL
  }

  /** The entry was written at `wroteAt` by a reader that had held it since its query at `readAt`. */
  ghost predicate EntryTraced(w: World, steps: seq<Step>, e: Filled) {
    exists p ::
      HeldSince(w, steps, e.readAt, e.wroteAt, p, e.codes) && StoredAt(w, steps, e.wroteAt, p, e.expiresAt)
  }

  /** Every set in a reader's hands or in the cache was the truth at the step it was read. */
  ghost predicate Traced(w: World, steps: seq<Step>) {
    var v := Run(w, steps);
    && v.count == |steps|
    && (forall p | p in v.readers && v.readers[p].Fetched? ::
          HeldSince(w, steps, v.readers[p].at, |steps|, p, v.readers[p].codes))
    && (v.entry.Some? ==> EntryTraced(w, steps, v.entry.value))
  }

  lemma {:induction false} HeldSinceExtends(w: World, steps: seq<Step>, n: nat, i: nat, k: nat, p: nat,
      codes: set<string>)
    requires n <= |steps| && HeldSince(w, steps[..n], i, k, p, codes)
    ensures HeldSince(w, steps, i, k, p, codes)
  {
    assert steps[..n][..i] == steps[..i];
    forall m | i < m <= k ensures Holds(Run(w, steps[..m]), p, codes, i) {
      assert steps[..n][..m] == steps[..m];
      assert Holds(Run(w, steps[..n][..m]), p, codes, i);
    }
  }

  lemma {:induction false} EntryTracedExtends(w: World, steps: seq<Step>, n: nat, e: Filled)
    requires n <= |steps| && EntryTraced(w, steps[..n], e)
    ensures EntryTraced(w, steps, e)
  {
    var p :| HeldSince(w, steps[..n], e.readAt, e.wroteAt, p, e.codes)
             && StoredAt(w, steps[..n], e.wroteAt, p, e.expiresAt);
    HeldSinceExtends(w, steps, n, e.readAt, e.wroteAt, p, e.codes);
    assert steps[..n][..e.wroteAt] == steps[..e.wroteAt];
    assert StoredAt(w, steps, e.wroteAt, p, e.expiresAt);
  }

  /** A reader that has just queried, or goes on holding what it had. */
  lemma {:induction false} ReaderIsTraced(w: World, steps: seq<Step>, p: nat)
    requires steps != [] && Traced(w, steps[..|steps| - 1])
    requires p in Run(w, steps).readers && Run(w, steps).readers[p].Fetched?
    ensures HeldSince(w, steps, Run(w, steps).readers[p].at, |steps|, p, Run(w, steps).readers[p].codes)
  {
    var last := |steps| - 1;
    var u, r := Run(w, steps[..last]), Run(w, steps).readers[p];
    assert steps[..|steps|] == steps;
    if p in u.readers && u.readers[p] == r {
      HeldSinceExtends(w, steps, last, r.at, last, p, r.codes);
    }
  }

  lemma {:induction false} EntryIsTraced(w: World, steps: seq<Step>)
    requires steps != [] && Traced(w, steps[..|steps| - 1]) && Run(w, steps).entry.Some?
    ensures EntryTraced(w, steps, Run(w, steps).entry.value)
  {
    var last := |steps| - 1;
    var u, e := Run(w, steps[..last]), Run(w, steps).entry.value;
    if u.entry == Some(e) {
      EntryTracedExtends(w, steps, last, e);
    } else {
      var p := steps[last].p;
      HeldSinceExtends(w, steps, last, e.readAt, last, p, e.codes);
      assert StoredAt(w, steps, last, p, e.expiresAt);
    }
  }

  lemma {:induction false} RunIsTraced(truth: set<string>, steps: seq<Step>)
    ensures Traced(Start(truth), steps)
  {
    if steps != [] {
      var w := Start(truth);
      RunIsTraced(truth, steps[..|steps| - 1]);
      forall p | p in Run(w, steps).readers && Run(w, steps).readers[p].Fetched?
        ensures HeldSince(w, steps, Run(w, steps).readers[p].at, |steps|, p, Run(w, steps).readers[p].codes)
      {
        ReaderIsTraced(w, steps, p);
      }
      if Run(w, steps).entry.Some? {
        EntryIsTraced(w, steps);
      }
    }
  }

  /** Bounded staleness. Whatever interleaves, the answer given at step j was the truth at an earlier step i, at
      which some reader p queried the database, and p held the result of that very query until step k. Either p
      is the one answering, at k == j, or p wrote the cache at k, less than TTL before: the age of an answer is
      below TTL plus the time its filler took from query to write. */
  lemma {:induction false} AnswersAreBoundedlyStale(truth: set<string>, steps: seq<Step>, j: nat)
    returns (i: nat, k: nat, p: nat)
    requires j < |steps| && Answer(Run(Start(truth), steps[..j]), steps[j]).Some?
    ensures i < k <= j && steps[i] == Fetch(p)
    ensures Run(Start(truth), steps[..i]).truth == Answer(Run(Start(truth), steps[..j]), steps[j]).value
    ensures forall n | i < n <= k ::
              Holds(Run(Start(truth), steps[..n]), p, Answer(Run(Start(truth), steps[..j]), steps[j]).value, i)
    ensures steps[k].Store? && steps[k].p == p
    ensures k == j || Run(Start(truth), steps[..j]).clock < Run(Start(truth), steps[..k]).clock + TTL
  {
    var w := Start(truth);
    RunIsTraced(truth, steps[..j]);
    var v := Run(w, steps[..j]);
    match steps[j]
    case Get(_, _) =>
      var e := v.entry.value;
      p :| && HeldSince(w, steps[..j], e.readAt, e.wroteAt, p, e.codes)
           && StoredAt(w, steps[..j], e.wroteAt, p, e.expiresAt);
      i, k := e.readAt, e.wroteAt;
      HeldSinceExtends(w, steps, j, i, k, p, e.codes);
      assert steps[..j][..k] == steps[..k];
    case Store(q, _) =>
      i, k, p := v.readers[q].at, j, q;
      HeldSinceExtends(w, steps, j, i, j, p, v.readers[q].codes);
  }

  /** The window is real: a reader that queried before a mutation can fill the cache after that mutation
      has invalidated it, and the old set is then served until the TTL runs out. */
  lemma FillAfterInvalidationIsServed(before: set<string>, after: set<string>, wait: nat)
    requires before != after && wait < TTL
    ensures var steps :=
              [Get(1, true), Fetch(1), Change(after), Invalidate, Store(1, true), Advance(wait), Get(2, true)];
            && Run(Start(before), steps[..6]).truth == after
            && Answer(Run(Start(before), steps[..6]), steps[6]) == Some(before)
  {
    var steps := [Get(1, true), Fetch(1), Change(after), Invalidate, Store(1, true), Advance(wait), Get(2, true)];
    var w := Start(before);
    assert steps[..6][..5] == steps[..5] && steps[..5][..4] == steps[..4] && steps[..4][..3] == steps[..3]
           && steps[..3][..2] == steps[..2] && steps[..2][..1] == steps[..1] && steps[..1][..0] == [];
    assert Run(w, steps[..1]) == Apply(w, steps[0]);
    assert Run(w, steps[..2]) == Apply(Run(w, steps[..1]), steps[1]);
    assert Run(w, steps[..3]) == Apply(Run(w, steps[..2]), steps[2]);
    assert Run(w, steps[..4]) == Apply(Run(w, steps[..3]), steps[3]);
    assert Run(w, steps[..5]) == Apply(Run(w, steps[..4]), steps[4]);
    assert Run(w, steps[..6]) == Apply(Run(w, steps[..5]), steps[5]);
  }

  // ---- when nothing stale can be served any more ----

  /** What the cache would serve, and what every reader is about to store, is the truth. */
  predicate Settled(w: World) {
    && (w.entry.Some? && w.clock < w.entry.value.expiresAt ==> w.entry.value.codes == w.truth)
    && (forall p <- w.readers :: w.readers[p].Fetched? ==> w.readers[p].codes == w.truth)
  }

  predicate NoChange(steps: seq<Step>) {
    forall a <- steps :: !a.Change?
  }

  /** Until the next change every answer is the truth, whatever interleaves. */
  ghost predicate NeverStale(w: World) {
    forall steps: seq<Step>, a: Step ::
      NoChange(steps) && Answer(Run(w, steps), a).Some? ==> Answer(Run(w, steps), a).value == w.truth
  }

  lemma StepKeepsSettled(w: World, a: Step)
    requires Settled(w) && !a.Change?
    ensures Settled(Apply(w, a)) && Apply(w, a).truth == w.truth
  {}

  lemma {:induction false} RunKeepsSettled(w: World, steps: seq<Step>)
    requires Settled(w) && NoChange(steps)
    ensures Settled(Run(w, steps)) && Run(w, steps).truth == w.truth
  {
    if steps != [] {
      RunKeepsSettled(w, steps[..|steps| - 1]);
      StepKeepsSettled(Run(w, steps[..|steps| - 1]), steps[|steps| - 1]);
    }
  }

  /** Answers are true until the next change exactly if no unexpired entry and no reader between its query and
      its write holds another set. */
  lemma {:induction false} SettledExactly(w: World)
    ensures Settled(w) <==> NeverStale(w)
  {
    if Settled(w) {
      forall steps: seq<Step>, a: Step | NoChange(steps) && Answer(Run(w, steps), a).Some?
        ensures Answer(Run(w, steps), a).value == w.truth
      {
        RunKeepsSettled(w, steps);
      }
    } else if w.entry.Some? && w.clock < w.entry.value.expiresAt && w.entry.value.codes != w.truth {
      assert NoChange([]) && Answer(Run(w, []), Get(0, true)) == Some(w.entry.value.codes);
    } else {
      var p :| p in w.readers && w.readers[p].Fetched? && w.readers[p].codes != w.truth;
      assert NoChange([]) && Answer(Run(w, []), Store(p, true)) == Some(w.readers[p].codes);
    }
  }

  /** A mutation and its invalidation leave nothing stale behind exactly if no reader still holds another set,
      read before the change. */
  lemma {:induction false} InvalidationSufficesExactly(w: World, codes: set<string>)
    ensures NeverStale(Apply(Apply(w, Change(codes)), Invalidate)) <==>
            forall p <- w.readers :: w.readers[p].Fetched? ==> w.readers[p].codes == codes
  {
    var after := Apply(Apply(w, Change(codes)), Invalidate);
    SettledExactly(after);
    assert after.readers == w.readers && after.truth == codes && after.entry.None?;
  }
}
