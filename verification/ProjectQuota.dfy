/** Project creation against the plan's project limit (internal/projects/service.go, internal/billing/service.go).

    `Create` counts the live projects, compares, and inserts, in three transactions; any number of creates,
    deletes and renames interleave. Slugs are compared for equality only. */
module ProjectQuota {
  import opened Wrappers
  import Q = QuotaGate

  type Id = Q.Id

  type Slug = nat

  datatype Project = Project(slug: Slug, deleted: bool)

  /** `creators` are the creates between their count and their insert. */
  datatype State = State(projects: map<Id, Project>, creators: map<Id, Q.Request>)

  datatype Step =
    | Count(p: Id)
    | Check(p: Id)
    | Insert(p: Id, id: Id, slug: Slug)
    | Abandon(p: Id)
    | SoftDelete(id: Id)
    | Rename(id: Id, slug: Slug)

  function LiveIds(projects: map<Id, Project>): set<Id> {
    set id | id in projects && !projects[id].deleted
  }

  function CountLive(projects: map<Id, Project>): nat {
    |LiveIds(projects)|
  }

  /** The partial unique index on slugs covers live projects only. */
  predicate SlugTaken(projects: map<Id, Project>, slug: Slug) {
    exists id <- projects :: !projects[id].deleted && projects[id].slug == slug
  }

  /** CheckProjectQuota; no limit means unlimited. */
  predicate Allows(limit: Option<nat>, current: nat) {
    limit.None? || current < limit.value
  }

  function Inserted(projects: map<Id, Project>, id: Id, slug: Slug): map<Id, Project> {
    if id in projects || SlugTaken(projects, slug) then projects else projects[id := Project(slug, false)]
  }

  function Apply(s: State, limit: Option<nat>, a: Step): State {
    match a
    case Count(p) =>
      if p in s.creators then s else s.(creators := s.creators[p := Q.Counted(CountLive(s.projects), 1)])
    case Check(p) =>
      if p !in s.creators || !s.creators[p].Counted? then s
      else if Allows(limit, s.creators[p].n) then s.(creators := s.creators[p := Q.Passed(1)])
      else s.(creators := s.creators - {p})
    case Insert(p, id, slug) =>
      if p !in s.creators || !s.creators[p].Passed? then s
      else State(Inserted(s.projects, id, slug), s.creators - {p})
    case Abandon(p) => s.(creators := s.creators - {p})
    case SoftDelete(id) =>
      if id in s.projects then s.(projects := s.projects[id := s.projects[id].(deleted := true)]) else s
    case Rename(id, slug) =>
      if id in s.projects && !s.projects[id].deleted && !SlugTaken(s.projects, slug)
      then s.(projects := s.projects[id := s.projects[id].(slug := slug)])
      else s
  }

  // ---- creates refine the gate ----

  predicate Ones(s: State) {
    forall p <- s.creators :: s.creators[p].amount == 1
  }

  function View(s: State): Q.Gate {
    Q.Gate(CountLive(s.projects), s.creators)
  }

  function MoveOf(s: State, limit: Option<nat>, a: Step): Q.Move {
    match a
    case Count(p) => Q.Count(p, 1)
    case Check(p) => Q.Check(p)
    case Insert(p, id, slug) => Q.Insert(p, CountLive(Inserted(s.projects, id, slug)))
    case Abandon(p) => Q.Leave(p)
    case SoftDelete(_) => Q.Shrink(CountLive(Apply(s, limit, a).projects))
    case Rename(_, _) => Q.Shrink(CountLive(Apply(s, limit, a).projects))
  }

  lemma InsertAddsOne(projects: map<Id, Project>, id: Id, slug: Slug)
    ensures CountLive(Inserted(projects, id, slug)) <= CountLive(projects) + 1
  {
    Q.FewerInSubset(LiveIds(Inserted(projects, id, slug)), LiveIds(projects) + {id});
  }

  lemma StepRefines(s: State, limit: Option<nat>, a: Step)
    requires Ones(s)
    ensures Ones(Apply(s, limit, a))
    ensures View(Apply(s, limit, a)) == Q.Apply(View(s), limit, MoveOf(s, limit, a))
  {
    match a
    case Insert(_, id, slug) => InsertAddsOne(s.projects, id, slug);
    case SoftDelete(_) => Q.FewerInSubset(LiveIds(Apply(s, limit, a).projects), LiveIds(s.projects));
    case Rename(_, _) => Q.FewerInSubset(LiveIds(Apply(s, limit, a).projects), LiveIds(s.projects));
    case _ =>
  }

  function Creates(limit: Option<nat>): Q.Quota<State, Step> {
    Q.Quota(limit, (s, a) => Apply(s, limit, a), s => View(s), (s, a) => MoveOf(s, limit, a), s => Ones(s))
  }

  function Run(s: State, limit: Option<nat>, steps: seq<Step>): State {
    Q.Run(Creates(limit), s, steps)
  }

  lemma CreatesRefine(limit: Option<nat>)
    ensures Q.Refines(Creates(limit)) && Q.AmountsAtMost(Creates(limit), 1)
  {
    forall s, a | Ones(s)
      ensures Ones(Apply(s, limit, a)) && View(Apply(s, limit, a)) == Q.Apply(View(s), limit, MoveOf(s, limit, a))
    {
      StepRefines(s, limit, a);
    }
  }

  // ---- the overshoot is bounded, and the bound is reached ----

  /** With at most `k` creates in flight the live projects never exceed the limit by more than `k - 1`, and
      with serial creates they never exceed it. */
  lemma OvershootIsBounded(s: State, limit: nat, k: nat, steps: seq<Step>)
    requires k > 0 && s.creators == map[] && CountLive(s.projects) <= limit
    requires Q.AtMostAtOnce(Creates(Some(limit)), s, steps, k)
    ensures CountLive(Run(s, Some(limit), steps).projects) <= limit + k - 1
  {
    CreatesRefine(Some(limit));
    Q.UseIsBounded(Creates(Some(limit)), s, limit, k, 1, steps);
  }

  /** Ids and slugs from `base` on are unused. */
  predicate UnusedFrom(projects: map<Id, Project>, base: nat) {
    forall id <- projects :: id < base && projects[id].slug < base
  }

  function Burst(): Q.Burst<State, Step> {
    Q.Burst(1, p => Count(p), p => Check(p), (p, n) => Insert(p, n, n), (s: State, n) => UnusedFrom(s.projects, n))
  }

  lemma UnusedIsInserted(projects: map<Id, Project>, unused: nat)
    requires UnusedFrom(projects, unused)
    ensures UnusedFrom(Inserted(projects, unused, unused), unused + 1)
    ensures CountLive(Inserted(projects, unused, unused)) == CountLive(projects) + 1
  {
    assert LiveIds(Inserted(projects, unused, unused)) == LiveIds(projects) + {unused};
  }

  lemma InsertIsRealized(s: State, limit: Option<nat>, p: Id, n: nat)
    requires UnusedFrom(s.projects, n) && p in s.creators && s.creators[p] == Q.Passed(1)
    ensures MoveOf(s, limit, Insert(p, n, n)) == Q.Insert(p, View(s).used + 1)
    ensures UnusedFrom(Apply(s, limit, Insert(p, n, n)).projects, n + 1)
  {
    UnusedIsInserted(s.projects, n);
  }

  lemma BurstIsRealized(limit: Option<nat>)
    ensures Q.Realizes(Creates(limit), Burst())
  {
    var q, b := Creates(limit), Burst();
    forall s, p, n: nat | p in q.gate(s).requests && q.gate(s).requests[p] == Q.Passed(1) && b.unused(s, n)
      ensures q.move(s, b.insert(p, n)) == Q.Insert(p, q.gate(s).used + 1)
      ensures b.unused(q.apply(s, b.insert(p, n)), n + 1)
    {
      InsertIsRealized(s, limit, p, n);
    }
  }

  /** From one below the limit, `k` creates, never more than `k` at once, reach `limit + k - 1`: for k > 2 the
      overshoot is more than the one project that the comment in the source expects. */
  lemma OvershootIsReached(s: State, limit: nat, k: nat, base: nat)
    requires s.creators == map[] && UnusedFrom(s.projects, base) && CountLive(s.projects) == limit - 1
    ensures Q.AtMostAtOnce(Creates(Some(limit)), s, Q.Rush(Burst(), k, base), k)
    ensures CountLive(Run(s, Some(limit), Q.Rush(Burst(), k, base)).projects) == limit + k - 1
  {
    CreatesRefine(Some(limit));
    BurstIsRealized(Some(limit));
    Q.RushGetsIn(Creates(Some(limit)), Burst(), s, k, base);
  }

  // ---- an overshoot is not corrected by further creates ----

  /** Every create between its count and its insert has seen a full plan. */
  predicate AllRefused(s: State, limit: nat) {
    && CountLive(s.projects) >= limit
    && forall p <- s.creators :: s.creators[p].Counted? && s.creators[p].n >= limit
  }

  lemma CreatesChangeNothing(s: State, limit: nat, a: Step)
    requires AllRefused(s, limit) && !a.SoftDelete?
    ensures AllRefused(Apply(s, Some(limit), a), limit)
    ensures LiveIds(Apply(s, Some(limit), a).projects) == LiveIds(s.projects)
  {
    var t := Apply(s, Some(limit), a);
    assert LiveIds(t.projects) == LiveIds(s.projects);
  }

  /** At or over the limit, no run of creates and renames changes which projects are live: further creates are
      refused, and only deletes bring the count down. */
  lemma {:induction false} OnlyDeletesCorrect(s: State, limit: nat, steps: seq<Step>)
    requires s.creators == map[] && CountLive(s.projects) >= limit
    requires forall a <- steps :: !a.SoftDelete?
    ensures AllRefused(Run(s, Some(limit), steps), limit)
    ensures LiveIds(Run(s, Some(limit), steps).projects) == LiveIds(s.projects)
  {
    if steps != [] {
      OnlyDeletesCorrect(s, limit, steps[..|steps| - 1]);
      CreatesChangeNothing(Run(s, Some(limit), steps[..|steps| - 1]), limit, steps[|steps| - 1]);
    }
  }

  // ---- slugs ----

  /** No two live projects share a slug. */
  predicate UniqueSlugs(projects: map<Id, Project>) {
    forall i, j | i in LiveIds(projects) && j in LiveIds(projects) && projects[i].slug == projects[j].slug :: i == j
  }

  lemma StepKeepsSlugs(s: State, limit: Option<nat>, a: Step)
    requires UniqueSlugs(s.projects)
    ensures UniqueSlugs(Apply(s, limit, a).projects)
  {}

  /** A slug is free exactly if every project that has it is deleted: a create that passed its check, and a rename of a
      live project, go through exactly then. */
  lemma FreeSlugExactly(s: State, limit: Option<nat>, a: Step)
    requires a.Insert? || a.Rename?
    ensures var t := Apply(s, limit, a).projects;
            var free := forall q <- s.projects :: s.projects[q].slug == a.slug ==> s.projects[q].deleted;
            && (a.Insert? && a.p in s.creators && s.creators[a.p].Passed? && a.id !in s.projects ==>
                  t == if free then s.projects[a.id := Project(a.slug, false)] else s.projects)
            && (a.Rename? && a.id in s.projects ==>
                  t == if free && !s.projects[a.id].deleted then s.projects[a.id := Project(a.slug, false)]
                       else s.projects)
  {}

  /** However creates and renames interleave, live projects have different slugs. */
  lemma {:induction false} SlugsStayUnique(s: State, limit: Option<nat>, steps: seq<Step>)
    requires UniqueSlugs(s.projects)
    ensures UniqueSlugs(Run(s, limit, steps).projects)
  {
    if steps != [] {
      SlugsStayUnique(s, limit, steps[..|steps| - 1]);
      StepKeepsSlugs(Run(s, limit, steps[..|steps| - 1]), limit, steps[|steps| - 1]);
    }
  }

  // ---- the service ----

  datatype Verdict = Created | InvalidSlug | TeamNotFound | QuotaReached | SlugConflict

  class ProjectService {
    var projects: map<Id, Project>
    const teams: set<Id>
    const limit: Option<nat>

    constructor (projects: map<Id, Project>, teams: set<Id>, limit: Option<nat>)
      ensures this.projects == projects && this.teams == teams && this.limit == limit
    {
      this.projects, this.teams, this.limit := projects, teams, limit;
    }

    ghost function Now(): State
      reads this
    {
      State(projects, map[])
    }

    method CheckProjectQuota(current: nat) returns (ok: bool)
      ensures ok <==> Allows(limit, current)
    {
      if limit.None? { return true; }
      if current >= limit.value { return false; }
      return true;
    }

    /** One create with nothing in between is the run count, check, insert. `slug` is what slug.Resolve made of
        the request, None for its validation error. */
    method Create(id: Id, slug: Option<Slug>, team: Option<Id>) returns (verdict: Verdict)
      requires id !in projects
      modifies this`projects
      ensures verdict.InvalidSlug? <==> slug.None?
      ensures verdict.TeamNotFound? <==> slug.Some? && team.Some? && team.value !in teams
      ensures verdict.QuotaReached? <==>
                slug.Some? && (team.None? || team.value in teams) && !Allows(limit, CountLive(old(projects)))
      ensures !verdict.InvalidSlug? && !verdict.TeamNotFound? ==>
                var counted := Apply(old(Now()), limit, Count(0));
                Now() == Apply(Apply(counted, limit, Check(0)), limit, Insert(0, id, slug.value))
      ensures if verdict.Created? then slug.Some? && projects == old(projects)[id := Project(slug.value, false)]
              else projects == old(projects)
      ensures verdict.SlugConflict? <==>
                && slug.Some? && (team.None? || team.value in teams)
                && (limit.None? || |LiveIds(old(projects))| < limit.value)
                && exists i <- LiveIds(old(projects)) :: old(projects)[i].slug == slug.value
      ensures limit.Some? && CountLive(old(projects)) <= limit.value ==> CountLive(projects) <= limit.value
    {
      if slug.None? { return InvalidSlug; }
      if team.Some? && team.value !in teams { return TeamNotFound; }
      var current := CountLive(projects);
      var ok := CheckProjectQuota(current);
      if !ok { return QuotaReached; }
      if SlugTaken(projects, slug.value) { return SlugConflict; }
      InsertAddsOne(projects, id, slug.value);
      projects := projects[id := Project(slug.value, false)];
      return Created;
    }

    method Delete(id: Id) returns (found: bool)
      modifies this`projects
      ensures found <==> id in LiveIds(old(projects))
      ensures Now() == Apply(old(Now()), limit, SoftDelete(id))
      ensures LiveIds(projects) == LiveIds(old(projects)) - {id}
    {
      found := id in projects && !projects[id].deleted;
      if found {
        projects := projects[id := projects[id].(deleted := true)];
      } else if id in projects {
        assert projects[id := projects[id].(deleted := true)] == projects;
      }
    }
  }
}
