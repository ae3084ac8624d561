/** File uploads against the plan's storage limit (internal/billing/service.go, internal/files/service.go).

    An upload sums the stored bytes, compares in 64-bit arithmetic, writes the object and records the file; any
    number of uploads and deletes interleave. */
module StorageQuota {
  import opened Wrappers
  import Q = QuotaGate

  type Id = Q.Id

  const TWO63: int := 0x8000_0000_0000_0000
  const BYTES_PER_MB := 1024 * 1024

  /** Two's complement wrap-around of int64. */
  function Wrap64(x: int): int {
    (x + TWO63) % (2 * TWO63) - TWO63
  }

  /** The test of CheckStorageQuota, as the int64 operations compute it. */
  predicate Refuses(limitMb: Option<nat>, used: nat, additional: int) {
    limitMb.Some? && used > Wrap64(Wrap64(limitMb.value * BYTES_PER_MB) - additional)
  }

  /** For every limit that fits, the subtraction cannot overflow and the test is the one meant, although adding
      `used` and `additional` could wrap. */
  lemma RefusalIsExact(limitMb: nat, used: nat, additional: nat)
    requires limitMb * BYTES_PER_MB < TWO63 && additional < TWO63
    ensures Refuses(Some(limitMb), used, additional) <==> used + additional > limitMb * 1_048_576
  {
    assert Wrap64(limitMb * BYTES_PER_MB) == limitMb * BYTES_PER_MB;
    assert Wrap64(limitMb * BYTES_PER_MB - additional) == limitMb * BYTES_PER_MB - additional;
  }

  /** `uploads` are those between the sum and the insert, with the size of their file. */
  datatype State = State(files: map<Id, nat>, uploads: map<Id, Q.Request>)

  /** `maxBytes` is the size limit of one upload, 0 for none. */
  datatype Plan = Plan(limitMb: Option<nat>, maxBytes: nat)

  datatype Step =
    | Count(p: Id, size: nat)
    | Check(p: Id)
    | Record(p: Id, id: Id)
    | Abandon(p: Id)
    | Delete(id: Id)

  predicate Accepts(plan: Plan, size: nat) {
    0 < size < TWO63 && (plan.maxBytes > 0 ==> size <= plan.maxBytes)
  }

  ghost function Apply(s: State, plan: Plan, a: Step): State {
    match a
    case Count(p, size) =>
      if p in s.uploads || !Accepts(plan, size) then s
      else s.(uploads := s.uploads[p := Q.Counted(Q.Sum(s.files), size)])
    case Check(p) =>
      if p !in s.uploads || !s.uploads[p].Counted? then s
      else if Refuses(plan.limitMb, s.uploads[p].n, s.uploads[p].amount) then s.(uploads := s.uploads - {p})
      else s.(uploads := s.uploads[p := Q.Passed(s.uploads[p].amount)])
    case Record(p, id) =>
      if p !in s.uploads || !s.uploads[p].Passed? then s
      else State(Recorded(s.files, id, s.uploads[p].amount), s.uploads - {p})
    case Abandon(p) => s.(uploads := s.uploads - {p})
    case Delete(id) => s.(files := s.files - {id})
  }

  function Recorded(files: map<Id, nat>, id: Id, size: nat): map<Id, nat> {
    if id in files then files else files[id := size]
  }

  // ---- uploads refine the gate ----

  /** The plan's limit in bytes, if it has one, fits 64 bits. */
  predicate Fits(plan: Plan) {
    plan.limitMb.Some? ==> plan.limitMb.value * BYTES_PER_MB < TWO63
  }

  function LimitBytes(plan: Plan): Option<nat> {
    if plan.limitMb.None? then None else Some(plan.limitMb.value * BYTES_PER_MB)
  }

  predicate Sized(s: State, plan: Plan) {
    forall p <- s.uploads :: Accepts(plan, s.uploads[p].amount)
  }

  ghost function View(s: State): Q.Gate {
    Q.Gate(Q.Sum(s.files), s.uploads)
  }

  ghost function MoveOf(s: State, plan: Plan, a: Step): Q.Move {
    match a
    case Count(p, size) => if Accepts(plan, size) then Q.Count(p, size) else Q.Shrink(Q.Sum(s.files))
    case Check(p) => Q.Check(p)
    case Record(p, id) =>
      if p in s.uploads then Q.Insert(p, Q.Sum(Recorded(s.files, id, s.uploads[p].amount))) else Q.Leave(p)
    case Abandon(p) => Q.Leave(p)
    case Delete(id) => Q.Shrink(Q.Sum(s.files - {id}))
  }

  lemma RecordingAdds(files: map<Id, nat>, id: Id, size: nat)
    ensures Q.Sum(Recorded(files, id, size)) == Q.Sum(files) + if id in files then 0 else size
  {
    if id !in files {
      Q.SumWith(files, id, size);
    }
  }

  lemma DeletingFrees(files: map<Id, nat>, id: Id)
    ensures Q.Sum(files - {id}) <= Q.Sum(files)
  {
    if id in files {
      Q.SumWithout(files, id);
    } else {
      assert files - {id} == files;
    }
  }

  /** The 64-bit test decides as the gate does. */
  lemma CheckRefines(s: State, plan: Plan, p: Id)
    requires Fits(plan) && Sized(s, plan)
    ensures View(Apply(s, plan, Check(p))) == Q.Apply(View(s), LimitBytes(plan), Q.Check(p))
  {
    if p in s.uploads && s.uploads[p].Counted? && plan.limitMb.Some? {
      RefusalIsExact(plan.limitMb.value, s.uploads[p].n, s.uploads[p].amount);
    }
  }

  lemma StepRefines(s: State, plan: Plan, a: Step)
    requires Fits(plan) && Sized(s, plan)
    ensures Sized(Apply(s, plan, a), plan)
    ensures View(Apply(s, plan, a)) == Q.Apply(View(s), LimitBytes(plan), MoveOf(s, plan, a))
  {
    match a
    case Check(p) => CheckRefines(s, plan, p);
    case Record(p, id) =>
      if p in s.uploads {
        RecordingAdds(s.files, id, s.uploads[p].amount);
      } else {
        assert s.uploads - {p} == s.uploads;
      }
    case Delete(id) => DeletingFrees(s.files, id);
    case _ =>
  }

  ghost function Uploads(plan: Plan): Q.Quota<State, Step> {
    Q.Quota(LimitBytes(plan), (s, a) => Apply(s, plan, a), s => View(s), (s, a) => MoveOf(s, plan, a),
            s => Sized(s, plan))
  }

  ghost function Run(s: State, plan: Plan, steps: seq<Step>): State {
    Q.Run(Uploads(plan), s, steps)
  }

  lemma UploadsRefine(plan: Plan)
    requires Fits(plan)
    ensures Q.Refines(Uploads(plan)) && (plan.maxBytes > 0 ==> Q.AmountsAtMost(Uploads(plan), plan.maxBytes))
  {
    forall s, a | Sized(s, plan)
      ensures Sized(Apply(s, plan, a), plan)
      ensures View(Apply(s, plan, a)) == Q.Apply(View(s), LimitBytes(plan), MoveOf(s, plan, a))
    {
      StepRefines(s, plan, a);
    }
  }

  // ---- the storage limit over runs, and the bound is reached ----

  /** Serial uploads never exceed the plan's storage; with at most `k` at once they exceed it by less than `k`
      uploads of the largest size accepted. */
  lemma StorageIsBounded(s: State, plan: Plan, k: nat, steps: seq<Step>)
    requires k > 0 && plan.limitMb.Some? && plan.limitMb.value * BYTES_PER_MB < TWO63
    requires k == 1 || plan.maxBytes > 0
    requires s.uploads == map[] && Q.Sum(s.files) <= plan.limitMb.value * BYTES_PER_MB
    requires Q.AtMostAtOnce(Uploads(plan), s, steps, k)
    ensures Q.Sum(Run(s, plan, steps).files) <= plan.limitMb.value * BYTES_PER_MB + (k - 1) * plan.maxBytes
  {
    UploadsRefine(plan);
    Q.UseIsBounded(Uploads(plan), s, plan.limitMb.value * BYTES_PER_MB, k, plan.maxBytes, steps);
  }

  predicate UnusedFrom(files: map<Id, nat>, base: nat) {
    forall id <- files :: id < base
  }

  function Burst(size: nat): Q.Burst<State, Step> {
    Q.Burst(size, p => Count(p, size), p => Check(p), (p, n) => Record(p, n), (s: State, n) => UnusedFrom(s.files, n))
  }

  lemma RecordIsRealized(s: State, plan: Plan, p: Id, n: nat, size: nat)
    requires UnusedFrom(s.files, n) && p in s.uploads && s.uploads[p] == Q.Passed(size)
    ensures MoveOf(s, plan, Record(p, n)) == Q.Insert(p, View(s).used + size)
    ensures UnusedFrom(Apply(s, plan, Record(p, n)).files, n + 1)
  {
    RecordingAdds(s.files, n, size);
  }

  lemma BurstIsRealized(plan: Plan, size: nat)
    requires Accepts(plan, size)
    ensures Q.Realizes(Uploads(plan), Burst(size))
  {
    forall s: State, p, n: nat | UnusedFrom(s.files, n) && p in s.uploads && s.uploads[p] == Q.Passed(size)
      ensures MoveOf(s, plan, Record(p, n)) == Q.Insert(p, View(s).used + size)
      ensures UnusedFrom(Apply(s, plan, Record(p, n)).files, n + 1)
    {
      RecordIsRealized(s, plan, p, n, size);
    }
  }

  /** With room for exactly one largest file, `k` uploads of that size, never more than `k` at once, reach the
      bound. */
  lemma StorageBoundIsReached(s: State, plan: Plan, k: nat, base: nat)
    requires k > 0 && s.uploads == map[] && UnusedFrom(s.files, base)
    requires 0 < plan.maxBytes < TWO63
    requires plan.limitMb.Some? && plan.limitMb.value * BYTES_PER_MB < TWO63
    requires Q.Sum(s.files) + plan.maxBytes == plan.limitMb.value * BYTES_PER_MB
    ensures var rush := Q.Rush(Burst(plan.maxBytes), k, base);
            && Q.AtMostAtOnce(Uploads(plan), s, rush, k)
            && Q.Sum(Run(s, plan, rush).files) == plan.limitMb.value * BYTES_PER_MB + (k - 1) * plan.maxBytes
  {
    UploadsRefine(plan);
    BurstIsRealized(plan, plan.maxBytes);
    Q.RushGetsIn(Uploads(plan), Burst(plan.maxBytes), s, k, base);
    Q.OneMoreTime(k, plan.maxBytes);
  }

  // ---- the service ----

  datatype Verdict = Stored | BadName | Empty | TooBig | NoContent | ProjectNotFound | OverQuota | StoreFailed

  /** What the handler passes on. `name` is what cleanFilename made of the file name, None for its error. */
  datatype UploadInput = UploadInput(name: Option<string>, size: int, hasContent: bool, project: Option<Id>)

  class FileService {
    var files: map<Id, nat>
    const projects: set<Id>
    const plan: Plan

    constructor (files: map<Id, nat>, projects: set<Id>, plan: Plan)
      ensures this.files == files && this.projects == projects && this.plan == plan
    {
      this.files, this.projects, this.plan := files, projects, plan;
    }

    ghost function Now(): State
      reads this
    {
      State(files, map[])
    }

    method StorageBytes() returns (total: nat)
      ensures total == Q.Sum(files)
    {
      total := 0;
      var rest := files;
      while rest != map[]
        invariant total + Q.Sum(rest) == Q.Sum(files)
        decreases |rest|
      {
        var id :| id in rest;
        Q.SumWithout(rest, id);
        assert (rest - {id}).Keys == rest.Keys - {id};
        total, rest := total + rest[id], rest - {id};
      }
    }

    /** A size that is not positive is a validation error, whatever the plan. */
    method CheckStorageQuota(additional: int) returns (ok: bool)
      ensures ok <==> additional > 0 && !Refuses(plan.limitMb, Q.Sum(files), additional)
    {
      if additional <= 0 { return false; }
      if plan.limitMb.None? { return true; }
      var used := StorageBytes();
      var limit := Wrap64(plan.limitMb.value * BYTES_PER_MB);
      if used > Wrap64(limit - additional) { return false; }
      return true;
    }

    /** The checks before the quota. */
    predicate Proper(input: UploadInput) {
      && input.name.Some? && input.size < TWO63 && Accepts(plan, if input.size > 0 then input.size else 0)
      && input.hasContent && (input.project.Some? ==> input.project.value in projects)
    }

    /** One upload with nothing in between is the run count, check, record; if the object store fails (`put` is
        false) it gives up after the check. */
    method Upload(id: Id, input: UploadInput, put: bool) returns (verdict: Verdict)
      requires id !in files && input.size < TWO63
      modifies this`files
      ensures Proper(input) ==>
                var checked := Apply(Apply(old(Now()), plan, Count(0, input.size)), plan, Check(0));
                Now() == Apply(checked, plan, if put then Record(0, id) else Abandon(0))
      ensures !Proper(input) <==> verdict in {BadName, Empty, TooBig, NoContent, ProjectNotFound}
      ensures verdict.Empty? <==> input.name.Some? && input.size <= 0
      ensures verdict.OverQuota? <==> Proper(input) && Refuses(plan.limitMb, Q.Sum(old(files)), input.size)
      ensures verdict.StoreFailed? <==> Proper(input) && !Refuses(plan.limitMb, Q.Sum(old(files)), input.size) && !put
      ensures if verdict.Stored? then input.size > 0 && files == old(files)[id := input.size] else files == old(files)
    {
      if input.name.None? { return BadName; }
      if input.size <= 0 { return Empty; }
      if plan.maxBytes > 0 && input.size > plan.maxBytes { return TooBig; }
      if !input.hasContent { return NoContent; }
      if input.project.Some? && input.project.value !in projects { return ProjectNotFound; }
      var ok := CheckStorageQuota(input.size);
      if !ok { return OverQuota; }
      if !put { return StoreFailed; }
      files := files[id := input.size];
      return Stored;
    }

    method Remove(id: Id) returns (found: bool)
      modifies this`files
      ensures found <==> id in old(files)
      ensures Now() == Apply(old(Now()), plan, Delete(id))
    {
      found := id in files;
      files := files - {id};
    }
  }
}
