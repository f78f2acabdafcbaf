/**
  One process of the reservation protocol: `_reserve_job` and `launch_matrix` in src/orbenchlab/harbor_model_matrix.py.

  Every write is a step of the system of module Reservation, and between any two writes or listings the other
  processes may take any number of steps.
  */
module Launcher {
  import opened Options
  import opened Reservation

  // ---------------------------------------------------------------------------
  // The other processes
  // ---------------------------------------------------------------------------

  predicate ByOthers(step: Step, p: Pid) {
    match step
    case Appear(_) => true
    case Begin(q, _, _) => q != p
    case Scan(q, _) => q != p
    case Create(q) => q != p
    case Launch(q) => q != p
    case Crash(q) => q != p
  }

  ghost predicate OthersStep(b: Bounds, p: Pid, w: World, v: World) {
    exists step :: ByOthers(step, p) && Takes(b, w, step, v)
  }

  ghost predicate OthersTrace(b: Bounds, p: Pid, trace: seq<World>) {
    trace != [] && forall i :: 0 < i < |trace| ==> OthersStep(b, p, trace[i - 1], trace[i])
  }

  ghost predicate OthersReach(b: Bounds, p: Pid, w: World, v: World) {
    exists trace :: OthersTrace(b, p, trace) && trace[0] == w && trace[|trace| - 1] == v
  }

  /** What the other processes leave of a world, at each moment. */
  type Schedule = (nat, World) -> World

  ghost predicate IsSchedule(b: Bounds, p: Pid, others: Schedule) {
    forall k, w :: OthersReach(b, p, w, others(k, w))
  }

  ghost predicate SameCaller(p: Pid, w: World, v: World) {
    (p in w.callers <==> p in v.callers) && (p in w.callers ==> v.callers[p] == w.callers[p])
  }

  ghost predicate Grown(w: World, v: World) {
    w.reserved <= v.reserved && w.jobs <= v.jobs && w.granted <= v.granted && w.launched <= v.launched
  }

  lemma OthersStepKeeps(b: Bounds, p: Pid, w: World, v: World)
    requires OthersStep(b, p, w, v)
    ensures SameCaller(p, w, v) && Grown(w, v) && Next(b, w, v)
  {
  }

  lemma {:induction false} OthersKeep(b: Bounds, p: Pid, trace: seq<World>)
    requires OthersTrace(b, p, trace)
    ensures SameCaller(p, trace[0], trace[|trace| - 1]) && Grown(trace[0], trace[|trace| - 1])
  {
    if |trace| > 1 {
      OthersKeep(b, p, trace[..|trace| - 1]);
      OthersStepKeeps(b, p, trace[|trace| - 2], trace[|trace| - 2 + 1]);
    }
  }

  lemma OthersExtend(b: Bounds, p: Pid, run: seq<World>, trace: seq<World>)
    requires IsRun(b, run) && OthersTrace(b, p, trace) && trace[0] == run[|run| - 1]
    ensures IsRun(b, run + trace[1..])
  {
    var longer := run + trace[1..];
    forall i | 0 < i < |longer| ensures Next(b, longer[i - 1], longer[i]) {
      if i >= |run| {
        var k := i - |run| + 1;
        OthersStepKeeps(b, p, trace[k - 1], trace[k]);
      }
    }
  }

  // ---------------------------------------------------------------------------
  // Listings
  // ---------------------------------------------------------------------------

  /** A directory listing has every entry, in some order. */
  type Listing = set<Job> -> seq<Job>

  ghost predicate IsListing(listing: Listing) {
    forall s, job :: job in listing(s) <==> job in s
  }

  /** `max(numbers, default=0)` over the attempts of one model. */
  method HighestNumber(jobs: seq<Job>, model: Model) returns (highest: nat)
    ensures forall job :: job in jobs && job.model == model ==> job.attempt <= highest
    ensures highest == 0 || Job(model, highest) in jobs
  {
    highest := 0;
    for i := 0 to |jobs|
      invariant forall k :: 0 <= k < i && jobs[k].model == model ==> jobs[k].attempt <= highest
      invariant highest == 0 || Job(model, highest) in jobs
    {
      if jobs[i].model == model && jobs[i].attempt > highest {
        highest := jobs[i].attempt;
        assert jobs[i] == Job(model, highest);
      }
    }
  }

  /** `_valid_job`: the latest job of the model that validates. */
  method ValidJob(jobs: seq<Job>, model: Model, valid: Job -> bool) returns (job: Option<Job>)
    ensures job.Some? ==> job.value in jobs && job.value.model == model && valid(job.value)
    ensures job.None? ==> forall other :: other in jobs && other.model == model ==> !valid(other)
    ensures job.Some? ==> forall other :: other in jobs && other.model == model && valid(other) ==>
      other.attempt <= job.value.attempt
  {
    job := None;
    for i := 0 to |jobs|
      invariant job.Some? ==> job.value in jobs[..i] && job.value.model == model && valid(job.value)
      invariant forall k :: 0 <= k < i && jobs[k].model == model && valid(jobs[k]) ==>
        job.Some? && jobs[k].attempt <= job.value.attempt
    {
      if jobs[i].model == model && valid(jobs[i]) && (job.None? || job.value.attempt < jobs[i].attempt) {
        job := Some(jobs[i]);
      }
    }
  }

  // ---------------------------------------------------------------------------
  // The process
  // ---------------------------------------------------------------------------

  class MatrixLauncher {
    const b: Bounds
    const p: Pid
    var world: World
    var clock: nat
    /** Every state of the system so far, the steps of the other processes included. */
    ghost var history: seq<World>

    ghost predicate Valid()
      reads this
    {
      IsRun(b, history) && history[|history| - 1] == world
    }

    constructor (b: Bounds, p: Pid, world: World, ghost past: seq<World>)
      requires IsRun(b, past) && past[|past| - 1] == world
      ensures Valid() && this.b == b && this.p == p && this.world == world && history == past
    {
      this.b, this.p, this.world, this.clock := b, p, world, 0;
      this.history := past;
    }

    /** Records a step of this process in the history. */
    ghost method Observe(step: Step)
      requires IsRun(b, history) && Takes(b, history[|history| - 1], step, world)
      modifies `history
      ensures Valid() && history == old(history) + [world]
    {
      history := history + [world];
    }

    /** The other processes go on. */
    method Yield(others: Schedule)
      requires Valid() && IsSchedule(b, p, others)
      modifies this
      ensures Valid() && old(history) <= history
      ensures SameCaller(p, old(world), world) && Grown(old(world), world)
    {
      ghost var before := world;
      assert OthersReach(b, p, world, others(clock, world));
      world := others(clock, world);
      clock := clock + 1;
      ghost var trace :| OthersTrace(b, p, trace) && trace[0] == before && trace[|trace| - 1] == world;
      OthersKeep(b, p, trace);
      OthersExtend(b, p, history, trace);
      history := history + trace[1..];
    }

    /** One scan: the reservations are listed, others go on, the jobs are listed. */
    method ListNumbers(model: Model, listing: Listing, others: Schedule) returns (highest: nat)
      requires Valid() && IsSchedule(b, p, others) && IsListing(listing)
      requires p in world.callers && world.callers[p].Scanning? && world.callers[p].model == model
      modifies this
      ensures Valid() && old(history) <= history
      ensures SameCaller(p, old(world), world) && Grown(old(world), world)
      ensures ScanSees(world, old(world).callers[p], highest)
    {
      RunInv(b, history, |history| - 1);
      assert CallerOk(b, world, p, world.callers[p]);
      var reserved := listing(world.reserved);
      Yield(others);
      var jobs := listing(world.jobs);
      highest := HighestNumber(reserved + jobs, model);
      assert highest != 0 ==> Job(model, highest) in world.reserved + world.jobs;
      forall n: nat | Job(model, n) in old(world).callers[p].floor ensures n <= highest {
        assert Job(model, n) in reserved;
      }
    }

    /** `path.open("x")`: either the file is new and the name granted, or the race is lost. */
    method CreateExclusive(name: Job) returns (created: bool)
      requires Valid() && p in world.callers && world.callers[p].Trying?
      requires name == Job(world.callers[p].model, world.callers[p].attempt)
      modifies this
      ensures Valid() && history == old(history) + [world] && Grown(old(world), world)
      ensures created <==> name !in old(world).reserved
      ensures created ==> world.reserved == old(world).reserved + {name}
      ensures p in world.callers
      ensures created ==> world.callers[p] == Holding(name) && (p, name) in world.granted
      ensures !created ==>
        world.callers[p] == Scanning(name.model, old(world).callers[p].limit, world.reserved, name.attempt,
                                     old(world).callers[p].races + 1)
    {
      var c := world.callers[p];
      created := name !in world.reserved;
      if created {
        world := world.(reserved := world.reserved + {name},
                        callers := world.callers[p := Holding(name)],
                        granted := world.granted + [(p, name)]);
        assert world.granted[|world.granted| - 1] == (p, name);
      } else {
        world := world.(callers := world.callers[p :=
          Scanning(c.model, c.limit, world.reserved, c.attempt, c.races + 1)]);
      }
      Observe(Create(p));
    }

    /** One round of the loop of `_reserve_job`. */
    method TryOnce(model: Model, limit: nat, listing: Listing, others: Schedule) returns (round: Round)
      requires Valid() && IsSchedule(b, p, others) && IsListing(listing)
      requires p in world.callers && world.callers[p].Scanning?
      requires world.callers[p].model == model && world.callers[p].limit == limit
      modifies this
      ensures Valid() && old(history) <= history && Grown(old(world), world)
      ensures round.Won? ==>
        && p in world.callers && world.callers[p] == Holding(round.job) && (p, round.job) in world.granted
        && round.job.model == model && 1 <= round.job.attempt <= limit
        && round.job !in old(world).reserved && round.job in world.reserved
      // a lost race has raised the number that was lost, within the cap
      ensures round.Lost? ==>
        && p in world.callers && world.callers[p].Scanning?
        && world.callers[p].model == model && world.callers[p].limit == limit
        && old(world).callers[p].lost < world.callers[p].lost <= limit
      ensures round.Full? ==>
        && p !in world.callers
        && round.highest >= limit && (limit == 0 || Job(model, round.highest) in world.reserved + world.jobs)
    {
      var c := world.callers[p];
      var highest := ListNumbers(model, listing, others);
      LostRaceRaisesMaximum(b, history, |history| - 1, p, highest);
      if highest + 1 > limit {
        world := world.(callers := world.callers - {p});
        Observe(Scan(p, highest));
        return Full(highest);
      }
      world := world.(callers := world.callers[p := Trying(model, limit, highest + 1, c.lost, c.races)]);
      Observe(Scan(p, highest));
      Yield(others);
      var name := Job(model, highest + 1);
      var created := CreateExclusive(name);
      return if created then Won(name) else Lost;
    }

    /** `_reserve_job`. */
    method ReserveJob(model: Model, limit: nat, listing: Listing, others: Schedule) returns (job: Option<Job>)
      requires Valid() && IsSchedule(b, p, others) && IsListing(listing)
      requires p !in world.callers && model in b.models && limit <= b.cap
      modifies this
      ensures Valid() && old(history) <= history && Grown(old(world), world)
      // the caller holds a name of its model that was not reserved when it was called, within its cap
      ensures job.Some? ==>
        && p in world.callers && world.callers[p] == Holding(job.value) && (p, job.value) in world.granted
        && job.value.model == model && 1 <= job.value.attempt <= limit
        && job.value !in old(world).reserved && job.value in world.reserved
      // it gives up only when some number of its model has reached the cap
      ensures job.None? ==>
        && p !in world.callers
        && (limit == 0 || exists n: nat :: n >= limit && Job(model, n) in world.reserved + world.jobs)
    {
      world := world.(callers := world.callers[p := Scanning(model, limit, world.reserved, 0, 0)]);
      Observe(Begin(p, model, limit));
      while true
        invariant Valid() && old(history) <= history && Grown(old(world), world)
        invariant p in world.callers && world.callers[p].Scanning?
        invariant world.callers[p].model == model && world.callers[p].limit == limit
        invariant world.callers[p].lost <= limit
        decreases limit - world.callers[p].lost
      {
        var round := TryOnce(model, limit, listing, others);
        match round
        case Won(name) => return Some(name);
        case Full(_) => return None;
        case Lost =>
      }
    }

    /** The command runs the job, while others go on, and may or may not leave its directory. */
    method RunJob(job: Job, appears: bool, others: Schedule)
      requires Valid() && IsSchedule(b, p, others)
      requires p in world.callers && world.callers[p] == Holding(job)
      modifies this
      ensures Valid() && old(history) <= history && Grown(old(world), world)
      ensures p !in world.callers && job in world.launched
      ensures appears ==> job in world.jobs
    {
      world := world.(callers := world.callers - {p}, launched := world.launched + [job]);
      Observe(Launch(p));
      assert world.launched[|world.launched| - 1] == job;
      Yield(others);
      if appears {
        world := world.(jobs := world.jobs + {job});
        Observe(Appear(job));
      }
    }

    /** The loop of `launch_matrix`: for every model a job that validates, an old one or a new one. */
    method LaunchMatrix(models: seq<Model>, limit: nat, listing: Listing, valid: Job -> bool, bound: Job -> bool,
                        appears: Job -> bool, others: Schedule)
      returns (jobs: Option<seq<Job>>)
      requires Valid() && IsSchedule(b, p, others) && IsListing(listing)
      requires p !in world.callers && (forall m :: m in models ==> m in b.models) && limit <= b.cap
      modifies this
      ensures Valid() && old(history) <= history && Grown(old(world), world) && p !in world.callers
      // one job for each model, in order, every one validated, and paid for before it was launched
      ensures jobs.Some? ==>
        && |jobs.value| == |models|
        && forall i :: 0 <= i < |models| ==>
             jobs.value[i].model == models[i] && valid(jobs.value[i]) && jobs.value[i] in world.jobs
             && jobs.value[i] in world.launched && jobs.value[i] in world.reserved
      // a job that was reserved before is taken only if its reservation binds these inputs
      ensures jobs.Some? ==>
        forall job :: job in jobs.value && job in old(world).reserved ==> bound(job)
    {
      var rows: seq<Job> := [];
      for i := 0 to |models|
        invariant Valid() && old(history) <= history && Grown(old(world), world) && p !in world.callers
        invariant |rows| == i
        invariant forall k :: 0 <= k < i ==> rows[k].model == models[k] && valid(rows[k]) && rows[k] in world.jobs
        invariant forall k :: 0 <= k < i && rows[k] in old(world).reserved ==> bound(rows[k])
      {
        var job := ValidJob(listing(world.jobs), models[i], valid);
        if job.None? {
          job := ReserveJob(models[i], limit, listing, others);
          if job.None? {
            return None;
          }
          RunJob(job.value, appears(job.value), others);
          if !appears(job.value) || !valid(job.value) {
            return None;
          }
        } else if !bound(job.value) {
          return None;
        }
        rows := rows + [job.value];
        Yield(others);
      }
      RunInv(b, history, |history| - 1);
      return Some(rows);
    }
  }

  /** How a round of the reservation loop ends. */
  datatype Round = Won(job: Job) | Lost | Full(highest: nat)
}
