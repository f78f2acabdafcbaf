/**
  Crash-safe reservation of Harbor jobs: the steps of `_reserve_job` and `launch_matrix` in
  src/orbenchlab/harbor_model_matrix.py, taken by any number of processes.

  The processes share the directories `reservations` and `jobs` without a lock.  A job name is a model and an
  attempt number.  The only atomic step is the exclusive creation of a reservation file.
  */
module Reservation {
  import opened Ordering
  import opened Rounding

  type Model = string

  /** A job name: the model's prefix and the attempt number. */
  datatype Job = Job(model: Model, attempt: nat)

  // ---------------------------------------------------------------------------
  // Any number of callers
  // ---------------------------------------------------------------------------

  type Pid = nat

  /** Where a caller of `_reserve_job` is.  `floor` is what was reserved when its scan began, `lost` the number of
      its last lost race and `races` how many it has lost. */
  datatype Caller =
    | Scanning(model: Model, limit: nat, floor: set<Job>, lost: nat, races: nat)
    | Trying(model: Model, limit: nat, attempt: nat, lost: nat, races: nat)
    | Holding(job: Job)

  /** The two directories, the callers that are alive, and what has been granted and launched so far. */
  datatype World = World(
    reserved: set<Job>,
    jobs: set<Job>,
    callers: map<Pid, Caller>,
    granted: seq<(Pid, Job)>,
    launched: seq<Job>)

  /** What every caller is given: the selected models and the largest attempt cap in use. */
  datatype Bounds = Bounds(models: seq<Model>, cap: nat)

  datatype Step =
    | Begin(p: Pid, model: Model, limit: nat)
    | Scan(p: Pid, highest: nat)
    | Create(p: Pid)
    | Launch(p: Pid)
    | Appear(job: Job)
    | Crash(p: Pid)

  const EMPTY := World({}, {}, map[], [], [])

  /** A listing taken while others work: it has everything that was reserved at its start and nothing that is not
      there at its end. */
  ghost predicate ScanSees(w: World, c: Caller, highest: nat)
    requires c.Scanning?
  {
    && (highest == 0 || Job(c.model, highest) in w.reserved + w.jobs)
    && forall n: nat :: Job(c.model, n) in c.floor ==> n <= highest
  }

  ghost predicate Enabled(b: Bounds, w: World, step: Step) {
    match step
    case Begin(p, model, limit) => p !in w.callers && model in b.models && limit <= b.cap
    case Scan(p, highest) => p in w.callers && w.callers[p].Scanning? && ScanSees(w, w.callers[p], highest)
    case Create(p) => p in w.callers && w.callers[p].Trying?
    case Launch(p) => p in w.callers && w.callers[p].Holding?
    case Appear(job) => job in w.launched
    case Crash(p) => p in w.callers
  }

  ghost function After(b: Bounds, w: World, step: Step): World
    requires Enabled(b, w, step)
  {
    match step
    case Begin(p, model, limit) => w.(callers := w.callers[p := Scanning(model, limit, w.reserved, 0, 0)])
    case Scan(p, highest) =>
      var c := w.callers[p];
      if highest + 1 > c.limit
      then w.(callers := w.callers - {p})
      else w.(callers := w.callers[p := Trying(c.model, c.limit, highest + 1, c.lost, c.races)])
    case Create(p) =>
      var c := w.callers[p];
      var job := Job(c.model, c.attempt);
      if job in w.reserved
      then w.(callers := w.callers[p := Scanning(c.model, c.limit, w.reserved, c.attempt, c.races + 1)])
      else w.(reserved := w.reserved + {job},
              callers := w.callers[p := Holding(job)],
              granted := w.granted + [(p, job)])
    case Launch(p) => w.(callers := w.callers - {p}, launched := w.launched + [w.callers[p].job])
    case Appear(job) => w.(jobs := w.jobs + {job})
    case Crash(p) => w.(callers := w.callers - {p})
  }

  ghost predicate Takes(b: Bounds, w: World, step: Step, v: World) {
    Enabled(b, w, step) && v == After(b, w, step)
  }

  ghost predicate Next(b: Bounds, w: World, v: World) {
    exists step :: Takes(b, w, step, v)
  }

  ghost predicate IsRun(b: Bounds, run: seq<World>) {
    && run != [] && run[0] == EMPTY
    && forall i :: 0 < i < |run| ==> Next(b, run[i - 1], run[i])
  }

  predicate InRange(b: Bounds, job: Job) {
    job.model in b.models && 1 <= job.attempt <= b.cap
  }

  /** Every reservation belongs to a selected model, has a number from 1 to the cap, and leaves no gap below. */
  ghost predicate NumbersInRange(b: Bounds, reserved: set<Job>) {
    forall job :: job in reserved ==>
      InRange(b, job) && (job.attempt > 1 ==> Job(job.model, job.attempt - 1) in reserved)
  }

  ghost predicate GrantedOnce(granted: seq<(Pid, Job)>) {
    forall i, j :: 0 <= i < j < |granted| ==> granted[i].1 != granted[j].1
  }

  ghost predicate GrantedAre(granted: seq<(Pid, Job)>, reserved: set<Job>) {
    && (forall i :: 0 <= i < |granted| ==> granted[i].1 in reserved)
    && (forall job :: job in reserved ==> exists i :: 0 <= i < |granted| && granted[i].1 == job)
  }

  ghost predicate LaunchesPaid(w: World) {
    && (forall job :: job in w.launched ==> job in w.reserved)
    && (forall job :: job in w.jobs ==> job in w.launched)
  }

  ghost predicate CallerOk(b: Bounds, w: World, p: Pid, c: Caller) {
    match c
    case Scanning(model, limit, floor, lost, races) =>
      && model in b.models && limit <= b.cap && floor <= w.reserved
      && races <= lost && (lost == 0 || Job(model, lost) in floor)
    case Trying(model, limit, attempt, lost, races) =>
      && model in b.models && limit <= b.cap
      && races <= lost < attempt <= limit && (attempt == 1 || Job(model, attempt - 1) in w.reserved)
    case Holding(job) => job in w.reserved && job !in w.launched && (p, job) in w.granted
  }

  ghost predicate CallersOk(b: Bounds, w: World) {
    forall p :: p in w.callers ==> CallerOk(b, w, p, w.callers[p])
  }

  ghost predicate Inv(b: Bounds, w: World) {
    && NumbersInRange(b, w.reserved)
    && GrantedOnce(w.granted)
    && GrantedAre(w.granted, w.reserved)
    && Distinct(w.launched)
    && LaunchesPaid(w)
    && CallersOk(b, w)
  }

  lemma HoldersDiffer(w: World, p: Pid, q: Pid, job: Job)
    requires GrantedOnce(w.granted) && p != q && (p, job) in w.granted
    ensures (q, job) !in w.granted
  {
  }

  lemma CallersStay(b: Bounds, w: World, v: World, p: Pid)
    requires CallersOk(b, w)
    requires w.reserved <= v.reserved && w.launched == v.launched && w.granted <= v.granted
    requires forall q :: q in v.callers && q != p ==> q in w.callers && v.callers[q] == w.callers[q]
    requires p in v.callers ==> CallerOk(b, v, p, v.callers[p])
    ensures CallersOk(b, v)
  {
  }

  lemma ScanKeepsInv(b: Bounds, w: World, p: Pid, highest: nat)
    requires Inv(b, w) && Enabled(b, w, Scan(p, highest))
    ensures Inv(b, After(b, w, Scan(p, highest)))
  {
    var v := After(b, w, Scan(p, highest));
    var c := w.callers[p];
    assert CallerOk(b, w, p, c);
    if highest + 1 <= c.limit {
      assert v.callers[p] == Trying(c.model, c.limit, highest + 1, c.lost, c.races);
      assert c.lost <= highest;
    }
    CallersStay(b, w, v, p);
  }

  lemma GrantKeeps(b: Bounds, w: World, p: Pid, job: Job)
    requires GrantedOnce(w.granted) && GrantedAre(w.granted, w.reserved) && job !in w.reserved
    ensures GrantedOnce(w.granted + [(p, job)]) && GrantedAre(w.granted + [(p, job)], w.reserved + {job})
  {
    var granted := w.granted + [(p, job)];
    assert granted[|w.granted|] == (p, job);
    forall other | other in w.reserved + {job}
      ensures exists i :: 0 <= i < |granted| && granted[i].1 == other
    {
      if other != job {
        var i :| 0 <= i < |w.granted| && w.granted[i].1 == other;
        assert granted[i].1 == other;
      }
    }
  }

  lemma RangeGrows(b: Bounds, reserved: set<Job>, job: Job)
    requires NumbersInRange(b, reserved) && InRange(b, job)
    requires job.attempt > 1 ==> Job(job.model, job.attempt - 1) in reserved
    ensures NumbersInRange(b, reserved + {job})
  {
  }

  /** A won race: the file is new, and the caller holds it. */
  lemma WinKeepsInv(b: Bounds, w: World, p: Pid, v: World)
    requires Inv(b, w) && Enabled(b, w, Create(p)) && v == After(b, w, Create(p))
    requires Job(w.callers[p].model, w.callers[p].attempt) !in w.reserved
    ensures Inv(b, v)
  {
    var c := w.callers[p];
    var job := Job(c.model, c.attempt);
    assert CallerOk(b, w, p, c);
    RangeGrows(b, w.reserved, job);
    GrantKeeps(b, w, p, job);
    assert LaunchesPaid(v);
    assert v.granted[|w.granted|] == (p, job);
    CallersStay(b, w, v, p);
  }

  /** A lost race: nothing is created, and the next scan starts above the number that was lost. */
  lemma LossKeepsInv(b: Bounds, w: World, p: Pid, v: World)
    requires Inv(b, w) && Enabled(b, w, Create(p)) && v == After(b, w, Create(p))
    requires Job(w.callers[p].model, w.callers[p].attempt) in w.reserved
    ensures Inv(b, v)
  {
  }

  lemma LaunchKeepsInv(b: Bounds, w: World, p: Pid)
    requires Inv(b, w) && Enabled(b, w, Launch(p))
    ensures Inv(b, After(b, w, Launch(p)))
  {
    var v := After(b, w, Launch(p));
    assert CallerOk(b, w, p, w.callers[p]);
    forall q | q in v.callers ensures CallerOk(b, v, q, v.callers[q]) {
      assert CallerOk(b, w, q, w.callers[q]);
      HoldersDiffer(w, p, q, w.callers[p].job);
    }
  }

  lemma StepKeepsInv(b: Bounds, w: World, step: Step)
    requires Inv(b, w) && Enabled(b, w, step)
    ensures Inv(b, After(b, w, step))
  {
    match step
    case Scan(p, highest) => ScanKeepsInv(b, w, p, highest);
    case Create(p) =>
      var c := w.callers[p];
      if Job(c.model, c.attempt) in w.reserved {
        LossKeepsInv(b, w, p, After(b, w, step));
      } else {
        WinKeepsInv(b, w, p, After(b, w, step));
      }
    case Launch(p) => LaunchKeepsInv(b, w, p);
    case _ =>
      var v := After(b, w, step);
      forall q | q in v.callers ensures CallerOk(b, v, q, v.callers[q]) {
        assert q in w.callers ==> CallerOk(b, w, q, w.callers[q]);
      }
  }

  /** What every run keeps, whatever the interleaving and whoever crashes. */
  lemma {:induction false} RunInv(b: Bounds, run: seq<World>, i: nat)
    requires IsRun(b, run) && i < |run|
    ensures Inv(b, run[i])
  {
    if i > 0 {
      RunInv(b, run, i - 1);
      assert Next(b, run[i - 1], run[i]);
      var step :| Takes(b, run[i - 1], step, run[i]);
      StepKeepsInv(b, run[i - 1], step);
    }
  }

  // ---------------------------------------------------------------------------
  // What follows for every run
  // ---------------------------------------------------------------------------

  function OfModel(jobs: seq<Job>, model: Model): seq<Job> {
    if jobs == [] then []
    else OfModel(jobs[..|jobs| - 1], model) + if jobs[|jobs| - 1].model == model then [jobs[|jobs| - 1]] else []
  }

  lemma {:induction false} OfModelDistinct(jobs: seq<Job>, model: Model)
    requires Distinct(jobs)
    ensures Distinct(OfModel(jobs, model))
    ensures forall job :: job in OfModel(jobs, model) <==> job in jobs && job.model == model
  {
    if jobs != [] {
      OfModelDistinct(jobs[..|jobs| - 1], model);
      assert jobs == jobs[..|jobs| - 1] + [jobs[|jobs| - 1]];
    }
  }

  /** The names one model can have. */
  function Names(model: Model, cap: nat): (names: set<Job>)
    ensures |names| <= cap
    ensures forall job :: job in names <==> job.model == model && 1 <= job.attempt <= cap
  {
    if cap == 0 then {} else Names(model, cap - 1) + {Job(model, cap)}
  }

  function AllNames(models: seq<Model>, cap: nat): set<Job> {
    if models == [] then {} else AllNames(models[1..], cap) + Names(models[0], cap)
  }

  lemma {:induction false} AllNamesHas(models: seq<Model>, cap: nat, job: Job)
    ensures job in AllNames(models, cap) <==> job.model in models && 1 <= job.attempt <= cap
  {
    if models != [] {
      AllNamesHas(models[1..], cap, job);
      assert models == [models[0]] + models[1..];
    }
  }

  lemma UnionSize(a: set<Job>, b: set<Job>)
    ensures |a + b| <= |a| + |b|
  {
  }

  lemma OneMore(n: nat, cap: nat)
    ensures (n + 1) * cap == n * cap + cap
  {
  }

  lemma {:induction false} AllNamesCount(models: seq<Model>, cap: nat)
    ensures |AllNames(models, cap)| <= |models| * cap
  {
    if models != [] {
      AllNamesCount(models[1..], cap);
      UnionSize(AllNames(models[1..], cap), Names(models[0], cap));
      OneMore(|models[1..]|, cap);
    }
  }

  lemma {:induction false} DistinctFits(jobs: seq<Job>, names: set<Job>)
    requires Distinct(jobs) && forall job :: job in jobs ==> job in names
    ensures |jobs| <= |names|
  {
    if jobs != [] {
      var last := jobs[|jobs| - 1];
      assert last in jobs;
      DistinctFits(jobs[..|jobs| - 1], names - {last});
    }
  }

  function JobsOf(granted: seq<(Pid, Job)>): (jobs: seq<Job>)
    ensures |jobs| == |granted| && forall i :: 0 <= i < |jobs| ==> jobs[i] == granted[i].1
  {
    seq(|granted|, i requires 0 <= i < |granted| => granted[i].1)
  }

  /** No two callers are ever given the same job name, every name is a selected model's with a number within the
      cap, and there are at most models times cap of them. */
  lemma GrantsAreExclusive(b: Bounds, run: seq<World>, n: nat)
    requires IsRun(b, run) && n < |run|
    ensures forall i, j :: 0 <= i < j < |run[n].granted| ==> run[n].granted[i].1 != run[n].granted[j].1
    ensures forall i :: 0 <= i < |run[n].granted| ==> InRange(b, run[n].granted[i].1)
    ensures |run[n].granted| <= |b.models| * b.cap
  {
    RunInv(b, run, n);
    forall job ensures InRange(b, job) ==> job in AllNames(b.models, b.cap) {
      AllNamesHas(b.models, b.cap, job);
    }
    AllNamesCount(b.models, b.cap);
    DistinctFits(JobsOf(run[n].granted), AllNames(b.models, b.cap));
  }

  /** A job is launched only after its name was granted, at most once in all, and at most cap times per model,
      however many callers race, crash and come back. */
  lemma LaunchesNeverExceedCap(b: Bounds, run: seq<World>, n: nat, model: Model)
    requires IsRun(b, run) && n < |run|
    ensures Distinct(run[n].launched)
    ensures forall job :: job in run[n].launched ==> job in JobsOf(run[n].granted)
    ensures |OfModel(run[n].launched, model)| <= b.cap
  {
    RunInv(b, run, n);
    var w := run[n];
    OfModelDistinct(w.launched, model);
    DistinctFits(OfModel(w.launched, model), Names(model, b.cap));
    forall job | job in w.launched ensures job in JobsOf(w.granted) {
      var i :| 0 <= i < |w.granted| && w.granted[i].1 == job;
      assert JobsOf(w.granted)[i] == job;
    }
  }

  lemma {:induction false} NothingIsRefunded(b: Bounds, run: seq<World>, i: nat, j: nat)
    requires IsRun(b, run) && i <= j < |run|
    ensures run[i].reserved <= run[j].reserved
    ensures run[i].granted <= run[j].granted
    ensures run[i].launched <= run[j].launched
    decreases j
  {
    if i < j {
      NothingIsRefunded(b, run, i, j - 1);
      assert Next(b, run[j - 1], run[j]);
      var step :| Takes(b, run[j - 1], step, run[j]);
    }
  }

  /** A lost race raises the maximum: the next scan of that caller finds at least the number it lost, which is
      above everything its last scan found, and a caller loses fewer races than the cap allows numbers. */
  lemma LostRaceRaisesMaximum(b: Bounds, run: seq<World>, n: nat, p: Pid, highest: nat)
    requires IsRun(b, run) && n < |run| && p in run[n].callers
    ensures run[n].callers[p].Scanning? && ScanSees(run[n], run[n].callers[p], highest) ==>
      highest >= run[n].callers[p].lost
    ensures run[n].callers[p].Trying? ==> run[n].callers[p].lost < run[n].callers[p].attempt
    ensures !run[n].callers[p].Holding? ==> run[n].callers[p].races <= b.cap
  {
    RunInv(b, run, n);
    var c := run[n].callers[p];
    assert CallerOk(b, run[n], p, c);
    if c.Scanning? && c.lost != 0 {
      assert InRange(b, Job(c.model, c.lost));
    }
  }

  /** The numbers of one model are handed out without gaps. */
  lemma {:induction false} NumbersHaveNoGaps(b: Bounds, run: seq<World>, n: nat, job: Job, below: nat)
    requires IsRun(b, run) && n < |run| && job in run[n].reserved && 1 <= below <= job.attempt
    ensures Job(job.model, below) in run[n].reserved
    decreases job.attempt
  {
    RunInv(b, run, n);
    if below < job.attempt {
      NumbersHaveNoGaps(b, run, n, Job(job.model, job.attempt - 1), below);
    }
  }

  // ---------------------------------------------------------------------------
  // Liability
  // ---------------------------------------------------------------------------

  /** The liability of one whole job, and of several. */
  function JobLiability(repetitions: nat, budget: real): real {
    repetitions as real * budget
  }

  function Times(n: nat, x: real): real {
    n as real * x
  }

  lemma TimesMonotone(n: nat, m: nat, x: real, y: real)
    requires n <= m && 0.0 <= x <= y
    ensures Times(n, x) <= Times(m, y)
  {
  }

  /** What has been reserved never exceeds models times repetitions times budget times cap. */
  lemma ReservedLiabilityBounded(b: Bounds, run: seq<World>, n: nat, repetitions: nat, budget: real)
    requires IsRun(b, run) && n < |run| && budget >= 0.0
    ensures Times(|run[n].granted|, JobLiability(repetitions, budget))
         <= Times(|b.models| * b.cap, JobLiability(repetitions, budget))
  {
    GrantsAreExclusive(b, run, n);
    assert JobLiability(repetitions, budget) >= 0.0;
    TimesMonotone(|run[n].granted|, |b.models| * b.cap,
                  JobLiability(repetitions, budget), JobLiability(repetitions, budget));
  }

  lemma TimesOnGrid(n: nat, k: int)
    ensures Times(n, k as real / SCALE) == (n * k) as real / SCALE
  {
  }

  lemma TimesScaled(n: nat, x: real)
    ensures Times(n, x) * SCALE == Times(n, x * SCALE)
  {
  }

  /** A reservation records its liability in millionths, rounded; `n` of them record this many. */
  function RecordedMillionths(n: nat, liability: real): int {
    n * RoundHalfEven(liability * SCALE)
  }

  /** Every reservation records its liability rounded to six places, and the receipt rounds the maximum.  What `n`
      reservations record keeps within that maximum if and only if it exceeds the exact maximum by less than half a
      millionth, or by exactly half and is even. */
  lemma RecordedLiability(n: nat, maximum: nat, liability: real)
    ensures Times(n, Round6(liability)) <= Round6(Times(maximum, liability)) <==>
      WithinHalf(RecordedMillionths(n, liability), Times(maximum, liability * SCALE))
  {
    var m := RecordedMillionths(n, liability);
    TimesOnGrid(n, RoundHalfEven(liability * SCALE));
    TimesScaled(maximum, liability);
    AtMostRounded(m, Times(maximum, liability * SCALE));
  }

  lemma TimesOrder(n: nat, x: real, y: real)
    requires n > 0
    ensures Times(n, x) <= Times(n, y) <==> x <= y
  {
  }

  /** In particular it keeps within the maximum when the rounding does not go up, which is also when it keeps within
      the exact liability of the same jobs. */
  lemma RoundedDownIsWithin(n: nat, maximum: nat, liability: real)
    requires 0 < n <= maximum && liability >= 0.0
    ensures Times(n, Round6(liability)) <= Times(n, liability) <==> Round6(liability) <= liability
    ensures Round6(liability) <= liability ==> Times(n, Round6(liability)) <= Round6(Times(maximum, liability))
  {
    var k := RoundHalfEven(liability * SCALE);
    TimesOrder(n, Round6(liability), liability);
    RecordedLiability(n, maximum, liability);
    if Round6(liability) <= liability {
      assert RecordedMillionths(n, liability) as real == Times(n, k as real);
      TimesMonotone(n, maximum, k as real, liability * SCALE);
    }
  }

  /** The same for what the reservations of a run record, against the maximum that the receipt states. */
  lemma RunRecordsWithinReceipt(b: Bounds, run: seq<World>, i: nat, liability: real)
    requires IsRun(b, run) && i < |run| && liability >= 0.0
    ensures
      var n, maximum := |run[i].granted|, |b.models| * b.cap;
      var within := Times(n, Round6(liability)) <= Round6(Times(maximum, liability));
      && (within <==> WithinHalf(RecordedMillionths(n, liability), Times(maximum, liability * SCALE)))
      // and it keeps within in every run if it does when every name has been granted
      && (WithinHalf(RecordedMillionths(maximum, liability), Times(maximum, liability * SCALE)) ==> within)
  {
    var n, maximum := |run[i].granted|, |b.models| * b.cap;
    GrantsAreExclusive(b, run, i);
    RecordedLiability(n, maximum, liability);
    RecordedLiability(maximum, maximum, liability);
    assert RoundHalfEven(liability * SCALE) >= 0;
    TimesMonotone(n, maximum, Round6(liability), Round6(liability));
  }

  // ---------------------------------------------------------------------------
  // The recorded figures do exceed the receipt
  // ---------------------------------------------------------------------------

  const ONE_MODEL := Bounds(["m"], 2)

  /** Two callers reserve the two jobs of one model, one after the other. */
  function BothGranted(): seq<World> {
    var one, two := Job("m", 1), Job("m", 2);
    var first := World({one}, {}, map[0 := Holding(one)], [(0, one)], []);
    [EMPTY,
     EMPTY.(callers := map[0 := Scanning("m", 2, {}, 0, 0)]),
     EMPTY.(callers := map[0 := Trying("m", 2, 1, 0, 0)]),
     first,
     first.(callers := map[0 := Holding(one), 1 := Scanning("m", 2, {one}, 0, 0)]),
     first.(callers := map[0 := Holding(one), 1 := Trying("m", 2, 2, 0, 0)]),
     World({one, two}, {}, map[0 := Holding(one), 1 := Holding(two)], [(0, one), (1, two)], [])]
  }

  lemma BothGrantedIsRun()
    ensures IsRun(ONE_MODEL, BothGranted())
  {
    var run := BothGranted();
    assert Takes(ONE_MODEL, run[0], Begin(0, "m", 2), run[1]);
    assert Takes(ONE_MODEL, run[1], Scan(0, 0), run[2]);
    assert Takes(ONE_MODEL, run[2], Create(0), run[3]);
    assert Takes(ONE_MODEL, run[3], Begin(1, "m", 2), run[4]);
    assert Takes(ONE_MODEL, run[4], Scan(1, 1), run[5]);
    assert Takes(ONE_MODEL, run[5], Create(1), run[6]);
  }

  /** With a liability of 0.0000007 a job, two reservations of that run record 0.000002 while the receipt states a
      maximum of 0.000001. */
  lemma RecordedCanExceedReceipt()
    ensures IsRun(ONE_MODEL, BothGranted())
    ensures
      var granted, maximum := |BothGranted()[6].granted|, |ONE_MODEL.models| * ONE_MODEL.cap;
      && granted == maximum
      && Times(granted, Round6(0.0000007)) == 0.000002
      && Round6(Times(maximum, 0.0000007)) == 0.000001
  {
    BothGrantedIsRun();
  }
}
