/**
  The resumable controller of src/orbenchlab/agentic_factory.py: the persisted run, the loader's checks,
  crash recovery, and the loop of `_run_factory_locked`.

  Every write of a file is atomic, so the state of the system is what is on disk plus how far the one
  controller that holds the lock has come.  Its memory always equals the persisted run, except between
  an attempt receipt and the run that records it.  A crash may happen between any two writes.
  */
module FactoryRun {
  import opened Options
  import opened FactoryGraph
  import opened Ordering
  import opened Paths
  import P = FactoryPlan

  /** `ids` in plan order, with the specification of each stage, and the input directory if there is a workspace
      manifest. */
  datatype Plan = Plan(ids: seq<Id>, specs: map<Id, P.Stage>, input: Option<Path>)

  function PlanOf(stages: seq<P.Stage>, input: Option<Path>): Plan
    requires P.UniqueIds(stages)
  {
    Plan(seq(|stages|, i requires 0 <= i < |stages| => stages[i].id),
         map i | 0 <= i < |stages| :: stages[i].id := stages[i],
         input)
  }

  function Dependencies(plan: Plan): Graph {
    map id | id in plan.specs :: plan.specs[id].dependsOn
  }

  ghost predicate WellFormed(plan: Plan) {
    && Visits(plan, plan.ids)
    && (forall id :: id in plan.specs ==> plan.specs[id].maxAttempts >= 1)
  }

  /** The dependencies have a topological order, as `_assert_acyclic` ensures. */
  ghost predicate Orderly(plan: Plan) {
    HasOrder(Dependencies(plan))
  }

  // ---------------------------------------------------------------------------
  // Files
  // ---------------------------------------------------------------------------

  type Artifact = string

  /** An attempt receipt.  A completed attempt has no `failure`. */
  datatype Receipt = Receipt(stage: Id, attempt: nat, failure: Option<string>, artifacts: seq<Artifact>,
                             retrySafe: bool, budget: real)

  /** A digest determines what it was computed from. */
  datatype Digest<T> = DigestOf(content: T)

  datatype Summary = Summary(attempt: nat, completed: bool, receipt: (Id, nat), digest: Digest<Receipt>)

  datatype Status = Pending | Running | Completed | Failed

  datatype StageState = StageState(status: Status, attempts: seq<Summary>, artifacts: seq<Artifact>)

  datatype RunStatus = Active | SemanticComplete | Quarantined

  datatype Quarantine = Quarantine(stage: Id, failure: Option<string>, receipt: (Id, nat))

  datatype Run = Run(status: RunStatus, stages: map<Id, StageState>, quarantine: Option<Quarantine>,
                     completion: Option<Digest<map<Id, StageState>>>)

  /** `stages/<id>/attempt-<n>.json`. */
  type Receipts = map<(Id, nat), Receipt>

  datatype Disk = Disk(run: Option<Run>, receipts: Receipts)

  // ---------------------------------------------------------------------------
  // _load_run and _validate_run_chain
  // ---------------------------------------------------------------------------

  ghost predicate StatusOk(run: Run) {
    match run.status
    case SemanticComplete =>
      && (forall id :: id in run.stages ==> run.stages[id].status == Completed)
      && run.completion == Some(DigestOf(run.stages)) && run.quarantine == None
    case Quarantined =>
      && run.completion == None && run.quarantine.Some?
      && (forall id :: id in run.stages ==> (run.stages[id].status == Failed <==> id == run.quarantine.value.stage))
      && run.quarantine.value.stage in run.stages
    case Active =>
      && (forall id :: id in run.stages ==> run.stages[id].status != Failed)
      && run.completion == None && run.quarantine == None
  }

  /** The summary of attempt `n` matches its receipt file. */
  ghost predicate LinkOk(id: Id, n: nat, summary: Summary, receipts: Receipts) {
    && (id, n) in receipts
    && summary == SummaryOf(id, n, receipts[(id, n)])
    && summary.digest.content.stage == id && summary.digest.content.attempt == n
  }

  function Last(attempts: seq<Summary>): Summary
    requires attempts != []
  {
    attempts[|attempts| - 1]
  }

  ghost predicate ChainOk(id: Id, state: StageState, receipts: Receipts) {
    && (forall i :: 0 <= i < |state.attempts| ==> LinkOk(id, i + 1, state.attempts[i], receipts))
    && (state.status == Completed ==>
          && state.attempts != [] && Last(state.attempts).completed
          && state.artifacts == Last(state.attempts).digest.content.artifacts)
    && (state.status == Failed ==> state.attempts != [] && !Last(state.attempts).completed)
  }

  ghost predicate SameStages(plan: Plan, run: Run) {
    forall id :: id in run.stages <==> id in plan.specs
  }

  /** The loader accepts the persisted run. */
  ghost predicate LoadOk(plan: Plan, run: Run, receipts: Receipts) {
    && SameStages(plan, run)
    && StatusOk(run)
    && ChainsOk(run, receipts)
  }

  ghost predicate ChainsOk(run: Run, receipts: Receipts) {
    forall id :: id in run.stages ==> ChainOk(id, run.stages[id], receipts)
  }

  // ---------------------------------------------------------------------------
  // The updates of the run
  // ---------------------------------------------------------------------------

  function NewRun(plan: Plan): Run {
    Run(Active, map id | id in plan.specs :: StageState(Pending, [], []), None, None)
  }

  function SummaryOf(id: Id, attempt: nat, receipt: Receipt): Summary {
    Summary(attempt, receipt.failure.None?, (id, attempt), DigestOf(receipt))
  }

  function SetStage(run: Run, id: Id, state: StageState): Run {
    run.(stages := run.stages[id := state])
  }

  /** `state["status"] = "running"`. */
  function Begin(run: Run, id: Id): Run
    requires id in run.stages
  {
    SetStage(run, id, run.stages[id].(status := Running))
  }

  /** Attach `receipt` to the stage.  `final` says that a failure ends the run. */
  function Attach(run: Run, id: Id, receipt: Receipt, final: bool): Run
    requires id in run.stages
  {
    var state := run.stages[id];
    var attempt := |state.attempts| + 1;
    var attempts := state.attempts + [SummaryOf(id, attempt, receipt)];
    if receipt.failure.None? then
      SetStage(run, id, StageState(Completed, attempts, receipt.artifacts))
    else if final then
      SetStage(run, id, StageState(Failed, attempts, state.artifacts))
        .(status := Quarantined, quarantine := Some(Quarantine(id, receipt.failure, (id, attempt))))
    else
      SetStage(run, id, StageState(Pending, attempts, state.artifacts))
  }

  predicate LastAttempt(plan: Plan, run: Run, id: Id)
    requires id in run.stages && id in plan.specs
  {
    |run.stages[id].attempts| + 1 >= plan.specs[id].maxAttempts
  }

  /** What the running controller writes after the receipt (lines 1473-1494). */
  function Record(plan: Plan, run: Run, id: Id, receipt: Receipt): Run
    requires id in run.stages && id in plan.specs
  {
    Attach(run, id, receipt, !receipt.retrySafe || LastAttempt(plan, run, id))
  }

  /** What a restarted controller makes of one stage (lines 757-796). */
  function ReconcileStage(plan: Plan, run: Run, receipts: Receipts, id: Id): (recovered: Run)
    requires id in run.stages && id in plan.specs
    ensures forall id :: id in recovered.stages <==> id in run.stages
  {
    var state := run.stages[id];
    var key := (id, |state.attempts| + 1);
    if state.status !in {Pending, Running} then run
    else if key !in receipts then
      if state.status == Running then SetStage(run, id, state.(status := Pending)) else run
    else
      Attach(run, id, receipts[key], LastAttempt(plan, run, id))
  }

  /** `_reconcile_orphan_attempts` over the stages in the order `ids`. */
  function Reconcile(plan: Plan, run: Run, receipts: Receipts, ids: seq<Id>): (recovered: Run)
    requires forall id :: id in ids ==> id in run.stages && id in plan.specs
    ensures forall id :: id in recovered.stages <==> id in run.stages
  {
    if ids == [] then run
    else
      ReconcileStage(plan, Reconcile(plan, run, receipts, ids[..|ids| - 1]), receipts, ids[|ids| - 1])
  }

  predicate IsReady(plan: Plan, run: Run, id: Id) {
    && id in run.stages && id in plan.specs
    && run.stages[id].status == Pending
    && forall d :: d in plan.specs[id].dependsOn ==> d in run.stages && run.stages[d].status == Completed
  }

  /** `ready_stages`, in plan order. */
  function ReadyStages(plan: Plan, run: Run, ids: seq<Id>): (ready: seq<Id>)
    ensures forall id :: id in ready <==> id in ids && IsReady(plan, run, id)
  {
    if ids == [] then []
    else (if IsReady(plan, run, ids[0]) then [ids[0]] else []) + ReadyStages(plan, run, ids[1..])
  }

  predicate AllCompleted(run: Run) {
    forall id :: id in run.stages ==> run.stages[id].status == Completed
  }

  function Finalise(run: Run): Run {
    run.(status := SemanticComplete, completion := Some(DigestOf(run.stages)))
  }

  // ---------------------------------------------------------------------------
  // The system: one write at a time, and crashes
  // ---------------------------------------------------------------------------

  /** No controller; a controller between two attempts; one whose attempt runs; one that has written the
      receipt but not yet the run. */
  datatype Phase = Down | Idle | Attempting(id: Id) | Receipted(id: Id, receipt: Receipt)

  datatype System = System(disk: Disk, phase: Phase)

  const INITIAL := System(Disk(None, map[]), Down)

  /** The order in which a restarted controller visits the stages is that of its JSON file. */
  ghost predicate Start(plan: Plan, s: System, s': System) {
    && s.phase == Down && s'.phase == Idle && s'.disk.receipts == s.disk.receipts
    && match s.disk.run
       case None => s'.disk.run == Some(NewRun(plan))
       case Some(run) =>
         && LoadOk(plan, run, s.disk.receipts)
         && s'.disk.run.Some? && RecoversTo(plan, run, s.disk.receipts, s'.disk.run.value)
         && ChainsOk(s'.disk.run.value, s.disk.receipts)
  }

  /** `ids` visits every stage once. */
  ghost predicate Visits(plan: Plan, ids: seq<Id>) {
    Distinct(ids) && forall id :: id in ids <==> id in plan.specs
  }

  ghost predicate RecoversTo(plan: Plan, run: Run, receipts: Receipts, recovered: Run)
    requires SameStages(plan, run)
  {
    exists ids: seq<Id> :: Visits(plan, ids) && recovered == Reconcile(plan, run, receipts, ids)
  }

  ghost predicate BeginAttempt(plan: Plan, s: System, s': System) {
    && s.phase == Idle && s.disk.run.Some? && s.disk.run.value.status == Active
    && var run := s.disk.run.value;
       var ready := ReadyStages(plan, run, plan.ids);
       && ready != [] && IsReady(plan, run, ready[0])
       && s' == System(s.disk.(run := Some(Begin(run, ready[0]))), Attempting(ready[0]))
  }

  /** The receipt that the attempt at `id` may write: the outcome is up to the session, but an attempt only counts as
      completed if what the session left in the workspace allows it. */
  ghost predicate ReceiptFor(plan: Plan, run: Run, id: Id, receipt: Receipt) {
    && id in run.stages && id in plan.specs
    && receipt.stage == id && receipt.attempt == |run.stages[id].attempts| + 1
    && receipt.budget == plan.specs[id].maxBudgetUsd
    && (receipt.failure.None? ==> receipt.retrySafe && P.CanComplete(plan.specs[id], plan.input))
    && (receipt.failure.Some? ==> receipt.artifacts == [])
  }

  ghost predicate WriteReceipt(plan: Plan, s: System, s': System) {
    && s.phase.Attempting? && s.disk.run.Some? && s'.phase.Receipted? && s'.phase.id == s.phase.id
    && var key := (s'.phase.id, s'.phase.receipt.attempt);
       && ReceiptFor(plan, s.disk.run.value, s.phase.id, s'.phase.receipt)
       && key !in s.disk.receipts
       && s'.disk == s.disk.(receipts := s.disk.receipts[key := s'.phase.receipt])
  }

  ghost predicate Commit(plan: Plan, s: System, s': System) {
    && s.phase.Receipted? && s.disk.run.Some?
    && s.phase.id in s.disk.run.value.stages && s.phase.id in plan.specs
    && s' == System(s.disk.(run := Some(Record(plan, s.disk.run.value, s.phase.id, s.phase.receipt))), Idle)
  }

  ghost predicate Finish(plan: Plan, s: System, s': System) {
    && s.phase == Idle && s.disk.run.Some? && s.disk.run.value.status == Active && AllCompleted(s.disk.run.value)
    && s' == s.(disk := s.disk.(run := Some(Finalise(s.disk.run.value))))
  }

  /** A crash, an uncaught error, a checkpoint or a normal return: the controller is gone. */
  ghost predicate Stop(s: System, s': System) {
    s' == s.(phase := Down)
  }

  ghost predicate Next(plan: Plan, s: System, s': System) {
    || Start(plan, s, s') || BeginAttempt(plan, s, s') || WriteReceipt(plan, s, s')
    || Commit(plan, s, s') || Finish(plan, s, s') || Stop(s, s')
  }

  /** A run of the system, with any number of crashes and restarts. */
  ghost predicate IsRun(plan: Plan, trace: seq<System>) {
    && trace != [] && trace[0] == INITIAL
    && forall i :: 0 <= i < |trace| - 1 ==> Next(plan, trace[i], trace[i + 1])
  }

  // ---------------------------------------------------------------------------
  // The invariant
  // ---------------------------------------------------------------------------

  /** What holds of the record of one stage in every reachable state. */
  ghost predicate StageOk(spec: P.Stage, id: Id, state: StageState, receipts: Receipts) {
    && ChainOk(id, state, receipts)
    && |state.attempts| <= spec.maxAttempts
    && (forall i :: 0 <= i < |state.attempts| ==> state.attempts[i].digest.content.budget == spec.maxBudgetUsd)
    && (forall i :: 0 <= i < |state.attempts| - 1 ==> !state.attempts[i].completed)
    && (state.status in {Pending, Running} ==>
          |state.attempts| < spec.maxAttempts && (state.attempts != [] ==> !Last(state.attempts).completed))
    && (state.status != Completed ==> state.artifacts == [])
  }

  /** Every dependency of the stage is completed. */
  ghost predicate Unblocked(plan: Plan, run: Run, id: Id)
    requires id in plan.specs
  {
    forall d :: d in plan.specs[id].dependsOn ==> d in run.stages && run.stages[d].status == Completed
  }

  /** What holds of one stage within the run; only stages with completed dependencies have been tried. */
  ghost predicate Good(plan: Plan, run: Run, receipts: Receipts, running: Option<Id>, id: Id) {
    && id in run.stages && id in plan.specs
    && StageOk(plan.specs[id], id, run.stages[id], receipts)
    && (run.stages[id].status != Pending || run.stages[id].attempts != [] ==> Unblocked(plan, run, id))
    && (run.stages[id].status == Running <==> running == Some(id))
  }

  /** The file is the receipt of a recorded attempt, or the one orphan. */
  ghost predicate Accounted(run: Run, key: (Id, nat), orphan: Option<Id>) {
    && key.0 in run.stages && 1 <= key.1
    && key.1 <= |run.stages[key.0].attempts| + (if orphan == Some(key.0) then 1 else 0)
  }

  /** The receipt of an attempt that the run does not record yet. */
  ghost predicate IsOrphan(plan: Plan, run: Run, receipts: Receipts, id: Id, receipt: Receipt) {
    && ReceiptFor(plan, run, id, receipt)
    && (id, receipt.attempt) in receipts && receipts[(id, receipt.attempt)] == receipt
  }

  /** `running` is the stage whose status is "running", if any; `orphan` is that stage or none. */
  ghost predicate RunOk(plan: Plan, run: Run, receipts: Receipts, running: Option<Id>, orphan: Option<Receipt>) {
    && SameStages(plan, run)
    && StatusOk(run)
    && (forall id :: id in run.stages ==> Good(plan, run, receipts, running, id))
    && (running.Some? ==> running.value in run.stages && run.status == Active)
    && (orphan.Some? ==> running == Some(orphan.value.stage)
                         && IsOrphan(plan, run, receipts, orphan.value.stage, orphan.value))
    && (forall key :: key in receipts ==>
          Accounted(run, key, if orphan.Some? then Some(orphan.value.stage) else None))
  }

  ghost predicate Inv(plan: Plan, s: System) {
    match s.disk.run
    case None => s.disk.receipts == map[] && s.phase == Down
    case Some(run) =>
      match s.phase
      case Idle => RunOk(plan, run, s.disk.receipts, None, None)
      case Attempting(id) => RunOk(plan, run, s.disk.receipts, Some(id), None)
      case Receipted(id, receipt) => receipt.stage == id && RunOk(plan, run, s.disk.receipts, Some(id), Some(receipt))
      case Down => exists running, orphan :: RunOk(plan, run, s.disk.receipts, running, orphan)
  }

  lemma NewRunOk(plan: Plan)
    requires WellFormed(plan)
    ensures RunOk(plan, NewRun(plan), map[], None, None)
  {
  }

  /** Nothing that was completed is lost, and no receipt. */
  ghost predicate Extends(run: Run, receipts: Receipts, run': Run, receipts': Receipts) {
    && (forall d :: d in run.stages && run.stages[d].status == Completed ==>
          d in run'.stages && run'.stages[d].status == Completed)
    && (forall key :: key in receipts ==> key in receipts' && receipts'[key] == receipts[key])
  }

  lemma GoodFrame(plan: Plan, run: Run, receipts: Receipts, running: Option<Id>,
                  run': Run, receipts': Receipts, running': Option<Id>, id: Id)
    requires Good(plan, run, receipts, running, id) && Extends(run, receipts, run', receipts')
    requires id in run'.stages && run'.stages[id] == run.stages[id]
    requires running == Some(id) <==> running' == Some(id)
    ensures Good(plan, run', receipts', running', id)
  {
  }

  lemma BeginOk(plan: Plan, run: Run, receipts: Receipts, id: Id)
    requires RunOk(plan, run, receipts, None, None) && run.status == Active && IsReady(plan, run, id)
    ensures RunOk(plan, Begin(run, id), receipts, Some(id), None)
  {
    var run' := Begin(run, id);
    forall i | i in run'.stages
      ensures Good(plan, run', receipts, Some(id), i)
    {
      assert Good(plan, run, receipts, None, i);
      if i != id {
        GoodFrame(plan, run, receipts, None, run', receipts, Some(id), i);
      }
    }
    StillAccounted(run, run', receipts);
  }

  lemma StillAccounted(run: Run, run': Run, receipts: Receipts)
    requires forall key :: key in receipts ==> Accounted(run, key, None)
    requires forall id :: id in run.stages ==> id in run'.stages && run'.stages[id].attempts == run.stages[id].attempts
    ensures forall key :: key in receipts ==> Accounted(run', key, None)
  {
  }

  lemma ReceiptOk(plan: Plan, run: Run, receipts: Receipts, id: Id, receipt: Receipt)
    requires RunOk(plan, run, receipts, Some(id), None) && ReceiptFor(plan, run, id, receipt)
    ensures (id, receipt.attempt) !in receipts
    ensures RunOk(plan, run, receipts[(id, receipt.attempt) := receipt], Some(id), Some(receipt))
  {
    var receipts' := receipts[(id, receipt.attempt) := receipt];
    assert (id, receipt.attempt) in receipts ==> Accounted(run, (id, receipt.attempt), None);
    forall i | i in run.stages
      ensures Good(plan, run, receipts', Some(id), i)
    {
      GoodFrame(plan, run, receipts, Some(id), run, receipts', Some(id), i);
    }
    forall key | key in receipts'
      ensures Accounted(run, key, Some(id))
    {
      assert key in receipts ==> Accounted(run, key, None);
    }
  }

  lemma AttachStageOk(plan: Plan, run: Run, receipts: Receipts, id: Id, receipt: Receipt, final: bool)
    requires Good(plan, run, receipts, Some(id), id) && IsOrphan(plan, run, receipts, id, receipt)
    requires LastAttempt(plan, run, id) ==> final
    ensures Good(plan, Attach(run, id, receipt, final), receipts, None, id)
  {
    var before, after := run.stages[id], Attach(run, id, receipt, final).stages[id];
    forall i | 0 <= i < |after.attempts|
      ensures LinkOk(id, i + 1, after.attempts[i], receipts)
    {
      if i < |before.attempts| {
        assert LinkOk(id, i + 1, before.attempts[i], receipts);
      }
    }
  }

  lemma AttachOk(plan: Plan, run: Run, receipts: Receipts, id: Id, receipt: Receipt, final: bool)
    requires RunOk(plan, run, receipts, Some(id), Some(receipt)) && receipt.stage == id
    requires LastAttempt(plan, run, id) ==> final
    ensures RunOk(plan, Attach(run, id, receipt, final), receipts, None, None)
  {
    AttachStatusOk(plan, run, receipts, id, receipt, final);
    AttachStageOk(plan, run, receipts, id, receipt, final);
    AttachAccounted(run, receipts, id, receipt, final);
    AttachTouchesOne(run, id, receipt, final);
    AttachOthersOk(plan, run, receipts, id, Attach(run, id, receipt, final));
    IdleOk(plan, Attach(run, id, receipt, final), receipts);
  }

  lemma AttachTouchesOne(run: Run, id: Id, receipt: Receipt, final: bool)
    requires id in run.stages
    ensures forall i :: i in Attach(run, id, receipt, final).stages ==>
      i in run.stages && (i != id ==> Attach(run, id, receipt, final).stages[i] == run.stages[i])
  {
  }

  lemma IdleOk(plan: Plan, run: Run, receipts: Receipts)
    requires SameStages(plan, run) && StatusOk(run)
    requires forall id :: id in run.stages ==> Good(plan, run, receipts, None, id)
    requires forall key :: key in receipts ==> Accounted(run, key, None)
    ensures RunOk(plan, run, receipts, None, None)
  {
  }

  lemma AttachOthersOk(plan: Plan, run: Run, receipts: Receipts, id: Id, run': Run)
    requires forall i :: i in run.stages ==> Good(plan, run, receipts, Some(id), i)
    requires Extends(run, receipts, run', receipts) && Good(plan, run', receipts, None, id)
    requires forall i :: i in run'.stages ==> i in run.stages && (i != id ==> run'.stages[i] == run.stages[i])
    ensures forall i :: i in run'.stages ==> Good(plan, run', receipts, None, i)
  {
  }

  lemma AttachStatusOk(plan: Plan, run: Run, receipts: Receipts, id: Id, receipt: Receipt, final: bool)
    requires RunOk(plan, run, receipts, Some(id), Some(receipt)) && receipt.stage == id
    ensures
      var run' := Attach(run, id, receipt, final);
      StatusOk(run') && SameStages(plan, run') && Extends(run, receipts, run', receipts)
    ensures Good(plan, run, receipts, Some(id), id) && IsOrphan(plan, run, receipts, id, receipt)
  {
    assert Good(plan, run, receipts, Some(id), id);
  }

  lemma AttachAccounted(run: Run, receipts: Receipts, id: Id, receipt: Receipt, final: bool)
    requires id in run.stages && forall key :: key in receipts ==> Accounted(run, key, Some(id))
    ensures forall key :: key in receipts ==> Accounted(Attach(run, id, receipt, final), key, None)
  {
  }

  /** A running stage without a receipt goes back to pending. */
  lemma ResetOk(plan: Plan, run: Run, receipts: Receipts, id: Id)
    requires RunOk(plan, run, receipts, Some(id), None)
    ensures RunOk(plan, SetStage(run, id, run.stages[id].(status := Pending)), receipts, None, None)
  {
    var run' := SetStage(run, id, run.stages[id].(status := Pending));
    assert Good(plan, run, receipts, Some(id), id);
    forall i | i in run'.stages
      ensures Good(plan, run', receipts, None, i)
    {
      if i != id {
        GoodFrame(plan, run, receipts, Some(id), run', receipts, None, i);
      }
    }
    StillAccounted(run, run', receipts);
  }

  // ---------------------------------------------------------------------------
  // Recovery
  // ---------------------------------------------------------------------------

  /** What recovery does to a run of which at most one stage was running. */
  function Recovered(plan: Plan, run: Run, running: Option<Id>, orphan: Option<Receipt>): Run
    requires running.Some? ==> running.value in run.stages && running.value in plan.specs
  {
    match running
    case None => run
    case Some(id) =>
      if orphan.None? then SetStage(run, id, run.stages[id].(status := Pending))
      else Attach(run, id, orphan.value, LastAttempt(plan, run, id))
  }

  /** Recovery has nothing to do at this stage. */
  ghost predicate AtRest(receipts: Receipts, id: Id, state: StageState) {
    state.status != Running && (state.status == Pending ==> (id, |state.attempts| + 1) !in receipts)
  }

  lemma OthersAtRest(plan: Plan, run: Run, receipts: Receipts, running: Option<Id>, orphan: Option<Receipt>, id: Id)
    requires RunOk(plan, run, receipts, running, orphan) && id in run.stages && running != Some(id)
    ensures AtRest(receipts, id, run.stages[id])
  {
  }

  lemma RunningStageRecovers(plan: Plan, run: Run, receipts: Receipts, id: Id, orphan: Option<Receipt>)
    requires RunOk(plan, run, receipts, Some(id), orphan)
    ensures id in plan.specs && ReconcileStage(plan, run, receipts, id) == Recovered(plan, run, Some(id), orphan)
  {
    var key := (id, |run.stages[id].attempts| + 1);
    assert Good(plan, run, receipts, Some(id), id);
    assert orphan.None? && key in receipts ==> Accounted(run, key, None);
  }

  /** In whatever order the stages are visited, only the unsettled one is touched. */
  lemma {:induction false} ReconcileIs(plan: Plan, run: Run, receipts: Receipts, running: Option<Id>, recovered: Run,
                                       ids: seq<Id>)
    requires SameStages(plan, run) && Distinct(ids) && forall id :: id in ids ==> id in plan.specs
    requires forall id :: id in run.stages && running != Some(id) ==> AtRest(receipts, id, run.stages[id])
    requires forall id :: id in run.stages && running != Some(id) ==>
      id in recovered.stages && recovered.stages[id] == run.stages[id]
    requires running.Some? ==>
      running.value in run.stages && ReconcileStage(plan, run, receipts, running.value) == recovered
    ensures Reconcile(plan, run, receipts, ids)
      == if running.Some? && running.value in ids then recovered else run
  {
    if ids != [] {
      var init, last := ids[..|ids| - 1], ids[|ids| - 1];
      ReconcileIs(plan, run, receipts, running, recovered, init);
      assert ids == init + [last];
      assert last in run.stages;
    }
  }

  /** Recovery restores the invariant of an idle controller. */
  lemma RecoveryOk(plan: Plan, run: Run, receipts: Receipts, running: Option<Id>, orphan: Option<Receipt>)
    requires RunOk(plan, run, receipts, running, orphan)
    ensures RunOk(plan, Recovered(plan, run, running, orphan), receipts, None, None)
  {
    if running.Some? && orphan.Some? {
      AttachOk(plan, run, receipts, running.value, orphan.value, LastAttempt(plan, run, running.value));
    } else if running.Some? {
      ResetOk(plan, run, receipts, running.value);
    }
  }

  lemma RunOkLoads(plan: Plan, run: Run, receipts: Receipts, running: Option<Id>, orphan: Option<Receipt>)
    requires RunOk(plan, run, receipts, running, orphan)
    ensures LoadOk(plan, run, receipts)
  {
  }

  lemma OthersUntouched(plan: Plan, run: Run, receipts: Receipts, running: Option<Id>, orphan: Option<Receipt>)
    requires RunOk(plan, run, receipts, running, orphan)
    ensures forall id :: id in run.stages && running != Some(id) ==> AtRest(receipts, id, run.stages[id])
    ensures running.Some? ==>
      && running.value in plan.specs
      && ReconcileStage(plan, run, receipts, running.value) == Recovered(plan, run, running, orphan)
  {
    if running.Some? {
      RunningStageRecovers(plan, run, receipts, running.value, orphan);
    }
    forall id | id in run.stages && running != Some(id)
      ensures AtRest(receipts, id, run.stages[id])
    {
      OthersAtRest(plan, run, receipts, running, orphan, id);
    }
  }

  /** Whatever the order of the visit, there is one run that recovery leads to. */
  lemma RecoversUniquely(plan: Plan, run: Run, receipts: Receipts, running: Option<Id>, orphan: Option<Receipt>)
    requires WellFormed(plan) && RunOk(plan, run, receipts, running, orphan)
    ensures forall r :: RecoversTo(plan, run, receipts, r) <==> r == Recovered(plan, run, running, orphan)
  {
    var recovered := Recovered(plan, run, running, orphan);
    OthersUntouched(plan, run, receipts, running, orphan);
    forall ids | Visits(plan, ids)
      ensures Reconcile(plan, run, receipts, ids) == recovered
    {
      ReconcileIs(plan, run, receipts, running, recovered, ids);
    }
    assert Visits(plan, plan.ids);
    assert RecoversTo(plan, run, receipts, recovered);
  }

  lemma RestartAllowed(plan: Plan, run: Run, receipts: Receipts, running: Option<Id>, orphan: Option<Receipt>)
    requires RunOk(plan, run, receipts, running, orphan)
    ensures LoadOk(plan, run, receipts) && ChainsOk(Recovered(plan, run, running, orphan), receipts)
  {
    RecoveryOk(plan, run, receipts, running, orphan);
    RunOkLoads(plan, run, receipts, running, orphan);
    RunOkLoads(plan, Recovered(plan, run, running, orphan), receipts, None, None);
  }

  /** After a crash a restart is never refused, and it leads to one run whatever the order of the visit. */
  lemma RestartRecovers(plan: Plan, run: Run, receipts: Receipts, running: Option<Id>, orphan: Option<Receipt>,
                        s': System)
    requires WellFormed(plan) && RunOk(plan, run, receipts, running, orphan)
    ensures Start(plan, System(Disk(Some(run), receipts), Down), s') <==>
      s' == System(Disk(Some(Recovered(plan, run, running, orphan)), receipts), Idle)
  {
    RecoversUniquely(plan, run, receipts, running, orphan);
    RestartAllowed(plan, run, receipts, running, orphan);
  }

  // ---------------------------------------------------------------------------
  // Every run of the system
  // ---------------------------------------------------------------------------

  lemma StartInv(plan: Plan, s: System, s': System)
    requires WellFormed(plan) && Inv(plan, s) && Start(plan, s, s')
    ensures Inv(plan, s')
  {
    if s.disk.run.None? {
      NewRunOk(plan);
    } else {
      var run, receipts := s.disk.run.value, s.disk.receipts;
      var running, orphan :| RunOk(plan, run, receipts, running, orphan);
      RestartRecovers(plan, run, receipts, running, orphan, s');
      RecoveryOk(plan, run, receipts, running, orphan);
    }
  }

  lemma FinishInv(plan: Plan, s: System, s': System)
    requires WellFormed(plan) && Inv(plan, s) && Finish(plan, s, s')
    ensures Inv(plan, s')
  {
    var run, receipts := s.disk.run.value, s.disk.receipts;
    forall id | id in run.stages
      ensures Good(plan, Finalise(run), receipts, None, id)
    {
      GoodFrame(plan, run, receipts, None, Finalise(run), receipts, None, id);
    }
    forall key | key in receipts
      ensures Accounted(Finalise(run), key, None)
    {
      assert Accounted(run, key, None);
    }
  }

  lemma StopInv(plan: Plan, s: System, s': System)
    requires Inv(plan, s) && Stop(s, s')
    ensures Inv(plan, s')
  {
  }

  lemma CommitInv(plan: Plan, s: System, s': System)
    requires WellFormed(plan) && Inv(plan, s) && Commit(plan, s, s')
    ensures Inv(plan, s')
  {
    var run, receipt := s.disk.run.value, s.phase.receipt;
    AttachOk(plan, run, s.disk.receipts, s.phase.id, receipt, !receipt.retrySafe || LastAttempt(plan, run, s.phase.id));
  }

  lemma NextInv(plan: Plan, s: System, s': System)
    requires WellFormed(plan) && Inv(plan, s) && Next(plan, s, s')
    ensures Inv(plan, s')
  {
    if Start(plan, s, s') {
      StartInv(plan, s, s');
    } else if BeginAttempt(plan, s, s') {
      var ready := ReadyStages(plan, s.disk.run.value, plan.ids);
      BeginOk(plan, s.disk.run.value, s.disk.receipts, ready[0]);
    } else if WriteReceipt(plan, s, s') {
      ReceiptOk(plan, s.disk.run.value, s.disk.receipts, s.phase.id, s'.phase.receipt);
    } else if Commit(plan, s, s') {
      CommitInv(plan, s, s');
    } else if Finish(plan, s, s') {
      FinishInv(plan, s, s');
    } else {
      StopInv(plan, s, s');
    }
  }

  lemma {:induction false} RunInv(plan: Plan, trace: seq<System>)
    requires WellFormed(plan) && IsRun(plan, trace)
    ensures Inv(plan, trace[|trace| - 1])
  {
    if |trace| > 1 {
      var init := trace[..|trace| - 1];
      RunInv(plan, init);
      assert Next(plan, trace[|trace| - 2], trace[|trace| - 2 + 1]);
      NextInv(plan, init[|init| - 1], trace[|trace| - 1]);
    }
  }

  ghost predicate Closed(plan: Plan, run: Run) {
    forall id :: id in run.stages && id in plan.specs && run.stages[id].status == Completed ==> Unblocked(plan, run, id)
  }

  ghost predicate AtMostOne(run: Run, status: Status) {
    forall a, b :: a in run.stages && b in run.stages && run.stages[a].status == run.stages[b].status == status ==>
      a == b
  }

  /** In every reachable state the persisted run loads, its completed stages are closed under dependencies,
      at most one stage is running, and it is quarantined exactly when a stage failed, which is then one. */
  lemma ReachableSafe(plan: Plan, trace: seq<System>)
    requires WellFormed(plan) && IsRun(plan, trace) && trace[|trace| - 1].disk.run.Some?
    ensures
      var disk := trace[|trace| - 1].disk;
      var run := disk.run.value;
      && LoadOk(plan, run, disk.receipts)
      && Closed(plan, run)
      && AtMostOne(run, Running) && AtMostOne(run, Failed)
      && (run.status == Quarantined <==> exists id :: id in run.stages && run.stages[id].status == Failed)
  {
    RunInv(plan, trace);
    var last := trace[|trace| - 1];
    StopInv(plan, last, last.(phase := Down));
    var running, orphan :| RunOk(plan, last.disk.run.value, last.disk.receipts, running, orphan);
    RunOkSafe(plan, last.disk.run.value, last.disk.receipts, running, orphan);
  }

  lemma RunOkSafe(plan: Plan, run: Run, receipts: Receipts, running: Option<Id>, orphan: Option<Receipt>)
    requires RunOk(plan, run, receipts, running, orphan)
    ensures LoadOk(plan, run, receipts) && Closed(plan, run)
    ensures AtMostOne(run, Running) && AtMostOne(run, Failed)
    ensures run.status == Quarantined <==> exists id :: id in run.stages && run.stages[id].status == Failed
  {
    RunOkLoads(plan, run, receipts, running, orphan);
    forall id | id in run.stages
      ensures run.stages[id].status == Completed ==> Unblocked(plan, run, id)
      ensures run.stages[id].status == Running <==> running == Some(id)
    {
      assert Good(plan, run, receipts, running, id);
    }
  }

  // ---------------------------------------------------------------------------
  // Atomicity of crash recovery
  // ---------------------------------------------------------------------------

  lemma BeginUndone(run: Run, id: Id)
    requires id in run.stages && run.stages[id].status == Pending
    ensures SetStage(Begin(run, id), id, Begin(run, id).stages[id].(status := Pending)) == run
  {
  }

  lemma BegunRecovers(plan: Plan, run: Run, receipts: Receipts, id: Id, restarted: System)
    requires WellFormed(plan) && RunOk(plan, run, receipts, None, None)
    requires run.status == Active && IsReady(plan, run, id)
    ensures Start(plan, System(Disk(Some(Begin(run, id)), receipts), Down), restarted)
      <==> restarted == System(Disk(Some(run), receipts), Idle)
  {
    BeginOk(plan, run, receipts, id);
    RestartRecovers(plan, Begin(run, id), receipts, Some(id), None, restarted);
    BeginUndone(run, id);
  }

  /** A crash before the receipt is written undoes the attempt. */
  lemma CrashBeforeReceipt(plan: Plan, before: System, begun: System, restarted: System)
    requires WellFormed(plan) && Inv(plan, before)
    requires BeginAttempt(plan, before, begun)
    ensures Start(plan, begun.(phase := Down), restarted) <==> restarted == before
  {
    BegunRecovers(plan, before.disk.run.value, before.disk.receipts, begun.phase.id, restarted);
  }

  /** A crash after the receipt is written leads to the state that the uninterrupted controller would have
      written, exactly unless the attempt failed unsafely with attempts left. */
  lemma CrashAfterReceipt(plan: Plan, s: System, committed: System, restarted: System)
    requires WellFormed(plan) && Inv(plan, s)
    requires Commit(plan, s, committed) && Start(plan, s.(phase := Down), restarted)
    ensures
      var receipt := s.phase.receipt;
      restarted == committed <==>
        receipt.failure.None? || receipt.retrySafe || LastAttempt(plan, s.disk.run.value, s.phase.id)
  {
    var run, id, receipt := s.disk.run.value, s.phase.id, s.phase.receipt;
    RestartRecovers(plan, run, s.disk.receipts, Some(id), Some(receipt), restarted);
    assert Attach(run, id, receipt, true).stages[id].status
        != Attach(run, id, receipt, false).stages[id].status || receipt.failure.None?;
  }

  // ---------------------------------------------------------------------------
  // Progress and termination
  // ---------------------------------------------------------------------------

  /** If every stage is pending or completed, one is ready or all are completed. */
  lemma ReadyOrDone(plan: Plan, run: Run, order: seq<Id>)
    requires SameStages(plan, run) && Topological(Dependencies(plan), order)
    requires forall id :: id in run.stages ==> run.stages[id].status in {Pending, Completed}
    ensures AllCompleted(run) || exists id :: IsReady(plan, run, id)
  {
    if !AllCompleted(run) {
      var i := FirstIncomplete(run, order);
      var id := order[i];
      forall d | d in plan.specs[id].dependsOn
        ensures d in run.stages && run.stages[d].status == Completed
      {
        assert id in Dependencies(plan) && d in Dependencies(plan)[id];
        var k :| 0 <= k < i && order[k] == d;
      }
      assert IsReady(plan, run, id);
    }
  }

  lemma OnlyPendingOrCompleted(plan: Plan, run: Run, receipts: Receipts)
    requires RunOk(plan, run, receipts, None, None) && run.status == Active
    ensures forall id :: id in run.stages ==> run.stages[id].status in {Pending, Completed}
  {
  }

  /** An active run with nothing running has a ready stage or is complete: it is never stuck. */
  lemma Progress(plan: Plan, trace: seq<System>)
    requires WellFormed(plan) && Orderly(plan) && IsRun(plan, trace)
    requires var s := trace[|trace| - 1]; s.phase == Idle && s.disk.run.Some? && s.disk.run.value.status == Active
    ensures var run := trace[|trace| - 1].disk.run.value; ReadyStages(plan, run, plan.ids) != [] || AllCompleted(run)
  {
    RunInv(plan, trace);
    var s := trace[|trace| - 1];
    var run := s.disk.run.value;
    OnlyPendingOrCompleted(plan, run, s.disk.receipts);
    var order :| Topological(Dependencies(plan), order);
    ReadyOrDone(plan, run, order);
    if id :| IsReady(plan, run, id) {
      assert id in ReadyStages(plan, run, plan.ids);
    }
  }

  lemma {:induction false} FirstIncomplete(run: Run, order: seq<Id>) returns (i: nat)
    requires forall id :: id in run.stages <==> id in order
    requires !AllCompleted(run)
    ensures i < |order| && run.stages[order[i]].status != Completed
    ensures forall k :: 0 <= k < i ==> run.stages[order[k]].status == Completed
  {
    var id :| id in run.stages && run.stages[id].status != Completed;
    var last :| 0 <= last < |order| && order[last] == id;
    i := 0;
    while run.stages[order[i]].status == Completed
      invariant i <= last
      invariant forall k :: 0 <= k < i ==> run.stages[order[k]].status == Completed
      decreases last - i
    {
      i := i + 1;
    }
  }

  /** Attempts that the stages `ids` may still make. */
  function Remaining(plan: Plan, run: Run, ids: seq<Id>): int
    requires forall id :: id in ids ==> id in plan.specs && id in run.stages
  {
    if ids == [] then 0
    else
      var last := ids[|ids| - 1];
      Remaining(plan, run, ids[..|ids| - 1]) + plan.specs[last].maxAttempts - |run.stages[last].attempts|
  }

  /** Recorded attempts of the stages `ids`. */
  function Recorded(run: Run, ids: seq<Id>): nat
    requires forall id :: id in ids ==> id in run.stages
  {
    if ids == [] then 0
    else Recorded(run, ids[..|ids| - 1]) + |run.stages[ids[|ids| - 1]].attempts|
  }

  function SumBudgets(attempts: seq<Summary>): real {
    if attempts == [] then 0.0
    else SumBudgets(attempts[..|attempts| - 1]) + Last(attempts).digest.content.budget
  }

  /** The budgets of all recorded attempts of the stages `ids`. */
  function Spent(run: Run, ids: seq<Id>): real
    requires forall id :: id in ids ==> id in run.stages
  {
    if ids == [] then 0.0
    else Spent(run, ids[..|ids| - 1]) + SumBudgets(run.stages[ids[|ids| - 1]].attempts)
  }

  /** Budget times attempts, summed over the stages `ids`. */
  function MaximumLiability(plan: Plan, ids: seq<Id>): real
    requires forall id :: id in ids ==> id in plan.specs
  {
    if ids == [] then 0.0
    else
      var spec := plan.specs[ids[|ids| - 1]];
      MaximumLiability(plan, ids[..|ids| - 1]) + spec.maxBudgetUsd * spec.maxAttempts as real
  }

  lemma {:induction false} RemainingBounds(plan: Plan, run: Run, receipts: Receipts, running: Option<Id>,
                                           orphan: Option<Receipt>, ids: seq<Id>)
    requires RunOk(plan, run, receipts, running, orphan) && forall id :: id in ids ==> id in plan.specs
    ensures Remaining(plan, run, ids) >= 0
  {
    if ids != [] {
      RemainingBounds(plan, run, receipts, running, orphan, ids[..|ids| - 1]);
      assert Good(plan, run, receipts, running, ids[|ids| - 1]);
    }
  }

  /** Attaching a receipt uses up one attempt. */
  lemma {:induction false} AttachCounts(plan: Plan, run: Run, id: Id, receipt: Receipt, final: bool, ids: seq<Id>)
    requires id in run.stages && Distinct(ids) && forall i :: i in ids ==> i in plan.specs && i in run.stages
    ensures
      var run' := Attach(run, id, receipt, final);
      var one := if id in ids then 1 else 0;
      && Remaining(plan, run', ids) == Remaining(plan, run, ids) - one
      && Recorded(run', ids) == Recorded(run, ids) + one
  {
    if ids != [] {
      var init, last := ids[..|ids| - 1], ids[|ids| - 1];
      assert ids == init + [last];
      AttachCounts(plan, run, id, receipt, final, init);
    }
  }

  lemma {:induction false} SumBudgetsIs(attempts: seq<Summary>, budget: real)
    requires forall i :: 0 <= i < |attempts| ==> attempts[i].digest.content.budget == budget
    ensures SumBudgets(attempts) == |attempts| as real * budget
  {
    if attempts != [] {
      SumBudgetsIs(attempts[..|attempts| - 1], budget);
    }
  }

  lemma StageBudget(spec: P.Stage, id: Id, state: StageState, receipts: Receipts)
    requires StageOk(spec, id, state, receipts) && spec.maxBudgetUsd >= 0.0
    ensures SumBudgets(state.attempts) <= spec.maxBudgetUsd * spec.maxAttempts as real
  {
    SumBudgetsIs(state.attempts, spec.maxBudgetUsd);
    Product(spec.maxBudgetUsd, |state.attempts|, spec.maxAttempts);
  }

  lemma Product(budget: real, few: int, many: int)
    requires budget >= 0.0 && few <= many
    ensures few as real * budget <= budget * many as real
  {
  }

  lemma {:induction false} SpentPerStage(plan: Plan, run: Run, receipts: Receipts, ids: seq<Id>)
    requires forall id :: id in ids ==>
      && id in plan.specs && id in run.stages
      && StageOk(plan.specs[id], id, run.stages[id], receipts) && plan.specs[id].maxBudgetUsd >= 0.0
    ensures Spent(run, ids) <= MaximumLiability(plan, ids)
  {
    if ids != [] {
      var last := ids[|ids| - 1];
      SpentPerStage(plan, run, receipts, ids[..|ids| - 1]);
      StageBudget(plan.specs[last], last, run.stages[last], receipts);
    }
  }

  /** In every state the budgets of the recorded attempts stay within the plan's liability. */
  lemma SpendingBounded(plan: Plan, run: Run, receipts: Receipts, running: Option<Id>, orphan: Option<Receipt>)
    requires WellFormed(plan) && RunOk(plan, run, receipts, running, orphan)
    requires forall id :: id in plan.specs ==> plan.specs[id].maxBudgetUsd >= 0.0
    ensures Spent(run, plan.ids) <= MaximumLiability(plan, plan.ids)
  {
    forall id | id in plan.ids
      ensures id in run.stages && StageOk(plan.specs[id], id, run.stages[id], receipts)
    {
      assert Good(plan, run, receipts, running, id);
    }
    SpentPerStage(plan, run, receipts, plan.ids);
  }

  lemma PlanSpecs(stages: seq<P.Stage>, input: Option<Path>)
    requires P.UniqueIds(stages)
    ensures forall i :: 0 <= i < |stages| ==>
      stages[i].id in PlanOf(stages, input).specs && PlanOf(stages, input).specs[stages[i].id] == stages[i]
    ensures forall id :: id in PlanOf(stages, input).specs ==> exists i :: 0 <= i < |stages| && stages[i].id == id
  {
  }

  lemma PlanVisits(stages: seq<P.Stage>, input: Option<Path>)
    requires P.UniqueIds(stages)
    ensures Visits(PlanOf(stages, input), PlanOf(stages, input).ids)
  {
    var plan := PlanOf(stages, input);
    PlanSpecs(stages, input);
    forall id | id in plan.specs
      ensures id in plan.ids
    {
      var i :| 0 <= i < |stages| && stages[i].id == id;
      assert plan.ids[i] == id;
    }
  }

  lemma PlanGraph(stages: seq<P.Stage>, input: Option<Path>)
    requires P.UniqueIds(stages)
    ensures Dependencies(PlanOf(stages, input)) == P.GraphOf(stages)
  {
    var g, h := Dependencies(PlanOf(stages, input)), P.GraphOf(stages);
    PlanSpecs(stages, input);
    forall id
      ensures id in g <==> id in h
      ensures id in g ==> g[id] == h[id]
    {
    }
  }

  lemma PlanBounds(stages: seq<P.Stage>, input: Option<Path>)
    requires P.UniqueIds(stages) && forall i :: 0 <= i < |stages| ==> P.Normal(stages[i])
    ensures forall id :: id in PlanOf(stages, input).specs ==>
      1 <= PlanOf(stages, input).specs[id].maxAttempts <= 5 && PlanOf(stages, input).specs[id].maxBudgetUsd > 0.0
  {
  }

  /** A compiled plan is well formed, and its liability is the one that the compiler bounds. */
  lemma CompiledPlan(stages: seq<P.Stage>, input: Option<Path>)
    requires P.ValidPlan(stages)
    ensures WellFormed(PlanOf(stages, input)) && Orderly(PlanOf(stages, input))
    ensures MaximumLiability(PlanOf(stages, input), PlanOf(stages, input).ids) == P.Liability(stages)
  {
    PlanVisits(stages, input);
    PlanGraph(stages, input);
    PlanBounds(stages, input);
    PlanLiability(stages, input);
  }

  ghost predicate Matches(plan: Plan, stages: seq<P.Stage>) {
    && |plan.ids| == |stages|
    && forall i :: 0 <= i < |stages| ==>
         plan.ids[i] == stages[i].id && stages[i].id in plan.specs && plan.specs[stages[i].id] == stages[i]
  }

  lemma PlanMatches(stages: seq<P.Stage>, input: Option<Path>)
    requires P.UniqueIds(stages)
    ensures Matches(PlanOf(stages, input), stages)
  {
    PlanSpecs(stages, input);
  }

  lemma MatchingLiability(plan: Plan, stages: seq<P.Stage>)
    requires Matches(plan, stages) && Visits(plan, plan.ids)
    ensures forall id :: id in plan.ids ==> id in plan.specs
    ensures MaximumLiability(plan, plan.ids) == P.Liability(stages)
  {
    LiabilityAgrees(plan, stages, |stages|);
    assert plan.ids[..|stages|] == plan.ids && stages[..|stages|] == stages;
  }

  lemma PlanLiability(stages: seq<P.Stage>, input: Option<Path>)
    requires P.UniqueIds(stages)
    ensures forall id :: id in PlanOf(stages, input).ids ==> id in PlanOf(stages, input).specs
    ensures MaximumLiability(PlanOf(stages, input), PlanOf(stages, input).ids) == P.Liability(stages)
  {
    PlanVisits(stages, input);
    PlanMatches(stages, input);
    MatchingLiability(PlanOf(stages, input), stages);
  }

  lemma {:induction false} LiabilityAgrees(plan: Plan, stages: seq<P.Stage>, n: nat)
    requires n <= |stages| && Matches(plan, stages)
    ensures MaximumLiability(plan, plan.ids[..n]) == P.Liability(stages[..n])
  {
    if n > 0 {
      LiabilityAgrees(plan, stages, n - 1);
      assert plan.ids[..n][..n - 1] == plan.ids[..n - 1] && stages[..n][..n - 1] == stages[..n - 1];
    }
  }

  // ---------------------------------------------------------------------------
  // The controller
  // ---------------------------------------------------------------------------

  /** What a session came to, with the workspace that it found and left; the artifacts count only without a failure. */
  datatype Outcome = Outcome(failure: Option<string>, before: P.Files, after: P.Files, artifacts: seq<Artifact>,
                             retrySafe: bool)

  /** Why the attempt failed, if it did: the input directory was changed, the session failed, or its outputs are not in
      order. */
  function FailureOf(spec: P.Stage, input: Option<Path>, outcome: Outcome): (failure: Option<string>)
    ensures failure.None? <==> outcome.failure.None? && P.MayComplete(spec, input, outcome.before, outcome.after)
    ensures failure.None? ==> P.CanComplete(spec, input)
  {
    if !P.InputUntouched(input, outcome.before, outcome.after) then Some("session_contract_failure")
    else if outcome.failure.Some? then outcome.failure
    else if !P.OutputsWritten(spec, outcome.before, outcome.after) then Some("session_contract_failure")
    else
      assert P.MayComplete(spec, input, outcome.before, outcome.after);
      None
  }

  lemma RunGrows(plan: Plan, trace: seq<System>, s: System)
    requires IsRun(plan, trace) && Next(plan, trace[|trace| - 1], s)
    ensures IsRun(plan, trace + [s])
  {
  }

  class FactoryController {
    const plan: Plan
    /** The two kinds of files, and the run in memory. */
    var disk: Disk
    var run: Run
    ghost var phase: Phase
    /** Every state of the system so far, one per write, earlier controllers and crashes included. */
    ghost var history: seq<System>

    ghost predicate Valid()
      reads this
    {
      && WellFormed(plan)
      && IsRun(plan, history) && history[|history| - 1] == System(disk, phase)
    }

    /** Between two attempts: the run in memory is the persisted one. */
    ghost predicate Ready(expected: Phase)
      reads this
    {
      Valid() && phase == expected && disk.run == Some(run) && SameStages(plan, run)
    }

    constructor (plan: Plan, disk: Disk, ghost past: seq<System>)
      requires WellFormed(plan) && IsRun(plan, past) && past[|past| - 1] == System(disk, Down)
      ensures Valid() && this.plan == plan && this.disk == disk && phase == Down && history == past
    {
      this.plan := plan;
      this.disk := disk;
      this.run := NewRun(plan);
      this.phase := Down;
      this.history := past;
    }

    /** Records a step of the system in the ghost history. */
    ghost method Observe(next: Phase)
      requires WellFormed(plan) && IsRun(plan, history)
      requires Next(plan, history[|history| - 1], System(disk, next))
      modifies this`phase, this`history
      ensures Valid() && phase == next && history == old(history) + [System(disk, next)]
    {
      RunGrows(plan, history, System(disk, next));
      history := history + [System(disk, next)];
      phase := next;
    }

    /** `_reconcile_orphan_attempts`, over the stages in the order of the file. */
    method ReconcileOrphanAttempts(persisted: Run, ids: seq<Id>) returns (recovered: Run)
      requires SameStages(plan, persisted) && Visits(plan, ids)
      ensures recovered == Reconcile(plan, persisted, disk.receipts, ids)
    {
      recovered := persisted;
      for i := 0 to |ids|
        invariant forall id :: id in recovered.stages <==> id in persisted.stages
        invariant recovered == Reconcile(plan, persisted, disk.receipts, ids[..i])
      {
        assert ids[..i + 1][..i] == ids[..i];
        recovered := ReconcileStage(plan, recovered, disk.receipts, ids[i]);
      }
      assert ids[..|ids|] == ids;
    }

    /** `initialise`.  `ids` is the order of the stages in the JSON file. */
    method Initialise(ids: seq<Id>)
      requires Valid() && phase == Down && Visits(plan, ids)
      modifies this
      ensures Ready(Idle)
      ensures history == old(history) + [System(disk, Idle)]
      ensures disk.receipts == old(disk.receipts)
      ensures old(disk.run).None? ==> run == NewRun(plan)
    {
      RunInv(plan, history);
      match disk.run
      case None =>
        run := NewRun(plan);
        disk := disk.(run := Some(run));
        Observe(Idle);
      case Some(persisted) =>
        run := ReconcileOrphanAttempts(persisted, ids);
        RecoveryStarts(plan, disk, ids, run);
        assert SameStages(plan, run);
        disk := disk.(run := Some(run));
        Observe(Idle);
    }

    /** The first write of an attempt: the first ready stage becomes "running". */
    method BeginStage(id: Id)
      requires Ready(Idle) && run.status == Active
      requires var ready := ReadyStages(plan, run, plan.ids); ready != [] && id == ready[0]
      modifies this
      ensures Ready(Attempting(id)) && id in old(run).stages && run == Begin(old(run), id)
      ensures history == old(history) + [System(disk, phase)]
    {
      assert IsReady(plan, run, id);
      run := Begin(run, id);
      disk := disk.(run := Some(run));
      Observe(Attempting(id));
    }

    /** The session and the second write: the attempt receipt. */
    method WriteAttempt(id: Id, session: (Id, nat) -> Outcome) returns (receipt: Receipt)
      requires Ready(Attempting(id))
      modifies this
      ensures Ready(Receipted(id, receipt)) && run == old(run)
      ensures id in run.stages && id in plan.specs && receipt == NextReceipt(plan, run, id, session)
      ensures history == old(history) + [System(disk, phase)]
    {
      AttemptingKnown(plan, history);
      var attempt := |run.stages[id].attempts| + 1;
      receipt := NextReceipt(plan, run, id, session);
      WriteAllowed(plan, history, receipt);
      disk := disk.(receipts := disk.receipts[(id, attempt) := receipt]);
      Observe(Receipted(id, receipt));
    }

    /** The third write: the run with the attempt. */
    method CommitAttempt(id: Id, receipt: Receipt)
      requires Ready(Receipted(id, receipt))
      modifies this
      ensures Ready(Idle)
      ensures id in old(run).stages && id in plan.specs && run == Record(plan, old(run), id, receipt)
      ensures history == old(history) + [System(disk, phase)]
    {
      RunInv(plan, history);
      run := Record(plan, run, id, receipt);
      disk := disk.(run := Some(run));
      Observe(Idle);
    }

    method FinishAttempt(id: Id, session: (Id, nat) -> Outcome) returns (receipt: Receipt)
      requires Ready(Attempting(id))
      modifies this
      ensures Ready(Idle) && old(history) <= history
      ensures id in old(run).stages && id in plan.specs
      ensures receipt == NextReceipt(plan, old(run), id, session) && run == Record(plan, old(run), id, receipt)
    {
      receipt := WriteAttempt(id, session);
      CommitAttempt(id, receipt);
    }

    /** One iteration of the loop of `_run_factory_locked`. */
    method RunAttempt(session: (Id, nat) -> Outcome)
      requires Ready(Idle) && run.status == Active
      requires ReadyStages(plan, run, plan.ids) != []
      modifies this
      ensures Ready(Idle) && old(history) <= history
      ensures Remaining(plan, run, plan.ids) == Remaining(plan, old(run), plan.ids) - 1
      ensures Recorded(run, plan.ids) == Recorded(old(run), plan.ids) + 1
      // the first ready stage is tried, and its record is what the session came to
      ensures Attempted(plan, old(run), session, run)
    {
      var id := ReadyStages(plan, run, plan.ids)[0];
      BeginStage(id);
      var receipt := FinishAttempt(id, session);
      RecordCounts(plan, old(run), id, receipt);
    }

    lemma MeasureBounded()
      requires Ready(Idle)
      ensures Remaining(plan, run, plan.ids) >= 0
    {
      NotNegative(plan, history);
    }

    /** The loop of `_run_factory_locked`.  `maxNew` is the checkpoint. */
    method RunLoop(session: (Id, nat) -> Outcome, maxNew: Option<nat>) returns (executed: nat)
      requires Ready(Idle) && run.status == Active
      modifies this
      ensures Ready(Idle) && old(history) <= history
      ensures executed == Recorded(run, plan.ids) - Recorded(old(run), plan.ids)
      ensures executed == Remaining(plan, old(run), plan.ids) - Remaining(plan, run, plan.ids)
      ensures maxNew.Some? ==> executed <= maxNew.value
      ensures maxNew.None? ==> run.status != Active || ReadyStages(plan, run, plan.ids) == []
    {
      executed := 0;
      var ready := ReadyStages(plan, run, plan.ids);
      while run.status == Active && ready != [] && (maxNew.None? || executed < maxNew.value)
        invariant Ready(Idle) && old(history) <= history
        invariant ready == ReadyStages(plan, run, plan.ids)
        invariant executed == Recorded(run, plan.ids) - Recorded(old(run), plan.ids)
        invariant executed == Remaining(plan, old(run), plan.ids) - Remaining(plan, run, plan.ids)
        invariant maxNew.Some? ==> executed <= maxNew.value
        decreases Remaining(plan, run, plan.ids)
      {
        MeasureBounded();
        RunAttempt(session);
        executed := executed + 1;
        ready := ReadyStages(plan, run, plan.ids);
      }
    }

    /** The end of `_run_factory_locked`: a run whose stages are all completed is marked complete. */
    method Complete()
      requires Ready(Idle) && Orderly(plan)
      modifies this
      ensures Ready(Idle) && old(history) <= history
      ensures old(run).status != Active ==> run == old(run)
      ensures ReadyStages(plan, old(run), plan.ids) == [] ==> run.status in {SemanticComplete, Quarantined}
      ensures Recorded(run, plan.ids) == Recorded(old(run), plan.ids)
    {
      if run.status == Active {
        Progress(plan, history);
      } else {
        RunInv(plan, history);
      }
      if run.status == Active && AllCompleted(run) {
        FinaliseCounts(plan, run, plan.ids);
        run := Finalise(run);
        disk := disk.(run := Some(run));
        Observe(Idle);
      }
    }

    /** `_run_factory_locked`: start or resume, then run ready stages. */
    method RunFactory(ids: seq<Id>, session: (Id, nat) -> Outcome, maxNew: Option<nat>) returns (executed: nat)
      requires Valid() && Orderly(plan) && phase == Down && Visits(plan, ids)
      modifies this
      ensures Ready(Idle) && old(history) <= history
      ensures maxNew.Some? ==> executed <= maxNew.value
      ensures maxNew.None? ==> run.status in {SemanticComplete, Quarantined}
    {
      Initialise(ids);
      executed := 0;
      if run.status == Active {
        executed := RunLoop(session, maxNew);
        Complete();
      }
    }
  }

  /** The receipt of the next attempt at `id`. */
  function NextReceipt(plan: Plan, run: Run, id: Id, session: (Id, nat) -> Outcome): Receipt
    requires id in run.stages && id in plan.specs
  {
    var attempt := |run.stages[id].attempts| + 1;
    MakeReceipt(id, attempt, session(id, attempt), plan.specs[id], plan.input)
  }

  /** One iteration of the loop: an attempt at the first ready stage. */
  ghost predicate Attempted(plan: Plan, run: Run, session: (Id, nat) -> Outcome, run': Run) {
    var ready := ReadyStages(plan, run, plan.ids);
    && ready != [] && ready[0] in run.stages && ready[0] in plan.specs
    && run' == Record(plan, Begin(run, ready[0]), ready[0], NextReceipt(plan, run, ready[0], session))
  }

  function MakeReceipt(id: Id, attempt: nat, outcome: Outcome, spec: P.Stage, input: Option<Path>): Receipt {
    var failure := FailureOf(spec, input, outcome);
    Receipt(id, attempt, failure, if failure.None? then outcome.artifacts else [],
            failure.None? || outcome.retrySafe, spec.maxBudgetUsd)
  }

  lemma {:induction false} SameCounts(plan: Plan, run: Run, run': Run, ids: seq<Id>)
    requires forall id :: id in ids ==> id in plan.specs && id in run.stages && id in run'.stages
    requires forall id :: id in ids ==> run'.stages[id].attempts == run.stages[id].attempts
    ensures Remaining(plan, run', ids) == Remaining(plan, run, ids) && Recorded(run', ids) == Recorded(run, ids)
  {
    if ids != [] {
      SameCounts(plan, run, run', ids[..|ids| - 1]);
    }
  }

  /** One attempt, from "running" to the recorded receipt, uses up one attempt. */
  lemma RecordCounts(plan: Plan, run: Run, id: Id, receipt: Receipt)
    requires WellFormed(plan) && SameStages(plan, run) && id in run.stages
    ensures
      var run' := Record(plan, Begin(run, id), id, receipt);
      && Remaining(plan, run', plan.ids) == Remaining(plan, run, plan.ids) - 1
      && Recorded(run', plan.ids) == Recorded(run, plan.ids) + 1
  {
    var begun := Begin(run, id);
    SameCounts(plan, run, begun, plan.ids);
    AttachCounts(plan, begun, id, receipt, !receipt.retrySafe || LastAttempt(plan, begun, id), plan.ids);
  }

  lemma FinaliseCounts(plan: Plan, run: Run, ids: seq<Id>)
    requires forall id :: id in ids ==> id in plan.specs && id in run.stages
    ensures Recorded(Finalise(run), ids) == Recorded(run, ids)
  {
  }

  lemma AttemptingKnown(plan: Plan, trace: seq<System>)
    requires WellFormed(plan) && IsRun(plan, trace)
    requires var s := trace[|trace| - 1]; s.phase.Attempting? && s.disk.run.Some?
    ensures var s := trace[|trace| - 1]; s.phase.id in s.disk.run.value.stages && s.phase.id in plan.specs
  {
    RunInv(plan, trace);
  }

  /** The attempt number of a running stage is free: the receipt can always be written. */
  lemma WriteAllowed(plan: Plan, trace: seq<System>, receipt: Receipt)
    requires WellFormed(plan) && IsRun(plan, trace)
    requires var s := trace[|trace| - 1];
      s.phase.Attempting? && s.disk.run.Some? && ReceiptFor(plan, s.disk.run.value, s.phase.id, receipt)
    ensures
      var s := trace[|trace| - 1];
      WriteReceipt(plan, s, System(s.disk.(receipts := s.disk.receipts[(s.phase.id, receipt.attempt) := receipt]),
                                   Receipted(s.phase.id, receipt)))
  {
    RunInv(plan, trace);
    var s := trace[|trace| - 1];
    ReceiptOk(plan, s.disk.run.value, s.disk.receipts, s.phase.id, receipt);
  }

  lemma NotNegative(plan: Plan, trace: seq<System>)
    requires WellFormed(plan) && IsRun(plan, trace)
    requires
      var last := trace[|trace| - 1];
      last.phase == Idle && last.disk.run.Some? && SameStages(plan, last.disk.run.value)
    ensures Remaining(plan, trace[|trace| - 1].disk.run.value, plan.ids) >= 0
  {
    RunInv(plan, trace);
    var last := trace[|trace| - 1];
    RemainingBounds(plan, last.disk.run.value, last.disk.receipts, None, None, plan.ids);
  }

  lemma RecoveryStarts(plan: Plan, disk: Disk, ids: seq<Id>, run: Run)
    requires WellFormed(plan) && Inv(plan, System(disk, Down)) && disk.run.Some? && Visits(plan, ids)
    requires SameStages(plan, disk.run.value) && run == Reconcile(plan, disk.run.value, disk.receipts, ids)
    ensures Start(plan, System(disk, Down), System(disk.(run := Some(run)), Idle))
  {
    var running, orphan :| RunOk(plan, disk.run.value, disk.receipts, running, orphan);
    assert RecoversTo(plan, disk.run.value, disk.receipts, run);
    RecoversUniquely(plan, disk.run.value, disk.receipts, running, orphan);
    RestartAllowed(plan, disk.run.value, disk.receipts, running, orphan);
  }

  // ---------------------------------------------------------------------------
  // Attempts over whole runs, crashes included
  // ---------------------------------------------------------------------------

  function MaximumAttempts(plan: Plan, ids: seq<Id>): int
    requires forall id :: id in ids ==> id in plan.specs
  {
    if ids == [] then 0
    else MaximumAttempts(plan, ids[..|ids| - 1]) + plan.specs[ids[|ids| - 1]].maxAttempts
  }

  lemma {:induction false} RecordedAndRemaining(plan: Plan, run: Run, ids: seq<Id>)
    requires forall id :: id in ids ==> id in plan.specs && id in run.stages
    ensures Recorded(run, ids) + Remaining(plan, run, ids) == MaximumAttempts(plan, ids)
  {
    if ids != [] {
      RecordedAndRemaining(plan, run, ids[..|ids| - 1]);
    }
  }

  lemma {:induction false} MaximumNotNegative(plan: Plan, ids: seq<Id>)
    requires forall id :: id in ids ==> id in plan.specs && plan.specs[id].maxAttempts >= 0
    ensures MaximumAttempts(plan, ids) >= 0
  {
    if ids != [] {
      MaximumNotNegative(plan, ids[..|ids| - 1]);
    }
  }

  ghost predicate IsCommit(s: System, s': System) {
    s.phase.Receipted? && s'.phase == Idle
  }

  /** How many attempts the controllers of a run of the system have recorded. */
  ghost function Commits(trace: seq<System>): nat {
    if |trace| < 2 then 0
    else Commits(trace[..|trace| - 1]) + (if IsCommit(trace[|trace| - 2], trace[|trace| - 1]) then 1 else 0)
  }

  lemma InvShape(plan: Plan, s: System)
    requires WellFormed(plan) && Inv(plan, s) && s.disk.run.Some?
    ensures SameStages(plan, s.disk.run.value) && forall id :: id in plan.ids ==> id in s.disk.run.value.stages
  {
  }

  lemma RecoveredCounts(plan: Plan, run: Run, receipts: Receipts, running: Option<Id>, orphan: Option<Receipt>)
    requires WellFormed(plan) && RunOk(plan, run, receipts, running, orphan)
    ensures SameStages(plan, Recovered(plan, run, running, orphan))
    ensures Recorded(Recovered(plan, run, running, orphan), plan.ids) >= Recorded(run, plan.ids)
  {
    if running.Some? && orphan.Some? {
      AttachCounts(plan, run, running.value, orphan.value, LastAttempt(plan, run, running.value), plan.ids);
    } else {
      SameCounts(plan, run, Recovered(plan, run, running, orphan), plan.ids);
    }
  }

  lemma StartCounts(plan: Plan, s: System, s': System)
    requires WellFormed(plan) && Inv(plan, s) && Start(plan, s, s') && s.disk.run.Some?
    ensures s'.disk.run.Some? && SameStages(plan, s.disk.run.value) && SameStages(plan, s'.disk.run.value)
    ensures Recorded(s'.disk.run.value, plan.ids) >= Recorded(s.disk.run.value, plan.ids)
  {
    var run, receipts := s.disk.run.value, s.disk.receipts;
    var running, orphan :| RunOk(plan, run, receipts, running, orphan);
    RestartRecovers(plan, run, receipts, running, orphan, s');
    RecoveredCounts(plan, run, receipts, running, orphan);
  }

  ghost predicate Listed(plan: Plan, run: Run) {
    forall id :: id in plan.ids ==> id in run.stages && id in plan.specs
  }

  lemma CommitCounts(plan: Plan, s: System, s': System)
    requires Commit(plan, s, s') && Distinct(plan.ids) && s.phase.id in plan.ids && Listed(plan, s.disk.run.value)
    ensures Listed(plan, s'.disk.run.value)
    ensures Recorded(s'.disk.run.value, plan.ids) == Recorded(s.disk.run.value, plan.ids) + 1
  {
    var run, receipt := s.disk.run.value, s.phase.receipt;
    AttachCounts(plan, run, s.phase.id, receipt, !receipt.retrySafe || LastAttempt(plan, run, s.phase.id), plan.ids);
  }

  /** The other steps leave the recorded attempts alone. */
  lemma OtherCounts(plan: Plan, s: System, s': System)
    requires BeginAttempt(plan, s, s') || WriteReceipt(plan, s, s') || Finish(plan, s, s') || Stop(s, s')
    requires s.disk.run.Some? && Listed(plan, s.disk.run.value)
    ensures s'.disk.run.Some? && Listed(plan, s'.disk.run.value)
    ensures Recorded(s'.disk.run.value, plan.ids) == Recorded(s.disk.run.value, plan.ids)
    ensures !IsCommit(s, s')
  {
    SameCounts(plan, s.disk.run.value, s'.disk.run.value, plan.ids);
  }

  lemma NextCounts(plan: Plan, s: System, s': System)
    requires WellFormed(plan) && Inv(plan, s) && Next(plan, s, s') && s.disk.run.Some?
    ensures s'.disk.run.Some? && Listed(plan, s.disk.run.value) && Listed(plan, s'.disk.run.value)
    ensures Recorded(s'.disk.run.value, plan.ids)
         >= Recorded(s.disk.run.value, plan.ids) + if IsCommit(s, s') then 1 else 0
  {
    InvShape(plan, s);
    if Start(plan, s, s') {
      StartCounts(plan, s, s');
    } else if Commit(plan, s, s') {
      CommitCounts(plan, s, s');
    } else {
      OtherCounts(plan, s, s');
    }
  }

  /** However often the system crashes and restarts, the controllers record at most as many attempts as the
      plan allows, and every one of them is in the persisted run. */
  lemma {:induction false} CommitsBounded(plan: Plan, trace: seq<System>)
    requires WellFormed(plan) && IsRun(plan, trace)
    ensures
      match trace[|trace| - 1].disk.run
      case None => Commits(trace) == 0
      case Some(run) => Listed(plan, run) && Commits(trace) <= Recorded(run, plan.ids)
  {
    if |trace| == 1 {
    } else {
      var init, before, last := trace[..|trace| - 1], trace[|trace| - 2], trace[|trace| - 1];
      CommitsBounded(plan, init);
      RunInv(plan, init);
      assert init[|init| - 1] == before;
      assert Next(plan, trace[|trace| - 2], trace[|trace| - 2 + 1]);
      if before.disk.run.Some? {
        NextCounts(plan, before, last);
      } else {
        RunInv(plan, trace);
        FirstStep(plan, before, last);
      }
    }
  }

  lemma FirstStep(plan: Plan, s: System, s': System)
    requires WellFormed(plan) && Inv(plan, s) && Next(plan, s, s') && s.disk.run.None?
    ensures !IsCommit(s, s') && (s'.disk.run.Some? ==> Listed(plan, s'.disk.run.value))
  {
  }

  /** The bound itself. */
  lemma AttemptsWithinPlan(plan: Plan, trace: seq<System>)
    requires WellFormed(plan) && IsRun(plan, trace)
    requires forall id :: id in plan.specs ==> plan.specs[id].maxBudgetUsd >= 0.0
    ensures Commits(trace) <= MaximumAttempts(plan, plan.ids)
    ensures var disk := trace[|trace| - 1].disk;
      disk.run.Some? ==>
        SameStages(plan, disk.run.value) && Spent(disk.run.value, plan.ids) <= MaximumLiability(plan, plan.ids)
  {
    MaximumNotNegative(plan, plan.ids);
    CommitsBounded(plan, trace);
    RunInv(plan, trace);
    var last := trace[|trace| - 1];
    if last.disk.run.Some? {
      var run, receipts := last.disk.run.value, last.disk.receipts;
      StopInv(plan, last, last.(phase := Down));
      var running, orphan :| RunOk(plan, run, receipts, running, orphan);
      RecordedAndRemaining(plan, run, plan.ids);
      RemainingBounds(plan, run, receipts, running, orphan, plan.ids);
      SpendingBounded(plan, run, receipts, running, orphan);
    }
  }

  // ---------------------------------------------------------------------------
  // The case in which recovery is not atomic does occur
  // ---------------------------------------------------------------------------

  const ONE_STAGE: Plan := Plan(["a"], map["a" := P.Stage("a", [], 2, 1.0, ["out"])], None)
  const UNSAFE: Receipt := Receipt("a", 1, Some("session_contract_failure"), [], false, 1.0)

  /** A stage with two attempts fails for the first time, and its partial outputs could not be removed. */
  function UnsafeTrace(): seq<System> {
    var run := NewRun(ONE_STAGE);
    var begun := Begin(run, "a");
    [INITIAL,
     System(Disk(Some(run), map[]), Idle),
     System(Disk(Some(begun), map[]), Attempting("a")),
     System(Disk(Some(begun), map[("a", 1) := UNSAFE]), Receipted("a", UNSAFE))]
  }

  lemma UnsafeFailureIsReachable()
    ensures IsRun(ONE_STAGE, UnsafeTrace())
    ensures
      var s := UnsafeTrace()[3];
      UNSAFE.failure.Some? && !UNSAFE.retrySafe && !LastAttempt(ONE_STAGE, s.disk.run.value, "a")
  {
  }
}
