/**
  The view that a stage of the factory is given in every reachable state: `ready_stages`, `_visibility_paths` and
  `_validate_outputs` in src/orbenchlab/agentic_factory.py, and the read-only bindings of a session in
  src/orbenchlab/agent_sessions.py.
  */
module FactoryView {
  import opened FactoryGraph
  import opened FactoryRun
  import opened Options
  import opened Ordering
  import opened Paths
  import P = FactoryPlan

  // ---------------------------------------------------------------------------
  // The snapshot of completed stages is closed
  // ---------------------------------------------------------------------------

  /** `completed` lists the completed stages of the run. */
  ghost predicate ListsCompleted(run: Run, completed: seq<Id>) {
    Distinct(completed)
    && forall id :: id in completed <==> id in run.stages && run.stages[id].status == Completed
  }

  /** In every reachable state a ready stage has only completed ancestors, and so has every completed stage. */
  lemma ReadyInRun(stages: seq<P.Stage>, input: Option<Path>, trace: seq<System>, id: Id, completed: seq<Id>)
    requires P.ValidPlan(stages) && IsRun(PlanOf(stages, input), trace) && trace[|trace| - 1].disk.run.Some?
    requires IsReady(PlanOf(stages, input), trace[|trace| - 1].disk.run.value, id)
    requires ListsCompleted(trace[|trace| - 1].disk.run.value, completed)
    ensures P.ReadyAfter(stages, id, completed)
  {
    var plan, run := PlanOf(stages, input), trace[|trace| - 1].disk.run.value;
    CompiledPlan(stages, input);
    ReachableSafe(plan, trace);
    PlanGraph(stages, input);
    PlanSpecs(stages, input);
    var g := P.GraphOf(stages);
    forall c, d | c in completed && c in g && d in g[c] ensures d in completed {
      assert Unblocked(plan, run, c);
    }
    forall i | 0 <= i < |completed| ensures completed[i] in P.StageIds(stages) {
      assert completed[i] in completed;
    }
  }

  /** In every reachable state a ready stage sees, beside the factory input, the outputs of exactly its ancestors, and
      those of all other completed stages are hidden from it. */
  lemma ReachableViewIsExact(stages: seq<P.Stage>, input: Option<Path>, trace: seq<System>, id: Id,
                             completed: seq<Id>, p: Path)
    requires P.ValidPlan(stages) && IsRun(PlanOf(stages, input), trace) && trace[|trace| - 1].disk.run.Some?
    requires IsReady(PlanOf(stages, input), trace[|trace| - 1].disk.run.value, id)
    requires ListsCompleted(trace[|trace| - 1].disk.run.value, completed)
    ensures P.ReadyAfter(stages, id, completed)
    ensures
      var ancestors := P.Ancestors(stages, id);
      && ancestors <= P.StageIds(stages)
      && (p in P.Gather(stages, completed, ancestors, true) <==>
            exists a :: a in ancestors && p in P.OutputsOf(stages, a))
      && (p in P.Gather(stages, completed, ancestors, false) <==>
            exists a :: a in completed && a !in ancestors && p in P.OutputsOf(stages, a))
  {
    ReadyInRun(stages, input, trace, id, completed);
    P.ReadyStageSeesAncestors(stages, id, completed, p);
  }

  // ---------------------------------------------------------------------------
  // When a stage can complete
  // ---------------------------------------------------------------------------

  /** No output of the stage is the input directory or lies inside it. */
  ghost predicate Outside(stage: P.Stage, input: Path) {
    forall i :: 0 <= i < |stage.outputs| ==> !P.Under(input, stage.outputs[i])
  }

  lemma UnderTransitive(a: Path, b: Path, file: Path)
    requires Safe(a) && Safe(b) && P.Under(a, b) && P.Under(b, file)
    ensures P.Under(a, file)
  {
    ContainsIsParent(a, b);
    ContainsIsParent(b, file);
    ContainsIsParent(a, file);
  }

  lemma InsideIsUntouched(input: Path, path: Path, before: P.Files, after: P.Files)
    requires Safe(input) && Safe(path) && P.Under(input, path) && P.SameUnder(input, before, after)
    ensures P.SameUnder(path, before, after)
  {
    forall file | P.Under(path, file) ensures P.Under(input, file) {
      UnderTransitive(input, path, file);
    }
  }

  /** The session that writes exactly the outputs. */
  lemma WritingTheOutputs(stage: P.Stage, input: Path, after: P.Files)
    requires Outside(stage, input)
    requires forall file :: file in after <==> file in stage.outputs
    ensures P.MayComplete(stage, Some(input), map[], after)
  {
    forall i | 0 <= i < |stage.outputs|
      ensures P.Exists(stage.outputs[i], after) && !P.SameUnder(stage.outputs[i], map[], after)
    {
      assert stage.outputs[i] in after && P.Under(stage.outputs[i], stage.outputs[i]);
    }
    forall file | P.Under(input, file) ensures file !in after {
    }
  }

  lemma CompletedWasOutside(stage: P.Stage, input: Path, before: P.Files, after: P.Files)
    requires Safe(input) && (forall i :: 0 <= i < |stage.outputs| ==> Safe(stage.outputs[i]))
    requires P.MayComplete(stage, Some(input), before, after)
    ensures Outside(stage, input)
  {
    forall i | 0 <= i < |stage.outputs| ensures !P.Under(input, stage.outputs[i]) {
      var inside := P.Under(input, stage.outputs[i]);
      if inside {
        InsideIsUntouched(input, stage.outputs[i], before, after);
      }
    }
  }

  lemma OutsideCompletes(stage: P.Stage, input: Path)
    requires Outside(stage, input)
    ensures P.CanComplete(stage, Some(input))
  {
    var after: P.Files := map path | path in stage.outputs :: "new";
    WritingTheOutputs(stage, input, after);
  }

  /** A stage can complete if and only if none of its outputs is the input directory or lies inside it. */
  lemma CompletesOutsideOnly(stage: P.Stage, input: Path)
    requires P.Normal(stage) && Safe(input)
    ensures P.CanComplete(stage, Some(input)) <==> Outside(stage, input)
  {
    var possible := P.CanComplete(stage, Some(input));
    if possible {
      var before, after :| P.MayComplete(stage, Some(input), before, after);
      CompletedWasOutside(stage, input, before, after);
    } else {
      var outside := Outside(stage, input);
      if outside {
        OutsideCompletes(stage, input);
      }
    }
  }

  // ---------------------------------------------------------------------------
  // Every reachable view is accepted
  // ---------------------------------------------------------------------------

  /** Every receipt of a completed attempt was earned: its stage can complete. */
  ghost predicate Earned(plan: Plan, receipts: Receipts) {
    forall id, n :: (id, n) in receipts && receipts[(id, n)].failure.None? ==>
      id in plan.specs && P.CanComplete(plan.specs[id], plan.input)
  }

  lemma EarnedNext(plan: Plan, s: System, s': System)
    requires Next(plan, s, s') && Earned(plan, s.disk.receipts)
    ensures Earned(plan, s'.disk.receipts)
  {
  }

  lemma {:induction false} AlwaysEarned(plan: Plan, trace: seq<System>)
    requires IsRun(plan, trace)
    ensures Earned(plan, trace[|trace| - 1].disk.receipts)
  {
    if |trace| > 1 {
      var init := trace[..|trace| - 1];
      AlwaysEarned(plan, init);
      assert Next(plan, trace[|trace| - 2], trace[|trace| - 2 + 1]);
      EarnedNext(plan, trace[|trace| - 2], trace[|trace| - 1]);
    }
  }

  /** A reachable state of the factory whose plan has a workspace manifest. */
  ghost predicate Reached(stages: seq<P.Stage>, trace: seq<System>, input: Path, run: Run) {
    && P.ValidPlan(stages) && Safe(input) && '/' !in input
    && IsRun(PlanOf(stages, Some(input)), trace) && trace[|trace| - 1].disk.run == Some(run)
  }

  lemma CompletedHasReceipt(plan: Plan, run: Run, receipts: Receipts, id: Id) returns (n: nat)
    requires LoadOk(plan, run, receipts) && id in run.stages && run.stages[id].status == Completed
    ensures (id, n) in receipts && receipts[(id, n)].failure.None?
  {
    var attempts := run.stages[id].attempts;
    assert ChainOk(id, run.stages[id], receipts);
    n := |attempts|;
    assert LinkOk(id, n, attempts[n - 1], receipts);
  }

  /** In every reachable state the outputs of the completed stages lie outside the input directory. */
  lemma CompletedIsOutside(stages: seq<P.Stage>, trace: seq<System>, input: Path, run: Run, id: Id)
    requires Reached(stages, trace, input, run)
    requires id in run.stages && run.stages[id].status == Completed
    ensures P.HasStage(stages, id) && Outside(stages[P.Find(stages, id)], input)
  {
    CompiledPlan(stages, Some(input));
    ReachableSafe(PlanOf(stages, Some(input)), trace);
    PlanSpecs(stages, Some(input));
    var n := CompletedHasReceipt(PlanOf(stages, Some(input)), run, trace[|trace| - 1].disk.receipts, id);
    assert P.HasStage(stages, id);
    AlwaysEarned(PlanOf(stages, Some(input)), trace);
    CompletesOutsideOnly(stages[P.Find(stages, id)], input);
  }

  /** The paths of a view are accepted by the checks of `_read_only_command`. */
  ghost predicate ViewAccepted(stages: seq<P.Stage>, id: Id, completed: seq<Id>, input: Path)
    requires P.UniqueIds(stages) && forall c :: c in completed ==> P.HasStage(stages, c)
  {
    var ancestors := P.Ancestors(stages, id);
    P.Disjointly([input] + P.Gather(stages, completed, ancestors, true),
                 P.Gather(stages, completed, ancestors, false))
  }

  ghost predicate AllOutside(stages: seq<P.Stage>, completed: seq<Id>, input: Path) {
    forall c :: c in completed ==> P.HasStage(stages, c) && Outside(stages[P.Find(stages, c)], input)
  }

  lemma GatheredIsOutside(stages: seq<P.Stage>, completed: seq<Id>, chosen: set<Id>, among: bool, input: Path, p: Path)
    requires AllOutside(stages, completed, input) && p in P.Gather(stages, completed, chosen, among)
    ensures !P.Under(input, p)
  {
    P.GatherHolds(stages, completed, chosen, among, p);
    var c :| c in completed && (c in chosen <==> among) && p in P.OutputsOf(stages, c);
    var outputs := stages[P.Find(stages, c)].outputs;
    var i :| 0 <= i < |outputs| && outputs[i] == p;
  }

  lemma GatheredIsClear(stages: seq<P.Stage>, completed: seq<Id>, chosen: set<Id>, among: bool, input: Path)
    requires AllOutside(stages, completed, input) && Safe(input)
    ensures forall p :: p in P.Gather(stages, completed, chosen, among) ==> p != input && !IsParent(input, p)
  {
    forall p | p in P.Gather(stages, completed, chosen, among) ensures p != input && !IsParent(input, p) {
      GatheredIsOutside(stages, completed, chosen, among, input, p);
      ContainsIsParent(input, p);
    }
  }

  lemma ViewOfOutside(stages: seq<P.Stage>, id: Id, completed: seq<Id>, input: Path)
    requires P.ValidPlan(stages) && P.ValidSnapshot(stages, completed) && Safe(input) && '/' !in input
    requires AllOutside(stages, completed, input)
    ensures ViewAccepted(stages, id, completed, input)
  {
    var ancestors := P.Ancestors(stages, id);
    P.VisibilityAccepted(stages, completed, ancestors, input);
    GatheredIsClear(stages, completed, ancestors, true, input);
    GatheredIsClear(stages, completed, ancestors, false, input);
  }

  /** The session of a ready stage is never refused for its visible and hidden paths. */
  lemma ReachableViewsAreAccepted(stages: seq<P.Stage>, trace: seq<System>, input: Path, run: Run, id: Id,
                                  completed: seq<Id>)
    requires Reached(stages, trace, input, run)
    requires IsReady(PlanOf(stages, Some(input)), run, id) && ListsCompleted(run, completed)
    ensures P.ReadyAfter(stages, id, completed) && ViewAccepted(stages, id, completed, input)
  {
    ReadyInRun(stages, Some(input), trace, id, completed);
    forall c | c in completed ensures P.HasStage(stages, c) && Outside(stages[P.Find(stages, c)], input) {
      CompletedIsOutside(stages, trace, input, run, c);
    }
    ViewOfOutside(stages, id, completed, input);
  }

  /** A stage with an output inside the input directory never completes, and so no run of its plan does. */
  lemma InsideNeverCompletes(stages: seq<P.Stage>, trace: seq<System>, input: Path, run: Run, id: Id)
    requires Reached(stages, trace, input, run)
    requires P.HasStage(stages, id) && !Outside(stages[P.Find(stages, id)], input)
    ensures id in run.stages && run.stages[id].status != Completed && run.status != SemanticComplete
  {
    CompiledPlan(stages, Some(input));
    ReachableSafe(PlanOf(stages, Some(input)), trace);
    PlanSpecs(stages, Some(input));
    assert stages[P.Find(stages, id)].id in PlanOf(stages, Some(input)).specs;
    if run.stages[id].status == Completed {
      CompletedIsOutside(stages, trace, input, run, id);
    }
  }

  // ---------------------------------------------------------------------------
  // The input directory of the factory
  // ---------------------------------------------------------------------------

  lemma NameIsSafe(name: string)
    requires '/' !in name && '\\' !in name && name != "" && name[0] != '.'
    ensures Safe(name)
  {
    SplitWithoutSlash(name);
  }

  lemma FactoryInputIsSafe()
    ensures Safe(P.FACTORY_INPUT) && '/' !in P.FACTORY_INPUT && P.FACTORY_INPUT != "out"
  {
    NameIsSafe(P.FACTORY_INPUT);
  }

  /** A plan with an output inside the input directory compiles, although it can never complete. */
  lemma InsidePlanNeverCompletes(stages: seq<P.Stage>, input: Path, trace: seq<System>, run: Run)
    requires input == P.FACTORY_INPUT && stages == P.InsidePlan(input)
    ensures P.ValidPlan(stages)
    ensures Reached(stages, trace, input, run) ==> run.status != SemanticComplete
  {
    FactoryInputIsSafe();
    P.InsidePlanCompiles(input);
    if Reached(stages, trace, input, run) {
      FirstIsInside(input);
      InsideNeverCompletes(stages, trace, input, run, "a");
    }
  }

  lemma FirstIsInside(input: Path)
    requires Safe(input) && '/' !in input && input != "out"
    ensures
      var stages := P.InsidePlan(input);
      P.HasStage(stages, "a") && !Outside(stages[P.Find(stages, "a")], input)
  {
    var stages := P.InsidePlan(input);
    P.InsidePaths(input);
    ContainsIsParent(input, input + "/" + "notes");
    assert stages[0].id == "a";
    assert P.Under(input, stages[0].outputs[0]);
  }
}
