/**
  `compile_plan`, `_visibility_paths` and `_quarantine_failed_outputs` of
  src/orbenchlab/agentic_factory.py, and the path checks that `_read_only_command` of
  src/orbenchlab/agent_sessions.py makes on the visibility of a stage.
  */
module FactoryPlan {
  import opened Options
  import opened Ordering
  import opened Rounding
  import opened FactoryGraph
  import opened Paths

  datatype Stage = Stage(id: Id, dependsOn: seq<Id>, maxAttempts: int, maxBudgetUsd: real, outputs: seq<Path>)

  datatype PlanError =
    | NoStages
    | BadStage(id: Id)
    | RepeatedId
    | SharedOutput(path: Path)
    | Overlap(left: Path, right: Path)
    | BadGraph(verdict: Verdict)
    | LiabilityExceeded

  // ---------------------------------------------------------------------------
  // What a plan is
  // ---------------------------------------------------------------------------

  /** `_normalise_stage` accepts the stage (for the fields kept here). */
  predicate Normal(s: Stage) {
    && (forall i, j :: 0 <= i < j < |s.dependsOn| ==> s.dependsOn[i] != s.dependsOn[j])
    && s.id !in s.dependsOn
    && 1 <= s.maxAttempts <= 5
    && 0.0 < s.maxBudgetUsd <= 100.0
    && s.outputs != []
    && (forall i :: 0 <= i < |s.outputs| ==> Safe(s.outputs[i]))
    && (forall i, j :: 0 <= i < j < |s.outputs| ==> s.outputs[i] != s.outputs[j])
  }

  predicate UniqueIds(stages: seq<Stage>) {
    forall i, j :: 0 <= i < j < |stages| ==> stages[i].id != stages[j].id
  }

  function GraphOf(stages: seq<Stage>): Graph
    requires UniqueIds(stages)
  {
    map i | 0 <= i < |stages| :: stages[i].id := stages[i].dependsOn
  }

  function Liability(stages: seq<Stage>): real {
    if stages == [] then 0.0
    else
      var last := stages[|stages| - 1];
      Liability(stages[..|stages| - 1]) + last.maxBudgetUsd * last.maxAttempts as real
  }

  /** Every output path has one owner. */
  ghost predicate Exclusive(stages: seq<Stage>) {
    forall i, j, p :: 0 <= i < j < |stages| && p in stages[i].outputs ==> p !in stages[j].outputs
  }

  ghost predicate IsOutput(stages: seq<Stage>, p: Path) {
    exists i :: 0 <= i < |stages| && p in stages[i].outputs
  }

  ghost predicate Separate(stages: seq<Stage>) {
    forall p, q :: IsOutput(stages, p) && IsOutput(stages, q) ==> !Contains(p, q)
  }

  ghost predicate ValidPlan(stages: seq<Stage>) {
    && stages != []
    && (forall i :: 0 <= i < |stages| ==> Normal(stages[i]))
    && UniqueIds(stages)
    && Exclusive(stages)
    && Separate(stages)
    && Known(GraphOf(stages)) && HasOrder(GraphOf(stages))
    && Round6(Liability(stages)) <= 100.0
  }

  // ---------------------------------------------------------------------------
  // compile_plan
  // ---------------------------------------------------------------------------

  /** The scan over the sorted output paths: each path against the later ones only. */
  method FindOverlap(owned: set<Path>) returns (overlap: Option<(Path, Path)>)
    requires forall p :: p in owned ==> Safe(p)
    ensures overlap.None? <==> forall p, q :: p in owned && q in owned ==> !Contains(p, q)
    ensures overlap.Some? ==>
      var (left, right) := overlap.value; left in owned && right in owned && Contains(left, right)
  {
    var paths := SortedList(owned);
    for i := 0 to |paths|
      invariant forall k, m :: 0 <= k < i && k < m < |paths| ==> !Contains(paths[k], paths[m])
    {
      for j := i + 1 to |paths|
        invariant forall m :: i < m < j ==> !Contains(paths[i], paths[m])
      {
        if Contains(paths[i], paths[j]) {
          assert paths[i] in owned && paths[j] in owned;
          return Some((paths[i], paths[j]));
        }
      }
    }
    LaterOnly(paths, owned);
    return None;
  }

  /** In sorted order nothing is contained in a later path, nor in itself. */
  lemma LaterOnly(paths: seq<Path>, owned: set<Path>)
    requires IsSorted(paths) && Lists(paths, owned) && forall p :: p in owned ==> Safe(p)
    requires forall k, m :: 0 <= k < m < |paths| ==> !Contains(paths[k], paths[m])
    ensures forall p, q :: p in owned && q in owned ==> !Contains(p, q)
  {
    forall p, q | p in owned && q in owned && Contains(p, q)
      ensures false
    {
      ContainerFirst(p, q);
      var k :| 0 <= k < |paths| && paths[k] == p;
      var m :| 0 <= m < |paths| && paths[m] == q;
      if m < k {
        Antisymmetric(p, q);
      }
    }
  }

  /** `owners` maps every output of the stages to the stage that owns it, and every stage owns its outputs. */
  ghost predicate Owns(owners: map<Path, Id>, stages: seq<Stage>) {
    && (forall p :: p in owners ==> IsOutput(stages, p))
    && (forall i, p :: 0 <= i < |stages| && p in stages[i].outputs ==> p in owners && owners[p] == stages[i].id)
  }

  /** The first loop of `compile_plan`: who owns which output, or a path with two owners. */
  method OutputOwners(stages: seq<Stage>) returns (owners: map<Path, Id>, shared: Option<Path>)
    requires forall i :: 0 <= i < |stages| ==> Normal(stages[i])
    ensures shared.None? <==> Exclusive(stages)
    ensures shared.None? ==> Owns(owners, stages)
  {
    owners := map[];
    shared := None;
    for i := 0 to |stages|
      invariant Owns(owners, stages[..i]) && Exclusive(stages[..i]) && shared == None
    {
      assert stages[..i + 1] == stages[..i] + [stages[i]];
      ghost var before := owners;
      owners, shared := AddOutputs(owners, stages[i]);
      if shared.Some? {
        NotExclusive(stages, i, before, shared.value);
        return;
      }
      OwnsMore(stages[..i], stages[i], before, owners);
    }
    assert stages[..|stages|] == stages;
  }

  /** The inner loop, over the outputs of one stage. */
  method AddOutputs(owners: map<Path, Id>, stage: Stage) returns (owners': map<Path, Id>, shared: Option<Path>)
    requires Normal(stage)
    ensures shared.Some? ==> shared.value in stage.outputs && shared.value in owners
    ensures shared.None? ==>
      && (forall p :: p in stage.outputs ==> p !in owners && p in owners' && owners'[p] == stage.id)
      && (forall p :: p in owners ==> p in owners' && owners'[p] == owners[p])
      && (forall p :: p in owners' ==> p in owners || p in stage.outputs)
  {
    owners' := owners;
    for j := 0 to |stage.outputs|
      invariant forall k :: 0 <= k < j ==>
        var p := stage.outputs[k]; p !in owners && p in owners' && owners'[p] == stage.id
      invariant forall p :: p in owners ==> p in owners' && owners'[p] == owners[p]
      invariant forall p :: p in owners' ==> p in owners || exists k :: 0 <= k < j && stage.outputs[k] == p
    {
      var path := stage.outputs[j];
      if path in owners' {
        return owners', Some(path);
      }
      owners' := owners'[path := stage.id];
    }
    return owners', None;
  }

  lemma OwnsMore(stages: seq<Stage>, stage: Stage, before: map<Path, Id>, after: map<Path, Id>)
    requires Owns(before, stages) && Exclusive(stages)
    requires forall p :: p in stage.outputs ==> p !in before && p in after && after[p] == stage.id
    requires forall p :: p in before ==> p in after && after[p] == before[p]
    requires forall p :: p in after ==> p in before || p in stage.outputs
    ensures Owns(after, stages + [stage]) && Exclusive(stages + [stage])
  {
    var more := stages + [stage];
    forall p | p in after
      ensures IsOutput(more, p)
    {
      if p in before {
        var i :| 0 <= i < |stages| && p in stages[i].outputs;
        assert p in more[i].outputs;
      } else {
        assert p in more[|stages|].outputs;
      }
    }
  }

  lemma NotExclusive(stages: seq<Stage>, i: nat, owners: map<Path, Id>, p: Path)
    requires i < |stages| && Owns(owners, stages[..i])
    requires p in stages[i].outputs && p in owners
    ensures !Exclusive(stages)
  {
  }

  method CompilePlan(stages: seq<Stage>) returns (error: Option<PlanError>)
    ensures error.None? <==> ValidPlan(stages)
  {
    error := CheckStages(stages);
    if error.None? {
      error := CheckOutputs(stages);
    }
    if error.None? {
      var verdict := AssertAcyclic(GraphOf(stages));
      if verdict != Accepted {
        error := Some(BadGraph(verdict));
      } else if Round6(Liability(stages)) > 100.0 {
        error := Some(LiabilityExceeded);
      }
    }
  }

  /** The stages one by one, and their identifiers. */
  method CheckStages(stages: seq<Stage>) returns (error: Option<PlanError>)
    ensures error.None? <==>
      stages != [] && (forall i :: 0 <= i < |stages| ==> Normal(stages[i])) && UniqueIds(stages)
  {
    if stages == [] {
      return Some(NoStages);
    }
    for i := 0 to |stages|
      invariant forall k :: 0 <= k < i ==> Normal(stages[k])
    {
      if !Normal(stages[i]) {
        return Some(BadStage(stages[i].id));
      }
    }
    return if UniqueIds(stages) then None else Some(RepeatedId);
  }

  /** Ownership and overlap of the outputs. */
  method CheckOutputs(stages: seq<Stage>) returns (error: Option<PlanError>)
    requires forall i :: 0 <= i < |stages| ==> Normal(stages[i])
    ensures error.None? <==> Exclusive(stages) && Separate(stages)
  {
    var owners, shared := OutputOwners(stages);
    if shared.Some? {
      return Some(SharedOutput(shared.value));
    }
    OutputsAreSafe(stages);
    assert forall p :: p in owners.Keys <==> IsOutput(stages, p);
    var overlap := FindOverlap(owners.Keys);
    if overlap.Some? {
      return Some(Overlap(overlap.value.0, overlap.value.1));
    }
    return None;
  }

  lemma OutputsAreSafe(stages: seq<Stage>)
    requires forall i :: 0 <= i < |stages| ==> Normal(stages[i])
    ensures forall p :: IsOutput(stages, p) ==> Safe(p)
  {
  }

  // ---------------------------------------------------------------------------
  // What a stage may see
  // ---------------------------------------------------------------------------

  const FACTORY_INPUT: Path := "factory-input"

  /** `by_id[id]`, by position. */
  function Find(stages: seq<Stage>, id: Id): (i: nat)
    requires exists k :: 0 <= k < |stages| && stages[k].id == id
    ensures i < |stages| && stages[i].id == id
  {
    if stages[0].id == id then 0 else 1 + Find(stages[1..], id)
  }

  ghost predicate HasStage(stages: seq<Stage>, id: Id) {
    exists k :: 0 <= k < |stages| && stages[k].id == id
  }

  function OutputsOf(stages: seq<Stage>, id: Id): seq<Path>
    requires HasStage(stages, id)
  {
    stages[Find(stages, id)].outputs
  }

  /** The outputs of the stages `ids` that are (or are not) among `chosen`, in the order of `ids`. */
  function Gather(stages: seq<Stage>, ids: seq<Id>, chosen: set<Id>, among: bool): seq<Path>
    requires forall id :: id in ids ==> HasStage(stages, id)
  {
    if ids == [] then []
    else
      var last := ids[|ids| - 1];
      Gather(stages, ids[..|ids| - 1], chosen, among)
      + if (last in chosen) == among then OutputsOf(stages, last) else []
  }

  predicate ValidSnapshot(stages: seq<Stage>, completed: seq<Id>) {
    && (forall i, j :: 0 <= i < j < |completed| ==> completed[i] != completed[j])
    && (forall i :: 0 <= i < |completed| ==> completed[i] in StageIds(stages))
  }

  function StageIds(stages: seq<Stage>): (ids: set<Id>)
    ensures forall id :: id in ids <==> HasStage(stages, id)
  {
    set i | 0 <= i < |stages| :: stages[i].id
  }

  ghost function Ancestors(stages: seq<Stage>, stage: Id): (ancestors: set<Id>)
    requires UniqueIds(stages)
    ensures forall id :: id in ancestors <==> DependsOn(GraphOf(stages), stage, id)
  {
    var g := GraphOf(stages);
    assert forall id :: DependsOn(g, stage, id) ==> id in g;
    set id | id in g && DependsOn(g, stage, id)
  }

  method VisibilityPaths(stages: seq<Stage>, hasManifest: bool, stage: Id, completed: seq<Id>)
    returns (visibility: Option<(seq<Path>, seq<Path>)>)
    requires ValidPlan(stages) && HasStage(stages, stage)
    ensures visibility.Some? <==> ValidSnapshot(stages, completed)
    ensures visibility.Some? && !hasManifest ==> visibility.value == ([], [])
    ensures visibility.Some? && hasManifest ==>
      && visibility.value.0 == [FACTORY_INPUT] + Gather(stages, completed, Ancestors(stages, stage), true)
      && visibility.value.1 == Gather(stages, completed, Ancestors(stages, stage), false)
  {
    if !ValidSnapshot(stages, completed) {
      return None;
    }
    assert stage in GraphOf(stages);
    var ancestors := StageAncestors(GraphOf(stages), stage);
    assert ancestors == Ancestors(stages, stage);
    if !hasManifest {
      return Some(([], []));
    }
    var visible, hidden := CollectOutputs(stages, completed, ancestors);
    return Some((visible, hidden));
  }

  /** The loop of `_visibility_paths` over the completed stages. */
  method CollectOutputs(stages: seq<Stage>, completed: seq<Id>, ancestors: set<Id>)
    returns (visible: seq<Path>, hidden: seq<Path>)
    requires forall id :: id in completed ==> HasStage(stages, id)
    ensures visible == [FACTORY_INPUT] + Gather(stages, completed, ancestors, true)
    ensures hidden == Gather(stages, completed, ancestors, false)
  {
    visible, hidden := [FACTORY_INPUT], [];
    for i := 0 to |completed|
      invariant visible == [FACTORY_INPUT] + Gather(stages, completed[..i], ancestors, true)
      invariant hidden == Gather(stages, completed[..i], ancestors, false)
    {
      assert completed[..i + 1][..i] == completed[..i];
      var outputs := OutputsOf(stages, completed[i]);
      if completed[i] in ancestors {
        visible := visible + outputs;
      } else {
        hidden := hidden + outputs;
      }
    }
    assert completed[..|completed|] == completed;
  }

  // ---------------------------------------------------------------------------
  // What that visibility means
  // ---------------------------------------------------------------------------

  lemma {:induction false} GatherHolds(stages: seq<Stage>, ids: seq<Id>, chosen: set<Id>, among: bool, p: Path)
    requires forall id :: id in ids ==> HasStage(stages, id)
    ensures p in Gather(stages, ids, chosen, among) <==>
      exists id :: id in ids && (id in chosen) == among && p in OutputsOf(stages, id)
  {
    if ids != [] {
      var init, last := ids[..|ids| - 1], ids[|ids| - 1];
      GatherHolds(stages, init, chosen, among, p);
      assert ids == init + [last];
      assert forall id :: id in ids <==> id in init || id == last;
    }
  }

  /** The completed stages are closed under dependencies, and `stage` has none that is not completed. */
  ghost predicate ReadyAfter(stages: seq<Stage>, stage: Id, completed: seq<Id>)
    requires UniqueIds(stages)
  {
    var g := GraphOf(stages);
    && ValidSnapshot(stages, completed)
    && stage in g && (forall d :: d in g[stage] ==> d in completed)
    && (forall id, d :: id in completed && id in g && d in g[id] ==> d in completed)
  }

  /** A ready stage sees the factory input and the outputs of exactly its ancestors; the outputs of all
      other completed stages are hidden from it. */
  lemma ReadyStageSeesAncestors(stages: seq<Stage>, stage: Id, completed: seq<Id>, p: Path)
    requires ValidPlan(stages) && ReadyAfter(stages, stage, completed)
    ensures
      var ancestors := Ancestors(stages, stage);
      && ancestors <= StageIds(stages)
      && (p in Gather(stages, completed, ancestors, true) <==>
            exists id :: id in ancestors && p in OutputsOf(stages, id))
      && (p in Gather(stages, completed, ancestors, false) <==>
            exists id :: id in completed && id !in ancestors && p in OutputsOf(stages, id))
  {
    var g := GraphOf(stages);
    var ancestors := Ancestors(stages, stage);
    forall id | id in ancestors
      ensures id in completed
    {
      var path :| |path| >= 2 && IsPath(g, path) && path[0] == stage && path[|path| - 1] == id;
      ClosedUnderPaths(g, stage, (set c | c in completed), path);
    }
    GatherHolds(stages, completed, ancestors, true, p);
    GatherHolds(stages, completed, ancestors, false, p);
  }

  /** The checks of `_read_only_command` on the two path lists (the existence of the paths is left out). */
  ghost predicate Disjointly(visible: seq<Path>, hidden: seq<Path>) {
    && Distinct(visible) && Distinct(hidden)
    && forall p, q :: p in visible && q in hidden ==> p != q && !IsParent(p, q) && !IsParent(q, p)
  }

  method CheckBindings(visible: seq<Path>, hidden: seq<Path>) returns (accepted: bool)
    ensures accepted <==> Disjointly(visible, hidden)
  {
    if (exists i, j :: 0 <= i < j < |visible| && visible[i] == visible[j])
       || exists i, j :: 0 <= i < j < |hidden| && hidden[i] == hidden[j] {
      return false;
    }
    for i := 0 to |visible|
      invariant forall k, q :: 0 <= k < i && q in hidden ==>
        visible[k] != q && !IsParent(visible[k], q) && !IsParent(q, visible[k])
    {
      var left := visible[i];
      for j := 0 to |hidden|
        invariant forall m :: 0 <= m < j ==>
          left != hidden[m] && !IsParent(left, hidden[m]) && !IsParent(hidden[m], left)
      {
        var right := hidden[j];
        if left == right || IsParent(left, right) || IsParent(right, left) {
          assert left in visible && right in hidden;
          return false;
        }
      }
    }
    return true;
  }

  lemma OneOwner(stages: seq<Stage>, a: Id, b: Id, p: Path)
    requires ValidPlan(stages) && HasStage(stages, a) && HasStage(stages, b)
    requires p in OutputsOf(stages, a) && p in OutputsOf(stages, b)
    ensures a == b
  {
  }

  lemma {:induction false} GatherDistinct(stages: seq<Stage>, ids: seq<Id>, chosen: set<Id>, among: bool)
    requires ValidPlan(stages) && ValidSnapshot(stages, ids)
    ensures Distinct(Gather(stages, ids, chosen, among))
  {
    if ids != [] {
      var init, last := ids[..|ids| - 1], ids[|ids| - 1];
      assert forall i :: 0 <= i < |init| ==> init[i] == ids[i];
      GatherDistinct(stages, init, chosen, among);
      assert Normal(stages[Find(stages, last)]);
      forall p | p in Gather(stages, init, chosen, among)
        ensures p !in OutputsOf(stages, last)
      {
        OthersOutput(stages, init, last, chosen, among, p);
      }
      DistinctConcat(Gather(stages, init, chosen, among), OutputsOf(stages, last));
    }
  }

  lemma DistinctConcat(a: seq<Path>, b: seq<Path>)
    requires Distinct(a) && Distinct(b) && forall p :: p in a ==> p !in b
    ensures Distinct(a + b)
  {
    forall i, j | 0 <= i < j < |a + b|
      ensures (a + b)[i] != (a + b)[j]
    {
      assert i < |a| <= j ==> a[i] in a && b[j - |a|] in b;
    }
  }

  lemma OthersOutput(stages: seq<Stage>, init: seq<Id>, last: Id, chosen: set<Id>, among: bool, p: Path)
    requires ValidPlan(stages) && ValidSnapshot(stages, init) && last !in init && HasStage(stages, last)
    requires p in Gather(stages, init, chosen, among)
    ensures p !in OutputsOf(stages, last)
  {
    GatherHolds(stages, init, chosen, among, p);
    var id :| id in init && p in OutputsOf(stages, id);
    if p in OutputsOf(stages, last) {
      OneOwner(stages, id, last, p);
    }
  }

  /** Two outputs of a compiled plan never contain one another. */
  lemma OutputsApart(stages: seq<Stage>, a: Id, b: Id, p: Path, q: Path)
    requires ValidPlan(stages) && HasStage(stages, a) && HasStage(stages, b)
    requires p in OutputsOf(stages, a) && q in OutputsOf(stages, b)
    ensures Safe(p) && Safe(q) && !IsParent(p, q) && !IsParent(q, p)
  {
    OutputsAreSafe(stages);
    assert IsOutput(stages, p) && IsOutput(stages, q);
    ContainsIsParent(p, q);
    ContainsIsParent(q, p);
  }

  lemma TopLevelHasNoParent(input: Path)
    requires '/' !in input
    ensures Split(input) == [input]
    ensures forall q :: !IsParent(q, input)
  {
    SplitWithoutSlash(input);
    forall q
      ensures !IsParent(q, input)
    {
      assert |Split(q)| >= |Split(input)|;
    }
  }

  lemma OwnersApart(stages: seq<Stage>, completed: seq<Id>, ancestors: set<Id>, p: Path, q: Path)
    requires ValidPlan(stages) && ValidSnapshot(stages, completed)
    requires p in Gather(stages, completed, ancestors, true) && q in Gather(stages, completed, ancestors, false)
    ensures p != q && !IsParent(p, q) && !IsParent(q, p)
  {
    GatherHolds(stages, completed, ancestors, true, p);
    GatherHolds(stages, completed, ancestors, false, q);
    var a :| a in completed && a in ancestors && p in OutputsOf(stages, a);
    var b :| b in completed && b !in ancestors && q in OutputsOf(stages, b);
    OutputsApart(stages, a, b, p, q);
    if p == q {
      OneOwner(stages, a, b, p);
    }
  }

  lemma AddInput(input: Path, visible: seq<Path>, hidden: seq<Path>)
    requires '/' !in input && Disjointly(visible, hidden)
    ensures Disjointly([input] + visible, hidden) <==>
      input !in visible && input !in hidden && forall q :: q in hidden ==> !IsParent(input, q)
  {
    TopLevelHasNoParent(input);
    var seen := [input] + visible;
    assert input in seen;
    assert forall p :: p in seen <==> p == input || p in visible;
    if input in visible {
      var i :| 0 <= i < |visible| && visible[i] == input;
      assert seen[0] == seen[i + 1];
    }
  }

  /** The plan compiler does not look at the input directory, so the view for an arbitrary list of completed
      stages can be refused.  It is accepted exactly when no visible output is the input directory itself, and no
      hidden output is that directory or lies inside it. */
  lemma VisibilityAccepted(stages: seq<Stage>, completed: seq<Id>, ancestors: set<Id>, input: Path)
    requires ValidPlan(stages) && ValidSnapshot(stages, completed) && '/' !in input
    ensures
      var visible, hidden := Gather(stages, completed, ancestors, true), Gather(stages, completed, ancestors, false);
      Disjointly([input] + visible, hidden) <==>
        input !in visible && input !in hidden && forall q :: q in hidden ==> !IsParent(input, q)
  {
    var visible, hidden := Gather(stages, completed, ancestors, true), Gather(stages, completed, ancestors, false);
    GatherDistinct(stages, completed, ancestors, true);
    GatherDistinct(stages, completed, ancestors, false);
    forall p, q | p in visible && q in hidden
      ensures p != q && !IsParent(p, q) && !IsParent(q, p)
    {
      OwnersApart(stages, completed, ancestors, p, q);
    }
    AddInput(input, visible, hidden);
  }

  /** A plan of two independent stages, the first of which writes inside the input directory. */
  function InsidePlan(input: Path): seq<Stage> {
    [Stage("a", [], 1, 1.0, [input + "/" + "notes"]), Stage("b", [], 1, 1.0, ["out"])]
  }

  lemma InsideGraph(input: Path)
    ensures UniqueIds(InsidePlan(input)) && GraphOf(InsidePlan(input)) == map["a" := [], "b" := []]
  {
    var stages := InsidePlan(input);
    var g := GraphOf(stages);
    assert stages[0].id in g && stages[1].id in g;
    assert forall id :: id in g ==> id == "a" || id == "b";
  }

  lemma InsidePaths(input: Path)
    requires Safe(input) && '/' !in input && input != "out"
    ensures Safe(input + "/" + "notes") && Safe("out") && IsParent(input, input + "/" + "notes")
    ensures forall p, q :: p in {input + "/" + "notes", "out"} && q in {input + "/" + "notes", "out"} ==>
      !Contains(p, q)
  {
    var inside := input + "/" + "notes";
    SplitWithoutSlash(input);
    SplitWithoutSlash("notes");
    SplitWithoutSlash("out");
    SplitAppend(input, "notes");
    assert Split(inside) == [input, "notes"] && Split("out") == ["out"];
    forall p, q | p in {inside, "out"} && q in {inside, "out"}
      ensures !Contains(p, q)
    {
      ContainsIsParent(p, q);
    }
  }

  /** It compiles. */
  lemma InsidePlanCompiles(input: Path)
    requires Safe(input) && '/' !in input && input != "out"
    ensures ValidPlan(InsidePlan(input))
  {
    InsideSeparate(input);
    InsideGraph(input);
    assert Topological(map["a" := [], "b" := []], ["a", "b"]);
    InsideLiability(input);
  }

  lemma InsideSeparate(input: Path)
    requires Safe(input) && '/' !in input && input != "out"
    ensures forall i :: 0 <= i < 2 ==> Normal(InsidePlan(input)[i])
    ensures Exclusive(InsidePlan(input)) && Separate(InsidePlan(input))
  {
    var inside := input + "/" + "notes";
    InsidePaths(input);
    assert |inside| != |"out"|;
    forall p | IsOutput(InsidePlan(input), p)
      ensures p in {inside, "out"}
    {
    }
  }

  lemma InsideLiability(input: Path)
    ensures Round6(Liability(InsidePlan(input))) == 2.0
  {
    var stages := InsidePlan(input);
    assert stages[..1][..0] == [];
    assert Liability(stages[..1]) == 1.0;
    Round6Integer(2);
  }

  // ---------------------------------------------------------------------------
  // Quarantine of a failed stage's outputs
  // ---------------------------------------------------------------------------

  /** The regular files of a directory tree, by relative path. */
  type Files = map<Path, Content>

  /** `file` is the output `path` or lies inside it. */
  predicate Under(path: Path, file: Path) {
    file == path || Contains(path, file)
  }

  predicate OwnedBy(stage: Stage, file: Path) {
    exists i :: 0 <= i < |stage.outputs| && Under(stage.outputs[i], file)
  }

  /** The same files, with the same content, lie under `path`. */
  predicate SameUnder(path: Path, before: Files, after: Files) {
    forall file :: file in before.Keys + after.Keys && Under(path, file) ==>
      file in before && file in after && before[file] == after[file]
  }

  predicate Exists(path: Path, files: Files) {
    exists file :: file in files && Under(path, file)
  }

  /** `_validate_outputs`: every required output is there and is not what it was. */
  predicate OutputsWritten(stage: Stage, before: Files, after: Files) {
    forall i :: 0 <= i < |stage.outputs| ==>
      Exists(stage.outputs[i], after) && !SameUnder(stage.outputs[i], before, after)
  }

  /** With a workspace manifest the input directory is bound read-only and has to be found unchanged. */
  predicate InputUntouched(input: Option<Path>, before: Files, after: Files) {
    input.Some? ==> SameUnder(input.value, before, after)
  }

  /** What the workspace has to show before an attempt counts as completed. */
  predicate MayComplete(stage: Stage, input: Option<Path>, before: Files, after: Files) {
    InputUntouched(input, before, after) && OutputsWritten(stage, before, after)
  }

  ghost predicate CanComplete(stage: Stage, input: Option<Path>) {
    exists before, after :: MayComplete(stage, input, before, after)
  }

  /** Some file under `path` contains a provider credential. */
  predicate Tainted(workspace: Files, path: Path, secret: Content -> bool) {
    exists file :: file in workspace && Under(path, file) && secret(workspace[file])
  }

  /** `file` lies under one of the first `n` outputs of the stage that contain no credential. */
  ghost predicate Kept(stage: Stage, n: nat, workspace: Files, secret: Content -> bool, file: Path)
    requires n <= |stage.outputs|
  {
    exists k :: 0 <= k < n && Under(stage.outputs[k], file) && !Tainted(workspace, stage.outputs[k], secret)
  }

  ghost predicate UnderFirst(stage: Stage, n: nat, file: Path)
    requires n <= |stage.outputs|
  {
    exists k :: 0 <= k < n && Under(stage.outputs[k], file)
  }

  ghost predicate Apart(stage: Stage) {
    forall p, q :: p in stage.outputs && q in stage.outputs ==> !Contains(p, q)
  }

  lemma OneOutput(stage: Stage, i: nat, k: nat, file: Path)
    requires Normal(stage) && Apart(stage) && i < |stage.outputs| && k < |stage.outputs|
    requires Under(stage.outputs[i], file) && Under(stage.outputs[k], file)
    ensures i == k
  {
    SharedContainer(stage.outputs[i], stage.outputs[k], file);
  }

  /** What the loop has moved or deleted after `n` outputs. */
  ghost predicate Moved(stage: Stage, n: nat, before: Files, secret: Content -> bool, workspace: Files, archive: Files)
    requires n <= |stage.outputs|
  {
    && (forall f :: f in workspace <==> f in before && !UnderFirst(stage, n, f))
    && (forall f :: f in workspace ==> workspace[f] == before[f])
    && (forall f :: f in archive <==> f in before && Kept(stage, n, before, secret, f))
    && (forall f :: f in archive ==> archive[f] == before[f])
  }

  /** `_quarantine_failed_outputs`: the files under the stage's outputs leave the workspace.  They are moved
      to the archive of this attempt, except for outputs with a credential, which are deleted.
      `archive` is keyed by the original path. */
  method QuarantineFailedOutputs(before: Files, stage: Stage, secret: Content -> bool)
    returns (workspace: Files, archive: Files)
    requires Normal(stage) && Apart(stage)
    ensures Moved(stage, |stage.outputs|, before, secret, workspace, archive)
  {
    workspace, archive := before, map[];
    for i := 0 to |stage.outputs|
      invariant Moved(stage, i, before, secret, workspace, archive)
    {
      var files := FilesUnder(workspace, stage.outputs[i]);
      StillThere(stage, i, before, secret, workspace, archive);
      if !Tainted(workspace, stage.outputs[i], secret) {
        MoveOne(stage, i, before, secret, archive, archive + files);
        archive := archive + files;
      } else {
        MoveOne(stage, i, before, secret, archive, archive);
      }
      RemoveOne(stage, i, before, workspace, workspace - files.Keys);
      workspace := workspace - files.Keys;
    }
  }

  function FilesUnder(tree: Files, path: Path): (files: Files)
    ensures forall f :: f in files <==> f in tree && Under(path, f)
    ensures forall f :: f in files ==> files[f] == tree[f]
  {
    map f | f in tree && Under(path, f) :: tree[f]
  }

  lemma RemoveOne(stage: Stage, i: nat, before: Files, workspace: Files, workspace': Files)
    requires i < |stage.outputs|
    requires forall f :: f in workspace <==> f in before && !UnderFirst(stage, i, f)
    requires forall f :: f in workspace' <==> f in workspace && !Under(stage.outputs[i], f)
    ensures forall f :: f in workspace' <==> f in before && !UnderFirst(stage, i + 1, f)
  {
  }

  lemma MoveOne(stage: Stage, i: nat, before: Files, secret: Content -> bool, archive: Files, archive': Files)
    requires i < |stage.outputs|
    requires forall f :: f in archive <==> f in before && Kept(stage, i, before, secret, f)
    requires forall f :: f in archive' <==>
      f in archive || (f in before && Under(stage.outputs[i], f) && !Tainted(before, stage.outputs[i], secret))
    ensures forall f :: f in archive' <==> f in before && Kept(stage, i + 1, before, secret, f)
  {
  }

  /** Files under the next output have not been touched by the earlier ones. */
  lemma StillThere(stage: Stage, i: nat, before: Files, secret: Content -> bool, workspace: Files, archive: Files)
    requires Normal(stage) && Apart(stage) && i < |stage.outputs|
    requires Moved(stage, i, before, secret, workspace, archive)
    ensures forall f :: Under(stage.outputs[i], f) ==> (f in workspace <==> f in before) && f !in archive
    ensures Tainted(workspace, stage.outputs[i], secret) <==> Tainted(before, stage.outputs[i], secret)
  {
    forall f | Under(stage.outputs[i], f)
      ensures !UnderFirst(stage, i, f)
    {
      forall k | 0 <= k < i
        ensures !Under(stage.outputs[k], f)
      {
        if Under(stage.outputs[k], f) {
          OneOutput(stage, i, k, f);
        }
      }
    }
  }

  /** In a compiled plan nothing owned by another stage is moved when a stage fails. */
  lemma OtherStagesKeepTheirFiles(stages: seq<Stage>, a: nat, b: nat, before: Files, secret: Content -> bool,
                                  workspace: Files, archive: Files, file: Path)
    requires ValidPlan(stages) && a < |stages| && b < |stages| && a != b
    requires Moved(stages[a], |stages[a].outputs|, before, secret, workspace, archive)
    requires file in before && OwnedBy(stages[b], file)
    ensures file in workspace && workspace[file] == before[file] && file !in archive
  {
    var j :| 0 <= j < |stages[b].outputs| && Under(stages[b].outputs[j], file);
    forall i | 0 <= i < |stages[a].outputs|
      ensures !Under(stages[a].outputs[i], file)
    {
      if Under(stages[a].outputs[i], file) {
        StagesApart(stages, a, b, stages[a].outputs[i], stages[b].outputs[j], file);
      }
    }
  }

  lemma StagesApart(stages: seq<Stage>, a: nat, b: nat, p: Path, q: Path, file: Path)
    requires ValidPlan(stages) && a < |stages| && b < |stages| && a != b
    requires p in stages[a].outputs && q in stages[b].outputs
    ensures !(Under(p, file) && Under(q, file))
  {
    OutputsAreSafe(stages);
    assert IsOutput(stages, p) && IsOutput(stages, q);
    if Under(p, file) && Under(q, file) {
      SharedContainer(p, q, file);
    }
  }

  lemma StageApart(stages: seq<Stage>, a: nat)
    requires ValidPlan(stages) && a < |stages|
    ensures Normal(stages[a]) && Apart(stages[a])
  {
  }
}
