/**
  Any sequence of executions of one run: `execute_prepared_run` called again and again in src/orbenchlab/workflow.py,
  whatever each call meets and wherever its process dies.
  */
module Executions {
  import opened Options
  import opened Ordering
  import opened Paths
  import L = Ledger
  import opened ExecutionPhase

  // ---------------------------------------------------------------------------
  // When a number is used again
  // ---------------------------------------------------------------------------

  lemma FirstFreeIsUnique(tree: L.Tree, start: nat, a: string, b: string)
    requires IsFirstFree(tree, start, a) && IsFirstFree(tree, start, b)
    ensures a == b
  {
    var n: nat :| start <= n && a == AttemptId(n) && AllTaken(tree, start, n);
    var k: nat :| start <= k && b == AttemptId(k) && AllTaken(tree, start, k);
    assert n < k ==> AttemptFolder(AttemptId(n)) in tree;
    assert k < n ==> AttemptFolder(AttemptId(k)) in tree;
  }

  /** A launch takes number `n` if and only if the folder of `n` is not there while those of all lower numbers are,
      whether `n` was used before or not. */
  lemma TakenExactly(tree: L.Tree, m: RunManifest, running: RunManifest, n: nat)
    requires Launches(tree, m, running)
    ensures running.current == Some(AttemptId(n)) <==>
      && FirstNumber(tree) <= n && AttemptFolder(AttemptId(n)) !in tree
      && AllTaken(tree, FirstNumber(tree), n)
  {
    var id := running.current.value;
    var k: nat :| FirstNumber(tree) <= k && id == AttemptId(k) && AllTaken(tree, FirstNumber(tree), k);
    AttemptIdValue(n);
    AttemptIdValue(k);
    if FirstNumber(tree) <= n && AttemptFolder(AttemptId(n)) !in tree && AllTaken(tree, FirstNumber(tree), n) {
      FirstFreeIsUnique(tree, FirstNumber(tree), id, AttemptId(n));
    }
  }

  // ---------------------------------------------------------------------------
  // Any sequence of executions
  // ---------------------------------------------------------------------------

  /** The attempts in the manifest are distinct, and each has its folder, apart from one of the old layout. */
  ghost predicate HistoryOk(w: World, tree: L.Tree) {
    OnDisk(w, tree).Some? ==> Recorded(tree, OnDisk(w, tree).value.attempts)
  }

  ghost predicate Recorded(tree: L.Tree, attempts: seq<string>) {
    && Distinct(attempts)
    && forall i :: 0 <= i < |attempts| && L.IsAttemptId(attempts[i]) ==> AttemptFolder(attempts[i]) in tree
  }

  /** The upstream process of an execution, if one was started, took no attempt folder away from the workspace it was
      started in. */
  ghost predicate FoldersKept(w: World, s: Surroundings, before: L.Tree, launched: Option<RunManifest>) {
    launched.Some? ==> launched.value.current.Some? && UpstreamKeeps(w, s, before, launched.value)
  }

  /** And it left manifest and ledger there alone. */
  ghost predicate Honest(w: World, s: Surroundings, before: L.Tree, launched: Option<RunManifest>) {
    && FoldersKept(w, s, before, launched)
    && (launched.Some? ==> launched.value.current.Some? && EvidenceLeft(w, s, before, launched.value))
  }

  /** What one execution does to the attempt folders of a workspace. */
  ghost predicate Moves(w: World, s: Surroundings, before: L.Tree, launched: Option<RunManifest>, after: L.Tree) {
    && (launched == None ==> FoldersStay(before, after))
    && (launched.Some? ==>
          && OnDisk(w, before).Some? && Launches(before, OnDisk(w, before).value, launched.value)
          && FoldersStay(AfterUpstream(w, s, before, launched.value), after))
  }

  /** And to the attempts in its manifest. */
  ghost predicate Executed(w: World, s: Surroundings, before: L.Tree, launched: Option<RunManifest>, after: L.Tree) {
    && Moves(w, s, before, launched, after)
    && (HistoryOk(w, before) && Honest(w, s, before, launched) ==> HistoryOk(w, after))
  }

  /** The workspaces that executions meet one after the other, and the manifests under which upstream processes were
      started, if any. */
  ghost predicate IsHistory(w: World, script: seq<Surroundings>, met: seq<L.Tree>,
                            launched: seq<Option<RunManifest>>) {
    && |met| == |script| + 1 && |launched| == |script|
    && forall i :: 0 <= i < |script| ==> Executed(w, script[i], met[i], launched[i], met[i + 1])
  }

  /** Both executions launched an attempt, of the same id. */
  ghost predicate SameId(launched: seq<Option<RunManifest>>, i: nat, j: nat)
    requires i < |launched| && j < |launched|
  {
    launched[i].Some? && launched[j].Some? && launched[i].value.current == launched[j].value.current
  }

  ghost predicate NoIdTwice(launched: seq<Option<RunManifest>>) {
    forall i: nat, j: nat :: i < j < |launched| ==> !SameId(launched, i, j)
  }

  /** When the `j`th execution launched its attempt, the folder of the `i`th one's was not there, while those of all
      lower numbers were. */
  ghost predicate LooksFree(met: seq<L.Tree>, launched: seq<Option<RunManifest>>, i: nat, j: nat)
    requires i < |launched| && j < |launched| <= |met|
  {
    && launched[i].Some? && launched[j].Some? && launched[i].value.current.Some?
    && IsFirstFree(met[j], FirstNumber(met[j]), launched[i].value.current.value)
  }

  /** An attempt id is used twice if and only if, at some launch, an earlier attempt looks free. */
  lemma TwiceExactly(w: World, script: seq<Surroundings>, met: seq<L.Tree>, launched: seq<Option<RunManifest>>)
    requires IsHistory(w, script, met, launched)
    ensures NoIdTwice(launched) <==> forall i: nat, j: nat :: i < j < |launched| ==> !LooksFree(met, launched, i, j)
    ensures forall i: nat, j: nat :: i < j < |launched| ==>
      (SameId(launched, i, j) <==> LooksFree(met, launched, i, j))
  {
    forall i: nat, j: nat | i < j < |launched| ensures SameId(launched, i, j) <==> LooksFree(met, launched, i, j) {
      assert Executed(w, script[i], met[i], launched[i], met[i + 1]);
      assert Executed(w, script[j], met[j], launched[j], met[j + 1]);
      if LooksFree(met, launched, i, j) {
        FirstFreeIsUnique(met[j], FirstNumber(met[j]), launched[i].value.current.value,
                          launched[j].value.current.value);
      }
    }
  }

  /** An execution whose upstream process takes no folder away keeps all folders, and that of its own attempt. */
  lemma LaunchKeepsFolders(w: World, s: Surroundings, before: L.Tree, launched: Option<RunManifest>, after: L.Tree)
    requires Moves(w, s, before, launched, after) && FoldersKept(w, s, before, launched)
    ensures FoldersStay(before, after)
    ensures launched.Some? ==> AttemptFolder(launched.value.current.value) in after
  {
    if launched.Some? {
      var running := launched.value;
      assert AttemptFolder(running.current.value) in Sealed(w, Begun(w, before, running));
      assert FoldersStay(before, Sealed(w, Begun(w, before, running)));
    }
  }

  /** What `k` executions launched still has its folder. */
  lemma {:induction false} FoldersRemain(w: World, script: seq<Surroundings>, met: seq<L.Tree>,
                                         launched: seq<Option<RunManifest>>, i: nat, k: nat)
    requires IsHistory(w, script, met, launched) && i < k <= |script| && launched[i].Some?
    requires forall n :: 0 <= n < |script| ==> FoldersKept(w, script[n], met[n], launched[n])
    ensures launched[i].value.current.Some? && AttemptFolder(launched[i].value.current.value) in met[k]
    decreases k
  {
    assert Executed(w, script[k - 1], met[k - 1], launched[k - 1], met[k - 1 + 1]);
    LaunchKeepsFolders(w, script[k - 1], met[k - 1], launched[k - 1], met[k]);
    if i < k - 1 {
      FoldersRemain(w, script, met, launched, i, k - 1);
    }
  }

  /** In particular no id is used twice as long as no upstream process takes a folder away. */
  lemma KeptFoldersNoIdTwice(w: World, script: seq<Surroundings>, met: seq<L.Tree>,
                             launched: seq<Option<RunManifest>>)
    requires IsHistory(w, script, met, launched)
    requires forall n :: 0 <= n < |script| ==> FoldersKept(w, script[n], met[n], launched[n])
    ensures NoIdTwice(launched)
  {
    forall i: nat, j: nat | i < j < |launched| ensures !LooksFree(met, launched, i, j) {
      if launched[i].Some? {
        FoldersRemain(w, script, met, launched, i, j);
      }
    }
    TwiceExactly(w, script, met, launched);
  }

  /** A launch adds to the history an attempt that is not in it. */
  lemma LaunchIsRecorded(before: L.Tree, m: RunManifest, running: RunManifest, after: L.Tree)
    requires Launches(before, m, running) && Recorded(before, m.attempts)
    requires FoldersStay(before, after) && AttemptFolder(running.current.value) in after
    ensures Recorded(after, running.attempts)
  {
    var prior, id := PriorAttempts(before, m), running.current.value;
    assert id[0] == id[..8][0] == 'a' && "legacy-attempt-0001"[0] == 'l';
    forall i | 0 <= i < |prior| ensures prior[i] != id {
      assert L.IsAttemptId(prior[i]) ==> AttemptFolder(prior[i]) in before;
    }
  }

  /** What an execution that dies leaves of the history. */
  lemma DeathKeepsHistory(w: World, s: Surroundings, before: L.Tree, m: RunManifest, tree: L.Tree, point: Point)
    requires OnDisk(w, before) == Some(m) && Recorded(before, m.attempts)
    requires Leaves(w, s, before, m, tree, point) && DeathVerdict(w, s, before, m, tree, point)
    requires FoldersStay(before, tree)
    requires point.Interrupted? || point.HalfEnded? ==>
      AttemptFolder(point.running.current.value) in tree && EvidenceLeft(w, s, before, point.running)
    ensures HistoryOk(w, tree)
  {
    match point
    case HalfStarted(running) =>
      assert AttemptFolder(running.current.value)[0] == 'l' && L.MANIFEST[0] == 'm';
      LaunchIsRecorded(before, m, running, tree);
    case Interrupted(running) => LaunchIsRecorded(before, m, running, tree);
    case HalfEnded(running, _) => LaunchIsRecorded(before, m, running, tree);
    case _ =>
  }

  lemma HistoryStays(w: World, s: Surroundings, before: L.Tree, tree: L.Tree, exit: Exit,
                     launched: Option<RunManifest>, point: Point)
    requires HistoryOk(w, before) && Honest(w, s, before, launched) && FoldersStay(before, tree)
    requires exit == Refused ==> tree == before
    requires exit != Refused ==> OnDisk(w, before).Some?
    requires launched.Some? ==>
      OnDisk(w, before).Some? && Launches(before, OnDisk(w, before).value, launched.value)
      && AttemptFolder(launched.value.current.value) in tree
    requires exit == Death ==>
      && Leaves(w, s, before, OnDisk(w, before).value, tree, point)
      && DeathVerdict(w, s, before, OnDisk(w, before).value, tree, point)
      && (point.Interrupted? || point.HalfEnded? ==> launched == Some(point.running))
    requires exit == Done || exit == Error ==>
      if launched.Some? then Concluded(w, tree, launched.value, s)
      else L.FileAt(tree, L.MANIFEST) == L.FileAt(before, L.MANIFEST)
    ensures HistoryOk(w, tree)
  {
    if exit == Death {
      DeathKeepsHistory(w, s, before, OnDisk(w, before).value, tree, point);
    } else if launched.Some? {
      LaunchIsRecorded(before, OnDisk(w, before).value, launched.value, tree);
    }
  }

  /** One execution, whatever it meets and wherever it dies. */
  method ExecuteNext(e: Execution, w: World, s: Surroundings) returns (ghost launched: Option<RunManifest>)
    requires GoodWorld(w) && GoodSurroundings(s) && RealTree(e.tree)
    modifies e
    ensures RealTree(e.tree) && Executed(w, s, old(e.tree), launched, e.tree)
  {
    ghost var before := e.tree;
    var exit;
    ghost var point;
    exit, launched, point := e.Execute(w, s);
    if HistoryOk(w, before) && Honest(w, s, before, launched) {
      LaunchKeepsFolders(w, s, before, launched, e.tree);
      HistoryStays(w, s, before, e.tree, exit, launched, point);
    }
  }

  /** Executions in one workspace, one after the other.  `met` are the workspaces they meet and `launched` the manifests
      under which they started the upstream process. */
  method ExecuteAll(w: World, tree: L.Tree, script: seq<Surroundings>)
    returns (e: Execution, ghost met: seq<L.Tree>, ghost launched: seq<Option<RunManifest>>)
    requires GoodWorld(w) && RealTree(tree)
    requires forall i :: 0 <= i < |script| ==> GoodSurroundings(script[i])
    ensures RealTree(e.tree)
    ensures IsHistory(w, script, met, launched) && met[0] == tree && met[|script|] == e.tree
    // an attempt id is used twice exactly if an earlier attempt looks free at some launch
    ensures NoIdTwice(launched) <==> forall i: nat, j: nat :: i < j < |launched| ==> !LooksFree(met, launched, i, j)
    // which takes an upstream process that took a folder away from the workspace it was started in
    ensures (forall i :: 0 <= i < |script| ==> FoldersKept(w, script[i], met[i], launched[i])) ==> NoIdTwice(launched)
    // and if none touched the manifest or the ledger there either, the attempts in the manifest stay distinct
    ensures
      HistoryOk(w, tree) && (forall i :: 0 <= i < |script| ==> Honest(w, script[i], met[i], launched[i])) ==>
        HistoryOk(w, e.tree)
  {
    e := new Execution(tree);
    met, launched := [tree], [];
    for i := 0 to |script|
      invariant RealTree(e.tree)
      invariant IsHistory(w, script[..i], met, launched) && met[0] == tree && met[i] == e.tree
    {
      ghost var running := ExecuteNext(e, w, script[i]);
      HistoryGrows(w, script[..i], met, launched, script[i], running, e.tree);
      assert script[..i + 1] == script[..i] + [script[i]];
      met, launched := met + [e.tree], launched + [running];
    }
    assert script[..|script|] == script;
    TwiceExactly(w, script, met, launched);
    if forall i :: 0 <= i < |script| ==> FoldersKept(w, script[i], met[i], launched[i]) {
      KeptFoldersNoIdTwice(w, script, met, launched);
    }
    if HistoryOk(w, tree) && forall i :: 0 <= i < |script| ==> Honest(w, script[i], met[i], launched[i]) {
      HistoryLasts(w, script, met, launched, |script|);
    }
  }

  lemma HistoryGrows(w: World, script: seq<Surroundings>, met: seq<L.Tree>, launched: seq<Option<RunManifest>>,
                     s: Surroundings, running: Option<RunManifest>, after: L.Tree)
    requires IsHistory(w, script, met, launched) && Executed(w, s, met[|script|], running, after)
    ensures IsHistory(w, script + [s], met + [after], launched + [running])
  {
    var longer, trees, all := script + [s], met + [after], launched + [running];
    forall i | 0 <= i < |longer| ensures Executed(w, longer[i], trees[i], all[i], trees[i + 1]) {
      if i < |script| {
        assert Executed(w, script[i], met[i], launched[i], met[i + 1]);
      }
    }
  }

  lemma {:induction false} HistoryLasts(w: World, script: seq<Surroundings>, met: seq<L.Tree>,
                                        launched: seq<Option<RunManifest>>, k: nat)
    requires IsHistory(w, script, met, launched) && k <= |script| && HistoryOk(w, met[0])
    requires forall i :: 0 <= i < |script| ==> Honest(w, script[i], met[i], launched[i])
    ensures HistoryOk(w, met[k])
  {
    if k > 0 {
      HistoryLasts(w, script, met, launched, k - 1);
      assert Executed(w, script[k - 1], met[k - 1], launched[k - 1], met[k - 1 + 1]);
    }
  }

  // ---------------------------------------------------------------------------
  // It does occur
  // ---------------------------------------------------------------------------

  /** The tree without the folders under `logs/`, whose files stay. */
  function WithoutFolders(tree: L.Tree): (rest: L.Tree)
    ensures forall p :: p in rest <==> p in tree && !(tree[p].Folder? && "logs/" <= p)
    ensures forall p :: p in rest ==> rest[p] == tree[p]
  {
    map p | p in tree && !(tree[p].Folder? && "logs/" <= p) :: tree[p]
  }

  lemma WithoutFoldersSameFiles(tree: L.Tree)
    ensures L.SameFiles(tree, WithoutFolders(tree))
    ensures L.NoSymlinks(tree) ==> L.NoSymlinks(WithoutFolders(tree))
    ensures RealTree(tree) ==> RealTree(WithoutFolders(tree))
  {
  }

  /** Without attempt folders the first free number is the first number. */
  lemma FirstNumberIsFree(tree: L.Tree, start: nat, id: string)
    requires AttemptFolder(AttemptId(start)) !in tree && IsFirstFree(tree, start, id)
    ensures id == AttemptId(start)
  {
    var number: nat :| start <= number && id == AttemptId(number) && AllTaken(tree, start, number);
  }

  /** A prepared workspace without attempts, line breaks or resume binding. */
  ghost predicate IsPrepared(w: World, tree: L.Tree, m: RunManifest) {
    && RealTree(tree) && L.Accepts(w.env, tree) && OnDisk(w, tree) == Some(m)
    && m.phase == Prepared && m.attempts == []
    && L.NoBreaks(tree) && L.FileAt(tree, L.BINDING) == None
    && NoAttemptFolders(tree)
  }

  ghost predicate NoAttemptFolders(tree: L.Tree) {
    forall k: nat :: AttemptFolder(AttemptId(k)) !in tree
  }

  /** The upstream process removes the folder of its attempt with the logs in it, and the process that runs it dies
      at once. */
  ghost predicate RemovesFolder(w: World, tree: L.Tree, s: Surroundings) {
    && !Refuses(w, s, tree) && s.started && s.power == AllocationWrites(tree) + 2
    && forall t :: s.upstream(t) == WithoutFolders(t)
  }

  /** What that leaves. */
  function LeftWithoutFolder(w: World, tree: L.Tree, running: RunManifest): L.Tree
    requires running.current.Some?
  {
    WithoutFolders(Sealed(w, Begun(w, tree, running)))
  }

  lemma BegunIsReal(w: World, tree: L.Tree, running: RunManifest)
    requires RealTree(tree) && L.NoSymlinks(tree)
    requires running.current.Some? && L.IsAttemptId(running.current.value)
    ensures RealTree(Begun(w, tree, running)) && L.NoSymlinks(Begun(w, tree, running))
  {
    AttemptPathsAreListed(running.current.value);
    NamesAreListed();
  }

  /** Manifest and ledger apart, the files of the launched workspace are those it had. */
  lemma OtherFilesStay(w: World, tree: L.Tree, running: RunManifest, p: Path)
    requires running.current.Some? && AttemptFolder(running.current.value) !in tree
    requires p != "" && p[0] != 'm' && p[0] != 'i'
    ensures L.FileAt(Sealed(w, Begun(w, tree, running)), p) == L.FileAt(tree, p)
  {
    FolderIsNoFile(tree, running.current.value);
    assert L.FileAt(tree, p) == L.FileAt(FolderAdded(tree, running.current.value), p);
    assert L.MANIFEST[0] == 'm' && L.LEDGER[0] == 'i';
  }

  lemma LaunchIsAccepted(w: World, tree: L.Tree, m: RunManifest, running: RunManifest)
    requires GoodWorld(w) && IsPrepared(w, tree, m) && Launches(tree, m, running)
    ensures L.Accepts(w.env, Sealed(w, Begun(w, tree, running)))
    ensures IsSealed(w, Sealed(w, Begun(w, tree, running)), running)
  {
    var begun := Begun(w, tree, running);
    var sealed := Sealed(w, begun);
    BegunIsReal(w, tree, running);
    BegunIsListable(w, tree, running);
    SealIsAccepted(w, begun, running, sealed);
    BreaksStay(begun, sealed, sealed[L.LEDGER]);
    assert L.BINDING[0] == 'r';
    OtherFilesStay(w, tree, running, L.BINDING);
  }

  lemma FolderIsGone(w: World, tree: L.Tree, running: RunManifest, k: nat)
    requires running.current.Some? && AttemptFolder(AttemptId(k)) !in tree
    ensures AttemptFolder(AttemptId(k)) !in LeftWithoutFolder(w, tree, running)
  {
    var folder := AttemptFolder(AttemptId(k));
    assert folder[0] == 'l' && L.MANIFEST[0] == 'm' && L.LEDGER[0] == 'i' && "logs/" <= folder;
    assert folder[4] == '/' && |LOGS| == 4;
  }

  lemma LegacyLogsStay(w: World, tree: L.Tree, running: RunManifest)
    requires running.current.Some? && AttemptFolder(running.current.value) !in tree
    ensures HasLegacyLogs(LeftWithoutFolder(w, tree, running)) == HasLegacyLogs(tree)
  {
    var stdoutLog, stderrLog := "logs/upstream.stdout.log", "logs/upstream.stderr.log";
    assert stdoutLog[0] == 'l' && stderrLog[0] == 'l';
    OtherFilesStay(w, tree, running, stdoutLog);
    OtherFilesStay(w, tree, running, stderrLog);
    WithoutFoldersSameFiles(Sealed(w, Begun(w, tree, running)));
    assert L.FileAt(LeftWithoutFolder(w, tree, running), stdoutLog) == L.FileAt(tree, stdoutLog);
    assert L.FileAt(LeftWithoutFolder(w, tree, running), stderrLog) == L.FileAt(tree, stderrLog);
  }

  /** The workspace without the folder is accepted, and nothing tells that the number was used. */
  lemma RemovedFolderIsAccepted(w: World, tree: L.Tree, m: RunManifest, running: RunManifest)
    requires GoodWorld(w) && IsPrepared(w, tree, m) && Launches(tree, m, running)
    ensures
      var left := LeftWithoutFolder(w, tree, running);
      && L.Accepts(w.env, left) && OnDisk(w, left) == Some(running)
      && NoAttemptFolders(left) && HasLegacyLogs(left) == HasLegacyLogs(tree)
  {
    var sealed, left := Sealed(w, Begun(w, tree, running)), LeftWithoutFolder(w, tree, running);
    LaunchIsAccepted(w, tree, m, running);
    WithoutFoldersSameFiles(sealed);
    L.SameFilesSameVerdict(w.env, sealed, left);
    assert L.FileAt(sealed, L.MANIFEST) == L.FileAt(left, L.MANIFEST);
    LegacyLogsStay(w, tree, running);
    forall k: nat ensures AttemptFolder(AttemptId(k)) !in left {
      FolderIsGone(w, tree, running, k);
    }
  }

  method KilledLaunch(e: Execution, w: World, ghost m: RunManifest, s: Surroundings)
    returns (ghost running: RunManifest)
    requires GoodWorld(w) && GoodSurroundings(s) && IsPrepared(w, e.tree, m) && RemovesFolder(w, e.tree, s)
    modifies e
    ensures Launches(old(e.tree), m, running) && e.tree == LeftWithoutFolder(w, old(e.tree), running)
    ensures RealTree(e.tree)
  {
    ghost var before := e.tree;
    var exit;
    ghost var launched, point;
    exit, launched, point := e.Execute(w, s);
    running := launched.value;
    assert e.tree == s.upstream(Sealed(w, Begun(w, before, running)));
  }

  method FullLaunch(e: Execution, w: World, ghost m: RunManifest, s: Surroundings) returns (ghost running: RunManifest)
    requires GoodWorld(w) && GoodSurroundings(s) && RealTree(e.tree)
    requires L.Accepts(w.env, e.tree) && OnDisk(w, e.tree) == Some(m) && m.phase != Completed
    requires s.identityOk && !s.resume && s.sourceOkBefore && s.power >= 10
    modifies e
    ensures Launches(old(e.tree), m, running)
  {
    var exit;
    ghost var launched, point;
    ghost var before := e.tree;
    exit, launched, point := e.Execute(w, s);
    TenWritesAreEnough(w, s, before, launched, s.power, exit == Death, point, e.tree);
    running := launched.value;
  }

  /** The first launch of a prepared run is killed after its upstream process has removed the folder of its attempt.
      The workspace is accepted, and the second launch takes the same id. */
  method FolderTakenAway(w: World, tree: L.Tree, ghost m: RunManifest, s: Surroundings, again: Surroundings)
    returns (e: Execution, ghost first: RunManifest, ghost second: RunManifest)
    requires GoodWorld(w) && GoodSurroundings(s) && GoodSurroundings(again)
    requires IsPrepared(w, tree, m) && RemovesFolder(w, tree, s)
    requires again.identityOk && !again.resume && again.sourceOkBefore && again.power >= 10
    ensures first.current == second.current && first.current.Some?
    ensures !Distinct(second.attempts)
  {
    e := new Execution(tree);
    first := KilledLaunch(e, w, m, s);
    ghost var left := e.tree;
    RemovedFolderIsAccepted(w, tree, m, first);
    second := FullLaunch(e, w, first, again);
    SameIdAgain(tree, m, first, left, second);
  }

  lemma SameIdAgain(tree: L.Tree, m: RunManifest, first: RunManifest, left: L.Tree, second: RunManifest)
    requires NoAttemptFolders(tree) && NoAttemptFolders(left) && HasLegacyLogs(left) == HasLegacyLogs(tree)
    requires Launches(tree, m, first) && Launches(left, first, second)
    ensures first.current == second.current && first.current.Some?
    ensures !Distinct(second.attempts)
  {
    var start := if HasLegacyLogs(tree) then 2 else 1;
    FirstNumberIsFree(tree, start, first.current.value);
    FirstNumberIsFree(left, start, second.current.value);
    var attempts := second.attempts;
    assert attempts[|first.attempts| - 1] == attempts[|first.attempts|];
  }
}
