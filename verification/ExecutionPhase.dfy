/**
  The phases of a prepared run: `execute_prepared_run` and `_allocate_upstream_attempt_logs` in
  src/orbenchlab/workflow.py, on the workspace tree and the ledger of module Ledger.

  The upstream process may leave any tree behind.  The process that executes the run may die before any write.
  */
module ExecutionPhase {
  import opened Options
  import opened Ordering
  import opened Paths
  import L = Ledger

  // ---------------------------------------------------------------------------
  // Attempt names
  // ---------------------------------------------------------------------------

  function Digit(n: nat): char
    requires n < 10
  {
    '0' + n as char
  }

  function Digits(n: nat): string {
    if n < 10 then [Digit(n)] else Digits(n / 10) + [Digit(n % 10)]
  }

  /** `{number:04d}` */
  function Padded(n: nat): string {
    var digits := Digits(n);
    if |digits| >= 4 then digits else seq(4 - |digits|, _ => '0') + digits
  }

  /** `attempt-{number:04d}` */
  function AttemptId(n: nat): string {
    "attempt-" + Padded(n)
  }

  predicate AllDigits(s: string) {
    forall i :: 0 <= i < |s| ==> '0' <= s[i] <= '9'
  }

  function Value(s: string): int {
    if s == "" then 0 else Value(s[..|s| - 1]) * 10 + (s[|s| - 1] as int - '0' as int)
  }

  lemma {:induction false} DigitsValue(n: nat)
    ensures AllDigits(Digits(n)) && Digits(n) != "" && Value(Digits(n)) == n
  {
    if n >= 10 {
      DigitsValue(n / 10);
      var digits := Digits(n);
      assert digits[..|digits| - 1] == Digits(n / 10);
    } else {
      assert [Digit(n)][..0] == "";
    }
  }

  lemma {:induction false} LeadingZeros(k: nat, s: string)
    ensures Value(seq(k, _ => '0') + s) == Value(s)
  {
    var zeros: string := seq(k, _ => '0');
    if s != "" {
      LeadingZeros(k, s[..|s| - 1]);
      assert (zeros + s)[..|zeros + s| - 1] == zeros + s[..|s| - 1];
    } else if k > 0 {
      LeadingZeros(k - 1, "");
      assert (zeros + s)[..k - 1] == seq(k - 1, _ => '0') + "";
    }
  }

  /** Attempt ids are well formed and tell the numbers apart. */
  lemma AttemptIdValue(n: nat)
    ensures L.IsAttemptId(AttemptId(n)) && Value(AttemptId(n)[8..]) == n
  {
    DigitsValue(n);
    var digits := Digits(n);
    assert AttemptId(n)[8..] == Padded(n);
    if |digits| < 4 {
      LeadingZeros(4 - |digits|, digits);
    }
  }

  const LOGS: Path := "logs"

  function AttemptFolder(id: string): Path {
    "logs/" + id
  }

  lemma FoldersDiffer(n: nat, k: nat)
    requires n != k
    ensures AttemptFolder(AttemptId(n)) != AttemptFolder(AttemptId(k))
  {
    AttemptIdValue(n);
    AttemptIdValue(k);
    assert AttemptFolder(AttemptId(n))[5..] == AttemptId(n);
    assert AttemptFolder(AttemptId(k))[5..] == AttemptId(k);
  }

  ghost predicate AllTaken(tree: L.Tree, start: nat, end: nat) {
    forall k :: start <= k < end ==> AttemptFolder(AttemptId(k)) in tree
  }

  /** The id of the first number from `start` whose folder is not there. */
  ghost predicate IsFirstFree(tree: L.Tree, start: nat, id: string) {
    && L.IsAttemptId(id) && AttemptFolder(id) !in tree
    && exists number: nat :: start <= number && id == AttemptId(number) && AllTaken(tree, start, number)
  }

  /** The loop of `_allocate_upstream_attempt_logs`: the first number whose folder is not there. */
  method FreeNumber(tree: L.Tree, start: nat) returns (number: nat)
    ensures start <= number && AttemptFolder(AttemptId(number)) !in tree
    ensures AllTaken(tree, start, number)
  {
    number := start;
    ghost var rest := tree.Keys;
    while AttemptFolder(AttemptId(number)) in tree
      invariant start <= number
      invariant forall k :: start <= k < number ==> AttemptFolder(AttemptId(k)) in tree
      invariant rest <= tree.Keys
      invariant forall k :: k >= number && AttemptFolder(AttemptId(k)) in tree ==> AttemptFolder(AttemptId(k)) in rest
      decreases |rest|
    {
      var taken := AttemptFolder(AttemptId(number));
      assert |rest - {taken}| < |rest|;
      forall k | k >= number + 1 && AttemptFolder(AttemptId(k)) in tree
        ensures AttemptFolder(AttemptId(k)) in rest - {taken}
      {
        FoldersDiffer(k, number);
      }
      rest := rest - {taken};
      number := number + 1;
    }
  }

  // ---------------------------------------------------------------------------
  // The manifest on disk
  // ---------------------------------------------------------------------------

  datatype Phase = Prepared | Running | Completed | Failed

  function StateName(phase: Phase): string {
    match phase
    case Prepared => "prepared"
    case Running => "running"
    case Completed => "completed"
    case Failed => "failed"
  }

  datatype RunManifest = RunManifest(
    phase: Phase,
    jobName: string,
    attempts: seq<string>,
    current: Option<string>,
    runner: Option<nat>,
    exitCode: Option<int>,
    imageInspected: bool,
    aliasMatches: bool,
    failure: Option<string>)

  /** What the ledger's verifier reads of a manifest. */
  function View(m: RunManifest): L.Manifest {
    L.Manifest(StateName(m.phase), m.jobName,
               match m.current
               case None => L.Absent
               case Some(id) => L.Attempt(id, L.StdoutLog(id), L.StderrLog(id), L.AttemptReceipt(id)))
  }

  /** Hashing, reading and writing of manifests, and the listing of a tree. */
  datatype World = World(
    env: L.Env,
    encode: RunManifest -> Content,
    decode: Content -> Option<RunManifest>,
    listing: L.Tree -> seq<Path>)

  ghost predicate GoodWorld(w: World) {
    && L.DigestsAreWords(w.env) && L.DigestsDiffer(w.env)
    && (forall m :: w.decode(w.encode(m)) == Some(m))
    && (forall c :: w.decode(c).Some? ==> w.env.manifest(c) == Some(View(w.decode(c).value)))
    && (forall t: L.Tree :: Lists(w.listing(t), t.Keys))
  }

  function OnDisk(w: World, tree: L.Tree): Option<RunManifest> {
    match L.FileAt(tree, L.MANIFEST)
    case None => None
    case Some(content) => w.decode(content)
  }

  /** Every path is one that a directory listing can give. */
  ghost predicate RealTree(tree: L.Tree) {
    forall p :: p in tree ==> L.IsListed(p)
  }

  /** Between a manifest write and the ledger write after it, the verifier refuses the workspace. */
  lemma StaleLedgerIsRefused(w: World, sealed: L.Tree, tree: L.Tree)
    requires GoodWorld(w) && L.Listable(sealed)
    requires L.FileAt(tree, L.LEDGER) == Some(L.Written(w.env, sealed, w.listing(sealed)))
    requires L.FileAt(tree, L.MANIFEST) != L.FileAt(sealed, L.MANIFEST)
    ensures !L.Accepts(w.env, tree)
  {
    assert Lists(w.listing(sealed), sealed.Keys);
    L.AcceptsExactlyUnchanged(w.env, sealed, w.listing(sealed), tree);
    if L.ManifestOk(w.env, tree) {
      L.ManifestIsSealed(L.TheManifest(w.env, tree));
    }
  }

  lemma NameIsListed(name: string)
    requires '/' !in name && name !in {"", ".", ".."}
    ensures L.IsListed(name)
  {
    SplitWithoutSlash(name);
  }

  lemma NamesAreListed()
    ensures L.IsListed(L.LEDGER) && L.IsListed(L.MANIFEST) && L.IsListed("receipt.json") && L.IsListed(LOGS)
  {
    NameIsListed(L.LEDGER);
    NameIsListed(L.MANIFEST);
    NameIsListed("receipt.json");
    NameIsListed(LOGS);
  }

  lemma JoinedIsListed(a: Path, b: Path)
    requires L.IsListed(a) && L.IsListed(b)
    ensures L.IsListed(a + "/" + b)
  {
    SplitAppend(a, b);
    var parts := Split(a + "/" + b);
    forall i | 0 <= i < |parts| ensures parts[i] !in {"", ".", ".."} {
      assert parts[i] in Split(a) || parts[i] in Split(b);
    }
  }

  /** The paths that an attempt adds can be listed. */
  lemma AttemptPathsAreListed(id: string)
    requires L.IsAttemptId(id)
    ensures L.IsListed(AttemptFolder(id)) && L.IsListed(L.AttemptReceipt(id))
  {
    L.AttemptIdHasNoSlash(id);
    NameIsListed(id);
    NamesAreListed();
    JoinedIsListed(LOGS, id);
    assert AttemptFolder(id) == LOGS + "/" + id;
    JoinedIsListed(AttemptFolder(id), "receipt.json");
    assert L.AttemptReceipt(id) == AttemptFolder(id) + "/" + "receipt.json";
  }

  /** What a manifest and a ledger written after it leave. */
  ghost predicate IsSealed(w: World, tree: L.Tree, m: RunManifest) {
    && OnDisk(w, tree) == Some(m) && RealTree(tree) && L.NoSymlinks(tree)
    && (m.phase != Running ==> (L.Accepts(w.env, tree) <==> L.NoBreaks(tree)))
    && (L.NoBreaks(tree) ==> (L.Accepts(w.env, tree) <==> L.BindingOk(w.env, tree, View(m))))
  }

  lemma TreeGrows(tree: L.Tree, path: Path, node: L.Node)
    requires RealTree(tree) && L.IsListed(path)
    ensures RealTree(tree[path := node])
  {
  }

  lemma SealedManifest(w: World, tree: L.Tree, m: RunManifest, after: L.Tree, node: L.Node)
    requires GoodWorld(w) && (m.current.Some? ==> L.IsAttemptId(m.current.value))
    requires L.FileAt(tree, L.MANIFEST) == Some(w.encode(m)) && after == tree[L.LEDGER := node]
    ensures OnDisk(w, after) == Some(m)
    ensures L.ManifestOk(w.env, after) && L.TheManifest(w.env, after) == View(m)
  {
  }

  lemma BreaksStay(tree: L.Tree, after: L.Tree, node: L.Node)
    requires after == tree[L.LEDGER := node]
    ensures L.NoBreaks(after) <==> L.NoBreaks(tree)
  {
  }

  lemma CoveredAreListed(tree: L.Tree)
    requires RealTree(tree)
    ensures forall p :: L.Covers(tree, p) ==> L.IsListed(p)
  {
  }

  /** A manifest and then a ledger have been written: the verifier accepts the workspace, exactly unless a path has a
      line break or, while the run is running, the resume binding no longer holds. */
  lemma SealIsAccepted(w: World, tree: L.Tree, m: RunManifest, after: L.Tree)
    requires GoodWorld(w) && RealTree(tree) && L.NoSymlinks(tree)
    requires L.FileAt(tree, L.MANIFEST) == Some(w.encode(m)) && (m.current.Some? ==> L.IsAttemptId(m.current.value))
    requires after == tree[L.LEDGER := L.File(L.Written(w.env, tree, w.listing(tree)))]
    ensures IsSealed(w, after, m)
  {
    NamesAreListed();
    TreeGrows(tree, L.LEDGER, after[L.LEDGER]);
    SealedManifest(w, tree, m, after, after[L.LEDGER]);
    BreaksStay(tree, after, after[L.LEDGER]);
    CoveredAreListed(tree);
    assert Lists(w.listing(tree), tree.Keys);
    if m.phase != Running {
      L.RoundTripUnlessRunning(w.env, tree, w.listing(tree), after);
    }
    var clean := L.NoBreaks(tree);
    if clean {
      L.RoundTrip(w.env, tree, w.listing(tree), after);
    }
  }

  // ---------------------------------------------------------------------------
  // One execution
  // ---------------------------------------------------------------------------

  /** How a step ends: it goes on, the process died, or an error was raised. */
  datatype Flow = Going | Died | Raised

  /** How an execution ends.  `Refused` is an error before the upstream process is started. */
  datatype Exit = Done | Refused | Error | Death

  /** What an execution meets.  `power` is the number of writes the process lives through; `restored` is the resume
      binding that the second binding call writes, if it writes one. */
  datatype Surroundings = Surroundings(
    identityOk: bool,
    resume: bool,
    boundBefore: bool,
    boundAfter: bool,
    restored: Option<Content>,
    sourceOkBefore: bool,
    sourceOkAfter: bool,
    started: bool,
    exitCode: int,
    upstream: L.Tree -> L.Tree,
    inspected: bool,
    imageId: string,
    aliasId: string,
    ingest: L.Tree -> L.Tree,
    ingested: bool,
    receipt: Content,
    pid: nat,
    power: nat)

  /** The upstream process and the ingest leave a tree, and the ingest takes nothing away and touches neither the
      manifest nor the ledger. */
  ghost predicate GoodSurroundings(s: Surroundings) {
    && (forall t :: RealTree(t) ==> RealTree(s.upstream(t)))
    && (forall t :: RealTree(t) ==> RealTree(s.ingest(t)))
    && (forall t :: IngestKeeps(t, s.ingest(t)))
  }

  ghost predicate IngestKeeps(before: L.Tree, after: L.Tree) {
    && L.FileAt(after, L.MANIFEST) == L.FileAt(before, L.MANIFEST)
    && L.FileAt(after, L.LEDGER) == L.FileAt(before, L.LEDGER)
    && forall p :: p in before ==> p in after
  }

  /** `matches_runtime_image` */
  predicate AliasMatches(s: Surroundings) {
    s.imageId != "" && s.aliasId != "" && s.imageId == s.aliasId
  }

  /** What a completed run must have had. */
  predicate Earned(s: Surroundings) {
    && s.started && s.exitCode == 0 && s.sourceOkAfter && (s.resume ==> s.boundAfter)
    && s.inspected && AliasMatches(s) && s.ingested
  }

  predicate Ended(m: RunManifest) {
    (m.phase == Completed || m.phase == Failed) && m.runner == None
  }

  /** The end of a run that was started with manifest `m`: nothing else of the history changes, and a completed run
      has earned it. */
  ghost predicate Concludes(final: RunManifest, m: RunManifest, s: Surroundings) {
    && Ended(final) && final.attempts == m.attempts && final.current == m.current
    && (final.phase == Completed ==>
          Earned(s) && final.exitCode == Some(0) && final.imageInspected && final.aliasMatches)
  }

  /** What a handled end leaves on disk, for some final manifest. */
  ghost predicate Concluded(w: World, tree: L.Tree, m: RunManifest, s: Surroundings) {
    exists final ::
      Concludes(final, m, s) && OnDisk(w, tree) == Some(final) && (L.NoSymlinks(tree) ==> IsSealed(w, tree, final))
  }

  /** Logs of the layout that was used before attempts had folders. */
  predicate HasLegacyLogs(tree: L.Tree) {
    L.FileAt(tree, "logs/upstream.stdout.log").Some? || L.FileAt(tree, "logs/upstream.stderr.log").Some?
  }

  function FirstNumber(tree: L.Tree): nat {
    if HasLegacyLogs(tree) then 2 else 1
  }

  function PriorAttempts(tree: L.Tree, m: RunManifest): seq<string> {
    if HasLegacyLogs(tree) && m.attempts == [] then ["legacy-attempt-0001"] else m.attempts
  }

  // ---------------------------------------------------------------------------
  // The trees of an execution
  // ---------------------------------------------------------------------------

  function AllocationWrites(tree: L.Tree): nat {
    if LOGS in tree then 1 else 2
  }

  function FolderAdded(tree: L.Tree, id: string): L.Tree {
    (if LOGS in tree then tree else tree[LOGS := L.Folder])[AttemptFolder(id) := L.Folder]
  }

  function Manifested(w: World, tree: L.Tree, m: RunManifest): L.Tree {
    tree[L.MANIFEST := L.File(w.encode(m))]
  }

  function Sealed(w: World, tree: L.Tree): L.Tree {
    tree[L.LEDGER := L.File(L.Written(w.env, tree, w.listing(tree)))]
  }

  /** The new folder and the running manifest are there, the ledger is still the old one. */
  function Begun(w: World, before: L.Tree, running: RunManifest): L.Tree
    requires running.current.Some?
  {
    Manifested(w, FolderAdded(before, running.current.value), running)
  }

  /** What is there when the upstream process is gone. */
  function AfterUpstream(w: World, s: Surroundings, before: L.Tree, running: RunManifest): L.Tree
    requires running.current.Some?
  {
    var sealed := Sealed(w, Begun(w, before, running));
    if s.started then s.upstream(sealed) else sealed
  }

  function ReceiptAdded(tree: L.Tree, id: string, receipt: Content): L.Tree {
    tree[L.AttemptReceipt(id) := L.File(receipt)]
  }

  function ReceiptsAdded(tree: L.Tree, id: string, receipt: Content): L.Tree {
    ReceiptAdded(tree, id, receipt)["receipt.json" := L.File(receipt)]
  }

  /** The second binding call writes a binding where the upstream process has removed it or left one of the old
      version. */
  predicate Restores(s: Surroundings) {
    s.started && s.resume && s.boundAfter && s.restored.Some?
  }

  function Restored(s: Surroundings, left: L.Tree): L.Tree {
    if Restores(s) then left[L.BINDING := L.File(s.restored.value)] else left
  }

  /** The trees between the end of the upstream process and the final manifest. */
  ghost predicate Between(s: Surroundings, id: string, left: L.Tree, tree: L.Tree) {
    var bound := Restored(s, left);
    || tree == left
    || tree == bound
    || tree == ReceiptAdded(bound, id, s.receipt)
    || tree == ReceiptsAdded(bound, id, s.receipt)
    || tree == s.ingest(ReceiptsAdded(bound, id, s.receipt))
  }

  /** All checks before the ingest pass. */
  ghost predicate ReachesIngest(w: World, s: Surroundings, left: L.Tree) {
    && s.started && (s.resume ==> s.boundAfter) && L.Accepts(w.env, Restored(s, left)) && s.sourceOkAfter
    && s.exitCode == 0 && s.inspected && AliasMatches(s)
  }

  /** The tree over which the final manifest is written. */
  ghost function BeforeFinal(w: World, s: Surroundings, id: string, left: L.Tree): L.Tree {
    var reported := ReceiptsAdded(Restored(s, left), id, s.receipt);
    if ReachesIngest(w, s, left) then s.ingest(reported) else reported
  }

  /** The writes between the end of the upstream process and the final manifest. */
  ghost function EndWrites(w: World, s: Surroundings, left: L.Tree): nat {
    (if Restores(s) then 1 else 0) + 2 + (if ReachesIngest(w, s, left) then 1 else 0)
  }

  /** No symlink is left once the manifest has been written over `tree`. */
  ghost predicate NoOtherSymlinks(tree: L.Tree) {
    forall p :: p in tree && p != L.MANIFEST ==> !tree[p].Symlink?
  }

  lemma ManifestIsNoSymlink(w: World, tree: L.Tree, m: RunManifest)
    ensures L.NoSymlinks(Manifested(w, tree, m)) <==> NoOtherSymlinks(tree)
  {
    var after := Manifested(w, tree, m);
    assert forall p :: p in tree && p != L.MANIFEST ==> p in after && after[p] == tree[p];
  }

  /** When a death strikes that part of an execution which has `writes` writes before the final manifest: before it, or
      between it and its ledger if no symlink keeps the ledger from being written at all. */
  ghost predicate DiesAt(writes: nat, tree: L.Tree, power: nat, died: bool, point: Point) {
    && (died <==> power <= writes || (power == writes + 1 && NoOtherSymlinks(tree)))
    && (died ==> (point.HalfEnded? <==> power == writes + 1))
  }

  /** Where a death struck: before the running manifest, between it and its ledger, between that ledger and the final
      manifest, between that and the final ledger, or while a completed run was ingested again. */
  datatype Point =
    | Unstarted
    | HalfStarted(running: RunManifest)
    | Interrupted(running: RunManifest)
    | HalfEnded(running: RunManifest, final: RunManifest)
    | Reingested

  /** `tree` has one of those trees, with the final manifest written over it. */
  ghost predicate FinalOver(w: World, s: Surroundings, id: string, left: L.Tree, final: RunManifest, tree: L.Tree) {
    exists t :: Between(s, id, left, t) && tree == Manifested(w, t, final)
  }

  /** What a death leaves after the upstream process. */
  ghost predicate DiesAfterRun(w: World, s: Surroundings, m: RunManifest, id: string, left: L.Tree, tree: L.Tree,
                               point: Point) {
    || (point == Interrupted(m) && Between(s, id, left, tree))
    || (point.HalfEnded? && point.running == m && Concludes(point.final, m, s)
        && FinalOver(w, s, id, left, point.final, tree))
  }

  /** What a death leaves of the workspace `before`. */
  ghost predicate Leaves(w: World, s: Surroundings, before: L.Tree, m: RunManifest, tree: L.Tree, point: Point) {
    match point
    case Unstarted =>
      tree == before || (LOGS !in before && tree == before[LOGS := L.Folder])
      || exists id :: AttemptFolder(id) !in before && tree == FolderAdded(before, id)
    case HalfStarted(running) => Launches(before, m, running) && tree == Begun(w, before, running)
    case Interrupted(running) =>
      && Launches(before, m, running)
      && Between(s, running.current.value, AfterUpstream(w, s, before, running), tree)
    case HalfEnded(running, final) =>
      && Launches(before, m, running) && Concludes(final, running, s)
      && FinalOver(w, s, running.current.value, AfterUpstream(w, s, before, running), final, tree)
    case Reingested => m.phase == Completed && (tree == before || tree == s.ingest(before))
  }

  lemma RunLeaves(w: World, s: Surroundings, before: L.Tree, m: RunManifest, running: RunManifest, tree: L.Tree,
                  point: Point)
    requires Launches(before, m, running)
    requires DiesAfterRun(w, s, running, running.current.value, AfterUpstream(w, s, before, running), tree, point)
    ensures Leaves(w, s, before, m, tree, point)
  {
  }

  /** The attempt folders of `before` are still there. */
  ghost predicate FoldersStay(before: L.Tree, after: L.Tree) {
    forall id :: AttemptFolder(id) in before ==> AttemptFolder(id) in after
  }

  /** The upstream process took no attempt folder away from the workspace it was started in. */
  ghost predicate UpstreamKeeps(w: World, s: Surroundings, before: L.Tree, running: RunManifest)
    requires running.current.Some?
  {
    FoldersStay(Sealed(w, Begun(w, before, running)), AfterUpstream(w, s, before, running))
  }

  /** When and where an execution dies that has started the upstream process, and that nothing but this process takes
      an attempt folder away. */
  ghost predicate EndsExactly(w: World, s: Surroundings, before: L.Tree, running: RunManifest, power: nat, died: bool,
                              point: Point, tree: L.Tree)
    requires running.current.Some?
  {
    var left := AfterUpstream(w, s, before, running);
    && power >= AllocationWrites(before) + 2
    && DiesAt(EndWrites(w, s, left), BeforeFinal(w, s, running.current.value, left),
              power - AllocationWrites(before) - 2, died, point)
    && FoldersStay(left, tree)
    && (power == AllocationWrites(before) + 2 ==> died && point == Interrupted(running) && tree == left)
  }

  /** The same for one that has not come so far. */
  ghost predicate EndsBefore(before: L.Tree, power: nat, died: bool, point: Point, tree: L.Tree) {
    && power < AllocationWrites(before) + 2 && died
    && (point.HalfStarted? <==> power == AllocationWrites(before) + 1)
    && FoldersStay(before, tree)
  }

  /** No execution has more than ten writes. */
  lemma TenWritesAreEnough(w: World, s: Surroundings, before: L.Tree, launched: Option<RunManifest>, power: nat,
                           died: bool, point: Point, tree: L.Tree)
    requires power >= 10
    requires launched == None ==> EndsBefore(before, power, died, point, tree)
    requires launched.Some? ==>
      launched.value.current.Some? && EndsExactly(w, s, before, launched.value, power, died, point, tree)
    ensures launched.Some? && !died
  {
  }

  class Execution {
    var tree: L.Tree
    var power: nat

    constructor (tree: L.Tree)
      ensures this.tree == tree
    {
      this.tree, power := tree, 0;
    }

    method WriteNode(path: Path, node: L.Node) returns (flow: Flow)
      modifies this
      ensures flow == if old(power) == 0 then Died else Going
      ensures flow.Going? ==> tree == old(tree)[path := node] && power == old(power) - 1
      ensures flow.Died? ==> tree == old(tree) && power == 0
    {
      if power == 0 {
        return Died;
      }
      power := power - 1;
      tree := tree[path := node];
      return Going;
    }

    /** `_write_integrity` on the workspace as it is. */
    method WriteLedger(w: World) returns (flow: Flow)
      requires GoodWorld(w)
      modifies this
      ensures flow == if !L.NoSymlinks(old(tree)) then Raised else if old(power) == 0 then Died else Going
      ensures tree == if flow.Going? then Sealed(w, old(tree)) else old(tree)
      ensures power == if flow.Going? then old(power) - 1 else old(power)
    {
      assert Lists(w.listing(tree), tree.Keys);
      var text := L.WriteIntegrity(w.env, tree, w.listing(tree));
      if text.None? {
        return Raised;
      }
      flow := WriteNode(L.LEDGER, L.File(text.value));
    }

    method WriteManifest(w: World, m: RunManifest) returns (flow: Flow)
      requires GoodWorld(w) && RealTree(tree)
      modifies this
      ensures flow == if old(power) == 0 then Died else Going
      ensures RealTree(tree) && tree == if flow.Going? then Manifested(w, old(tree), m) else old(tree)
      ensures flow.Going? ==> OnDisk(w, tree) == Some(m) && power == old(power) - 1
      ensures L.NoSymlinks(old(tree)) ==> L.NoSymlinks(tree)
    {
      assert w.decode(w.encode(m)) == Some(m);
      NamesAreListed();
      TreeGrows(tree, L.MANIFEST, L.File(w.encode(m)));
      flow := WriteNode(L.MANIFEST, L.File(w.encode(m)));
    }

    /** The manifest and then the ledger are written. */
    method Seal(w: World, m: RunManifest) returns (flow: Flow)
      requires GoodWorld(w) && RealTree(tree) && (m.current.Some? ==> L.IsAttemptId(m.current.value))
      modifies this
      ensures RealTree(tree) && FoldersStay(old(tree), tree)
      ensures OnDisk(w, tree) == Some(m) || (flow.Died? && tree == old(tree))
      ensures flow.Raised? ==> !L.NoSymlinks(tree) && !L.NoSymlinks(old(tree))
      ensures flow.Going? ==> IsSealed(w, tree, m) && tree == Sealed(w, Manifested(w, old(tree), m))
      // a death leaves the old tree or the new manifest under the old ledger
      ensures flow.Died? ==> tree == if old(power) == 0 then old(tree) else Manifested(w, old(tree), m)
      ensures flow.Died? <==> old(power) == 0 || (old(power) == 1 && NoOtherSymlinks(old(tree)))
      ensures flow.Going? ==> power == old(power) - 2
    {
      flow := WriteManifest(w, m);
      if flow.Died? {
        return;
      }
      ghost var before := tree;
      ManifestIsNoSymlink(w, old(tree), m);
      flow := WriteLedger(w);
      if flow.Going? {
        SealIsAccepted(w, before, m, tree);
      }
    }

    /** `_write_upstream_attempt_receipt`: the attempt's own receipt and its alias at the top. */
    method WriteReceipts(w: World, id: string, receipt: Content) returns (flow: Flow)
      requires L.IsAttemptId(id) && RealTree(tree)
      modifies this
      ensures flow.Going? || flow.Died?
      ensures RealTree(tree) && FoldersStay(old(tree), tree)
      ensures L.FileAt(tree, L.MANIFEST) == L.FileAt(old(tree), L.MANIFEST)
      ensures flow.Going? ==> tree == ReceiptsAdded(old(tree), id, receipt)
      ensures flow.Died? ==> tree == if old(power) == 0 then old(tree) else ReceiptAdded(old(tree), id, receipt)
      ensures if flow.Died? then old(power) < 2 else power == old(power) - 2
    {
      AttemptPathsAreListed(id);
      NamesAreListed();
      assert L.AttemptReceipt(id)[0] == 'l' && L.MANIFEST[0] == 'm' && "receipt.json"[0] == 'r';
      TreeGrows(tree, L.AttemptReceipt(id), L.File(receipt));
      flow := WriteNode(L.AttemptReceipt(id), L.File(receipt));
      if flow.Going? {
        TreeGrows(tree, "receipt.json", L.File(receipt));
        flow := WriteNode("receipt.json", L.File(receipt));
      }
    }

    /** The end of a run: its final manifest and the ledger over a tree that follows what the upstream process left. */
    method Conclude(w: World, s: Surroundings, m: RunManifest, id: string, final: RunManifest, ghost left: L.Tree)
      returns (flow: Flow, ghost point: Point)
      requires GoodWorld(w) && RealTree(tree) && L.IsAttemptId(id) && m.current == Some(id) && Concludes(final, m, s)
      requires Between(s, id, left, tree)
      modifies this
      ensures RealTree(tree) && FoldersStay(old(tree), tree)
      ensures !flow.Died? ==> Concluded(w, tree, m, s) && OnDisk(w, tree) == Some(final)
      ensures flow.Died? ==> DiesAfterRun(w, s, m, id, left, tree, point)
      ensures DiesAt(0, old(tree), old(power), flow.Died?, point)
    {
      point := if power == 0 then Interrupted(m) else HalfEnded(m, final);
      flow := Seal(w, final);
    }

    /** A run that failed before its receipts were written. */
    method Fail(w: World, s: Surroundings, m: RunManifest, id: string, failure: string, ghost left: L.Tree)
      returns (exit: Exit, ghost point: Point)
      requires GoodWorld(w) && RealTree(tree) && L.IsAttemptId(id) && m.current == Some(id)
      requires tree == Restored(s, left)
      modifies this
      ensures RealTree(tree) && FoldersStay(old(tree), tree)
      ensures exit == Error || exit == Death
      ensures exit == Error ==> Concluded(w, tree, m, s) && CompletedOnDisk(w, tree, false)
      ensures exit == Death ==> DiesAfterRun(w, s, m, id, left, tree, point)
      ensures DiesAt(2, ReceiptsAdded(old(tree), id, s.receipt), old(power), exit == Death, point)
      ensures old(power) == 0 ==> tree == old(tree) && point == Interrupted(m)
    {
      var flow := WriteReceipts(w, id, s.receipt);
      if flow.Died? {
        return Death, Interrupted(m);
      }
      var final := m.(phase := Failed, runner := None, failure := Some(failure));
      flow, point := Conclude(w, s, m, id, final, left);
      exit := if flow.Died? then Death else Error;
    }

    /** The second call of `_bind_resume_config`, where it does not raise. */
    method Restore(s: Surroundings) returns (flow: Flow)
      requires RealTree(tree)
      modifies this
      ensures flow == if Restores(s) && old(power) == 0 then Died else Going
      ensures RealTree(tree) && FoldersStay(old(tree), tree)
      ensures tree == if flow.Going? then Restored(s, old(tree)) else old(tree)
      ensures power == if Restores(s) && flow.Going? then old(power) - 1 else old(power)
    {
      flow := Going;
      if Restores(s) {
        NameIsListed(L.BINDING);
        TreeGrows(tree, L.BINDING, L.File(s.restored.value));
        flow := WriteNode(L.BINDING, L.File(s.restored.value));
      }
    }

    /** Everything after the upstream process has ended, in the order of the checks. */
    method AfterRun(w: World, s: Surroundings, m: RunManifest, id: string) returns (exit: Exit, ghost point: Point)
      requires GoodWorld(w) && GoodSurroundings(s) && RealTree(tree) && L.IsAttemptId(id) && m.current == Some(id)
      requires s.started
      modifies this
      ensures RealTree(tree) && FoldersStay(old(tree), tree)
      ensures exit != Refused
      // completed exactly if it was earned and the verifier accepted what the upstream process left, its binding
      // restored
      ensures exit != Death ==>
        Concluded(w, tree, m, s) && CompletedOnDisk(w, tree, Earned(s) && L.Accepts(w.env, Restored(s, old(tree))))
      ensures exit == Done ==> Earned(s)
      ensures exit == Death ==> DiesAfterRun(w, s, m, id, old(tree), tree, point)
      ensures
        DiesAt(EndWrites(w, s, old(tree)), BeforeFinal(w, s, id, old(tree)), old(power), exit == Death, point)
      ensures old(power) == 0 ==> tree == old(tree) && point == Interrupted(m)
    {
      ghost var left := tree;
      if s.resume && !s.boundAfter {
        exit, point := Fail(w, s, m, id, "resume identity changed", left);
        return;
      }
      var flow := Restore(s);
      if flow.Died? {
        return Death, Interrupted(m);
      }
      assert Lists(w.listing(tree), tree.Keys);
      var ok := L.VerifyIntegrity(w.env, tree, w.listing(tree));
      if !ok {
        exit, point := Fail(w, s, m, id, "bound inputs changed", left);
        return;
      }
      if !s.sourceOkAfter {
        exit, point := Fail(w, s, m, id, "source snapshot changed", left);
        return;
      }
      exit, point := Decide(w, s, m, id, left);
    }

    /** The image evidence, the receipts, and the verdict. */
    method Decide(w: World, s: Surroundings, m: RunManifest, id: string, ghost left: L.Tree)
      returns (exit: Exit, ghost point: Point)
      requires GoodWorld(w) && GoodSurroundings(s) && RealTree(tree) && L.IsAttemptId(id) && m.current == Some(id)
      requires s.started && s.sourceOkAfter && (s.resume ==> s.boundAfter)
      requires tree == Restored(s, left) && L.Accepts(w.env, tree)
      modifies this
      ensures RealTree(tree) && FoldersStay(old(tree), tree)
      ensures exit != Refused
      ensures exit != Death ==> Concluded(w, tree, m, s) && CompletedOnDisk(w, tree, Earned(s))
      ensures exit == Done ==> Earned(s)
      ensures exit == Death ==> DiesAfterRun(w, s, m, id, left, tree, point)
      ensures DiesAt(2 + (if ReachesIngest(w, s, left) then 1 else 0), BeforeFinal(w, s, id, left), old(power),
                     exit == Death, point)
      ensures old(power) == 0 ==> tree == old(tree) && point == Interrupted(m)
    {
      var flow := WriteReceipts(w, id, s.receipt);
      if flow.Died? {
        return Death, Interrupted(m);
      }
      var final;
      flow, final := Judge(w, s, m, id, left);
      if flow.Died? {
        return Death, Interrupted(m);
      }
      flow, point := Conclude(w, s, m, id, final, left);
      exit := if flow.Died? then Death else if flow.Going? && final.phase == Completed then Done else Error;
    }

    /** The final manifest, after the ingest if it comes to that. */
    method Judge(w: World, s: Surroundings, m: RunManifest, id: string, ghost left: L.Tree)
      returns (flow: Flow, final: RunManifest)
      requires GoodSurroundings(s) && RealTree(tree) && m.current == Some(id)
      requires s.started && s.sourceOkAfter && (s.resume ==> s.boundAfter) && L.Accepts(w.env, Restored(s, left))
      requires tree == ReceiptsAdded(Restored(s, left), id, s.receipt)
      modifies this
      ensures RealTree(tree) && FoldersStay(old(tree), tree)
      ensures flow == if ReachesIngest(w, s, left) && old(power) == 0 then Died else Going
      ensures flow.Died? ==> tree == old(tree)
      ensures flow.Going? ==> tree == BeforeFinal(w, s, id, left)
      ensures flow.Going? ==> power == old(power) - if ReachesIngest(w, s, left) then 1 else 0
      ensures flow.Going? ==> Concludes(final, m, s) && (final.phase == Completed <==> Earned(s))
    {
      flow := Going;
      final := m.(imageInspected := s.inspected, aliasMatches := AliasMatches(s), runner := None);
      if s.exitCode != 0 {
        final := final.(phase := Failed, exitCode := Some(s.exitCode));
      } else if !s.inspected {
        final := final.(phase := Failed, failure := Some("upstream image identity could not be verified"));
      } else if !AliasMatches(s) {
        final := final.(phase := Failed, failure := Some("runtime image does not match the fixed base alias"));
      } else {
        flow := Ingest(s);
        final := if s.ingested then final.(phase := Completed, exitCode := Some(0))
                 else final.(phase := Failed, failure := Some("result ingest failed"));
      }
    }

    /** `ingest_harbor_bundle`, as one write. */
    method Ingest(s: Surroundings) returns (flow: Flow)
      requires GoodSurroundings(s) && RealTree(tree)
      modifies this
      ensures flow == if old(power) == 0 then Died else Going
      ensures tree == if flow.Going? then s.ingest(old(tree)) else old(tree)
      ensures RealTree(tree) && FoldersStay(old(tree), tree)
      ensures L.FileAt(tree, L.MANIFEST) == L.FileAt(old(tree), L.MANIFEST)
      ensures flow.Going? ==> power == old(power) - 1
    {
      if power == 0 {
        return Died;
      }
      power := power - 1;
      assert IngestKeeps(tree, s.ingest(tree));
      tree := s.ingest(tree);
      return Going;
    }

    /** The folder of a new attempt. */
    method AllocateAttempt() returns (flow: Flow, id: string)
      requires RealTree(tree) && L.NoSymlinks(tree)
      modifies this
      ensures flow == if old(power) < AllocationWrites(old(tree)) then Died else Going
      ensures IsFirstFree(old(tree), FirstNumber(old(tree)), id)
      ensures RealTree(tree) && L.NoSymlinks(tree) && FoldersStay(old(tree), tree)
      ensures flow.Going? ==> tree == FolderAdded(old(tree), id) && power == old(power) - AllocationWrites(old(tree))
      ensures flow.Died? ==> tree == old(tree) || (LOGS !in old(tree) && tree == old(tree)[LOGS := L.Folder])
    {
      var start := FirstNumber(tree);
      var number := FreeNumber(tree, start);
      id := AttemptId(number);
      assert AllTaken(tree, start, number);
      AttemptIdValue(number);
      AttemptPathsAreListed(id);
      NamesAreListed();
      flow := Going;
      if LOGS !in tree {
        TreeGrows(tree, LOGS, L.Folder);
        flow := WriteNode(LOGS, L.Folder);
      }
      if flow.Going? {
        TreeGrows(tree, AttemptFolder(id), L.Folder);
        flow := WriteNode(AttemptFolder(id), L.Folder);
      }
    }

    /** `execute_prepared_run`.  `launched` is the manifest under which the upstream process was started, and `point`
        is where a death struck. */
    method Execute(w: World, s: Surroundings)
      returns (exit: Exit, ghost launched: Option<RunManifest>, ghost point: Point)
      requires GoodWorld(w) && GoodSurroundings(s) && RealTree(tree)
      modifies this
      ensures RealTree(tree)
      // nothing is started, and no manifest written, for a workspace that the verifier refuses
      ensures exit == Refused <==> Refuses(w, s, old(tree))
      ensures exit == Refused ==> launched == None && tree == old(tree)
      // a completed run is never left
      ensures OnDisk(w, old(tree)).Some? && OnDisk(w, old(tree)).value.phase == Completed ==>
        launched == None && L.FileAt(tree, L.MANIFEST) == L.FileAt(old(tree), L.MANIFEST)
      // each launch adds one attempt, whose folder is new
      ensures launched.Some? ==>
        OnDisk(w, old(tree)).Some? && Launches(old(tree), OnDisk(w, old(tree)).value, launched.value)
      ensures exit == Done || exit == Error ==>
        (launched.Some? <==> OnDisk(w, old(tree)).value.phase != Completed)
      // every handled end after a launch leaves a final manifest, earned if it says completed, under a good ledger
      ensures launched.Some? && exit != Death ==> Concluded(w, tree, launched.value, s)
      ensures exit == Done && launched.Some? ==> Earned(s)
      // a death leaves exactly the tree of the point where it struck
      ensures exit == Death ==>
        OnDisk(w, old(tree)).Some? && Leaves(w, s, old(tree), OnDisk(w, old(tree)).value, tree, point)
      ensures exit == Death ==> (launched.Some? <==> point.Interrupted? || point.HalfEnded?)
      ensures exit == Death && launched.Some? ==> point.running == launched.value
      // which says what manifest is on disk and whether the verifier accepts what is left
      ensures exit == Death ==> DeathVerdict(w, s, old(tree), OnDisk(w, old(tree)).value, tree, point)
      // when a death strikes: before the upstream process, of which only one is between the running manifest and its
      // ledger, after the upstream process, or while a completed run is ingested again
      ensures launched == None && Starts(w, s, old(tree)) ==>
        EndsBefore(old(tree), s.power, exit == Death, point, tree)
      ensures launched.Some? ==> Starts(w, s, old(tree))
      ensures launched.Some? ==>
        EndsExactly(w, s, old(tree), launched.value, s.power, exit == Death, point, tree)
      ensures launched == None && !Refuses(w, s, old(tree)) && !Starts(w, s, old(tree)) ==>
        DiesAgain(s, old(tree), exit == Death, tree)
      ensures launched == None ==> FoldersStay(old(tree), tree)
    {
      launched, point := None, Unstarted;
      power := s.power;
      assert Lists(w.listing(tree), tree.Keys);
      var ok := L.VerifyIntegrity(w.env, tree, w.listing(tree));
      var onDisk := OnDisk(w, tree);
      if !ok || onDisk.None? || !s.identityOk {
        return Refused, None, Unstarted;
      }
      var m := onDisk.value;
      if m.phase == Completed {
        exit := Reingest(w, s, m);
        return exit, None, Reingested;
      }
      if (s.resume && !s.boundBefore) || !s.sourceOkBefore {
        return Refused, None, Unstarted;
      }
      exit, launched, point := Launch(w, s, m);
    }

    /** The writes before the upstream process: the folder, the running manifest, the ledger. */
    method Start(w: World, s: Surroundings, m: RunManifest)
      returns (flow: Flow, running: RunManifest, ghost point: Point)
      requires GoodWorld(w) && RealTree(tree) && L.NoSymlinks(tree)
      modifies this
      ensures flow.Going? || flow.Died?
      ensures RealTree(tree) && FoldersStay(old(tree), tree)
      ensures Launches(old(tree), m, running)
      ensures flow.Going? ==> tree == Sealed(w, Begun(w, old(tree), running)) && IsSealed(w, tree, running)
      ensures flow.Going? ==> AttemptFolder(running.current.value) in tree
      ensures flow.Died? ==>
        (point.Unstarted? || point == HalfStarted(running)) && Leaves(w, s, old(tree), m, tree, point)
      ensures
        var writes := AllocationWrites(old(tree)) + 2;
        if flow.Died? then old(power) < writes else power == old(power) - writes
      ensures flow.Died? && point.HalfStarted? <==> old(power) == AllocationWrites(old(tree)) + 1
    {
      var prior := PriorAttempts(tree, m);
      var id;
      flow, id := AllocateAttempt();
      running := m.(attempts := prior + [id], current := Some(id), phase := Running, runner := Some(s.pid));
      point := Unstarted;
      if flow.Died? {
        return;
      }
      point := if power == 0 then Unstarted else HalfStarted(running);
      flow := Seal(w, running);
    }

    /** The part of an execution that writes. */
    method Launch(w: World, s: Surroundings, m: RunManifest)
      returns (exit: Exit, ghost launched: Option<RunManifest>, ghost point: Point)
      requires GoodWorld(w) && GoodSurroundings(s) && RealTree(tree) && L.NoSymlinks(tree)
      requires L.Accepts(w.env, tree) && OnDisk(w, tree) == Some(m)
      modifies this
      ensures RealTree(tree) && exit != Refused
      ensures launched.Some? ==> Launches(old(tree), m, launched.value)
      ensures exit != Death ==> launched.Some? && Concluded(w, tree, launched.value, s)
      ensures exit == Done ==> Earned(s)
      ensures exit == Death ==>
        Leaves(w, s, old(tree), m, tree, point) && DeathVerdict(w, s, old(tree), m, tree, point)
      ensures exit == Death ==> !point.Reingested? && (launched.Some? <==> point.Interrupted? || point.HalfEnded?)
      ensures exit == Death && launched.Some? ==> point.running == launched.value
      ensures launched == None ==> EndsBefore(old(tree), old(power), exit == Death, point, tree)
      ensures launched.Some? ==>
        EndsExactly(w, s, old(tree), launched.value, old(power), exit == Death, point, tree)
    {
      ghost var before := tree;
      var flow, running;
      flow, running, point := Start(w, s, m);
      launched := None;
      if flow.Died? {
        DeathHasVerdict(w, s, before, m, tree, point);
        return Death, None, point;
      }
      launched := Some(running);
      exit, point := Run(w, s, running, before);
      if exit == Death {
        RunLeaves(w, s, before, m, running, tree, point);
        DeathHasVerdict(w, s, before, m, tree, point);
      }
    }

    /** The upstream process and everything after it. */
    method Run(w: World, s: Surroundings, m: RunManifest, ghost before: L.Tree) returns (exit: Exit, ghost point: Point)
      requires GoodWorld(w) && GoodSurroundings(s) && RealTree(tree)
      requires m.current.Some? && L.IsAttemptId(m.current.value) && tree == Sealed(w, Begun(w, before, m))
      modifies this
      ensures RealTree(tree) && exit != Refused
      ensures exit != Death ==> Concluded(w, tree, m, s)
      ensures exit == Done ==> Earned(s)
      ensures exit == Death ==> DiesAfterRun(w, s, m, m.current.value, AfterUpstream(w, s, before, m), tree, point)
      ensures
        var left := AfterUpstream(w, s, before, m);
        && DiesAt(EndWrites(w, s, left), BeforeFinal(w, s, m.current.value, left), old(power), exit == Death, point)
        && FoldersStay(left, tree)
      ensures old(power) == 0 ==> tree == AfterUpstream(w, s, before, m) && point == Interrupted(m)
    {
      var id := m.current.value;
      if !s.started {
        exit, point := Fail(w, s, m, id, "upstream command could not be started", tree);
        return;
      }
      tree := s.upstream(tree);
      exit, point := AfterRun(w, s, m, id);
    }

    method Reingest(w: World, s: Surroundings, m: RunManifest) returns (exit: Exit)
      requires GoodWorld(w) && GoodSurroundings(s) && RealTree(tree) && power == s.power
      requires L.Accepts(w.env, tree) && OnDisk(w, tree) == Some(m) && m.phase == Completed
      modifies this
      ensures exit != Refused
      ensures RealTree(tree) && FoldersStay(old(tree), tree)
      ensures L.FileAt(tree, L.MANIFEST) == L.FileAt(old(tree), L.MANIFEST)
      ensures DiesAgain(s, old(tree), exit == Death, tree)
      ensures exit == Death ==>
        Leaves(w, s, old(tree), m, tree, Reingested) && DeathVerdict(w, s, old(tree), m, tree, Reingested)
    {
      ghost var before := tree;
      exit := Again(w, s);
      if exit == Death {
        DeathHasVerdict(w, s, before, m, tree, Reingested);
      }
    }

    /** A completed run is only ingested again. */
    method Again(w: World, s: Surroundings) returns (exit: Exit)
      requires GoodWorld(w) && GoodSurroundings(s) && RealTree(tree)
      modifies this
      ensures exit != Refused
      ensures RealTree(tree) && FoldersStay(old(tree), tree)
      ensures L.FileAt(tree, L.MANIFEST) == L.FileAt(old(tree), L.MANIFEST)
      ensures old(power) == s.power ==> DiesAgain(s, old(tree), exit == Death, tree)
    {
      var flow := Ingest(s);
      if flow.Died? {
        return Death;
      }
      if !s.ingested {
        return Error;
      }
      NamesAreListed();
      ghost var before := tree;
      flow := WriteLedger(w);
      if flow.Going? {
        TreeGrows(before, L.LEDGER, tree[L.LEDGER]);
      }
      return if flow.Died? then Death else if flow.Raised? then Error else Done;
    }
  }

  /** When a death strikes a completed run that is ingested again, and what it leaves. */
  ghost predicate DiesAgain(s: Surroundings, before: L.Tree, died: bool, tree: L.Tree) {
    && (died <==> s.power == 0 || (s.power == 1 && s.ingested && L.NoSymlinks(s.ingest(before))))
    && (died ==> tree == if s.power == 0 then before else s.ingest(before))
  }

  /** The checks pass and the run is not completed. */
  ghost predicate Starts(w: World, s: Surroundings, tree: L.Tree) {
    !Refuses(w, s, tree) && OnDisk(w, tree).value.phase != Completed
  }

  /** The checks before anything is written. */
  ghost predicate Refuses(w: World, s: Surroundings, tree: L.Tree) {
    || !L.Accepts(w.env, tree) || OnDisk(w, tree).None? || !s.identityOk
    || (OnDisk(w, tree).value.phase != Completed && ((s.resume && !s.boundBefore) || !s.sourceOkBefore))
  }

  /** The manifest under which a process is started continues the one on disk by one new attempt. */
  ghost predicate Launches(tree: L.Tree, m: RunManifest, running: RunManifest) {
    && running.phase == Running && running.runner.Some? && running.current.Some?
    && running.attempts == PriorAttempts(tree, m) + [running.current.value]
    && IsFirstFree(tree, FirstNumber(tree), running.current.value)
  }

  /** A run that was killed, at any point after its ledger was written, can be resumed exactly if what it left agrees
      with that ledger outside the output of its own attempt and job, and its resume binding still holds. */
  lemma KilledRunIsResumable(w: World, sealed: L.Tree, m: RunManifest, left: L.Tree)
    requires GoodWorld(w) && L.Listable(sealed)
    requires m.phase == Running && (m.current.Some? ==> L.IsAttemptId(m.current.value))
    requires L.FileAt(sealed, L.MANIFEST) == Some(w.encode(m))
    requires L.FileAt(left, L.MANIFEST) == L.FileAt(sealed, L.MANIFEST)
    requires L.FileAt(left, L.LEDGER) == Some(L.Written(w.env, sealed, w.listing(sealed)))
    ensures L.Accepts(w.env, left) <==>
      L.NoSymlinks(left) && L.BindingOk(w.env, left, View(m)) && L.SameOutside(sealed, left, View(m))
  {
    assert w.decode(w.encode(m)) == Some(m);
    assert Lists(w.listing(sealed), sealed.Keys);
    assert L.ManifestOk(w.env, left) && L.TheManifest(w.env, left) == View(m);
    L.AcceptsExactlyUnchanged(w.env, sealed, w.listing(sealed), left);
  }

  /** The manifest on disk says completed exactly if `earned`. */
  ghost predicate CompletedOnDisk(w: World, tree: L.Tree, earned: bool) {
    OnDisk(w, tree).Some? && (OnDisk(w, tree).value.phase == Completed <==> earned)
  }

  // ---------------------------------------------------------------------------
  // What a death leaves
  // ---------------------------------------------------------------------------

  /** Manifest and ledger are the same files in both trees. */
  ghost predicate SameEvidence(a: L.Tree, b: L.Tree) {
    L.FileAt(a, L.MANIFEST) == L.FileAt(b, L.MANIFEST) && L.FileAt(a, L.LEDGER) == L.FileAt(b, L.LEDGER)
  }

  /** The upstream process left manifest and ledger of the workspace it was started in alone. */
  ghost predicate EvidenceLeft(w: World, s: Surroundings, before: L.Tree, running: RunManifest)
    requires running.current.Some?
  {
    SameEvidence(Sealed(w, Begun(w, before, running)), AfterUpstream(w, s, before, running))
  }

  lemma FoldersAreNoFiles(before: L.Tree, tree: L.Tree)
    requires L.NoSymlinks(before)
    requires tree == before || (LOGS !in before && tree == before[LOGS := L.Folder])
      || exists id :: AttemptFolder(id) !in before && tree == FolderAdded(before, id)
    ensures L.SameFiles(before, tree) && L.NoSymlinks(tree)
  {
  }

  /** A new attempt's manifest is never the one on disk. */
  lemma RunningIsNew(before: L.Tree, m: RunManifest, running: RunManifest)
    requires Launches(before, m, running)
    ensures |running.attempts| > |m.attempts| && running != m
  {
  }

  /** A manifest that the ledger was not written for is refused. */
  lemma OtherManifestIsRefused(w: World, before: L.Tree, m: RunManifest, tree: L.Tree, other: RunManifest)
    requires GoodWorld(w) && L.Accepts(w.env, before) && OnDisk(w, before) == Some(m)
    requires L.FileAt(tree, L.LEDGER) == L.FileAt(before, L.LEDGER)
    requires L.FileAt(tree, L.MANIFEST) == Some(w.encode(other)) && other != m
    ensures !L.Accepts(w.env, tree)
  {
    assert w.decode(w.encode(other)) == Some(other);
    var ledger := L.Parse(L.Lines(L.FileAt(before, L.LEDGER).value), map[]).value;
    assert L.MANIFEST in ledger && L.DigestOf(w.env, before, L.MANIFEST) == ledger[L.MANIFEST];
    assert L.FileAt(before, L.MANIFEST).value != w.encode(other);
  }

  /** Before the running manifest is written, a death leaves the old manifest in an accepted workspace. */
  lemma UnstartedIsAccepted(w: World, s: Surroundings, before: L.Tree, m: RunManifest, tree: L.Tree)
    requires GoodWorld(w) && L.Accepts(w.env, before) && OnDisk(w, before) == Some(m)
    requires Leaves(w, s, before, m, tree, Unstarted)
    ensures OnDisk(w, tree) == Some(m) && L.Accepts(w.env, tree)
  {
    FoldersAreNoFiles(before, tree);
    L.SameFilesSameVerdict(w.env, before, tree);
    assert L.FileAt(before, L.MANIFEST) == L.FileAt(tree, L.MANIFEST);
  }

  /** Between the running manifest and its ledger, a death leaves the running manifest in a refused workspace. */
  lemma HalfStartedIsRefused(w: World, s: Surroundings, before: L.Tree, m: RunManifest, tree: L.Tree,
                             running: RunManifest)
    requires GoodWorld(w) && L.Accepts(w.env, before) && OnDisk(w, before) == Some(m)
    requires Leaves(w, s, before, m, tree, HalfStarted(running))
    ensures OnDisk(w, tree) == Some(running) && !L.Accepts(w.env, tree)
  {
    RunningIsNew(before, m, running);
    assert w.decode(w.encode(running)) == Some(running);
    FolderIsNoFile(before, running.current.value);
    OtherManifestIsRefused(w, before, m, tree, running);
  }

  lemma FolderIsNoFile(before: L.Tree, id: string)
    requires AttemptFolder(id) !in before
    ensures L.SameFiles(before, FolderAdded(before, id))
  {
  }

  lemma BetweenKeepsEvidence(s: Surroundings, id: string, left: L.Tree, tree: L.Tree)
    requires GoodSurroundings(s) && Between(s, id, left, tree)
    ensures SameEvidence(left, tree)
  {
    var bound := Restored(s, left);
    var receipts := ReceiptsAdded(bound, id, s.receipt);
    assert L.AttemptReceipt(id)[0] == 'l' && L.MANIFEST[0] == 'm' && "receipt.json"[0] == 'r' && L.LEDGER[0] == 'i';
    assert L.BINDING[0] == 'r';
    assert SameEvidence(left, bound);
    assert SameEvidence(left, ReceiptAdded(bound, id, s.receipt)) && SameEvidence(left, receipts);
    assert IngestKeeps(receipts, s.ingest(receipts));
  }

  /** The tree for which the ledger of a launch is written. */
  lemma BegunIsListable(w: World, before: L.Tree, running: RunManifest)
    requires RealTree(before) && L.NoBreaks(before) && L.FileAt(before, L.MANIFEST).Some?
    requires running.current.Some? && AttemptFolder(running.current.value) !in before
    ensures L.Listable(Begun(w, before, running))
  {
    var begun := Begun(w, before, running);
    FolderIsNoFile(before, running.current.value);
    forall p | L.Covers(begun, p) ensures L.NoBreak(p) && L.IsListed(p) {
      assert L.FileAt(before, p) == L.FileAt(FolderAdded(before, running.current.value), p);
      assert L.Covers(before, p) && p in before;
    }
  }

  lemma InterruptedManifest(w: World, s: Surroundings, before: L.Tree, m: RunManifest, tree: L.Tree,
                            running: RunManifest)
    requires GoodWorld(w) && GoodSurroundings(s)
    requires Leaves(w, s, before, m, tree, Interrupted(running)) && EvidenceLeft(w, s, before, running)
    ensures OnDisk(w, tree) == Some(running)
  {
    BetweenKeepsEvidence(s, running.current.value, AfterUpstream(w, s, before, running), tree);
    SealedEvidence(w, Begun(w, before, running), running);
  }

  lemma HalfEndedManifest(w: World, s: Surroundings, before: L.Tree, m: RunManifest, tree: L.Tree,
                          running: RunManifest, final: RunManifest)
    requires GoodWorld(w) && Leaves(w, s, before, m, tree, HalfEnded(running, final))
    ensures OnDisk(w, tree) == Some(final)
  {
    var t :| Between(s, running.current.value, AfterUpstream(w, s, before, running), t)
          && tree == Manifested(w, t, final);
    assert w.decode(w.encode(final)) == Some(final);
  }

  /** Between the ledger of the launch and the final manifest, a death leaves the running manifest, and the workspace is
      accepted, so that the run can be resumed, exactly if what is left agrees with that ledger outside the output of
      the run's own attempt and job, and the resume binding still holds. */
  lemma InterruptedIsResumable(w: World, s: Surroundings, before: L.Tree, m: RunManifest, tree: L.Tree,
                               running: RunManifest)
    requires GoodWorld(w) && GoodSurroundings(s)
    requires RealTree(before) && L.NoBreaks(before) && OnDisk(w, before) == Some(m)
    requires Leaves(w, s, before, m, tree, Interrupted(running)) && EvidenceLeft(w, s, before, running)
    ensures OnDisk(w, tree) == Some(running)
    ensures L.Accepts(w.env, tree) <==>
      && L.NoSymlinks(tree) && L.BindingOk(w.env, tree, View(running))
      && L.SameOutside(Begun(w, before, running), tree, View(running))
  {
    var begun, id := Begun(w, before, running), running.current.value;
    BetweenKeepsEvidence(s, id, AfterUpstream(w, s, before, running), tree);
    BegunIsListable(w, before, running);
    SealedEvidence(w, begun, running);
    KilledRunIsResumable(w, begun, running, tree);
  }

  lemma SealedEvidence(w: World, tree: L.Tree, m: RunManifest)
    requires GoodWorld(w) && L.FileAt(tree, L.MANIFEST) == Some(w.encode(m))
    ensures L.FileAt(Sealed(w, tree), L.MANIFEST) == Some(w.encode(m)) && w.decode(w.encode(m)) == Some(m)
    ensures L.FileAt(Sealed(w, tree), L.LEDGER) == Some(L.Written(w.env, tree, w.listing(tree)))
  {
  }

  lemma FinalOverStaleLedger(w: World, begun: L.Tree, running: RunManifest, t: L.Tree, final: RunManifest)
    requires GoodWorld(w) && L.Listable(begun) && L.FileAt(begun, L.MANIFEST) == Some(w.encode(running))
    requires SameEvidence(Sealed(w, begun), t) && final != running
    ensures OnDisk(w, Manifested(w, t, final)) == Some(final) && !L.Accepts(w.env, Manifested(w, t, final))
  {
    SealedEvidence(w, begun, running);
    assert w.decode(w.encode(final)) == Some(final);
    StaleLedgerIsRefused(w, begun, Manifested(w, t, final));
  }

  /** Between the final manifest and its ledger, a death leaves the final manifest in a refused workspace. */
  lemma HalfEndedIsRefused(w: World, s: Surroundings, before: L.Tree, m: RunManifest, tree: L.Tree,
                           running: RunManifest, final: RunManifest)
    requires GoodWorld(w) && GoodSurroundings(s)
    requires RealTree(before) && L.NoBreaks(before) && OnDisk(w, before) == Some(m)
    requires Leaves(w, s, before, m, tree, HalfEnded(running, final)) && EvidenceLeft(w, s, before, running)
    ensures OnDisk(w, tree) == Some(final) && !L.Accepts(w.env, tree)
  {
    var begun, id, left := Begun(w, before, running), running.current.value, AfterUpstream(w, s, before, running);
    var t :| Between(s, id, left, t) && tree == Manifested(w, t, final);
    BetweenKeepsEvidence(s, id, left, t);
    BegunIsListable(w, before, running);
    FinalOverStaleLedger(w, begun, running, t, final);
  }

  /** While a completed run is ingested again, a death leaves its manifest, and the workspace is accepted exactly if
      the ingest changed nothing that the ledger covers. */
  lemma ReingestedVerdict(w: World, s: Surroundings, sealed: L.Tree, before: L.Tree, m: RunManifest, tree: L.Tree)
    requires GoodWorld(w) && GoodSurroundings(s) && L.Listable(sealed)
    requires L.FileAt(before, L.LEDGER) == Some(L.Written(w.env, sealed, w.listing(sealed)))
    requires L.Accepts(w.env, before) && OnDisk(w, before) == Some(m) && Leaves(w, s, before, m, tree, Reingested)
    ensures OnDisk(w, tree) == Some(m)
    ensures L.Accepts(w.env, tree) <==> L.NoSymlinks(tree) && L.SameOutside(sealed, tree, View(m))
  {
    assert tree == before || IngestKeeps(before, s.ingest(before));
    assert SameEvidence(before, tree);
    assert Lists(w.listing(sealed), sealed.Keys);
    assert L.ManifestOk(w.env, tree) && L.TheManifest(w.env, tree) == View(m);
    L.AcceptsExactlyUnchanged(w.env, sealed, w.listing(sealed), tree);
  }

  /** The ledger of `tree` was written for `sealed`. */
  ghost predicate LedgerFor(w: World, sealed: L.Tree, tree: L.Tree) {
    L.Listable(sealed) && L.FileAt(tree, L.LEDGER) == Some(L.Written(w.env, sealed, w.listing(sealed)))
  }

  /** Which manifest a death leaves, and when the verifier accepts the workspace that it leaves. */
  ghost predicate DeathVerdict(w: World, s: Surroundings, before: L.Tree, m: RunManifest, tree: L.Tree, point: Point) {
    match point
    case Unstarted => OnDisk(w, tree) == Some(m) && L.Accepts(w.env, tree)
    case HalfStarted(running) => OnDisk(w, tree) == Some(running) && !L.Accepts(w.env, tree)
    case Interrupted(running) =>
      running.current.Some? && (EvidenceLeft(w, s, before, running) ==>
        && OnDisk(w, tree) == Some(running)
        && (L.NoBreaks(before) ==>
              (L.Accepts(w.env, tree) <==>
                 && L.NoSymlinks(tree) && L.BindingOk(w.env, tree, View(running))
                 && L.SameOutside(Begun(w, before, running), tree, View(running)))))
    case HalfEnded(running, final) =>
      && OnDisk(w, tree) == Some(final) && running.current.Some?
      && (EvidenceLeft(w, s, before, running) && L.NoBreaks(before) ==> !L.Accepts(w.env, tree))
    case Reingested =>
      && OnDisk(w, tree) == Some(m)
      && forall sealed :: LedgerFor(w, sealed, before) ==>
           (L.Accepts(w.env, tree) <==> L.NoSymlinks(tree) && L.SameOutside(sealed, tree, View(m)))
  }

  lemma DeathHasVerdict(w: World, s: Surroundings, before: L.Tree, m: RunManifest, tree: L.Tree, point: Point)
    requires GoodWorld(w) && GoodSurroundings(s) && RealTree(before)
    requires L.Accepts(w.env, before) && OnDisk(w, before) == Some(m) && Leaves(w, s, before, m, tree, point)
    ensures DeathVerdict(w, s, before, m, tree, point)
  {
    match point
    case Unstarted => UnstartedIsAccepted(w, s, before, m, tree);
    case HalfStarted(running) => HalfStartedIsRefused(w, s, before, m, tree, running);
    case Interrupted(running) =>
      if EvidenceLeft(w, s, before, running) {
        InterruptedManifest(w, s, before, m, tree, running);
        if L.NoBreaks(before) {
          InterruptedIsResumable(w, s, before, m, tree, running);
        }
      }
    case HalfEnded(running, final) =>
      HalfEndedManifest(w, s, before, m, tree, running, final);
      if EvidenceLeft(w, s, before, running) && L.NoBreaks(before) {
        HalfEndedIsRefused(w, s, before, m, tree, running, final);
      }
    case Reingested =>
      assert tree == before || IngestKeeps(before, s.ingest(before));
      forall sealed | LedgerFor(w, sealed, before)
        ensures L.Accepts(w.env, tree) <==> L.NoSymlinks(tree) && L.SameOutside(sealed, tree, View(m))
      {
        ReingestedVerdict(w, s, sealed, before, m, tree);
      }
  }
}
