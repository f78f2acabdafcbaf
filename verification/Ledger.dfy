/**
  The integrity ledger of a run workspace: `_write_integrity` and `_verify_integrity` in src/orbenchlab/workflow.py.

  A workspace is a map from relative paths to nodes.  Hashing and JSON reading are parameters; the only facts used are
  that a digest is a word without blanks or line breaks and, where it is said, that digests differ when contents do.
  */
module Ledger {
  import opened Options
  import opened Ordering
  import opened Paths

  datatype Node = File(content: Content) | Folder | Symlink

  type Tree = map<Path, Node>

  /** `upstream_attempt` in the manifest. */
  datatype Upstream = Absent | Malformed | Attempt(id: string, stdoutLog: Path, stderrLog: Path, receipt: Path)

  /** A readable manifest: `jobName` is empty unless it is a string. */
  datatype Manifest = Manifest(state: string, jobName: string, upstream: Upstream)

  /** A readable resume binding. */
  datatype Binding = Binding(version: string, rawDigest: Option<string>, semanticDigest: Option<string>)

  /** Hashing and reading.  `semantic` is None for a config that is not an object or has no canonical form. */
  datatype Env = Env(
    sha: Content -> string,
    manifest: Content -> Option<Manifest>,
    binding: Content -> Option<Binding>,
    isObject: Content -> bool,
    semantic: Content -> Option<string>)

  // ---------------------------------------------------------------------------
  // Lines
  // ---------------------------------------------------------------------------

  /** The characters at which `splitlines` breaks. */
  predicate IsBreak(c: char) {
    || '\n' <= c <= '\r' || '\U{001C}' <= c <= '\U{001E}' || c == '\U{0085}'
    || '\U{2028}' <= c <= '\U{2029}'
  }

  predicate IsSpace(c: char) {
    || IsBreak(c) || c == ' ' || c == '\t' || c == '\U{001F}' || c == '\U{00A0}' || c == '\U{1680}'
    || '\U{2000}' <= c <= '\U{200A}' || c == '\U{202F}' || c == '\U{205F}' || c == '\U{3000}'
  }

  predicate NoBreak(s: string) {
    forall i :: 0 <= i < |s| ==> !IsBreak(s[i])
  }

  /** `not line.strip()`. */
  predicate IsBlank(line: string) {
    forall i :: 0 <= i < |line| ==> IsSpace(line[i])
  }

  function BreakAt(s: string): (i: nat)
    ensures i <= |s| && NoBreak(s[..i])
    ensures i < |s| ==> IsBreak(s[i])
  {
    if s == "" || IsBreak(s[0]) then 0
    else
      var i := 1 + BreakAt(s[1..]);
      assert s[..i] == [s[0]] + s[1..][..i - 1];
      i
  }

  /** The lines of a text.  A break that ends the text leaves an empty line, which the reader skips. */
  function Lines(s: string): (lines: seq<string>)
    decreases |s|
  {
    var i := BreakAt(s);
    if i == |s| then [s] else [s[..i]] + Lines(s[i + 1..])
  }

  /** Every row followed by a line feed. */
  function Text(rows: seq<string>): string {
    if rows == [] then "" else rows[0] + "\n" + Text(rows[1..])
  }

  lemma {:induction false} BreakAfter(a: string, rest: string)
    requires NoBreak(a)
    ensures BreakAt(a + "\n" + rest) == |a|
  {
    var s := a + "\n" + rest;
    if a != "" {
      assert s[1..] == a[1..] + "\n" + rest;
      BreakAfter(a[1..], rest);
    }
  }

  lemma FirstLine(row: string, rest: string)
    requires NoBreak(row)
    ensures Lines(row + "\n" + rest) == [row] + Lines(rest)
  {
    var s := row + "\n" + rest;
    BreakAfter(row, rest);
    assert s[..|row|] == row;
    assert s[|row| + 1..] == rest;
  }

  /** What was written row by row is read back row by row. */
  lemma {:induction false} LinesOfText(rows: seq<string>)
    requires forall i :: 0 <= i < |rows| ==> NoBreak(rows[i])
    ensures Lines(Text(rows)) == rows + [""]
  {
    if rows == [] {
      assert Text(rows) == "";
    } else {
      LinesOfText(rows[1..]);
      FirstLine(rows[0], Text(rows[1..]));
      assert [rows[0]] + (rows[1..] + [""]) == rows + [""];
    }
  }

  lemma {:induction false} LinesHaveNoBreak(s: string, line: string)
    requires line in Lines(s)
    ensures NoBreak(line)
    decreases |s|
  {
    var i := BreakAt(s);
    if i < |s| && line != s[..i] {
      LinesHaveNoBreak(s[i + 1..], line);
    } else {
      assert s[..|s|] == s;
    }
  }

  // ---------------------------------------------------------------------------
  // One row
  // ---------------------------------------------------------------------------

  predicate IsDigest(d: string) {
    d != "" && forall i :: 0 <= i < |d| ==> !IsSpace(d[i])
  }

  function Row(digest: string, path: Path): string {
    digest + "  " + path
  }

  /** `line.split("  ", 1)`. */
  function SplitRow(line: string): Option<(string, string)> {
    if |line| < 2 then None
    else if line[0] == ' ' && line[1] == ' ' then Some(("", line[2..]))
    else
      match SplitRow(line[1..])
      case None => None
      case Some(pair) => Some(([line[0]] + pair.0, pair.1))
  }

  lemma {:induction false} SplitRowInverts(digest: string, path: Path)
    requires forall i :: 0 <= i < |digest| ==> digest[i] != ' '
    ensures SplitRow(Row(digest, path)) == Some((digest, path))
  {
    var line := Row(digest, path);
    if digest == "" {
      assert line[2..] == path;
    } else {
      assert line[1..] == Row(digest[1..], path);
      SplitRowInverts(digest[1..], path);
      assert [digest[0]] + digest[1..] == digest;
    }
  }

  lemma {:induction false} SplitRowSound(line: string)
    requires SplitRow(line).Some?
    ensures line == Row(SplitRow(line).value.0, SplitRow(line).value.1)
  {
    if line[0] == ' ' && line[1] == ' ' {
      assert line == line[..2] + line[2..];
    } else {
      SplitRowSound(line[1..]);
      assert line == [line[0]] + line[1..];
    }
  }

  /** A relative path that stays inside: not absolute, no `..`. */
  predicate StaysInside(path: Path) {
    !("/" <= path) && ".." !in Split(path)
  }

  /** What `run_root / relative` names: `Path` drops empty components and dots. */
  function Normal(path: Path): Path {
    Join(Proper(Split(path)))
  }

  function Proper(parts: seq<string>): seq<string> {
    if parts == [] then []
    else (if parts[0] == "" || parts[0] == "." then [] else [parts[0]]) + Proper(parts[1..])
  }

  /** A path as `rglob` lists it. */
  predicate IsListed(path: Path) {
    forall i :: 0 <= i < |Split(path)| ==> Split(path)[i] !in {"", ".", ".."}
  }

  lemma {:induction false} ProperIdle(parts: seq<string>)
    requires forall i :: 0 <= i < |parts| ==> parts[i] !in {"", ".", ".."}
    ensures Proper(parts) == parts
  {
    if parts != [] {
      ProperIdle(parts[1..]);
    }
  }

  lemma AbsoluteStart(path: Path)
    ensures "/" <= path ==> Split(path)[0] == ""
  {
  }

  lemma ListedIsNormal(path: Path)
    requires IsListed(path)
    ensures Normal(path) == path && StaysInside(path)
  {
    ProperIdle(Split(path));
    JoinSplit(path);
    AbsoluteStart(path);
  }

  // ---------------------------------------------------------------------------
  // The ledger as a map
  // ---------------------------------------------------------------------------

  type Ledger = map<Path, string>

  /** The entries of `lines`, added to those read so far; None for the reader's errors. */
  function Parse(lines: seq<string>, expected: Ledger): Option<Ledger> {
    if lines == [] then Some(expected)
    else if IsBlank(lines[0]) then Parse(lines[1..], expected)
    else
      match SplitRow(lines[0])
      case None => None
      case Some((digest, path)) =>
        if !StaysInside(path) || path in expected then None else Parse(lines[1..], expected[path := digest])
  }

  method ParseLedger(text: Content) returns (ledger: Option<Ledger>, names: seq<Path>)
    ensures ledger == Parse(Lines(text), map[])
    ensures ledger.Some? ==> forall path :: path in ledger.value <==> path in names
  {
    var lines := Lines(text);
    var expected: Ledger := map[];
    names := [];
    for i := 0 to |lines|
      invariant Parse(lines[i..], expected) == Parse(lines, map[])
      invariant forall path :: path in expected <==> path in names
    {
      var line := lines[i];
      assert lines[i..][1..] == lines[i + 1..];
      if !IsBlank(line) {
        var pair := SplitRow(line);
        if pair.None? {
          return None, [];
        }
        var (digest, path) := pair.value;
        if !StaysInside(path) || path in expected {
          return None, [];
        }
        expected := expected[path := digest];
        names := names + [path];
      }
    }
    return Some(expected), names;
  }

  const LEDGER: Path := "integrity.sha256"
  const MANIFEST: Path := "manifest.json"
  const BINDING: Path := "resume-binding.json"

  function LastName(path: Path): string {
    var parts := Split(path);
    parts[|parts| - 1]
  }

  /** The files the ledger covers: not itself, no temporaries, no lock. */
  predicate Ledgered(path: Path) {
    && path != LEDGER
    && LastName(path) != ".run.lock"
    && !HasInfix(LastName(path), ".tmp-")
  }

  predicate HasInfix(s: string, infix: string) {
    exists i :: 0 <= i <= |s| && infix <= s[i..]
  }

  function FileAt(tree: Tree, path: Path): Option<Content> {
    if path in tree && tree[path].File? then Some(tree[path].content) else None
  }

  predicate NoSymlinks(tree: Tree) {
    forall path :: path in tree ==> !tree[path].Symlink?
  }

  /** The paths that get a row, in the order in which they are listed. */
  function Covered(tree: Tree, candidates: seq<Path>): seq<Path> {
    if candidates == [] then []
    else (if Covers(tree, candidates[0]) then [candidates[0]] else []) + Covered(tree, candidates[1..])
  }

  predicate Covers(tree: Tree, path: Path) {
    FileAt(tree, path).Some? && Ledgered(path)
  }

  lemma {:induction false} CoveredNext(tree: Tree, candidates: seq<Path>, path: Path)
    ensures Covered(tree, candidates + [path])
         == if Covers(tree, path) then Covered(tree, candidates) + [path] else Covered(tree, candidates)
  {
    if candidates == [] {
      assert [path][1..] == [];
    } else {
      CoveredNext(tree, candidates[1..], path);
      assert (candidates + [path])[1..] == candidates[1..] + [path];
    }
  }

  /** The digest of a file, and nothing for what is not one. */
  function DigestOf(env: Env, tree: Tree, path: Path): string {
    match FileAt(tree, path)
    case None => ""
    case Some(content) => env.sha(content)
  }

  function RowsOf(env: Env, tree: Tree, paths: seq<Path>): (rows: seq<string>)
    ensures |rows| == |paths|
  {
    if paths == [] then [] else [Row(DigestOf(env, tree, paths[0]), paths[0])] + RowsOf(env, tree, paths[1..])
  }

  lemma {:induction false} CoveredIs(tree: Tree, candidates: seq<Path>)
    requires Distinct(candidates)
    ensures Distinct(Covered(tree, candidates))
    ensures forall path ::
      path in Covered(tree, candidates) <==> path in candidates && FileAt(tree, path).Some? && Ledgered(path)
  {
    if candidates != [] {
      CoveredIs(tree, candidates[1..]);
      assert candidates == [candidates[0]] + candidates[1..];
      assert candidates[0] !in candidates[1..];
    }
  }

  /** The text that `_write_integrity` writes. */
  function Written(env: Env, tree: Tree, candidates: seq<Path>): Content {
    Text(RowsOf(env, tree, Covered(tree, candidates)))
  }

  /** Looks for a symlink in a listing of the workspace. */
  method HasSymlink(tree: Tree, candidates: seq<Path>) returns (found: bool)
    requires Lists(candidates, tree.Keys)
    ensures found <==> !NoSymlinks(tree)
  {
    for i := 0 to |candidates|
      invariant forall k :: 0 <= k < i ==> !tree[candidates[k]].Symlink?
    {
      assert candidates[i] in tree.Keys;
      if tree[candidates[i]].Symlink? {
        return true;
      }
    }
    return false;
  }

  method CollectRows(env: Env, tree: Tree, candidates: seq<Path>) returns (rows: seq<string>)
    ensures rows == RowsOf(env, tree, Covered(tree, candidates))
  {
    rows := [];
    for i := 0 to |candidates|
      invariant rows == RowsOf(env, tree, Covered(tree, candidates[..i]))
    {
      var path := candidates[i];
      assert candidates[..i + 1] == candidates[..i] + [path];
      CoveredNext(tree, candidates[..i], path);
      if Covers(tree, path) {
        RowsAppend(env, tree, Covered(tree, candidates[..i]), path);
        rows := rows + [Row(DigestOf(env, tree, path), path)];
      }
    }
    assert candidates[..|candidates|] == candidates;
  }

  /** `_write_integrity`, from a listing of the workspace. */
  method WriteIntegrity(env: Env, tree: Tree, candidates: seq<Path>) returns (text: Option<Content>)
    requires Lists(candidates, tree.Keys)
    ensures text == if NoSymlinks(tree) then Some(Written(env, tree, candidates)) else None
  {
    var symlink := HasSymlink(tree, candidates);
    if symlink {
      return None;
    }
    var rows := CollectRows(env, tree, candidates);
    return Some(Text(rows));
  }

  lemma {:induction false} RowsAppend(env: Env, tree: Tree, paths: seq<Path>, path: Path)
    ensures RowsOf(env, tree, paths + [path]) == RowsOf(env, tree, paths) + [Row(DigestOf(env, tree, path), path)]
  {
    if paths != [] {
      RowsAppend(env, tree, paths[1..], path);
      assert (paths + [path])[1..] == paths[1..] + [path];
    }
  }

  // ---------------------------------------------------------------------------
  // Reading back what was written
  // ---------------------------------------------------------------------------

  ghost predicate DigestsAreWords(env: Env) {
    forall c :: IsDigest(env.sha(c))
  }

  ghost predicate DigestsDiffer(env: Env) {
    forall a, b :: env.sha(a) == env.sha(b) ==> a == b
  }

  lemma RowReadsBack(digest: string, path: Path)
    requires IsDigest(digest) && NoBreak(path)
    ensures NoBreak(Row(digest, path)) && !IsBlank(Row(digest, path))
    ensures SplitRow(Row(digest, path)) == Some((digest, path))
  {
    var row := Row(digest, path);
    assert !IsSpace(digest[0]) && row[0] == digest[0];
    forall i | 0 <= i < |row| ensures !IsBreak(row[i]) {
      if i < |digest| {
        assert row[i] == digest[i];
      } else if i >= |digest| + 2 {
        assert row[i] == path[i - |digest| - 2];
      }
    }
    SplitRowInverts(digest, path);
  }

  /** The paths of `paths` have been added to `before` with their digests, and nothing else. */
  ghost predicate Adds(env: Env, tree: Tree, paths: seq<Path>, before: Ledger, after: Ledger) {
    && (forall p :: p in after <==> p in before || p in paths)
    && (forall p :: p in after ==> after[p] == if p in before then before[p] else DigestOf(env, tree, p))
  }

  ghost predicate Readable(tree: Tree, paths: seq<Path>) {
    forall i :: 0 <= i < |paths| ==> FileAt(tree, paths[i]).Some? && NoBreak(paths[i]) && StaysInside(paths[i])
  }

  lemma {:induction false} ParseRows(env: Env, tree: Tree, paths: seq<Path>, before: Ledger)
    requires DigestsAreWords(env) && Readable(tree, paths) && Distinct(paths)
    requires forall i :: 0 <= i < |paths| ==> paths[i] !in before
    ensures Parse(RowsOf(env, tree, paths) + [""], before).Some?
    ensures Adds(env, tree, paths, before, Parse(RowsOf(env, tree, paths) + [""], before).value)
  {
    var rows := RowsOf(env, tree, paths);
    if paths == [] {
      assert (rows + [""])[1..] == [];
    } else {
      var p, d := paths[0], DigestOf(env, tree, paths[0]);
      RowReadsBack(d, p);
      assert (rows + [""])[0] == Row(d, p);
      assert (rows + [""])[1..] == RowsOf(env, tree, paths[1..]) + [""];
      ParseRows(env, tree, paths[1..], before[p := d]);
      assert paths == [p] + paths[1..];
    }
  }

  lemma {:induction false} RowsAt(env: Env, tree: Tree, paths: seq<Path>, i: nat)
    requires i < |paths|
    ensures RowsOf(env, tree, paths)[i] == Row(DigestOf(env, tree, paths[i]), paths[i])
  {
    if i > 0 {
      RowsAt(env, tree, paths[1..], i - 1);
    }
  }

  /** The ledger says exactly what the covered files of the tree are. */
  ghost predicate Records(env: Env, tree: Tree, ledger: Ledger) {
    && (forall p :: p in ledger <==> Covers(tree, p))
    && (forall p :: p in ledger ==> ledger[p] == DigestOf(env, tree, p))
  }

  /** Printer and parser: what is written for a tree reads back as the digests of its covered files. */
  lemma WrittenReadsBack(env: Env, tree: Tree, candidates: seq<Path>)
    requires DigestsAreWords(env) && Lists(candidates, tree.Keys)
    requires forall p :: Covers(tree, p) ==> NoBreak(p) && StaysInside(p)
    ensures Parse(Lines(Written(env, tree, candidates)), map[]).Some?
    ensures Records(env, tree, Parse(Lines(Written(env, tree, candidates)), map[]).value)
  {
    CoveredIs(tree, candidates);
    var paths := Covered(tree, candidates);
    forall i | 0 <= i < |paths|
      ensures FileAt(tree, paths[i]).Some? && NoBreak(paths[i]) && StaysInside(paths[i])
    {
      assert paths[i] in paths;
      assert Covers(tree, paths[i]);
    }
    var rows := RowsOf(env, tree, paths);
    forall i | 0 <= i < |rows| ensures NoBreak(rows[i]) {
      RowsAt(env, tree, paths, i);
      RowReadsBack(DigestOf(env, tree, paths[i]), paths[i]);
    }
    LinesOfText(rows);
    ParseRows(env, tree, paths, map[]);
  }

  lemma {:induction false} KeysHaveNoBreak(lines: seq<string>, before: Ledger)
    requires Parse(lines, before).Some?
    requires forall i :: 0 <= i < |lines| ==> NoBreak(lines[i])
    requires forall p :: p in before ==> NoBreak(p)
    ensures forall p :: p in Parse(lines, before).value ==> NoBreak(p)
  {
    if lines != [] {
      if IsBlank(lines[0]) {
        KeysHaveNoBreak(lines[1..], before);
      } else {
        var (digest, path) := SplitRow(lines[0]).value;
        SplitRowSound(lines[0]);
        assert forall i :: 0 <= i < |path| ==> path[i] == lines[0][|digest| + 2 + i];
        KeysHaveNoBreak(lines[1..], before[path := digest]);
      }
    }
  }

  // ---------------------------------------------------------------------------
  // The verifier
  // ---------------------------------------------------------------------------

  predicate Supported(state: string) {
    state in {"prepared", "running", "completed", "failed"}
  }

  function JobPrefix(m: Manifest): string {
    if m.jobName == "" then "" else "jobs/" + m.jobName + "/"
  }

  /** `attempt-[0-9]{4,}` */
  predicate IsAttemptId(id: string) {
    && |id| >= 12 && id[..8] == "attempt-"
    && forall i :: 8 <= i < |id| ==> '0' <= id[i] <= '9'
  }

  function StdoutLog(id: string): Path { "logs/" + id + "/upstream.stdout.log" }

  function StderrLog(id: string): Path { "logs/" + id + "/upstream.stderr.log" }

  function AttemptReceipt(id: string): Path { "logs/" + id + "/receipt.json" }

  predicate UpstreamOk(upstream: Upstream) {
    match upstream
    case Absent => true
    case Malformed => false
    case Attempt(id, stdoutLog, stderrLog, receipt) =>
      IsAttemptId(id) && stdoutLog == StdoutLog(id) && stderrLog == StderrLog(id) && receipt == AttemptReceipt(id)
  }

  /** `running_mutable`. */
  predicate RunningMutable(m: Manifest, path: Path) {
    if path == "receipt.json" then true
    else if "logs/" <= path then
      match m.upstream
      case Attempt(_, stdoutLog, stderrLog, receipt) => path == stdoutLog || path == stderrLog || path == receipt
      case _ => true
    else JobPrefix(m) != "" && JobPrefix(m) <= path
  }

  /** What may have changed since the ledger was written: nothing, unless the run is marked as running. */
  predicate Mutable(m: Manifest, path: Path) {
    m.state == "running" && RunningMutable(m, path)
  }

  /** A running job's config is checked against its resume binding, once there is one. */
  predicate BindingOk(env: Env, tree: Tree, m: Manifest) {
    m.state == "running" && JobPrefix(m) != "" && FileAt(tree, BINDING).Some? ==>
      var config := FileAt(tree, Normal(JobPrefix(m) + "config.json"));
      var binding := env.binding(FileAt(tree, BINDING).value);
      && config.Some? && binding.Some? && env.isObject(config.value)
      && BoundTo(env, binding.value, config.value)
  }

  predicate BoundTo(env: Env, binding: Binding, config: Content) {
    if binding.version == "3.0" then env.semantic(config).Some? && binding.semanticDigest == env.semantic(config)
    else binding.version == "2.0" && binding.rawDigest == Some("sha256:" + env.sha(config))
  }

  /** The manifest is a readable file with a supported state and valid attempt evidence. */
  predicate ManifestOk(env: Env, tree: Tree) {
    && FileAt(tree, MANIFEST).Some?
    && env.manifest(FileAt(tree, MANIFEST).value).Some?
    && Supported(TheManifest(env, tree).state)
    && UpstreamOk(TheManifest(env, tree).upstream)
  }

  function TheManifest(env: Env, tree: Tree): Manifest
    requires FileAt(tree, MANIFEST).Some? && env.manifest(FileAt(tree, MANIFEST).value).Some?
  {
    env.manifest(FileAt(tree, MANIFEST).value).value
  }

  /** What a ledger row asks of the tree. */
  predicate Holds(env: Env, tree: Tree, path: Path, digest: string) {
    FileAt(tree, Normal(path)).Some? && DigestOf(env, tree, Normal(path)) == digest
  }

  /** A file that should have a row and has none. */
  predicate Unexpected(tree: Tree, ledger: Ledger, m: Manifest, path: Path) {
    path !in ledger && Covers(tree, path) && !Mutable(m, path)
  }

  /** Outside what may have changed, the rows hold and no file lacks a row. */
  predicate Agrees(env: Env, tree: Tree, ledger: Ledger, m: Manifest) {
    && (forall path :: path in ledger && path != MANIFEST && !Mutable(m, path) ==> Holds(env, tree, path, ledger[path]))
    && (forall path :: path in tree ==> !Unexpected(tree, ledger, m, path))
  }

  /** What `_verify_integrity` accepts. */
  predicate Accepts(env: Env, tree: Tree) {
    && FileAt(tree, LEDGER).Some?
    && NoSymlinks(tree)
    && Parse(Lines(FileAt(tree, LEDGER).value), map[]).Some?
    && AcceptsLedger(env, tree, Parse(Lines(FileAt(tree, LEDGER).value), map[]).value)
  }

  predicate AcceptsLedger(env: Env, tree: Tree, ledger: Ledger) {
    && MANIFEST in ledger && ManifestOk(env, tree)
    && DigestOf(env, tree, MANIFEST) == ledger[MANIFEST]
    && BindingOk(env, tree, TheManifest(env, tree))
    && Agrees(env, tree, ledger, TheManifest(env, tree))
  }

  method RowsHold(env: Env, tree: Tree, ledger: Ledger, names: seq<Path>, m: Manifest) returns (ok: bool)
    requires forall path :: path in ledger <==> path in names
    ensures ok <==> forall path :: path in ledger && path != MANIFEST && !Mutable(m, path) ==>
      Holds(env, tree, path, ledger[path])
  {
    for i := 0 to |names|
      invariant forall k :: 0 <= k < i && names[k] != MANIFEST && !Mutable(m, names[k]) ==>
        names[k] in ledger && Holds(env, tree, names[k], ledger[names[k]])
    {
      var path := names[i];
      assert path in ledger;
      if path != MANIFEST && !Mutable(m, path) && !Holds(env, tree, path, ledger[path]) {
        return false;
      }
    }
    return true;
  }

  method NothingUnexpected(env: Env, tree: Tree, ledger: Ledger, listing: seq<Path>, m: Manifest) returns (ok: bool)
    requires Lists(listing, tree.Keys)
    ensures ok <==> forall path :: path in tree ==> !Unexpected(tree, ledger, m, path)
  {
    for i := 0 to |listing|
      invariant forall k :: 0 <= k < i ==> !Unexpected(tree, ledger, m, listing[k])
    {
      var unexpected := Unexpected(tree, ledger, m, listing[i]);
      assert listing[i] in tree.Keys;
      if unexpected {
        return false;
      }
    }
    return true;
  }

  /** `_verify_integrity`, from a listing of the workspace. */
  method VerifyIntegrity(env: Env, tree: Tree, listing: seq<Path>) returns (ok: bool)
    requires Lists(listing, tree.Keys)
    ensures ok <==> Accepts(env, tree)
  {
    var text := FileAt(tree, LEDGER);
    if text.None? {
      return false;
    }
    var symlink := HasSymlink(tree, listing);
    if symlink {
      return false;
    }
    var ledger, names := ParseLedger(text.value);
    if ledger.None? || MANIFEST !in ledger.value || !ManifestOk(env, tree)
      || DigestOf(env, tree, MANIFEST) != ledger.value[MANIFEST] {
      return false;
    }
    var m := TheManifest(env, tree);
    if !BindingOk(env, tree, m) {
      return false;
    }
    ok := RowsHold(env, tree, ledger.value, names, m);
    if ok {
      ok := NothingUnexpected(env, tree, ledger.value, listing, m);
    }
  }

  // ---------------------------------------------------------------------------
  // What the ledger proves
  // ---------------------------------------------------------------------------

  lemma NoTemporary(s: string)
    requires forall i :: 0 <= i < |s| - 1 && s[i] == '.' ==> s[i + 1] != 't'
    ensures !HasInfix(s, ".tmp-")
  {
    forall i | 0 <= i <= |s| ensures !(".tmp-" <= s[i..]) {
      TemporaryStarts(s, i);
    }
  }

  lemma TemporaryStarts(s: string, i: nat)
    requires i <= |s|
    ensures ".tmp-" <= s[i..] ==> i + 1 < |s| && s[i] == '.' && s[i + 1] == 't'
  {
  }

  lemma PlainNameIsLedgered(path: Path)
    requires '/' !in path && path != "" && path[0] != '.' && path != LEDGER
    requires forall i :: 0 <= i < |path| - 1 && path[i] == '.' ==> path[i + 1] != 't'
    ensures Ledgered(path) && IsListed(path)
  {
    SplitWithoutSlash(path);
    NoTemporary(path);
  }

  lemma ManifestIsSealed(m: Manifest)
    ensures Ledgered(MANIFEST) && !Mutable(m, MANIFEST)
  {
    PlainNameIsLedgered(MANIFEST);
    ManifestIsImmutable(m);
  }

  lemma ManifestIsImmutable(m: Manifest)
    ensures !Mutable(m, MANIFEST)
  {
    assert MANIFEST[0] == 'm' && "receipt.json"[0] == 'r' && "logs/"[0] == 'l';
    assert JobPrefix(m) != "" ==> JobPrefix(m)[0] == 'j';
  }

  /** Two trees have the same covered files, apart from those that may change. */
  ghost predicate SameOutside(before: Tree, after: Tree, m: Manifest) {
    forall p :: Ledgered(p) && !Mutable(m, p) ==> FileAt(before, p) == FileAt(after, p)
  }

  ghost predicate Listable(tree: Tree) {
    forall p :: Covers(tree, p) ==> NoBreak(p) && IsListed(p)
  }

  lemma AgreementMeansSame(env: Env, before: Tree, after: Tree, ledger: Ledger, m: Manifest, p: Path)
    requires DigestsDiffer(env) && Records(env, before, ledger) && Listable(before)
    requires Agrees(env, after, ledger, m) && Ledgered(p) && !Mutable(m, p) && p != MANIFEST
    ensures FileAt(before, p) == FileAt(after, p)
  {
    if p in ledger {
      assert Covers(before, p);
      ListedIsNormal(p);
      assert Holds(env, after, p, ledger[p]);
    } else if p in after {
      assert !Unexpected(after, ledger, m, p);
    }
  }

  lemma SameMeansAgreement(env: Env, before: Tree, after: Tree, ledger: Ledger, m: Manifest)
    requires Records(env, before, ledger) && Listable(before)
    requires SameOutside(before, after, m)
    ensures Agrees(env, after, ledger, m)
  {
    forall p | p in ledger && p != MANIFEST && !Mutable(m, p) ensures Holds(env, after, p, ledger[p]) {
      assert Covers(before, p);
      ListedIsNormal(p);
    }
    forall p | p in after ensures !Unexpected(after, ledger, m, p) {
      if Covers(after, p) && !Mutable(m, p) {
        assert FileAt(before, p) == FileAt(after, p);
        assert Covers(before, p);
      }
    }
  }

  /** The verifier against a ledger that was written for `before`: it accepts a later tree exactly when that tree has
      no symlink, its manifest and binding are in order, and every covered file outside what the manifest lets
      change is there with the same content, and no other is. */
  lemma AcceptsExactlyUnchanged(env: Env, before: Tree, candidates: seq<Path>, after: Tree)
    requires DigestsAreWords(env) && DigestsDiffer(env)
    requires Lists(candidates, before.Keys) && Listable(before)
    requires FileAt(after, LEDGER) == Some(Written(env, before, candidates))
    ensures Accepts(env, after) <==>
      && NoSymlinks(after) && ManifestOk(env, after)
      && BindingOk(env, after, TheManifest(env, after))
      && SameOutside(before, after, TheManifest(env, after))
  {
    forall p | Covers(before, p) ensures NoBreak(p) && StaysInside(p) {
      ListedIsNormal(p);
    }
    WrittenReadsBack(env, before, candidates);
    var ledger := Parse(Lines(Written(env, before, candidates)), map[]).value;
    if ManifestOk(env, after) {
      var m := TheManifest(env, after);
      ManifestIsSealed(m);
      if AcceptsLedger(env, after, ledger) {
        assert Covers(before, MANIFEST);
        assert FileAt(before, MANIFEST) == FileAt(after, MANIFEST);
        forall p | Ledgered(p) && !Mutable(m, p) ensures FileAt(before, p) == FileAt(after, p) {
          if p != MANIFEST {
            AgreementMeansSame(env, before, after, ledger, m, p);
          }
        }
      }
      if SameOutside(before, after, m) {
        assert FileAt(before, MANIFEST) == FileAt(after, MANIFEST);
        assert Covers(before, MANIFEST);
        SameMeansAgreement(env, before, after, ledger, m);
      }
    }
  }

  ghost predicate SameFiles(a: Tree, b: Tree) {
    forall p :: FileAt(a, p) == FileAt(b, p)
  }

  lemma SameFilesAgree(env: Env, a: Tree, b: Tree, ledger: Ledger, m: Manifest)
    requires SameFiles(a, b) && Agrees(env, a, ledger, m)
    ensures Agrees(env, b, ledger, m)
  {
    forall path | path in ledger && path != MANIFEST && !Mutable(m, path) ensures Holds(env, b, path, ledger[path]) {
      assert Holds(env, a, path, ledger[path]);
      assert FileAt(a, Normal(path)) == FileAt(b, Normal(path));
    }
    forall path | path in b ensures !Unexpected(b, ledger, m, path) {
      assert FileAt(a, path) == FileAt(b, path);
      assert path in a ==> !Unexpected(a, ledger, m, path);
    }
  }

  /** Folders do not matter to the verifier. */
  lemma SameFilesSameVerdict(env: Env, a: Tree, b: Tree)
    requires SameFiles(a, b) && NoSymlinks(b)
    ensures Accepts(env, a) ==> Accepts(env, b)
  {
    if Accepts(env, a) {
      assert FileAt(a, LEDGER) == FileAt(b, LEDGER) && FileAt(a, MANIFEST) == FileAt(b, MANIFEST);
      var ledger := Parse(Lines(FileAt(a, LEDGER).value), map[]).value;
      var m := TheManifest(env, a);
      SameFilesAgree(env, a, b, ledger, m);
      assert FileAt(a, BINDING) == FileAt(b, BINDING);
      assert FileAt(a, Normal(JobPrefix(m) + "config.json")) == FileAt(b, Normal(JobPrefix(m) + "config.json"));
    }
  }

  /** What the writer leaves is accepted exactly when the manifest and the binding are in order. */
  lemma RoundTrip(env: Env, tree: Tree, candidates: seq<Path>, after: Tree)
    requires DigestsAreWords(env) && DigestsDiffer(env)
    requires Lists(candidates, tree.Keys) && Listable(tree) && NoSymlinks(tree)
    requires after == tree[LEDGER := File(Written(env, tree, candidates))]
    ensures Accepts(env, after) <==> ManifestOk(env, after) && BindingOk(env, after, TheManifest(env, after))
  {
    AcceptsExactlyUnchanged(env, tree, candidates, after);
    OnlyLedgerDiffers(tree, after, File(Written(env, tree, candidates)));
  }

  lemma OnlyLedgerDiffers(tree: Tree, after: Tree, node: Node)
    requires after == tree[LEDGER := node] && node.File? && NoSymlinks(tree)
    ensures NoSymlinks(after)
    ensures forall m :: SameOutside(tree, after, m)
  {
  }

  /** A covered path with a line break in its name is never accepted, unless it is one that may change. */
  lemma LineBreakIsRefused(env: Env, tree: Tree, path: Path)
    requires Accepts(env, tree) && Covers(tree, path) && !Mutable(TheManifest(env, tree), path)
    ensures NoBreak(path)
  {
    var lines := Lines(FileAt(tree, LEDGER).value);
    var ledger := Parse(lines, map[]).value;
    forall i | 0 <= i < |lines| ensures NoBreak(lines[i]) {
      assert lines[i] in lines;
      LinesHaveNoBreak(FileAt(tree, LEDGER).value, lines[i]);
    }
    KeysHaveNoBreak(lines, map[]);
    assert path in tree;
    assert !Unexpected(tree, ledger, TheManifest(env, tree), path);
  }

  /** No covered path that may change has a line break. */
  ghost predicate MutableHasNoBreaks(tree: Tree, m: Manifest) {
    forall p :: Covers(tree, p) && Mutable(m, p) ==> NoBreak(p)
  }

  lemma CoversStays(tree: Tree, after: Tree, node: Node, p: Path)
    requires after == tree[LEDGER := node]
    ensures Covers(after, p) <==> Covers(tree, p)
  {
  }

  ghost predicate NoBreaks(tree: Tree) {
    forall p :: Covers(tree, p) ==> NoBreak(p)
  }

  /** No covered path outside what may change has a line break. */
  ghost predicate SealedHaveNoBreaks(tree: Tree, m: Manifest) {
    forall p :: Covers(tree, p) && !Mutable(m, p) ==> NoBreak(p)
  }

  /** The ledger can be read, and whatever rows it has, those of paths that may not change hold. */
  ghost predicate ReadsTrue(env: Env, tree: Tree, m: Manifest) {
    FileAt(tree, LEDGER).Some?
    && var ledger := Parse(Lines(FileAt(tree, LEDGER).value), map[]);
       && ledger.Some?
       && forall path :: path in ledger.value && path != MANIFEST && !Mutable(m, path) ==>
            Holds(env, tree, path, ledger.value[path])
  }

  // ---------------------------------------------------------------------------
  // Line breaks do occur
  // ---------------------------------------------------------------------------

  lemma {:induction false} BreakBefore(a: string, rest: string)
    requires BreakAt(a) < |a|
    ensures BreakAt(a + rest) == BreakAt(a)
  {
    if !IsBreak(a[0]) {
      assert (a + rest)[1..] == a[1..] + rest;
      BreakBefore(a[1..], rest);
    }
  }

  lemma {:induction false} LinesAppend(a: string, rest: string)
    ensures Lines(a + "\n" + rest) == Lines(a) + Lines(rest)
    decreases |a|
  {
    var i := BreakAt(a);
    var s := a + "\n" + rest;
    if i == |a| {
      assert a[..i] == a;
      FirstLine(a, rest);
    } else {
      SplitAround(a, rest, i);
      BreakBefore(a, "\n" + rest);
      LinesAppend(a[i + 1..], rest);
      ConsAppend(a[..i], Lines(a[i + 1..]), Lines(rest));
    }
  }

  lemma SplitAround(a: string, rest: string, i: nat)
    requires i < |a|
    ensures a + "\n" + rest == a + ("\n" + rest)
    ensures (a + "\n" + rest)[..i] == a[..i] && (a + "\n" + rest)[i + 1..] == a[i + 1..] + "\n" + rest
  {
  }

  lemma ConsAppend(line: string, lines: seq<string>, more: seq<string>)
    ensures [line] + (lines + more) == ([line] + lines) + more
  {
  }

  lemma {:induction false} RowLineInText(rows: seq<string>, k: nat, line: string)
    requires k < |rows| && line in Lines(rows[k])
    ensures line in Lines(Text(rows))
  {
    LinesAppend(rows[0], Text(rows[1..]));
    if k > 0 {
      RowLineInText(rows[1..], k - 1, line);
    }
  }

  lemma {:induction false} ParseKeeps(lines: seq<string>, before: Ledger, path: Path)
    requires path in before && Parse(lines, before).Some?
    ensures path in Parse(lines, before).value && Parse(lines, before).value[path] == before[path]
  {
    if lines != [] {
      if IsBlank(lines[0]) {
        ParseKeeps(lines[1..], before, path);
      } else {
        var (digest, other) := SplitRow(lines[0]).value;
        ParseKeeps(lines[1..], before[other := digest], path);
      }
    }
  }

  /** Every row of a ledger that can be read is one of its entries. */
  lemma {:induction false} RowIsEntry(lines: seq<string>, before: Ledger, line: string, digest: string, path: Path)
    requires line in lines && !IsBlank(line) && SplitRow(line) == Some((digest, path))
    requires Parse(lines, before).Some?
    ensures path in Parse(lines, before).value && Parse(lines, before).value[path] == digest
  {
    if line == lines[0] {
      ParseKeeps(lines[1..], before[path := digest], path);
    } else {
      assert line in lines[1..];
      if IsBlank(lines[0]) {
        RowIsEntry(lines[1..], before, line, digest, path);
      } else {
        var (d, other) := SplitRow(lines[0]).value;
        RowIsEntry(lines[1..], before[other := d], line, digest, path);
      }
    }
  }

  /** The lines of the row of a covered path are in the text. */
  lemma RowIsWritten(env: Env, tree: Tree, candidates: seq<Path>, path: Path)
    requires Lists(candidates, tree.Keys) && Covers(tree, path)
    ensures forall line :: line in Lines(Row(DigestOf(env, tree, path), path)) ==>
      line in Lines(Written(env, tree, candidates))
  {
    CoveredIs(tree, candidates);
    var paths := Covered(tree, candidates);
    assert path in tree.Keys && path in paths;
    var k :| 0 <= k < |paths| && paths[k] == path;
    RowsAt(env, tree, paths, k);
    forall line | line in Lines(Row(DigestOf(env, tree, path), path))
      ensures line in Lines(Written(env, tree, candidates))
    {
      RowLineInText(RowsOf(env, tree, paths), k, line);
    }
  }

  lemma UnbrokenLines(s: string)
    requires NoBreak(s)
    ensures Lines(s) == [s]
  {
  }

  lemma WrittenEntry(env: Env, tree: Tree, candidates: seq<Path>, path: Path)
    requires DigestsAreWords(env) && Lists(candidates, tree.Keys) && Covers(tree, path) && NoBreak(path)
    requires Parse(Lines(Written(env, tree, candidates)), map[]).Some?
    ensures
      var ledger := Parse(Lines(Written(env, tree, candidates)), map[]).value;
      path in ledger && ledger[path] == DigestOf(env, tree, path)
  {
    var digest := DigestOf(env, tree, path);
    var row := Row(digest, path);
    RowReadsBack(digest, path);
    UnbrokenLines(row);
    RowIsWritten(env, tree, candidates, path);
    assert row in Lines(row);
    RowIsEntry(Lines(Written(env, tree, candidates)), map[], row, digest, path);
  }

  /** The ledger has the digest of every covered path that may not change. */
  ghost predicate HasSealed(env: Env, tree: Tree, ledger: Ledger, m: Manifest) {
    forall p :: Covers(tree, p) && !Mutable(m, p) ==> p in ledger && ledger[p] == DigestOf(env, tree, p)
  }

  lemma SealedAgree(env: Env, tree: Tree, ledger: Ledger, m: Manifest)
    requires HasSealed(env, tree, ledger, m)
    requires forall p :: p in ledger && p != MANIFEST && !Mutable(m, p) ==> Holds(env, tree, p, ledger[p])
    ensures Agrees(env, tree, ledger, m)
    ensures FileAt(tree, MANIFEST).Some? ==> MANIFEST in ledger && DigestOf(env, tree, MANIFEST) == ledger[MANIFEST]
  {
    ManifestIsSealed(m);
    forall p | p in tree ensures !Unexpected(tree, ledger, m, p) {
    }
  }

  lemma TrueLedgerIsAccepted(env: Env, tree: Tree, candidates: seq<Path>, after: Tree)
    requires DigestsAreWords(env) && Lists(candidates, tree.Keys) && NoSymlinks(tree)
    requires after == tree[LEDGER := File(Written(env, tree, candidates))]
    requires ManifestOk(env, after) && BindingOk(env, after, TheManifest(env, after))
    requires SealedHaveNoBreaks(tree, TheManifest(env, after)) && ReadsTrue(env, after, TheManifest(env, after))
    ensures Accepts(env, after)
  {
    var m, ledger := TheManifest(env, after), Parse(Lines(Written(env, tree, candidates)), map[]).value;
    forall p | Covers(after, p) && !Mutable(m, p) ensures p in ledger && ledger[p] == DigestOf(env, after, p) {
      CoversStays(tree, after, after[LEDGER], p);
      WrittenEntry(env, tree, candidates, p);
    }
    SealedAgree(env, after, ledger, m);
  }

  /** Where manifest and binding are in order, what the writer leaves is accepted exactly when no path that may not
      change has a line break, and whatever rows the line breaks of other paths give rise to can be read and hold.  If
      no path that may change has one, as is so unless the run is running, this says that no covered path has one. */
  lemma RoundTripExactly(env: Env, tree: Tree, candidates: seq<Path>, after: Tree)
    requires DigestsAreWords(env) && DigestsDiffer(env)
    requires Lists(candidates, tree.Keys) && NoSymlinks(tree) && forall p :: Covers(tree, p) ==> IsListed(p)
    requires after == tree[LEDGER := File(Written(env, tree, candidates))]
    requires ManifestOk(env, after) && BindingOk(env, after, TheManifest(env, after))
    ensures
      var m := TheManifest(env, after);
      && (Accepts(env, after) <==> SealedHaveNoBreaks(tree, m) && ReadsTrue(env, after, m))
      && (MutableHasNoBreaks(tree, m) ==> (Accepts(env, after) <==> NoBreaks(tree)))
      && (m.state != "running" ==> MutableHasNoBreaks(tree, m))
  {
    var m := TheManifest(env, after);
    forall p ensures Covers(tree, p) <==> Covers(after, p) {
      CoversStays(tree, after, after[LEDGER], p);
    }
    var accepted := Accepts(env, after);
    if accepted {
      forall p | Covers(tree, p) && !Mutable(m, p) ensures NoBreak(p) {
        LineBreakIsRefused(env, after, p);
      }
    } else if SealedHaveNoBreaks(tree, m) && ReadsTrue(env, after, m) {
      TrueLedgerIsAccepted(env, tree, candidates, after);
    }
    if NoBreaks(tree) {
      RoundTrip(env, tree, candidates, after);
    }
  }

  /** Unless the run is running, exactly when no covered path has a line break. */
  lemma RoundTripUnlessRunning(env: Env, tree: Tree, candidates: seq<Path>, after: Tree)
    requires DigestsAreWords(env) && DigestsDiffer(env)
    requires Lists(candidates, tree.Keys) && NoSymlinks(tree) && forall p :: Covers(tree, p) ==> IsListed(p)
    requires after == tree[LEDGER := File(Written(env, tree, candidates))]
    requires ManifestOk(env, after) && TheManifest(env, after).state != "running"
    ensures Accepts(env, after) <==> NoBreaks(tree)
  {
    RoundTripExactly(env, tree, candidates, after);
  }

  /** A line that is neither blank nor a row. */
  predicate IsStray(line: string) {
    !IsBlank(line) && SplitRow(line).None?
  }

  lemma {:induction false} StrayLineFails(lines: seq<string>, before: Ledger, line: string)
    requires line in lines && IsStray(line)
    ensures Parse(lines, before).None?
  {
    if line != lines[0] {
      assert line in lines[1..];
      if IsBlank(lines[0]) {
        StrayLineFails(lines[1..], before, line);
      } else if SplitRow(lines[0]).Some? {
        var (digest, path) := SplitRow(lines[0]).value;
        StrayLineFails(lines[1..], before[path := digest], line);
      }
    }
  }

  /** In every state, also a running one: a covered path that breaks its row so that some piece is neither blank nor a
      row makes the writer's own ledger unreadable. */
  lemma BrokenRowIsRefused(env: Env, tree: Tree, candidates: seq<Path>, after: Tree, path: Path, line: string)
    requires Lists(candidates, tree.Keys) && Covers(tree, path)
    requires line in Lines(Row(DigestOf(env, tree, path), path)) && IsStray(line)
    requires FileAt(after, LEDGER) == Some(Written(env, tree, candidates))
    ensures !Accepts(env, after)
  {
    RowIsWritten(env, tree, candidates, path);
    StrayLineFails(Lines(Written(env, tree, candidates)), map[], line);
  }

  const BROKEN: Path := "a\nb"

  lemma BrokenIsListed()
    ensures Ledgered(BROKEN) && IsListed(BROKEN) && !NoBreak(BROKEN)
  {
    PlainNameIsLedgered(BROKEN);
    assert IsBreak(BROKEN[1]);
  }

  lemma BreakIsRefused(env: Env, tree: Tree, path: Path)
    requires ManifestOk(env, tree) && Covers(tree, path)
    requires !NoBreak(path) && !Mutable(TheManifest(env, tree), path)
    ensures !Accepts(env, tree)
  {
    var accepted := Accepts(env, tree);
    if accepted {
      LineBreakIsRefused(env, tree, path);
    }
  }

  /** A workspace with a manifest that is in order and one file whose name has a line break: the writer writes its
      ledger, and the verifier refuses it. */
  lemma LineBreakExample(env: Env, content: Content, tree: Tree, candidates: seq<Path>, after: Tree)
    requires env.manifest(content).Some? && Supported(env.manifest(content).value.state)
    requires env.manifest(content).value.state != "running" && UpstreamOk(env.manifest(content).value.upstream)
    requires tree == map[MANIFEST := File(content), BROKEN := File("")] && Lists(candidates, tree.Keys)
    requires after == tree[LEDGER := File(Written(env, tree, candidates))]
    ensures NoSymlinks(tree) && (forall p :: Covers(tree, p) ==> IsListed(p))
    ensures ManifestOk(env, after) && !Accepts(env, after)
  {
    BrokenIsListed();
    ManifestIsListed();
    NamesDiffer();
    TwoFiles(content, BROKEN, tree, after, File(Written(env, tree, candidates)));
    ManifestInOrder(env, content, after);
    BreakIsRefused(env, after, BROKEN);
  }

  lemma FeedLines(x: string, y: string)
    requires NoBreak(x) && NoBreak(y)
    ensures Lines(Text([x] + [y + "\n"])) == [x] + ([y] + ([""] + [""]))
  {
    var z := y + "\n";
    assert ([x] + [z])[1..] == [z] && [z][1..] == [];
    assert Text([z]) == z + "\n" + "";
    assert Text([x] + [z]) == x + "\n" + (y + "\n" + "\n");
    FirstLine(x, y + "\n" + "\n");
    FirstLine(y, "\n");
    FirstLine("", "");
    assert "" + "\n" + "" == "\n";
  }

  lemma TwoRows(env: Env, tree: Tree, p: Path, q: Path)
    requires IsDigest(DigestOf(env, tree, p)) && IsDigest(DigestOf(env, tree, q + "\n")) && NoBreak(p) && NoBreak(q)
    ensures
      var x, y := Row(DigestOf(env, tree, p), p), Row(DigestOf(env, tree, q + "\n"), q);
      Lines(Text(RowsOf(env, tree, [p, q + "\n"]))) == [x] + ([y] + ([""] + [""]))
  {
    var b := q + "\n";
    var x, y, z := Row(DigestOf(env, tree, p), p), Row(DigestOf(env, tree, b), q), Row(DigestOf(env, tree, b), b);
    RowReadsBack(DigestOf(env, tree, p), p);
    RowReadsBack(DigestOf(env, tree, b), q);
    assert [p, b][1..] == [b] && [b][1..] == [];
    assert RowsOf(env, tree, [b]) == [z] + RowsOf(env, tree, []);
    assert RowsOf(env, tree, [p, b]) == [x] + [z];
    assert z == y + "\n";
    FeedLines(x, y);
  }

  lemma TwoEntries(x: string, y: string, dp: string, dq: string, p: Path, q: Path)
    requires !IsBlank(x) && SplitRow(x) == Some((dp, p)) && StaysInside(p)
    requires !IsBlank(y) && SplitRow(y) == Some((dq, q)) && StaysInside(q) && p != q
    ensures Parse([x] + ([y] + ([""] + [""])), map[]) == Some(map[p := dp, q := dq])
  {
    var rest: seq<string> := [""] + [""];
    assert ([x] + ([y] + rest))[1..] == [y] + rest && ([y] + rest)[1..] == rest && rest[1..] == [""];
    assert [""][1..] == [];
    var one: Ledger := map[p := dp];
    var two: Ledger := map[p := dp, q := dq];
    assert one[q := dq] == two && map[][p := dp] == one;
    assert Parse([""], two) == Some(two);
    assert Parse(rest, two) == Some(two);
    assert Parse([y] + rest, one) == Parse(rest, two);
  }

  /** What is written for `p` and for `q` with a line feed behind its name. */
  lemma FeedReadsBack(env: Env, tree: Tree, p: Path, q: Path)
    requires DigestsAreWords(env) && Covers(tree, p) && Covers(tree, q + "\n")
    requires NoBreak(p) && NoBreak(q) && StaysInside(p) && StaysInside(q) && p != q
    ensures
      Parse(Lines(Written(env, tree, [p, q + "\n"])), map[])
      == Some(map[p := DigestOf(env, tree, p), q := DigestOf(env, tree, q + "\n")])
  {
    var b := q + "\n";
    var dp, dq := DigestOf(env, tree, p), DigestOf(env, tree, b);
    assert [p, b][1..] == [b] && [b][1..] == [];
    assert Covered(tree, [b]) == [b];
    assert Covered(tree, [p, b]) == [p] + [b] == [p, b];
    TwoRows(env, tree, p, q);
    RowReadsBack(dp, p);
    RowReadsBack(dq, q);
    TwoEntries(Row(dp, p), Row(dq, q), dp, dq, p, q);
  }

  lemma FeedDiffers(q: Path)
    ensures var broken := q + "\n"; broken != LEDGER && broken != MANIFEST && broken != BINDING && !NoBreak(broken)
    ensures MANIFEST != LEDGER && MANIFEST != BINDING && LEDGER != BINDING && NoBreak(MANIFEST)
  {
    assert MANIFEST[0] == 'm' && LEDGER[0] == 'i' && BINDING[0] == 'r';
    assert NoBreak(MANIFEST) && NoBreak(LEDGER) && NoBreak(BINDING);
    assert IsBreak((q + "\n")[|q|]);
  }

  lemma FeedIsTrue(env: Env, tree: Tree, m: Manifest, p: Path, q: Path, digest: string, other: string)
    requires FileAt(tree, LEDGER).Some? && p == MANIFEST && Mutable(m, q)
    requires Parse(Lines(FileAt(tree, LEDGER).value), map[]) == Some(map[p := digest, q := other])
    ensures ReadsTrue(env, tree, m)
  {
  }

  lemma FeedTree(tree: Tree, after: Tree, p: Path, broken: Path, content: Content, node: Node)
    requires p != broken && p != LEDGER && broken != LEDGER && broken != BINDING && p != BINDING && LEDGER != BINDING
    requires tree == map[p := File(content), broken := File("")] && after == tree[LEDGER := node] && node.File?
    requires Ledgered(p) && Ledgered(broken) && IsListed(p) && IsListed(broken)
    ensures NoSymlinks(tree) && Covers(tree, p) && Covers(tree, broken)
    ensures forall path :: path in tree <==> path == p || path == broken
    ensures forall path :: Covers(tree, path) ==> IsListed(path)
    ensures FileAt(after, p) == Some(content) && FileAt(after, BINDING) == None
    ensures FileAt(after, LEDGER) == Some(node.content)
  {
  }

  lemma FeedListed(tree: Tree, p: Path, broken: Path, candidates: seq<Path>)
    requires p != broken && candidates == [p, broken]
    requires forall path :: path in tree <==> path == p || path == broken
    ensures Lists(candidates, tree.Keys)
  {
    assert candidates[0] == p && candidates[1] == broken;
  }

  /** While the run is running, a line break in a path that may change can do no harm: the file `q` with a line feed
      behind its name is written as a row for `q` and an empty line. */
  lemma ChangingBreakIsAccepted(env: Env, content: Content, q: Path, tree: Tree, candidates: seq<Path>, after: Tree)
    requires DigestsAreWords(env) && DigestsDiffer(env)
    requires env.manifest(content).Some? && UpstreamOk(env.manifest(content).value.upstream)
    requires Mutable(env.manifest(content).value, q) && Mutable(env.manifest(content).value, q + "\n")
    requires NoBreak(q) && IsListed(q) && IsListed(q + "\n") && Ledgered(q + "\n")
    requires tree == map[MANIFEST := File(content), q + "\n" := File("")] && candidates == [MANIFEST, q + "\n"]
    requires after == tree[LEDGER := File(Written(env, tree, candidates))]
    ensures !NoBreaks(tree) && Accepts(env, after)
  {
    var m, p, broken := env.manifest(content).value, MANIFEST, q + "\n";
    ManifestIsSealed(m);
    ManifestIsListed();
    FeedDiffers(q);
    FeedTree(tree, after, p, broken, content, after[LEDGER]);
    FeedListed(tree, p, broken, candidates);
    ChangingLedgerIsTrue(env, m, p, q, tree, after);
    SealedOfTwo(tree, m, p, broken);
    TrueLedgerIsAccepted(env, tree, candidates, after);
  }

  lemma SealedOfTwo(tree: Tree, m: Manifest, p: Path, broken: Path)
    requires forall path :: path in tree <==> path == p || path == broken
    requires NoBreak(p) && Mutable(m, broken)
    ensures SealedHaveNoBreaks(tree, m)
  {
  }

  lemma ChangingLedgerIsTrue(env: Env, m: Manifest, p: Path, q: Path, tree: Tree, after: Tree)
    requires DigestsAreWords(env) && p == MANIFEST && NoBreak(p) && IsListed(p) && !Mutable(m, p)
    requires NoBreak(q) && IsListed(q) && Mutable(m, q) && Covers(tree, p) && Covers(tree, q + "\n")
    requires FileAt(after, LEDGER) == Some(Written(env, tree, [p, q + "\n"]))
    ensures ReadsTrue(env, after, m)
  {
    ListedIsNormal(p);
    ListedIsNormal(q);
    FeedReadsBack(env, tree, p, q);
    FeedIsTrue(env, after, m, p, q, DigestOf(env, tree, p), DigestOf(env, tree, q + "\n"));
  }

  lemma JobFileIsListed(prefix: Path, job: string, name: string)
    requires '/' !in prefix && '/' !in job && '/' !in name
    requires prefix !in {"", ".", ".."} && job !in {"", ".", ".."} && name !in {"", ".", ".."}
    ensures
      var path := prefix + "/" + job + "/" + name;
      IsListed(path) && LastName(path) == name
  {
    SplitWithoutSlash(prefix);
    SplitWithoutSlash(job);
    SplitWithoutSlash(name);
    SplitAppend(prefix, job);
    SplitAppend(prefix + "/" + job, name);
    assert Split(prefix + "/" + job + "/" + name) == [prefix, job, name];
  }

  lemma JobFileIsChanging(m: Manifest, name: string)
    requires m.state == "running" && m.jobName != ""
    ensures Mutable(m, "jobs" + "/" + m.jobName + "/" + name)
  {
    var path := "jobs" + "/" + m.jobName + "/" + name;
    assert path == JobPrefix(m) + name;
    assert path[0] == 'j' && "logs/"[0] == 'l';
  }

  /** Every file of the running job is such a path. */
  lemma JobFileMayBreak(m: Manifest, name: string, q: Path)
    requires m.state == "running" && '/' !in m.jobName && m.jobName !in {"", ".", ".."} && NoBreak(m.jobName)
    requires '/' !in name && name !in {"", ".", ".."} && NoBreak(name) && !HasInfix(name + "\n", ".tmp-")
    requires q == "jobs" + "/" + m.jobName + "/" + name
    ensures Mutable(m, q) && Mutable(m, q + "\n")
    ensures NoBreak(q) && IsListed(q) && IsListed(q + "\n") && Ledgered(q + "\n")
  {
    JobFileIsChanging(m, name);
    JobFileIsChanging(m, name + "\n");
    assert (name + "\n")[0] == name[0] && |name + "\n"| == |name| + 1 && (name + "\n")[|name|] == '\n';
    assert name + "\n" !in {"", ".", ".."};
    JobFileIsListed("jobs", m.jobName, name);
    JobFileIsListed("jobs", m.jobName, name + "\n");
    assert q + "\n" == "jobs" + "/" + m.jobName + "/" + (name + "\n");
    assert ".run.lock"[|".run.lock"| - 1] == 'k';
    assert q[0] == 'j' && LEDGER[0] == 'i';
  }

  lemma TwoFiles(content: Content, broken: Path, tree: Tree, after: Tree, node: Node)
    requires tree == map[MANIFEST := File(content), broken := File("")] && after == tree[LEDGER := node]
    requires MANIFEST != LEDGER && broken != LEDGER && MANIFEST != broken
    requires Ledgered(broken) && IsListed(broken) && IsListed(MANIFEST)
    ensures NoSymlinks(tree) && forall p :: Covers(tree, p) ==> IsListed(p)
    ensures FileAt(after, MANIFEST) == Some(content) && Covers(after, broken)
  {
  }

  lemma ManifestInOrder(env: Env, content: Content, tree: Tree)
    requires env.manifest(content).Some? && Supported(env.manifest(content).value.state)
    requires env.manifest(content).value.state != "running" && UpstreamOk(env.manifest(content).value.upstream)
    requires FileAt(tree, MANIFEST) == Some(content)
    ensures ManifestOk(env, tree) && forall path :: !Mutable(TheManifest(env, tree), path)
  {
  }

  lemma NamesDiffer()
    ensures MANIFEST != LEDGER && BROKEN != LEDGER && MANIFEST != BROKEN
  {
    assert MANIFEST[0] == 'm' && LEDGER[0] == 'i' && BROKEN[0] == 'a';
  }

  lemma ManifestIsListed()
    ensures IsListed(MANIFEST)
  {
    PlainNameIsLedgered(MANIFEST);
  }

  function UnderLogs(id: string, rest: string): Path {
    "logs/" + id + "/" + rest
  }

  lemma LogsApart(a: string, b: string, x: string, y: string)
    requires '/' !in a && '/' !in b && UnderLogs(a, x) == UnderLogs(b, y)
    ensures a == b
  {
    var p, q := UnderLogs(a, x), UnderLogs(b, y);
    assert p[5 + |a|] == '/' && q[5 + |b|] == '/';
    assert forall i :: 0 <= i < |a| ==> p[5 + i] == a[i];
    assert forall i :: 0 <= i < |b| ==> q[5 + i] == b[i];
  }

  lemma AttemptIdHasNoSlash(id: string)
    requires IsAttemptId(id)
    ensures '/' !in id
  {
  }

  /** While an attempt runs, everything that another attempt left under `logs/` stays sealed. */
  lemma OtherAttemptsStaySealed(m: Manifest, other: string, rest: string)
    requires m.upstream.Attempt? && UpstreamOk(m.upstream)
    requires IsAttemptId(other) && other != m.upstream.id
    ensures !Mutable(m, UnderLogs(other, rest))
  {
    var id := m.upstream.id;
    AttemptIdHasNoSlash(id);
    AttemptIdHasNoSlash(other);
    var path := UnderLogs(other, rest);
    assert "logs/" <= path;
    assert path[0] == 'l' && "receipt.json"[0] == 'r';
    assert StdoutLog(id) == UnderLogs(id, "upstream.stdout.log");
    assert StderrLog(id) == UnderLogs(id, "upstream.stderr.log");
    assert AttemptReceipt(id) == UnderLogs(id, "receipt.json");
    if path == StdoutLog(id) {
      LogsApart(other, id, rest, "upstream.stdout.log");
    }
    if path == StderrLog(id) {
      LogsApart(other, id, rest, "upstream.stderr.log");
    }
    if path == AttemptReceipt(id) {
      LogsApart(other, id, rest, "receipt.json");
    }
  }
}
