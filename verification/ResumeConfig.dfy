/**
  The canonical form of an interrupted Harbor config and the binding that is made of it: `_canonical_resume_config`,
  `_resume_config_semantic_sha256`, `_resume_bindings_match` and `_bind_resume_config` in src/orbenchlab/workflow.py.
  */
module ResumeConfig {
  import opened Options
  import opened Ordering

  datatype Json =
    | Null
    | Bool(flag: bool)
    | Int(number: int)
    | Float(quantity: real)
    | Str(text: string)
    | List(items: seq<Json>)
    | Object(fields: Fields)

  type Fields = map<string, Json>

  // ---------------------------------------------------------------------------
  // The canonical form
  // ---------------------------------------------------------------------------

  const RETRY := "retry"
  const INCLUDE := "include_exceptions"
  const EXCLUDE := "exclude_exceptions"

  predicate AllStrings(items: seq<Json>) {
    forall i :: 0 <= i < |items| ==> items[i].Str?
  }

  function Texts(items: seq<Json>): (texts: seq<string>)
    requires AllStrings(items)
    ensures |texts| == |items| && forall i :: 0 <= i < |texts| ==> texts[i] == items[i].text
  {
    seq(|items|, i requires 0 <= i < |items| => items[i].text)
  }

  function Strs(texts: seq<string>): (items: seq<Json>)
    ensures AllStrings(items) && Texts(items) == texts
  {
    seq(|texts|, i requires 0 <= i < |texts| => Str(texts[i]))
  }

  /** `get` returned None: the field is absent or null. */
  predicate Unset(retry: Fields, field: string) {
    field !in retry || retry[field].Null?
  }

  /** A list of distinct strings. */
  predicate IsNameList(value: Json) {
    && value.List? && AllStrings(value.items)
    && forall i, j :: 0 <= i < j < |value.items| ==> value.items[i] != value.items[j]
  }

  function SortedList(value: Json): Json
    requires IsNameList(value)
  {
    List(Strs(Sorted(Texts(value.items))))
  }

  /** One field in canonical form; None where the code raises. */
  function CanonicalField(retry: Fields, field: string): Option<Fields> {
    if Unset(retry, field) then Some(retry)
    else if !IsNameList(retry[field]) then None
    else Some(retry[field := SortedList(retry[field])])
  }

  function Canonical(config: Fields): Option<Fields> {
    if RETRY !in config || !config[RETRY].Object? then None
    else
      match CanonicalField(config[RETRY].fields, INCLUDE)
      case None => None
      case Some(first) =>
        match CanonicalField(first, EXCLUDE)
        case None => None
        case Some(second) => Some(config[RETRY := Object(second)])
  }

  /** `_canonical_resume_config`: the fields of the copy are sorted in place, one after the other. */
  method CanonicalResumeConfig(config: Fields) returns (canonical: Option<Fields>)
    ensures canonical == Canonical(config)
  {
    if RETRY !in config || !config[RETRY].Object? {
      return None;
    }
    var retry := config[RETRY].fields;
    var names := [INCLUDE, EXCLUDE];
    for i := 0 to |names|
      invariant i == 0 ==> retry == config[RETRY].fields
      invariant i == 1 ==> CanonicalField(config[RETRY].fields, INCLUDE) == Some(retry)
      invariant i == 2 ==> Canonical(config) == Some(config[RETRY := Object(retry)])
    {
      var field := names[i];
      if !Unset(retry, field) {
        if !IsNameList(retry[field]) {
          return None;
        }
        retry := retry[field := SortedList(retry[field])];
      }
    }
    return Some(config[RETRY := Object(retry)]);
  }

  // ---------------------------------------------------------------------------
  // What the canonical form forgets
  // ---------------------------------------------------------------------------

  predicate Unordered(field: string) {
    field == INCLUDE || field == EXCLUDE
  }

  predicate ValidField(retry: Fields, field: string) {
    Unset(retry, field) || IsNameList(retry[field])
  }

  /** The configs that have a canonical form. */
  predicate Valid(config: Fields) {
    && RETRY in config && config[RETRY].Object?
    && ValidField(config[RETRY].fields, INCLUDE) && ValidField(config[RETRY].fields, EXCLUDE)
  }

  function CanonicalValue(field: string, value: Json): Json {
    if Unordered(field) && IsNameList(value) then SortedList(value) else value
  }

  function CanonicalRetry(retry: Fields): (canonical: Fields)
    ensures forall f :: f in canonical <==> f in retry
    ensures forall f :: f in retry ==> canonical[f] == CanonicalValue(f, retry[f])
  {
    map f | f in retry :: CanonicalValue(f, retry[f])
  }

  /** The two steps together sort the two lists and change nothing else. */
  lemma CanonicalIs(config: Fields)
    ensures Canonical(config).Some? <==> Valid(config)
    ensures Valid(config) ==> Canonical(config).value == config[RETRY := Object(CanonicalRetry(config[RETRY].fields))]
  {
    if Valid(config) {
      var retry := config[RETRY].fields;
      var first := CanonicalField(retry, INCLUDE).value;
      assert Unset(first, EXCLUDE) <==> Unset(retry, EXCLUDE);
      assert EXCLUDE in first ==> first[EXCLUDE] == retry[EXCLUDE];
      var second := CanonicalField(first, EXCLUDE).value;
      assert second == CanonicalRetry(retry);
    }
  }

  lemma SortedTexts(value: Json)
    requires IsNameList(value)
    ensures IsNameList(SortedList(value))
    ensures Texts(SortedList(value).items) == Sorted(Texts(value.items))
  {
    var texts, sorted := Texts(value.items), Sorted(Texts(value.items));
    SortedIs(texts);
    assert Distinct(texts) by {
      forall i, j | 0 <= i < j < |texts| ensures texts[i] != texts[j] {
        assert value.items[i] != value.items[j];
      }
    }
    forall i, j | 0 <= i < j < |sorted| ensures sorted[i] != sorted[j] {
      DistinctByCount(texts, sorted, i, j);
    }
  }

  /** Sorting a name list twice is sorting it once. */
  lemma SortedListTwice(value: Json)
    requires IsNameList(value)
    ensures IsNameList(SortedList(value)) && SortedList(SortedList(value)) == SortedList(value)
  {
    SortedTexts(value);
    SortedTwice(Texts(value.items));
  }

  ghost predicate SameNames(a: Json, b: Json)
    requires IsNameList(a) && IsNameList(b)
  {
    multiset(Texts(a.items)) == multiset(Texts(b.items))
  }

  lemma SortedListEqual(a: Json, b: Json)
    requires IsNameList(a) && IsNameList(b)
    ensures SortedList(a) == SortedList(b) <==> SameNames(a, b)
  {
    SortedTexts(a);
    SortedTexts(b);
    SortedEqual(Texts(a.items), Texts(b.items));
  }

  /** Canonicalising is idempotent. */
  lemma CanonicalTwice(config: Fields)
    requires Canonical(config).Some?
    ensures Canonical(Canonical(config).value) == Canonical(config)
  {
    CanonicalIs(config);
    var canonical := Canonical(config).value;
    var retry, once := config[RETRY].fields, canonical[RETRY].fields;
    forall f | f in retry
      ensures CanonicalValue(f, once[f]) == once[f]
      ensures Unordered(f) && IsNameList(retry[f]) ==> IsNameList(once[f])
    {
      if Unordered(f) && IsNameList(retry[f]) {
        SortedListTwice(retry[f]);
      }
    }
    forall f | f in {INCLUDE, EXCLUDE} ensures ValidField(once, f) {
      assert ValidField(retry, f);
    }
    CanonicalIs(canonical);
    assert CanonicalRetry(once) == once;
    assert canonical[RETRY := Object(once)] == canonical;
  }

  /** Equal values, or the same names in another order where order is not semantic. */
  ghost predicate SameValue(field: string, a: Json, b: Json) {
    a == b || (Unordered(field) && IsNameList(a) && IsNameList(b) && SameNames(a, b))
  }

  ghost predicate SameRetry(a: Fields, b: Fields) {
    && (forall f :: f in a <==> f in b)
    && (forall f :: f in a && f in b ==> SameValue(f, a[f], b[f]))
  }

  /** Two configs that differ at most in the order of the two exception lists. */
  ghost predicate SameUpToOrder(a: Fields, b: Fields) {
    && (forall k :: k in a <==> k in b)
    && (forall k :: k in a && k in b && k != RETRY ==> a[k] == b[k])
    && RETRY in a && a[RETRY].Object? && RETRY in b && b[RETRY].Object?
    && SameRetry(a[RETRY].fields, b[RETRY].fields)
  }

  lemma CanonicalValuesEqual(a: Fields, b: Fields, f: string)
    requires f in a && f in b && (Unordered(f) ==> ValidField(a, f) && ValidField(b, f))
    ensures CanonicalValue(f, a[f]) == CanonicalValue(f, b[f]) <==> SameValue(f, a[f], b[f])
  {
    if Unordered(f) && IsNameList(a[f]) && IsNameList(b[f]) {
      SortedListEqual(a[f], b[f]);
    }
  }

  lemma CanonicalRetriesEqual(a: Fields, b: Fields)
    requires ValidField(a, INCLUDE) && ValidField(a, EXCLUDE) && ValidField(b, INCLUDE) && ValidField(b, EXCLUDE)
    ensures CanonicalRetry(a) == CanonicalRetry(b) <==> SameRetry(a, b)
  {
    var x, y := CanonicalRetry(a), CanonicalRetry(b);
    forall f | f in a && f in b
      ensures x[f] == y[f] <==> SameValue(f, a[f], b[f])
    {
      CanonicalValuesEqual(a, b, f);
    }
    if x == y {
      forall f ensures f in a <==> f in b {
        assert f in x <==> f in y;
      }
    }
  }

  /** Two configs with a canonical form have the same one exactly when they differ at most in the order of the two
      exception lists. */
  lemma CanonicalEqual(a: Fields, b: Fields)
    requires Canonical(a).Some? && Canonical(b).Some?
    ensures Canonical(a) == Canonical(b) <==> SameUpToOrder(a, b)
  {
    CanonicalIs(a);
    CanonicalIs(b);
    var x, y := Canonical(a).value, Canonical(b).value;
    CanonicalRetriesEqual(a[RETRY].fields, b[RETRY].fields);
    if x == y {
      assert x[RETRY] == y[RETRY];
      forall k ensures k in a <==> k in b {
        assert k in x <==> k in y;
      }
      forall k | k in a && k in b && k != RETRY ensures a[k] == b[k] {
        assert x[k] == y[k];
      }
    }
  }

  // ---------------------------------------------------------------------------
  // The binding
  // ---------------------------------------------------------------------------

  type Bytes = string

  /** `sha256:` and 64 hexadecimal digits. */
  predicate IsSha(s: string) {
    && |s| == 71 && s[..7] == "sha256:"
    && forall i :: 7 <= i < 71 ==> '0' <= s[i] <= '9' || 'a' <= s[i] <= 'f'
  }

  /** Reading and hashing: the bytes of a config, their digest, and the digest of a canonical config. */
  datatype Env = Env(parse: Bytes -> Fields, raw: Bytes -> string, semantic: Fields -> string)

  /** Digests are well formed. */
  ghost predicate GoodHashes(env: Env) {
    (forall b :: IsSha(env.raw(b))) && (forall c :: IsSha(env.semantic(c)))
  }

  datatype Identity = Identity(dataset: Json, jobName: Json, agent: Json, model: Json, scaffold: Json, task: Json)

  /** A call of `_bind_resume_config`: the config found on disk and the run it is validated for. */
  datatype Call = Call(bytes: Bytes, identity: Identity)

  const VERSION := "resume_binding_schema_version"
  const RAW := "config_sha256"
  const SEMANTIC := "config_semantic_sha256"

  function Get(m: Fields, key: string): Json {
    if key in m then m[key] else Null
  }

  function IdentityOf(m: Fields): Identity {
    Identity(Get(m, "dataset_content_digest"), Get(m, "job_name"), Get(m, "agent"), Get(m, "model"),
             Get(m, "scaffold_version"), Get(m, "task"))
  }

  predicate OnlyKeys(m: Fields, own: set<string>) {
    m.Keys == own + {"dataset_content_digest", "job_name", "agent", "model", "scaffold_version", "task"}
  }

  predicate IsShaValue(value: Json) {
    value.Str? && IsSha(value.text)
  }

  function CanonicalOf(env: Env, call: Call): Option<Fields> {
    Canonical(env.parse(call.bytes))
  }

  /** The canonical configs of two calls do not collide. */
  ghost predicate NoCollision(env: Env, a: Call, b: Call) {
    var x, y := CanonicalOf(env, a), CanonicalOf(env, b);
    x.Some? && y.Some? && env.semantic(x.value) == env.semantic(y.value) ==> x == y
  }

  ghost predicate NoCollisions(env: Env, calls: seq<Call>) {
    forall i, j :: 0 <= i < |calls| && 0 <= j < |calls| ==> NoCollision(env, calls[i], calls[j])
  }

  /** What `_validated_resume_binding` returns for a config with a canonical form. */
  function NewBinding(env: Env, call: Call): (binding: Fields)
    requires CanonicalOf(env, call).Some?
    ensures IdentityOf(binding) == call.identity
    ensures Get(binding, VERSION) == Str("3.0") && OnlyKeys(binding, {VERSION, RAW, SEMANTIC})
    ensures Get(binding, RAW) == Str(env.raw(call.bytes))
    ensures Get(binding, SEMANTIC) == Str(env.semantic(CanonicalOf(env, call).value))
  {
    map[VERSION := Str("3.0"),
        RAW := Str(env.raw(call.bytes)),
        SEMANTIC := Str(env.semantic(CanonicalOf(env, call).value)),
        "dataset_content_digest" := call.identity.dataset,
        "job_name" := call.identity.jobName,
        "agent" := call.identity.agent,
        "model" := call.identity.model,
        "scaffold_version" := call.identity.scaffold,
        "task" := call.identity.task]
  }

  /** `_resume_bindings_match`. */
  predicate ResumeBindingsMatch(existing: Fields, current: Fields) {
    && IdentityOf(existing) == IdentityOf(current)
    && IsShaValue(Get(existing, RAW))
    && (if Get(existing, VERSION) == Str("2.0") then
          OnlyKeys(existing, {VERSION, RAW}) && Get(existing, RAW) == Get(current, RAW)
        else
          && Get(existing, VERSION) == Str("3.0")
          && OnlyKeys(existing, {VERSION, RAW, SEMANTIC})
          && IsShaValue(Get(existing, SEMANTIC))
          && Get(existing, SEMANTIC) == Get(current, SEMANTIC))
  }

  predicate Accepted(env: Env, file: Option<Fields>, call: Call) {
    CanonicalOf(env, call).Some? && (file.None? || ResumeBindingsMatch(file.value, NewBinding(env, call)))
  }

  /** The binding file after a call. */
  function FileAfter(env: Env, file: Option<Fields>, call: Call): Option<Fields> {
    if Accepted(env, file, call) && (file.None? || Get(file.value, VERSION) == Str("2.0"))
    then Some(NewBinding(env, call)) else file
  }

  /** `resume-binding.json`. */
  class BindingFile {
    var content: Option<Fields>

    constructor (content: Option<Fields>)
      ensures this.content == content
    {
      this.content := content;
    }

    /** `_bind_resume_config`: None where it raises, and then the file is as it was. */
    method BindResumeConfig(env: Env, call: Call) returns (binding: Option<Fields>)
      modifies this
      ensures binding.Some? <==> Accepted(env, old(content), call)
      ensures binding.Some? ==> binding.value == NewBinding(env, call)
      ensures content == FileAfter(env, old(content), call)
    {
      var canonical := CanonicalResumeConfig(env.parse(call.bytes));
      if canonical.None? {
        return None;
      }
      var current := NewBinding(env, call);
      if content.Some? {
        if !ResumeBindingsMatch(content.value, current) {
          return None;
        }
        if Get(content.value, VERSION) == Str("2.0") {
          content := Some(current);
        }
      } else {
        content := Some(current);
      }
      return Some(current);
    }
  }

  // ---------------------------------------------------------------------------
  // What stays bound
  // ---------------------------------------------------------------------------

  /** A version 3 binding of a run identity and a canonical config. */
  ghost predicate Binds(env: Env, file: Option<Fields>, identity: Identity, canonical: Fields) {
    && file.Some? && Get(file.value, VERSION) == Str("3.0")
    && IdentityOf(file.value) == identity
    && OnlyKeys(file.value, {VERSION, RAW, SEMANTIC}) && IsShaValue(Get(file.value, RAW))
    && Get(file.value, SEMANTIC) == Str(env.semantic(canonical))
  }

  /** An accepted call leaves a version 3 binding of what it was called with. */
  lemma AcceptedBinds(env: Env, file: Option<Fields>, call: Call)
    requires GoodHashes(env) && Accepted(env, file, call)
    ensures Binds(env, FileAfter(env, file, call), call.identity, CanonicalOf(env, call).value)
  {
  }

  /** Under a version 3 binding a call is accepted exactly when it is for the same run and its config differs at most
      in the order of the two exception lists from the one that was bound; the file then stays as it is. */
  lemma BoundAcceptsExactly(env: Env, file: Option<Fields>, bound: Call, call: Call)
    requires GoodHashes(env) && NoCollision(env, bound, call) && CanonicalOf(env, bound).Some?
    requires Binds(env, file, bound.identity, CanonicalOf(env, bound).value)
    ensures Accepted(env, file, call) <==>
      && call.identity == bound.identity
      && CanonicalOf(env, call).Some? && SameUpToOrder(env.parse(bound.bytes), env.parse(call.bytes))
    ensures FileAfter(env, file, call) == file
  {
    if CanonicalOf(env, call).Some? {
      var x, y := CanonicalOf(env, bound).value, CanonicalOf(env, call).value;
      CanonicalEqual(env.parse(bound.bytes), env.parse(call.bytes));
      assert env.semantic(x) == env.semantic(y) <==> x == y;
      assert IsSha(env.semantic(x));
    }
  }

  /** Under a version 2 binding a call is accepted only for the very bytes that were bound. */
  lemma LegacyAcceptsExactly(env: Env, file: Fields, bytes: Bytes, call: Call)
    requires GoodHashes(env) && (env.raw(call.bytes) == env.raw(bytes) ==> call.bytes == bytes)
    requires Get(file, VERSION) == Str("2.0") && OnlyKeys(file, {VERSION, RAW}) && Get(file, RAW) == Str(env.raw(bytes))
    ensures Accepted(env, Some(file), call) <==>
      call.bytes == bytes && call.identity == IdentityOf(file) && CanonicalOf(env, call).Some?
  {
  }

  /** The file after each of a sequence of calls; a refused call leaves it alone. */
  ghost predicate IsHistory(env: Env, calls: seq<Call>, files: seq<Option<Fields>>) {
    && |files| == |calls| + 1
    && forall i :: 0 <= i < |calls| ==> files[i + 1] == FileAfter(env, files[i], calls[i])
  }

  lemma {:induction false} BindingLasts(env: Env, calls: seq<Call>, files: seq<Option<Fields>>, i: nat, j: nat)
    requires GoodHashes(env) && NoCollisions(env, calls) && IsHistory(env, calls, files)
    requires i < j <= |calls| && Accepted(env, files[i], calls[i])
    ensures Binds(env, files[j], calls[i].identity, CanonicalOf(env, calls[i]).value)
    decreases j
  {
    assert files[i + 1] == FileAfter(env, files[i], calls[i]);
    if j == i + 1 {
      AcceptedBinds(env, files[i], calls[i]);
    } else {
      BindingLasts(env, calls, files, i, j - 1);
      BoundAcceptsExactly(env, files[j - 1], calls[i], calls[j - 1]);
      assert files[j - 1 + 1] == FileAfter(env, files[j - 1], calls[j - 1]);
    }
  }

  /** Whatever the file held first, all calls that are ever accepted are for the same run and for configs that differ
      at most in the order of the two exception lists: the semantic digest that is bound never changes. */
  lemma BoundForever(env: Env, calls: seq<Call>, files: seq<Option<Fields>>, i: nat, j: nat)
    requires GoodHashes(env) && NoCollisions(env, calls) && IsHistory(env, calls, files) && i < j < |calls|
    requires Accepted(env, files[i], calls[i]) && Accepted(env, files[j], calls[j])
    ensures calls[i].identity == calls[j].identity
    ensures SameUpToOrder(env.parse(calls[i].bytes), env.parse(calls[j].bytes))
    ensures CanonicalOf(env, calls[i]) == CanonicalOf(env, calls[j])
  {
    BindingLasts(env, calls, files, i, j);
    BoundAcceptsExactly(env, files[j], calls[i], calls[j]);
    CanonicalEqual(env.parse(calls[i].bytes), env.parse(calls[j].bytes));
  }
}
