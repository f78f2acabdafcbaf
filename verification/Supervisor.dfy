/**
  The factory supervisor's provider budget: `_provider_budget_contract`, `_provider_budget_status` and the closures
  `record`, `reuse`, `can_attempt`, `reserve_attempt`, `complete_attempt` and `record_exhausted` inside `run`
  (src/orbenchlab/factory_supervisor.py).

  An invocation runs under an exclusive lock and may die before any write.  An attempt is written to the state file
  before its worker starts, so that no crash can give budget back.
  */
module Supervisor {
  import opened Options

  datatype Stage = Static | SemanticReview | Harbor | Calibration | Cards | Finalize

  /** Everything the identity digest covers.  `inputs` stands for the digests of the files and adapters. */
  datatype Config = Config(
    semanticModels: seq<string>,
    calibrationModels: seq<string>,
    repetitions: nat,
    maxAttempts: nat,
    reviewTokens: nat,
    calibrationTokens: nat,
    builtin: bool,
    inputs: string)

  // ---------------------------------------------------------------------------
  // The budget
  // ---------------------------------------------------------------------------

  datatype Cost = Cost(requests: nat, tokens: nat)

  datatype Contract = Contract(semantic: Cost, calibration: Cost, total: Cost)

  /** `_provider_budget_contract`: the worst case of all retries. */
  function ProviderBudgetContract(c: Config): Contract {
    var semanticRequests := |c.semanticModels|;
    var calibrationRequests := |c.calibrationModels| * c.repetitions;
    var semanticTokens := semanticRequests * c.reviewTokens;
    var calibrationTokens := calibrationRequests * c.calibrationTokens;
    Contract(
      Cost(semanticRequests, semanticTokens),
      Cost(calibrationRequests, calibrationTokens),
      Cost((semanticRequests + calibrationRequests) * c.maxAttempts,
           (semanticTokens + calibrationTokens) * c.maxAttempts))
  }

  datatype AttemptStatus = Running | Finished(passed: bool, failure: Option<string>)

  /** `attempt_id` is a digest of identity, stage and number. */
  datatype AttemptId = AttemptId(identity: Config, stage: Stage, number: nat)

  datatype Attempt = Attempt(number: nat, id: AttemptId, status: AttemptStatus)

  /** A receipt file.  `good` is the verdict the next stage is gated on; the digest stands for the whole content. */
  datatype Receipt = Receipt(good: bool, digest: string)

  datatype Status = Passed | Blocked | Reused | RunningStage

  datatype Entry = Entry(
    status: Status,
    failure: Option<string>,
    output: Option<Receipt>,
    attempts: Option<seq<Attempt>>)

  datatype Budget = Budget(semantic: nat, calibration: nat, debited: Cost, remaining: Cost)

  datatype Verdict = Active | Eligible | Quarantined

  datatype State = State(identity: Config, stages: map<Stage, Entry>, budget: Option<Budget>, verdict: Verdict)

  function AttemptsIn(stages: map<Stage, Entry>, name: Stage): seq<Attempt> {
    if name in stages && stages[name].attempts.Some? then stages[name].attempts.value else []
  }

  function Attempts(st: State, name: Stage): seq<Attempt> {
    AttemptsIn(st.stages, name)
  }

  function CostOf(contract: Contract, name: Stage): Cost {
    if name == SemanticReview then contract.semantic else contract.calibration
  }

  function Used(n: nat, m: nat, first: nat, second: nat): nat {
    n * first + m * second
  }

  function Clip(x: int): nat {
    if x < 0 then 0 else x
  }

  /** What the budget status says when `n` and `m` attempts of the two provider stages are on record. */
  function BudgetOf(n: nat, m: nat, contract: Contract): Budget {
    var requests := Used(n, m, contract.semantic.requests, contract.calibration.requests);
    var tokens := Used(n, m, contract.semantic.tokens, contract.calibration.tokens);
    Budget(n, m, Cost(requests, tokens),
           Cost(Clip(contract.total.requests - requests), Clip(contract.total.tokens - tokens)))
  }

  /** `_provider_budget_status`. */
  method ProviderBudgetStatus(stages: map<Stage, Entry>, contract: Contract) returns (budget: Budget)
    ensures budget ==
      BudgetOf(|AttemptsIn(stages, SemanticReview)|, |AttemptsIn(stages, Calibration)|, contract)
  {
    var names := [SemanticReview, Calibration];
    var reserved: map<Stage, nat> := map[];
    var usedRequests, usedTokens := 0, 0;
    for i := 0 to |names|
      invariant forall k :: 0 <= k < i ==> names[k] in reserved && reserved[names[k]] == |AttemptsIn(stages, names[k])|
      invariant i == 0 ==> usedRequests == usedTokens == 0
      invariant i == 1 ==>
        usedRequests == |AttemptsIn(stages, SemanticReview)| * contract.semantic.requests &&
        usedTokens == |AttemptsIn(stages, SemanticReview)| * contract.semantic.tokens
      invariant i == 2 ==>
        usedRequests == Used(|AttemptsIn(stages, SemanticReview)|, |AttemptsIn(stages, Calibration)|,
                             contract.semantic.requests, contract.calibration.requests) &&
        usedTokens == Used(|AttemptsIn(stages, SemanticReview)|, |AttemptsIn(stages, Calibration)|,
                           contract.semantic.tokens, contract.calibration.tokens)
    {
      var count := |AttemptsIn(stages, names[i])|;
      reserved := reserved[names[i] := count];
      usedRequests := usedRequests + count * CostOf(contract, names[i]).requests;
      usedTokens := usedTokens + count * CostOf(contract, names[i]).tokens;
    }
    assert names[0] in reserved && names[1] in reserved;
    budget := Budget(reserved[SemanticReview], reserved[Calibration], Cost(usedRequests, usedTokens),
                     Cost(Clip(contract.total.requests - usedRequests), Clip(contract.total.tokens - usedTokens)));
  }

  /** Nothing is lost to clipping: what has been debited and what remains make up the total. */
  ghost predicate Conserved(budget: Budget, contract: Contract) {
    && budget.debited.requests + budget.remaining.requests == contract.total.requests
    && budget.debited.tokens + budget.remaining.tokens == contract.total.tokens
  }

  lemma WithinTotal(n: nat, m: nat, first: nat, second: nat, max: nat)
    requires n <= max && m <= max
    ensures Used(n, m, first, second) <= (first + second) * max
  {
  }

  lemma BudgetConserved(c: Config, n: nat, m: nat)
    requires n <= c.maxAttempts && m <= c.maxAttempts
    ensures Conserved(BudgetOf(n, m, ProviderBudgetContract(c)), ProviderBudgetContract(c))
  {
    var contract := ProviderBudgetContract(c);
    WithinTotal(n, m, contract.semantic.requests, contract.calibration.requests, c.maxAttempts);
    WithinTotal(n, m, contract.semantic.tokens, contract.calibration.tokens, c.maxAttempts);
  }

  /** All of the total is debited exactly when both provider stages have used every attempt that costs something. */
  lemma BudgetSpent(c: Config, n: nat, m: nat)
    requires n <= c.maxAttempts && m <= c.maxAttempts
    requires ProviderBudgetContract(c).semantic.requests > 0 && ProviderBudgetContract(c).calibration.requests > 0
    ensures BudgetOf(n, m, ProviderBudgetContract(c)).remaining.requests == 0 <==>
            n == c.maxAttempts && m == c.maxAttempts
  {
    var contract := ProviderBudgetContract(c);
    var first, second := contract.semantic.requests, contract.calibration.requests;
    BudgetConserved(c, n, m);
    assert contract.total.requests - Used(n, m, first, second)
        == (c.maxAttempts - n) * first + (c.maxAttempts - m) * second by {
      assert (first + second) * c.maxAttempts == c.maxAttempts * first + c.maxAttempts * second;
    }
    ProductPositive(c.maxAttempts - n, first);
    ProductPositive(c.maxAttempts - m, second);
  }

  lemma ProductPositive(n: nat, x: nat)
    requires x > 0
    ensures n * x >= 0 && (n * x == 0 <==> n == 0)
  {
  }

  // ---------------------------------------------------------------------------
  // What every invocation keeps
  // ---------------------------------------------------------------------------

  /** The stages that run a worker. */
  predicate HasWorker(name: Stage) {
    name == SemanticReview || name == Harbor || name == Calibration
  }

  /** The stage whose receipt a worker stage is gated on. */
  function Gate(name: Stage): Stage {
    if name == SemanticReview then Static else SemanticReview
  }

  function UpstreamBlocked(name: Stage): string {
    if name == SemanticReview then "upstream_static_blocked" else "upstream_semantic_blocked"
  }

  predicate Open(files: map<Stage, Receipt>, name: Stage) {
    Gate(name) in files && files[Gate(name)].good
  }

  /** Attempts are numbered from one and their ids say whose they are. */
  ghost predicate Numbered(identity: Config, name: Stage, attempts: seq<Attempt>) {
    forall i :: 0 <= i < |attempts| ==>
      attempts[i].number == i + 1 && attempts[i].id == AttemptId(identity, name, i + 1)
  }

  ghost predicate StageOk(st: State, files: map<Stage, Receipt>, launches: map<Stage, nat>, name: Stage) {
    && Numbered(st.identity, name, Attempts(st, name))
    && name in launches && launches[name] <= |Attempts(st, name)| <= st.identity.maxAttempts
    // attempts exist only behind an open gate, which is why a blocked record never drops any
    && (Attempts(st, name) != [] ==> Open(files, name))
    // a worker's receipt is written by a launched worker only
    && (name in files ==> launches[name] > 0)
  }

  ghost predicate OutputOk(st: State, files: map<Stage, Receipt>, name: Stage) {
    name in st.stages && st.stages[name].output.Some? && name != Finalize ==>
      name in files && files[name] == st.stages[name].output.value
  }

  ghost predicate Inv(st: State, files: map<Stage, Receipt>, launches: map<Stage, nat>) {
    && (forall name :: HasWorker(name) ==> StageOk(st, files, launches, name))
    && (forall name :: OutputOk(st, files, name))
  }

  ghost predicate BudgetRecorded(st: State) {
    st.budget == Some(BudgetOf(|Attempts(st, SemanticReview)|, |Attempts(st, Calibration)|,
                               ProviderBudgetContract(st.identity)))
  }

  /** Nothing on record is taken back: attempts keep their place, number and id, and a finished one never changes. */
  ghost predicate AttemptsKept(a: seq<Attempt>, b: seq<Attempt>) {
    && |a| <= |b|
    && forall i :: 0 <= i < |a| ==>
      b[i].number == a[i].number && b[i].id == a[i].id && (a[i].status.Finished? ==> b[i] == a[i])
  }

  ghost predicate StateKept(a: State, b: State) {
    && a.identity == b.identity
    && forall name :: HasWorker(name) ==> AttemptsKept(Attempts(a, name), Attempts(b, name))
  }

  ghost predicate DiskKept(a: Option<State>, b: Option<State>) {
    a.Some? ==> b.Some? && StateKept(a.value, b.value)
  }

  ghost predicate FilesKept(a: map<Stage, Receipt>, b: map<Stage, Receipt>) {
    forall name :: name in a ==> name in b && b[name] == a[name]
  }

  /** The effect of one record on the stages. */
  ghost predicate Puts(a: State, b: State, name: Stage, entry: Entry) {
    b.identity == a.identity && b.stages == a.stages[name := entry]
  }

  /** Recording an entry that keeps the stage's own attempts and output in order disturbs no other stage. */
  lemma Recorded(a: State, b: State, files: map<Stage, Receipt>, launches: map<Stage, nat>, name: Stage, entry: Entry)
    requires Inv(a, files, launches)
    requires Puts(a, b, name, entry)
    requires HasWorker(name) ==>
      StageOk(b, files, launches, name) && AttemptsKept(Attempts(a, name), Attempts(b, name))
    requires OutputOk(b, files, name)
    ensures Inv(b, files, launches) && StateKept(a, b)
  {
    forall other | HasWorker(other)
      ensures StageOk(b, files, launches, other) && AttemptsKept(Attempts(a, other), Attempts(b, other))
    {
      if other != name {
        assert Attempts(b, other) == Attempts(a, other);
        assert StageOk(a, files, launches, other);
      }
    }
    forall other ensures OutputOk(b, files, other) {
      assert OutputOk(a, files, other);
    }
  }

  /** A receipt that is new keeps every recorded output and closes no gate. */
  lemma Written(st: State, files: map<Stage, Receipt>, launches: map<Stage, nat>, name: Stage, receipt: Receipt)
    requires Inv(st, files, launches) && name !in files
    requires HasWorker(name) ==> name in launches && launches[name] > 0
    ensures Inv(st, files[name := receipt], launches)
  {
    var after := files[name := receipt];
    forall other | HasWorker(other) ensures StageOk(st, after, launches, other) {
      assert StageOk(st, files, launches, other);
    }
    forall other ensures OutputOk(st, after, other) {
      assert OutputOk(st, files, other);
    }
  }

  lemma StateKeptTrans(a: State, b: State, c: State)
    requires StateKept(a, b) && StateKept(b, c)
    ensures StateKept(a, c)
  {
  }

  lemma DiskKeptTrans(a: Option<State>, b: Option<State>, c: Option<State>)
    requires DiskKept(a, b) && DiskKept(b, c)
    ensures DiskKept(a, c)
  {
  }

  ghost predicate Kept(d: Option<State>, f: map<Stage, Receipt>, d': Option<State>, f': map<Stage, Receipt>) {
    DiskKept(d, d') && FilesKept(f, f')
  }

  lemma KeptTrans(d0: Option<State>, f0: map<Stage, Receipt>, d1: Option<State>, f1: map<Stage, Receipt>,
                  d2: Option<State>, f2: map<Stage, Receipt>)
    requires Kept(d0, f0, d1, f1) && Kept(d1, f1, d2, f2)
    ensures Kept(d0, f0, d2, f2)
  {
    DiskKeptTrans(d0, d1, d2);
  }

  const NO_LAUNCHES: map<Stage, nat> := map[SemanticReview := 0, Harbor := 0, Calibration := 0]

  /** Before the first state is written no worker has run. */
  ghost predicate Untouched(files: map<Stage, Receipt>, launches: map<Stage, nat>) {
    launches == NO_LAUNCHES && forall name :: HasWorker(name) ==> name !in files
  }

  function Fresh(config: Config): State {
    State(config, map[], None, Active)
  }

  // ---------------------------------------------------------------------------
  // The supervisor
  // ---------------------------------------------------------------------------

  /** How a step ends: it goes on, the process died, or an error was raised. */
  datatype Flow = Alive | Dead | Raised

  /** What a worker does once launched: it may write its receipt, and it reports a failure or none. */
  datatype Worker = Worker(receipt: Option<Receipt>, failure: Option<string>, inputsMissing: bool)

  /** One invocation's surroundings.  `power` is the number of writes and launches the process lives through; the
      task check, the cards and the finalizer give None if they raise. */
  datatype Env = Env(
    staticReceipt: Option<Receipt>,
    semantic: Worker,
    harbor: Worker,
    calibration: Worker,
    cards: Option<Receipt>,
    promoted: Option<bool>,
    power: nat)

  /** What is recorded about a worker that has ended.  The builtin worker fails on any failure; an adapter's receipt
      is recorded even if the adapter failed, and a missing receipt blocks. */
  function Outcome(builtin: bool, files: map<Stage, Receipt>, name: Stage, worker: Worker): Entry {
    var written := if name in files then Some(files[name]) else None;
    if worker.inputsMissing then Entry(Blocked, Some("harbor_inputs_missing"), None, None)
    else if worker.failure.None? && written.Some? then Entry(Passed, None, written, None)
    else
      var failure := if worker.failure.Some? then worker.failure else Some("expected_receipt_missing");
      Entry(Blocked, failure, if builtin && name != Harbor then None else written, None)
  }

  /** A worker stage spends an attempt when its receipt is missing, its gate is open and the cap leaves one. */
  predicate Spends(st: State, files: map<Stage, Receipt>, name: Stage) {
    name !in files && Open(files, name) && |Attempts(st, name)| < st.identity.maxAttempts
  }

  function FilesAfter(st: State, files: map<Stage, Receipt>, name: Stage, worker: Worker): map<Stage, Receipt> {
    if Spends(st, files, name) then FilesWritten(files, name, worker) else files
  }

  /** What a worker stage that is not interrupted leaves on record. */
  function EntryAfter(st: State, files: map<Stage, Receipt>, name: Stage, worker: Worker): Entry {
    var attempts := Attempts(st, name);
    if name in files then
      Entry(Reused, None, Some(files[name]), if name in st.stages then st.stages[name].attempts else None)
    else if !Open(files, name) then Entry(Blocked, Some(UpstreamBlocked(name)), None, None)
    else if |attempts| >= st.identity.maxAttempts then Entry(Blocked, Some("attempts_exhausted"), None, Some(attempts))
    else
      var result := Outcome(st.identity.builtin, FilesWritten(files, name, worker), name, worker);
      var finished := NextAttempt(st, name).(status := Finished(result.status.Passed?, result.failure));
      result.(attempts := Some(attempts + [finished]))
  }

  /** What an invocation works on, apart from the budget that goes with it. */
  datatype Progress = Progress(identity: Config, stages: map<Stage, Entry>, files: map<Stage, Receipt>)

  function Put(g: Progress, name: Stage, entry: Entry): Progress {
    g.(stages := g.stages[name := entry])
  }

  function AsState(g: Progress): State {
    State(g.identity, g.stages, None, Active)
  }

  /** The static and cards stages; nothing changes if the receipt cannot be made. */
  function Produced(g: Progress, name: Stage, receipt: Option<Receipt>): Progress {
    if name in g.files then
      Put(g, name, Entry(Reused, None, Some(g.files[name]), if name in g.stages then g.stages[name].attempts else None))
    else if receipt.None? then g
    else
      Put(g.(files := g.files[name := receipt.value]), name,
          Entry(if receipt.value.good then Passed else Blocked, None, receipt, None))
  }

  function Worked(g: Progress, name: Stage, worker: Worker): Progress {
    Put(g, name, EntryAfter(AsState(g), g.files, name, worker)).(files := FilesAfter(AsState(g), g.files, name, worker))
  }

  function Closed(g: Progress, promotable: Option<bool>): Progress {
    var promoted := AllReceipts(g.files) && promotable == Some(true);
    Put(g, Finalize, Entry(if promoted then Passed else Blocked,
                           if AllReceipts(g.files) then None else Some("prerequisite_blocked"),
                           Some(Receipt(promoted, "final")), None))
  }

  function Calibrated(g: Progress, env: Env): Progress {
    var checked := Produced(g, Static, env.staticReceipt);
    var reviewed := Worked(checked, SemanticReview, env.semantic);
    var controlled := Worked(reviewed, Harbor, env.harbor);
    Worked(controlled, Calibration, env.calibration)
  }

  function Carded(g: Progress, env: Env): Progress {
    Produced(Calibrated(g, env), Cards, env.cards)
  }

  /** An invocation that is not interrupted. */
  function Invoked(g: Progress, env: Env): Progress {
    Closed(Carded(g, env), env.promoted)
  }

  /** Some call that an uninterrupted invocation makes raises. */
  predicate Raises(g: Progress, env: Env) {
    || (Static !in g.files && env.staticReceipt.None?)
    || (Cards !in Calibrated(g, env).files && env.cards.None?)
    || (AllReceipts(Carded(g, env).files) && env.promoted.None?)
  }

  /** What an invocation starts from. */
  function Found(disk: Option<State>, config: Config, files: map<Stage, Receipt>): Progress {
    Progress(config, if disk.Some? then disk.value.stages else map[], files)
  }

  /** The bounds are invalid, or the directory belongs to other inputs. */
  predicate Refused(disk: Option<State>, config: Config) {
    !ConfigOk(config) || (disk.Some? && disk.value.identity != config)
  }

  class Supervisor {
    // what survives a crash
    var disk: Option<State>
    var files: map<Stage, Receipt>
    // how many workers of each stage were ever started
    var launches: map<Stage, nat>
    // the running invocation
    var state: State
    var power: nat

    constructor (config: Config)
      ensures Valid() && disk == None && files == map[]
    {
      disk, files, launches := None, map[], NO_LAUNCHES;
      state, power := Fresh(config), 0;
    }

    /** What holds whenever no invocation is running, also after a crash. */
    ghost predicate Valid()
      reads this
    {
      match disk
      case None => Untouched(files, launches)
      case Some(st) => Inv(st, files, launches) && BudgetRecorded(st)
    }

    ghost function Now(): Progress
      reads this
    {
      Progress(state.identity, state.stages, files)
    }

    /** What holds between the steps of a running invocation. */
    ghost predicate Sound()
      reads this
    {
      && Inv(state, files, launches)
      && match disk
         case None => Untouched(files, launches) && state == Fresh(state.identity)
         case Some(st) => st == state && BudgetRecorded(st)
    }

    /** One write or launch: the process may not live to do it. */
    method Survive() returns (alive: bool)
      modifies this`power
      ensures alive <==> old(power) > 0
      ensures power == if alive then old(power) - 1 else old(power)
    {
      alive := power > 0;
      if alive {
        power := power - 1;
      }
    }

    /** `record`: the state is changed, the budget is debited, and both are written. */
    method Record(name: Stage, entry: Entry) returns (flow: Flow)
      modifies `state, `disk, `power
      ensures flow.Alive? || flow.Dead?
      ensures Puts(old(state), state, name, entry)
      ensures flow.Alive? ==> disk == Some(state) && BudgetRecorded(state)
      ensures flow.Dead? ==> disk == old(disk)
      ensures if flow == Dead then old(power) < 1 else power >= old(power) - 1
    {
      state := state.(stages := state.stages[name := entry]);
      var budget := ProviderBudgetStatus(state.stages, ProviderBudgetContract(state.identity));
      state := state.(budget := Some(budget), verdict := Active);
      var alive := Survive();
      if !alive {
        return Dead;
      }
      disk := Some(state);
      return Alive;
    }

    /** `reuse`: a receipt that is there is taken over with the attempts on record, unless it is not the one that
        was recorded. */
    method Reuse(name: Stage) returns (flow: Flow)
      requires name in files
      modifies `state, `disk, `power
      ensures flow.Raised? <==>
        name in old(state).stages && old(state).stages[name].output.Some?
        && old(state).stages[name].output.value != files[name]
      ensures flow.Raised? ==> state == old(state) && disk == old(disk)
      ensures !flow.Raised? ==>
        && Puts(old(state), state, name,
                Entry(Reused, None, Some(files[name]),
                      if name in old(state).stages then old(state).stages[name].attempts else None))
      ensures flow.Alive? ==> disk == Some(state) && BudgetRecorded(state)
      ensures flow.Dead? ==> disk == old(disk)
      ensures if flow == Dead then old(power) < 1 else power >= old(power) - 1
    {
      var preserved := None;
      if name in state.stages {
        var previous := state.stages[name];
        if previous.output.Some? && previous.output.value != files[name] {
          return Raised;
        }
        preserved := previous.attempts;
      }
      flow := Record(name, Entry(Reused, None, Some(files[name]), preserved));
    }

    function CanAttempt(name: Stage): bool
      reads this
    {
      |Attempts(state, name)| < state.identity.maxAttempts
    }

    /** `reserve_attempt`: one more attempt is written as running before anything is launched. */
    method ReserveAttempt(name: Stage) returns (flow: Flow, id: AttemptId)
      modifies `state, `disk, `power
      ensures flow.Raised? <==> !old(CanAttempt(name))
      ensures flow.Raised? ==> state == old(state) && disk == old(disk)
      ensures id == NextAttempt(old(state), name).id
      ensures !flow.Raised? ==>
        && Puts(old(state), state, name,
                Entry(RunningStage, None, None, Some(Attempts(old(state), name) + [NextAttempt(old(state), name)])))
      ensures flow.Alive? ==> disk == Some(state) && BudgetRecorded(state)
      ensures flow.Dead? ==> disk == old(disk)
      ensures if flow == Dead then old(power) < 1 else power >= old(power) - 1
    {
      var attempts := Attempts(state, name);
      var number := |attempts| + 1;
      id := AttemptId(state.identity, name, number);
      if |attempts| >= state.identity.maxAttempts {
        return Raised, id;
      }
      attempts := attempts + [Attempt(number, id, Running)];
      flow := Record(name, Entry(RunningStage, None, None, Some(attempts)));
    }

    /** `complete_attempt`: the last attempt, if it is this one and still running, takes the result. */
    method CompleteAttempt(name: Stage, id: AttemptId, result: Entry) returns (flow: Flow)
      modifies `state, `disk, `power
      ensures flow.Raised? <==> !EndsRunning(Attempts(old(state), name), id)
      ensures flow.Raised? ==> state == old(state) && disk == old(disk)
      ensures !flow.Raised? ==>
        && Puts(old(state), state, name,
                result.(attempts := Some(WithLastFinished(Attempts(old(state), name), result))))
      ensures flow.Alive? ==> disk == Some(state) && BudgetRecorded(state)
      ensures flow.Dead? ==> disk == old(disk)
      ensures if flow == Dead then old(power) < 1 else power >= old(power) - 1
    {
      var attempts := Attempts(state, name);
      if |attempts| == 0 || attempts[|attempts| - 1].id != id || attempts[|attempts| - 1].status != Running {
        return Raised;
      }
      attempts := attempts[|attempts| - 1 :=
        Attempt(attempts[|attempts| - 1].number, id, Finished(result.status.Passed?, result.failure))];
      assert attempts == WithLastFinished(Attempts(state, name), result);
      flow := Record(name, result.(attempts := Some(attempts)));
    }

    /** One worker stage: reuse its receipt, or record why it may not run, or spend one attempt on it. */
    method WorkerStage(name: Stage, worker: Worker) returns (flow: Flow)
      requires Sound() && HasWorker(name)
      modifies this
      ensures !flow.Raised?
      ensures Valid() && (flow.Alive? ==> Sound())
      ensures disk.Some? ==> disk.value.identity == old(state).identity
      ensures DiskKept(old(disk), disk) && FilesKept(old(files), files)
      ensures state.identity == old(state).identity
      ensures flow.Alive? ==> Now() == Worked(old(Now()), name, worker)
      ensures if flow == Dead then old(power) < 4 else power >= old(power) - 4
    {
      ghost var before := state;
      assert StageOk(state, files, launches, name);
      SameEntry(before, AsState(Now()), files, name, worker);
      if name in files {
        flow := ReuseReceipt(name);
      } else if !Open(files, name) {
        flow := RecordKept(name, Entry(Blocked, Some(UpstreamBlocked(name)), None, None));
      } else if !CanAttempt(name) {
        flow := RecordKept(name, Entry(Blocked, Some("attempts_exhausted"), None, Some(Attempts(state, name))));
      } else {
        flow := SpendAttempt(name, worker);
      }
    }

    /** A record that names no output and keeps the attempts there are. */
    method RecordKept(name: Stage, entry: Entry) returns (flow: Flow)
      requires Sound() && HasWorker(name) && entry.output.None?
      requires Attempts(state, name) == if entry.attempts.Some? then entry.attempts.value else []
      modifies `state, `disk, `power
      ensures !flow.Raised?
      ensures Valid() && (flow.Alive? ==> Sound())
      ensures disk.Some? ==> disk.value.identity == old(state).identity
      ensures DiskKept(old(disk), disk)
      ensures state.identity == old(state).identity
      ensures flow.Alive? ==> Puts(old(state), state, name, entry)
      ensures if flow == Dead then old(power) < 1 else power >= old(power) - 1
    {
      ghost var before := state;
      assert StageOk(state, files, launches, name);
      flow := Record(name, entry);
      assert Attempts(state, name) == Attempts(before, name);
      Recorded(before, state, files, launches, name, entry);
    }

    /** `reuse` finds the receipt it recorded. */
    method ReuseReceipt(name: Stage) returns (flow: Flow)
      requires Sound() && name in files && name != Finalize
      modifies `state, `disk, `power
      ensures !flow.Raised?
      ensures Valid() && (flow.Alive? ==> Sound())
      ensures disk.Some? ==> disk.value.identity == old(state).identity
      ensures DiskKept(old(disk), disk)
      ensures state.identity == old(state).identity
      ensures flow.Alive? ==>
        Puts(old(state), state, name,
             Entry(Reused, None, Some(files[name]),
                   if name in old(state).stages then old(state).stages[name].attempts else None))
      ensures if flow == Dead then old(power) < 1 else power >= old(power) - 1
    {
      ghost var before := state;
      assert OutputOk(state, files, name);
      assert HasWorker(name) ==> StageOk(state, files, launches, name);
      flow := Reuse(name);
      ghost var entry :=
        Entry(Reused, None, Some(files[name]), if name in before.stages then before.stages[name].attempts else None);
      Recorded(before, state, files, launches, name, entry);
    }

    /** Between reservation and completion: the last attempt is this one, it is on disk, and it may be launched. */
    ghost predicate Spending(name: Stage, id: AttemptId)
      reads this
    {
      && Sound() && disk.Some? && HasWorker(name)
      && EndsRunning(Attempts(state, name), id)
      && Open(files, name)
    }

    method Reserve(name: Stage) returns (flow: Flow, id: AttemptId)
      requires Sound() && HasWorker(name) && Open(files, name) && CanAttempt(name)
      modifies `state, `disk, `power
      ensures !flow.Raised?
      ensures Valid()
      ensures flow.Alive? ==>
        Spending(name, id) && name in launches && launches[name] < |Attempts(state, name)|
      ensures flow.Alive? ==>
        Puts(old(state), state, name,
             Entry(RunningStage, None, None, Some(Attempts(old(state), name) + [NextAttempt(old(state), name)])))
      ensures disk.Some? ==> disk.value.identity == old(state).identity
      ensures DiskKept(old(disk), disk)
      ensures state.identity == old(state).identity
      ensures if flow == Dead then old(power) < 1 else power >= old(power) - 1
    {
      ghost var before := state;
      assert StageOk(state, files, launches, name);
      flow, id := ReserveAttempt(name);
      ghost var entry := Entry(RunningStage, None, None, Some(Attempts(before, name) + [NextAttempt(before, name)]));
      Recorded(before, state, files, launches, name, entry);
    }

    /** The worker is started.  The reservation that pays for it is already on disk. */
    method Launch(name: Stage, id: AttemptId) returns (alive: bool)
      requires Spending(name, id) && name in launches && launches[name] < |Attempts(state, name)|
      modifies `launches, `power
      ensures Valid() && Spending(name, id)
      ensures launches == if alive then old(launches)[name := old(launches)[name] + 1] else old(launches)
      ensures if alive then power >= old(power) - 1 else old(power) < 1
    {
      alive := Survive();
      if alive {
        launches := launches[name := launches[name] + 1];
        forall other | HasWorker(other) ensures StageOk(state, files, launches, other) {
          assert StageOk(state, files, old(launches), other);
        }
        assert forall other :: OutputOk(state, files, other);
      }
    }

    /** The launched worker writes its receipt. */
    method WorkerWrites(name: Stage, id: AttemptId, receipt: Receipt) returns (alive: bool)
      requires Spending(name, id) && name in launches && launches[name] > 0 && name !in files
      modifies `files, `power
      ensures Valid() && Spending(name, id)
      ensures files == if alive then old(files)[name := receipt] else old(files)
      ensures if alive then power >= old(power) - 1 else old(power) < 1
    {
      alive := Survive();
      if alive {
        Written(state, files, launches, name, receipt);
        files := files[name := receipt];
      }
    }

    method Complete(name: Stage, id: AttemptId, result: Entry) returns (flow: Flow)
      requires Spending(name, id)
      requires result.output.Some? ==> name in files && result.output.value == files[name]
      modifies `state, `disk, `power
      ensures !flow.Raised?
      ensures Valid() && (flow.Alive? ==> Sound())
      ensures disk.Some? ==> disk.value.identity == old(state).identity
      ensures DiskKept(old(disk), disk)
      ensures state.identity == old(state).identity
      ensures Attempts(old(state), name) != []
      ensures flow.Alive? ==> Puts(old(state), state, name,
        result.(attempts := Some(WithLastFinished(Attempts(old(state), name), result))))
      ensures if flow == Dead then old(power) < 1 else power >= old(power) - 1
    {
      ghost var before := state;
      assert StageOk(state, files, launches, name);
      flow := CompleteAttempt(name, id, result);
      Recorded(before, state, files, launches, name,
               result.(attempts := Some(WithLastFinished(Attempts(before, name), result))));
    }

    method RunWorker(name: Stage, id: AttemptId, worker: Worker) returns (alive: bool)
      requires Spending(name, id) && name in launches && launches[name] < |Attempts(state, name)| && name !in files
      modifies `launches, `files, `power
      ensures Valid() && Spending(name, id)
      ensures FilesKept(old(files), files)
      ensures alive ==> files == FilesWritten(old(files), name, worker)
      // a worker that runs is counted, and only then
      ensures launches == old(launches) || launches == old(launches)[name := old(launches)[name] + 1]
      ensures alive ==> (launches == old(launches) <==> worker.inputsMissing)
      ensures if alive then power >= old(power) - 2 else old(power) < 2
    {
      if worker.inputsMissing {
        return true;
      }
      alive := Launch(name, id);
      if alive && worker.receipt.Some? {
        alive := WorkerWrites(name, id, worker.receipt.value);
      }
    }

    /** Launch, let the worker write, complete. */
    method RunAndComplete(name: Stage, id: AttemptId, worker: Worker) returns (flow: Flow)
      requires Spending(name, id) && name in launches && launches[name] < |Attempts(state, name)| && name !in files
      modifies this
      ensures !flow.Raised?
      ensures Valid() && (flow.Alive? ==> Sound())
      ensures disk.Some? ==> disk.value.identity == old(state).identity
      ensures DiskKept(old(disk), disk) && FilesKept(old(files), files)
      ensures state.identity == old(state).identity
      ensures Attempts(old(state), name) != []
      ensures flow.Alive? ==>
        && files == FilesWritten(old(files), name, worker)
        && Puts(old(state), state, name, Completed(old(state), old(files), name, worker))
      ensures if flow == Dead then old(power) < 3 else power >= old(power) - 3
    {
      var alive := RunWorker(name, id, worker);
      if !alive {
        return Dead;
      }
      flow := Complete(name, id, Outcome(state.identity.builtin, files, name, worker));
    }

    /** Reserve, launch, let the worker write, complete. */
    method SpendAttempt(name: Stage, worker: Worker) returns (flow: Flow)
      requires Sound() && HasWorker(name) && Spends(state, files, name)
      modifies this
      ensures !flow.Raised?
      ensures Valid() && (flow.Alive? ==> Sound())
      ensures disk.Some? ==> disk.value.identity == old(state).identity
      ensures DiskKept(old(disk), disk) && FilesKept(old(files), files)
      ensures state.identity == old(state).identity
      ensures flow.Alive? ==>
        && Puts(old(state), state, name, EntryAfter(old(state), old(files), name, worker))
        && files == FilesAfter(old(state), old(files), name, worker)
      ensures if flow == Dead then old(power) < 4 else power >= old(power) - 4
    {
      var id;
      flow, id := Reserve(name);
      if !flow.Alive? {
        return;
      }
      ghost var underway, onDisk := state, disk;
      flow := RunAndComplete(name, id, worker);
      DiskKeptTrans(old(disk), onDisk, disk);
      if flow.Alive? {
        SpentPuts(old(state), underway, state, old(files), name, worker);
      }
    }

    /** The static and cards stages: produce the receipt, or reuse it. */
    method ProduceOrReuse(name: Stage, receipt: Option<Receipt>) returns (flow: Flow)
      requires Sound() && (name == Static || name == Cards)
      modifies `state, `disk, `files, `power
      ensures flow.Raised? <==> name !in old(files) && receipt.None?
      ensures flow.Raised? ==> disk == old(disk) && files == old(files)
      ensures Valid() && (flow.Alive? ==> Sound())
      ensures disk.Some? ==> disk.value.identity == old(state).identity
      ensures DiskKept(old(disk), disk) && FilesKept(old(files), files)
      ensures state.identity == old(state).identity
      ensures flow.Alive? ==> Now() == Produced(old(Now()), name, receipt)
      ensures if flow == Dead then old(power) < 2 else power >= old(power) - 2
    {
      if name in files {
        flow := ReuseReceipt(name);
        return;
      }
      if receipt.None? {
        return Raised;
      }
      var alive := Survive();
      if !alive {
        return Dead;
      }
      Written(state, files, launches, name, receipt.value);
      files := files[name := receipt.value];
      ghost var before := state;
      var entry := Entry(if receipt.value.good then Passed else Blocked, None, receipt, None);
      flow := Record(name, entry);
      Recorded(before, state, files, launches, name, entry);
    }

    /** The finalizer is asked only when all five receipts are there, and the verdict is the last thing written. */
    method FinishRun(promotable: Option<bool>) returns (flow: Flow)
      requires Sound()
      modifies `state, `disk, `power
      ensures flow.Raised? <==> AllReceipts(files) && promotable.None?
      ensures flow.Raised? ==> disk == old(disk)
      ensures Valid() && (flow.Alive? ==> Sound())
      ensures disk.Some? ==> disk.value.identity == old(state).identity
      ensures DiskKept(old(disk), disk)
      ensures flow.Alive? ==>
        && disk.Some?
        && disk.value.verdict == if AllReceipts(files) && promotable == Some(true) then Eligible else Quarantined
      ensures files == old(files) && (flow.Alive? ==> Now() == Closed(old(Now()), promotable))
      ensures if flow == Dead then old(power) < 3 else power >= old(power) - 3
    {
      if AllReceipts(files) && promotable.None? {
        return Raised;
      }
      var promoted := AllReceipts(files) && promotable.value;
      var alive := Survive();
      if !alive {
        return Dead;
      }
      ghost var before := state;
      var failure := if AllReceipts(files) then None else Some("prerequisite_blocked");
      var entry := Entry(if promoted then Passed else Blocked, failure, Some(Receipt(promoted, "final")), None);
      flow := Record(Finalize, entry);
      Recorded(before, state, files, launches, Finalize, entry);
      if flow.Dead? {
        return;
      }
      ghost var recorded := state;
      state := state.(verdict := if promoted then Eligible else Quarantined);
      SameStages(recorded, state, files, launches);
      alive := Survive();
      if !alive {
        return Dead;
      }
      disk := Some(state);
      StateKeptTrans(before, recorded, state);
      return Alive;
    }

    /** The three stages that run a worker, in order, up to the first that dies. */
    method RunWorkers(env: Env) returns (flow: Flow)
      requires Sound()
      modifies this
      ensures !flow.Raised?
      ensures Valid() && (flow.Alive? ==> Sound())
      ensures disk.Some? ==> disk.value.identity == old(state).identity
      ensures Kept(old(disk), old(files), disk, files)
      ensures state.identity == old(state).identity
      ensures flow.Alive? ==>
        Now() == Worked(Worked(Worked(old(Now()), SemanticReview, env.semantic), Harbor, env.harbor),
                        Calibration, env.calibration)
      ensures if flow == Dead then old(power) < 12 else power >= old(power) - 12
    {
      ghost var d0, f0 := disk, files;
      flow := WorkerStage(SemanticReview, env.semantic);
      if !flow.Alive? {
        return;
      }
      ghost var d1, f1 := disk, files;
      flow := WorkerStage(Harbor, env.harbor);
      KeptTrans(d0, f0, d1, f1, disk, files);
      if !flow.Alive? {
        return;
      }
      ghost var d2, f2 := disk, files;
      flow := WorkerStage(Calibration, env.calibration);
      KeptTrans(d0, f0, d2, f2, disk, files);
    }

    /** The stages of one invocation, in order, up to the first that dies. */
    method RunStages(env: Env) returns (flow: Flow)
      requires Sound()
      modifies this
      ensures flow.Raised? ==> Raises(old(Now()), env)
      ensures flow.Alive? ==> !Raises(old(Now()), env)
      ensures Valid()
      ensures disk.Some? ==> disk.value.identity == old(state).identity
      ensures Kept(old(disk), old(files), disk, files)
      ensures flow.Alive? ==> OnDisk(Invoked(old(Now()), env), env)
      ensures if flow == Dead then old(power) < 19 else power >= old(power) - 19
    {
      ghost var d0, f0 := disk, files;
      flow := ProduceOrReuse(Static, env.staticReceipt);
      if !flow.Alive? {
        return;
      }
      ghost var d1, f1 := disk, files;
      flow := RunWorkers(env);
      KeptTrans(d0, f0, d1, f1, disk, files);
      if !flow.Alive? {
        return;
      }
      ghost var d2, f2 := disk, files;
      flow := ProduceOrReuse(Cards, env.cards);
      KeptTrans(d0, f0, d2, f2, disk, files);
      if !flow.Alive? {
        return;
      }
      ghost var d3, f3 := disk, files;
      flow := FinishRun(env.promoted);
      KeptTrans(d0, f0, d3, f3, disk, files);
    }

    /** The state and the receipts on disk are those of `g`, with the verdict that belongs to them. */
    ghost predicate OnDisk(g: Progress, env: Env)
      reads this
    {
      && disk.Some? && disk.value.identity == g.identity && disk.value.stages == g.stages && files == g.files
      && disk.value.verdict == if AllReceipts(g.files) && env.promoted == Some(true) then Eligible else Quarantined
    }

    /** One invocation of `run`, under the lock.  It raises at once if its bounds are invalid or the state belongs to
        other inputs, and later only if one of the three calls does. */
    method Invoke(config: Config, env: Env) returns (flow: Flow)
      requires Valid()
      modifies this
      ensures Valid()
      ensures Refused(old(disk), config) ==> flow.Raised? && disk == old(disk) && files == old(files)
      ensures flow.Raised? ==> Refused(old(disk), config) || Raises(Found(old(disk), config, old(files)), env)
      ensures disk.Some? && !Refused(old(disk), config) ==> disk.value.identity == config
      ensures Kept(old(disk), old(files), disk, files)
      ensures flow.Alive? ==> !Raises(Found(old(disk), config, old(files)), env)
      ensures flow.Alive? ==> OnDisk(Invoked(Found(old(disk), config, old(files)), env), env)
      // an invocation that lives through nineteen writes and launches does not die
      ensures flow.Dead? ==> env.power < 19
    {
      if !ConfigOk(config) {
        return Raised;
      }
      power := env.power;
      if disk.Some? {
        if disk.value.identity != config {
          return Raised;
        }
        state := disk.value;
      } else {
        state := Fresh(config);
        forall name | HasWorker(name) ensures StageOk(state, files, launches, name) {
        }
      }
      flow := RunStages(env);
    }

    /** A worker that outlived its supervisor may still write its receipt. */
    method OrphanWrites(name: Stage, receipt: Receipt)
      requires Valid() && disk.Some? && HasWorker(name) && name !in files
      requires name in launches && launches[name] > 0
      modifies `files
      ensures Valid()
      ensures files == old(files)[name := receipt]
    {
      Written(disk.value, files, launches, name, receipt);
      files := files[name := receipt];
    }

    /** Any further invocations, crashes and orphaned workers: no receipt changes, no attempt is dropped or renumbered,
        no finished one is reopened, and the debited budget never falls. */
    method RunMore(events: seq<Event>)
      requires Valid()
      modifies this
      ensures Valid()
      ensures Kept(old(disk), old(files), disk, files)
      ensures old(disk).Some? ==> disk.Some? && DebitsGrow(old(disk).value, disk.value)
    {
      for i := 0 to |events|
        invariant Valid()
        invariant Kept(old(disk), old(files), disk, files)
      {
        ghost var d, f := disk, files;
        match events[i]
        case Invocation(config, env) =>
          var flow := Invoke(config, env);
          KeptTrans(old(disk), old(files), d, f, disk, files);
        case OrphanWrite(name, receipt) =>
          if disk.Some? && HasWorker(name) && name !in files && name in launches && launches[name] > 0 {
            OrphanWrites(name, receipt);
          }
      }
      if disk.Some? && old(disk).Some? {
        KeptDebits(old(disk).value, disk.value);
      }
    }
  }

  ghost predicate DebitsGrow(a: State, b: State) {
    && a.budget.Some? && b.budget.Some?
    && a.budget.value.debited.requests <= b.budget.value.debited.requests
    && a.budget.value.debited.tokens <= b.budget.value.debited.tokens
  }

  lemma KeptDebits(a: State, b: State)
    requires StateKept(a, b) && BudgetRecorded(a) && BudgetRecorded(b)
    ensures DebitsGrow(a, b)
  {
    assert HasWorker(SemanticReview) && HasWorker(Calibration);
    var n, m := |Attempts(a, SemanticReview)|, |Attempts(a, Calibration)|;
    var n', m' := |Attempts(b, SemanticReview)|, |Attempts(b, Calibration)|;
    var contract := ProviderBudgetContract(a.identity);
    UsedMonotone(n, n', m, m', contract.semantic.requests, contract.calibration.requests);
    UsedMonotone(n, n', m, m', contract.semantic.tokens, contract.calibration.tokens);
  }

  /** What can happen to an output directory: invocations, and writes by workers whose supervisor has died. */
  datatype Event = Invocation(config: Config, env: Env) | OrphanWrite(name: Stage, receipt: Receipt)

  /** Any sequence of invocations, crashes and orphaned workers, from an empty directory. */
  method RunAll(config: Config, events: seq<Event>) returns (s: Supervisor)
    ensures fresh(s) && s.Valid()
    // for the state on disk, whatever happened
    ensures s.disk.Some? ==>
      && (forall name :: HasWorker(name) ==>
            && name in s.launches
            && s.launches[name] <= |Attempts(s.disk.value, name)| <= s.disk.value.identity.maxAttempts)
      && s.disk.value.budget.Some?
      && Conserved(s.disk.value.budget.value, ProviderBudgetContract(s.disk.value.identity))
  {
    s := new Supervisor(config);
    s.RunMore(events);
    if s.disk.Some? {
      BudgetNeverExceeded(s.disk.value, s.files, s.launches);
    }
  }

  /** Whatever was started was paid for, no stage was paid for more than the cap, and the books balance. */
  lemma BudgetNeverExceeded(st: State, files: map<Stage, Receipt>, launches: map<Stage, nat>)
    requires Inv(st, files, launches) && BudgetRecorded(st)
    ensures forall name :: HasWorker(name) ==>
      name in launches && launches[name] <= |Attempts(st, name)| <= st.identity.maxAttempts
    ensures Conserved(st.budget.value, ProviderBudgetContract(st.identity))
    ensures Used(launches[SemanticReview], launches[Calibration],
                 ProviderBudgetContract(st.identity).semantic.requests,
                 ProviderBudgetContract(st.identity).calibration.requests) <= st.budget.value.debited.requests
    ensures Used(launches[SemanticReview], launches[Calibration],
                 ProviderBudgetContract(st.identity).semantic.tokens,
                 ProviderBudgetContract(st.identity).calibration.tokens) <= st.budget.value.debited.tokens
  {
    forall name | HasWorker(name)
      ensures name in launches && launches[name] <= |Attempts(st, name)| <= st.identity.maxAttempts
    {
      assert StageOk(st, files, launches, name);
    }
    assert HasWorker(SemanticReview) && HasWorker(Calibration);
    var n, m := |Attempts(st, SemanticReview)|, |Attempts(st, Calibration)|;
    var contract := ProviderBudgetContract(st.identity);
    BudgetConserved(st.identity, n, m);
    UsedMonotone(launches[SemanticReview], n, launches[Calibration], m,
                 contract.semantic.requests, contract.calibration.requests);
    UsedMonotone(launches[SemanticReview], n, launches[Calibration], m,
                 contract.semantic.tokens, contract.calibration.tokens);
  }

  lemma UsedMonotone(n: nat, n': nat, m: nat, m': nat, first: nat, second: nat)
    requires n <= n' && m <= m'
    ensures Used(n, m, first, second) <= Used(n', m', first, second)
  {
  }

  /** A full set of receipts means that both gates were passed. */
  lemma ReceiptsPassedTheGates(st: State, files: map<Stage, Receipt>, launches: map<Stage, nat>)
    requires Inv(st, files, launches) && AllReceipts(files)
    ensures files[Static].good && files[SemanticReview].good
  {
    assert HasWorker(SemanticReview) && HasWorker(Harbor);
    assert StageOk(st, files, launches, SemanticReview) && StageOk(st, files, launches, Harbor);
  }

  /** The bounds `run` checks first. */
  predicate ConfigOk(c: Config) {
    && c.repetitions >= 5
    && (exists i, j :: 0 <= i < j < |c.calibrationModels| && c.calibrationModels[i] != c.calibrationModels[j])
    && (exists i, j :: 0 <= i < j < |c.semanticModels| && c.semanticModels[i] != c.semanticModels[j])
    && 1 <= c.maxAttempts <= 5
    && 1 <= c.reviewTokens <= 32000
    && 1 <= c.calibrationTokens <= 32000
  }

  predicate AllReceipts(files: map<Stage, Receipt>) {
    Static in files && SemanticReview in files && Harbor in files && Calibration in files && Cards in files
  }

  lemma SameStages(a: State, b: State, files: map<Stage, Receipt>, launches: map<Stage, nat>)
    requires Inv(a, files, launches) && a.identity == b.identity && a.stages == b.stages
    ensures Inv(b, files, launches) && StateKept(a, b)
  {
    forall name | HasWorker(name) ensures StageOk(b, files, launches, name) {
      assert StageOk(a, files, launches, name);
    }
    forall name ensures OutputOk(b, files, name) {
      assert OutputOk(a, files, name);
    }
  }

  function FilesWritten(files: map<Stage, Receipt>, name: Stage, worker: Worker): map<Stage, Receipt> {
    if !worker.inputsMissing && worker.receipt.Some? then files[name := worker.receipt.value] else files
  }

  /** The entry of a stage whose running attempt takes its result. */
  function Completed(st: State, files: map<Stage, Receipt>, name: Stage, worker: Worker): Entry
    requires Attempts(st, name) != []
  {
    var result := Outcome(st.identity.builtin, FilesWritten(files, name, worker), name, worker);
    result.(attempts := Some(WithLastFinished(Attempts(st, name), result)))
  }

  /** What a stage leaves does not depend on the budget or the verdict. */
  lemma SameEntry(a: State, b: State, files: map<Stage, Receipt>, name: Stage, worker: Worker)
    requires a.identity == b.identity && a.stages == b.stages
    ensures EntryAfter(a, files, name, worker) == EntryAfter(b, files, name, worker)
    ensures FilesAfter(a, files, name, worker) == FilesAfter(b, files, name, worker)
  {
  }

  lemma SpentPuts(a: State, b: State, c: State, files: map<Stage, Receipt>, name: Stage, worker: Worker)
    requires Spends(a, files, name)
    requires Puts(a, b, name, Entry(RunningStage, None, None, Some(Attempts(a, name) + [NextAttempt(a, name)])))
    requires Puts(b, c, name, Completed(b, files, name, worker))
    ensures Puts(a, c, name, EntryAfter(a, files, name, worker))
  {
  }

  /** The attempt that `reserve_attempt` writes. */
  function NextAttempt(st: State, name: Stage): Attempt {
    var number := |Attempts(st, name)| + 1;
    Attempt(number, AttemptId(st.identity, name, number), Running)
  }

  predicate EndsRunning(attempts: seq<Attempt>, id: AttemptId) {
    |attempts| > 0 && attempts[|attempts| - 1].id == id && attempts[|attempts| - 1].status == Running
  }

  function WithLastFinished(attempts: seq<Attempt>, result: Entry): seq<Attempt>
    requires |attempts| > 0
  {
    attempts[..|attempts| - 1] +
    [attempts[|attempts| - 1].(status := Finished(result.status.Passed?, result.failure))]
  }
}
