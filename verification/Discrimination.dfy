/**
  `_summarize_trials` and `_discrimination_summary` of src/orbenchlab/volc_rollout.py.

  The interval is a parameter of the comparison.  `Wilson95` is the one the source uses, for a given square
  root function, and `Wilson95Qualifies` proves of it what the comparison relies on.
  */
module Discrimination {
  import opened Options
  import opened Ordering
  import opened Rounding
  import W = Wilson

  // ---------------------------------------------------------------------------
  // _summarize_trials
  // ---------------------------------------------------------------------------

  /** A trial row; `failureMode` and `errorType` are None when absent or empty. */
  datatype Row = Row(model: string, hint: int, status: string, failureMode: Option<string>, errorType: Option<string>)

  /** An arm is a model at a hint level. */
  type ArmKey = (string, int)

  datatype Entry = Entry(n: nat, metricN: nat, passed: nat, infra: set<string>, failureModes: set<string>)

  const EMPTY := Entry(0, 0, 0, {}, {})

  predicate IsOutcome(status: string) {
    status in {"pass", "fail", "invalid_output"}
  }

  function Key(row: Row): ArmKey { (row.model, row.hint) }

  function OrElse(value: Option<string>, default: string): string {
    if value.Some? then value.value else default
  }

  /** The rows of one arm, in order. */
  function RowsOf(trials: seq<Row>, key: ArmKey): seq<Row> {
    if trials == [] then []
    else
      var last := trials[|trials| - 1];
      RowsOf(trials[..|trials| - 1], key) + (if Key(last) == key then [last] else [])
  }

  function CountOutcomes(rows: seq<Row>): nat {
    if rows == [] then 0
    else CountOutcomes(rows[..|rows| - 1]) + if IsOutcome(rows[|rows| - 1].status) then 1 else 0
  }

  function CountPasses(rows: seq<Row>): nat {
    if rows == [] then 0
    else CountPasses(rows[..|rows| - 1]) + if rows[|rows| - 1].status == "pass" then 1 else 0
  }

  /** What the summary of an arm says about its rows: only outcomes count towards the metric, and every
      other row leaves its reason behind. */
  ghost predicate Summarizes(entry: Entry, rows: seq<Row>) {
    && entry.n == |rows| && entry.metricN == CountOutcomes(rows) && entry.passed == CountPasses(rows)
    && (forall e :: e in entry.infra <==>
          exists i :: 0 <= i < |rows| && !IsOutcome(rows[i].status) && e == OrElse(rows[i].errorType, rows[i].status))
    && (forall f :: f in entry.failureModes <==>
          exists i :: 0 <= i < |rows| && HasFailureMode(rows[i], f))
  }

  predicate HasFailureMode(row: Row, f: string) {
    || (IsOutcome(row.status) && row.status != "pass" && f == OrElse(row.failureMode, row.status))
    || (row.status == "timeout" && f == "verifier_timeout_inconclusive")
  }

  function AddRow(entry: Entry, row: Row): Entry {
    if IsOutcome(row.status) then
      if row.status == "pass" then
        entry.(n := entry.n + 1, metricN := entry.metricN + 1, passed := entry.passed + 1)
      else
        entry.(n := entry.n + 1, metricN := entry.metricN + 1,
               failureModes := entry.failureModes + {OrElse(row.failureMode, row.status)})
    else
      entry.(n := entry.n + 1,
             infra := entry.infra + {OrElse(row.errorType, row.status)},
             failureModes := entry.failureModes
               + if row.status == "timeout" then {"verifier_timeout_inconclusive"} else {})
  }

  lemma AddRowSummarizes(entry: Entry, rows: seq<Row>, row: Row)
    requires Summarizes(entry, rows)
    ensures Summarizes(AddRow(entry, row), rows + [row])
  {
    var more, entry' := rows + [row], AddRow(entry, row);
    assert more[..|rows|] == rows;
    assert more[|rows|] == row;
    forall e
      ensures e in entry'.infra <==>
        exists i :: 0 <= i < |more| && !IsOutcome(more[i].status) && e == OrElse(more[i].errorType, more[i].status)
    {
      if i :| 0 <= i < |rows| && !IsOutcome(rows[i].status) && e == OrElse(rows[i].errorType, rows[i].status) {
        assert more[i] == rows[i];
      }
    }
    forall f
      ensures f in entry'.failureModes <==> exists i :: 0 <= i < |more| && HasFailureMode(more[i], f)
    {
      if i :| 0 <= i < |rows| && HasFailureMode(rows[i], f) {
        assert more[i] == rows[i];
      }
    }
  }

  lemma {:induction false} CountsOrdered(rows: seq<Row>)
    ensures CountPasses(rows) <= CountOutcomes(rows) <= |rows|
  {
    if rows != [] {
      CountsOrdered(rows[..|rows| - 1]);
    }
  }

  /** `grouped` has an entry for exactly the arms that occur, and each summarizes its rows. */
  ghost predicate Groups(grouped: map<ArmKey, Entry>, trials: seq<Row>) {
    && (forall key :: key in grouped <==> RowsOf(trials, key) != [])
    && (forall key :: key in grouped ==> Summarizes(grouped[key], RowsOf(trials, key)))
  }

  lemma RowsOfAppend(trials: seq<Row>, row: Row, key: ArmKey)
    ensures RowsOf(trials + [row], key) == RowsOf(trials, key) + (if Key(row) == key then [row] else [])
  {
  }

  lemma GroupOne(grouped: map<ArmKey, Entry>, trials: seq<Row>, row: Row)
    requires Groups(grouped, trials)
    ensures
      var entry := if Key(row) in grouped then grouped[Key(row)] else EMPTY;
      Groups(grouped[Key(row) := AddRow(entry, row)], trials + [row])
  {
    var entry := if Key(row) in grouped then grouped[Key(row)] else EMPTY;
    assert Summarizes(entry, RowsOf(trials, Key(row)));
    AddRowSummarizes(entry, RowsOf(trials, Key(row)), row);
    var grouped' := grouped[Key(row) := AddRow(entry, row)];
    forall key
      ensures key in grouped' <==> RowsOf(trials + [row], key) != []
      ensures key in grouped' ==> Summarizes(grouped'[key], RowsOf(trials + [row], key))
    {
      RowsOfAppend(trials, row, key);
      if key != Key(row) {
        assert RowsOf(trials + [row], key) == RowsOf(trials, key);
      }
    }
  }

  /** The loop of `_summarize_trials`. */
  method GroupTrials(trials: seq<Row>) returns (grouped: map<ArmKey, Entry>)
    ensures Groups(grouped, trials)
  {
    grouped := map[];
    for i := 0 to |trials|
      invariant Groups(grouped, trials[..i])
    {
      var row := trials[i];
      var entry := if Key(row) in grouped then grouped[Key(row)] else EMPTY;
      GroupOne(grouped, trials[..i], row);
      assert trials[..i + 1] == trials[..i] + [row];
      grouped := grouped[Key(row) := AddRow(entry, row)];
    }
    assert trials[..|trials|] == trials;
  }

  /** The part of an arm that the comparison reads. */
  datatype Arm = Arm(solveN: int, solveRate: Option<real>, infra: set<string>)

  function ArmOf(entry: Entry): Arm {
    Arm(entry.metricN,
        if entry.metricN == 0 then None else Some(entry.passed as real / entry.metricN as real),
        entry.infra)
  }

  /** The arm says how many of its rows are outcomes, the share of passes among those, and whether all rows are. */
  ghost predicate ArmSummarizes(arm: Arm, rows: seq<Row>) {
    && arm.solveN == CountOutcomes(rows)
    && arm.solveRate == (if CountOutcomes(rows) == 0 then None
                         else Some(CountPasses(rows) as real / CountOutcomes(rows) as real))
    && (arm.infra == {} <==> CountOutcomes(rows) == |rows|)
  }

  ghost predicate Summarized(arms: map<ArmKey, Arm>, trials: seq<Row>) {
    && (forall key :: key in arms <==> RowsOf(trials, key) != [])
    && (forall key :: key in arms ==> ArmSummarizes(arms[key], RowsOf(trials, key)))
  }

  /** `_summarize_trials`. */
  method SummarizeTrials(trials: seq<Row>) returns (arms: map<ArmKey, Arm>)
    ensures Summarized(arms, trials)
  {
    var grouped := GroupTrials(trials);
    arms := map key | key in grouped :: ArmOf(grouped[key]);
    forall key | key in arms
      ensures arms[key].infra == {} <==> CountOutcomes(RowsOf(trials, key)) == |RowsOf(trials, key)|
    {
      InfraMeansMissing(grouped[key], RowsOf(trials, key));
    }
  }

  lemma InfraMeansMissing(entry: Entry, rows: seq<Row>)
    requires Summarizes(entry, rows)
    ensures entry.infra == {} <==> CountOutcomes(rows) == |rows|
  {
    AllOutcomes(rows);
    if i :| 0 <= i < |rows| && !IsOutcome(rows[i].status) {
      assert OrElse(rows[i].errorType, rows[i].status) in entry.infra;
    }
    if e :| e in entry.infra {
      var i :| 0 <= i < |rows| && !IsOutcome(rows[i].status) && e == OrElse(rows[i].errorType, rows[i].status);
    }
  }

  lemma {:induction false} AllOutcomes(rows: seq<Row>)
    ensures CountOutcomes(rows) == |rows| <==> forall i :: 0 <= i < |rows| ==> IsOutcome(rows[i].status)
  {
    if rows != [] {
      var init := rows[..|rows| - 1];
      AllOutcomes(init);
      CountsOrdered(init);
      assert forall i :: 0 <= i < |init| ==> init[i] == rows[i];
    }
  }

  // ---------------------------------------------------------------------------
  // _discrimination_summary
  // ---------------------------------------------------------------------------

  const MIN_REPETITIONS := 5

  /** Endpoints of the interval for a number of successes and a number of trials; None for an error. */
  type Interval = (int, int) -> Option<(real, real)>

  /** `low` and `high` are the endpoints rounded to six places. */
  datatype Cell = Cell(model: string, n: int, successes: int, rate: real, low: real, high: real, infra: set<string>)

  /** What the loop makes of one model: no cell, a cell, or an error of `_wilson_interval`. */
  datatype Looked = Skipped | Found(cell: Cell) | Failed

  /** `int(round(rate * n))`. */
  function Successes(rate: real, n: int): int {
    RoundHalfEven(Scaled(rate, n))
  }

  function Scaled(rate: real, n: int): real {
    rate * n as real
  }

  function CellOf(arms: map<ArmKey, Arm>, model: string, interval: Interval): Looked {
    if (model, 0) !in arms || arms[(model, 0)].solveRate.None? then Skipped
    else
      var arm := arms[(model, 0)];
      var n, rate := arm.solveN, arm.solveRate.value;
      var successes := Successes(rate, n);
      if n <= 0 || !(-0.000000001 <= successes as real / n as real - rate <= 0.000000001) then Skipped
      else
        match interval(successes, n)
        case None => Failed
        case Some((lower, upper)) =>
          Found(Cell(model, n, successes, rate, Round6(lower), Round6(upper), arm.infra))
  }

  /** What the loop makes of each model. */
  function Look(arms: map<ArmKey, Arm>, interval: Interval): string -> Looked {
    model => CellOf(arms, model, interval)
  }

  /** The cells of the models, in order; None if some interval has no meaning. */
  function Cells(models: seq<string>, look: string -> Looked): Option<seq<Cell>> {
    if models == [] then Some([])
    else
      var before := Cells(models[..|models| - 1], look);
      var looked := look(models[|models| - 1]);
      if before.None? || looked.Failed? then None
      else if looked.Skipped? then before
      else Some(before.value + [looked.cell])
  }

  /** The first loop of `_discrimination_summary`. */
  method BuildCells(models: seq<string>, look: string -> Looked) returns (cells: Option<seq<Cell>>)
    ensures cells == Cells(models, look)
  {
    var found: seq<Cell> := [];
    for i := 0 to |models|
      invariant Cells(models[..i], look) == Some(found)
    {
      assert models[..i + 1][..i] == models[..i];
      var looked := look(models[i]);
      if looked.Failed? {
        FailsLater(models, look, i);
        return None;
      }
      if looked.Found? {
        found := found + [looked.cell];
      }
    }
    assert models[..|models|] == models;
    return Some(found);
  }

  lemma {:induction false} FailsLater(models: seq<string>, look: string -> Looked, i: nat)
    requires i < |models| && look(models[i]).Failed?
    ensures Cells(models, look).None?
  {
    if i < |models| - 1 {
      FailsLater(models[..|models| - 1], look, i);
    }
  }

  /** `sorted(cells, key=lambda cell: (cell["solve_rate"], cell["model"]))`. */
  predicate Before(a: Cell, b: Cell) {
    a.rate < b.rate || (a.rate == b.rate && Le(a.model, b.model))
  }

  function InsertCell(c: Cell, cells: seq<Cell>): seq<Cell> {
    if cells == [] then [c]
    else if Before(c, cells[0]) then [c] + cells
    else [cells[0]] + InsertCell(c, cells[1..])
  }

  function SortCells(cells: seq<Cell>): seq<Cell> {
    if cells == [] then [] else InsertCell(cells[0], SortCells(cells[1..]))
  }

  datatype Reason = TooFewArms | NotRectangular | TooFewRepetitions | NotSeparated | Separated

  datatype Summary = Summary(
    rectangular: bool,
    best: Option<string>,
    baseline: Option<string>,
    observedGap: Option<real>,
    lowerBound: Option<real>,
    promising: bool,
    reason: Reason)

  predicate Rectangular(cells: seq<Cell>, models: seq<string>, repetitions: int) {
    && |cells| == |models| && |cells| >= 2
    && forall i :: 0 <= i < |cells| ==> cells[i].n == repetitions && cells[i].infra == {}
  }

  function Worst(cells: seq<Cell>): (c: Cell)
    requires cells != []
  {
    SortedNonempty(cells);
    SortCells(cells)[0]
  }

  function Best(cells: seq<Cell>): (c: Cell)
    requires cells != []
  {
    SortedNonempty(cells);
    SortCells(cells)[|cells| - 1]
  }

  function Verdict(lowerBound: real, repetitions: int): Reason {
    if repetitions < MIN_REPETITIONS then TooFewRepetitions
    else if lowerBound <= 0.0 then NotSeparated
    else Separated
  }

  function Judge(cells: seq<Cell>, models: seq<string>, repetitions: int): Summary {
    if !Rectangular(cells, models, repetitions) then
      Summary(false, None, None, None, None, false, if |cells| >= 2 then NotRectangular else TooFewArms)
    else
      var worst, best := Worst(cells), Best(cells);
      var reason := Verdict(best.low - worst.high, repetitions);
      Summary(true, Some(best.model), Some(worst.model), Some(Round6(best.rate - worst.rate)),
              Some(Round6(best.low - worst.high)), reason == Separated, reason)
  }

  // ---------------------------------------------------------------------------
  // The chosen pair
  // ---------------------------------------------------------------------------

  lemma {:induction false} InsertCellKeeps(c: Cell, cells: seq<Cell>)
    ensures |InsertCell(c, cells)| == |cells| + 1
    ensures forall d :: d in InsertCell(c, cells) <==> d == c || d in cells
  {
    if cells != [] {
      InsertCellKeeps(c, cells[1..]);
      assert cells == [cells[0]] + cells[1..];
    }
  }

  lemma {:induction false} SortedNonempty(cells: seq<Cell>)
    ensures |SortCells(cells)| == |cells|
    ensures forall d :: d in SortCells(cells) <==> d in cells
  {
    if cells != [] {
      SortedNonempty(cells[1..]);
      InsertCellKeeps(cells[0], SortCells(cells[1..]));
      assert cells == [cells[0]] + cells[1..];
    }
  }

  lemma BeforeTotal(a: Cell, b: Cell)
    ensures Before(a, b) || Before(b, a)
  {
    Total(a.model, b.model);
  }

  lemma BeforeTransitive(a: Cell, b: Cell, c: Cell)
    requires Before(a, b) && Before(b, c)
    ensures Before(a, c)
  {
    if a.rate == b.rate == c.rate {
      Transitive(a.model, b.model, c.model);
    }
  }

  ghost predicate InOrder(cells: seq<Cell>) {
    forall i, j :: 0 <= i < j < |cells| ==> Before(cells[i], cells[j])
  }

  lemma {:induction false} InsertCellOrders(c: Cell, cells: seq<Cell>)
    requires InOrder(cells)
    ensures InOrder(InsertCell(c, cells))
  {
    if cells == [] {
    } else if Before(c, cells[0]) {
      forall i | 0 <= i < |cells|
        ensures Before(c, cells[i])
      {
        if i > 0 {
          BeforeTransitive(c, cells[0], cells[i]);
        }
      }
    } else {
      InsertCellOrders(c, cells[1..]);
      InsertCellKeeps(c, cells[1..]);
      BeforeTotal(c, cells[0]);
      var rest := InsertCell(c, cells[1..]);
      forall i | 0 <= i < |rest|
        ensures Before(cells[0], rest[i])
      {
        assert rest[i] in rest;
      }
    }
  }

  lemma {:induction false} SortedInOrder(cells: seq<Cell>)
    ensures InOrder(SortCells(cells))
  {
    if cells != [] {
      SortedInOrder(cells[1..]);
      InsertCellOrders(cells[0], SortCells(cells[1..]));
    }
  }

  /** The first sorted cell comes before every cell and the last one after every cell. */
  lemma Extremes(cells: seq<Cell>, c: Cell)
    requires c in cells
    ensures
      var ordered := SortCells(cells);
      && |ordered| == |cells|
      && (ordered[0] == c || Before(ordered[0], c))
      && (ordered[|ordered| - 1] == c || Before(c, ordered[|ordered| - 1]))
      && ordered[0] in cells && ordered[|ordered| - 1] in cells
  {
    SortedNonempty(cells);
    SortedInOrder(cells);
    var ordered := SortCells(cells);
    var i :| 0 <= i < |ordered| && ordered[i] == c;
    assert ordered[0] in ordered && ordered[|ordered| - 1] in ordered;
  }

  // ---------------------------------------------------------------------------
  // The choice is complete
  // ---------------------------------------------------------------------------

  ghost predicate Defined(interval: Interval, s: int, n: int) {
    interval(s, n).Some? <==> W.ValidCounts(s, n)
  }

  /** Both endpoints grow with the successes, and intervals that are apart come from different counts. */
  ghost predicate Grows(interval: Interval, s: int, s': int, n: int) {
    W.ValidCounts(s, n) && W.ValidCounts(s', n) && interval(s, n).Some? && interval(s', n).Some? ==>
      var x, y := interval(s, n).value, interval(s', n).value;
      (s <= s' ==> x.0 <= y.0 && x.1 <= y.1) && (x.1 < y.0 ==> s < s')
  }

  /** What the comparison relies on. */
  ghost predicate Qualifies(interval: Interval) {
    && (forall s, n :: Defined(interval, s, n))
    && (forall s, s', n :: Grows(interval, s, s', n))
  }

  /** The cell holds the rounded endpoints of the interval for its counts. */
  ghost predicate Made(c: Cell, interval: Interval) {
    && W.ValidCounts(c.successes, c.n)
    && interval(c.successes, c.n).Some?
    && c.low == Round6(interval(c.successes, c.n).value.0) && c.high == Round6(interval(c.successes, c.n).value.1)
  }

  /** The cell's successes are its rate times its trials, rounded. */
  ghost predicate Counted(c: Cell) {
    c.successes == Successes(c.rate, c.n)
  }

  lemma FoundIsMade(arms: map<ArmKey, Arm>, model: string, interval: Interval)
    requires Qualifies(interval) && CellOf(arms, model, interval).Found?
    ensures var c := CellOf(arms, model, interval).cell; c.model == model && Made(c, interval) && Counted(c)
  {
    var c := CellOf(arms, model, interval).cell;
    assert Defined(interval, c.successes, c.n);
  }

  lemma SuccessesMonotone(x: real, y: real, n: int)
    requires x <= y && n >= 0
    ensures Successes(x, n) <= Successes(y, n)
  {
    ScaledMonotone(x, y, n);
    RoundHalfEvenMonotone(Scaled(x, n), Scaled(y, n));
  }

  lemma ScaledMonotone(x: real, y: real, n: int)
    requires x <= y && n >= 0
    ensures Scaled(x, n) <= Scaled(y, n)
  {
  }

  ghost predicate CountsFollowRates(a: Cell, b: Cell) {
    a.rate <= b.rate ==> a.successes <= b.successes
  }

  /** Out of the same number of trials a larger rate means at least as many successes. */
  lemma CountedFollows(a: Cell, b: Cell)
    requires Counted(a) && Counted(b) && a.n == b.n && a.n >= 0
    ensures CountsFollowRates(a, b)
  {
    if a.rate <= b.rate {
      SuccessesMonotone(a.rate, b.rate, a.n);
    }
  }

  /** Of two cells with the same number of trials, the one with more successes has the higher interval. */
  lemma CellsFollowCounts(a: Cell, b: Cell, interval: Interval)
    requires Qualifies(interval) && Made(a, interval) && Made(b, interval) && a.n == b.n && a.successes <= b.successes
    ensures a.low <= b.low && a.high <= b.high
  {
    assert Grows(interval, a.successes, b.successes, a.n);
    Round6Monotone(interval(a.successes, a.n).value.0, interval(b.successes, b.n).value.0);
    Round6Monotone(interval(a.successes, a.n).value.1, interval(b.successes, b.n).value.1);
  }

  /** Rounded intervals that are apart come from exact ones that are apart, hence from different counts. */
  lemma RoundedSeparationIsStrict(a: Cell, b: Cell, interval: Interval)
    requires Qualifies(interval) && Made(a, interval) && Made(b, interval) && a.n == b.n && b.high < a.low
    ensures b.successes < a.successes
  {
    assert Grows(interval, b.successes, a.successes, a.n);
    var x, y := interval(a.successes, a.n).value.0, interval(b.successes, b.n).value.1;
    if x <= y {
      Round6Monotone(x, y);
    }
  }

  /** All cells have `n` trials and were computed from their counts, which follow their rates. */
  ghost predicate AllMade(cells: seq<Cell>, n: int, interval: Interval) {
    && (forall c :: c in cells ==> c.n == n && Made(c, interval))
    && (forall a, b :: a in cells && b in cells ==> CountsFollowRates(a, b))
  }

  ghost predicate SomePairSeparated(cells: seq<Cell>) {
    exists a, b :: a in cells && b in cells && b.high < a.low
  }

  lemma ChosenPair(cells: seq<Cell>, n: int, interval: Interval)
    requires cells != [] && Qualifies(interval) && AllMade(cells, n, interval)
    ensures SomePairSeparated(cells) <==> Worst(cells).high < Best(cells).low
    ensures Best(cells) in cells && Worst(cells) in cells
  {
    Extremes(cells, cells[0]);
    if SomePairSeparated(cells) {
      var a, b :| a in cells && b in cells && b.high < a.low;
      Extremes(cells, a);
      Extremes(cells, b);
      assert CountsFollowRates(a, Best(cells)) && CountsFollowRates(Worst(cells), b);
      CellsFollowCounts(a, Best(cells), interval);
      CellsFollowCounts(Worst(cells), b, interval);
    }
  }

  lemma RectangularCells(cells: seq<Cell>, models: seq<string>, repetitions: int)
    requires Rectangular(cells, models, repetitions)
    ensures forall c :: c in cells ==> c.n == repetitions
  {
  }

  /** The best and the worst model are separated exactly when some two models are. */
  lemma GreedyIsComplete(cells: seq<Cell>, models: seq<string>, repetitions: int, interval: Interval)
    requires Rectangular(cells, models, repetitions) && Qualifies(interval) && AllMade(cells, repetitions, interval)
    ensures Judge(cells, models, repetitions).promising <==>
      repetitions >= MIN_REPETITIONS && SomePairSeparated(cells)
  {
    ChosenPair(cells, repetitions, interval);
  }

  /** A promising comparison rests on at least five repetitions and on strictly more successes, out of the same
      number of trials, of the best model over the baseline; no other model lies outside these two. */
  lemma PromisingMeans(cells: seq<Cell>, models: seq<string>, repetitions: int, interval: Interval)
    requires Qualifies(interval) && AllMade(cells, repetitions, interval)
    requires Judge(cells, models, repetitions).promising
    ensures repetitions >= 5 && Rectangular(cells, models, repetitions)
    ensures Best(cells) in cells && Worst(cells) in cells
    ensures Judge(cells, models, repetitions).best == Some(Best(cells).model)
    ensures Judge(cells, models, repetitions).baseline == Some(Worst(cells).model)
    ensures Worst(cells).successes < Best(cells).successes
    ensures forall c :: c in cells ==> Worst(cells).successes <= c.successes <= Best(cells).successes
  {
    ChosenPair(cells, repetitions, interval);
    RoundedSeparationIsStrict(Best(cells), Worst(cells), interval);
    forall c | c in cells
      ensures Worst(cells).successes <= c.successes <= Best(cells).successes
    {
      Between(cells, c, repetitions, interval);
    }
  }

  lemma Between(cells: seq<Cell>, c: Cell, n: int, interval: Interval)
    requires Qualifies(interval) && AllMade(cells, n, interval) && c in cells
    ensures Worst(cells).successes <= c.successes <= Best(cells).successes
  {
    Extremes(cells, c);
    assert CountsFollowRates(Worst(cells), c) && CountsFollowRates(c, Best(cells));
  }

  // ---------------------------------------------------------------------------
  // The Wilson interval qualifies
  // ---------------------------------------------------------------------------

  const Z := 1.959963984540054

  ghost predicate SquareRoots(sqrt: real -> real) {
    forall x :: x >= 0.0 ==> W.IsRoot(sqrt(x), x)
  }

  function RootFor(s: int, n: int, sqrt: real -> real): real
    requires n > 0
  {
    sqrt(W.Radicand(W.Rate(s, n), n, Z))
  }

  function Wilson95(sqrt: real -> real): Interval {
    (s, n) =>
      if !W.ValidCounts(s, n) then None
      else Some(W.WilsonInterval(s, n, Z, RootFor(s, n, sqrt)).value)
  }

  lemma RootGiven(s: int, n: int, sqrt: real -> real)
    requires SquareRoots(sqrt) && W.ValidCounts(s, n)
    ensures W.Given(s, n, Z, RootFor(s, n, sqrt))
  {
  }

  lemma Wilson95Monotone(s: int, s': int, n: int, sqrt: real -> real)
    requires SquareRoots(sqrt) && W.ValidCounts(s, n) && W.ValidCounts(s', n) && s <= s'
    ensures Wilson95(sqrt)(s, n).value.0 <= Wilson95(sqrt)(s', n).value.0
    ensures Wilson95(sqrt)(s, n).value.1 <= Wilson95(sqrt)(s', n).value.1
  {
    RootGiven(s, n, sqrt);
    RootGiven(s', n, sqrt);
    W.IntervalMonotone(s, RootFor(s, n, sqrt), s', RootFor(s', n, sqrt), n, Z);
  }

  lemma Wilson95Strict(s: int, s': int, n: int, sqrt: real -> real)
    requires SquareRoots(sqrt) && W.ValidCounts(s, n) && W.ValidCounts(s', n)
    requires Wilson95(sqrt)(s, n).value.1 < Wilson95(sqrt)(s', n).value.0
    ensures s < s'
  {
    RootGiven(s, n, sqrt);
    RootGiven(s', n, sqrt);
    W.SeparationIsStrict(s, RootFor(s, n, sqrt), s', RootFor(s', n, sqrt), n, Z);
  }

  lemma Wilson95Qualifies(sqrt: real -> real)
    requires SquareRoots(sqrt)
    ensures Qualifies(Wilson95(sqrt))
  {
    var interval := Wilson95(sqrt);
    forall s, s', n
      ensures Grows(interval, s, s', n)
    {
      if W.ValidCounts(s, n) && W.ValidCounts(s', n) {
        if s <= s' {
          Wilson95Monotone(s, s', n, sqrt);
        }
        if interval(s, n).value.1 < interval(s', n).value.0 {
          Wilson95Strict(s, s', n, sqrt);
        }
      }
    }
  }

  // ---------------------------------------------------------------------------
  // The order of the models does not matter
  // ---------------------------------------------------------------------------

  ghost predicate KeepsNames(look: string -> Looked) {
    forall m :: look(m).Found? ==> look(m).cell.model == m
  }

  /** Each cell occurs as often as its model. */
  lemma {:induction false} CellCounts(models: seq<string>, look: string -> Looked, c: Cell)
    requires Cells(models, look).Some? && KeepsNames(look)
    ensures multiset(Cells(models, look).value)[c] == if look(c.model) == Found(c) then multiset(models)[c.model] else 0
  {
    if models != [] {
      var init, last := models[..|models| - 1], models[|models| - 1];
      assert models == init + [last];
      CellCounts(init, look, c);
    }
  }

  lemma {:induction false} CellsExist(models: seq<string>, look: string -> Looked)
    ensures Cells(models, look).Some? <==> forall m :: m in models ==> !look(m).Failed?
  {
    if models != [] {
      var init, last := models[..|models| - 1], models[|models| - 1];
      assert models == init + [last];
      assert forall m :: m in models <==> m in init || m == last;
      CellsExist(init, look);
    }
  }

  lemma {:induction false} CellsAreFound(models: seq<string>, look: string -> Looked)
    requires Cells(models, look).Some? && KeepsNames(look)
    ensures forall c :: c in Cells(models, look).value ==> look(c.model) == Found(c)
  {
    if models != [] {
      CellsAreFound(models[..|models| - 1], look);
    }
  }

  /** The cells of the comparison qualify for the lemmas above. */
  lemma CellsAreMade(arms: map<ArmKey, Arm>, models: seq<string>, repetitions: int, interval: Interval)
    requires Qualifies(interval) && Cells(models, Look(arms, interval)).Some?
    requires Rectangular(Cells(models, Look(arms, interval)).value, models, repetitions)
    ensures AllMade(Cells(models, Look(arms, interval)).value, repetitions, interval)
  {
    var look := Look(arms, interval);
    LookKeepsNames(arms, interval);
    CellsAreFound(models, look);
    var cells := Cells(models, look).value;
    RectangularCells(cells, models, repetitions);
    forall c | c in cells
      ensures Made(c, interval) && Counted(c)
    {
      assert look(c.model) == Found(c);
      FoundIsMade(arms, c.model, interval);
    }
    forall a, b | a in cells && b in cells
      ensures CountsFollowRates(a, b)
    {
      CountedFollows(a, b);
    }
  }

  lemma LookKeepsNames(arms: map<ArmKey, Arm>, interval: Interval)
    ensures KeepsNames(Look(arms, interval))
  {
  }

  lemma SameExtremes(cells: seq<Cell>, cells': seq<Cell>)
    requires cells != [] && multiset(cells) == multiset(cells')
    requires forall a, b :: a in cells && b in cells && a.model == b.model ==> a == b
    ensures |SortCells(cells)| == |SortCells(cells')| == |cells| == |cells'|
    ensures SortCells(cells)[0] == SortCells(cells')[0]
    ensures SortCells(cells)[|cells| - 1] == SortCells(cells')[|cells| - 1]
  {
    SameElements(cells, cells');
    SortedNonempty(cells);
    SortedNonempty(cells');
    var o, o' := SortCells(cells), SortCells(cells');
    Extremes(cells, cells[0]);
    Extremes(cells', cells'[0]);
    Extremes(cells, o'[0]);
    Extremes(cells', o[0]);
    Extremes(cells, o'[|o'| - 1]);
    Extremes(cells', o[|o| - 1]);
    SameIfMutual(cells, o[0], o'[0]);
    SameIfMutual(cells, o[|o| - 1], o'[|o'| - 1]);
  }

  lemma SameIfMutual(cells: seq<Cell>, a: Cell, b: Cell)
    requires a in cells && b in cells
    requires forall x, y :: x in cells && y in cells && x.model == y.model ==> x == y
    requires a == b || (Before(a, b) && Before(b, a))
    ensures a == b
  {
    if a != b {
      Antisymmetric(a.model, b.model);
    }
  }

  /** Neither the verdict nor the gap depends on the order in which the models are listed. */
  lemma OrderOfModels(models: seq<string>, models': seq<string>, repetitions: int, look: string -> Looked)
    requires KeepsNames(look) && multiset(models) == multiset(models')
    ensures Cells(models, look).None? <==> Cells(models', look).None?
    ensures Cells(models, look).Some? ==>
      Judge(Cells(models, look).value, models, repetitions) == Judge(Cells(models', look).value, models', repetitions)
  {
    SameElements(models, models');
    CellsExist(models, look);
    CellsExist(models', look);
    if Cells(models, look).Some? {
      var cells, cells' := Cells(models, look).value, Cells(models', look).value;
      forall c
        ensures multiset(cells)[c] == multiset(cells')[c]
      {
        CellCounts(models, look, c);
        CellCounts(models', look, c);
      }
      assert multiset(cells) == multiset(cells');
      CellsAreFound(models, look);
      SameJudgement(cells, models, cells', models', repetitions);
    }
  }

  lemma RectangularMeans(cells: seq<Cell>, models: seq<string>, repetitions: int)
    ensures Rectangular(cells, models, repetitions) <==>
      |cells| == |models| && |cells| >= 2 && forall c :: c in cells ==> c.n == repetitions && c.infra == {}
  {
  }

  lemma SameJudgement(cells: seq<Cell>, models: seq<string>, cells': seq<Cell>, models': seq<string>, repetitions: int)
    requires multiset(cells) == multiset(cells') && |models| == |models'|
    requires forall a, b :: a in cells && b in cells && a.model == b.model ==> a == b
    ensures Judge(cells, models, repetitions) == Judge(cells', models', repetitions)
  {
    SameElements(cells, cells');
    RectangularMeans(cells, models, repetitions);
    RectangularMeans(cells', models', repetitions);
    if Rectangular(cells, models, repetitions) {
      SameExtremes(cells, cells');
      assert Worst(cells) == Worst(cells') && Best(cells) == Best(cells');
    }
  }

  /** The whole comparison with the Wilson interval: it is promising exactly when the arms form a rectangle of at
      least five repetitions in which the rounded intervals of some two models are apart. */
  lemma ComparisonIsComplete(arms: map<ArmKey, Arm>, models: seq<string>, repetitions: int, sqrt: real -> real)
    requires SquareRoots(sqrt) && Cells(models, Look(arms, Wilson95(sqrt))).Some?
    ensures
      var cells := Cells(models, Look(arms, Wilson95(sqrt))).value;
      Judge(cells, models, repetitions).promising <==>
        Rectangular(cells, models, repetitions) && repetitions >= MIN_REPETITIONS && SomePairSeparated(cells)
  {
    var cells := Cells(models, Look(arms, Wilson95(sqrt))).value;
    Wilson95Qualifies(sqrt);
    if Rectangular(cells, models, repetitions) {
      CellsAreMade(arms, models, repetitions, Wilson95(sqrt));
      GreedyIsComplete(cells, models, repetitions, Wilson95(sqrt));
    }
  }

  // ---------------------------------------------------------------------------
  // The comparison, for its caller
  // ---------------------------------------------------------------------------

  /** The arm of the model makes a cell with this many trials and no infra errors. */
  predicate Complete(looked: Looked, repetitions: int) {
    looked.Found? && looked.cell.n == repetitions && looked.cell.infra == {}
  }

  /** The models form a rectangle: at least two, each with a complete arm. */
  ghost predicate IsRectangle(models: seq<string>, look: string -> Looked, repetitions: int) {
    |models| >= 2 && forall m :: m in models ==> Complete(look(m), repetitions)
  }

  /** The rounded interval of model `b` lies below that of model `a`. */
  ghost predicate Apart(look: string -> Looked, a: string, b: string) {
    look(a).Found? && look(b).Found? && look(b).cell.high < look(a).cell.low
  }

  ghost predicate SomeModelsApart(models: seq<string>, look: string -> Looked) {
    exists a, b :: a in models && b in models && Apart(look, a, b)
  }

  /** The cells are those of the models that have one. */
  lemma {:induction false} CellsCover(models: seq<string>, look: string -> Looked)
    requires Cells(models, look).Some?
    ensures |Cells(models, look).value| <= |models|
    ensures |Cells(models, look).value| == |models| <==> forall m :: m in models ==> look(m).Found?
    ensures forall m :: m in models && look(m).Found? ==> look(m).cell in Cells(models, look).value
    ensures forall c :: c in Cells(models, look).value ==> exists m :: m in models && look(m) == Found(c)
  {
    if models != [] {
      var init, last := models[..|models| - 1], models[|models| - 1];
      CellsCover(init, look);
      assert models == init + [last];
      assert forall m :: m in models <==> m in init || m == last;
    }
  }

  lemma RectangleOfModels(models: seq<string>, look: string -> Looked, repetitions: int)
    requires Cells(models, look).Some?
    ensures Rectangular(Cells(models, look).value, models, repetitions) <==> IsRectangle(models, look, repetitions)
  {
    var cells := Cells(models, look).value;
    CellsCover(models, look);
    RectangularMeans(cells, models, repetitions);
    if |cells| == |models| && IsRectangle(models, look, repetitions) {
      forall c | c in cells ensures c.n == repetitions && c.infra == {} {
        var m :| m in models && look(m) == Found(c);
        assert Complete(look(m), repetitions);
      }
    }
    if Rectangular(cells, models, repetitions) {
      forall m | m in models ensures Complete(look(m), repetitions) {
        assert look(m).cell in cells;
      }
    }
  }

  lemma PairOfModels(models: seq<string>, look: string -> Looked)
    requires Cells(models, look).Some?
    ensures SomePairSeparated(Cells(models, look).value) <==> SomeModelsApart(models, look)
  {
    var cells := Cells(models, look).value;
    CellsCover(models, look);
    if SomePairSeparated(cells) {
      var x, y :| x in cells && y in cells && y.high < x.low;
      var a :| a in models && look(a) == Found(x);
      var b :| b in models && look(b) == Found(y);
      assert Apart(look, a, b);
    }
    if SomeModelsApart(models, look) {
      var a, b :| a in models && b in models && Apart(look, a, b);
      assert look(a).cell in cells && look(b).cell in cells;
    }
  }

  /** What a promising comparison says of the models: the best has strictly more successes than the baseline, out of
      the same number of trials, and all others lie between. */
  ghost predicate BestBeatsBaseline(models: seq<string>, look: string -> Looked, best: string, baseline: string) {
    && best in models && baseline in models && look(best).Found? && look(baseline).Found?
    && look(baseline).cell.successes < look(best).cell.successes
    && forall m :: m in models && look(m).Found? ==>
         look(baseline).cell.successes <= look(m).cell.successes <= look(best).cell.successes
  }

  lemma PromisingOfModels(arms: map<ArmKey, Arm>, models: seq<string>, repetitions: int, interval: Interval)
    requires Qualifies(interval) && Cells(models, Look(arms, interval)).Some?
    requires Judge(Cells(models, Look(arms, interval)).value, models, repetitions).promising
    ensures
      var look := Look(arms, interval);
      var summary := Judge(Cells(models, look).value, models, repetitions);
      && summary.best.Some? && summary.baseline.Some?
      && BestBeatsBaseline(models, look, summary.best.value, summary.baseline.value)
  {
    var look := Look(arms, interval);
    var cells := Cells(models, look).value;
    CellsAreMade(arms, models, repetitions, interval);
    PromisingMeans(cells, models, repetitions, interval);
    CellsCover(models, look);
    LookKeepsNames(arms, interval);
    CellsAreFound(models, look);
    var best, worst := Best(cells), Worst(cells);
    assert look(best.model) == Found(best) && look(worst.model) == Found(worst);
    forall m | m in models && look(m).Found?
      ensures worst.successes <= look(m).cell.successes <= best.successes
    {
      assert look(m).cell in cells;
    }
  }

  /** `_discrimination_summary`; None stands for the error that `_wilson_interval` raises. */
  method DiscriminationSummary(arms: map<ArmKey, Arm>, models: seq<string>, repetitions: int, interval: Interval)
    returns (summary: Option<Summary>)
    // it raises only if the interval of some model has no meaning
    ensures summary.None? <==> exists m :: m in models && Look(arms, interval)(m).Failed?
    ensures summary.Some? ==>
      (summary.value.rectangular <==> IsRectangle(models, Look(arms, interval), repetitions))
    // promising exactly for a rectangle of at least five repetitions in which some two models are apart
    ensures summary.Some? && Qualifies(interval) ==>
      (summary.value.promising <==>
         && IsRectangle(models, Look(arms, interval), repetitions) && repetitions >= 5
         && SomeModelsApart(models, Look(arms, interval)))
    // and then the best model has strictly more successes than the baseline
    ensures summary.Some? && Qualifies(interval) && summary.value.promising ==>
      && summary.value.best.Some? && summary.value.baseline.Some?
      && BestBeatsBaseline(models, Look(arms, interval), summary.value.best.value, summary.value.baseline.value)
    // the comparison is the one that the lemmas on the order of the models speak about
    ensures summary.Some? ==>
      && Cells(models, Look(arms, interval)).Some?
      && summary.value == Judge(Cells(models, Look(arms, interval)).value, models, repetitions)
  {
    var look := Look(arms, interval);
    var cells := BuildCells(models, look);
    CellsExist(models, look);
    if cells.None? {
      return None;
    }
    RectangleOfModels(models, look, repetitions);
    PairOfModels(models, look);
    summary := Some(Judge(cells.value, models, repetitions));
    if Qualifies(interval) && Rectangular(cells.value, models, repetitions) {
      CellsAreMade(arms, models, repetitions, interval);
      GreedyIsComplete(cells.value, models, repetitions, interval);
      if summary.value.promising {
        PromisingOfModels(arms, models, repetitions, interval);
      }
    }
  }

  // ---------------------------------------------------------------------------
  // Down to the raw rows
  // ---------------------------------------------------------------------------

  lemma SuccessesArePasses(p: int, n: int)
    requires n > 0
    ensures Successes(p as real / n as real, n) == p
  {
    assert p as real / n as real * n as real == p as real;
    assert RoundHalfEven(p as real) == p;
  }

  /** The rows of a model without hints. */
  function Unassisted(trials: seq<Row>, model: string): seq<Row> {
    RowsOf(trials, (model, 0))
  }

  /** A cell counts the outcomes and the passes among the raw rows of its model. */
  lemma CellCountsRows(trials: seq<Row>, arms: map<ArmKey, Arm>, model: string, interval: Interval)
    requires Summarized(arms, trials) && CellOf(arms, model, interval).Found?
    ensures
      var cell, rows := CellOf(arms, model, interval).cell, Unassisted(trials, model);
      && cell.n == CountOutcomes(rows) && cell.successes == CountPasses(rows)
      && (cell.infra == {} ==> cell.n == |rows|)
  {
    var rows := Unassisted(trials, model);
    assert ArmSummarizes(arms[(model, 0)], rows);
    SuccessesArePasses(CountPasses(rows), CountOutcomes(rows));
  }

  /** From the trials to the verdict: a promising comparison means that the best model passed strictly more of its raw
      rows than the baseline, out of the same number, and every row of the models is an outcome. */
  lemma PromisingMeansMorePasses(trials: seq<Row>, arms: map<ArmKey, Arm>, models: seq<string>, repetitions: int,
                                 interval: Interval)
    requires Qualifies(interval) && Summarized(arms, trials) && Cells(models, Look(arms, interval)).Some?
    requires Judge(Cells(models, Look(arms, interval)).value, models, repetitions).promising
    ensures
      var summary := Judge(Cells(models, Look(arms, interval)).value, models, repetitions);
      && summary.best.Some? && summary.baseline.Some?
      && summary.best.value in models && summary.baseline.value in models
      && CountPasses(Unassisted(trials, summary.baseline.value)) < CountPasses(Unassisted(trials, summary.best.value))
    ensures forall m :: m in models ==>
      |Unassisted(trials, m)| == CountOutcomes(Unassisted(trials, m)) == repetitions
  {
    var look := Look(arms, interval);
    var summary := Judge(Cells(models, look).value, models, repetitions);
    PromisingOfModels(arms, models, repetitions, interval);
    RectangleOfModels(models, look, repetitions);
    CellCountsRows(trials, arms, summary.best.value, interval);
    CellCountsRows(trials, arms, summary.baseline.value, interval);
    forall m | m in models ensures |Unassisted(trials, m)| == CountOutcomes(Unassisted(trials, m)) == repetitions {
      assert Complete(look(m), repetitions);
      CellCountsRows(trials, arms, m, interval);
    }
  }
}
