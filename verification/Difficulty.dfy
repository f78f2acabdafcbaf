/**
  The trial rectangle and the decision of `build_receipt` in src/orbenchlab/difficulty_matrix.py.
  */
module Difficulty {
  import opened Options
  import opened Rounding
  import D = Discrimination

  /** A raw trial; `identified` says that its identifiers and digests are strings. */
  datatype Trial = Trial(model: string, attempt: int, status: string, identified: bool)

  /** A validated model matrix of one variant; `contract` and `route` stand for the agent contract and the
      provider route, and `bound` for the other bindings that are checked field by field. */
  datatype Matrix = Matrix(models: seq<string>, repetitions: int, contract: string, route: string, bound: bool,
                           trials: seq<Trial>)

  /** The cell of one model: passes, and the rounded endpoints of the interval. */
  datatype Cell = Cell(passed: nat, rate: real, low: real, high: real)

  datatype Row = Row(frontier: Cell, weak: Cell)

  // ---------------------------------------------------------------------------
  // The rectangle
  // ---------------------------------------------------------------------------

  type TrialKey = (string, int)

  function KeyOf(t: Trial): TrialKey { (t.model, t.attempt) }

  function Keys(trials: seq<Trial>): set<TrialKey> {
    set i | 0 <= i < |trials| :: KeyOf(trials[i])
  }

  function ExpectedKeys(models: seq<string>, repetitions: int): set<TrialKey> {
    set i, a | 0 <= i < |models| && 1 <= a <= repetitions :: (models[i], a)
  }

  predicate Conclusive(t: Trial) {
    t.status in {"pass", "fail"} && t.identified
  }

  /** The checks on the raw trials: their number, the set of their keys, and their contents. */
  predicate RawRectangle(trials: seq<Trial>, models: seq<string>, repetitions: int) {
    && |trials| == |models| * repetitions
    && Keys(trials) == ExpectedKeys(models, repetitions)
    && forall i :: 0 <= i < |trials| ==> Conclusive(trials[i])
  }

  /** Every model has every attempt, once. */
  ghost predicate EachOnce(trials: seq<Trial>, models: seq<string>, repetitions: int) {
    && (forall i, j :: 0 <= i < j < |trials| ==> KeyOf(trials[i]) != KeyOf(trials[j]))
    && (forall i :: 0 <= i < |trials| ==> trials[i].model in models && 1 <= trials[i].attempt <= repetitions)
    && (forall m, a :: m in models && 1 <= a <= repetitions ==>
          exists i :: 0 <= i < |trials| && KeyOf(trials[i]) == (m, a))
  }

  lemma {:induction false} FewKeys(trials: seq<Trial>)
    ensures |Keys(trials)| <= |trials|
  {
    if trials != [] {
      var init, last := trials[..|trials| - 1], trials[|trials| - 1];
      FewKeys(init);
      assert forall i :: 0 <= i < |init| ==> init[i] == trials[i];
      assert Keys(trials) == Keys(init) + {KeyOf(last)};
    }
  }

  lemma {:induction false} KeysOfModel(model: string, repetitions: int)
    requires repetitions >= 0
    ensures |set a | 1 <= a <= repetitions :: (model, a)| == repetitions
  {
    var all := set a | 1 <= a <= repetitions :: (model, a);
    if repetitions == 0 {
      assert all == {};
    } else {
      KeysOfModel(model, repetitions - 1);
      var fewer := set a | 1 <= a <= repetitions - 1 :: (model, a);
      assert all == fewer + {(model, repetitions)};
    }
  }

  lemma ExpectedCount(models: seq<string>, repetitions: int)
    requires |models| == 2 && models[0] != models[1] && repetitions >= 0
    ensures |ExpectedKeys(models, repetitions)| == 2 * repetitions
  {
    var first := set a | 1 <= a <= repetitions :: (models[0], a);
    var second := set a | 1 <= a <= repetitions :: (models[1], a);
    KeysOfModel(models[0], repetitions);
    KeysOfModel(models[1], repetitions);
    assert ExpectedKeys(models, repetitions) == first + second;
    assert first !! second;
  }

  lemma RepeatedKey(trials: seq<Trial>, i: nat, j: nat)
    requires i < j < |trials| && KeyOf(trials[i]) == KeyOf(trials[j])
    ensures |Keys(trials)| < |trials|
  {
    var others := trials[..j] + trials[j + 1..];
    forall k | 0 <= k < |trials|
      ensures KeyOf(trials[k]) in Keys(others)
    {
      var at := if k < j then k else if k == j then i else k - 1;
      assert KeyOf(others[at]) == KeyOf(trials[k]);
    }
    assert Keys(trials) <= Keys(others);
    FewKeys(others);
    Smaller(Keys(trials), Keys(others));
  }

  lemma Smaller<T>(a: set<T>, b: set<T>)
    requires a <= b
    ensures |a| <= |b|
  {
    assert b == a + (b - a);
  }

  /** Counting the trials and comparing the set of their keys is enough: no trial is missing or repeated. */
  lemma RectangleIsExact(trials: seq<Trial>, models: seq<string>, repetitions: int)
    requires |models| == 2 && models[0] != models[1] && repetitions >= 0
    requires RawRectangle(trials, models, repetitions)
    ensures EachOnce(trials, models, repetitions)
  {
    ExpectedCount(models, repetitions);
    forall i, j | 0 <= i < j < |trials|
      ensures KeyOf(trials[i]) != KeyOf(trials[j])
    {
      if KeyOf(trials[i]) == KeyOf(trials[j]) {
        RepeatedKey(trials, i, j);
      }
    }
    forall i | 0 <= i < |trials|
      ensures trials[i].model in models && 1 <= trials[i].attempt <= repetitions
    {
      assert KeyOf(trials[i]) in Keys(trials);
    }
    forall m, a | m in models && 1 <= a <= repetitions
      ensures exists i :: 0 <= i < |trials| && KeyOf(trials[i]) == (m, a)
    {
      assert (m, a) in ExpectedKeys(models, repetitions);
      assert (m, a) in Keys(trials);
    }
  }

  // ---------------------------------------------------------------------------
  // Cells
  // ---------------------------------------------------------------------------

  function Passes(trials: seq<Trial>, model: string): nat {
    if trials == [] then 0
    else
      var last := trials[|trials| - 1];
      Passes(trials[..|trials| - 1], model) + if last.model == model && last.status == "pass" then 1 else 0
  }

  function Tries(trials: seq<Trial>, model: string): nat {
    if trials == [] then 0
    else Tries(trials[..|trials| - 1], model) + if trials[|trials| - 1].model == model then 1 else 0
  }

  lemma {:induction false} PassesAreTries(trials: seq<Trial>, model: string)
    ensures Passes(trials, model) <= Tries(trials, model)
  {
    if trials != [] {
      PassesAreTries(trials[..|trials| - 1], model);
    }
  }

  /** The attempts of `model` among the trials. */
  ghost function AttemptsOf(trials: seq<Trial>, model: string): set<int> {
    set i | 0 <= i < |trials| && trials[i].model == model :: trials[i].attempt
  }

  lemma {:induction false} TriesAreAttempts(trials: seq<Trial>, model: string)
    requires forall i, j :: 0 <= i < j < |trials| ==> KeyOf(trials[i]) != KeyOf(trials[j])
    ensures Tries(trials, model) == |AttemptsOf(trials, model)|
  {
    if trials != [] {
      var init, last := trials[..|trials| - 1], trials[|trials| - 1];
      assert forall i :: 0 <= i < |init| ==> init[i] == trials[i];
      TriesAreAttempts(init, model);
      if last.model == model {
        assert AttemptsOf(trials, model) == AttemptsOf(init, model) + {last.attempt};
        assert last.attempt !in AttemptsOf(init, model);
      } else {
        assert AttemptsOf(trials, model) == AttemptsOf(init, model);
      }
    }
  }

  /** The numbers from 1 to `n`. */
  ghost function UpTo(n: int): (all: set<int>)
    requires n >= 0
    ensures |all| == n && forall a :: a in all <==> 1 <= a <= n
  {
    if n == 0 then {} else UpTo(n - 1) + {n}
  }

  /** In an exact rectangle each model is tried as often as there are repetitions. */
  lemma ExactTries(trials: seq<Trial>, models: seq<string>, repetitions: int, model: string)
    requires EachOnce(trials, models, repetitions) && model in models && repetitions >= 0
    ensures Tries(trials, model) == repetitions && Passes(trials, model) <= repetitions
  {
    PassesAreTries(trials, model);
    TriesAreAttempts(trials, model);
    forall a
      ensures a in AttemptsOf(trials, model) <==> a in UpTo(repetitions)
    {
      if a in UpTo(repetitions) {
        var i :| 0 <= i < |trials| && KeyOf(trials[i]) == (model, a);
      }
    }
    assert AttemptsOf(trials, model) == UpTo(repetitions);
  }

  function RateBy(repetitions: int): nat -> real
    requires repetitions > 0
  {
    passed => passed as real / repetitions as real
  }

  function CellOf(trials: seq<Trial>, model: string, repetitions: int, interval: D.Interval): Option<Cell>
    requires repetitions > 0
  {
    var passed := Passes(trials, model);
    match interval(passed, repetitions)
    case None => None
    case Some((lower, upper)) => Some(Cell(passed, RateBy(repetitions)(passed), Round6(lower), Round6(upper)))
  }

  // ---------------------------------------------------------------------------
  // The loop over the variants
  // ---------------------------------------------------------------------------

  /** A variant's matrix is what the receipt needs: two requested models, at least five repetitions. */
  predicate Acceptable(m: Matrix, frontier: string, weak: string) {
    && |m.models| == 2 && m.models[0] != m.models[1]
    && (m.models == [frontier, weak] || m.models == [weak, frontier])
    && m.repetitions >= 5 && m.bound
    && RawRectangle(m.trials, m.models, m.repetitions)
  }

  predicate SameContract(a: Matrix, b: Matrix) {
    a.repetitions == b.repetitions && a.contract == b.contract && a.route == b.route
  }

  /** The row of an acceptable variant. */
  ghost predicate RowFor(row: Row, m: Matrix, frontier: string, weak: string, interval: D.Interval) {
    && m.repetitions > 0
    && CellOf(m.trials, frontier, m.repetitions, interval) == Some(row.frontier)
    && CellOf(m.trials, weak, m.repetitions, interval) == Some(row.weak)
  }

  /** The loop of `build_receipt`; None stands for any of its errors. */
  method VariantRows(variants: seq<Matrix>, frontier: string, weak: string, interval: D.Interval)
    returns (rows: Option<seq<Row>>)
    requires D.Qualifies(interval)
    ensures rows.Some? <==>
      && (forall i :: 0 <= i < |variants| ==> Acceptable(variants[i], frontier, weak))
      && (forall i :: 0 <= i < |variants| ==> SameContract(variants[0], variants[i]))
    ensures rows.Some? ==>
      && |rows.value| == |variants|
      && (forall i :: 0 <= i < |variants| ==> RowFor(rows.value[i], variants[i], frontier, weak, interval))
  {
    var built: seq<Row> := [];
    for i := 0 to |variants|
      invariant |built| == i
      invariant forall k :: 0 <= k < i ==>
        Acceptable(variants[k], frontier, weak) && SameContract(variants[0], variants[k])
      invariant forall k :: 0 <= k < i ==> RowFor(built[k], variants[k], frontier, weak, interval)
    {
      var m := variants[i];
      if !Acceptable(m, frontier, weak) || !SameContract(variants[0], m) {
        return None;
      }
      CellsExist(m, frontier, weak, interval);
      var row := Row(CellOf(m.trials, frontier, m.repetitions, interval).value,
                     CellOf(m.trials, weak, m.repetitions, interval).value);
      built := built + [row];
    }
    return Some(built);
  }

  lemma CellsExist(m: Matrix, frontier: string, weak: string, interval: D.Interval)
    requires Acceptable(m, frontier, weak) && D.Qualifies(interval)
    ensures forall model :: model in {frontier, weak} ==>
      CellOf(m.trials, model, m.repetitions, interval).Some? && Passes(m.trials, model) <= m.repetitions
  {
    RectangleIsExact(m.trials, m.models, m.repetitions);
    forall model | model in {frontier, weak}
      ensures CellOf(m.trials, model, m.repetitions, interval).Some? && Passes(m.trials, model) <= m.repetitions
    {
      ExactTries(m.trials, m.models, m.repetitions, model);
      assert D.Defined(interval, Passes(m.trials, model), m.repetitions);
    }
  }

  // ---------------------------------------------------------------------------
  // The decision
  // ---------------------------------------------------------------------------

  /** `left >= right` for the pair at `i` of `zip(rates, rates[1:])`. */
  predicate HoldsAt(rates: seq<real>, i: int)
    requires 0 <= i < |rates| - 1
  {
    rates[i] >= rates[i + 1]
  }

  predicate DropsAt(rates: seq<real>, i: int)
    requires 0 <= i < |rates| - 1
  {
    rates[i] > rates[i + 1]
  }

  predicate NonIncreasing(rates: seq<real>) {
    forall i :: 0 <= i < |rates| - 1 ==> HoldsAt(rates, i)
  }

  predicate StrictDrop(rates: seq<real>) {
    exists i :: 0 <= i < |rates| - 1 && DropsAt(rates, i)
  }

  function FrontierRates(rows: seq<Row>): seq<real> {
    seq(|rows|, i requires 0 <= i < |rows| => rows[i].frontier.rate)
  }

  function WeakRates(rows: seq<Row>): seq<real> {
    seq(|rows|, i requires 0 <= i < |rows| => rows[i].weak.rate)
  }

  predicate Separated(row: Row) {
    row.frontier.low - row.weak.high > 0.0
  }

  predicate Nondegenerate(row: Row) {
    0.0 < row.frontier.rate < 1.0 || 0.0 < row.weak.rate < 1.0
  }

  predicate Promising(rows: seq<Row>) {
    && NonIncreasing(FrontierRates(rows)) && NonIncreasing(WeakRates(rows))
    && StrictDrop(WeakRates(rows))
    && (exists i :: 0 <= i < |rows| && Separated(rows[i]))
    && (exists i :: 0 <= i < |rows| && Nondegenerate(rows[i]))
  }

  datatype Decision = ConfirmedPromising | ExploratoryPromising | Quarantine

  function Decide(rows: seq<Row>, heldOut: bool): Decision {
    if Promising(rows) then (if heldOut then ConfirmedPromising else ExploratoryPromising) else Quarantine
  }

  lemma {:induction false} AdjacentMeansAll(rates: seq<real>, i: nat, j: nat)
    requires NonIncreasing(rates) && i <= j < |rates|
    ensures rates[i] >= rates[j]
  {
    if i < j {
      AdjacentMeansAll(rates, i, j - 1);
      assert HoldsAt(rates, j - 1);
    }
  }

  /** In a nonincreasing list some adjacent drop is strict exactly if the last value is below the first. */
  lemma DropMeansSpan(rates: seq<real>)
    requires NonIncreasing(rates) && rates != []
    ensures StrictDrop(rates) <==> rates[0] > rates[|rates| - 1]
  {
    if StrictDrop(rates) {
      var i :| 0 <= i < |rates| - 1 && DropsAt(rates, i);
      AdjacentMeansAll(rates, 0, i);
      AdjacentMeansAll(rates, i + 1, |rates| - 1);
    } else {
      NoDropIsFlat(rates, |rates| - 1);
    }
  }

  lemma {:induction false} NoDropIsFlat(rates: seq<real>, k: nat)
    requires NonIncreasing(rates) && !StrictDrop(rates) && k < |rates|
    ensures rates[0] == rates[k]
  {
    if k > 0 {
      NoDropIsFlat(rates, k - 1);
      assert HoldsAt(rates, k - 1) && !DropsAt(rates, k - 1);
    }
  }

  ghost predicate ScalesAt(rate: nat -> real, n: int, a: nat, b: nat) {
    (rate(a) >= rate(b) <==> a >= b) && (0.0 < rate(a) < 1.0 <==> 0 < a < n)
  }

  /** `rate` turns numbers of passes out of `n` into rates. */
  ghost predicate IsScale(rate: nat -> real, n: int) {
    forall a: nat, b: nat :: ScalesAt(rate, n, a, b)
  }

  lemma RateByIsScale(n: int)
    requires n > 0
    ensures IsScale(RateBy(n), n)
  {
    forall a: nat, b: nat
      ensures ScalesAt(RateBy(n), n, a, b)
    {
      RatesAreCounts(a, b, n);
    }
  }

  lemma RatesAreCounts(a: int, b: int, n: int)
    requires n > 0
    ensures a as real / n as real >= b as real / n as real <==> a >= b
    ensures 0.0 < a as real / n as real < 1.0 <==> 0 < a < n
  {
    var x, y, m := a as real / n as real, b as real / n as real, n as real;
    assert x * m == a as real && y * m == b as real;
    Scale(x, y, m);
    Scale(0.0, x, m);
    Scale(1.0, x, m);
  }

  lemma Scale(x: real, y: real, m: real)
    requires m > 0.0
    ensures x >= y <==> x * m >= y * m
    ensures x <= y <==> x * m <= y * m
  {
  }

  /** All rates were computed from the passes by the same scale. */
  ghost predicate Uniform(rows: seq<Row>, rate: nat -> real) {
    forall i :: 0 <= i < |rows| ==>
      rows[i].frontier.rate == rate(rows[i].frontier.passed) && rows[i].weak.rate == rate(rows[i].weak.passed)
  }

  /** In terms of counts: neither model's passes rise between any two levels, the weak model passes less at the
      last level than at the first, some level separates the models, and some cell is neither 0 nor full. */
  ghost predicate PromisingCounts(rows: seq<Row>, repetitions: int) {
    && rows != []
    && (forall i, j :: 0 <= i <= j < |rows| ==> rows[i].frontier.passed >= rows[j].frontier.passed)
    && (forall i, j :: 0 <= i <= j < |rows| ==> rows[i].weak.passed >= rows[j].weak.passed)
    && rows[0].weak.passed > rows[|rows| - 1].weak.passed
    && (exists i :: 0 <= i < |rows| && Separated(rows[i]))
    && (exists i :: 0 <= i < |rows|
          && (0 < rows[i].frontier.passed < repetitions || 0 < rows[i].weak.passed < repetitions))
  }

  lemma PromisingIsCounts(rows: seq<Row>, repetitions: int, rate: nat -> real)
    requires IsScale(rate, repetitions) && Uniform(rows, rate)
    ensures Promising(rows) <==> PromisingCounts(rows, repetitions)
  {
    if rows != [] {
      var f, w := FrontierRates(rows), WeakRates(rows);
      var fc := seq(|rows|, i requires 0 <= i < |rows| => rows[i].frontier.passed);
      var wc := seq(|rows|, i requires 0 <= i < |rows| => rows[i].weak.passed);
      RatesFollow(f, fc, repetitions, rate);
      RatesFollow(w, wc, repetitions, rate);
      if NonIncreasing(w) {
        DropMeansSpan(w);
      }
      FallingCounts(rows, fc, wc);
      NondegenerateCounts(rows, repetitions, rate);
    }
  }

  lemma NondegenerateCounts(rows: seq<Row>, repetitions: int, rate: nat -> real)
    requires IsScale(rate, repetitions) && Uniform(rows, rate)
    ensures forall i :: 0 <= i < |rows| ==>
      (Nondegenerate(rows[i]) <==> 0 < rows[i].frontier.passed < repetitions || 0 < rows[i].weak.passed < repetitions)
  {
    forall i | 0 <= i < |rows|
      ensures Nondegenerate(rows[i]) <==>
        0 < rows[i].frontier.passed < repetitions || 0 < rows[i].weak.passed < repetitions
    {
      assert ScalesAt(rate, repetitions, rows[i].frontier.passed, 0);
      assert ScalesAt(rate, repetitions, rows[i].weak.passed, 0);
    }
  }

  ghost predicate Falling(counts: seq<nat>) {
    forall i, j :: 0 <= i <= j < |counts| ==> counts[i] >= counts[j]
  }

  lemma FallingCounts(rows: seq<Row>, fc: seq<nat>, wc: seq<nat>)
    requires |fc| == |wc| == |rows|
    requires forall i :: 0 <= i < |rows| ==> fc[i] == rows[i].frontier.passed && wc[i] == rows[i].weak.passed
    ensures Falling(fc) <==> forall i, j :: 0 <= i <= j < |rows| ==> rows[i].frontier.passed >= rows[j].frontier.passed
    ensures Falling(wc) <==> forall i, j :: 0 <= i <= j < |rows| ==> rows[i].weak.passed >= rows[j].weak.passed
  {
  }

  lemma RatesFollow(rates: seq<real>, counts: seq<nat>, n: int, rate: nat -> real)
    requires IsScale(rate, n) && |rates| == |counts|
    requires forall i :: 0 <= i < |rates| ==> rates[i] == rate(counts[i])
    ensures NonIncreasing(rates) <==> Falling(counts)
    ensures rates != [] ==> (rates[0] > rates[|rates| - 1] <==> counts[0] > counts[|counts| - 1])
  {
    if NonIncreasing(rates) {
      forall i, j | 0 <= i <= j < |counts|
        ensures counts[i] >= counts[j]
      {
        AdjacentMeansAll(rates, i, j);
        assert ScalesAt(rate, n, counts[i], counts[j]);
      }
    }
    if Falling(counts) {
      forall i | 0 <= i < |rates| - 1
        ensures HoldsAt(rates, i)
      {
        assert ScalesAt(rate, n, counts[i], counts[i + 1]);
      }
    }
    if rates != [] {
      assert ScalesAt(rate, n, counts[|counts| - 1], counts[0]);
    }
  }

  /** At a separated level the frontier model passes strictly more trials, despite the rounding. */
  lemma SeparatedMeansMore(row: Row, m: Matrix, frontier: string, weak: string, interval: D.Interval)
    requires D.Qualifies(interval) && Acceptable(m, frontier, weak)
    requires RowFor(row, m, frontier, weak, interval) && Separated(row)
    ensures row.weak.passed < row.frontier.passed
  {
    CellsExist(m, frontier, weak, interval);
    var n := m.repetitions;
    assert D.Grows(interval, row.weak.passed, row.frontier.passed, n);
    var x, y := interval(row.frontier.passed, n).value.0, interval(row.weak.passed, n).value.1;
    if x <= y {
      Round6Monotone(x, y);
    }
  }

  /** The rows were computed from acceptable variants under one contract. */
  ghost predicate Computed(variants: seq<Matrix>, rows: seq<Row>, frontier: string, weak: string,
                           interval: D.Interval) {
    && |rows| == |variants|
    && (forall i :: 0 <= i < |variants| ==>
          Acceptable(variants[i], frontier, weak) && SameContract(variants[0], variants[i]))
    && (forall i :: 0 <= i < |variants| ==> RowFor(rows[i], variants[i], frontier, weak, interval))
  }

  lemma RowsCount(variants: seq<Matrix>, rows: seq<Row>, frontier: string, weak: string, interval: D.Interval)
    requires Computed(variants, rows, frontier, weak, interval) && |variants| > 0
    ensures variants[0].repetitions > 0 && Uniform(rows, RateBy(variants[0].repetitions))
    ensures forall i :: 0 <= i < |variants| ==>
      && rows[i].frontier.passed == Passes(variants[i].trials, frontier)
      && rows[i].weak.passed == Passes(variants[i].trials, weak)
  {
  }

  /** What a promising receipt says about the raw trials: every model ran every attempt once per variant, neither
      model's passes rise between any two levels, the weak model's fall from the first level to the last, and
      at some level the frontier model passes strictly more trials. */
  lemma PromisingReceipt(variants: seq<Matrix>, rows: seq<Row>, frontier: string, weak: string, interval: D.Interval)
    requires D.Qualifies(interval) && Computed(variants, rows, frontier, weak, interval) && |variants| > 0
    requires Decide(rows, false) != Quarantine
    ensures forall i :: 0 <= i < |variants| ==>
      EachOnce(variants[i].trials, variants[i].models, variants[0].repetitions)
    ensures PromisingCounts(rows, variants[0].repetitions)
    ensures forall i :: 0 <= i < |variants| ==>
      && rows[i].frontier.passed == Passes(variants[i].trials, frontier)
      && rows[i].weak.passed == Passes(variants[i].trials, weak)
    ensures exists i :: 0 <= i < |rows| && rows[i].frontier.passed > rows[i].weak.passed
  {
    var n := variants[0].repetitions;
    forall i | 0 <= i < |variants|
      ensures EachOnce(variants[i].trials, variants[i].models, n)
    {
      RectangleIsExact(variants[i].trials, variants[i].models, variants[i].repetitions);
    }
    RowsCount(variants, rows, frontier, weak, interval);
    RateByIsScale(n);
    PromisingIsCounts(rows, n, RateBy(n));
    var i :| 0 <= i < |rows| && Separated(rows[i]);
    SeparatedMeansMore(rows[i], variants[i], frontier, weak, interval);
  }
}
