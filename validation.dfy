/** `intercalated_validation`: each weekly series is cut, from its start, into consecutive
    windows of `train` points followed by `test` points; a forecast fitted on the training
    part is compared, on average, with the test part, and the windows that do not fit are
    never used. */
module Validation {
  import opened Common
  import Abc

  /** A point of a weekly series: its date (as written, `%Y-%m-%d`) and its value. */
  type Point = (string, real)

  /** A column of the weekly table: a date and a value that may be missing (NaN). */
  type Cell = (string, Option<real>)

  predicate Present(x: Cell)
  {
    x.1.Some?
  }

  /** `data[column].dropna()`: the points whose value is present, in order. */
  function DropMissing(column: seq<Cell>): (r: seq<Point>)
    ensures |r| == CountWhere(column, Present)
    ensures forall i :: 0 <= i < |r| ==> (r[i].0, Some(r[i].1)) in column
    ensures forall j :: 0 <= j < |column| && column[j].1.Some? ==> (column[j].0, column[j].1.value) in r
    ensures |r| == |Filter(column, Present)|
    ensures forall i :: 0 <= i < |r| ==> (r[i].0, Some(r[i].1)) == Filter(column, Present)[i]
  {
    if |column| == 0 then []
    else
      var init := column[..|column| - 1];
      var last := column[|column| - 1];
      var rest := DropMissing(init);
      assert forall j :: 0 <= j < |init| ==> init[j] == column[j];
      var kept := Filter(init, Present);
      assert Filter(column, Present) == if Present(last) then kept + [last] else kept;
      if last.1.Some? then rest + [(last.0, last.1.value)] else rest
  }

  /** `format_week_interval`: "[first, last]" from the first and the last date; `weeks[0]`
      of an empty index raises an index error. */
  function FormatWeekInterval(weeks: seq<string>): (r: Result<string>)
    ensures r.Ok? <==> |weeks| > 0
    ensures r.Err? ==> r.error == IndexError
  {
    if |weeks| == 0 then Err(IndexError)
    else Ok("[" + weeks[0] + ", " + weeks[|weeks| - 1] + "]")
  }

  /** The interval of `n` consecutive points of a series from position `s` names the dates
      at `s` and at `s + n - 1`, and brackets them; no points, no interval. */
  lemma IntervalOfSlice(series: seq<Point>, s: nat, n: nat)
    requires s + n <= |series|
    ensures FormatWeekInterval(Abc.Keys(series[s..s + n])).Err? <==> n == 0
    ensures n > 0 ==>
      FormatWeekInterval(Abc.Keys(series[s..s + n])).value == "[" + series[s].0 + ", " + series[s + n - 1].0 + "]"
    ensures n > 0 ==> var text := FormatWeekInterval(Abc.Keys(series[s..s + n])).value;
      text[0] == '[' && text[|text| - 1] == ']' && text[1..1 + |series[s].0|] == series[s].0
  {
    if n > 0 {
      var d := Abc.Keys(series[s..s + n]);
      assert d[0] == series[s].0 && d[n - 1] == series[s + n - 1].0;
      var text := "[" + series[s].0 + ", " + series[s + n - 1].0 + "]";
      assert text[1..1 + |series[s].0|] == series[s].0;
    }
  }

  /** The sum over the count. */
  function Average(xs: seq<real>): real
    requires |xs| > 0
  {
    Sum(xs) / (|xs| as real)
  }

  /** `mean`: the average, missing (NaN) for no values. */
  function Mean(xs: seq<real>): (r: Option<real>)
    ensures r.Some? <==> |xs| > 0
  {
    if |xs| == 0 then None else Some(Average(xs))
  }

  function Abs(x: real): (r: real)
    ensures 0.0 <= r && (r == x || r == -x)
  {
    if x < 0.0 then -x else x
  }

  /** One row of the results: both intervals, both averages and the absolute error. The
      forecast's average (and so the error) is missing when the forecast has no values. */
  datatype WindowResult = WindowResult(
    trainWeeks: string, testWeeks: string,
    avgActual: real, avgPredicted: Option<real>, error: Option<real>)

  /** `abs(avg_actual_value - avg_predicted_value)`, missing when the forecast's average is. */
  function AbsoluteError(actual: real, predicted: Option<real>): (r: Option<real>)
    ensures r.Some? <==> predicted.Some?
    ensures r.Some? ==> 0.0 <= r.value && (r.value == actual - predicted.value || r.value == predicted.value - actual)
  {
    if predicted.Some? then Some(Abs(actual - predicted.value)) else None
  }

  /** The window whose training part starts at `s`: training points `[s, s + train)`, test
      points `[s + train, s + train + test)`, and the forecast of `test` steps from the
      training values. */
  function WindowAt(series: seq<Point>, train: nat, test: nat, s: nat, forecast: (seq<real>, nat) -> seq<real>): (r: WindowResult)
    requires 0 < train && 0 < test && s + train + test <= |series|
    ensures r.error.Some? <==> r.avgPredicted.Some?
    ensures r.error.Some? ==> 0.0 <= r.error.value && r.error.value == Abs(r.avgActual - r.avgPredicted.value)
  {
    var trainPart := series[s..s + train];
    var testPart := series[s + train..s + train + test];
    var avgActual := Average(Abc.Values(testPart));
    var avgPredicted := Mean(forecast(Abc.Values(trainPart), test));
    WindowResult(
      FormatWeekInterval(Abc.Keys(trainPart)).value, FormatWeekInterval(Abc.Keys(testPart)).value,
      avgActual, avgPredicted, AbsoluteError(avgActual, avgPredicted))
  }

  /** Where window `k` of width `step` starts: `k` widths from the beginning. */
  function Offset(k: nat, step: nat): nat
  {
    if k == 0 then 0 else Offset(k - 1, step) + step
  }

  lemma OffsetNext(k: nat, step: nat)
    ensures Offset(k + 1, step) == Offset(k, step) + step
  {
  }

  lemma {:induction false} OffsetMonotone(a: nat, b: nat, step: nat)
    requires a <= b
    ensures Offset(a, step) <= Offset(b, step)
  {
    if a < b {
      OffsetMonotone(a, b - 1, step);
    }
  }

  lemma {:induction false} OffsetIsProduct(k: nat, step: nat)
    ensures Offset(k, step) == k * step
  {
    if k > 0 {
      OffsetIsProduct(k - 1, step);
    }
  }

  /** How many whole windows of width `step` fit in `n` points, taking them from the start. */
  function Count(n: nat, step: nat): nat
    requires 0 < step
    decreases n
  {
    if n < step then 0 else 1 + Count(n - step, step)
  }

  /** The whole windows end at most one window's width before the end. */
  lemma {:induction false} CountBounds(n: nat, step: nat)
    requires 0 < step
    ensures Offset(Count(n, step), step) <= n < Offset(Count(n, step), step) + step
    decreases n
  {
    if n >= step {
      CountBounds(n - step, step);
      OffsetNext(Count(n - step, step), step);
    }
  }

  /** Window `k` fits when `k` is below the number of windows. */
  lemma WindowFits(n: nat, step: nat, k: nat)
    requires 0 < step && k < Count(n, step)
    ensures Offset(k, step) + step <= n
  {
    CountBounds(n, step);
    OffsetMonotone(k + 1, Count(n, step), step);
  }

  /** When `c` windows fit and the next one does not, `c` is the number of windows. */
  lemma {:induction false} WindowCount(n: nat, step: nat, c: nat)
    requires 0 < step && Offset(c, step) <= n < Offset(c, step) + step
    ensures Count(n, step) == c
  {
    if c > 0 {
      WindowCount(n - step, step, c - 1);
    }
  }

  lemma MulLeft(a: nat, b: nat, c: nat)
    requires a <= b
    ensures a * c <= b * c
  {
  }

  lemma MulSucc(a: nat, c: nat)
    ensures (a + 1) * c == a * c + c
  {
  }

  /** The only `c` with `c * step <= n < c * step + step` is the quotient. */
  lemma QuotientUnique(n: nat, step: nat, c: nat)
    requires 0 < step && c * step <= n < c * step + step
    ensures c == n / step
  {
    var q := n / step;
    assert q * step + n % step == n;
    if q > c {
      MulLeft(c + 1, q, step);
      MulSucc(c, step);
    } else if q < c {
      MulLeft(q + 1, c, step);
      MulSucc(q, step);
    }
  }

  /** The number of windows is the integer quotient of the length by the window width. */
  lemma CountIsQuotient(n: nat, step: nat)
    requires 0 < step
    ensures Count(n, step) == n / step
  {
    CountBounds(n, step);
    OffsetIsProduct(Count(n, step), step);
    QuotientUnique(n, step, Count(n, step));
  }

  /** One more element at the end of a tabulated sequence. */
  lemma SeqSnoc<T>(f: int -> T, c: nat)
    ensures seq(c + 1, f) == seq(c, f) + [f(c)]
  {
    var a := seq(c + 1, f);
    var b := seq(c, f) + [f(c)];
    forall i | 0 <= i < c + 1
      ensures a[i] == b[i]
    {
      if i < c {
        assert b[i] == seq(c, f)[i];
      }
    }
  }

  /** The result of window `k` when it fits; no row is ever taken from a window that does
      not fit, so the empty row standing for it is never part of a result. */
  function Row(series: seq<Point>, train: nat, test: nat, forecast: (seq<real>, nat) -> seq<real>, k: int): WindowResult
  {
    if 0 <= k && 0 < train && 0 < test && Offset(k, train + test) + train + test <= |series| then
      WindowAt(series, train, test, Offset(k, train + test), forecast)
    else
      WindowResult("", "", 0.0, None, None)
  }

  function RowOf(series: seq<Point>, train: nat, test: nat, forecast: (seq<real>, nat) -> seq<real>): int -> WindowResult
  {
    (k: int) => Row(series, train, test, forecast, k)
  }

  /** The whole validation of one series: a window that fits while `train` or `test` is
      zero raises an index error (an empty slice has no first date); otherwise one result
      per window that fits, in order. */
  function Validation(series: seq<Point>, train: nat, test: nat, forecast: (seq<real>, nat) -> seq<real>): (r: Result<seq<WindowResult>>)
    ensures r.Err? <==> train + test <= |series| && (train == 0 || test == 0)
    ensures r.Err? ==> r.error == IndexError
    ensures r.Ok? ==> 0 < train + test && |r.value| == Count(|series|, train + test)
  {
    if train + test <= |series| && (train == 0 || test == 0) then Err(IndexError)
    else Ok(seq(Count(|series|, train + test), RowOf(series, train, test, forecast)))
  }

  /** One pass of the loop body on the window starting at `start`: format both intervals
      (an empty part has no first date), forecast from the training values, and average. */
  method ValidateWindow(series: seq<Point>, train: nat, test: nat, start: nat, forecast: (seq<real>, nat) -> seq<real>)
    returns (r: Result<WindowResult>)
    requires start + train + test <= |series|
    ensures r.Ok? <==> 0 < train && 0 < test
    ensures r.Err? ==> r.error == IndexError
    ensures r.Ok? ==> r.value == WindowAt(series, train, test, start, forecast)
  {
    var trainPart := series[start..start + train];
    var testPart := series[start + train..start + train + test];
    var trainInterval := FormatWeekInterval(Abc.Keys(trainPart));
    if trainInterval.Err? {
      return Err(trainInterval.error);
    }
    var testInterval := FormatWeekInterval(Abc.Keys(testPart));
    if testInterval.Err? {
      return Err(testInterval.error);
    }
    var predicted := forecast(Abc.Values(trainPart), test);
    var avgActual := Average(Abc.Values(testPart));
    var avgPredicted := Mean(predicted);
    var error := AbsoluteError(avgActual, avgPredicted);
    r := Ok(WindowResult(trainInterval.value, testInterval.value, avgActual, avgPredicted, error));
  }

  /** The loop: while a whole window fits, validate it, record the row, and move on by a
      whole window. */
  method IntercalatedValidation(series: seq<Point>, train: nat, test: nat, forecast: (seq<real>, nat) -> seq<real>)
    returns (r: Result<seq<WindowResult>>)
    ensures r == Validation(series, train, test, forecast)
  {
    var results: seq<WindowResult> := [];
    var start := 0;
    while start + train + test <= |series|
      invariant start == Offset(|results|, train + test) && start <= |series|
      invariant results == seq(|results|, RowOf(series, train, test, forecast))
      invariant results != [] ==> 0 < train && 0 < test
      decreases |series| - start
    {
      var row := ValidateWindow(series, train, test, start, forecast);
      if row.Err? {
        return Err(row.error);
      }
      LoopStep(series, train, test, forecast, results, start, row.value);
      results := results + [row.value];
      start := start + train + test;
    }
    LoopExit(series, train, test, forecast, results, start);
    r := Ok(results);
  }

  /** Recording the window at `start` extends the results by the next row. */
  lemma LoopStep(series: seq<Point>, train: nat, test: nat, forecast: (seq<real>, nat) -> seq<real>, results: seq<WindowResult>, start: nat, row: WindowResult)
    requires 0 < train && 0 < test && start + train + test <= |series|
    requires start == Offset(|results|, train + test)
    requires results == seq(|results|, RowOf(series, train, test, forecast))
    requires row == WindowAt(series, train, test, start, forecast)
    ensures start + train + test == Offset(|results| + 1, train + test)
    ensures results + [row] == seq(|results| + 1, RowOf(series, train, test, forecast))
  {
    OffsetNext(|results|, train + test);
    SeqSnoc(RowOf(series, train, test, forecast), |results|);
  }

  /** When no further window fits, the results gathered are the whole validation. */
  lemma LoopExit(series: seq<Point>, train: nat, test: nat, forecast: (seq<real>, nat) -> seq<real>, results: seq<WindowResult>, start: nat)
    requires start == Offset(|results|, train + test) && start <= |series| < start + train + test
    requires results == seq(|results|, RowOf(series, train, test, forecast))
    requires results != [] ==> 0 < train && 0 < test
    ensures Validation(series, train, test, forecast) == Ok(results)
  {
    if results != [] || train + test > 0 {
      WindowCount(|series|, train + test, |results|);
    }
  }

  /** Window `k` lies within the series and the next window starts right after it: the
      windows never overlap and run in chronological order. */
  lemma WindowBounds(series: seq<Point>, train: nat, test: nat, forecast: (seq<real>, nat) -> seq<real>, k: nat)
    requires Validation(series, train, test, forecast).Ok? && k < |Validation(series, train, test, forecast).value|
    ensures 0 < train && 0 < test
    ensures Offset(k, train + test) + train + test <= |series|
    ensures Offset(k + 1, train + test) == Offset(k, train + test) + train + test
    ensures Validation(series, train, test, forecast).value[k] == WindowAt(series, train, test, Offset(k, train + test), forecast)
  {
    WindowFits(|series|, train + test, k);
    OffsetNext(k, train + test);
  }

  /** The window at `s` trains on the `train` points from `s`, tests on the `test` points
      right after them, names both intervals by their first and last dates, averages the
      test values, averages a forecast of `test` steps made from the training values, and
      records the absolute difference of the two averages. */
  lemma WindowAtContents(series: seq<Point>, train: nat, test: nat, s: nat, forecast: (seq<real>, nat) -> seq<real>)
    requires 0 < train && 0 < test && s + train + test <= |series|
    ensures series[s..s + train] + series[s + train..s + train + test] == series[s..s + train + test]
    ensures var w := WindowAt(series, train, test, s, forecast);
      w.trainWeeks == "[" + series[s].0 + ", " + series[s + train - 1].0 + "]" &&
      w.testWeeks == "[" + series[s + train].0 + ", " + series[s + train + test - 1].0 + "]" &&
      w.avgActual == Average(Abc.Values(series[s + train..s + train + test])) &&
      w.avgPredicted == Mean(forecast(Abc.Values(series[s..s + train]), test)) &&
      w.error == AbsoluteError(w.avgActual, w.avgPredicted)
  {
    IntervalOfSlice(series, s, train);
    IntervalOfSlice(series, s + train, test);
    assert series[s..s + train] + series[s + train..s + train + test] == series[s..s + train + test];
  }

  /** The forecast is made from the training points alone: two series that agree on a
      window's training points get the same predicted average there, whatever their test
      points are, and the error then differs only through the actual average. */
  lemma ForecastSeesOnlyTraining(series: seq<Point>, other: seq<Point>, train: nat, test: nat, s: nat,
                                 forecast: (seq<real>, nat) -> seq<real>)
    requires 0 < train && 0 < test && s + train + test <= |series| && s + train + test <= |other|
    requires forall j :: s <= j < s + train ==> series[j].1 == other[j].1
    ensures WindowAt(series, train, test, s, forecast).avgPredicted == WindowAt(other, train, test, s, forecast).avgPredicted
    ensures WindowAt(series, train, test, s, forecast).avgActual == WindowAt(other, train, test, s, forecast).avgActual ==>
      WindowAt(series, train, test, s, forecast).error == WindowAt(other, train, test, s, forecast).error
  {
    assert Abc.Values(series[s..s + train]) == Abc.Values(other[s..s + train]);
  }

  /** The first `c` windows of width `step`, laid end to end. */
  function Windows(series: seq<Point>, step: nat, c: nat): (r: seq<seq<Point>>)
    requires Offset(c, step) <= |series|
    ensures |r| == c
  {
    seq(c, k requires 0 <= k < c => OffsetMonotone(k + 1, c, step); series[Offset(k, step)..Offset(k, step) + step])
  }

  lemma {:induction false} WindowsCover(series: seq<Point>, step: nat, c: nat)
    requires Offset(c, step) <= |series|
    ensures Concat(Windows(series, step, c)) == series[..Offset(c, step)]
  {
    if c > 0 {
      OffsetNext(c - 1, step);
      var prev := Windows(series, step, c - 1);
      var all := Windows(series, step, c);
      var s := Offset(c - 1, step);
      assert all[..c - 1] == prev;
      WindowsCover(series, step, c - 1);
      assert Concat(all) == Concat(prev) + series[s..s + step];
      assert series[..s] + series[s..s + step] == series[..s + step];
    }
  }

  /** The windows of a successful validation, end to end, are the series up to the last
      whole window, and fewer than a whole window's points are left over: those trailing
      points are never used. */
  lemma TrailingPointsUnused(series: seq<Point>, train: nat, test: nat, forecast: (seq<real>, nat) -> seq<real>)
    requires Validation(series, train, test, forecast).Ok?
    ensures var c := |Validation(series, train, test, forecast).value|;
      Offset(c, train + test) <= |series| < Offset(c, train + test) + train + test &&
      Concat(Windows(series, train + test, c)) == series[..Offset(c, train + test)]
  {
    var step := train + test;
    CountBounds(|series|, step);
    WindowsCover(series, step, Count(|series|, step));
  }

  /** `for column in data.columns`: each column validated on its own points; the first
      column that raises stops the whole run. */
  method ValidateColumns(columns: seq<seq<Cell>>, train: nat, test: nat, forecast: (seq<real>, nat) -> seq<real>)
    returns (r: Result<seq<seq<WindowResult>>>)
    ensures r.Ok? <==> forall i :: 0 <= i < |columns| ==> Validation(DropMissing(columns[i]), train, test, forecast).Ok?
    ensures r.Err? ==> r.error == IndexError
    ensures r.Ok? ==> |r.value| == |columns| && forall i :: 0 <= i < |columns| ==>
      r.value[i] == Validation(DropMissing(columns[i]), train, test, forecast).value
  {
    var all: seq<seq<WindowResult>> := [];
    for i := 0 to |columns|
      invariant |all| == i
      invariant forall j :: 0 <= j < i ==>
        Validation(DropMissing(columns[j]), train, test, forecast).Ok? &&
        all[j] == Validation(DropMissing(columns[j]), train, test, forecast).value
    {
      var results := IntercalatedValidation(DropMissing(columns[i]), train, test, forecast);
      if results.Err? {
        return Err(results.error);
      }
      all := all + [results.value];
    }
    r := Ok(all);
  }
}
