/** The aggregate over several runs and the figures derived from it: the
    grade of service and the split of blocked calls by cause. Printing is
    not modelled. */
module Output {
  import opened Prelude
  import opened Simulation

  /** The aggregate record: ten totals and two averages. */
  datatype Aggregate = Aggregate(
    totalCallAttempts: nat,
    totalCallFailures: nat,
    totalFailNoSignal: nat,
    totalFailNoChannel: nat,
    totalHandoverAttempts: nat,
    totalHandoverSuccess: nat,
    totalHandoverFailures: nat,
    totalDropped: nat,
    totalFailedToConnect: nat,
    totalSavedBySecondary: nat,
    avgCallsBase: real,
    avgCallsCell: real)

  function Zero(): Aggregate {
    Aggregate(0, 0, 0, 0, 0, 0, 0, 0, 0, 0, 0.0, 0.0)
  }

  /** The fields of one run's record, as the aggregate holds them. */
  function FromStats(s: Stats): Aggregate {
    Aggregate(s.totalCallAttempts, s.totalCallFailures, s.totalFailNoSignal, s.totalFailNoChannel,
              s.totalHandoverAttempts, s.totalHandoverSuccess, s.totalHandoverFailures, s.totalDropped,
              s.totalFailedToConnect, s.totalSavedBySecondary, s.avgCallsBase, s.avgCallsCell)
  }

  /** Field-wise sum. */
  function Combine(a: Aggregate, b: Aggregate): Aggregate {
    Aggregate(a.totalCallAttempts + b.totalCallAttempts, a.totalCallFailures + b.totalCallFailures,
              a.totalFailNoSignal + b.totalFailNoSignal, a.totalFailNoChannel + b.totalFailNoChannel,
              a.totalHandoverAttempts + b.totalHandoverAttempts, a.totalHandoverSuccess + b.totalHandoverSuccess,
              a.totalHandoverFailures + b.totalHandoverFailures, a.totalDropped + b.totalDropped,
              a.totalFailedToConnect + b.totalFailedToConnect, a.totalSavedBySecondary + b.totalSavedBySecondary,
              a.avgCallsBase + b.avgCallsBase, a.avgCallsCell + b.avgCallsCell)
  }

  /** The field-wise sum over all runs, in order. */
  function Totals(runs: seq<Stats>): Aggregate {
    if runs == [] then Zero() else Combine(Totals(runs[..|runs| - 1]), FromStats(runs[|runs| - 1]))
  }

  /** The sums with both averages divided by the number of runs. */
  function Mean(a: Aggregate, n: nat): Aggregate
    requires n > 0
  {
    a.(avgCallsBase := a.avgCallsBase / n as real, avgCallsCell := a.avgCallsCell / n as real)
  }

  /** The aggregation in `print_aggregate_stats(stats_list)`: every total is
      summed over the runs, the two averages are summed and then divided by
      the number of runs, which fails for an empty list. */
  method AggregateStats(runs: seq<Stats>) returns (r: Result<Aggregate, Raised>)
    ensures runs == [] ==> r == Failure(ZeroDivisionError)
    ensures runs != [] ==> r == Success(Mean(Totals(runs), |runs|))
  {
    var agg := Zero();
    var i := 0;
    while i < |runs|
      invariant 0 <= i <= |runs|
      invariant agg == Totals(runs[..i])
    {
      assert runs[..i + 1][..i] == runs[..i];
      agg := Combine(agg, FromStats(runs[i]));
      i := i + 1;
    }
    assert runs[..i] == runs;
    if |runs| == 0 {
      return Failure(ZeroDivisionError);
    }
    agg := agg.(avgCallsBase := agg.avgCallsBase / |runs| as real);
    agg := agg.(avgCallsCell := agg.avgCallsCell / |runs| as real);
    r := Success(agg);
  }

  /** Aggregating a single run reproduces that run's record. */
  lemma SingleRun(s: Stats)
    ensures Mean(Totals([s]), 1) == FromStats(s)
  {
    assert [s][..0] == [];
  }

  /** Aggregating two batches of runs adds their aggregates. */
  lemma {:induction false} TotalsAppend(xs: seq<Stats>, ys: seq<Stats>)
    ensures Totals(xs + ys) == Combine(Totals(xs), Totals(ys))
    decreases |ys|
  {
    if ys == [] {
      assert xs + ys == xs;
      assert Combine(Totals(xs), Zero()) == Totals(xs);
    } else {
      var n := |ys| - 1;
      var all := xs + ys;
      assert all[..|all| - 1] == xs + ys[..n] && all[|all| - 1] == ys[n];
      assert Totals(all) == Combine(Totals(xs + ys[..n]), FromStats(ys[n]));
      TotalsAppend(xs, ys[..n]);
      CombineAssociative(Totals(xs), Totals(ys[..n]), FromStats(ys[n]));
    }
  }

  lemma CombineAssociative(a: Aggregate, b: Aggregate, c: Aggregate)
    ensures Combine(Combine(a, b), c) == Combine(a, Combine(b, c))
  {
  }

  /** When every run splits its failed attempts into the two causes, so
      does the aggregate. */
  lemma {:induction false} FailuresSplit(runs: seq<Stats>)
    requires forall i :: 0 <= i < |runs| ==>
      runs[i].totalCallFailures == runs[i].totalFailNoSignal + runs[i].totalFailNoChannel
    ensures Totals(runs).totalCallFailures == Totals(runs).totalFailNoSignal + Totals(runs).totalFailNoChannel
    decreases |runs|
  {
    if runs != [] {
      FailuresSplit(runs[..|runs| - 1]);
    }
  }

  /** Grade of service: the percentage of attempts that no tower took,
      net of those the secondary tower saved; -1 when nothing was attempted. */
  function Gos(a: Aggregate): (r: real)
    ensures a.totalCallAttempts == 0 ==> r == -1.0
    ensures a.totalCallAttempts != 0 ==>
      r * a.totalCallAttempts as real == 100.0 * (a.totalFailedToConnect - a.totalSavedBySecondary) as real
  {
    if a.totalCallAttempts == 0 then -1.0
    else 100.0 * (a.totalFailedToConnect - a.totalSavedBySecondary) as real / a.totalCallAttempts as real
  }

  /** The blocked calls split by cause, in percent: capacity, then signal. */
  datatype Shares = Shares(noChannel: real, noSignal: real)

  function BlockedShares(a: Aggregate): (r: Shares)
    ensures a.totalFailNoChannel + a.totalFailNoSignal == 0 ==> r == Shares(-1.0, -1.0)
    ensures a.totalFailNoChannel + a.totalFailNoSignal > 0 ==>
      0.0 <= r.noChannel <= 100.0 && 0.0 <= r.noSignal <= 100.0 && r.noChannel + r.noSignal == 100.0 &&
      r.noChannel * (a.totalFailNoChannel + a.totalFailNoSignal) as real == 100.0 * a.totalFailNoChannel as real
  {
    var blocked := (a.totalFailNoChannel + a.totalFailNoSignal) as real;
    if blocked == 0.0 then Shares(-1.0, -1.0)
    else
      var noChannel := 100.0 * a.totalFailNoChannel as real / blocked;
      ShareBounds(a.totalFailNoChannel as real, blocked);
      Shares(noChannel, 100.0 - noChannel)
  }

  lemma ShareBounds(part: real, whole: real)
    requires 0.0 <= part <= whole && 0.0 < whole
    ensures 0.0 <= 100.0 * part / whole <= 100.0
  {
    assert part / whole <= 1.0;
  }
}
