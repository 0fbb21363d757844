// Run history and its summary (Trainer.saveStats, Trainer.showStats). Times
// are whole milliseconds; the source keeps seconds as floating point.

module RunStats {
  import opened Optional

  /** One saved run: total, memorisation and execution times, score out of total. */
  datatype RunRecord = RunRecord(time: int, memo: int, exec: int, score: nat, total: nat, success: bool)

  /** What every record saveStats makes from finishRun's numbers satisfies. */
  predicate Consistent(r: RunRecord)
  {
    && r.memo + r.exec == r.time
    && r.score <= r.total
    && r.success == (r.score == r.total)
  }

  /** `stats.filter(s => s.success)`. */
  function Wins(stats: seq<RunRecord>): (w: seq<RunRecord>)
    ensures |w| <= |stats|
    ensures forall r :: r in w <==> r in stats && r.success
  {
    if stats == [] then []
    else
      assert stats == [stats[0]] + stats[1..];
      (if stats[0].success then [stats[0]] else []) + Wins(stats[1..])
  }

  /** One step of `filter`: the first record is kept exactly when it is a success. */
  lemma WinsCons(r: RunRecord, rest: seq<RunRecord>)
    ensures Wins([r] + rest) == (if r.success then [r] else []) + Wins(rest)
  {
    assert ([r] + rest)[1..] == rest;
  }

  /** `filter` keeps the records in their order: filtering a concatenation filters each part. */
  lemma {:induction false} WinsAppend(a: seq<RunRecord>, b: seq<RunRecord>)
    ensures Wins(a + b) == Wins(a) + Wins(b)
  {
    if a == [] {
      assert a + b == b;
    } else {
      var r, rest := a[0], a[1..];
      assert a == [r] + rest && a + b == [r] + (rest + b);
      WinsCons(r, rest);
      WinsCons(r, rest + b);
      WinsAppend(rest, b);
    }
  }

  /** `filter` keeps every copy of a successful record and no copy of a failed one. */
  lemma {:induction false} WinsCount(stats: seq<RunRecord>, r: RunRecord)
    ensures multiset(Wins(stats))[r] == if r.success then multiset(stats)[r] else 0
  {
    if stats != [] {
      assert stats == [stats[0]] + stats[1..];
      WinsCount(stats[1..], r);
    }
  }

  /** `wins.map(s => s.time)`. */
  function Times(runs: seq<RunRecord>): (t: seq<int>)
    ensures |t| == |runs|
    ensures forall i :: 0 <= i < |runs| ==> t[i] == runs[i].time
  {
    seq(|runs|, i requires 0 <= i < |runs| => runs[i].time)
  }

  /** `Math.min(...times)`. */
  function Min(xs: seq<int>): (m: int)
    requires |xs| > 0
    ensures m in xs
    ensures forall x :: x in xs ==> m <= x
  {
    if |xs| == 1 then xs[0]
    else
      var rest := Min(xs[1..]);
      assert forall x :: x in xs ==> x == xs[0] || x in xs[1..];
      if xs[0] <= rest then xs[0] else rest
  }

  /** `times.reduce((a, b) => a + b, 0)`. */
  function Sum(xs: seq<int>): int
  {
    if xs == [] then 0 else xs[0] + Sum(xs[1..])
  }

  lemma MulMonotone(a: nat, b: int, c: int)
    requires b <= c
    ensures a * b <= a * c
  {
  }

  /** Math.round(wins / runs * 100), rounding halves up; 0 when there are no runs. */
  function RatePercent(wins: nat, runs: nat): (p: nat)
    requires wins <= runs
    ensures p <= 100
    ensures runs == 0 ==> p == 0
    ensures runs > 0 ==> 2 * runs * p <= 200 * wins + runs < 2 * runs * (p + 1)
  {
    if runs == 0 then 0
    else
      var n, d := 200 * wins + runs, 2 * runs;
      var p := n / d;
      assert d * p <= n < d * (p + 1) by {
        assert n == d * p + n % d;
      }
      assert p <= 100 by {
        if p > 100 {
          MulMonotone(d, 101, p);
        }
      }
      p
  }

  /** An exact mean: `sum / count` milliseconds. */
  datatype Mean = Mean(sum: int, count: nat)

  /** The numbers on the statistics screen; None is the "-" placeholder. */
  datatype Summary = Summary(runs: nat, ratePercent: nat, best: Option<int>, average: Option<Mean>, recent: seq<RunRecord>)

  /** Rows of the history table: at most 50, most recent first. */
  const HistoryRows: nat := 50

  /** `times.length ? Math.min(...times) : 0` over the successful runs. */
  function BestTime(stats: seq<RunRecord>): (b: int)
    ensures Wins(stats) == [] ==> b == 0
    ensures Wins(stats) != [] ==> b in Times(Wins(stats)) && forall t :: t in Times(Wins(stats)) ==> b <= t
  {
    var times := Times(Wins(stats));
    if |times| > 0 then Min(times) else 0
  }

  /** The average over the successful runs, as an exact mean; None without any. */
  function AverageTime(stats: seq<RunRecord>): (a: Option<Mean>)
    ensures a.Some? <==> exists r :: r in stats && r.success
    ensures a.Some? ==> a.value.count == |Wins(stats)| && a.value.sum == Sum(Times(Wins(stats)))
  {
    var times := Times(Wins(stats));
    if |times| > 0 then Some(Mean(Sum(times), |times|)) else None
  }

  /** showStats: a best or average that is 0 (JavaScript falsy, which includes
      "no successful run") shows as "-". */
  function Summarize(stats: seq<RunRecord>): (s: Summary)
    ensures s.runs == |stats|
    ensures s.ratePercent == RatePercent(|Wins(stats)|, |stats|) && s.ratePercent <= 100
    ensures s.best.Some? <==> BestTime(stats) != 0
    ensures s.best.Some? ==> s.best.value == BestTime(stats)
    ensures s.average.Some? <==> AverageTime(stats).Some? && AverageTime(stats).value.sum != 0
    ensures s.average.Some? ==> s.average == AverageTime(stats)
    ensures |s.recent| == (if |stats| < HistoryRows then |stats| else HistoryRows) && s.recent <= stats
  {
    var best := BestTime(stats);
    var average := AverageTime(stats);
    Summary(
      |stats|,
      RatePercent(|Wins(stats)|, |stats|),
      if best != 0 then Some(best) else None,
      if average.Some? && average.value.sum != 0 then average else None,
      stats[..if |stats| < HistoryRows then |stats| else HistoryRows])
  }

  /** With no runs: rate 0 and both times shown as "-". */
  lemma EmptySummary()
    ensures Summarize([]) == Summary(0, 0, None, None, [])
  {
  }

  /** With a successful run, the best time is the time of one, and no successful run was faster. */
  lemma BestIsFastestWin(stats: seq<RunRecord>)
    requires exists r :: r in stats && r.success
    ensures exists i :: 0 <= i < |stats| && stats[i].success && stats[i].time == BestTime(stats)
    ensures forall r :: r in stats && r.success ==> BestTime(stats) <= r.time
  {
    var wins := Wins(stats);
    var times := Times(wins);
    var w :| w in stats && w.success;
    assert w in wins;
    var b := Min(times);
    var k :| 0 <= k < |times| && times[k] == b;
    assert wins[k] in wins;
    var i :| 0 <= i < |stats| && stats[i] == wins[k];
    forall r | r in stats && r.success
      ensures b <= r.time
    {
      assert r in wins;
      var j :| 0 <= j < |wins| && wins[j] == r;
      assert times[j] in times;
    }
  }

  /** Without a successful run, best and average both show "-". */
  lemma NoWinsNoTimes(stats: seq<RunRecord>)
    requires forall r :: r in stats ==> !r.success
    ensures Summarize(stats).best == None && Summarize(stats).average == None
  {
  }

  /** Saving a failed run changes neither the best nor the average time. */
  lemma FailedRunKeepsTimes(r: RunRecord, stats: seq<RunRecord>)
    requires !r.success
    ensures BestTime([r] + stats) == BestTime(stats)
    ensures AverageTime([r] + stats) == AverageTime(stats)
  {
    assert ([r] + stats)[1..] == stats;
    assert Wins([r] + stats) == Wins(stats);
  }

  /** A lower bound of every element, times the count, is at most the sum. */
  lemma {:induction false} SumAtLeast(xs: seq<int>, m: int)
    requires forall x :: x in xs ==> m <= x
    ensures m * |xs| <= Sum(xs)
  {
    if xs != [] {
      var rest := xs[1..];
      assert forall x :: x in rest ==> x in xs;
      SumAtLeast(rest, m);
      assert m <= xs[0] by {
        assert xs[0] in xs;
      }
      assert m * |xs| == m * |rest| + m;
    }
  }

  /** `reduce` adds up a concatenation part by part. */
  lemma {:induction false} SumAppend(a: seq<int>, b: seq<int>)
    ensures Sum(a + b) == Sum(a) + Sum(b)
  {
    if a != [] {
      assert (a + b)[1..] == a[1..] + b;
      SumAppend(a[1..], b);
    } else {
      assert a + b == b;
    }
  }

  /** With a successful run, the best time is at most the average time. */
  lemma BestAtMostAverage(stats: seq<RunRecord>)
    requires exists r :: r in stats && r.success
    ensures AverageTime(stats).Some?
    ensures BestTime(stats) * AverageTime(stats).value.count <= AverageTime(stats).value.sum
  {
    var times := Times(Wins(stats));
    var w :| w in stats && w.success;
    assert w in Wins(stats);
    SumAtLeast(times, Min(times));
  }
}
