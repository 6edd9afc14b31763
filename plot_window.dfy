/** The integer part of the bar plot of recent runs: which run counts are
    drawn, at which run numbers, and the limits of the x axis. */
module PlotWindow {
  import opened Basics

  /** The entries of the statistics dictionary the bar plot reads; a key may
      be missing, as in the empty dictionary a canvas is first drawn with. */
  datatype PlotData = PlotData(runNumFiles: Option<seq<int>>, runCount: Option<int>)

  /** What `plotBar` hands to the plotting library: bar positions (run
      numbers), bar heights (files moved), and the x-axis limits. */
  datatype BarChart = BarChart(runNo: seq<int>, heights: seq<int>, xmin: int, xmax: int)

  /** Python's `xs[start:]`: a negative `start` counts from the end, and
      either kind is clipped to the list. */
  function SliceFrom<T>(xs: seq<T>, start: int): (r: seq<T>)
    ensures |r| <= |xs| && r == xs[|xs| - |r|..]
    ensures start >= 0 ==> |r| == Max(|xs| - start, 0)
    ensures start < 0 ==> |r| == Min(-start, |xs|)
  {
    var from := if start < 0 then Max(|xs| + start, 0) else Min(start, |xs|);
    xs[from..]
  }

  /** `runNumFiles[-n:]`: the counts of the last `n` runs, in run order. For
      `n == 0` Python's slice `[-0:]` keeps the whole list. */
  function LastRuns(runNumFiles: seq<int>, n: int): (r: seq<int>)
    ensures |r| <= |runNumFiles| && r == runNumFiles[|runNumFiles| - |r|..]
    ensures n >= 1 ==> |r| == Min(n, |runNumFiles|)
    ensures n == 0 ==> r == runNumFiles
  {
    SliceFrom(runNumFiles, -n)
  }

  /** Python's `list(range(lo, hi))`. */
  function Range(lo: int, hi: int): (r: seq<int>)
    ensures |r| == Max(hi - lo, 0)
    ensures forall i :: 0 <= i < |r| ==> r[i] == lo + i
    decreases hi - lo
  {
    if lo >= hi then [] else [lo] + Range(lo + 1, hi)
  }

  /** `range(max(runCount - n + 1, 1), runCount + 1)`: the numbers of the
      last `n` runs, counting runs from 1. */
  function RunNumbers(runCount: int, n: int): (r: seq<int>)
    ensures forall i :: 0 <= i < |r| ==> r[i] == runCount - |r| + 1 + i
    ensures forall i :: 0 <= i < |r| ==> 1 <= r[i] <= runCount
    ensures runCount >= 0 && n >= 1 ==> |r| == Min(n, runCount)
    ensures n >= 1 ==> (r == [] <==> runCount <= 0)
  {
    Range(Max(runCount - n + 1, 1), runCount + 1)
  }

  /** The smallest element of a non-empty list. */
  function SeqMin(s: seq<int>): (m: int)
    requires s != []
    ensures m in s && forall i :: 0 <= i < |s| ==> m <= s[i]
    decreases |s|
  {
    assert s == [s[0]] + s[1..];
    if |s| == 1 then s[0] else Min(s[0], SeqMin(s[1..]))
  }

  /** The largest element of a non-empty list. */
  function SeqMax(s: seq<int>): (m: int)
    requires s != []
    ensures m in s && forall i :: 0 <= i < |s| ==> s[i] <= m
    decreases |s|
  {
    assert s == [s[0]] + s[1..];
    if |s| == 1 then s[0] else Max(s[0], SeqMax(s[1..]))
  }

  /** The x-axis limits: `(0, 2)` with no bars, else one unit beyond the
      lowest and the highest run number, so every bar lies inside. */
  function XLimits(runNo: seq<int>): (lim: (int, int))
    ensures lim.0 < lim.1
    ensures runNo == [] ==> lim == (0, 2)
    ensures runNo != [] ==> lim.0 + 1 in runNo && lim.1 - 1 in runNo
    ensures forall i :: 0 <= i < |runNo| ==> lim.0 < runNo[i] < lim.1
  {
    if runNo == [] then (0, 2) else (SeqMin(runNo) - 1, SeqMax(runNo) + 1)
  }

  /** The data computations of `plotBar(data, n)`: missing keys read as an
      empty list and a run count of 0. */
  function PlotBar(data: PlotData, n: int): (c: BarChart)
    ensures c.heights == LastRuns(data.runNumFiles.GetOr([]), n)
    ensures c.runNo == RunNumbers(data.runCount.GetOr(0), n)
    ensures (c.xmin, c.xmax) == XLimits(c.runNo)
    ensures c.xmin < c.xmax
    ensures forall i :: 0 <= i < |c.runNo| ==> c.xmin < c.runNo[i] < c.xmax
  {
    var runNumFiles := LastRuns(data.runNumFiles.GetOr([]), n);
    var runCount := data.runCount.GetOr(0);
    var runNo := RunNumbers(runCount, n);
    var lim := XLimits(runNo);
    BarChart(runNo, runNumFiles, lim.0, lim.1)
  }

  /** The axis limits of consecutive run numbers reach one unit past the
      first and the last. */
  lemma ConsecutiveLimits(r: seq<int>)
    requires r != []
    requires forall i :: 0 <= i < |r| ==> r[i] == r[0] + i
    ensures XLimits(r) == (r[0] - 1, r[|r| - 1] + 1)
  {
    var lim := XLimits(r);
    var lo :| 0 <= lo < |r| && r[lo] == lim.0 + 1;
    var hi :| 0 <= hi < |r| && r[hi] == lim.1 - 1;
    assert lim.0 < r[0] && r[|r| - 1] < lim.1;
  }

  /** The window of run numbers for a positive run count: `min(n, runCount)`
      consecutive numbers ending at `runCount`, with the axis one unit wider
      on each side. */
  lemma WindowLimits(runCount: int, n: int)
    requires runCount >= 1 && n >= 1
    ensures var r := RunNumbers(runCount, n);
      |r| == Min(n, runCount) &&
      r[0] == Max(runCount - n + 1, 1) && r[|r| - 1] == runCount &&
      XLimits(r) == (Max(runCount - n + 1, 1) - 1, runCount + 1)
  {
    var r := RunNumbers(runCount, n);
    var m := |r|;
    assert m == Min(n, runCount);
    var first := runCount - m + 1;
    assert r[0] == first && r[m - 1] == runCount;
    assert first == Max(runCount - n + 1, 1) by {
      if n <= runCount { assert m == n; } else { assert m == runCount; }
    }
    forall i | 0 <= i < m ensures r[i] == r[0] + i {
      assert r[i] == first + i;
    }
    ConsecutiveLimits(r);
  }

  /** On data as the mover keeps it, where the list of per-run counts has one
      entry per run, the bar heights and the run numbers pair up: bar `i`
      stands at its run's number and has that run's count as its height. */
  lemma BarsMatchRuns(runNumFiles: seq<int>, n: int)
    requires n >= 1
    ensures var heights, runNo := LastRuns(runNumFiles, n), RunNumbers(|runNumFiles|, n);
      |heights| == |runNo| == Min(n, |runNumFiles|) &&
      forall i :: 0 <= i < |runNo| ==> heights[i] == runNumFiles[runNo[i] - 1]
  {
    var heights, runNo := LastRuns(runNumFiles, n), RunNumbers(|runNumFiles|, n);
    var m := |heights|;
    assert m == |runNo|;
    assert heights == runNumFiles[|runNumFiles| - m..];
    forall i | 0 <= i < m ensures heights[i] == runNumFiles[runNo[i] - 1] {
      assert runNo[i] - 1 == |runNumFiles| - m + i;
      assert heights[i] == runNumFiles[|runNumFiles| - m + i];
    }
  }

  /** The first drawing, from an empty dictionary: no bars and the axis
      from 0 to 2. */
  lemma EmptyDataPlot(n: int)
    ensures PlotBar(PlotData(None, None), n) == BarChart([], [], 0, 2)
  {
  }
}
