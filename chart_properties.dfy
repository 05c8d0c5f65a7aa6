/** Properties of the chart as a whole: the range `setStats` leaves (`Reduce`)
    followed by the paths `onSizeChanged` builds from it (`Build`). */
module ChartProperties {
  import opened Geometry
  import opened HistoryScan
  import opened PathBuilder
  import opened PathProperties

  /** The scale `onSizeChanged` derives from the fields `setStats` left. */
  predicate ScaleFor(s: Scale, r: HistRange)
  {
    && s.timeStart == r.start && s.timeChange == r.end - r.start
    && s.batLow == r.batLow && s.batChange == r.batHigh - r.batLow
  }

  /** The paths drawn for history `h` at scale `s`, after `setStats(h)`. */
  function Chart(h: seq<Record>, start0: int, end0: int, s: Scale): Paths
    requires ScaleFor(s, Reduce(h, start0, end0))
  {
    var r := Reduce(h, start0, end0);
    Build(h, r.first, r.numHist, s)
  }

  /** Along the walk, the paths only grow. */
  lemma {:induction false} WalkGrows(s: Scale, h: seq<Record>, f: nat, i: nat, k: nat)
    requires i <= k && f + k <= |h| && (k > 0 ==> Defined(s))
    ensures Grows(WalkFrom(s, h, f, i).paths, WalkFrom(s, h, f, k).paths)
    decreases k
  {
    if i < k {
      WalkGrows(s, h, f, i, k - 1);
      VisitGrows(s, WalkFrom(s, h, f, k - 1), h[f + k - 1]);
    }
  }

  /** While a run is open, the loop variables `lastX` and `lastY` hold the
      pixel of a visited UPDATE record (index `j`), and the fill path ends
      on a point exactly there. */
  lemma {:induction false} WalkLastPlot(s: Scale, h: seq<Record>, f: nat, k: nat) returns (j: nat)
    requires f + k <= |h| && Defined(s)
    ensures var a := WalkFrom(s, h, f, k);
      var l := a.paths.level;
      a.cur.curLevel ==>
        && f <= j < f + k && h[j].cmd == Update
        && a.cur.lastX == XOf(s, h[j]) && a.cur.lastY == YOf(s, h[j])
        && l != [] && !l[|l| - 1].Close?
        && l[|l| - 1].x == a.cur.lastX && l[|l| - 1].y == a.cur.lastY
    decreases k
  {
    if k == 0 {
      return 0;
    }
    j := WalkLastPlot(s, h, f, k - 1);
    var a := WalkFrom(s, h, f, k - 1);
    var r := h[f + k - 1];
    var c := a.cur;
    if r.cmd == Update && XOf(s, r) != c.lastX && YOf(s, r) != c.lastY {
      VisitPlots(s, a, r);
      var op := if c.curLevel then LineTo(XOf(s, r), YOf(s, r)) else MoveTo(XOf(s, r), YOf(s, r));
      assert Plot(s, a, r, XOf(s, r), YOf(s, r)).paths.level == a.paths.level + [op];
      j := f + k - 1;
    } else if r.cmd != Update && c.curLevel {
      VisitInterrupts(s, a, r);
    } else {
      VisitSkips(s, a, r);
    }
  }

  /** With non-decreasing times, an UPDATE record inside an open run either
      leaves the fill path alone or extends it by a line to a point strictly
      right of its last point and at another height: no segment of a run has
      zero length, and its points advance from left to right. Only the start
      of the time range bounds the records; records after `mHistEnd`, which
      the walk reaches when control records precede the first UPDATE record,
      are included. */
  lemma RunAdvancesRight(s: Scale, h: seq<Record>, f: nat, k: nat)
    requires f + k < |h| && 0 < s.timeChange && 0 <= s.w && s.batChange != 0 && TimesMonotone(h)
    requires forall j :: f <= j <= f + k && h[j].cmd == Update ==> s.timeStart <= h[j].time
    ensures var a, b, r := WalkFrom(s, h, f, k), WalkFrom(s, h, f, k + 1), h[f + k];
      var l := a.paths.level;
      a.cur.curLevel && r.cmd == Update ==>
        || b.paths.level == l
        || (&& l != [] && !l[|l| - 1].Close?
            && b.paths.level == l + [LineTo(XOf(s, r), YOf(s, r))]
            && l[|l| - 1].x < XOf(s, r) && l[|l| - 1].y != YOf(s, r))
  {
    var a, r := WalkFrom(s, h, f, k), h[f + k];
    var j := WalkLastPlot(s, h, f, k);
    var c := a.cur;
    if c.curLevel && r.cmd == Update {
      assert s.timeStart <= h[j].time <= r.time;
      PixelXMonotone(h[j].time, r.time, s.timeStart, s.timeChange, s.w);
      if XOf(s, r) != c.lastX && YOf(s, r) != c.lastY {
        VisitPlots(s, a, r);
        assert Plot(s, a, r, XOf(s, r), YOf(s, r)).paths.level == a.paths.level + [LineTo(XOf(s, r), YOf(s, r))];
      } else {
        VisitSkips(s, a, r);
      }
    }
  }

  /** A history without UPDATE records draws nothing at all. */
  lemma NoUpdateDrawsNothing(h: seq<Record>, start0: int, end0: int, s: Scale)
    requires forall j :: 0 <= j < |h| ==> h[j].cmd != Update
    requires ScaleFor(s, Reduce(h, start0, end0))
    ensures Chart(h, start0, end0, s) == Reset
  {
    ReduceFirstUpdate(h, start0, end0);
  }

  /** With percentage levels, the fill polygon of a history with an UPDATE
      record starts at the left edge, at the height of the first UPDATE
      record's level. */
  lemma ChartStartsAtLeftEdge(h: seq<Record>, start0: int, end0: int, s: Scale, f: nat)
    requires LevelsInRange(h) && 1 <= s.levelh
    requires f < |h| && h[f].cmd == Update && forall j :: 0 <= j < f ==> h[j].cmd != Update
    requires ScaleFor(s, Reduce(h, start0, end0))
    ensures var l := Chart(h, start0, end0, s).level;
      l != [] && l[0] == MoveTo(0, PixelY(h[f].level, 0, 100, s.levelh))
  {
    var r := Reduce(h, start0, end0);
    ReduceFirstUpdate(h, start0, end0);
    ReduceVisitsFirstUpdate(h, start0, end0);
    assert r.first == Some(f);
    var k := VisitCount(h, r.first, r.numHist);
    var rec := h[f];
    var y := PixelY(rec.level, 0, 100, s.levelh);
    PixelYBounds(rec.level, 0, 100, s.levelh);
    assert XOf(s, rec) == 0;
    assert YOf(s, rec) == y;
    var w0 := WalkFrom(s, h, f, 0);
    assert w0 == Walk(Initial, Reset);
    VisitPlots(s, w0, rec);
    var w1 := WalkFrom(s, h, f, 1);
    assert w1.paths.level == [MoveTo(0, y)];
    WalkGrows(s, h, f, 1, k);
    var wk := WalkFrom(s, h, f, k);
    var c := wk.cur;
    FinishExtends(wk.paths, s.w, s.chargingY, s.screenOnY, s.levelh, c.startX, c.lastY, c.curLevel,
                  c.lastBatX, c.lastCharging, c.lastScreenOn, c.lastLine);
    assert Grows(wk.paths, Chart(h, start0, end0, s));
    assert wk.paths.level[0] == MoveTo(0, y);
  }

  /** When the history starts with an UPDATE record, times never decrease and
      levels are percentages, every point the chart draws lies inside the
      viewport (with the one pixel of slack `PathsIn` allows on the right). */
  lemma ChartInBounds(h: seq<Record>, start0: int, end0: int, s: Scale)
    requires TimesMonotone(h) && LevelsInRange(h)
    requires |h| > 0 ==> h[0].cmd == Update
    requires ScaleFor(s, Reduce(h, start0, end0)) && 0 <= s.w && 1 <= s.levelh
    ensures PathsIn(s, Chart(h, start0, end0, s))
  {
    var r := Reduce(h, start0, end0);
    ReduceFirstUpdate(h, start0, end0);
    ReduceLastInteresting(h, start0, end0);
    ReduceVisitsFirstUpdate(h, start0, end0);
    var k := VisitCount(h, r.first, r.numHist);
    if r.first.Some? {
      assert r.first.value == 0;
      assert k == r.numHist;
      forall j | 0 <= j < k
        ensures RecordPlottable(s, h[j])
      {
        assert h[0].time <= h[j].time <= h[r.numHist - 1].time;
      }
    }
    assert Plottable(s, h, FirstIndex(r.first), k);
    BuildInBounds(h, r.first, r.numHist, s);
  }

  /** Two control records, an UPDATE record at 50%, a control record inside
      the run and a second UPDATE record at the same level. */
  const OverrunHistory: seq<Record> :=
    [Record(Other(1), 0, 0, false, false), Record(Other(1), 0, 0, false, false),
     Record(Update, 0, 50, false, false), Record(Other(1), 50, 0, false, false),
     Record(Update, 100, 50, false, false)]

  /** A 10-pixel-wide view with a level height of 101 over the range `setStats`
      leaves for `OverrunHistory`. */
  const OverrunScale: Scale := Scale(10, 104, 101, 102, 103, 0, 1, 0, 100)

  /** `setStats` finds the first UPDATE record at index 2 and counts three
      records up to the last interesting one, from the head of the list. */
  lemma OverrunRange()
    ensures Reduce(OverrunHistory, 0, 0) == HistRange(Some(2), 0, 1, 3, 0, 100)
  {
    var h := OverrunHistory;
    assert ScanFrom(h[..0], 0, 0) == Scan(None, 0, 0, 0, -1);
    ScanStep(h, 0, 0, 0);
    ScanStep(h, 1, 0, 0);
    assert ScanFrom(h[..2], 0, 0) == Scan(None, 0, 0, 0, -1);
    ScanStep(h, 2, 0, 0);
    assert ScanFrom(h[..3], 0, 0) == Scan(Some(2), 0, 0, 3, 50);
    ScanStep(h, 3, 0, 0);
    ScanStep(h, 4, 0, 0);
    assert h[..5] == h;
  }

  /** The walk visits indices 2, 3 and 4: it plots index 2, closes the run at
      the control record and plots index 4 at x = 1000. */
  lemma OverrunWalk()
    ensures var l := WalkFrom(OverrunScale, OverrunHistory, 2, 3).paths.level;
      l != [] && l[|l| - 1] == MoveTo(1000, 51)
  {
    var h, s := OverrunHistory, OverrunScale;
    assert XOf(s, h[2]) == 0 && YOf(s, h[2]) == 51;
    assert XOf(s, h[4]) == 1000 && YOf(s, h[4]) == 51;
    var w0 := WalkFrom(s, h, 2, 0);
    VisitPlots(s, w0, h[2]);
    var w1 := WalkFrom(s, h, 2, 1);
    assert w1.cur.curLevel;
    VisitInterrupts(s, w1, h[3]);
    var w2 := WalkFrom(s, h, 2, 2);
    assert w2.cur.lastX == -1 && !w2.cur.curLevel;
    VisitPlots(s, w2, h[4]);
  }

  /** The overrun history is well-formed: times never decrease and levels
      are percentages. */
  lemma OverrunHistoryWellFormed()
    ensures TimesMonotone(OverrunHistory) && LevelsInRange(OverrunHistory)
  {
    var h := OverrunHistory;
    forall i, j | 0 <= i <= j < |h|
      ensures h[i].time <= h[j].time
    {
      assert h[i].time == [0, 0, 0, 50, 100][i];
      assert h[j].time == [0, 0, 0, 50, 100][j];
    }
  }

  /** The loop counts `mNumHist` records from `mHistFirst`, but `setStats`
      counted `mNumHist` from the head of the list. With two control records
      ahead of the first UPDATE record, the walk reaches a record past the
      last interesting one and plots it a hundred widths right of the view,
      although times never decrease and levels are percentages. */
  lemma OverrunPlotsPastRightEdge()
    ensures TimesMonotone(OverrunHistory) && LevelsInRange(OverrunHistory)
    ensures ScaleFor(OverrunScale, Reduce(OverrunHistory, 0, 0))
    ensures MoveTo(1000, 51) in Chart(OverrunHistory, 0, 0, OverrunScale).level
    ensures !PathsIn(OverrunScale, Chart(OverrunHistory, 0, 0, OverrunScale))
  {
    OverrunHistoryWellFormed();
    OverrunRange();
    OverrunWalk();
    var h, s := OverrunHistory, OverrunScale;
    var w3 := WalkFrom(s, h, 2, 3);
    var c := w3.cur;
    FinishExtends(w3.paths, s.w, s.chargingY, s.screenOnY, s.levelh, c.startX, c.lastY, c.curLevel,
                  c.lastBatX, c.lastCharging, c.lastScreenOn, c.lastLine);
    var q := Finish(w3.paths, s.w, s.chargingY, s.screenOnY, s.levelh, c.startX, c.lastY, c.curLevel,
                    c.lastBatX, c.lastCharging, c.lastScreenOn, c.lastLine);
    assert Chart(h, 0, 0, s) == q;
    var l0, l := w3.paths.level, q.level;
    var i := |l0| - 1;
    assert l0 <= l;
    assert l[i] == l0[i];
    assert !OpIn(l[i], s.w + 1, 1, s.levelh);
  }
}
