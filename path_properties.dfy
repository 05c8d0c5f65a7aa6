/** What the path builder guarantees. When the visited records lie inside
    the time and level ranges, every point of the fill polygon and the band
    strokes lies in [0, w + 1] x [1, levelh] and each flag trace stays on its
    own height. For every record list, every run's fill polygon is closed
    down to the baseline and back to where the run started, every band
    stroke starts with a move, each segment between plotted points is drawn
    on one band stroke only, and the two flag traces are well-formed step
    lines that are all closed once the build is done. */
module PathProperties {
  import opened Geometry
  import opened PathBuilder

  // ----- Coordinate bounds -----

  /** Every point of `ops` lies in [0, xmax] x [ylo, yhi]. */
  predicate OpsIn(ops: seq<PathOp>, xmax: int, ylo: int, yhi: int)
  {
    forall k :: 0 <= k < |ops| ==> OpIn(ops[k], xmax, ylo, yhi)
  }

  predicate OpIn(op: PathOp, xmax: int, ylo: int, yhi: int)
  {
    !op.Close? ==> 0 <= op.x <= xmax && ylo <= op.y <= yhi
  }

  /** The scale maps onto a real viewport. */
  predicate Sane(s: Scale)
  {
    0 < s.timeChange && 0 < s.batChange && 0 <= s.w && 1 <= s.levelh
  }

  /** An UPDATE record lies inside the time and level ranges of the scale. */
  predicate RecordPlottable(s: Scale, r: Record)
  {
    r.cmd == Update ==>
      && s.timeStart <= r.time <= s.timeStart + s.timeChange
      && s.batLow <= r.level <= s.batLow + s.batChange
  }

  /** The `k` records of `h` from index `f` are all plottable. */
  predicate Plottable(s: Scale, h: seq<Record>, f: nat, k: nat)
    requires f + k <= |h|
  {
    forall j :: f <= j < f + k ==> RecordPlottable(s, h[j])
  }

  /** The level and band paths lie between x = 0 and one pixel right of the
      viewport, and between y = 1 and the level height; the flag traces lie
      on their own heights. */
  predicate PathsIn(s: Scale, p: Paths)
  {
    && OpsIn(p.level, s.w + 1, 1, s.levelh)
    && OpsIn(p.good, s.w + 1, 1, s.levelh)
    && OpsIn(p.warn, s.w + 1, 1, s.levelh)
    && OpsIn(p.critical, s.w + 1, 1, s.levelh)
    && OpsIn(p.charging, s.w + 1, s.chargingY, s.chargingY)
    && OpsIn(p.screenOn, s.w + 1, s.screenOnY, s.screenOnY)
  }

  predicate CursorIn(s: Scale, c: Cursor)
  {
    0 <= c.x <= s.w && 0 <= c.startX <= s.w && (c.curLevel ==> 1 <= c.lastY <= s.levelh)
  }

  lemma OpsInAppend(a: seq<PathOp>, b: seq<PathOp>, xmax: int, ylo: int, yhi: int)
    requires OpsIn(a, xmax, ylo, yhi) && OpsIn(b, xmax, ylo, yhi)
    ensures OpsIn(a + b, xmax, ylo, yhi)
  {
    forall k | 0 <= k < |a + b|
      ensures OpIn((a + b)[k], xmax, ylo, yhi)
    {
      if k >= |a| {
        assert (a + b)[k] == b[k - |a|];
      }
    }
  }

  lemma CloseRunInBounds(l: seq<PathOp>, w: int, y: int, levelh: int, startX: int, lastBatX: int, xmax: int)
    requires OpsIn(l, xmax, 1, levelh) && 1 <= levelh
    requires 0 <= w <= xmax && 0 <= startX <= xmax && (0 <= lastBatX ==> 1 <= y <= levelh)
    ensures OpsIn(CloseRun(l, w, y, levelh, startX, lastBatX), xmax, 1, levelh)
  {
    var l1 := if 0 <= lastBatX then l + [LineTo(w, y)] else l;
    if 0 <= lastBatX {
      OpsInAppend(l, [LineTo(w, y)], xmax, 1, levelh);
    }
    OpsInAppend(l1, [LineTo(w, levelh), LineTo(startX, levelh), Close], xmax, 1, levelh);
  }

  lemma FinishInBounds(s: Scale, closeX: int, wk: Walk)
    requires Sane(s) && 0 <= closeX <= s.w + 1
    requires PathsIn(s, wk.paths) && CursorIn(s, wk.cur)
    ensures PathsIn(s, FinishWalk(s, closeX, wk))
  {
    var c, p := wk.cur, wk.paths;
    var q := FinishWalk(s, closeX, wk);
    if c.curLevel {
      CloseRunInBounds(p.level, closeX, c.lastY, s.levelh, c.startX, c.lastBatX, s.w + 1);
      if 0 <= c.lastBatX && c.lastLine.Some? {
        var b := c.lastLine.value;
        OpsInAppend(BandPath(p, b), [LineTo(closeX, c.lastY)], s.w + 1, 1, s.levelh);
      }
    }
    assert BandPath(q, Good) == q.good && BandPath(q, Warn) == q.warn && BandPath(q, Critical) == q.critical;
    if c.lastCharging {
      OpsInAppend(p.charging, [LineTo(closeX, s.chargingY)], s.w + 1, s.chargingY, s.chargingY);
    }
    if c.lastScreenOn {
      OpsInAppend(p.screenOn, [LineTo(closeX, s.screenOnY)], s.w + 1, s.screenOnY, s.screenOnY);
    }
  }

  lemma EdgeInBounds(ops: seq<PathOp>, was: bool, now: bool, x: int, y: int, xmax: int)
    requires OpsIn(ops, xmax, y, y) && 0 <= x <= xmax
    ensures OpsIn(Edge(ops, was, now, x, y), xmax, y, y)
  {
    if now != was {
      OpsInAppend(ops, [if now then MoveTo(x, y) else LineTo(x, y)], xmax, y, y);
    }
  }

  lemma PlotInBounds(s: Scale, wk: Walk, r: Record, x: int, y: int)
    requires Sane(s) && 0 <= x <= s.w && 1 <= y <= s.levelh
    requires PathsIn(s, wk.paths) && CursorIn(s, wk.cur)
    ensures PathsIn(s, Plot(s, wk, r, x, y).paths) && CursorIn(s, Plot(s, wk, r, x, y).cur)
  {
    var c, p := wk.cur, wk.paths;
    var q := Plot(s, wk, r, x, y).paths;
    var b := BandOf(r.level);
    OpsInAppend(BandPath(p, b), [if c.lastLine == Some(b) then LineTo(x, y) else MoveTo(x, y)], s.w + 1, 1, s.levelh);
    if c.lastLine.Some? && c.lastLine.value != b {
      OpsInAppend(BandPath(p, c.lastLine.value), [LineTo(x, y)], s.w + 1, 1, s.levelh);
    }
    OpsInAppend(p.level, [if c.curLevel then LineTo(x, y) else MoveTo(x, y)], s.w + 1, 1, s.levelh);
    EdgeInBounds(p.charging, c.lastCharging, r.plugged, x, s.chargingY, s.w + 1);
    EdgeInBounds(p.screenOn, c.lastScreenOn, r.screenOn, x, s.screenOnY, s.w + 1);
    assert forall d: Band :: OpsIn(BandPath(q, d), s.w + 1, 1, s.levelh);
    assert BandPath(q, Good) == q.good && BandPath(q, Warn) == q.warn && BandPath(q, Critical) == q.critical;
  }

  /** A plottable UPDATE record maps to a pixel of the viewport. */
  lemma PixelInBounds(s: Scale, r: Record)
    requires Sane(s) && RecordPlottable(s, r) && r.cmd == Update
    ensures 0 <= XOf(s, r) <= s.w && 1 <= YOf(s, r) <= s.levelh
  {
    PixelXBounds(r.time, s.timeStart, s.timeChange, s.w);
    PixelYBounds(r.level, s.batLow, s.batChange, s.levelh);
  }

  lemma VisitInBounds(s: Scale, wk: Walk, r: Record)
    requires Sane(s) && RecordPlottable(s, r)
    requires PathsIn(s, wk.paths) && CursorIn(s, wk.cur)
    ensures PathsIn(s, Visit(s, wk, r).paths) && CursorIn(s, Visit(s, wk, r).cur)
  {
    var c := wk.cur;
    if r.cmd == Update {
      PixelInBounds(s, r);
    }
    if r.cmd == Update && XOf(s, r) != c.lastX && YOf(s, r) != c.lastY {
      VisitPlots(s, wk, r);
      PlotInBounds(s, wk, r, XOf(s, r), YOf(s, r));
    } else if r.cmd != Update && c.curLevel {
      VisitInterrupts(s, wk, r);
      InterruptInBounds(s, wk);
    } else {
      VisitSkips(s, wk, r);
    }
  }

  lemma InterruptInBounds(s: Scale, wk: Walk)
    requires Sane(s) && wk.cur.curLevel
    requires PathsIn(s, wk.paths) && CursorIn(s, wk.cur)
    ensures PathsIn(s, Interrupt(s, wk).paths) && CursorIn(s, Interrupt(s, wk).cur)
  {
    var q := FinishWalk(s, wk.cur.x + 1, wk);
    FinishInBounds(s, wk.cur.x + 1, wk);
    assert Interrupt(s, wk).paths == q;
  }

  /** Along the walk, every point stays inside the viewport (one pixel of
      slack on the right for the closing edge of an interrupted run). */
  lemma {:induction false} WalkInBounds(s: Scale, h: seq<Record>, f: nat, k: nat)
    requires f + k <= |h| && Sane(s) && Plottable(s, h, f, k)
    ensures PathsIn(s, WalkFrom(s, h, f, k).paths) && CursorIn(s, WalkFrom(s, h, f, k).cur)
    decreases k
  {
    if k > 0 {
      WalkInBounds(s, h, f, k - 1);
      VisitInBounds(s, WalkFrom(s, h, f, k - 1), h[f + k - 1]);
    }
  }

  /** Every point the builder emits lies in [0, w + 1] x [1, levelh] for the
      level curves and on the trace's own height for the flag traces, as long
      as the visited records lie inside the time and level ranges. */
  lemma BuildInBounds(h: seq<Record>, first: Option<nat>, numHist: nat, s: Scale)
    requires first.Some? ==> first.value <= |h|
    requires Sane(s) && Plottable(s, h, FirstIndex(first), VisitCount(h, first, numHist))
    ensures PathsIn(s, Build(h, first, numHist, s))
  {
    var f, k := FirstIndex(first), VisitCount(h, first, numHist);
    WalkInBounds(s, h, f, k);
    FinishInBounds(s, s.w, WalkFrom(s, h, f, k));
  }

  // ----- Fill polygons -----

  /** x of the last move in `ops`, i.e. where the current polygon started. */
  function RunStartX(ops: seq<PathOp>): int
    decreases |ops|
  {
    if ops == [] then -1
    else if ops[|ops| - 1].MoveTo? then ops[|ops| - 1].x
    else RunStartX(ops[..|ops| - 1])
  }

  /** What may follow `prev` in a fill path: a move exactly at the start of a
      polygon (first, or right after a close), and a close only after a line
      along the baseline followed by a line back to where the polygon started. */
  predicate FillStep(prev: seq<PathOp>, op: PathOp, baseline: int)
  {
    && (op.MoveTo? <==> (prev == [] || prev[|prev| - 1].Close?))
    && (op.Close? ==>
          && |prev| >= 2
          && prev[|prev| - 1] == LineTo(RunStartX(prev), baseline)
          && prev[|prev| - 2].LineTo? && prev[|prev| - 2].y == baseline)
  }

  /** `ops` is a series of polygons over the baseline: each operation may
      follow the ones before it. */
  predicate FillPolygons(ops: seq<PathOp>, baseline: int)
    decreases |ops|
  {
    ops == [] ||
      (FillPolygons(ops[..|ops| - 1], baseline) && FillStep(ops[..|ops| - 1], ops[|ops| - 1], baseline))
  }

  /** The fill path during the walk: an open polygon exactly while a run is
      active, starting at `startX`. */
  predicate FillOk(c: Cursor, level: seq<PathOp>, baseline: int)
  {
    && FillPolygons(level, baseline)
    && (c.curLevel ==> |level| > 0 && !level[|level| - 1].Close? && RunStartX(level) == c.startX)
    && (!c.curLevel ==> level == [] || level[|level| - 1].Close?)
  }

  lemma RunStartXAppend(ops: seq<PathOp>, op: PathOp)
    ensures RunStartX(ops + [op]) == if op.MoveTo? then op.x else RunStartX(ops)
  {
    assert (ops + [op])[..|ops|] == ops;
  }

  lemma FillAppend(ops: seq<PathOp>, op: PathOp, baseline: int)
    requires FillPolygons(ops, baseline) && FillStep(ops, op, baseline)
    ensures FillPolygons(ops + [op], baseline)
  {
    assert (ops + [op])[..|ops|] == ops;
  }

  /** A line continues an open polygon without moving its start. */
  lemma LineFill(l: seq<PathOp>, x: int, y: int, baseline: int)
    requires FillPolygons(l, baseline) && |l| > 0 && !l[|l| - 1].Close?
    ensures FillPolygons(l + [LineTo(x, y)], baseline)
    ensures RunStartX(l + [LineTo(x, y)]) == RunStartX(l)
  {
    assert FillStep(l, LineTo(x, y), baseline);
    FillAppend(l, LineTo(x, y), baseline);
    RunStartXAppend(l, LineTo(x, y));
  }

  lemma CloseRunFill(l: seq<PathOp>, w: int, y: int, levelh: int, startX: int, lastBatX: int)
    requires FillPolygons(l, levelh) && |l| > 0 && !l[|l| - 1].Close? && RunStartX(l) == startX
    ensures FillPolygons(CloseRun(l, w, y, levelh, startX, lastBatX), levelh)
  {
    var l1 := if 0 <= lastBatX then l + [LineTo(w, y)] else l;
    if 0 <= lastBatX {
      LineFill(l, w, y, levelh);
    }
    var l2 := l1 + [LineTo(w, levelh)];
    LineFill(l1, w, levelh, levelh);
    var l3 := l2 + [LineTo(startX, levelh)];
    LineFill(l2, startX, levelh, levelh);
    assert FillStep(l3, Close, levelh);
    FillAppend(l3, Close, levelh);
    assert CloseRun(l, w, y, levelh, startX, lastBatX) == l3 + [Close];
  }

  lemma FinishFill(s: Scale, closeX: int, wk: Walk)
    requires FillOk(wk.cur, wk.paths.level, s.levelh)
    ensures var q := FinishWalk(s, closeX, wk).level;
      FillPolygons(q, s.levelh) && (q == [] || q[|q| - 1].Close?)
  {
    var c := wk.cur;
    if c.curLevel {
      CloseRunFill(wk.paths.level, closeX, c.lastY, s.levelh, c.startX, c.lastBatX);
    }
  }

  /** Plotting starts a polygon at a move or continues it with a line. */
  lemma PlotFill(s: Scale, wk: Walk, r: Record, x: int, y: int)
    requires FillOk(wk.cur, wk.paths.level, s.levelh)
    ensures FillOk(Plot(s, wk, r, x, y).cur, Plot(s, wk, r, x, y).paths.level, s.levelh)
  {
    var l := wk.paths.level;
    var op := if wk.cur.curLevel then LineTo(x, y) else MoveTo(x, y);
    FillAppend(l, op, s.levelh);
    RunStartXAppend(l, op);
    assert Plot(s, wk, r, x, y).paths.level == l + [op];
  }

  /** An interrupted run leaves its polygon closed. */
  lemma InterruptFill(s: Scale, wk: Walk)
    requires FillOk(wk.cur, wk.paths.level, s.levelh) && wk.cur.curLevel
    ensures FillOk(Interrupt(s, wk).cur, Interrupt(s, wk).paths.level, s.levelh)
  {
    FinishFill(s, wk.cur.x + 1, wk);
    assert Interrupt(s, wk).paths == FinishWalk(s, wk.cur.x + 1, wk);
  }

  lemma VisitFill(s: Scale, wk: Walk, r: Record)
    requires Defined(s) && FillOk(wk.cur, wk.paths.level, s.levelh)
    ensures FillOk(Visit(s, wk, r).cur, Visit(s, wk, r).paths.level, s.levelh)
  {
    var c := wk.cur;
    if r.cmd == Update && XOf(s, r) != c.lastX && YOf(s, r) != c.lastY {
      VisitPlots(s, wk, r);
      PlotFill(s, wk, r, XOf(s, r), YOf(s, r));
    } else if r.cmd != Update && c.curLevel {
      VisitInterrupts(s, wk, r);
      InterruptFill(s, wk);
    } else {
      VisitSkips(s, wk, r);
    }
  }

  lemma {:induction false} WalkFill(s: Scale, h: seq<Record>, f: nat, k: nat)
    requires f + k <= |h| && (k > 0 ==> Defined(s))
    ensures FillOk(WalkFrom(s, h, f, k).cur, WalkFrom(s, h, f, k).paths.level, s.levelh)
    decreases k
  {
    if k > 0 {
      WalkFill(s, h, f, k - 1);
      VisitFill(s, WalkFrom(s, h, f, k - 1), h[f + k - 1]);
    }
  }

  /** The finished fill path is a series of closed polygons, each brought down
      to the baseline and back to the x where its run started. */
  lemma BuildFillClosed(h: seq<Record>, first: Option<nat>, numHist: nat, s: Scale)
    requires first.Some? ==> first.value <= |h| && Defined(s)
    ensures var l := Build(h, first, numHist, s).level;
      FillPolygons(l, s.levelh) && (l == [] || l[|l| - 1].Close?)
  {
    var f, k := FirstIndex(first), VisitCount(h, first, numHist);
    WalkFill(s, h, f, k);
    FinishFill(s, s.w, WalkFrom(s, h, f, k));
  }

  // ----- Flag traces -----

  /** A step trace at height `y`: moves and lines alternate, starting with a
      move; it ends on a move exactly while the flag is on. */
  predicate StepTrace(ops: seq<PathOp>, y: int, on: bool)
  {
    && (forall k :: 0 <= k < |ops| ==> !ops[k].Close? && ops[k].y == y && (ops[k].MoveTo? <==> k % 2 == 0))
    && (on <==> |ops| % 2 == 1)
  }

  predicate TracesOk(s: Scale, c: Cursor, p: Paths)
  {
    && StepTrace(p.charging, s.chargingY, c.lastCharging)
    && StepTrace(p.screenOn, s.screenOnY, c.lastScreenOn)
    && (c.lastCharging ==> c.curLevel)
    && (c.lastScreenOn ==> c.curLevel)
  }

  lemma TraceAppend(ops: seq<PathOp>, y: int, on: bool, op: PathOp)
    requires StepTrace(ops, y, on)
    requires !op.Close? && op.y == y && (op.MoveTo? <==> !on)
    ensures StepTrace(ops + [op], y, !on)
  {
  }

  /** Plotting steps each trace whose flag changed. */
  lemma PlotTraces(s: Scale, wk: Walk, r: Record, x: int, y: int)
    requires TracesOk(s, wk.cur, wk.paths)
    ensures TracesOk(s, Plot(s, wk, r, x, y).cur, Plot(s, wk, r, x, y).paths)
  {
    var c, p := wk.cur, wk.paths;
    if r.plugged != c.lastCharging {
      TraceAppend(p.charging, s.chargingY, c.lastCharging, if r.plugged then MoveTo(x, s.chargingY) else LineTo(x, s.chargingY));
    }
    if r.screenOn != c.lastScreenOn {
      TraceAppend(p.screenOn, s.screenOnY, c.lastScreenOn, if r.screenOn then MoveTo(x, s.screenOnY) else LineTo(x, s.screenOnY));
    }
  }

  /** An interrupted run ends both traces. */
  lemma InterruptTraces(s: Scale, wk: Walk)
    requires TracesOk(s, wk.cur, wk.paths) && wk.cur.curLevel
    ensures TracesOk(s, Interrupt(s, wk).cur, Interrupt(s, wk).paths)
  {
    var c, p := wk.cur, wk.paths;
    FinishExtends(p, c.x + 1, s.chargingY, s.screenOnY, s.levelh, c.startX, c.lastY, c.curLevel,
                  c.lastBatX, c.lastCharging, c.lastScreenOn, c.lastLine);
    if c.lastCharging {
      TraceAppend(p.charging, s.chargingY, true, LineTo(c.x + 1, s.chargingY));
    }
    if c.lastScreenOn {
      TraceAppend(p.screenOn, s.screenOnY, true, LineTo(c.x + 1, s.screenOnY));
    }
  }

  lemma VisitTraces(s: Scale, wk: Walk, r: Record)
    requires Defined(s) && TracesOk(s, wk.cur, wk.paths)
    ensures TracesOk(s, Visit(s, wk, r).cur, Visit(s, wk, r).paths)
  {
    var c := wk.cur;
    if r.cmd == Update && XOf(s, r) != c.lastX && YOf(s, r) != c.lastY {
      VisitPlots(s, wk, r);
      PlotTraces(s, wk, r, XOf(s, r), YOf(s, r));
    } else if r.cmd != Update && c.curLevel {
      VisitInterrupts(s, wk, r);
      InterruptTraces(s, wk);
    } else {
      VisitSkips(s, wk, r);
    }
  }

  lemma {:induction false} WalkTraces(s: Scale, h: seq<Record>, f: nat, k: nat)
    requires f + k <= |h| && (k > 0 ==> Defined(s))
    ensures TracesOk(s, WalkFrom(s, h, f, k).cur, WalkFrom(s, h, f, k).paths)
    decreases k
  {
    if k > 0 {
      WalkTraces(s, h, f, k - 1);
      VisitTraces(s, WalkFrom(s, h, f, k - 1), h[f + k - 1]);
    }
  }

  /** Once built, each flag trace is a series of closed on-intervals: every
      move (flag turned on) is followed by a line (flag turned off, run
      interrupted or end of chart) at the same height. */
  lemma BuildTracesClosed(h: seq<Record>, first: Option<nat>, numHist: nat, s: Scale)
    requires first.Some? ==> first.value <= |h| && Defined(s)
    ensures var p := Build(h, first, numHist, s);
      StepTrace(p.charging, s.chargingY, false) && StepTrace(p.screenOn, s.screenOnY, false)
  {
    var f, k := FirstIndex(first), VisitCount(h, first, numHist);
    WalkTraces(s, h, f, k);
    var wk := WalkFrom(s, h, f, k);
    if wk.cur.lastCharging {
      TraceAppend(wk.paths.charging, s.chargingY, true, LineTo(s.w, s.chargingY));
    }
    if wk.cur.lastScreenOn {
      TraceAppend(wk.paths.screenOn, s.screenOnY, true, LineTo(s.w, s.screenOnY));
    }
  }

  // ----- Band strokes -----

  /** Every band stroke starts with a move, and the band in use has one. */
  predicate BandsOk(c: Cursor, p: Paths)
  {
    && (forall b :: BandPath(p, b) == [] || BandPath(p, b)[0].MoveTo?)
    && (c.lastLine.Some? ==> BandPath(p, c.lastLine.value) != [])
  }

  /** One band's stroke after plotting keeps starting with a move, and the
      plotted band's stroke is not empty. */
  lemma StrokeOfBands(ops: seq<PathOp>, c: Band, lastLine: Option<Band>, b: Band, x: int, y: int)
    requires ops == [] || ops[0].MoveTo?
    requires lastLine == Some(c) ==> ops != []
    ensures var o := StrokeOf(ops, c, lastLine, b, x, y);
      (o == [] || o[0].MoveTo?) && (c == b ==> o != [])
  {
    var o := StrokeOf(ops, c, lastLine, b, x, y);
    if ops != [] && o != ops {
      assert o[0] == ops[0];
    }
  }

  lemma PlotBands(s: Scale, wk: Walk, r: Record, x: int, y: int)
    requires BandsOk(wk.cur, wk.paths)
    ensures BandsOk(Plot(s, wk, r, x, y).cur, Plot(s, wk, r, x, y).paths)
  {
    var c, p := wk.cur, wk.paths;
    var b := BandOf(r.level);
    assert BandPath(p, Good) == p.good && BandPath(p, Warn) == p.warn && BandPath(p, Critical) == p.critical;
    StrokeOfBands(p.good, Good, c.lastLine, b, x, y);
    StrokeOfBands(p.warn, Warn, c.lastLine, b, x, y);
    StrokeOfBands(p.critical, Critical, c.lastLine, b, x, y);
    var q := Plot(s, wk, r, x, y).paths;
    assert q.good == StrokeOf(p.good, Good, c.lastLine, b, x, y);
    assert q.warn == StrokeOf(p.warn, Warn, c.lastLine, b, x, y);
    assert q.critical == StrokeOf(p.critical, Critical, c.lastLine, b, x, y);
  }

  lemma InterruptBands(s: Scale, wk: Walk)
    requires BandsOk(wk.cur, wk.paths) && wk.cur.curLevel
    ensures BandsOk(Interrupt(s, wk).cur, Interrupt(s, wk).paths)
  {
    var c, p := wk.cur, wk.paths;
    FinishExtends(p, c.x + 1, s.chargingY, s.screenOnY, s.levelh, c.startX, c.lastY, c.curLevel,
                  c.lastBatX, c.lastCharging, c.lastScreenOn, c.lastLine);
    var q := Interrupt(s, wk).paths;
    forall b ensures BandPath(q, b) == [] || BandPath(q, b)[0].MoveTo?
    {
      if BandPath(q, b) != BandPath(p, b) {
        assert BandPath(q, b)[0] == BandPath(p, b)[0];
      }
    }
  }

  lemma VisitBands(s: Scale, wk: Walk, r: Record)
    requires Defined(s) && BandsOk(wk.cur, wk.paths)
    ensures BandsOk(Visit(s, wk, r).cur, Visit(s, wk, r).paths)
  {
    var c := wk.cur;
    if r.cmd == Update && XOf(s, r) != c.lastX && YOf(s, r) != c.lastY {
      VisitPlots(s, wk, r);
      PlotBands(s, wk, r, XOf(s, r), YOf(s, r));
    } else if r.cmd != Update && c.curLevel {
      VisitInterrupts(s, wk, r);
      InterruptBands(s, wk);
    } else {
      VisitSkips(s, wk, r);
    }
  }

  lemma {:induction false} WalkBands(s: Scale, h: seq<Record>, f: nat, k: nat)
    requires f + k <= |h| && (k > 0 ==> Defined(s))
    ensures BandsOk(WalkFrom(s, h, f, k).cur, WalkFrom(s, h, f, k).paths)
    decreases k
  {
    if k > 0 {
      WalkBands(s, h, f, k - 1);
      VisitBands(s, WalkFrom(s, h, f, k - 1), h[f + k - 1]);
    }
  }

  /** A run is open exactly while a band is in use, and the stroke of the
      band in use ends on the last plotted point (`lastX`, `lastY`). */
  predicate BandAtLast(c: Cursor, p: Paths)
  {
    && (c.curLevel <==> c.lastLine.Some?)
    && (c.lastLine.Some? ==>
          var ops := BandPath(p, c.lastLine.value);
          && ops != [] && !ops[|ops| - 1].Close?
          && ops[|ops| - 1].x == c.lastX && ops[|ops| - 1].y == c.lastY)
  }

  lemma {:induction false} WalkBandAtLast(s: Scale, h: seq<Record>, f: nat, k: nat)
    requires f + k <= |h| && (k > 0 ==> Defined(s))
    ensures BandAtLast(WalkFrom(s, h, f, k).cur, WalkFrom(s, h, f, k).paths)
    decreases k
  {
    if k > 0 {
      WalkBandAtLast(s, h, f, k - 1);
      var a, r := WalkFrom(s, h, f, k - 1), h[f + k - 1];
      var c := a.cur;
      if r.cmd == Update && XOf(s, r) != c.lastX && YOf(s, r) != c.lastY {
        VisitPlots(s, a, r);
        StrokeJoins(a.paths, c.lastLine, BandOf(r.level), XOf(s, r), YOf(s, r));
      } else if r.cmd != Update && c.curLevel {
        VisitInterrupts(s, a, r);
      } else {
        VisitSkips(s, a, r);
      }
    }
  }

  /** Inside a run, a plotted record draws the segment from the previous
      plotted point to the new one on the band stroke that was in use, and on
      that stroke only: a new band's stroke starts with a move to the new
      point, and the third band's stroke is left alone. */
  lemma BandSegmentJoins(s: Scale, h: seq<Record>, f: nat, k: nat)
    requires f + k < |h| && Defined(s)
    ensures var a, q, r := WalkFrom(s, h, f, k), WalkFrom(s, h, f, k + 1).paths, h[f + k];
      var c, x, y := a.cur, XOf(s, r), YOf(s, r);
      c.curLevel && r.cmd == Update && x != c.lastX && y != c.lastY ==>
        && c.lastLine.Some?
        && (var was, b := BandPath(a.paths, c.lastLine.value), BandOf(r.level);
            && was != [] && !was[|was| - 1].Close?
            && was[|was| - 1].x == c.lastX && was[|was| - 1].y == c.lastY
            && BandPath(q, c.lastLine.value) == was + [LineTo(x, y)]
            && (b != c.lastLine.value ==> BandPath(q, b) == BandPath(a.paths, b) + [MoveTo(x, y)])
            && (forall d :: d != b && d != c.lastLine.value ==> BandPath(q, d) == BandPath(a.paths, d)))
  {
    var a, r := WalkFrom(s, h, f, k), h[f + k];
    var c := a.cur;
    WalkBandAtLast(s, h, f, k);
    if c.curLevel && r.cmd == Update && XOf(s, r) != c.lastX && YOf(s, r) != c.lastY {
      VisitPlots(s, a, r);
      StrokeJoins(a.paths, c.lastLine, BandOf(r.level), XOf(s, r), YOf(s, r));
    }
  }

  /** Every finished band stroke is empty or starts with a move. */
  lemma BuildBandsStartWithMove(h: seq<Record>, first: Option<nat>, numHist: nat, s: Scale)
    requires first.Some? ==> first.value <= |h| && Defined(s)
    ensures forall b :: BandPath(Build(h, first, numHist, s), b) == [] || BandPath(Build(h, first, numHist, s), b)[0].MoveTo?
  {
    var f, k := FirstIndex(first), VisitCount(h, first, numHist);
    WalkBands(s, h, f, k);
    var wk := WalkFrom(s, h, f, k);
    var q := Build(h, first, numHist, s);
    forall b ensures BandPath(q, b) == [] || BandPath(q, b)[0].MoveTo?
    {
      if BandPath(wk.paths, b) != [] {
        assert BandPath(q, b)[0] == BandPath(wk.paths, b)[0];
      }
    }
  }

  // ----- Runs without a plotted record -----

  /** Control records alone draw nothing. */
  lemma {:induction false} NoUpdateNoWalk(s: Scale, h: seq<Record>, f: nat, k: nat)
    requires f + k <= |h| && (k > 0 ==> Defined(s))
    requires forall j :: f <= j < f + k ==> h[j].cmd != Update
    ensures WalkFrom(s, h, f, k) == Walk(Initial, Reset)
    decreases k
  {
    if k > 0 {
      NoUpdateNoWalk(s, h, f, k - 1);
    }
  }
}
