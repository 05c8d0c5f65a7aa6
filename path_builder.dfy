/** The path builder of `onSizeChanged` and `finishPaths`, as functions: one
    loop iteration (`Visit`), the closing of a run (`Finish`), the walk over
    the visited records (`WalkFrom`) and the six paths it leaves (`Build`). */
module PathBuilder {
  import opened Geometry

  /** The six paths: level fill polygon, three band strokes, two flag traces. */
  datatype Paths = Paths(level: seq<PathOp>, good: seq<PathOp>, warn: seq<PathOp>,
                         critical: seq<PathOp>, charging: seq<PathOp>, screenOn: seq<PathOp>)

  /** All six paths after `reset()`. */
  const Reset: Paths := Paths([], [], [], [], [], [])

  /** The stroke path of a band. */
  function BandPath(p: Paths, b: Band): seq<PathOp>
  {
    match b
    case Critical => p.critical
    case Warn => p.warn
    case Good => p.good
  }

  /** Appends `op` to the stroke path of band `b` and to no other path. */
  function AppendToBand(p: Paths, b: Band, op: PathOp): Paths
  {
    match b
    case Critical => p.(critical := p.critical + [op])
    case Warn => p.(warn := p.warn + [op])
    case Good => p.(good := p.good + [op])
  }

  /** The viewport and scale the builder works with: width `w`, height `h`,
      level height `levelh`, the heights of the two flag traces, and the
      time and level ranges that are mapped onto the viewport. */
  datatype Scale = Scale(w: int, h: int, levelh: int, chargingY: int, screenOnY: int,
                         timeStart: int, timeChange: int, batLow: int, batChange: int)

  /** Both divisors of the pixel mapping are non-zero. */
  predicate Defined(s: Scale)
  {
    s.timeChange != 0 && s.batChange != 0
  }

  function XOf(s: Scale, r: Record): int
    requires Defined(s)
  {
    PixelX(r.time, s.timeStart, s.timeChange, s.w)
  }

  function YOf(s: Scale, r: Record): int
    requires Defined(s)
  {
    PixelY(r.level, s.batLow, s.batChange, s.levelh)
  }

  /** The local variables of the loop: the last computed `x`, `startX`,
      `lastX`, `lastY`, `lastBatX`, whether `curLevelPath` is set, which band
      `lastLinePath` is, and the last seen charging and screen-on flags. */
  datatype Cursor = Cursor(x: int, startX: int, lastX: int, lastY: int, lastBatX: int,
                           curLevel: bool, lastLine: Option<Band>,
                           lastCharging: bool, lastScreenOn: bool)

  /** The loop variables before the first record. */
  const Initial: Cursor := Cursor(0, 0, -1, -1, -1, false, None, false, false)

  datatype Walk = Walk(cur: Cursor, paths: Paths)

  /** Every path of `q` continues the same path of `p`: between two resets the
      builder only ever appends. */
  predicate Grows(p: Paths, q: Paths)
  {
    && p.level <= q.level && p.good <= q.good && p.warn <= q.warn && p.critical <= q.critical
    && p.charging <= q.charging && p.screenOn <= q.screenOn
  }

  /** The fill polygon of a run closed at `w`: the pending flat tail at `y`, then
      down to the baseline `levelh`, back to `startX`, and closed. */
  function CloseRun(level: seq<PathOp>, w: int, y: int, levelh: int, startX: int, lastBatX: int): (l: seq<PathOp>)
  {
    var tail := if 0 <= lastBatX then level + [LineTo(w, y)] else level;
    tail + [LineTo(w, levelh)] + [LineTo(startX, levelh)] + [Close]
  }

  /** `finishPaths`: closes the fill polygon of an open run at `w` (after the
      pending flat tail, also drawn on the last band path), and extends an open
      charging or screen-on trace to `w`. */
  function Finish(p: Paths, w: int, chargingY: int, screenOnY: int, levelh: int, startX: int,
                  y: int, curLevel: bool, lastBatX: int, lastCharging: bool, lastScreenOn: bool,
                  lastPath: Option<Band>): Paths
  {
    var p1 :=
      if curLevel then
        var q1 := if 0 <= lastBatX && lastPath.Some? then AppendToBand(p, lastPath.value, LineTo(w, y)) else p;
        q1.(level := CloseRun(q1.level, w, y, levelh, startX, lastBatX))
      else p;
    var p2 := if lastCharging then p1.(charging := p1.charging + [LineTo(w, chargingY)]) else p1;
    if lastScreenOn then p2.(screenOn := p2.screenOn + [LineTo(w, screenOnY)]) else p2
  }

  /** `finishPaths` closes the fill polygon of an open run, extends each open
      flag trace to `w`, and otherwise only appends: of the band strokes it
      extends only the one in use, and only with the pending flat tail. */
  lemma FinishExtends(p: Paths, w: int, chargingY: int, screenOnY: int, levelh: int, startX: int,
                      y: int, curLevel: bool, lastBatX: int, lastCharging: bool, lastScreenOn: bool,
                      lastPath: Option<Band>)
    ensures var q := Finish(p, w, chargingY, screenOnY, levelh, startX, y, curLevel, lastBatX,
                            lastCharging, lastScreenOn, lastPath);
      && q.level == (if curLevel then CloseRun(p.level, w, y, levelh, startX, lastBatX) else p.level)
      && q.charging == (if lastCharging then p.charging + [LineTo(w, chargingY)] else p.charging)
      && q.screenOn == (if lastScreenOn then p.screenOn + [LineTo(w, screenOnY)] else p.screenOn)
      && Grows(p, q)
      && forall b :: BandPath(q, b) ==
           if curLevel && 0 <= lastBatX && lastPath == Some(b) then BandPath(p, b) + [LineTo(w, y)] else BandPath(p, b)
  {
  }

  /** `Finish` applied to the loop variables, closing at `closeX`. */
  function FinishWalk(s: Scale, closeX: int, wk: Walk): Paths
  {
    var c := wk.cur;
    Finish(wk.paths, closeX, s.chargingY, s.screenOnY, s.levelh, c.startX, c.lastY, c.curLevel,
           c.lastBatX, c.lastCharging, c.lastScreenOn, c.lastLine)
  }

  /** Step trace of a flag: a move when it turns on, a line when it turns off. */
  function Edge(ops: seq<PathOp>, was: bool, now: bool, x: int, y: int): seq<PathOp>
  {
    if now == was then ops else if now then ops + [MoveTo(x, y)] else ops + [LineTo(x, y)]
  }

  /** One band's stroke after plotting (x, y) in band `b`: band `b`'s stroke
      continues to (x, y), or starts there when it was not in use; the stroke
      that was in use ends at (x, y); every other stroke is left alone. */
  function StrokeOf(ops: seq<PathOp>, c: Band, lastLine: Option<Band>, b: Band, x: int, y: int): seq<PathOp>
  {
    if c == b then ops + [if lastLine == Some(b) then LineTo(x, y) else MoveTo(x, y)]
    else if lastLine == Some(c) then ops + [LineTo(x, y)]
    else ops
  }

  /** The three band strokes after plotting (x, y) in band `b`. */
  function Stroke(p: Paths, lastLine: Option<Band>, b: Band, x: int, y: int): Paths
  {
    p.(good := StrokeOf(p.good, Good, lastLine, b, x, y),
       warn := StrokeOf(p.warn, Warn, lastLine, b, x, y),
       critical := StrokeOf(p.critical, Critical, lastLine, b, x, y))
  }

  /** Band by band: the plotted band's stroke gets (x, y), as a line when it
      was in use and as a move otherwise; on a switch, the stroke that was in
      use ends at the same point; the third band and the other paths are
      left alone. */
  lemma StrokeJoins(p: Paths, lastLine: Option<Band>, b: Band, x: int, y: int)
    ensures var q := Stroke(p, lastLine, b, x, y);
      && BandPath(q, b) == BandPath(p, b) + [if lastLine == Some(b) then LineTo(x, y) else MoveTo(x, y)]
      && (lastLine.Some? && lastLine.value != b ==>
            BandPath(q, lastLine.value) == BandPath(p, lastLine.value) + [LineTo(x, y)])
      && (forall d :: d != b && lastLine != Some(d) ==> BandPath(q, d) == BandPath(p, d))
      && q.level == p.level && q.charging == p.charging && q.screenOn == p.screenOn
  {
  }

  /** The paths after plotting record `r` at (x, y): the band strokes as
      `Stroke` says, the fill polygon starts or continues there, and each flag
      trace steps where its flag changed. */
  function PlotPaths(p: Paths, lastLine: Option<Band>, curLevel: bool, lastCharging: bool, lastScreenOn: bool,
                     r: Record, x: int, y: int, chargingY: int, screenOnY: int): Paths
  {
    Stroke(p, lastLine, BandOf(r.level), x, y).(
      level := p.level + [if curLevel then LineTo(x, y) else MoveTo(x, y)],
      charging := Edge(p.charging, lastCharging, r.plugged, x, chargingY),
      screenOn := Edge(p.screenOn, lastScreenOn, r.screenOn, x, screenOnY))
  }

  /** A record that moved the curve to a new column and a new height is
      plotted at (x, y), and becomes the last plotted point of the run. */
  function Plot(s: Scale, wk: Walk, r: Record, x: int, y: int): (next: Walk)
  {
    var c := wk.cur;
    Walk(Cursor(x, if c.curLevel then c.startX else x, x, y, -1, true, Some(BandOf(r.level)), r.plugged, r.screenOn),
         PlotPaths(wk.paths, c.lastLine, c.curLevel, c.lastCharging, c.lastScreenOn, r, x, y, s.chargingY, s.screenOnY))
  }

  /** A control record inside a run: the run is finished one pixel right of
      the last computed x and every run variable is reset. */
  function Interrupt(s: Scale, wk: Walk): Walk
  {
    var c := wk.cur;
    Walk(c.(lastX := -1, lastY := -1, lastBatX := -1, curLevel := false, lastLine := None,
            lastCharging := false, lastScreenOn := false),
         FinishWalk(s, c.x + 1, wk))
  }

  /** One iteration of the loop of `onSizeChanged`. */
  function Visit(s: Scale, wk: Walk, r: Record): (next: Walk)
    requires Defined(s)
  {
    var c := wk.cur;
    if r.cmd == Update then
      var x, y := XOf(s, r), YOf(s, r);
      if c.lastX == x then Walk(c.(x := x), wk.paths)
      else if c.lastY == y then Walk(c.(x := x, lastBatX := x), wk.paths)
      else Plot(s, wk, r, x, y)
    else if c.curLevel then Interrupt(s, wk)
    else wk
  }

  /** Plotting a point only appends to the paths. */
  lemma PlotGrows(s: Scale, wk: Walk, r: Record, x: int, y: int)
    ensures Grows(wk.paths, Plot(s, wk, r, x, y).paths)
  {
  }

  /** A visit only ever appends to the paths. */
  lemma VisitGrows(s: Scale, wk: Walk, r: Record)
    requires Defined(s)
    ensures Grows(wk.paths, Visit(s, wk, r).paths)
  {
    var c := wk.cur;
    if r.cmd == Update && XOf(s, r) != c.lastX && YOf(s, r) != c.lastY {
      VisitPlots(s, wk, r);
      PlotGrows(s, wk, r, XOf(s, r), YOf(s, r));
    } else if r.cmd != Update && c.curLevel {
      VisitInterrupts(s, wk, r);
      FinishExtends(wk.paths, c.x + 1, s.chargingY, s.screenOnY, s.levelh, c.startX, c.lastY, c.curLevel,
                    c.lastBatX, c.lastCharging, c.lastScreenOn, c.lastLine);
    } else {
      VisitSkips(s, wk, r);
      assert Visit(s, wk, r).paths == wk.paths;
    }
  }

  /** A control record outside a run is ignored; an UPDATE record on the
      column last plotted only moves `x`; one on a new column at the height
      last plotted is only remembered as the end of a flat tail. */
  lemma VisitSkips(s: Scale, wk: Walk, r: Record)
    requires Defined(s)
    ensures r.cmd != Update && !wk.cur.curLevel ==> Visit(s, wk, r) == wk
    ensures r.cmd == Update && XOf(s, r) == wk.cur.lastX ==>
      Visit(s, wk, r) == Walk(wk.cur.(x := XOf(s, r)), wk.paths)
    ensures r.cmd == Update && XOf(s, r) != wk.cur.lastX && YOf(s, r) == wk.cur.lastY ==>
      Visit(s, wk, r) == Walk(wk.cur.(x := XOf(s, r), lastBatX := XOf(s, r)), wk.paths)
  {
  }

  /** A record on a new column and a new height is plotted. */
  lemma VisitPlots(s: Scale, wk: Walk, r: Record)
    requires Defined(s) && r.cmd == Update && XOf(s, r) != wk.cur.lastX && YOf(s, r) != wk.cur.lastY
    ensures Visit(s, wk, r) == Plot(s, wk, r, XOf(s, r), YOf(s, r))
  {
  }

  /** A control record inside a run interrupts it. */
  lemma VisitInterrupts(s: Scale, wk: Walk, r: Record)
    requires Defined(s) && r.cmd != Update && wk.cur.curLevel
    ensures Visit(s, wk, r) == Interrupt(s, wk)
  {
  }

  /** The loop of `onSizeChanged` over the `k` records of `h` from index `f`,
      starting from the reset state. */
  function WalkFrom(s: Scale, h: seq<Record>, f: nat, k: nat): Walk
    requires f + k <= |h| && (k > 0 ==> Defined(s))
    decreases k
  {
    if k == 0 then Walk(Initial, Reset)
    else Visit(s, WalkFrom(s, h, f, k - 1), h[f + k - 1])
  }

  /** Where the loop starts: `mHistFirst`, or nowhere (no record is visited). */
  function FirstIndex(first: Option<nat>): nat
  {
    if first.Some? then first.value else 0
  }

  /** How many records the loop visits: from `mHistFirst` on, at most
      `mNumHist` of them, and none past the end of the list. */
  function VisitCount(h: seq<Record>, first: Option<nat>, numHist: nat): (k: nat)
    requires first.Some? ==> first.value <= |h|
    ensures k <= numHist && FirstIndex(first) + k <= |h|
    ensures first.None? ==> k == 0
    ensures first.Some? ==> (k == numHist || first.value + k == |h|)
  {
    match first
    case None => 0
    case Some(f) => if f + numHist <= |h| then numHist else |h| - f
  }

  /** Once the walk is known, the build is its final finish at `w`. */
  lemma BuildFromWalk(h: seq<Record>, first: Option<nat>, numHist: nat, s: Scale, p: Paths, c: Cursor,
                      w: int, chargingY: int, screenOnY: int, levelh: int, q: Paths)
    requires first.Some? ==> first.value <= |h| && Defined(s)
    requires Walk(c, p) == WalkFrom(s, h, FirstIndex(first), VisitCount(h, first, numHist))
    requires s.w == w && s.chargingY == chargingY && s.screenOnY == screenOnY && s.levelh == levelh
    requires q == Finish(p, w, chargingY, screenOnY, levelh, c.startX, c.lastY,
                         c.curLevel, c.lastBatX, c.lastCharging, c.lastScreenOn, c.lastLine)
    ensures q == Build(h, first, numHist, s)
  {
  }

  /** The six paths `onSizeChanged` leaves: the walk, then a final finish at `w`. */
  function Build(h: seq<Record>, first: Option<nat>, numHist: nat, s: Scale): Paths
    requires first.Some? ==> first.value <= |h| && Defined(s)
  {
    FinishWalk(s, s.w, WalkFrom(s, h, FirstIndex(first), VisitCount(h, first, numHist)))
  }
}
