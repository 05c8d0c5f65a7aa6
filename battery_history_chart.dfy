/** The chart view itself: the fields `setStats` fills in, the six paths
    `onSizeChanged` rebuilds in place, and the three methods, each proved
    against the specification function of its module. */
module BatteryChart {
  import opened Geometry
  import opened HistoryScan
  import opened PathBuilder

  class BatteryHistoryChart {
    /** Vertical offsets of the screen-on trace, the charging trace and the
        level baseline from the bottom of the view, in multiples of the line width. */
    const screenOnOffset: int
    const chargingOffset: int
    const levelOffset: int

    /** The history list reachable from `mHistFirst`. */
    var history: seq<Record>
    var histFirst: Option<nat>
    var histStart: int
    var histEnd: int
    var numHist: nat
    var batLow: int
    var batHigh: int

    var batLevelPath: seq<PathOp>
    var batGoodPath: seq<PathOp>
    var batWarnPath: seq<PathOp>
    var batCriticalPath: seq<PathOp>
    var chargingPath: seq<PathOp>
    var screenOnPath: seq<PathOp>

    /** The six path fields as one value. */
    function CurrentPaths(): Paths
      reads this`batLevelPath, this`batGoodPath, this`batWarnPath, this`batCriticalPath, this`chargingPath, this`screenOnPath
    {
      Paths(batLevelPath, batGoodPath, batWarnPath, batCriticalPath, chargingPath, screenOnPath)
    }

    /** The fields `setStats` computes. */
    function Range(): HistRange
      reads this`histFirst, this`histStart, this`histEnd, this`numHist, this`batLow, this`batHigh
    {
      HistRange(histFirst, histStart, histEnd, numHist, batLow, batHigh)
    }

    /** The scale `onSizeChanged` derives from the view size and the fields. */
    function ScaleOf(w: int, h: int): Scale
      reads this`histStart, this`histEnd, this`batLow, this`batHigh
    {
      Scale(w, h, h - levelOffset, h - chargingOffset, h - screenOnOffset,
            histStart, histEnd - histStart, batLow, batHigh - batLow)
    }

    /** `mHistFirst` points into the history, and whenever there is a record
        to plot, both divisors of the pixel mapping are non-zero. */
    predicate Valid()
      reads this`history, this`histFirst, this`histStart, this`histEnd, this`batLow, this`batHigh
    {
      histFirst.Some? ==> histFirst.value < |history| && histStart < histEnd && batLow < batHigh
    }

    /** A new view: the line width (at least one pixel) sets the trace offsets;
        no history, every time and level field at Java's default 0, and empty
        paths. */
    constructor(lineWidth: int)
      ensures var lw := if lineWidth <= 0 then 1 else lineWidth;
        screenOnOffset == lw && chargingOffset == 2 * lw && levelOffset == 3 * lw
      ensures history == [] && histFirst.None? && numHist == 0
      ensures histStart == 0 && histEnd == 0 && batLow == 0 && batHigh == 0
      ensures CurrentPaths() == Reset
      ensures Valid()
    {
      var lw := lineWidth;
      if lw <= 0 {
        lw := 1;
      }
      screenOnOffset := lw;
      chargingOffset := lw * 2;
      levelOffset := lw * 3;
      history := [];
      histFirst := None;
      histStart, histEnd, numHist := 0, 0, 0;
      batLow, batHigh := 0, 0;
      batLevelPath, batGoodPath, batWarnPath, batCriticalPath := [], [], [], [];
      chargingPath, screenOnPath := [], [];
    }

    /** `setStats`: one pass over the history, leaving the fields `Reduce`
        describes; the paths are outside its frame, so they are not touched. */
    method SetStats(stats: seq<Record>)
      modifies this`history, this`histFirst, this`histStart, this`histEnd, this`numHist, this`batLow, this`batHigh
      ensures history == stats
      ensures Range() == Reduce(stats, old(histStart), old(histEnd))
      ensures Valid()
    {
      history := stats;
      histFirst := None;
      var pos: nat := 0;
      var lastInteresting: nat := 0;
      var lastLevel := -1;
      batLow := 0;
      batHigh := 100;
      ghost var start0, end0 := histStart, histEnd;
      while pos < |stats|
        invariant pos <= |stats|
        invariant history == stats && batLow == 0 && batHigh == 100
        invariant Scan(histFirst, histStart, histEnd, lastInteresting, lastLevel) == ScanFrom(stats[..pos], start0, end0)
      {
        var rec := stats[pos];
        ScanStep(stats, pos, start0, end0);
        pos := pos + 1;
        if rec.cmd == Update {
          if histFirst.None? {
            histFirst := Some(pos - 1);
            histStart := rec.time;
          }
          if rec.level != lastLevel || pos == 1 {
            lastLevel := rec.level;
            lastInteresting := pos;
            histEnd := rec.time;
          }
        }
      }
      assert stats[..pos] == stats;
      numHist := lastInteresting;
      if histEnd <= histStart {
        histEnd := histStart + 1;
      }
    }

    /** Appends `op` to the stroke path of band `b`. */
    method AppendBand(b: Band, op: PathOp)
      modifies this`batLevelPath, this`batGoodPath, this`batWarnPath, this`batCriticalPath, this`chargingPath, this`screenOnPath
      ensures CurrentPaths() == AppendToBand(old(CurrentPaths()), b, op)
    {
      match b
      case Critical => batCriticalPath := batCriticalPath + [op];
      case Warn => batWarnPath := batWarnPath + [op];
      case Good => batGoodPath := batGoodPath + [op];
    }

    /** The band strokes after plotting (x, y) in band `path`: a band switch
        ends the stroke in use there and starts `path`'s stroke. */
    method StrokeBands(path: Band, lastLine: Option<Band>, x: int, y: int)
      modifies this`batLevelPath, this`batGoodPath, this`batWarnPath, this`batCriticalPath, this`chargingPath, this`screenOnPath
      ensures CurrentPaths() == Stroke(old(CurrentPaths()), lastLine, path, x, y)
    {
      if Some(path) != lastLine {
        if lastLine.Some? {
          AppendBand(lastLine.value, LineTo(x, y));
        }
        AppendBand(path, MoveTo(x, y));
      } else {
        AppendBand(path, LineTo(x, y));
      }
    }

    /** Steps each flag trace at column `x` where its flag changed: a move
        where it turned on, a line where it turned off. */
    method StepTraces(x: int, h: int, charging: bool, lastCharging: bool, screenOn: bool, lastScreenOn: bool)
      modifies this`batLevelPath, this`batGoodPath, this`batWarnPath, this`batCriticalPath, this`chargingPath, this`screenOnPath
      ensures CurrentPaths() == old(CurrentPaths()).(charging := Edge(old(chargingPath), lastCharging, charging, x, h - chargingOffset),
                                       screenOn := Edge(old(screenOnPath), lastScreenOn, screenOn, x, h - screenOnOffset))
    {
      if charging != lastCharging {
        if charging {
          chargingPath := chargingPath + [MoveTo(x, h - chargingOffset)];
        } else {
          chargingPath := chargingPath + [LineTo(x, h - chargingOffset)];
        }
      }
      if screenOn != lastScreenOn {
        if screenOn {
          screenOnPath := screenOnPath + [MoveTo(x, h - screenOnOffset)];
        } else {
          screenOnPath := screenOnPath + [LineTo(x, h - screenOnOffset)];
        }
      }
    }

    /** `finishPaths`: `curLevel` says whether a level polygon is open, and
        `lastPath` is the band whose stroke is in use, if any. */
    method FinishPaths(w: int, h: int, levelh: int, startX: int, y: int, curLevel: bool,
                       lastBatX: int, lastCharging: bool, lastScreenOn: bool, lastPath: Option<Band>)
      modifies this`batLevelPath, this`batGoodPath, this`batWarnPath, this`batCriticalPath, this`chargingPath, this`screenOnPath
      ensures CurrentPaths() == Finish(old(CurrentPaths()), w, h - chargingOffset, h - screenOnOffset, levelh,
                                startX, y, curLevel, lastBatX, lastCharging, lastScreenOn, lastPath)
    {
      if curLevel {
        if lastBatX >= 0 {
          if lastPath.Some? {
            AppendBand(lastPath.value, LineTo(w, y));
          }
          batLevelPath := batLevelPath + [LineTo(w, y)];
        }
        batLevelPath := batLevelPath + [LineTo(w, levelh)];
        batLevelPath := batLevelPath + [LineTo(startX, levelh)];
        batLevelPath := batLevelPath + [Close];
      }
      if lastCharging {
        chargingPath := chargingPath + [LineTo(w, h - chargingOffset)];
      }
      if lastScreenOn {
        screenOnPath := screenOnPath + [LineTo(w, h - screenOnOffset)];
      }
    }

    /** `onSizeChanged`: resets the six paths, walks the history and closes
        whatever is still open at the right edge, as `Build` describes. */
    method OnSizeChanged(w: int, h: int)
      requires Valid()
      modifies this`batLevelPath, this`batGoodPath, this`batWarnPath, this`batCriticalPath, this`chargingPath, this`screenOnPath
      ensures CurrentPaths() == Build(history, histFirst, numHist, ScaleOf(w, h))
    {
      var s := ScaleOf(w, h);
      batLevelPath, batGoodPath, batWarnPath, batCriticalPath := [], [], [], [];
      screenOnPath, chargingPath := [], [];
      var hist, first, n := history, histFirst, numHist;
      var cur := WalkHistory(hist, first, n, w, h, s.levelh, s.timeStart, s.timeChange, s.batLow, s.batChange, s);
      assert s == ScaleOf(w, h);
      ghost var walked := CurrentPaths();
      FinishPaths(w, h, s.levelh, cur.startX, cur.lastY, cur.curLevel, cur.lastBatX, cur.lastCharging,
                  cur.lastScreenOn, cur.lastLine);
      BuildFromWalk(hist, first, n, s, walked, cur, w, s.chargingY, s.screenOnY, s.levelh, CurrentPaths());
    }

    /** The loop of `onSizeChanged`, from the reset paths: visits the records
        from `mHistFirst` on, at most `mNumHist` of them, and returns the loop
        variables it ends with. */
    method WalkHistory(hist: seq<Record>, first: Option<nat>, n: nat, w: int, h: int, levelh: int,
                       timeStart: int, timeChange: int, low: int, batChange: int, ghost s: Scale)
        returns (cur: Cursor)
      requires s == Scale(w, h, levelh, h - chargingOffset, h - screenOnOffset, timeStart, timeChange, low, batChange)
      requires first.Some? ==> first.value < |hist| && Defined(s)
      requires CurrentPaths() == Reset
      modifies this`batLevelPath, this`batGoodPath, this`batWarnPath, this`batCriticalPath, this`chargingPath, this`screenOnPath
      ensures Walk(cur, CurrentPaths()) == WalkFrom(s, hist, FirstIndex(first), VisitCount(hist, first, n))
    {
      var rec := first;
      cur := Initial;
      var i: nat := 0;
      ghost var f := FirstIndex(first);
      while rec.Some? && i < n
        invariant i <= n
        invariant first.None? ==> rec.None? && i == 0
        invariant first.Some? ==> f + i <= |hist|
        invariant rec.Some? ==> first.Some? && rec.value == f + i && rec.value < |hist|
        invariant first.Some? && rec.None? ==> f + i == |hist|
        invariant Walk(cur, CurrentPaths()) == WalkFrom(s, hist, f, i)
        decreases n - i
      {
        cur := VisitRecord(hist[rec.value], w, h, levelh, timeStart, timeChange, low, batChange, cur, s);
        rec := if rec.value + 1 < |hist| then Some(rec.value + 1) else None;
        i := i + 1;
      }
    }

    /** One iteration of the loop of `onSizeChanged`; `c` holds its local
        variables (`x`, `startX`, `lastX`, `lastY`, `lastBatX`, whether
        `curLevelPath` is set, which band `lastLinePath` is, `lastCharging`
        and `lastScreenOn`). */
    method VisitRecord(r: Record, w: int, h: int, levelh: int, timeStart: int, timeChange: int,
                       low: int, batChange: int, c: Cursor, ghost s: Scale) returns (next: Cursor)
      requires s == Scale(w, h, levelh, h - chargingOffset, h - screenOnOffset, timeStart, timeChange, low, batChange)
      requires Defined(s)
      modifies this`batLevelPath, this`batGoodPath, this`batWarnPath, this`batCriticalPath, this`chargingPath, this`screenOnPath
      ensures Walk(next, CurrentPaths()) == Visit(s, Walk(c, old(CurrentPaths())), r)
    {
      next := c;
      if r.cmd == Update {
        var x := Quot((r.time - timeStart) * w, timeChange);
        var y := levelh - Quot((r.level - low) * (levelh - 1), batChange);
        next := next.(x := x);
        if c.lastX != x {
          if c.lastY == y {
            // the level has not changed: only remember where the flat tail ends
            next := next.(lastBatX := x);
          } else {
            PlotRecord(r, x, y, h, c.lastLine, c.curLevel, c.lastCharging, c.lastScreenOn);
            next := next.(startX := if c.curLevel then c.startX else x, curLevel := true,
                          lastLine := Some(BandOf(r.level)), lastX := x, lastY := y, lastBatX := -1,
                          lastCharging := r.plugged, lastScreenOn := r.screenOn);
          }
        }
      } else if c.curLevel {
        FinishPaths(c.x + 1, h, levelh, c.startX, c.lastY, c.curLevel, c.lastBatX, c.lastCharging,
                    c.lastScreenOn, c.lastLine);
        next := next.(lastX := -1, lastY := -1, lastBatX := -1, curLevel := false, lastLine := None,
                      lastCharging := false, lastScreenOn := false);
      }
    }

    /** The body of `onSizeChanged` for a record plotted at (x, y): picks the
        band path by level, switches or continues the band stroke, starts or
        continues the level polygon, and steps the two flag traces. */
    method PlotRecord(r: Record, x: int, y: int, h: int, lastLine: Option<Band>, curLevel: bool,
                      lastCharging: bool, lastScreenOn: bool)
      modifies this`batLevelPath, this`batGoodPath, this`batWarnPath, this`batCriticalPath, this`chargingPath, this`screenOnPath
      ensures CurrentPaths() == PlotPaths(old(CurrentPaths()), lastLine, curLevel, lastCharging, lastScreenOn,
                                   r, x, y, h - chargingOffset, h - screenOnOffset)
    {
      var path;
      if r.level <= BATTERY_CRITICAL {
        path := Critical;
      } else if r.level <= BATTERY_WARN {
        path := Warn;
      } else {
        path := Good;
      }
      assert path == BandOf(r.level);
      StrokeBands(path, lastLine, x, y);
      batLevelPath := batLevelPath + [if curLevel then LineTo(x, y) else MoveTo(x, y)];
      StepTraces(x, h, r.plugged, lastCharging, r.screenOn, lastScreenOn);
    }
  }
}
