/** Shared vocabulary of the battery history chart: history records, the
    operations appended to a drawing path, the three colour bands of the
    level curve, and the integer arithmetic that maps a record to a pixel. */
module Geometry {

  datatype Option<T> = None | Some(value: T)

  /** The command byte of a history record: only UPDATE records carry a level. */
  datatype Command = Update | Other(code: int)

  /** One battery-history record. `plugged` and `screenOn` are the results of
      testing the plugged and screen-on bits of the record's state word. */
  datatype Record = Record(cmd: Command, time: int, level: int, plugged: bool, screenOn: bool)

  /** A drawing path is modelled as the ordered list of operations appended to it. */
  datatype PathOp = MoveTo(x: int, y: int) | LineTo(x: int, y: int) | Close

  /** The three stroke paths of the level curve. */
  datatype Band = Critical | Warn | Good

  const BATTERY_WARN: int := 29
  const BATTERY_CRITICAL: int := 14

  /** The band whose path a plotted level is drawn into. */
  function BandOf(level: int): (b: Band)
    ensures b == Critical <==> level <= BATTERY_CRITICAL
    ensures b == Warn <==> BATTERY_CRITICAL < level <= BATTERY_WARN
    ensures b == Good <==> BATTERY_WARN < level
  {
    if level <= BATTERY_CRITICAL then Critical
    else if level <= BATTERY_WARN then Warn
    else Good
  }

  /** Position of a band from the lowest levels to the highest. */
  function Rank(b: Band): nat
  {
    match b
    case Critical => 0
    case Warn => 1
    case Good => 2
  }

  /** A higher level never selects a lower band. */
  lemma BandMonotone(a: int, b: int)
    requires a <= b
    ensures Rank(BandOf(a)) <= Rank(BandOf(b))
  {
  }

  /** Java integer division, which truncates toward zero (Dafny's `/` is Euclidean). */
  function Quot(a: int, b: int): (q: int)
    requires b != 0
    ensures 0 <= a && 0 < b ==> q == a / b
  {
    if 0 <= a then (if 0 < b then a / b else -(a / -b))
    else (if 0 < b then -((-a) / b) else (-a) / (-b))
  }

  /** `Quot` is Java's division for every sign: the remainder `a - q * b`
      is zero or has the sign of `a`, and is smaller than `b` in magnitude. */
  lemma QuotTruncates(a: int, b: int)
    requires b != 0
    ensures var r := a - Quot(a, b) * b;
      && (0 < a ==> 0 <= r) && (a < 0 ==> r <= 0)
      && (if r < 0 then -r else r) < (if b < 0 then -b else b)
  {
    if 0 <= a {
      if 0 < b {
        assert a - (a / b) * b == a % b;
      } else {
        assert a - (-(a / -b)) * b == a % -b;
      }
    } else {
      if 0 < b {
        assert a - (-((-a) / b)) * b == -((-a) % b);
      } else {
        assert a - ((-a) / (-b)) * b == -((-a) % (-b));
      }
    }
  }

  /** Horizontal pixel of a record time: (t - start) * w / change, truncated. */
  function PixelX(t: int, start: int, change: int, w: int): int
    requires change != 0
  {
    Quot((t - start) * w, change)
  }

  /** Vertical pixel of a level: levelh - (level - low) * (levelh - 1) / change, truncated. */
  function PixelY(level: int, low: int, change: int, levelh: int): int
    requires change != 0
  {
    levelh - Quot((level - low) * (levelh - 1), change)
  }

  /** Multiplying by a non-negative number preserves order. */
  lemma MulMonotone(x: int, y: int, c: int)
    requires x <= y && 0 <= c
    ensures x * c <= y * c
  {
    assert (y - x) * c >= 0;
  }

  /** Division by a positive number preserves order. */
  lemma DivMonotone(a1: int, a2: int, c: int)
    requires a1 <= a2 && 0 < c
    ensures a1 / c <= a2 / c
  {
    var q1, q2 := a1 / c, a2 / c;
    if q2 < q1 {
      MulMonotone(q2 + 1, q1, c);
    }
  }

  /** 0 <= a <= c scales into 0 <= a * w / c <= w. */
  lemma ScaleBounds(a: int, c: int, w: int)
    requires 0 <= a <= c && 0 < c && 0 <= w
    ensures 0 <= (a * w) / c <= w
  {
    MulMonotone(a, c, w);
    MulMonotone(0, a, w);
    DivMonotone(a * w, c * w, c);
    DivMonotone(0, a * w, c);
    assert (c * w) / c == w;
  }

  /** A record time inside [start, start + change] maps into [0, w]. */
  lemma PixelXBounds(t: int, start: int, change: int, w: int)
    requires 0 < change && 0 <= w
    requires start <= t <= start + change
    ensures 0 <= PixelX(t, start, change, w) <= w
  {
    ScaleBounds(t - start, change, w);
  }

  /** The horizontal mapping never moves backwards in time. */
  lemma PixelXMonotone(t1: int, t2: int, start: int, change: int, w: int)
    requires 0 < change && 0 <= w
    requires start <= t1 <= t2
    ensures PixelX(t1, start, change, w) <= PixelX(t2, start, change, w)
  {
    MulMonotone(t1 - start, t2 - start, w);
    MulMonotone(0, t1 - start, w);
    DivMonotone((t1 - start) * w, (t2 - start) * w, change);
  }

  /** A level inside [low, low + change] maps into [1, levelh]. */
  lemma PixelYBounds(level: int, low: int, change: int, levelh: int)
    requires 0 < change && 1 <= levelh
    requires low <= level <= low + change
    ensures 1 <= PixelY(level, low, change, levelh) <= levelh
  {
    ScaleBounds(level - low, change, levelh - 1);
  }
}
