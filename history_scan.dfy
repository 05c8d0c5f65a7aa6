/** The history scan of `setStats`: one pass over the record list that finds
    the first UPDATE record, the time span to plot and how many records the
    path builder has to visit. */
module HistoryScan {
  import opened Geometry

  /** Loop state of the scan after a prefix of the history: `mHistFirst` (as an
      index), `mHistStart`, `mHistEnd`, `lastInteresting` and `lastLevel`. */
  datatype Scan = Scan(first: Option<nat>, start: int, end: int, lastInteresting: nat, lastLevel: int)

  /** The fields `setStats` leaves behind for the path builder. */
  datatype HistRange = HistRange(first: Option<nat>, start: int, end: int, numHist: nat, batLow: int, batHigh: int)

  /** One iteration of the scan; `pos` is the 1-based position of `rec`,
      counted over all records. */
  function ScanRecord(sc: Scan, pos: nat, rec: Record): Scan
    requires 1 <= pos
  {
    if rec.cmd == Update then
      var sc1 := if sc.first.None? then sc.(first := Some(pos - 1), start := rec.time) else sc;
      if rec.level != sc1.lastLevel || pos == 1 then
        sc1.(lastLevel := rec.level, lastInteresting := pos, end := rec.time)
      else sc1
    else sc
  }

  /** The scan over a whole prefix. `start0` and `end0` are the values the two
      time fields held before the scan: the scan does not reset them. */
  function ScanFrom(rs: seq<Record>, start0: int, end0: int): (sc: Scan)
    ensures sc.lastInteresting <= |rs|
    ensures sc.first.Some? ==> sc.first.value < |rs|
    decreases |rs|
  {
    if rs == [] then Scan(None, start0, end0, 0, -1)
    else ScanRecord(ScanFrom(rs[..|rs| - 1], start0, end0), |rs|, rs[|rs| - 1])
  }

  /** Scanning one more record of `h` is one more `ScanRecord`. */
  lemma ScanStep(h: seq<Record>, pos: nat, start0: int, end0: int)
    requires pos < |h|
    ensures ScanFrom(h[..pos + 1], start0, end0) == ScanRecord(ScanFrom(h[..pos], start0, end0), pos + 1, h[pos])
  {
    assert h[..pos + 1][..pos] == h[..pos];
  }

  /** What `setStats` computes: the scan, the fixed level bounds 0..100 and
      the end time forced past the start time. */
  function Reduce(h: seq<Record>, start0: int, end0: int): (r: HistRange)
    ensures r.start < r.end
    ensures r.numHist <= |h|
    ensures r.first.Some? ==> r.first.value < |h|
    ensures r.batLow == 0 && r.batHigh == 100
  {
    var sc := ScanFrom(h, start0, end0);
    HistRange(sc.first, sc.start, if sc.end <= sc.start then sc.start + 1 else sc.end,
              sc.lastInteresting, 0, 100)
  }

  // ----- Reference definitions, independent of the scan -----

  /** Level of the last UPDATE record in `rs`, or -1 when there is none. */
  function LastUpdateLevel(rs: seq<Record>): int
    decreases |rs|
  {
    if rs == [] then -1
    else if rs[|rs| - 1].cmd == Update then rs[|rs| - 1].level
    else LastUpdateLevel(rs[..|rs| - 1])
  }

  /** Record `k` is interesting when it is an UPDATE record that is the very
      first record or whose level differs from the previous UPDATE record's. */
  predicate Interesting(h: seq<Record>, k: nat)
    requires k < |h|
  {
    h[k].cmd == Update && (h[k].level != LastUpdateLevel(h[..k]) || k == 0)
  }

  /** Every UPDATE record carries a percentage. */
  predicate LevelsInRange(h: seq<Record>)
  {
    forall k :: 0 <= k < |h| && h[k].cmd == Update ==> 0 <= h[k].level <= 100
  }

  /** Record times never decrease along the list. */
  predicate TimesMonotone(h: seq<Record>)
  {
    forall i, j :: 0 <= i <= j < |h| ==> h[i].time <= h[j].time
  }

  // ----- Properties of the scan -----

  lemma InterestingPrefix(h: seq<Record>, m: nat, k: nat)
    requires k < m <= |h|
    ensures Interesting(h[..m], k) == Interesting(h, k)
  {
    assert h[..m][..k] == h[..k];
  }

  /** The scan's `lastLevel` is the level of the most recent UPDATE record. */
  lemma {:induction false} ScanLastLevel(rs: seq<Record>, start0: int, end0: int)
    ensures ScanFrom(rs, start0, end0).lastLevel == LastUpdateLevel(rs)
    decreases |rs|
  {
    if rs != [] {
      ScanLastLevel(rs[..|rs| - 1], start0, end0);
    }
  }

  /** `first` is the index of the first UPDATE record, and `start` its time;
      without an UPDATE record both are left as they were. */
  lemma {:induction false} ScanFirst(rs: seq<Record>, start0: int, end0: int)
    ensures var sc := ScanFrom(rs, start0, end0);
      && (sc.first.Some? ==>
            && rs[sc.first.value].cmd == Update
            && sc.start == rs[sc.first.value].time
            && forall j :: 0 <= j < sc.first.value ==> rs[j].cmd != Update)
      && (sc.first.None? ==>
            && sc.start == start0
            && forall j :: 0 <= j < |rs| ==> rs[j].cmd != Update)
    decreases |rs|
  {
    if rs != [] {
      var p := rs[..|rs| - 1];
      ScanFirst(p, start0, end0);
      assert forall j :: 0 <= j < |p| ==> p[j] == rs[j];
    }
  }

  /** `lastInteresting` is the 1-based position of the last interesting
      record (0 if none), and `end` is that record's time. */
  lemma {:induction false} ScanInteresting(rs: seq<Record>, start0: int, end0: int)
    ensures var sc := ScanFrom(rs, start0, end0);
      && (sc.lastInteresting > 0 ==> Interesting(rs, sc.lastInteresting - 1))
      && (forall k :: sc.lastInteresting <= k < |rs| ==> !Interesting(rs, k))
      && sc.end == (if sc.lastInteresting > 0 then rs[sc.lastInteresting - 1].time else end0)
    decreases |rs|
  {
    if rs != [] {
      var n := |rs|;
      var p := rs[..n - 1];
      ScanInteresting(p, start0, end0);
      ScanLastLevel(p, start0, end0);
      var prev := ScanFrom(p, start0, end0);
      var sc := ScanFrom(rs, start0, end0);
      forall k | 0 <= k < n - 1
        ensures Interesting(p, k) == Interesting(rs, k)
      {
        InterestingPrefix(rs, n - 1, k);
      }
      if sc.lastInteresting != n {
        assert sc.lastInteresting == prev.lastInteresting;
        assert !Interesting(rs, n - 1);
      }
    }
  }

  /** A record list without UPDATE records has no level seen yet. */
  lemma {:induction false} NoUpdateNoLevel(rs: seq<Record>)
    requires forall j :: 0 <= j < |rs| ==> rs[j].cmd != Update
    ensures LastUpdateLevel(rs) == -1
    decreases |rs|
  {
    if rs != [] {
      NoUpdateNoLevel(rs[..|rs| - 1]);
    }
  }

  // ----- Properties of setStats' result -----

  /** `mHistFirst` is the first UPDATE record and `mHistStart` its time; when
      there is no UPDATE record, `mHistStart` keeps its previous value. */
  lemma ReduceFirstUpdate(h: seq<Record>, start0: int, end0: int)
    ensures var r := Reduce(h, start0, end0);
      && (r.first.Some? ==>
            && h[r.first.value].cmd == Update
            && r.start == h[r.first.value].time
            && forall j :: 0 <= j < r.first.value ==> h[j].cmd != Update)
      && (r.first.None? ==>
            && r.start == start0
            && forall j :: 0 <= j < |h| ==> h[j].cmd != Update)
  {
    ScanFirst(h, start0, end0);
  }

  /** `mNumHist` is the position of the last interesting record (0 if none),
      no record after it is interesting, and `mHistEnd` is its time, pushed to
      `mHistStart + 1` when it would not lie after the start. */
  lemma ReduceLastInteresting(h: seq<Record>, start0: int, end0: int)
    ensures var r := Reduce(h, start0, end0);
      && (r.numHist > 0 ==> Interesting(h, r.numHist - 1))
      && (forall k :: r.numHist <= k < |h| ==> !Interesting(h, k))
      && var e := if r.numHist > 0 then h[r.numHist - 1].time else end0;
         r.end == if e <= r.start then r.start + 1 else e
  {
    ScanInteresting(h, start0, end0);
  }

  /** With percentage levels, some record must be visited exactly when there
      is an UPDATE record, and the first UPDATE record lies among them. */
  lemma ReduceVisitsFirstUpdate(h: seq<Record>, start0: int, end0: int)
    requires LevelsInRange(h)
    ensures var r := Reduce(h, start0, end0);
      && (r.numHist == 0 <==> r.first.None?)
      && (r.first.Some? ==> r.first.value < r.numHist)
  {
    var r := Reduce(h, start0, end0);
    ReduceFirstUpdate(h, start0, end0);
    ReduceLastInteresting(h, start0, end0);
    if r.first.Some? {
      var f := r.first.value;
      assert forall j :: 0 <= j < |h[..f]| ==> h[..f][j] == h[j];
      NoUpdateNoLevel(h[..f]);
      assert Interesting(h, f);
    }
  }

  /** When no record from index `k` on is interesting, the last UPDATE level
      seen in the first `m` records equals the one seen in the first `k`. */
  lemma {:induction false} FlatFrom(h: seq<Record>, k: nat, m: nat)
    requires 0 < k <= m <= |h|
    requires forall j :: k <= j < |h| ==> !Interesting(h, j)
    ensures LastUpdateLevel(h[..m]) == LastUpdateLevel(h[..k])
    decreases m - k
  {
    if m > k {
      FlatFrom(h, k, m - 1);
      assert h[..m][..m - 1] == h[..m - 1];
      assert !Interesting(h, m - 1);
    }
  }

  /** Every UPDATE record after the last interesting one has its level, so
      nothing past position `mNumHist` changes the level curve. */
  lemma ReduceTailIsFlat(h: seq<Record>, start0: int, end0: int)
    ensures var r := Reduce(h, start0, end0);
      r.numHist > 0 ==>
        forall k :: r.numHist <= k < |h| && h[k].cmd == Update ==> h[k].level == h[r.numHist - 1].level
  {
    var r := Reduce(h, start0, end0);
    ReduceLastInteresting(h, start0, end0);
    if r.numHist > 0 {
      var n := r.numHist;
      forall k | n <= k < |h| && h[k].cmd == Update
        ensures h[k].level == h[n - 1].level
      {
        FlatFrom(h, n, k);
        assert h[..n][..n - 1] == h[..n - 1];
        assert !Interesting(h, k);
      }
    }
  }

  /** Running the scan again on its own output changes nothing. */
  lemma ReduceIdempotent(h: seq<Record>, start0: int, end0: int)
    ensures var r := Reduce(h, start0, end0);
      Reduce(h, r.start, r.end) == r
  {
    var r := Reduce(h, start0, end0);
    var r2 := Reduce(h, r.start, r.end);
    ReduceFirstUpdate(h, start0, end0);
    ReduceFirstUpdate(h, r.start, r.end);
    ReduceLastInteresting(h, start0, end0);
    ReduceLastInteresting(h, r.start, r.end);
    ScanFrameOnly(h, start0, end0, r.start, r.end);
  }

  /** The prior time values only reach the result where the scan leaves them untouched. */
  lemma {:induction false} ScanFrameOnly(rs: seq<Record>, s0: int, e0: int, s1: int, e1: int)
    ensures var a, b := ScanFrom(rs, s0, e0), ScanFrom(rs, s1, e1);
      && a.first == b.first && a.lastInteresting == b.lastInteresting && a.lastLevel == b.lastLevel
    decreases |rs|
  {
    if rs != [] {
      ScanFrameOnly(rs[..|rs| - 1], s0, e0, s1, e1);
    }
  }
}
