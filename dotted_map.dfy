/** The dotted world map of the landing page: the points produced by the map
    library are scanned in row order to give every distinct `y` a row index
    and to find the horizontal spacing of the dots (`xStep`); with staggering
    on, the dots of every odd row are shifted right by half that spacing. */
module DottedMap {
  import opened Wrappers

  datatype Point = Point(x: real, y: real)

  /** A marker as the library's `addMarkers` returns it; `size` may be absent. */
  datatype Marker = Marker(x: real, y: real, size: Option<real>)

  /** What the map library produced: its points and the placed markers. */
  datatype Created = Created(points: seq<Point>, markers: seq<Marker>)

  /** The memoised result: the points and markers in the library's order,
      the horizontal step and the row index of every `y`. */
  datatype MapData = MapData(points: seq<Point>, markers: seq<Marker>, xStep: real, rows: map<real, nat>)

  /** A drawn `<circle>`. */
  datatype Circle = Circle(cx: real, cy: real, r: real, fill: string)

  // ---------------------------------------------------------------------
  // Sorting by (y, x)

  /** The comparator `a.y - b.y || a.x - b.x` puts `a` no later than `b`. */
  predicate Before(a: Point, b: Point)
  {
    a.y < b.y || (a.y == b.y && a.x <= b.x)
  }

  predicate SortedByRow(s: seq<Point>)
  {
    forall i, j :: 0 <= i < j < |s| ==> Before(s[i], s[j])
  }

  /** A point no later than every point of a sorted list can go in front. */
  lemma PrependSorted(a: Point, t: seq<Point>)
    requires SortedByRow(t)
    requires forall q | q in t :: Before(a, q)
    ensures SortedByRow([a] + t)
  {
    forall i, j | 0 <= i < j < |[a] + t| ensures Before(([a] + t)[i], ([a] + t)[j]) {
      assert ([a] + t)[j] == t[j - 1];
      if i > 0 {
        assert ([a] + t)[i] == t[i - 1];
      }
    }
  }

  function Insert(p: Point, s: seq<Point>): (r: seq<Point>)
    requires SortedByRow(s)
    ensures SortedByRow(r)
    ensures multiset(r) == multiset(s) + multiset{p}
  {
    if s == [] then [p]
    else if Before(p, s[0]) then
      PrependSorted(p, s);
      [p] + s
    else
      var rest := Insert(p, s[1..]);
      assert s == [s[0]] + s[1..];
      InsertKeepsHead(p, s, rest);
      [s[0]] + rest
  }

  /** The head of a sorted list that `p` does not precede stays in front of
      `p` inserted into the tail. */
  lemma InsertKeepsHead(p: Point, s: seq<Point>, rest: seq<Point>)
    requires s != [] && SortedByRow(s) && !Before(p, s[0])
    requires SortedByRow(rest) && multiset(rest) == multiset(s[1..]) + multiset{p}
    ensures SortedByRow([s[0]] + rest)
  {
    forall q | q in rest ensures Before(s[0], q) {
      assert q in multiset(rest);
      if q != p {
        assert q in multiset(s[1..]);
        var k :| 0 <= k < |s[1..]| && s[1..][k] == q;
        assert s[k + 1] == q;
      }
    }
    PrependSorted(s[0], rest);
  }

  /** The sorted copy `[...mapPoints].sort(...)`: points in (y, x) order,
      the same points as many times as before. Two points the comparator
      ties are equal, so the order is the only one possible. */
  function SortPoints(s: seq<Point>): (r: seq<Point>)
    ensures SortedByRow(r)
    ensures multiset(r) == multiset(s)
  {
    if s == [] then []
    else
      assert s == [s[0]] + s[1..];
      Insert(s[0], SortPoints(s[1..]))
  }

  // ---------------------------------------------------------------------
  // Row indices

  predicate Distinct(d: seq<real>)
  {
    forall i, j :: 0 <= i < j < |d| ==> d[i] != d[j]
  }

  /** The distinct `y` values of `s` in the order they first appear. */
  function RowYs(s: seq<Point>): (d: seq<real>)
    ensures Distinct(d)
    ensures forall y :: y in d <==> exists i :: 0 <= i < |s| && s[i].y == y
  {
    if s == [] then []
    else
      var d := RowYs(s[..|s| - 1]);
      assert forall i :: 0 <= i < |s| - 1 ==> s[..|s| - 1][i] == s[i];
      var y := s[|s| - 1].y;
      if y in d then d else d + [y]
  }

  /** `rows` maps exactly the values of `d`, each to its position in `d`. */
  ghost predicate IndexesRows(rows: map<real, nat>, d: seq<real>)
  {
    (forall y :: y in rows <==> y in d) &&
    (forall i :: 0 <= i < |d| ==> d[i] in rows && rows[d[i]] == i)
  }

  /** On points in (y, x) order the rows are met top-down (SVG `y` grows
      downwards), so row indices 0, 1, 2, ... go to increasing `y`. */
  lemma {:induction false} RowsIncrease(s: seq<Point>)
    requires SortedByRow(s)
    ensures forall i, j :: 0 <= i < j < |RowYs(s)| ==> RowYs(s)[i] < RowYs(s)[j]
  {
    if s != [] {
      var init := s[..|s| - 1];
      assert forall i :: 0 <= i < |s| - 1 ==> init[i] == s[i];
      RowsIncrease(init);
      var d := RowYs(init);
      var y := s[|s| - 1].y;
      if y !in d {
        forall i | 0 <= i < |d| ensures d[i] < y {
          assert d[i] in d;
          var k :| 0 <= k < |init| && init[k].y == d[i];
          assert Before(s[k], s[|s| - 1]);
        }
      }
    }
  }

  /** Points with a smaller `y`, higher up on the map, get a smaller row
      index. */
  lemma RowIndexFollowsY(s: seq<Point>, rows: map<real, nat>, p: Point, q: Point)
    requires SortedByRow(s) && IndexesRows(rows, RowYs(s))
    requires p in s && q in s && p.y < q.y
    ensures p.y in rows && q.y in rows && rows[p.y] < rows[q.y]
  {
    var d := RowYs(s);
    RowsIncrease(s);
    var a :| 0 <= a < |s| && s[a] == p;
    var b :| 0 <= b < |s| && s[b] == q;
    assert p.y in d && q.y in d;
    var i :| 0 <= i < |d| && d[i] == p.y;
    var j :| 0 <= j < |d| && d[j] == q.y;
    OrderOfIncreasing(d, i, j);
  }

  /** In a strictly increasing list, a smaller value sits at a smaller
      position. */
  lemma OrderOfIncreasing(d: seq<real>, i: int, j: int)
    requires forall a, b :: 0 <= a < b < |d| ==> d[a] < d[b]
    requires 0 <= i < |d| && 0 <= j < |d| && d[i] < d[j]
    ensures i < j
  {
  }

  // ---------------------------------------------------------------------
  // The horizontal step

  /** Point `i` is measured against its predecessor: same row, and to the
      right of it. A point opening a new row is never measured. */
  predicate Measured(s: seq<Point>, i: int)
  {
    0 < i < |s| && s[i].y == s[i - 1].y && s[i].x - s[i - 1].x > 0.0
  }

  function Min(a: real, b: real): real
  {
    if a <= b then a else b
  }

  /** The gap between point `i` and its predecessor. */
  function Gap(s: seq<Point>, i: int): real
    requires 0 < i < |s|
  {
    s[i].x - s[i - 1].x
  }

  /** `step` after scanning `s`: 0 until a first measured gap, then the
      smallest one so far. */
  function ScanStep(s: seq<Point>): real
  {
    if |s| < 2 then 0.0
    else
      var m := ScanStep(s[..|s| - 1]);
      var delta := Gap(s, |s| - 1);
      if Measured(s, |s| - 1) then (if m == 0.0 then delta else Min(m, delta)) else m
  }

  ghost predicate NoGap(s: seq<Point>)
  {
    forall i :: 0 < i < |s| ==> !Measured(s, i)
  }

  /** `g` is a measured gap and no measured gap is smaller. */
  ghost predicate SmallestGap(s: seq<Point>, g: real)
  {
    (exists i :: Measured(s, i) && Gap(s, i) == g) && (forall i :: Measured(s, i) ==> g <= Gap(s, i))
  }

  /** The step is 0 exactly when no gap is measured, and otherwise it is the
      smallest gap between neighbours of one row. */
  lemma ScanStepIsMinimumGap(s: seq<Point>)
    ensures ScanStep(s) >= 0.0
    ensures ScanStep(s) == 0.0 <==> forall i :: 0 < i < |s| ==> !Measured(s, i)
    ensures ScanStep(s) > 0.0 ==>
              (exists i :: Measured(s, i) && s[i].x - s[i - 1].x == ScanStep(s)) &&
              (forall i :: Measured(s, i) ==> ScanStep(s) <= s[i].x - s[i - 1].x)
  {
    ScanStepCases(s);
  }

  lemma {:induction false} ScanStepCases(s: seq<Point>)
    ensures (ScanStep(s) == 0.0 && NoGap(s)) || (ScanStep(s) > 0.0 && SmallestGap(s, ScanStep(s)))
  {
    if |s| >= 2 {
      var init, n := s[..|s| - 1], |s| - 1;
      ScanStepCases(init);
      var m := ScanStep(init);
      if !Measured(s, n) {
        SkipUnmeasured(s, m);
      } else if m == 0.0 {
        FirstGap(s);
      } else {
        SmallerGap(s, m);
      }
    }
  }

  /** Dropping the last point keeps the measured gaps before it. */
  lemma MeasuredInPrefix(s: seq<Point>)
    requires |s| >= 2
    ensures forall i :: Measured(s[..|s| - 1], i) <==> Measured(s, i) && i < |s| - 1
    ensures forall i :: Measured(s[..|s| - 1], i) ==> Gap(s[..|s| - 1], i) == Gap(s, i)
  {
  }

  lemma SkipUnmeasured(s: seq<Point>, m: real)
    requires |s| >= 2 && !Measured(s, |s| - 1)
    ensures NoGap(s[..|s| - 1]) ==> NoGap(s)
    ensures SmallestGap(s[..|s| - 1], m) ==> SmallestGap(s, m)
  {
    MeasuredInPrefix(s);
    if SmallestGap(s[..|s| - 1], m) {
      var k :| Measured(s[..|s| - 1], k) && Gap(s[..|s| - 1], k) == m;
      assert Measured(s, k) && Gap(s, k) == m;
    }
  }

  lemma FirstGap(s: seq<Point>)
    requires |s| >= 2 && Measured(s, |s| - 1) && NoGap(s[..|s| - 1])
    ensures SmallestGap(s, Gap(s, |s| - 1))
  {
    MeasuredInPrefix(s);
  }

  lemma SmallerGap(s: seq<Point>, m: real)
    requires |s| >= 2 && Measured(s, |s| - 1) && SmallestGap(s[..|s| - 1], m)
    ensures SmallestGap(s, Min(m, Gap(s, |s| - 1)))
  {
    MeasuredInPrefix(s);
    var k :| Measured(s[..|s| - 1], k) && Gap(s[..|s| - 1], k) == m;
    assert Measured(s, k) && Gap(s, k) == m;
  }

  /** `step || 1`: the map's horizontal step. */
  function XStep(s: seq<Point>): (r: real)
    ensures r > 0.0
    ensures (forall i :: 0 < i < |s| ==> !Measured(s, i)) ==> r == 1.0
    ensures forall i :: Measured(s, i) ==> r <= s[i].x - s[i - 1].x
  {
    ScanStepIsMinimumGap(s);
    if ScanStep(s) == 0.0 then 1.0 else ScanStep(s)
  }

  /** The scan of the `useMemo` block: walks the sorted points once,
      restarting the row's previous `x` whenever `y` changes, numbering new
      rows in the order met and keeping the smallest positive gap. `None`
      plays the part of the `NaN` the source starts from. */
  method ScanRows(sorted: seq<Point>) returns (rows: map<real, nat>, step: real)
    ensures IndexesRows(rows, RowYs(sorted))
    ensures step == ScanStep(sorted)
  {
    rows := map[];
    step := 0.0;
    var prevY: Option<real> := None;
    var prevXInRow: Option<real> := None;
    var k := 0;
    while k < |sorted|
      invariant 0 <= k <= |sorted|
      invariant k == 0 ==> prevY == None && prevXInRow == None
      invariant k > 0 ==> prevY == Some(sorted[k - 1].y) && prevXInRow == Some(sorted[k - 1].x)
      invariant IndexesRows(rows, RowYs(sorted[..k]))
      invariant step == ScanStep(sorted[..k])
    {
      var p := sorted[k];
      NextRows(sorted, k, rows);
      NextStep(sorted, k);
      if prevY != Some(p.y) {
        prevY := Some(p.y);
        prevXInRow := None;
        if p.y !in rows {
          rows := rows[p.y := |rows|];
        }
      }
      if prevXInRow.Some? {
        var delta := p.x - prevXInRow.value;
        if delta > 0.0 {
          step := if step == 0.0 then delta else Min(step, delta);
        }
      }
      prevXInRow := Some(p.x);
      k := k + 1;
    }
    assert sorted[..k] == sorted;
  }

  /** One more point either repeats a known row or adds the next one. */
  lemma NextRows(s: seq<Point>, k: int, rows: map<real, nat>)
    requires 0 <= k < |s| && IndexesRows(rows, RowYs(s[..k]))
    ensures k > 0 && s[k].y == s[k - 1].y ==> s[k].y in rows
    ensures s[k].y in rows ==> IndexesRows(rows, RowYs(s[..k + 1]))
    ensures s[k].y !in rows ==> IndexesRows(rows[s[k].y := |rows|], RowYs(s[..k + 1]))
  {
    var y, d := s[k].y, RowYs(s[..k]);
    RowYsStep(s, k);
    if k > 0 {
      SameRowKnown(s, k);
    }
    if y !in rows {
      assert y !in d;
      RowCount(rows[y := |rows|], d, y);
    }
  }

  lemma RowYsStep(s: seq<Point>, k: int)
    requires 0 <= k < |s|
    ensures RowYs(s[..k + 1]) == if s[k].y in RowYs(s[..k]) then RowYs(s[..k]) else RowYs(s[..k]) + [s[k].y]
  {
    assert s[..k + 1][..k] == s[..k];
    assert s[..k + 1][k] == s[k];
  }

  lemma SameRowKnown(s: seq<Point>, k: int)
    requires 0 < k < |s|
    ensures s[k - 1].y in RowYs(s[..k])
  {
    assert s[..k][k - 1] == s[k - 1];
  }

  /** One more point updates the step as the scan does. */
  lemma NextStep(s: seq<Point>, k: int)
    requires 0 <= k < |s|
    ensures k == 0 ==> ScanStep(s[..k + 1]) == 0.0
    ensures k > 0 ==>
              var m, delta := ScanStep(s[..k]), s[k].x - s[k - 1].x;
              ScanStep(s[..k + 1]) ==
                if s[k].y == s[k - 1].y && delta > 0.0 then (if m == 0.0 then delta else Min(m, delta)) else m
  {
    assert s[..k + 1][..k] == s[..k];
  }

  /** Adding a new row keeps the map in step with the list of rows. */
  lemma RowCount(rows: map<real, nat>, d: seq<real>, y: real)
    requires y !in d && IndexesRows(rows - {y}, d) && y in rows && rows[y] == |rows - {y}|
    ensures |rows - {y}| == |d|
    ensures IndexesRows(rows, d + [y])
  {
    var old_ := rows - {y};
    forall z | z in old_.Keys ensures z in set i | 0 <= i < |d| :: d[i] {
      assert z in d;
    }
    assert old_.Keys == set i | 0 <= i < |d| :: d[i];
    DistinctCard(d);
  }

  lemma {:induction false} DistinctCard(d: seq<real>)
    requires Distinct(d)
    ensures |set i | 0 <= i < |d| :: d[i]| == |d|
  {
    if d != [] {
      var init := d[..|d| - 1];
      DistinctCard(init);
      var a := set i | 0 <= i < |init| :: init[i];
      var b := set i | 0 <= i < |d| :: d[i];
      assert b == a + {d[|d| - 1]};
      assert d[|d| - 1] !in a;
    }
  }

  // ---------------------------------------------------------------------
  // Generation and drawing

  /** The `useMemo` block. `created` is the map library's answer (it is not
      part of this model); a library error yields no points, no markers, a
      step of 1 and no rows. */
  method Generate(created: Outcome<Created>) returns (m: MapData)
    ensures created.Failure? ==> m == MapData([], [], 1.0, map[])
    ensures created.Success? ==>
              m.points == created.data.points && m.markers == created.data.markers &&
              m.xStep == XStep(SortPoints(created.data.points)) &&
              IndexesRows(m.rows, RowYs(SortPoints(created.data.points)))
  {
    if created.Failure? {
      return MapData([], [], 1.0, map[]);
    }
    var sorted := SortPoints(created.data.points);
    var rows, step := ScanRows(sorted);
    var xStep := if step == 0.0 then 1.0 else step;
    return MapData(created.data.points, created.data.markers, xStep, rows);
  }

  /** `yToRowIndex.get(y) ?? 0`. */
  function RowOf(rows: map<real, nat>, y: real): nat
  {
    if y in rows then rows[y] else 0
  }

  predicate Shifted(stagger: bool, rows: map<real, nat>, y: real)
  {
    stagger && RowOf(rows, y) % 2 == 1
  }

  function OffsetX(stagger: bool, rows: map<real, nat>, y: real, xStep: real): real
  {
    if Shifted(stagger, rows, y) then xStep / 2.0 else 0.0
  }

  function Dot(m: MapData, p: Point, dotRadius: real, stagger: bool): Circle
  {
    Circle(p.x + OffsetX(stagger, m.rows, p.y, m.xStep), p.y, dotRadius, "currentColor")
  }

  function Pin(m: MapData, k: Marker, dotRadius: real, markerColor: string, stagger: bool): Circle
  {
    Circle(k.x + OffsetX(stagger, m.rows, k.y, m.xStep), k.y, k.size.GetOr(dotRadius), markerColor)
  }

  /** The rendered `<svg>`: nothing at all without points; otherwise one
      dot per point, then one circle per marker. A dot of an odd row moves
      right by half the step when staggering is on; every other dot sits on
      its point. A marker without a size takes the dot radius. */
  function Render(m: MapData, dotRadius: real, markerColor: string, stagger: bool): (r: Option<seq<Circle>>)
    ensures r.None? <==> m.points == []
    ensures r.Some? ==> |r.value| == |m.points| + |m.markers|
    ensures r.Some? ==> forall i :: 0 <= i < |m.points| ==>
              r.value[i].cy == m.points[i].y && r.value[i].r == dotRadius && r.value[i].fill == "currentColor" &&
              (Shifted(stagger, m.rows, m.points[i].y) ==> r.value[i].cx == m.points[i].x + m.xStep / 2.0) &&
              (!Shifted(stagger, m.rows, m.points[i].y) ==> r.value[i].cx == m.points[i].x)
    ensures r.Some? ==> forall i :: 0 <= i < |m.markers| ==>
              r.value[|m.points| + i].cy == m.markers[i].y &&
              r.value[|m.points| + i].fill == markerColor &&
              r.value[|m.points| + i].r == m.markers[i].size.GetOr(dotRadius) &&
              (Shifted(stagger, m.rows, m.markers[i].y) ==> r.value[|m.points| + i].cx == m.markers[i].x + m.xStep / 2.0) &&
              (!Shifted(stagger, m.rows, m.markers[i].y) ==> r.value[|m.points| + i].cx == m.markers[i].x)
  {
    if m.points == [] then None
    else
      Some(seq(|m.points|, i requires 0 <= i < |m.points| => Dot(m, m.points[i], dotRadius, stagger)) +
           seq(|m.markers|, i requires 0 <= i < |m.markers| => Pin(m, m.markers[i], dotRadius, markerColor, stagger)))
  }

  /** Staggering never pushes a dot onto or past its right neighbour: half
      the step is less than every gap the step was taken from. */
  lemma ShiftStaysInsideGap(s: seq<Point>, i: int)
    requires Measured(s, i)
    ensures s[i - 1].x < s[i - 1].x + XStep(s) / 2.0 < s[i].x
  {
  }

  /** A failed generation draws nothing. */
  lemma FailureDrawsNothing(m: MapData, dotRadius: real, markerColor: string, stagger: bool)
    requires m == MapData([], [], 1.0, map[])
    ensures Render(m, dotRadius, markerColor, stagger) == None
  {
  }
}
