/** The option canvas (components/LineCanvas.tsx): the layout that gives each
    option angle an anchor point in one of four quadrants, the hit test of a
    pointer against a line segment, the choice of the closest hit line, and
    the component state that clicks and pointer moves update.

    Coordinates are reals in canvas pixels with y growing downwards. The end
    point of a line (anchor plus `cos`/`sin` of the angle times the length) is
    not computed here: the component receives it as a function, and the hit
    test compares squared distances with 5 * 5 instead of taking roots. */
module Canvas {
  import opened Wrappers
  import SettingsContext
  import StimulusGenerator

  datatype Point = Point(x: real, y: real)

  datatype Line = Line(angle: real, id: string, quadrant: int, position: Point)

  /** The optional `selectedAngle` prop: omitted (`undefined`), `null`, or an
      angle. */
  datatype SelectedProp = Omitted | NullAngle | Angle(value: real)

  // ---------------------------------------------------------------------
  // Layout
  // ---------------------------------------------------------------------

  /** `Math.ceil(n / 4)`: the number of lines per quadrant. */
  function PerQuadrant(n: nat): (m: nat)
    ensures n > 0 ==> m >= 1
    ensures n <= 4 * m && 4 * m < n + 4
  {
    (n + 3) / 4
  }

  /** Position within a quadrant, as fractions of the quadrant's inner size,
      for the `indexInQuadrant`-th of `perQuadrant` lines: the centre for one
      line, a diagonal for two, a triangle for three, a 2x2 grid otherwise. */
  function Offset(perQuadrant: int, indexInQuadrant: nat): (off: (real, real))
    ensures 0.2 <= off.0 <= 0.8 && 0.2 <= off.1 <= 0.8
  {
    if perQuadrant == 1 then (0.5, 0.5)
    else if perQuadrant == 2 then
      (if indexInQuadrant == 0 then (0.25, 0.25) else (0.75, 0.75))
    else if perQuadrant == 3 then
      (if indexInQuadrant == 0 then (0.5, 0.2)
       else if indexInQuadrant == 1 then (0.2, 0.75)
       else (0.8, 0.75))
    else
      ((if indexInQuadrant % 2 == 0 then 0.2 else 0.8),
       (if indexInQuadrant / 2 == 0 then 0.2 else 0.8))
  }

  /** The anchor of a line: a 10% margin, the inner area split in two halves
      per axis, even quadrants on the left, quadrants 0 and 1 on top. */
  function Anchor(quadrant: int, indexInQuadrant: nat, perQuadrant: int, size: real): Point {
    var margin := size * 0.1;
    var innerSize := size - margin * 2.0;
    var halfInnerSize := innerSize / 2.0;
    var leftX := margin;
    var rightX := margin + halfInnerSize;
    var topY := margin;
    var bottomY := margin + halfInnerSize;
    var off := Offset(perQuadrant, indexInQuadrant);
    Point(
      (if quadrant % 2 == 0 then leftX else rightX) + halfInnerSize * off.0,
      (if quadrant < 2 then topY else bottomY) + halfInnerSize * off.1)
  }

  /** The layout effect's `angles.map`: line `i` goes to quadrant
      `floor(i / ceil(n / 4))`. */
  function Layout(angles: seq<real>, size: real, ids: seq<string>): seq<Line>
    requires |ids| == |angles|
  {
    var perQuadrant := PerQuadrant(|angles|);
    seq(|angles|, i requires 0 <= i < |angles| =>
      Line(angles[i], ids[i], i / perQuadrant, Anchor(i / perQuadrant, i % perQuadrant, perQuadrant, size)))
  }

  /** Every index below `n` falls in one of the four quadrants. */
  lemma QuadrantInRange(i: nat, n: nat)
    requires i < n
    ensures 0 <= i / PerQuadrant(n) <= 3
  {
    var m := PerQuadrant(n);
    var q := i / m;
    assert q * m <= i < 4 * m;
  }

  /** One line per angle, in order, with the angle and the id kept and the
      quadrant in 0..3. */
  lemma LayoutShape(angles: seq<real>, size: real, ids: seq<string>)
    requires |ids| == |angles|
    ensures |Layout(angles, size, ids)| == |angles|
    ensures forall i :: 0 <= i < |angles| ==>
      && Layout(angles, size, ids)[i].angle == angles[i]
      && Layout(angles, size, ids)[i].id == ids[i]
      && Layout(angles, size, ids)[i].quadrant == i / PerQuadrant(|angles|)
      && 0 <= Layout(angles, size, ids)[i].quadrant <= 3
  {
    forall i | 0 <= i < |angles| ensures 0 <= i / PerQuadrant(|angles|) <= 3 {
      QuadrantInRange(i, |angles|);
    }
  }

  /** The anchor's coordinates are the canvas size times a fraction fixed by
      the quadrant and the offset. */
  lemma AnchorScaled(quadrant: int, indexInQuadrant: nat, perQuadrant: int, size: real)
    ensures var off := Offset(perQuadrant, indexInQuadrant);
      && Anchor(quadrant, indexInQuadrant, perQuadrant, size).x
           == size * ((if quadrant % 2 == 0 then 0.1 else 0.5) + 0.4 * off.0)
      && Anchor(quadrant, indexInQuadrant, perQuadrant, size).y
           == size * ((if quadrant < 2 then 0.1 else 0.5) + 0.4 * off.1)
  {
  }

  /** Even quadrants lie left of the vertical midline and odd ones right of
      it; quadrants 0 and 1 lie above the horizontal midline and 2 and 3 below
      it. */
  lemma AnchorSide(quadrant: int, indexInQuadrant: nat, perQuadrant: int, size: real)
    requires size > 0.0
    ensures var p := Anchor(quadrant, indexInQuadrant, perQuadrant, size);
      && (quadrant % 2 == 0 <==> p.x < size / 2.0)
      && (quadrant < 2 <==> p.y < size / 2.0)
  {
    AnchorScaled(quadrant, indexInQuadrant, perQuadrant, size);
    var off := Offset(perQuadrant, indexInQuadrant);
    var fx := (if quadrant % 2 == 0 then 0.1 else 0.5) + 0.4 * off.0;
    var fy := (if quadrant < 2 then 0.1 else 0.5) + 0.4 * off.1;
    assert quadrant % 2 == 0 <==> fx < 0.5;
    assert quadrant < 2 <==> fy < 0.5;
    ScaleBelowHalf(size, fx);
    ScaleBelowHalf(size, fy);
  }

  /** For a positive size, `size * f < size / 2` exactly when `f < 1/2`. */
  lemma ScaleBelowHalf(size: real, f: real)
    requires size > 0.0
    ensures size * f < size / 2.0 <==> f < 0.5
  {
    assert size * f - size / 2.0 == size * (f - 0.5);
    if f < 0.5 {
      assert size * (0.5 - f) > 0.0;
    } else {
      assert size * (f - 0.5) >= 0.0;
    }
  }

  /** Every anchor stays inside the 10% margin on both axes. */
  lemma AnchorInMargin(quadrant: int, indexInQuadrant: nat, perQuadrant: int, size: real)
    requires size >= 0.0
    ensures var p := Anchor(quadrant, indexInQuadrant, perQuadrant, size);
      && size * 0.1 <= p.x <= size * 0.9
      && size * 0.1 <= p.y <= size * 0.9
  {
    AnchorScaled(quadrant, indexInQuadrant, perQuadrant, size);
    var off := Offset(perQuadrant, indexInQuadrant);
    var fx := (if quadrant % 2 == 0 then 0.1 else 0.5) + 0.4 * off.0;
    var fy := (if quadrant < 2 then 0.1 else 0.5) + 0.4 * off.1;
    ScaleBetween(size, fx);
    ScaleBetween(size, fy);
  }

  lemma ScaleBetween(size: real, f: real)
    requires size >= 0.0 && 0.1 <= f <= 0.9
    ensures size * 0.1 <= size * f <= size * 0.9
  {
    assert size * f - size * 0.1 == size * (f - 0.1);
    assert size * 0.9 - size * f == size * (0.9 - f);
  }

  /** With at most four lines per quadrant, distinct indices within a quadrant
      get distinct offsets. */
  lemma OffsetsDistinct(perQuadrant: int, i: nat, j: nat)
    requires 1 <= perQuadrant <= 4 && i < perQuadrant && j < perQuadrant && i != j
    ensures Offset(perQuadrant, i) != Offset(perQuadrant, j)
  {
  }

  /** Scaling by a positive size keeps distinct fractions distinct. */
  lemma ScaleInjective(size: real, f: real, g: real)
    requires size > 0.0 && f != g
    ensures size * f != size * g
  {
    assert size * f - size * g == size * (f - g);
    if f < g {
      assert size * (g - f) > 0.0;
    } else {
      assert size * (f - g) > 0.0;
    }
  }

  /** Within one quadrant, distinct offsets give distinct anchors. */
  lemma AnchorInjective(quadrant: int, i: nat, j: nat, perQuadrant: int, size: real)
    requires 1 <= perQuadrant <= 4 && i < perQuadrant && j < perQuadrant && i != j
    requires size > 0.0
    ensures Anchor(quadrant, i, perQuadrant, size) != Anchor(quadrant, j, perQuadrant, size)
  {
    OffsetsDistinct(perQuadrant, i, j);
    AnchorScaled(quadrant, i, perQuadrant, size);
    AnchorScaled(quadrant, j, perQuadrant, size);
    var oi, oj := Offset(perQuadrant, i), Offset(perQuadrant, j);
    var baseX := if quadrant % 2 == 0 then 0.1 else 0.5;
    var baseY := if quadrant < 2 then 0.1 else 0.5;
    if oi.0 != oj.0 {
      ScaleInjective(size, baseX + 0.4 * oi.0, baseX + 0.4 * oj.0);
    } else {
      ScaleInjective(size, baseY + 0.4 * oi.1, baseY + 0.4 * oj.1);
    }
  }

  /** Distinct indices differ in their block or in their place in it. */
  lemma DivModDistinct(i: nat, j: nat, m: nat)
    requires m > 0 && i != j
    ensures i / m != j / m || i % m != j % m
  {
    assert i == (i / m) * m + i % m;
    assert j == (j / m) * m + j % m;
  }

  /** With at most 16 lines and a positive size, no two lines share an
      anchor: within a quadrant the offset patterns differ, across quadrants
      the midlines separate them. */
  lemma AnchorsDistinct(angles: seq<real>, size: real, ids: seq<string>, i: nat, j: nat)
    requires |ids| == |angles| && |angles| <= 16 && size > 0.0
    requires i < |angles| && j < |angles| && i != j
    ensures Layout(angles, size, ids)[i].position != Layout(angles, size, ids)[j].position
  {
    var n := |angles|;
    var m := PerQuadrant(n);
    assert 1 <= m <= 4;
    var qi, qj := i / m, j / m;
    var ri, rj := i % m, j % m;
    assert qi != qj || ri != rj by {
      DivModDistinct(i, j, m);
    }
    assert Layout(angles, size, ids)[i].position == Anchor(qi, ri, m, size);
    assert Layout(angles, size, ids)[j].position == Anchor(qj, rj, m, size);
    if qi == qj {
      AnchorInjective(qi, ri, rj, m, size);
    } else {
      QuadrantInRange(i, n);
      QuadrantInRange(j, n);
      assert Anchor(qi, ri, m, size) != Anchor(qj, rj, m, size) by {
        AnchorSide(qi, ri, m, size);
        AnchorSide(qj, rj, m, size);
      }
    }
  }

  /** The 16-line bound is tight: with 17 lines a quadrant holds five, and
      the third and the fifth line of quadrant 0 share the anchor at offset
      (0.2, 0.8). */
  lemma SeventeenLinesCollide(size: real)
    ensures var angles := seq(17, i => 0.0);
      var ids := seq(17, i => "");
      Layout(angles, size, ids)[2].position == Layout(angles, size, ids)[4].position
  {
    assert PerQuadrant(17) == 5;
  }

  /** An index in `[q * m, (q + 1) * m)` lies in block `q` of size `m`. */
  lemma BlockOfIndex(i: nat, m: nat, q: int)
    requires m > 0 && q * m <= i < q * m + m
    ensures i / m == q
  {
    var d, r := i / m, i % m;
    assert i == d * m + r && 0 <= r < m;
    assert (d - q) * m == d * m - q * m;
    NoMultipleBetween(d - q, m);
  }

  /** The only multiple of a positive `m` strictly between `-m` and `m` is
      zero. */
  lemma NoMultipleBetween(x: int, m: int)
    requires m > 0 && -m < x * m < m
    ensures x == 0
  {
  }

  /** The generator's correct-quadrant range `[(c - 1) * apq, c * apq)` over
      its `4 * apq` options is block `c - 1` of the layout's quadrants. */
  lemma CorrectRangeQuadrant(n: nat, anglesPerQuadrant: int, correctQuadrant: int, i: nat)
    requires anglesPerQuadrant >= 1 && 1 <= correctQuadrant <= 4
    requires n == StimulusGenerator.OptionCount(anglesPerQuadrant)
    requires StimulusGenerator.QuadrantStart(correctQuadrant, anglesPerQuadrant) <= i
    requires i < StimulusGenerator.QuadrantEnd(correctQuadrant, anglesPerQuadrant)
    ensures i < n && i / PerQuadrant(n) == correctQuadrant - 1
  {
    var m := PerQuadrant(n);
    var q := correctQuadrant - 1;
    assert m == anglesPerQuadrant by {
      assert n == 4 * anglesPerQuadrant;
    }
    assert q * m <= i < q * m + m && i < 4 * m by {
      assert correctQuadrant * m <= 4 * m;
    }
    BlockOfIndex(i, m, q);
  }

  /** Drawn on the canvas, that range lies in quadrant `c - 1`: left of the
      vertical midline for quadrants 1 and 3, above the horizontal one for 1
      and 2. */
  lemma CorrectRangeOnScreen(options: seq<real>, size: real, ids: seq<string>, anglesPerQuadrant: int, correctQuadrant: int, i: nat)
    requires anglesPerQuadrant >= 1 && 1 <= correctQuadrant <= 4 && size > 0.0
    requires |options| == StimulusGenerator.OptionCount(anglesPerQuadrant) && |ids| == |options|
    requires StimulusGenerator.QuadrantStart(correctQuadrant, anglesPerQuadrant) <= i
    requires i < StimulusGenerator.QuadrantEnd(correctQuadrant, anglesPerQuadrant)
    ensures i < |options|
    ensures Layout(options, size, ids)[i].quadrant == correctQuadrant - 1
    ensures var pt := Layout(options, size, ids)[i].position;
      && (correctQuadrant % 2 == 1 <==> pt.x < size / 2.0)
      && (correctQuadrant <= 2 <==> pt.y < size / 2.0)
  {
    CorrectRangeQuadrant(|options|, anglesPerQuadrant, correctQuadrant, i);
    var m := PerQuadrant(|options|);
    var q := correctQuadrant - 1;
    var pt := Anchor(q, i % m, m, size);
    assert Layout(options, size, ids)[i] == Line(options[i], ids[i], q, pt);
    assert (q % 2 == 0 <==> pt.x < size / 2.0) && (q < 2 <==> pt.y < size / 2.0) by {
      AnchorSide(q, i % m, m, size);
    }
  }

  /** On the canvas, a stimulus generated with `useCorrectQuadrant` shows a
      line at its target angle in the chosen quadrant. */
  lemma TargetShownInCorrectQuadrant(s: StimulusGenerator.Stimulus, settings: SettingsContext.Settings, index: nat, size: real, ids: seq<string>)
    requires StimulusGenerator.Conforms(s, settings, index)
    requires settings.useCorrectQuadrant && settings.anglesPerQuadrant >= 1 && 1 <= settings.correctQuadrant <= 4
    requires size > 0.0 && |ids| == |s.options|
    ensures exists j ::
      && 0 <= j < |s.options|
      && Layout(s.options, size, ids)[j].angle == s.targetAngle
      && Layout(s.options, size, ids)[j].quadrant == settings.correctQuadrant - 1
  {
    var j :| 0 <= j < |s.options| &&
      StimulusGenerator.QuadrantStart(settings.correctQuadrant, settings.anglesPerQuadrant) <= j <
        StimulusGenerator.QuadrantEnd(settings.correctQuadrant, settings.anglesPerQuadrant) &&
      s.options[j] == s.targetAngle;
    CorrectRangeOnScreen(s.options, size, ids, settings.anglesPerQuadrant, settings.correctQuadrant, j);
  }

  // ---------------------------------------------------------------------
  // Hit test
  // ---------------------------------------------------------------------

  /** The square of a real. */
  function Sq(x: real): (q: real)
    ensures q >= 0.0
  {
    SqNonneg(x);
    x * x
  }

  /** Squares are non-negative. */
  lemma SqNonneg(x: real)
    ensures x * x >= 0.0
  {
    if x > 0.0 {
      calc { x * x; > 0.0; }
    } else if x < 0.0 {
      calc { x * x; (-x) * (-x); > 0.0; }
    }
  }

  /** Squares of non-zero reals are positive. */
  lemma SqPos(x: real)
    requires x != 0.0
    ensures Sq(x) > 0.0
  {
    if x > 0.0 {
      calc { Sq(x); x * x; > 0.0; }
    } else {
      calc { Sq(x); x * x; (-x) * (-x); > 0.0; }
    }
  }

  /** A sum of two squares is zero only when both are zero. */
  lemma SumSqZero(u: real, v: real)
    requires Sq(u) + Sq(v) == 0.0
    ensures u == 0.0 && v == 0.0
  {
    if u != 0.0 {
      SqPos(u);
    }
    if v != 0.0 {
      SqPos(v);
    }
  }

  /** The square of `w - s v` expanded. */
  lemma SqShift(w: real, v: real, s: real)
    ensures Sq(w - s * v) == Sq(w) - 2.0 * s * (w * v) + s * s * Sq(v)
  {
    calc {
      Sq(w - s * v);
      (w - s * v) * (w - s * v);
      w * w - 2.0 * s * (w * v) + s * s * (v * v);
    }
  }

  /** The squared distance between two points. */
  function Dist2(p: Point, q: Point): (d: real)
    ensures d >= 0.0
  {
    Sq(p.x - q.x) + Sq(p.y - q.y)
  }

  /** The squared length of the segment from `a` to `e`. */
  function Len2(a: Point, e: Point): (l: real)
    ensures l >= 0.0
  {
    Sq(e.x - a.x) + Sq(e.y - a.y)
  }

  /** The dot product of `p - a` with the segment direction `e - a`. */
  function Dot(p: Point, a: Point, e: Point): real {
    (p.x - a.x) * (e.x - a.x) + (p.y - a.y) * (e.y - a.y)
  }

  /** The point of the segment from `a` to `e` at parameter `s`. */
  function Lerp(a: Point, e: Point, s: real): Point {
    Point(a.x + s * (e.x - a.x), a.y + s * (e.y - a.y))
  }

  /** The squared distance to a point of the segment, as a polynomial in the
      segment parameter. */
  lemma Dist2AlongSegment(p: Point, a: Point, e: Point, s: real)
    ensures Dist2(p, Lerp(a, e, s)) == Dist2(p, a) - 2.0 * s * Dot(p, a, e) + s * s * Len2(a, e)
  {
    var vx, vy := e.x - a.x, e.y - a.y;
    var wx, wy := p.x - a.x, p.y - a.y;
    assert p.x - Lerp(a, e, s).x == wx - s * vx;
    assert p.y - Lerp(a, e, s).y == wy - s * vy;
    SqShift(wx, vx, s);
    SqShift(wy, vy, s);
  }

  /** A segment of squared length zero ends where it starts. */
  lemma ZeroLength(a: Point, e: Point)
    ensures Len2(a, e) == 0.0 <==> a == e
  {
    if Len2(a, e) == 0.0 {
      SumSqZero(e.x - a.x, e.y - a.y);
    }
  }

  /** `isPointNearLine` with the end point given: the distance from `p` to the
      anchor when the segment is degenerate or the projection parameter `t`
      falls before it, to the end point when `t` falls past it, to the
      projected point otherwise; a hit when that distance is at most 5. */
  predicate NearLine(p: Point, a: Point, e: Point) {
    if Len2(a, e) == 0.0 then Dist2(p, a) <= 25.0
    else
      var t := Dot(p, a, e) / Len2(a, e);
      if t < 0.0 then Dist2(p, a) <= 25.0
      else if t > 1.0 then Dist2(p, e) <= 25.0
      else Dist2(p, Lerp(a, e, t)) <= 25.0
  }

  /** A pointer exactly on a line's anchor always hits it, whatever the angle. */
  lemma AnchorIsHit(a: Point, e: Point)
    ensures NearLine(a, a, e)
  {
    assert Dot(a, a, e) == 0.0;
    assert Dist2(a, a) == 0.0;
  }

  /** A hit means some point of the segment is within 5 of the pointer. */
  lemma HitIsNearSegment(p: Point, a: Point, e: Point)
    requires NearLine(p, a, e)
    ensures exists s :: 0.0 <= s <= 1.0 && Dist2(p, Lerp(a, e, s)) <= 25.0
  {
    assert Lerp(a, e, 0.0) == a;
    assert Lerp(a, e, 1.0) == e;
    if Len2(a, e) == 0.0 {
      assert Dist2(p, Lerp(a, e, 0.0)) <= 25.0;
    } else {
      var t := Dot(p, a, e) / Len2(a, e);
      if t < 0.0 {
        assert Dist2(p, Lerp(a, e, 0.0)) <= 25.0;
      } else if t > 1.0 {
        assert Dist2(p, Lerp(a, e, 1.0)) <= 25.0;
      } else {
        assert Dist2(p, Lerp(a, e, t)) <= 25.0;
      }
    }
  }

  /** Along the segment the squared distance is `w2 - 2 s dot + s^2 len2`. When
      the projection falls before the anchor (`dot < 0`) no point of the
      segment is closer than the anchor. */
  lemma ClosestBeforeStart(w2: real, dot: real, len2: real, s: real)
    requires len2 >= 0.0 && dot < 0.0 && 0.0 <= s <= 1.0
    ensures w2 - 2.0 * s * dot + s * s * len2 >= w2
  {
    assert s * dot <= 0.0;
    assert s * s * len2 >= 0.0;
  }

  /** When the projection falls past the end (`dot > len2`) no point of the
      segment is closer than the end point. */
  lemma ClosestPastEnd(w2: real, dot: real, len2: real, s: real)
    requires len2 > 0.0 && dot > len2 && 0.0 <= s <= 1.0
    ensures w2 - 2.0 * s * dot + s * s * len2 >= w2 - 2.0 * dot + len2
  {
    calc {
      (w2 - 2.0 * s * dot + s * s * len2) - (w2 - 2.0 * dot + len2);
      (1.0 - s) * (2.0 * dot - (1.0 + s) * len2);
    >=
      0.0;
    }
  }

  /** Otherwise the projection `t` is the closest point of the line. */
  lemma ClosestAtProjection(w2: real, dot: real, len2: real, s: real, t: real)
    requires len2 > 0.0 && dot == t * len2
    ensures w2 - 2.0 * s * dot + s * s * len2 >= w2 - 2.0 * t * dot + t * t * len2
  {
    calc {
      (w2 - 2.0 * s * dot + s * s * len2) - (w2 - 2.0 * t * dot + t * t * len2);
      len2 * Sq(s - t);
    >=
      0.0;
    }
  }

  /** The anchor is the closest point of the segment when the projection
      parameter is negative. */
  lemma ProjectionBeforeStart(p: Point, a: Point, e: Point, s: real)
    requires 0.0 <= s <= 1.0 && Len2(a, e) > 0.0 && Dot(p, a, e) / Len2(a, e) < 0.0
    ensures Dist2(p, a) <= Dist2(p, Lerp(a, e, s))
  {
    var w2, dot, len2 := Dist2(p, a), Dot(p, a, e), Len2(a, e);
    assert dot < 0.0 by {
      QuotientBelowZero(dot, len2);
    }
    assert Dist2(p, Lerp(a, e, s)) == w2 - 2.0 * s * dot + s * s * len2 by {
      Dist2AlongSegment(p, a, e, s);
    }
    ClosestBeforeStart(w2, dot, len2, s);
  }

  /** The end point is the closest point of the segment when the projection
      parameter exceeds 1. */
  lemma ProjectionPastEnd(p: Point, a: Point, e: Point, s: real)
    requires 0.0 <= s <= 1.0 && Len2(a, e) > 0.0 && Dot(p, a, e) / Len2(a, e) > 1.0
    ensures Dist2(p, e) <= Dist2(p, Lerp(a, e, s))
  {
    var w2, dot, len2 := Dist2(p, a), Dot(p, a, e), Len2(a, e);
    assert dot > len2 by {
      QuotientAboveOne(dot, len2);
    }
    assert Dist2(p, Lerp(a, e, s)) == w2 - 2.0 * s * dot + s * s * len2 by {
      Dist2AlongSegment(p, a, e, s);
    }
    assert Dist2(p, e) == w2 - 2.0 * dot + len2 by {
      Dist2AlongSegment(p, a, e, 1.0);
      assert Lerp(a, e, 1.0) == e;
    }
    assert w2 - 2.0 * s * dot + s * s * len2 >= w2 - 2.0 * dot + len2 by {
      ClosestPastEnd(w2, dot, len2, s);
    }
  }

  /** A negative quotient by a positive divisor has a negative dividend. */
  lemma QuotientBelowZero(x: real, y: real)
    requires y > 0.0 && x / y < 0.0
    ensures x < 0.0
  {
    assert x == (x / y) * y;
  }

  /** A quotient above 1 by a positive divisor has a larger dividend. */
  lemma QuotientAboveOne(x: real, y: real)
    requires y > 0.0 && x / y > 1.0
    ensures x > y
  {
    assert x == (x / y) * y;
  }

  /** The projected point is at least as close as any point of the line. */
  lemma ProjectionInside(p: Point, a: Point, e: Point, s: real)
    requires Len2(a, e) > 0.0
    ensures Dist2(p, Lerp(a, e, Dot(p, a, e) / Len2(a, e))) <= Dist2(p, Lerp(a, e, s))
  {
    var w2, dot, len2 := Dist2(p, a), Dot(p, a, e), Len2(a, e);
    var t := dot / len2;
    assert dot == t * len2;
    assert Dist2(p, Lerp(a, e, s)) == w2 - 2.0 * s * dot + s * s * len2 by {
      Dist2AlongSegment(p, a, e, s);
    }
    assert Dist2(p, Lerp(a, e, t)) == w2 - 2.0 * t * dot + t * t * len2 by {
      Dist2AlongSegment(p, a, e, t);
    }
    ClosestAtProjection(w2, dot, len2, s, t);
  }

  /** Conversely, a pointer within 5 of any point of the segment is a hit: the
      clamped projection is the closest point of the segment. */
  lemma NearSegmentIsHit(p: Point, a: Point, e: Point, s: real)
    requires 0.0 <= s <= 1.0 && Dist2(p, Lerp(a, e, s)) <= 25.0
    ensures NearLine(p, a, e)
  {
    if Len2(a, e) == 0.0 {
      ZeroLength(a, e);
      assert Lerp(a, e, s) == a;
    } else {
      var t := Dot(p, a, e) / Len2(a, e);
      if t < 0.0 {
        ProjectionBeforeStart(p, a, e, s);
      } else if t > 1.0 {
        ProjectionPastEnd(p, a, e, s);
      } else {
        ProjectionInside(p, a, e, s);
      }
    }
  }

  // ---------------------------------------------------------------------
  // Choosing among hit lines
  // ---------------------------------------------------------------------

  /** The squared `Math.hypot` distance from a line's anchor to the pointer. */
  function AnchorDist2(line: Line, p: Point): real {
    Dist2(line.position, p)
  }

  /** The closest-line `reduce` over a non-empty list: a left fold that keeps
      the running choice unless the next line is strictly closer. The index of
      the chosen line is returned. */
  function ClosestIndex(hits: seq<Line>, p: Point): (k: nat)
    requires |hits| > 0
    ensures k < |hits|
    ensures forall j :: 0 <= j < |hits| ==> AnchorDist2(hits[k], p) <= AnchorDist2(hits[j], p)
    ensures forall j :: 0 <= j < k ==> AnchorDist2(hits[j], p) > AnchorDist2(hits[k], p)
  {
    if |hits| == 1 then 0
    else
      var closest := ClosestIndex(hits[..|hits| - 1], p);
      var current := |hits| - 1;
      if AnchorDist2(hits[current], p) < AnchorDist2(hits[closest], p) then current else closest
  }

  /** The hit test for a laid-out line: its end point lies `size / 7` along
      its angle, as given by `endpoint`. */
  predicate LineHit(line: Line, p: Point, size: real, endpoint: (Point, real, real) -> Point) {
    NearLine(p, line.position, endpoint(line.position, line.angle, size / 7.0))
  }

  /** `lines.filter(line => isPointNearLine(x, y, line))`. */
  function HitLines(lines: seq<Line>, p: Point, size: real, endpoint: (Point, real, real) -> Point): (hits: seq<Line>)
    ensures |hits| <= |lines|
  {
    if lines == [] then []
    else
      var rest := HitLines(lines[1..], p, size, endpoint);
      if LineHit(lines[0], p, size, endpoint) then [lines[0]] + rest else rest
  }

  /** The filter keeps exactly the hit lines: each kept line is a hit line of
      `lines`, each hit line is kept, and nothing is kept exactly when no line
      is hit. */
  lemma {:induction false} HitLinesMembers(lines: seq<Line>, p: Point, size: real, endpoint: (Point, real, real) -> Point)
    ensures forall l :: l in HitLines(lines, p, size, endpoint) ==> l in lines && LineHit(l, p, size, endpoint)
    ensures forall l :: l in lines && LineHit(l, p, size, endpoint) ==> l in HitLines(lines, p, size, endpoint)
    ensures |HitLines(lines, p, size, endpoint)| == 0 <==> forall l :: l in lines ==> !LineHit(l, p, size, endpoint)
  {
    if lines != [] {
      HitLinesMembers(lines[1..], p, size, endpoint);
      assert forall l :: l in lines ==> l == lines[0] || l in lines[1..];
    }
  }

  /** The filter distributes over concatenation: it keeps the hit lines in
      the order they have in `lines`. */
  lemma {:induction false} HitLinesAppend(a: seq<Line>, b: seq<Line>, p: Point, size: real, endpoint: (Point, real, real) -> Point)
    ensures HitLines(a + b, p, size, endpoint) == HitLines(a, p, size, endpoint) + HitLines(b, p, size, endpoint)
  {
    if a == [] {
      assert a + b == b;
    } else {
      assert (a + b)[0] == a[0];
      assert (a + b)[1..] == a[1..] + b;
      HitLinesAppend(a[1..], b, p, size, endpoint);
    }
  }

  /** The position in `lines` of the `k`-th hit line: the hits before it are
      exactly the hits among the lines before that position. */
  lemma {:induction false} HitPosition(lines: seq<Line>, p: Point, size: real, endpoint: (Point, real, real) -> Point, k: nat)
    returns (i: nat)
    ensures k < |HitLines(lines, p, size, endpoint)| ==>
      && i < |lines| && lines[i] == HitLines(lines, p, size, endpoint)[k]
      && HitLines(lines[..i], p, size, endpoint) == HitLines(lines, p, size, endpoint)[..k]
  {
    var hits := HitLines(lines, p, size, endpoint);
    if k >= |hits| {
      return 0;
    }
    assert lines != [];
    var rest := HitLines(lines[1..], p, size, endpoint);
    var hit := LineHit(lines[0], p, size, endpoint);
    if hit && k == 0 {
      i := 0;
      assert lines[..0] == [];
    } else {
      var k' := if hit then k - 1 else k;
      var i' := HitPosition(lines[1..], p, size, endpoint, k');
      i := i' + 1;
      assert lines[..i][0] == lines[0];
      assert lines[..i][1..] == lines[1..][..i'];
      assert HitLines(lines[..i], p, size, endpoint) == (if hit then [lines[0]] else []) + rest[..k'];
      if hit {
        assert hits == [lines[0]] + rest;
        assert hits[..k] == [lines[0]] + rest[..k'];
      }
    }
  }

  /** The line a click or hover resolves to, if any: a hit line nearest the
      pointer, and of those the earliest in `lines`. */
  function Resolve(lines: seq<Line>, p: Point, size: real, endpoint: (Point, real, real) -> Point): (r: Option<Line>)
    ensures r.None? <==> forall l :: l in lines ==> !LineHit(l, p, size, endpoint)
    ensures r.Some? ==> r.value in lines && LineHit(r.value, p, size, endpoint)
    ensures r.Some? ==> forall l :: l in lines && LineHit(l, p, size, endpoint) ==>
      AnchorDist2(r.value, p) <= AnchorDist2(l, p)
    ensures r.Some? ==>
      exists i :: 0 <= i < |lines| && lines[i] == r.value &&
        forall j :: 0 <= j < i && LineHit(lines[j], p, size, endpoint) ==> AnchorDist2(lines[j], p) > AnchorDist2(r.value, p)
  {
    var hits := HitLines(lines, p, size, endpoint);
    HitLinesMembers(lines, p, size, endpoint);
    if |hits| > 0 then
      var k := ClosestIndex(hits, p);
      assert forall l :: l in hits ==> AnchorDist2(hits[k], p) <= AnchorDist2(l, p);
      assert EarliestNearest(lines, p, size, endpoint, k) by { ClosestHitIsEarliest(lines, p, size, endpoint); }
      Some(hits[k])
    else None
  }

  /** `hits[k]` sits at some position of `lines` before which every hit line
      is strictly farther from the pointer. */
  predicate EarliestNearest(lines: seq<Line>, p: Point, size: real, endpoint: (Point, real, real) -> Point, k: nat)
  {
    && k < |HitLines(lines, p, size, endpoint)|
    && exists i ::
         && 0 <= i < |lines|
         && lines[i] == HitLines(lines, p, size, endpoint)[k]
         && forall j :: 0 <= j < i && LineHit(lines[j], p, size, endpoint) ==>
              AnchorDist2(lines[j], p) > AnchorDist2(HitLines(lines, p, size, endpoint)[k], p)
  }

  /** The reduce's choice among the hits is the earliest nearest line of
      `lines` itself. */
  lemma ClosestHitIsEarliest(lines: seq<Line>, p: Point, size: real, endpoint: (Point, real, real) -> Point)
    ensures |HitLines(lines, p, size, endpoint)| > 0 ==>
      EarliestNearest(lines, p, size, endpoint, ClosestIndex(HitLines(lines, p, size, endpoint), p))
  {
    var hits := HitLines(lines, p, size, endpoint);
    if |hits| == 0 {
      return;
    }
    var k := ClosestIndex(hits, p);
    var i := HitPosition(lines, p, size, endpoint, k);
    forall j | 0 <= j < i && LineHit(lines[j], p, size, endpoint)
      ensures AnchorDist2(lines[j], p) > AnchorDist2(hits[k], p)
    {
      assert lines[j] == lines[..i][j];
      HitLinesMembers(lines[..i], p, size, endpoint);
      assert lines[j] in HitLines(lines[..i], p, size, endpoint);
      var m :| 0 <= m < k && hits[..k][m] == lines[j];
      assert hits[m] == lines[j];
    }
  }

  // ---------------------------------------------------------------------
  // The component state
  // ---------------------------------------------------------------------

  class LineCanvas {
    /** The trigonometric end point: anchor, angle in degrees, length. */
    const endpoint: (Point, real, real) -> Point
    var size: real
    var lines: seq<Line>
    var hoveredLine: Option<Line>
    var selectedLineId: Option<string>

    constructor (size: real, endpoint: (Point, real, real) -> Point)
      ensures this.size == size && this.endpoint == endpoint
      ensures lines == [] && hoveredLine == None && selectedLineId == None
    {
      this.size := size;
      this.endpoint := endpoint;
      lines := [];
      hoveredLine := None;
      selectedLineId := None;
    }

    /** The layout effect, run when the angles or the size change. An empty
        angle list leaves the previous lines in place. The line ids are the
        random tokens the source draws. */
    method UpdateLayout(angles: seq<real>, size: real, ids: seq<string>)
      requires |ids| == |angles|
      modifies this
      ensures this.size == size
      ensures |angles| == 0 ==> lines == old(lines)
      ensures |angles| > 0 ==> lines == Layout(angles, size, ids)
      ensures hoveredLine == old(hoveredLine) && selectedLineId == old(selectedLineId)
    {
      this.size := size;
      if |angles| > 0 {
        lines := Layout(angles, size, ids);
      }
    }

    /** `handleCanvasClick`: ignored when the canvas is disabled, has no
        `onSelect`, or its `selectedAngle` prop is anything but `null` (an
        omitted prop is `undefined`, which also blocks); otherwise the
        closest hit line becomes the selected one and its angle is passed to
        `onSelect` (the returned value). */
    method HandleCanvasClick(p: Point, disabled: bool, hasOnSelect: bool, selectedAngle: SelectedProp)
      returns (selected: Option<real>)
      modifies this
      ensures lines == old(lines) && size == old(size) && hoveredLine == old(hoveredLine)
      ensures disabled || !hasOnSelect || !selectedAngle.NullAngle? ==>
        selected == None && selectedLineId == old(selectedLineId)
      ensures !disabled && hasOnSelect && selectedAngle.NullAngle? ==>
        match Resolve(lines, p, size, endpoint)
        case None => selected == None && selectedLineId == old(selectedLineId)
        case Some(line) => selected == Some(line.angle) && selectedLineId == Some(line.id)
    {
      selected := None;
      if disabled || !hasOnSelect || !selectedAngle.NullAngle? {
        return;
      }
      var closest := Resolve(lines, p, size, endpoint);
      if closest.Some? {
        selectedLineId := Some(closest.value.id);
        selected := Some(closest.value.angle);
      }
    }

    /** `handleCanvasMouseMove`: unless disabled, the hovered line becomes the
        closest hit line, or none. */
    method HandleCanvasMouseMove(p: Point, disabled: bool)
      modifies this
      ensures lines == old(lines) && size == old(size) && selectedLineId == old(selectedLineId)
      ensures disabled ==> hoveredLine == old(hoveredLine)
      ensures !disabled ==> hoveredLine == Resolve(lines, p, size, endpoint)
    {
      if disabled {
        return;
      }
      hoveredLine := Resolve(lines, p, size, endpoint);
    }

    /** `onMouseLeave`. */
    method HandleMouseLeave()
      modifies this
      ensures hoveredLine == None
      ensures lines == old(lines) && size == old(size) && selectedLineId == old(selectedLineId)
    {
      hoveredLine := None;
    }
  }
}
