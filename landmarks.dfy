/** Hand landmarks and `GestureEngine.normalize_landmarks`, shared by both engine generations:
    translate so that the first landmark is the origin, then divide every coordinate by the
    largest absolute coordinate when that is positive. Coordinates are exact reals. */
module Landmarks {

  datatype Point = Point(x: real, y: real)

  function Abs(r: real): (a: real)
    ensures a >= 0.0
  {
    if r < 0.0 then -r else r
  }

  /** The points moved by `(-origin.x, -origin.y)`. */
  function Centre(pts: seq<Point>, origin: Point): (c: seq<Point>)
    ensures |c| == |pts|
    ensures forall i :: 0 <= i < |pts| ==> c[i] == Point(pts[i].x - origin.x, pts[i].y - origin.y)
  {
    seq(|pts|, i requires 0 <= i < |pts| => Point(pts[i].x - origin.x, pts[i].y - origin.y))
  }

  function Larger(a: real, b: real): real {
    if a >= b then a else b
  }

  /** `np.max(np.abs(coords))`, taking 0 for no points. */
  function MaxAbs(pts: seq<Point>): (m: real)
    ensures m >= 0.0
  {
    if pts == [] then 0.0 else Larger(Larger(Abs(pts[0].x), Abs(pts[0].y)), MaxAbs(pts[1..]))
  }

  /** `MaxAbs` bounds every coordinate and, when positive, is attained by one of them. */
  lemma {:induction false} MaxAbsIsMax(pts: seq<Point>)
    ensures forall i :: 0 <= i < |pts| ==> Abs(pts[i].x) <= MaxAbs(pts) && Abs(pts[i].y) <= MaxAbs(pts)
    ensures MaxAbs(pts) > 0.0 ==> exists i :: 0 <= i < |pts| && (Abs(pts[i].x) == MaxAbs(pts) || Abs(pts[i].y) == MaxAbs(pts))
  {
    if pts != [] {
      var rest := pts[1..];
      MaxAbsIsMax(rest);
      forall i | 1 <= i < |pts| ensures Abs(pts[i].x) <= MaxAbs(rest) && Abs(pts[i].y) <= MaxAbs(rest) {
        assert pts[i] == rest[i - 1];
      }
      if MaxAbs(pts) > 0.0 && MaxAbs(pts) == MaxAbs(rest) && MaxAbs(rest) > Larger(Abs(pts[0].x), Abs(pts[0].y)) {
        var j :| 0 <= j < |rest| && (Abs(rest[j].x) == MaxAbs(rest) || Abs(rest[j].y) == MaxAbs(rest));
        assert pts[j + 1] == rest[j];
      }
    }
  }

  /** Every coordinate divided by `m`. */
  function Shrink(pts: seq<Point>, m: real): (r: seq<Point>)
    requires m > 0.0
    ensures |r| == |pts|
    ensures forall i :: 0 <= i < |pts| ==> r[i] == Point(pts[i].x / m, pts[i].y / m)
  {
    seq(|pts|, i requires 0 <= i < |pts| => Point(pts[i].x / m, pts[i].y / m))
  }

  /** `normalize_landmarks` (the checked generation answers `[]` for no landmarks). */
  function Normalize(pts: seq<Point>): (r: seq<Point>)
    ensures |r| == |pts|
    ensures |pts| > 0 ==> r[0] == Point(0.0, 0.0)
  {
    if pts == [] then []
    else
      var c := Centre(pts, pts[0]);
      var m := MaxAbs(c);
      if m > 0.0 then Shrink(c, m) else c
  }

  /** Every normalised coordinate lies in [-1, 1]; when the centred points are not all at the
      origin some coordinate is exactly 1 or -1, and otherwise the centred points come back
      unscaled (all at the origin). */
  lemma {:induction false} NormalizeBounds(pts: seq<Point>)
    requires pts != []
    ensures var r := Normalize(pts);
            forall i :: 0 <= i < |r| ==> Abs(r[i].x) <= 1.0 && Abs(r[i].y) <= 1.0
    ensures var m := MaxAbs(Centre(pts, pts[0]));
            m > 0.0 ==> exists i :: 0 <= i < |pts| && (Abs(Normalize(pts)[i].x) == 1.0 || Abs(Normalize(pts)[i].y) == 1.0)
    ensures var c := Centre(pts, pts[0]);
            MaxAbs(c) == 0.0 ==> Normalize(pts) == c && forall i :: 0 <= i < |c| ==> c[i] == Point(0.0, 0.0)
  {
    var c := Centre(pts, pts[0]);
    var m := MaxAbs(c);
    var r := Normalize(pts);
    MaxAbsIsMax(c);
    if m > 0.0 {
      forall i | 0 <= i < |r| ensures Abs(r[i].x) <= 1.0 && Abs(r[i].y) <= 1.0 {
        DivideBounded(c[i].x, m);
        DivideBounded(c[i].y, m);
      }
      var k :| 0 <= k < |c| && (Abs(c[k].x) == m || Abs(c[k].y) == m);
      DivideBounded(c[k].x, m);
      DivideBounded(c[k].y, m);
    } else {
      forall i | 0 <= i < |c| ensures c[i] == Point(0.0, 0.0) {
        assert Abs(c[i].x) <= 0.0 && Abs(c[i].y) <= 0.0;
      }
    }
  }

  lemma DivideBounded(v: real, m: real)
    requires m > 0.0 && Abs(v) <= m
    ensures Abs(v / m) <= 1.0
    ensures Abs(v) == m ==> Abs(v / m) == 1.0
  {
    var q := v / m;
    assert q * m == v;
    CancelFactor(q, 1.0, m);
    CancelFactor(-1.0, q, m);
    if v == m {
      CancelFactor(1.0, q, m);
    } else if v == -m {
      CancelFactor(q, -1.0, m);
    }
  }

  /** A positive factor can be cancelled from both sides of `<=`. */
  lemma CancelFactor(a: real, b: real, m: real)
    requires m > 0.0
    ensures a * m <= b * m ==> a <= b
  {
  }

  /** Every point moved by the same offset. */
  function Shift(pts: seq<Point>, dx: real, dy: real): (r: seq<Point>)
    ensures |r| == |pts|
    ensures forall i :: 0 <= i < |pts| ==> r[i] == Point(pts[i].x + dx, pts[i].y + dy)
  {
    seq(|pts|, i requires 0 <= i < |pts| => Point(pts[i].x + dx, pts[i].y + dy))
  }

  /** Where the hand is in the camera frame does not matter. */
  lemma {:induction false} NormalizeShift(pts: seq<Point>, dx: real, dy: real)
    ensures Normalize(Shift(pts, dx, dy)) == Normalize(pts)
  {
    if pts != [] {
      var s := Shift(pts, dx, dy);
      assert Centre(s, s[0]) == Centre(pts, pts[0]);
    }
  }

  /** Every coordinate multiplied by `k`: the same hand nearer to or farther from the camera. */
  function Scale(pts: seq<Point>, k: real): (r: seq<Point>)
    ensures |r| == |pts|
    ensures forall i :: 0 <= i < |pts| ==> r[i] == Point(k * pts[i].x, k * pts[i].y)
  {
    seq(|pts|, i requires 0 <= i < |pts| => Point(k * pts[i].x, k * pts[i].y))
  }

  /** How large the hand appears does not matter either: normalising removes any positive
      scale factor. */
  lemma NormalizeScale(pts: seq<Point>, k: real)
    requires k > 0.0
    ensures Normalize(Scale(pts, k)) == Normalize(pts)
  {
    if pts != [] {
      var s := Scale(pts, k);
      var c := Centre(pts, pts[0]);
      var m := MaxAbs(c);
      var f := (r: real) => k * r;
      CentreScale(pts, k);
      MaxAbsScaleBy(c, k, f);
      TimesApplied(f, k, m);
      if m > 0.0 {
        ShrinkScale(c, k, m);
        NormalizeSpread(s, Scale(c, k), k * m);
        NormalizeSpread(pts, c, m);
      } else {
        NormalizeBounds(pts);
        ZeroScale(c, k);
      }
    }
  }

  /** `Normalize` of points whose centred form and its largest coordinate are known. */
  lemma NormalizeSpread(pts: seq<Point>, c: seq<Point>, m: real)
    requires pts != [] && c == Centre(pts, pts[0]) && m == MaxAbs(c) && m > 0.0
    ensures Normalize(pts) == Shrink(c, m)
  {
  }

  /** Centring commutes with scaling. */
  lemma CentreScale(pts: seq<Point>, k: real)
    requires pts != []
    ensures var s := Scale(pts, k);
            Centre(s, s[0]) == Scale(Centre(pts, pts[0]), k)
  {
    var s := Scale(pts, k);
    var c := Centre(pts, pts[0]);
    forall i | 0 <= i < |pts| ensures Centre(s, s[0])[i] == Scale(c, k)[i] {
      ScaleDifference(pts[i].x, pts[0].x, k);
      ScaleDifference(pts[i].y, pts[0].y, k);
    }
  }

  /** Dividing scaled points by the scaled maximum undoes the scaling. */
  lemma ShrinkScale(c: seq<Point>, k: real, m: real)
    requires k > 0.0 && m > 0.0
    ensures k * m > 0.0
    ensures Shrink(Scale(c, k), k * m) == Shrink(c, m)
  {
    forall i | 0 <= i < |c| ensures Shrink(Scale(c, k), k * m)[i] == Shrink(c, m)[i] {
      CancelCommonFactor(c[i].x, k, m);
      CancelCommonFactor(c[i].y, k, m);
    }
  }

  lemma ZeroScale(c: seq<Point>, k: real)
    requires forall i :: 0 <= i < |c| ==> c[i] == Point(0.0, 0.0)
    ensures Scale(c, k) == c
  {
  }

  lemma CancelCommonFactor(a: real, k: real, m: real)
    requires k > 0.0 && m > 0.0
    ensures (k * a) / (k * m) == a / m
  {
    var q := a / m;
    assert q * m == a;
    assert q * (k * m) == k * a;
  }

  lemma ScaleDifference(a: real, b: real, k: real)
    ensures k * a - k * b == k * (a - b)
  {
  }

  lemma AbsScale(a: real, k: real)
    requires k > 0.0
    ensures Abs(k * a) == k * Abs(a)
  {
    if a < 0.0 {
      assert k * a == -(k * -a);
    }
  }

  lemma ScaleMonotone(a: real, b: real, k: real)
    requires k > 0.0 && a >= b
    ensures k * a >= k * b
  {
    assert k * a - k * b == k * (a - b);
  }

  /** The largest coordinate scales with the points, through `f(r) == k * r`. */
  lemma MaxAbsScaleBy(pts: seq<Point>, k: real, f: real -> real)
    requires k > 0.0
    requires forall r :: f(r) == k * r
    ensures MaxAbs(Scale(pts, k)) == f(MaxAbs(pts))
  {
    var s := Scale(pts, k);
    forall i | 0 <= i < |pts| ensures Abs(s[i].x) == f(Abs(pts[i].x)) && Abs(s[i].y) == f(Abs(pts[i].y)) {
      AbsScale(pts[i].x, k);
      AbsScale(pts[i].y, k);
    }
    TimesMonotone(f, k);
    MaxAbsMonotone(pts, s, f);
  }

  lemma TimesApplied(f: real -> real, k: real, r: real)
    requires forall r :: f(r) == k * r
    ensures f(r) == k * r
  {
  }

  lemma TimesMonotone(f: real -> real, k: real)
    requires k > 0.0
    requires forall r :: f(r) == k * r
    ensures f(0.0) == 0.0
    ensures forall a, b :: a >= b ==> f(a) >= f(b)
  {
    forall a: real, b: real | a >= b ensures f(a) >= f(b) {
      ScaleMonotone(a, b, k);
    }
  }

  /** `MaxAbs` commutes with any non-decreasing map of the magnitudes that fixes 0. */
  lemma {:induction false} MaxAbsMonotone(pts: seq<Point>, s: seq<Point>, f: real -> real)
    requires f(0.0) == 0.0
    requires forall a, b :: a >= b ==> f(a) >= f(b)
    requires |s| == |pts|
    requires forall i :: 0 <= i < |pts| ==> Abs(s[i].x) == f(Abs(pts[i].x)) && Abs(s[i].y) == f(Abs(pts[i].y))
    ensures MaxAbs(s) == f(MaxAbs(pts))
  {
    if pts != [] {
      assert forall i :: 0 <= i < |pts| - 1 ==> s[1..][i] == s[i + 1] && pts[1..][i] == pts[i + 1];
      MaxAbsMonotone(pts[1..], s[1..], f);
      var a, b := Abs(pts[0].x), Abs(pts[0].y);
      assert Larger(f(a), f(b)) == f(Larger(a, b));
      assert Larger(f(Larger(a, b)), f(MaxAbs(pts[1..]))) == f(Larger(Larger(a, b), MaxAbs(pts[1..])));
    }
  }

  /** A normalised template normalises to itself, so saved templates and live landmarks are
      compared on the same footing. */
  lemma {:induction false} NormalizeIdempotent(pts: seq<Point>)
    ensures Normalize(Normalize(pts)) == Normalize(pts)
  {
    if pts != [] {
      var r := Normalize(pts);
      var c := Centre(pts, pts[0]);
      var m := MaxAbs(c);
      NormalizeBounds(pts);
      assert Centre(r, r[0]) == r;
      if m > 0.0 {
        var k :| 0 <= k < |pts| && (Abs(r[k].x) == 1.0 || Abs(r[k].y) == 1.0);
        MaxAbsIsMax(r);
        MaxAbsAtMost(r, 1.0);
        assert MaxAbs(r) == 1.0;
        assert Shrink(r, 1.0) == r;
      } else {
        MaxAbsAtMost(r, 0.0);
      }
    }
  }

  /** A bound on every coordinate bounds `MaxAbs`. */
  lemma {:induction false} MaxAbsAtMost(pts: seq<Point>, b: real)
    requires b >= 0.0
    requires forall i :: 0 <= i < |pts| ==> Abs(pts[i].x) <= b && Abs(pts[i].y) <= b
    ensures MaxAbs(pts) <= b
  {
    if pts != [] {
      assert forall i :: 0 <= i < |pts[1..]| ==> pts[1..][i] == pts[i + 1];
      MaxAbsAtMost(pts[1..], b);
    }
  }
}
