/** The first-generation classifier (`gesture_engine.py`): normalise the live landmarks and
    return the nearest saved template when it is closer than the threshold. This generation
    checks nothing: an empty landmark list fails at `landmarks[0]`, and templates of another
    length fail in the numpy subtraction, so callers must avoid both. */
module Engine {
  import opened Strings
  import opened Landmarks
  import opened Matching

  /** `find_matching_gesture` as a value. */
  function Classify(pts: seq<Point>, saved: seq<Template>, threshold: real, dist: (Point, Point) -> real): (m: Match)
    requires |pts| > 0 && SameShape(pts, saved)
    ensures saved == [] ==> m == Match(None, PosInf)
    ensures m.name.Some? ==> m.dist.Fin? && m.dist.value < threshold
    ensures m.name.Some? ==> exists k :: 0 <= k < |saved| && saved[k].0 == m.name.value
  {
    Nearest(Normalize(pts), saved, threshold, dist)
  }

  /** `GestureEngine.find_matching_gesture`: the loop keeps the first template with the
      smallest distance seen so far, then the threshold decides whether its name is reported. */
  method FindMatching(pts: seq<Point>, saved: seq<Template>, threshold: real, dist: (Point, Point) -> real)
      returns (m: Match)
    requires |pts| > 0 && SameShape(pts, saved)
    ensures m == Classify(pts, saved, threshold, dist)
    ensures saved == [] ==> m == Match(None, PosInf)
    ensures m.name.Some? ==> m.dist.Fin? && m.dist.value < threshold
  {
    var q := Normalize(pts);
    ghost var ds := Distances(q, saved, dist);
    var best: Option<string> := None;
    var minDist: Extended := PosInf;
    for i := 0 to |saved|
      invariant Lowest(ds[..i]).NoBest? ==> best == None && minDist == PosInf
      invariant Lowest(ds[..i]).BestAt? ==>
                  Lowest(ds[..i]).index < i
                  && best == Some(saved[Lowest(ds[..i]).index].0)
                  && minDist == Fin(Lowest(ds[..i]).dist)
    {
      var d := MeanDist(q, saved[i].1, dist);
      assert ds[..i + 1][..i] == ds[..i] && ds[..i + 1][i] == d;
      if minDist.PosInf? || d < minDist.value {
        minDist := Fin(d);
        best := Some(saved[i].0);
      }
    }
    assert ds[..|saved|] == ds;
    if minDist.Fin? && minDist.value < threshold {
      m := Match(best, minDist);
    } else {
      m := Match(None, minDist);
    }
  }

  /** Moving the whole hand within the camera frame never changes the answer. */
  lemma {:induction false} ClassifyShift(pts: seq<Point>, dx: real, dy: real, saved: seq<Template>, threshold: real, dist: (Point, Point) -> real)
    requires |pts| > 0 && SameShape(pts, saved)
    ensures |Shift(pts, dx, dy)| > 0 && SameShape(Shift(pts, dx, dy), saved)
    ensures Classify(Shift(pts, dx, dy), saved, threshold, dist) == Classify(pts, saved, threshold, dist)
  {
    NormalizeShift(pts, dx, dy);
  }

  /** Nor does the apparent size of the hand. */
  lemma {:induction false} ClassifyScale(pts: seq<Point>, k: real, saved: seq<Template>, threshold: real, dist: (Point, Point) -> real)
    requires |pts| > 0 && SameShape(pts, saved) && k > 0.0
    ensures |Scale(pts, k)| > 0 && SameShape(Scale(pts, k), saved)
    ensures Classify(Scale(pts, k), saved, threshold, dist) == Classify(pts, saved, threshold, dist)
  {
    NormalizeScale(pts, k);
  }

  /** Landmarks saved as their own normalisation are recognised again: the first template
      at distance 0 is reported whenever the threshold is positive. */
  lemma {:induction false} SavedGestureRecognised(pts: seq<Point>, saved: seq<Template>, k: nat, threshold: real, dist: (Point, Point) -> real)
    requires |pts| > 0 && SameShape(pts, saved)
    requires k < |saved| && saved[k].1 == Normalize(pts) && threshold > 0.0
    requires forall p, r :: dist(p, r) >= 0.0
    requires forall p :: dist(p, p) == 0.0
    ensures Classify(pts, saved, threshold, dist).name.Some?
    ensures Classify(pts, saved, threshold, dist).dist == Fin(0.0)
  {
    ExactTemplateMatches(Normalize(pts), saved, k, threshold, dist);
  }

  /** Template `T = [(0,0), (1,0)]` and the query `[(0,0), (5,0)]`: normalisation turns the
      query into `T` itself, so the code reports `T` at distance 0 with threshold 0.1. */
  lemma ScaledQueryMatches(dist: (Point, Point) -> real)
    requires forall p, r :: dist(p, r) >= 0.0
    requires forall p :: dist(p, p) == 0.0
    ensures Classify([Point(0.0, 0.0), Point(5.0, 0.0)], [("T", [Point(0.0, 0.0), Point(1.0, 0.0)])], 0.1, dist)
         == Match(Some("T"), Fin(0.0))
  {
    var pts := [Point(0.0, 0.0), Point(5.0, 0.0)];
    var t := [Point(0.0, 0.0), Point(1.0, 0.0)];
    var c := Centre(pts, pts[0]);
    assert c == pts;
    assert MaxAbs(c) == 5.0 by {
      assert c[1..][1..] == [];
    }
    assert Normalize(pts) == t;
    SavedGestureRecognised(pts, [("T", t)], 0, 0.1, dist);
  }
}
