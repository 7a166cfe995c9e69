/** The nearest-template scan shared by both `find_matching_gesture` generations: the mean
    per-point distance to each template, the first strict minimum in template order, and the
    strict threshold test on that minimum. */
module Matching {
  import opened Strings
  import opened Landmarks

  /** `float('inf')` or a finite distance. */
  datatype Extended = Fin(value: real) | PosInf

  /** What `find_matching_gesture` returns: `(best_match, min_dist)`. */
  datatype Match = Match(name: Option<string>, dist: Extended)

  /** `np.sum` of the per-point distances; `dist` stands for the Euclidean norm of the
      difference of two points. */
  function SumDist(a: seq<Point>, b: seq<Point>, dist: (Point, Point) -> real): real
    requires |a| == |b|
  {
    if a == [] then 0.0 else dist(a[0], b[0]) + SumDist(a[1..], b[1..], dist)
  }

  /** `np.mean(np.linalg.norm(a - b, axis=1))`. */
  function MeanDist(a: seq<Point>, b: seq<Point>, dist: (Point, Point) -> real): (r: real)
    requires |a| == |b| && |a| > 0
    ensures r * (|a| as real) == SumDist(a, b, dist)
  {
    SumDist(a, b, dist) / (|a| as real)
  }

  /** A distance that is never negative and zero between equal points gives a sum that is
      never negative and zero between equal point lists. */
  lemma {:induction false} SumDistFacts(a: seq<Point>, b: seq<Point>, dist: (Point, Point) -> real)
    requires |a| == |b|
    requires forall p, q :: dist(p, q) >= 0.0
    requires forall p :: dist(p, p) == 0.0
    ensures SumDist(a, b, dist) >= 0.0
    ensures a == b ==> SumDist(a, b, dist) == 0.0
  {
    if a != [] {
      SumDistFacts(a[1..], b[1..], dist);
    }
  }

  /** The same for the mean: a template equal to the query is at distance 0, and no
      template is closer than that. */
  lemma MeanDistFacts(a: seq<Point>, b: seq<Point>, dist: (Point, Point) -> real)
    requires |a| == |b| && |a| > 0
    requires forall p, q :: dist(p, q) >= 0.0
    requires forall p :: dist(p, p) == 0.0
    ensures MeanDist(a, b, dist) >= 0.0
    ensures a == b ==> MeanDist(a, b, dist) == 0.0
  {
    SumDistFacts(a, b, dist);
  }

  /** Templates as `(name, points)` pairs in the order the template dictionary yields them. */
  type Template = (string, seq<Point>)

  function Names(saved: seq<Template>): (names: seq<string>)
    ensures |names| == |saved|
    ensures forall i :: 0 <= i < |saved| ==> names[i] == saved[i].0
  {
    seq(|saved|, i requires 0 <= i < |saved| => saved[i].0)
  }

  lemma NamesSnoc(saved: seq<Template>, t: Template)
    ensures Names(saved + [t]) == Names(saved) + [t.0]
  {
    assert forall i :: 0 <= i < |saved| ==> (saved + [t])[i] == saved[i];
  }

  /** Every template has as many points as the query. */
  predicate SameShape(q: seq<Point>, saved: seq<Template>) {
    forall i :: 0 <= i < |saved| ==> |saved[i].1| == |q|
  }

  /** The distance of the query to each template, in template order. */
  function Distances(q: seq<Point>, saved: seq<Template>, dist: (Point, Point) -> real): (ds: seq<real>)
    requires |q| > 0 && SameShape(q, saved)
    ensures |ds| == |saved|
    ensures forall i :: 0 <= i < |saved| ==> ds[i] == MeanDist(q, saved[i].1, dist)
  {
    seq(|saved|, i requires 0 <= i < |saved| => MeanDist(q, saved[i].1, dist))
  }

  /** One more template adds its distance at the end. */
  lemma DistancesSnoc(q: seq<Point>, saved: seq<Template>, t: Template, dist: (Point, Point) -> real)
    requires |q| > 0 && SameShape(q, saved) && |t.1| == |q|
    ensures SameShape(q, saved + [t])
    ensures Distances(q, saved + [t], dist) == Distances(q, saved, dist) + [MeanDist(q, t.1, dist)]
  {
    assert forall i :: 0 <= i < |saved| ==> (saved + [t])[i] == saved[i];
  }

  /** Where the scan ended up: nothing seen yet, or the position and distance of the best so far. */
  datatype Best = NoBest | BestAt(index: nat, dist: real)

  /** The loop `if dist < min_dist: min_dist = dist; best_match = name` over `ds` in order,
      starting from `float('inf')`. */
  function Lowest(ds: seq<real>): (b: Best)
    ensures b.NoBest? <==> ds == []
    ensures b.BestAt? ==> b.index < |ds| && b.dist == ds[b.index]
    ensures b.BestAt? ==> forall j :: 0 <= j < |ds| ==> b.dist <= ds[j]
    ensures b.BestAt? ==> forall j :: 0 <= j < b.index ==> b.dist < ds[j]
  {
    if ds == [] then NoBest
    else
      var b := Lowest(ds[..|ds| - 1]);
      var d := ds[|ds| - 1];
      if b.NoBest? || d < b.dist then BestAt(|ds| - 1, d) else b
  }

  /** One more distance replaces the best so far exactly when it is strictly smaller. */
  lemma LowestSnoc(ds: seq<real>, d: real)
    ensures Lowest(ds + [d]) == if Lowest(ds).NoBest? || d < Lowest(ds).dist then BestAt(|ds|, d) else Lowest(ds)
  {
    assert (ds + [d])[..|ds|] == ds;
  }

  /** `best_match` and `min_dist` after the loop has seen the distances `ds` of the
      templates named `names`. */
  ghost predicate Tracks(names: seq<string>, ds: seq<real>, best: Option<string>, minDist: Extended) {
    |names| == |ds|
    && (Lowest(ds).NoBest? ==> best == None && minDist == PosInf)
    && (Lowest(ds).BestAt? ==> best == Some(names[Lowest(ds).index]) && minDist == Fin(Lowest(ds).dist))
  }

  /** One loop turn: a strictly smaller distance takes over, an equal or larger one does not. */
  lemma TracksSnoc(names: seq<string>, ds: seq<real>, best: Option<string>, minDist: Extended, name: string, d: real)
    requires Tracks(names, ds, best, minDist)
    ensures var better := minDist.PosInf? || d < minDist.value;
            Tracks(names + [name], ds + [d], if better then Some(name) else best, if better then Fin(d) else minDist)
  {
    LowestSnoc(ds, d);
    if Lowest(ds).BestAt? {
      assert (names + [name])[Lowest(ds).index] == names[Lowest(ds).index];
    }
  }

  /** After the loop, the final test gives the verdict on the lowest distance. */
  lemma TracksVerdict(names: seq<string>, ds: seq<real>, best: Option<string>, minDist: Extended, threshold: real)
    requires Tracks(names, ds, best, minDist)
    ensures (if minDist.Fin? && minDist.value < threshold then Match(best, minDist) else Match(None, minDist))
            == Verdict(names, Lowest(ds), threshold)
  {
  }

  /** The final `if min_dist < threshold` test. */
  function Verdict(names: seq<string>, b: Best, threshold: real): (m: Match)
    requires b.BestAt? ==> b.index < |names|
    ensures b.NoBest? ==> m == Match(None, PosInf)
    ensures b.BestAt? ==> m.dist == Fin(b.dist)
    ensures m.name.Some? <==> b.BestAt? && b.dist < threshold
    ensures m.name.Some? ==> m.name.value == names[b.index]
  {
    match b
    case NoBest => Match(None, PosInf)
    case BestAt(k, d) => Match(if d < threshold then Some(names[k]) else None, Fin(d))
  }

  /** The whole scan over templates of the query's shape. */
  function Nearest(q: seq<Point>, saved: seq<Template>, threshold: real, dist: (Point, Point) -> real): (m: Match)
    requires |q| > 0 && SameShape(q, saved)
    ensures saved == [] <==> m.dist == PosInf
    ensures saved == [] ==> m.name == None
    ensures m.dist.Fin? ==>
      exists k :: 0 <= k < |saved|
        && m.dist.value == MeanDist(q, saved[k].1, dist)
        && (forall j :: 0 <= j < |saved| ==> m.dist.value <= MeanDist(q, saved[j].1, dist))
        && (forall j :: 0 <= j < k ==> m.dist.value < MeanDist(q, saved[j].1, dist))
        && (m.name.Some? <==> m.dist.value < threshold)
        && (m.name.Some? ==> m.name.value == saved[k].0)
  {
    var ds := Distances(q, saved, dist);
    var b := Lowest(ds);
    var m := Verdict(Names(saved), b, threshold);
    m
  }

  /** A template equal to the normalised query is at distance 0, so with a positive threshold
      some template is reported, at distance 0. */
  lemma {:induction false} ExactTemplateMatches(q: seq<Point>, saved: seq<Template>, k: nat, threshold: real, dist: (Point, Point) -> real)
    requires |q| > 0 && SameShape(q, saved)
    requires k < |saved| && saved[k].1 == q && threshold > 0.0
    requires forall p, r :: dist(p, r) >= 0.0
    requires forall p :: dist(p, p) == 0.0
    ensures Nearest(q, saved, threshold, dist).name.Some?
    ensures Nearest(q, saved, threshold, dist).dist == Fin(0.0)
  {
    var ds := Distances(q, saved, dist);
    forall j | 0 <= j < |saved| ensures ds[j] >= 0.0 {
      MeanDistFacts(q, saved[j].1, dist);
    }
    MeanDistFacts(q, saved[k].1, dist);
    assert ds[k] == 0.0;
  }

  /** Ties go to the earlier template: a later template at the same distance as an earlier
      one is never the one reported. */
  lemma {:induction false} EarlierTemplateWinsTie(q: seq<Point>, saved: seq<Template>, i: nat, j: nat, threshold: real, dist: (Point, Point) -> real)
    requires |q| > 0 && SameShape(q, saved)
    requires i < j < |saved| && MeanDist(q, saved[i].1, dist) == MeanDist(q, saved[j].1, dist)
    ensures Lowest(Distances(q, saved, dist)) != BestAt(j, MeanDist(q, saved[j].1, dist))
  {
    var ds := Distances(q, saved, dist);
    assert ds[i] == ds[j];
  }
}
