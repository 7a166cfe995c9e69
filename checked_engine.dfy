/** The second-generation classifier (`libs/gesture_engine.py`): the same scan, but a missing
    or empty landmark list answers `(None, inf)`, templates that are empty, not lists, or of
    another shape than the query are skipped, and a template that makes numpy raise ends the
    scan with `(None, inf)` through the `except Exception` clause. */
module CheckedEngine {
  import opened Strings
  import opened Landmarks
  import opened Matching
  import Engine

  /** A stored template as the configuration file may hold it. */
  datatype TemplateData =
    | Points(pts: seq<Point>)   // a list of `[x, y]` number pairs
    | Malformed                 // null, a non-list value, or a list whose array is not n-by-2
    | Ragged                    // a list whose rows differ in length: `np.array` raises
    | NonNumeric(rows: nat)     // `rows` pairs holding null or text: the subtraction raises

  /** The templates that make the loop body raise: a ragged list always, and a non-numeric
      one when its shape matches the query's, so that the subtraction is reached. */
  predicate Raises(q: seq<Point>, t: TemplateData) {
    t.Ragged? || (t.NonNumeric? && t.rows == |q|)
  }

  predicate HasRaising(q: seq<Point>, saved: seq<(string, TemplateData)>) {
    exists i :: 0 <= i < |saved| && Raises(q, saved[i].1)
  }

  /** The templates the loop does not `continue` past: lists of points, non-empty, with as many
      points as the query. */
  predicate Usable(q: seq<Point>, t: TemplateData) {
    t.Points? && t.pts != [] && |t.pts| == |q|
  }

  /** The usable templates, in order. */
  function Eligible(q: seq<Point>, saved: seq<(string, TemplateData)>): (e: seq<Template>)
    ensures SameShape(q, e)
    ensures |e| <= |saved|
  {
    if saved == [] then []
    else
      var rest := Eligible(q, saved[..|saved| - 1]);
      var (name, t) := saved[|saved| - 1];
      if Usable(q, t) then rest + [(name, t.pts)] else rest
  }

  /** One more loop turn: template `i` is added exactly when it is usable. */
  lemma EligibleStep(q: seq<Point>, saved: seq<(string, TemplateData)>, i: nat)
    requires i < |saved|
    ensures Eligible(q, saved[..i + 1])
         == Eligible(q, saved[..i]) + (if Usable(q, saved[i].1) then [(saved[i].0, saved[i].1.pts)] else [])
  {
    assert saved[..i + 1][..i] == saved[..i];
  }

  /** `t` is a usable stored template, under the same name. */
  predicate StoredUsable(q: seq<Point>, saved: seq<(string, TemplateData)>, t: Template) {
    exists i :: 0 <= i < |saved| && Usable(q, saved[i].1) && t == (saved[i].0, saved[i].1.pts)
  }

  /** Every eligible template comes from a usable stored one, under the same name. */
  lemma {:induction false} EligibleMembers(q: seq<Point>, saved: seq<(string, TemplateData)>)
    ensures forall k :: 0 <= k < |Eligible(q, saved)| ==> StoredUsable(q, saved, Eligible(q, saved)[k])
  {
    if saved != [] {
      var last := |saved| - 1;
      var init := saved[..last];
      var e, e0 := Eligible(q, saved), Eligible(q, init);
      EligibleMembers(q, init);
      assert e == e0 + (if Usable(q, saved[last].1) then [(saved[last].0, saved[last].1.pts)] else []);
      forall k | 0 <= k < |e| ensures StoredUsable(q, saved, e[k]) {
        if k < |e0| {
          assert StoredUsable(q, init, e0[k]);
          var i :| 0 <= i < |init| && Usable(q, init[i].1) && e0[k] == (init[i].0, init[i].1.pts);
          assert saved[i] == init[i];
        } else {
          assert e[k] == (saved[last].0, saved[last].1.pts);
        }
      }
    }
  }

  /** Skipping distributes over concatenation. */
  lemma {:induction false} EligibleAppend(q: seq<Point>, a: seq<(string, TemplateData)>, b: seq<(string, TemplateData)>)
    ensures Eligible(q, a + b) == Eligible(q, a) + Eligible(q, b)
  {
    if b == [] {
      assert a + b == a;
    } else {
      var b0 := b[..|b| - 1];
      assert (a + b)[..|a + b| - 1] == a + b0;
      assert (a + b)[|a + b| - 1] == b[|b| - 1];
      EligibleAppend(q, a, b0);
    }
  }

  /** A template that is not usable drops out of the eligible list, wherever it sits. */
  lemma {:induction false} UnusableIgnored(q: seq<Point>, a: seq<(string, TemplateData)>, name: string, t: TemplateData, b: seq<(string, TemplateData)>)
    requires !Usable(q, t)
    ensures Eligible(q, a + [(name, t)] + b) == Eligible(q, a + b)
  {
    EligibleAppend(q, a + [(name, t)], b);
    EligibleAppend(q, a, [(name, t)]);
    EligibleAppend(q, a, b);
    assert [(name, t)][..0] == [];
  }

  /** A template that makes numpy raise voids the whole answer, wherever it sits. */
  lemma RaisingTemplateVoids(lms: seq<Point>, a: seq<(string, TemplateData)>, name: string, t: TemplateData,
                             b: seq<(string, TemplateData)>, threshold: real, dist: (Point, Point) -> real)
    requires lms != [] && Raises(Normalize(lms), t)
    ensures Classify(Some(lms), a + [(name, t)] + b, threshold, dist) == Match(None, PosInf)
  {
    assert (a + [(name, t)] + b)[|a|] == (name, t);
  }

  /** A template that is skipped, neither usable nor raising, has no effect on the answer,
      wherever it sits. */
  lemma SkippedIgnored(lms: seq<Point>, a: seq<(string, TemplateData)>, name: string, t: TemplateData,
                       b: seq<(string, TemplateData)>, threshold: real, dist: (Point, Point) -> real)
    requires lms != []
    requires var q := Normalize(lms); !Usable(q, t) && !Raises(q, t)
    ensures Classify(Some(lms), a + [(name, t)] + b, threshold, dist) == Classify(Some(lms), a + b, threshold, dist)
  {
    var q := Normalize(lms);
    UnusableIgnored(q, a, name, t, b);
    QuietTemplateIgnored(q, a, (name, t), b);
  }

  /** A template that does not raise neither adds nor removes a raising template. */
  lemma QuietTemplateIgnored(q: seq<Point>, a: seq<(string, TemplateData)>, x: (string, TemplateData), b: seq<(string, TemplateData)>)
    requires !Raises(q, x.1)
    ensures HasRaising(q, a + [x] + b) == HasRaising(q, a + b)
  {
    var s, r := a + [x] + b, a + b;
    forall i | 0 <= i < |s| && Raises(q, s[i].1) ensures HasRaising(q, r) {
      if i < |a| {
        assert s[i] == r[i];
      } else {
        assert i > |a| && s[i] == r[i - 1];
      }
    }
    forall i | 0 <= i < |r| && Raises(q, r[i].1) ensures HasRaising(q, s) {
      if i < |a| {
        assert s[i] == r[i];
      } else {
        assert s[i + 1] == r[i];
      }
    }
  }

  /** `find_matching_gesture` as a value; `lms` is `None` when there is no landmark object. */
  function Classify(lms: Option<seq<Point>>, saved: seq<(string, TemplateData)>, threshold: real, dist: (Point, Point) -> real): (m: Match)
    ensures lms.None? || lms.value == [] ==> m == Match(None, PosInf)
    ensures lms.Some? && HasRaising(Normalize(lms.value), saved) ==> m == Match(None, PosInf)
    ensures m.name.Some? ==> m.dist.Fin? && m.dist.value < threshold
    ensures m.name.Some? ==> exists i :: 0 <= i < |saved| && saved[i].0 == m.name.value && Usable(Normalize(lms.value), saved[i].1)
  {
    if lms.None? || lms.value == [] then Match(None, PosInf)
    else
      var q := Normalize(lms.value);
      if HasRaising(q, saved) then Match(None, PosInf)
      else
        var m := Nearest(q, Eligible(q, saved), threshold, dist);
        EligibleMembers(q, saved);
        m
  }

  /** `GestureEngine.find_matching_gesture` of the second generation. */
  method FindMatching(lms: Option<seq<Point>>, saved: seq<(string, TemplateData)>, threshold: real, dist: (Point, Point) -> real)
      returns (m: Match)
    ensures m == Classify(lms, saved, threshold, dist)
  {
    if lms.None? || lms.value == [] {
      return Match(None, PosInf);
    }
    var q := Normalize(lms.value);
    m := Scan(q, saved, threshold, dist);
  }

  /** The loop of `find_matching_gesture` over the stored templates, on the normalised query. */
  method Scan(q: seq<Point>, saved: seq<(string, TemplateData)>, threshold: real, dist: (Point, Point) -> real)
      returns (m: Match)
    requires |q| > 0
    ensures m == (if HasRaising(q, saved) then Match(None, PosInf) else Nearest(q, Eligible(q, saved), threshold, dist))
  {
    ghost var seen: seq<Template> := [];
    ghost var names: seq<string> := [];
    ghost var ds: seq<real> := [];
    var best: Option<string> := None;
    var minDist: Extended := PosInf;
    for i := 0 to |saved|
      invariant seen == Eligible(q, saved[..i])
      invariant names == Names(seen) && ds == Distances(q, seen, dist)
      invariant Tracks(names, ds, best, minDist)
      invariant forall j :: 0 <= j < i ==> !Raises(q, saved[j].1)
    {
      EligibleStep(q, saved, i);
      var (name, data) := saved[i];
      if data.Malformed? || (data.Points? && data.pts == []) {
        continue;
      }
      if data.Ragged? {
        return Match(None, PosInf);
      }
      if (data.Points? && |data.pts| != |q|) || (data.NonNumeric? && data.rows != |q|) {
        continue;
      }
      if data.NonNumeric? {
        return Match(None, PosInf);
      }
      var d := MeanDist(q, data.pts, dist);
      DistancesSnoc(q, seen, (name, data.pts), dist);
      NamesSnoc(seen, (name, data.pts));
      TracksSnoc(names, ds, best, minDist, name, d);
      if minDist.PosInf? || d < minDist.value {
        minDist := Fin(d);
        best := Some(name);
      }
      seen := seen + [(name, data.pts)];
      names := names + [name];
      ds := ds + [d];
    }
    assert saved[..|saved|] == saved;
    TracksVerdict(names, ds, best, minDist, threshold);
    if minDist.Fin? && minDist.value < threshold {
      m := Match(best, minDist);
    } else {
      m := Match(None, minDist);
    }
  }


  /** Templates that are all lists of points, as plain `(name, points)` pairs. */
  function Plain(saved: seq<(string, TemplateData)>): (p: seq<Template>)
    requires forall i :: 0 <= i < |saved| ==> saved[i].1.Points?
    ensures |p| == |saved|
    ensures forall i :: 0 <= i < |saved| ==> p[i] == (saved[i].0, saved[i].1.pts)
  {
    seq(|saved|, i requires 0 <= i < |saved| && saved[i].1.Points? => (saved[i].0, saved[i].1.pts))
  }

  /** On a non-empty query whose templates are all usable the two generations agree. */
  lemma {:induction false} AgreesWithFirstGeneration(pts: seq<Point>, saved: seq<(string, TemplateData)>, threshold: real, dist: (Point, Point) -> real)
    requires pts != []
    requires forall i :: 0 <= i < |saved| ==> saved[i].1.Points? && saved[i].1.pts != [] && |saved[i].1.pts| == |pts|
    ensures SameShape(pts, Plain(saved))
    ensures Classify(Some(pts), saved, threshold, dist) == Engine.Classify(pts, Plain(saved), threshold, dist)
  {
    AllUsable(pts, Normalize(pts), saved);
  }

  lemma {:induction false} AllUsable(pts: seq<Point>, q: seq<Point>, saved: seq<(string, TemplateData)>)
    requires |q| == |pts|
    requires forall i :: 0 <= i < |saved| ==> saved[i].1.Points? && saved[i].1.pts != [] && |saved[i].1.pts| == |pts|
    ensures Eligible(q, saved) == Plain(saved)
  {
    if saved != [] {
      var init := saved[..|saved| - 1];
      AllUsable(pts, q, init);
      assert Plain(saved) == Plain(init) + [(saved[|saved| - 1].0, saved[|saved| - 1].1.pts)];
    }
  }
}
