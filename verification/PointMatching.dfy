/**
 * One-to-one matching of predicted points to target points
 * (src/fh_agent/evals/spatial_perception_metrics.py, `_match_points`).
 *
 * Distances are compared squared: `hypot(dx, dy) <= tolerance` becomes
 * `dx*dx + dy*dy <= tolerance*tolerance`, over exact reals.
 */
module PointMatching {
  import opened Prelude
  import opened Ordering
  import opened AugmentingPaths
  import opened SpatialDataset

  // ----- what a matching is -----

  function SquaredDistance(a: Point, b: Point): int {
    (a.0 - b.0) * (a.0 - b.0) + (a.1 - b.1) * (a.1 - b.1)
  }

  predicate Within(a: Point, b: Point, tolerance: real) {
    tolerance >= 0.0 && SquaredDistance(a, b) as real <= tolerance * tolerance
  }

  /** The pairs of points within tolerance, as candidate lists by prediction index. */
  function CandidateLists(predictions: seq<Point>, targets: seq<Point>, tolerance: real): (r: seq<seq<nat>>)
    ensures |r| == |predictions|
    ensures forall p, t: nat :: 0 <= p < |r|
                                ==> (t in r[p] <==> t < |targets| && Within(predictions[p], targets[t], tolerance))
  {
    seq(|predictions|, p requires 0 <= p < |predictions| => Candidates(predictions[p], targets, tolerance))
  }

  /** A set of (prediction index, target index) pairs, one-to-one and within tolerance. */
  ghost predicate IsPointMatching(pairs: set<(nat, nat)>, predictions: seq<Point>, targets: seq<Point>,
                                  tolerance: real) {
    && (forall e :: e in pairs ==> e.0 < |predictions| && e.1 < |targets|
                                   && Within(predictions[e.0], targets[e.1], tolerance))
    && (forall e, f :: e in pairs && f in pairs ==> (e.0 == f.0 <==> e.1 == f.1))
  }

  /** `size` is attained by some matching and exceeded by none. */
  ghost predicate IsMaximum(size: nat, predictions: seq<Point>, targets: seq<Point>, tolerance: real) {
    && (exists pairs :: IsPointMatching(pairs, predictions, targets, tolerance) && |pairs| == size)
    && (forall pairs :: IsPointMatching(pairs, predictions, targets, tolerance) ==> |pairs| <= size)
  }

  // ----- the candidate lists -----

  /** Target indices by distance to `prediction`, then by target coordinates, then by index. */
  function CloserOrTied(prediction: Point, targets: seq<Point>): (nat, nat) -> bool {
    (s: nat, t: nat) =>
      if s < |targets| && t < |targets| then
        var ds, dt := SquaredDistance(prediction, targets[s]), SquaredDistance(prediction, targets[t]);
        ds < dt || (ds == dt && ((targets[s] != targets[t] && IntPairLe(targets[s], targets[t]))
            || (targets[s] == targets[t] && s <= t)))
      else s <= t
  }

  function TargetsWithin(prediction: Point, targets: seq<Point>, tolerance: real, upTo: nat): (r: seq<nat>)
    requires upTo <= |targets|
    ensures forall t: nat :: t in r <==> t < upTo && Within(prediction, targets[t], tolerance)
  {
    if upTo == 0 then []
    else
      var rest := TargetsWithin(prediction, targets, tolerance, upTo - 1);
      if Within(prediction, targets[upTo - 1], tolerance) then rest + [upTo - 1] else rest
  }

  function Candidates(prediction: Point, targets: seq<Point>, tolerance: real): (r: seq<nat>)
    ensures forall t: nat :: t in r <==> t < |targets| && Within(prediction, targets[t], tolerance)
  {
    var found := TargetsWithin(prediction, targets, tolerance, |targets|);
    SortByMembers(found, CloserOrTied(prediction, targets));
    SortBy(found, CloserOrTied(prediction, targets))
  }

  function EarlierOrTied(predictions: seq<Point>): (nat, nat) -> bool {
    (i: nat, j: nat) =>
      if i < |predictions| && j < |predictions| && predictions[i] != predictions[j] then
        IntPairLe(predictions[i], predictions[j])
      else i <= j
  }

  /** Prediction indices by coordinates, then by index. */
  function PredictionOrder(predictions: seq<Point>): (r: seq<nat>)
    ensures NoDuplicates(r)
    ensures forall p: nat :: p in r <==> p < |predictions|
  {
    var all, le := Indices(|predictions|), EarlierOrTied(predictions);
    SortByMembers(all, le);
    NoDuplicatesPermuted(all, SortBy(all, le));
    SortBy(all, le)
  }

  // ----- the whole routine -----

  lemma SameMatchings(pairs: set<(nat, nat)>, predictions: seq<Point>, targets: seq<Point>, tolerance: real)
    ensures IsPointMatching(pairs, predictions, targets, tolerance)
      <==> IsMatching(pairs, CandidateLists(predictions, targets, tolerance))
  {}

  lemma MaximumOfCandidates(m: Assignment, predictions: seq<Point>, targets: seq<Point>, tolerance: real)
    requires var candidates := CandidateLists(predictions, targets, tolerance);
      && IsMatching(Pairs(m), candidates) && |Pairs(m)| == |m|
      && forall rival :: IsMatching(rival, candidates) ==> |rival| <= |m|
    ensures IsPointMatching(Pairs(m), predictions, targets, tolerance)
    ensures IsMaximum(|m|, predictions, targets, tolerance)
    ensures |m| <= |predictions| && |m| <= |targets|
    ensures forall t :: t in m ==> t < |targets| && m[t] < |predictions|
  {
    forall t | t in m ensures t < |targets| && m[t] < |predictions| {
      assert (m[t], t) in Pairs(m);
    }
    SameMatchings(Pairs(m), predictions, targets, tolerance);
    forall pairs | IsPointMatching(pairs, predictions, targets, tolerance) ensures |pairs| <= |m| {
      SameMatchings(pairs, predictions, targets, tolerance);
    }
    MatchingFits(Pairs(m), CandidateLists(predictions, targets, tolerance), IndexSet(|targets|));
  }

  /** `sorted(matched_targets.items())` up to a target, as (prediction, target) pairs. */
  function SortedItems(m: Assignment, upTo: nat): (r: seq<(nat, nat)>)
    ensures forall e :: e in r <==> e.1 < upTo && e.1 in m && m[e.1] == e.0
    ensures InTargetOrder(r)
  {
    if upTo == 0 then []
    else
      var rest := SortedItems(m, upTo - 1);
      if upTo - 1 in m then rest + [(m[upTo - 1], upTo - 1)] else rest
  }

  predicate InTargetOrder(pairs: seq<(nat, nat)>) {
    forall i, j :: 0 <= i < j < |pairs| ==> pairs[i].1 < pairs[j].1
  }

  lemma {:induction false} ItemsCount(m: Assignment, upTo: nat)
    ensures |SortedItems(m, upTo)| == |set t | t in m && t < upTo|
  {
    var done := set t | t in m && t < upTo;
    if upTo == 0 {
      assert done == {};
    } else {
      ItemsCount(m, upTo - 1);
      var rest := set t | t in m && t < upTo - 1;
      assert done == if upTo - 1 in m then rest + {upTo - 1} else rest;
    }
  }

  ghost function PairSet(pairs: seq<(nat, nat)>): set<(nat, nat)> {
    set e | e in pairs
  }

  lemma ItemsArePairs(m: Assignment, n: nat)
    requires forall t :: t in m ==> t < n
    ensures |SortedItems(m, n)| == |m| && PairSet(SortedItems(m, n)) == Pairs(m)
  {
    ItemsCount(m, n);
    assert m.Keys == set t | t in m && t < n;
    assert |m.Keys| == |m|;
  }

  /** The squared distance of each pair's points, in order. */
  predicate AreErrors(errors: seq<int>, pairs: seq<(nat, nat)>, predictions: seq<Point>, targets: seq<Point>) {
    && |errors| == |pairs|
    && forall k :: 0 <= k < |pairs| ==>
         && pairs[k].0 < |predictions| && pairs[k].1 < |targets|
         && var dx := predictions[pairs[k].0].0 - targets[pairs[k].1].0;
            var dy := predictions[pairs[k].0].1 - targets[pairs[k].1].1;
            errors[k] == dx * dx + dy * dy
  }

  predicate ErrorFits(error: int, tolerance: real) {
    tolerance >= 0.0 && 0 <= error && error as real <= tolerance * tolerance
  }

  lemma ErrorsWithin(errors: seq<int>, pairs: seq<(nat, nat)>, predictions: seq<Point>, targets: seq<Point>,
                     tolerance: real)
    requires AreErrors(errors, pairs, predictions, targets)
    requires IsPointMatching(PairSet(pairs), predictions, targets, tolerance)
    ensures forall k :: 0 <= k < |errors| ==> ErrorFits(errors[k], tolerance)
  {
    forall k | 0 <= k < |errors|
      ensures ErrorFits(errors[k], tolerance)
    {
      var p, t := predictions[pairs[k].0], targets[pairs[k].1];
      assert pairs[k] in PairSet(pairs) && Within(p, t, tolerance);
      SquaresAdd(p, t);
      DistanceIs(p, t);
    }
  }

  lemma SquaresAdd(a: Point, b: Point)
    ensures SquaredDistance(a, b) >= 0
  {
    Square(a.0 - b.0);
    Square(a.1 - b.1);
  }

  lemma Square(n: int)
    ensures n * n >= 0
  {}

  /** For any distance between two points, `Within` says that it is at most the tolerance. */
  lemma WithinIsDistance(a: Point, b: Point, tolerance: real, distance: real)
    requires distance >= 0.0
    requires distance * distance == ((a.0 - b.0) * (a.0 - b.0) + (a.1 - b.1) * (a.1 - b.1)) as real
    ensures Within(a, b, tolerance) <==> distance <= tolerance
  {
    hide SquaredDistance;
    assert SquaredDistance(a, b) as real == distance * distance by { DistanceIs(a, b); }
    if tolerance >= 0.0 { SquaresCompare(distance, tolerance); }
  }

  lemma DistanceIs(a: Point, b: Point)
    ensures SquaredDistance(a, b) == (a.0 - b.0) * (a.0 - b.0) + (a.1 - b.1) * (a.1 - b.1)
  {}

  lemma SquaresCompare(x: real, y: real)
    requires x >= 0.0 && y >= 0.0
    ensures x * x <= y * y <==> x <= y
  {
    assert y * y - x * x == (y - x) * (y + x);
    if x <= y { ProductSign(y - x, y + x); } else { ProductPositive(x - y, x + y); }
  }

  lemma ProductSign(a: real, b: real)
    requires a >= 0.0 && b >= 0.0
    ensures a * b >= 0.0
  {}

  lemma ProductPositive(a: real, b: real)
    requires a > 0.0 && b > 0.0
    ensures a * b > 0.0 && -(a * b) == (-a) * b
  {}

  /** Candidates are tried nearest first, equally near ones by column, then by row, then by index. */
  lemma CandidatesNearestFirst(prediction: Point, targets: seq<Point>, tolerance: real, i: nat, j: nat)
    requires i < j < |Candidates(prediction, targets, tolerance)|
    ensures var s, t := Candidates(prediction, targets, tolerance)[i], Candidates(prediction, targets, tolerance)[j];
      && s < |targets| && t < |targets|
      && var (a, b) := (targets[s], targets[t]);
         var ds := (prediction.0 - a.0) * (prediction.0 - a.0) + (prediction.1 - a.1) * (prediction.1 - a.1);
         var dt := (prediction.0 - b.0) * (prediction.0 - b.0) + (prediction.1 - b.1) * (prediction.1 - b.1);
         ds < dt || (ds == dt && (a.0 < b.0 || (a.0 == b.0 && (a.1 < b.1 || (a.1 == b.1 && s <= t)))))
  {
    var found := TargetsWithin(prediction, targets, tolerance, |targets|);
    var le := CloserOrTied(prediction, targets);
    var sorted := Candidates(prediction, targets, tolerance);
    assert sorted[i] in sorted && sorted[j] in sorted;
    CloserOrders(prediction, targets);
    SortBySorts(found, le);
    assert le(sorted[i], sorted[j]);
    DistanceIs(prediction, targets[sorted[i]]);
    DistanceIs(prediction, targets[sorted[j]]);
    hide SquaredDistance;
  }

  lemma CloserOrders(prediction: Point, targets: seq<Point>)
    ensures TotalPreorder(CloserOrTied(prediction, targets))
  {
    hide SquaredDistance;
  }

  /** Predictions are placed by column, then by row, then by index. */
  lemma PredictionsInOrder(predictions: seq<Point>, i: nat, j: nat)
    requires i < j < |PredictionOrder(predictions)|
    ensures var s, t := PredictionOrder(predictions)[i], PredictionOrder(predictions)[j];
      && s < |predictions| && t < |predictions|
      && var (a, b) := (predictions[s], predictions[t]);
         a.0 < b.0 || (a.0 == b.0 && (a.1 < b.1 || (a.1 == b.1 && s < t)))
  {
    var order, le := PredictionOrder(predictions), EarlierOrTied(predictions);
    assert order[i] in order && order[j] in order;
    SortBySorts(Indices(|predictions|), le);
    assert le(order[i], order[j]) && order[i] != order[j];
  }

  /**
   * `_match_points`: a maximum matching by its pairs in target order, their squared distances,
   * and how many predictions and targets it leaves unmatched.
   */
  method MatchPoints(predictions: seq<Point>, targets: seq<Point>, tolerance: real)
    returns (errors: seq<int>, unmatchedPredictions: nat, unmatchedTargets: nat, ghost pairs: seq<(nat, nat)>)
    ensures InTargetOrder(pairs) && IsPointMatching(PairSet(pairs), predictions, targets, tolerance)
    ensures IsMaximum(|pairs|, predictions, targets, tolerance)
    ensures |errors| == |pairs| && AreErrors(errors, pairs, predictions, targets)
    ensures forall k :: 0 <= k < |errors| ==> ErrorFits(errors[k], tolerance)
    ensures unmatchedPredictions == |predictions| - |pairs|
    ensures unmatchedTargets == |targets| - |pairs|
  {
    hide IsMatching, Pairs, IsPointMatching, IsMaximum, PredictionOrder, OneToOne, AreErrors, PairSet, InTargetOrder,
         ErrorFits, Within, CandidateLists, SquaredDistance;
    var order := PredictionOrder(predictions);
    var candidates := CandidateLists(predictions, targets, tolerance);
    var matcher := new Matcher(candidates);
    CandidatesAreTargets(predictions, targets, tolerance);
    matcher.AssignInOrder(order, IndexSet(|targets|));
    var matched := matcher.matched;
    MaximumOfCandidates(matched, predictions, targets, tolerance);
    var items := SortedItems(matched, |targets|);
    ItemsArePairs(matched, |targets|);
    errors := seq(|items|, k requires 0 <= k < |items| && items[k] in items =>
                    SquaredDistance(predictions[items[k].0], targets[items[k].1]));
    ItemErrors(errors, items, predictions, targets);
    ErrorsWithin(errors, items, predictions, targets, tolerance);
    unmatchedPredictions := |predictions| - |matched|;
    unmatchedTargets := |targets| - |matched|;
    pairs := items;
  }

  lemma CandidatesAreTargets(predictions: seq<Point>, targets: seq<Point>, tolerance: real)
    ensures Targets(CandidateLists(predictions, targets, tolerance), IndexSet(|targets|))
  {}

  lemma ItemErrors(errors: seq<int>, items: seq<(nat, nat)>, predictions: seq<Point>, targets: seq<Point>)
    requires |errors| == |items|
    requires forall k :: 0 <= k < |items| ==>
                           && items[k].0 < |predictions| && items[k].1 < |targets|
                           && errors[k] == SquaredDistance(predictions[items[k].0], targets[items[k].1])
    ensures AreErrors(errors, items, predictions, targets)
  {}
}
