/**
 * Connected components of exact marker pixels
 * (src/fh_agent/evals/reference_spatial_producer.py).
 */
module MarkerComponents {
  import opened Prelude
  import opened Ordering
  import opened ScreenFrames

  type Pos = (int, int)
  type Marker = (byte, byte, byte)

  predicate Inside(frame: Frame, p: Pos) {
    0 <= p.0 < frame.width && 0 <= p.1 < frame.height
  }

  lemma OffsetInRange(frame: Frame, p: Pos)
    requires frame.Valid() && Inside(frame, p)
    ensures 0 <= (p.1 * frame.width + p.0) * 3 <= |frame.rgb| - 3
  {
    assert p.1 * frame.width + p.0 < frame.height * frame.width by {
      assert (p.1 + 1) * frame.width <= frame.height * frame.width;
    }
  }

  function PixelAt(frame: Frame, p: Pos): Marker
    requires frame.Valid() && Inside(frame, p)
  {
    OffsetInRange(frame, p);
    var offset := (p.1 * frame.width + p.0) * 3;
    (frame.rgb[offset], frame.rgb[offset + 1], frame.rgb[offset + 2])
  }

  function Positions(frame: Frame): set<Pos> {
    set x, y | 0 <= x < frame.width && 0 <= y < frame.height :: (x, y)
  }

  /** `marker_positions`. */
  function MarkerPositions(frame: Frame, marker: Marker): (r: set<Pos>)
    requires frame.Valid()
    ensures forall p :: p in r <==> Inside(frame, p) && PixelAt(frame, p) == marker
  {
    set p | p in Positions(frame) && PixelAt(frame, p) == marker
  }

  // ----- connectedness -----

  function Neighbors(p: Pos): seq<Pos> {
    [(p.0, p.1 - 1), (p.0 - 1, p.1), (p.0 + 1, p.1), (p.0, p.1 + 1)]
  }

  lemma NeighborsSymmetric(p: Pos, q: Pos)
    requires q in Neighbors(p)
    ensures p in Neighbors(q)
  {
    assert Neighbors(q)[0] == p || Neighbors(q)[1] == p || Neighbors(q)[2] == p || Neighbors(q)[3] == p;
  }

  /** A walk through `within` in 4-neighbour steps. */
  ghost predicate IsPath(path: seq<Pos>, within: set<Pos>) {
    && path != []
    && (forall i :: 0 <= i < |path| ==> path[i] in within)
    && (forall i :: 0 <= i < |path| - 1 ==> path[i + 1] in Neighbors(path[i]))
  }

  ghost predicate Connected(p: Pos, q: Pos, within: set<Pos>) {
    exists path :: IsPath(path, within) && path[0] == p && path[|path| - 1] == q
  }

  lemma ConnectedSelf(p: Pos, within: set<Pos>)
    requires p in within
    ensures Connected(p, p, within)
  {
    assert IsPath([p], within);
  }

  lemma ConnectedStep(p: Pos, q: Pos, r: Pos, within: set<Pos>)
    requires Connected(p, q, within) && r in Neighbors(q) && r in within
    ensures Connected(p, r, within)
  {
    var path :| IsPath(path, within) && path[0] == p && path[|path| - 1] == q;
    PathExtended(path, r, within);
  }

  lemma PathExtended(path: seq<Pos>, r: Pos, within: set<Pos>)
    requires IsPath(path, within) && r in Neighbors(path[|path| - 1]) && r in within
    ensures IsPath(path + [r], within) && (path + [r])[0] == path[0] && (path + [r])[|path|] == r
  {
    hide Neighbors;
  }

  lemma {:induction false} ConnectedBack(path: seq<Pos>, within: set<Pos>)
    requires IsPath(path, within)
    ensures Connected(path[|path| - 1], path[0], within)
  {
    if |path| == 1 {
      ConnectedSelf(path[0], within);
    } else {
      ConnectedBack(path[1..], within);
      NeighborsSymmetric(path[0], path[1]);
      ConnectedStep(path[|path| - 1], path[1], path[0], within);
    }
  }

  /** A walk never leaves a set that is closed under neighbours. */
  ghost predicate ClosedIn(part: set<Pos>, within: set<Pos>) {
    forall p, q :: p in part && q in Neighbors(p) && q in within ==> q in part
  }

  lemma {:induction false} PathStays(path: seq<Pos>, part: set<Pos>, within: set<Pos>)
    requires IsPath(path, within) && ClosedIn(part, within) && path[0] in part
    ensures path[|path| - 1] in part
  {
    if |path| > 1 {
      assert path[1] in part;
      PathStays(path[1..], part, within);
    }
  }

  /** Exactly one maximal connected piece of `within`. */
  ghost predicate IsComponent(part: set<Pos>, within: set<Pos>) {
    && part != {} && part <= within
    && (forall p, q :: p in part && q in within ==> (q in part <==> Connected(p, q, within)))
  }

  lemma ComponentOf(start: Pos, part: set<Pos>, within: set<Pos>)
    requires start in part && part <= within && ClosedIn(part, within)
    requires forall q :: q in part ==> Connected(start, q, within)
    ensures IsComponent(part, within)
  {
    forall p, q | p in part && q in within ensures q in part <==> Connected(p, q, within) {
      if Connected(p, q, within) {
        var path :| IsPath(path, within) && path[0] == p && path[|path| - 1] == q;
        PathStays(path, part, within);
      }
      if q in part {
        var back :| IsPath(back, within) && back[0] == start && back[|back| - 1] == p;
        ConnectedBack(back, within);
        var there :| IsPath(there, within) && there[0] == start && there[|there| - 1] == q;
        ConnectedThrough(p, there, within);
      }
    }
  }

  lemma {:induction false} ConnectedThrough(p: Pos, path: seq<Pos>, within: set<Pos>)
    requires IsPath(path, within) && Connected(p, path[0], within)
    ensures Connected(p, path[|path| - 1], within)
  {
    if |path| > 1 {
      ConnectedStep(p, path[0], path[1], within);
      ConnectedThrough(p, path[1..], within);
    }
  }

  // ----- one flood fill -----

  ghost function Elements(s: seq<Pos>): set<Pos> {
    set p | p in s
  }

  /** The fill so far: `component` was cut out of `remaining`, and `frontier` holds its unexpanded cells. */
  ghost predicate Filling(start: Pos, component: seq<Pos>, frontier: seq<Pos>, rest: set<Pos>, remaining: set<Pos>,
                          within: set<Pos>) {
    && component != [] && component[0] == start && NoDuplicates(component)
    && Elements(component) <= remaining && rest == remaining - Elements(component)
    && Elements(frontier) <= Elements(component)
    && (forall q :: q in component ==> Connected(start, q, within))
  }

  /** Every cell no longer on the frontier has all its marker neighbours in the component. */
  ghost predicate Expanded(component: set<Pos>, frontier: set<Pos>, within: set<Pos>) {
    ClosedFrom(component - frontier, component, within)
  }

  ghost predicate ClosedFrom(from: set<Pos>, into: set<Pos>, within: set<Pos>) {
    forall p, q :: p in from && q in Neighbors(p) && q in within ==> q in into
  }

  /** New cells went to the component and to the frontier; without any, nothing moved. */
  ghost predicate Grown(component: seq<Pos>, frontier: seq<Pos>, rest: set<Pos>, component': seq<Pos>,
                        frontier': seq<Pos>, rest': set<Pos>) {
    && Elements(component) <= Elements(component') <= Elements(component) + Elements(frontier')
    && Elements(frontier) <= Elements(frontier')
    && ((rest' == rest && frontier' == frontier) || |rest'| < |rest|)
  }

  /**
   * The inner worklist: pops from the end of `frontier`, moves marker neighbours from `remaining`
   * to the component. `within` is the whole marker set and `remaining` is a union of its components.
   */
  method FloodFill(start: Pos, remaining: set<Pos>, ghost within: set<Pos>)
      returns (component: seq<Pos>, rest: set<Pos>)
    requires start in remaining && remaining <= within && ClosedIn(remaining, within)
    ensures component != [] && component[0] == start && NoDuplicates(component)
    ensures rest == remaining - Elements(component) && Elements(component) <= remaining
    ensures ClosedIn(rest, within)
    ensures IsComponent(Elements(component), within)
  {
    hide Connected, ClosedIn, IsComponent, Expanded;
    component, rest := [start], remaining - {start};
    var frontier := [start];
    ConnectedSelf(start, within);
    NothingExpanded(frontier, within);
    while frontier != []
      invariant Filling(start, component, frontier, rest, remaining, within)
      invariant Expanded(Elements(component), Elements(frontier), within)
      decreases |rest|, |frontier|
    {
      ghost var component0, frontier0 := component, frontier;
      var p := frontier[|frontier| - 1];
      frontier := frontier[..|frontier| - 1];
      Popped(frontier0, frontier, p);
      ghost var frontier1 := frontier;
      component, frontier, rest := Expand(start, p, component, frontier, rest, remaining, within);
      ExpandedFurther(p, component0, frontier1, component, frontier, within);
    }
    FullyExpanded(Elements(component), within);
    ComponentOf(start, Elements(component), within);
    RestClosed(Elements(component), remaining, rest, within);
  }

  lemma NothingExpanded(frontier: seq<Pos>, within: set<Pos>)
    ensures Expanded(Elements(frontier), Elements(frontier), within)
  {}

  lemma FullyExpanded(part: set<Pos>, within: set<Pos>)
    requires Expanded(part, Elements([]), within)
    ensures ClosedIn(part, within)
  {}

  lemma Popped(before: seq<Pos>, after: seq<Pos>, p: Pos)
    requires before == after + [p]
    ensures Elements(before) == Elements(after) + {p}
  {}

  lemma ExpandedFurther(p: Pos, component: seq<Pos>, frontier: seq<Pos>, component': seq<Pos>, frontier': seq<Pos>,
                        within: set<Pos>)
    requires Expanded(Elements(component), Elements(frontier) + {p}, within)
    requires Elements(component) <= Elements(component') <= Elements(component) + Elements(frontier')
    requires Elements(frontier) <= Elements(frontier') && ClosedFrom({p}, Elements(component'), within)
    ensures Expanded(Elements(component'), Elements(frontier'), within)
  {}

  /** Moves the neighbours of `p` that are still in `rest`. */
  method Expand(ghost start: Pos, p: Pos, component: seq<Pos>, frontier: seq<Pos>, rest: set<Pos>,
                ghost remaining: set<Pos>, ghost within: set<Pos>)
    returns (component': seq<Pos>, frontier': seq<Pos>, rest': set<Pos>)
    requires Filling(start, component, frontier, rest, remaining, within)
    requires p in component && p in remaining && remaining <= within && ClosedIn(remaining, within)
    ensures Filling(start, component', frontier', rest', remaining, within)
    ensures Grown(component, frontier, rest, component', frontier', rest')
    ensures ClosedFrom({p}, Elements(component'), within)
  {
    hide Filling, Grown, ClosedIn;
    component', frontier', rest' := component, frontier, rest;
    GrownNothing(component, frontier, rest);
    for i := 0 to 4
      invariant Filling(start, component', frontier', rest', remaining, within)
      invariant Grown(component, frontier, rest, component', frontier', rest')
      invariant forall j :: 0 <= j < i && Neighbors(p)[j] in remaining ==> Neighbors(p)[j] in Elements(component')
    {
      var q := Neighbors(p)[i];
      if q in rest' {
        GrownHolds(p, component, frontier, rest, component', frontier', rest');
        FillingGrows(start, p, q, component', frontier', rest', remaining, within);
        GrownFurther(q, component, frontier, rest, component', frontier', rest');
        ElementsAppend(component', q);
        component', frontier', rest' := component' + [q], frontier' + [q], rest' - {q};
      }
      FillingSplits(start, q, component', frontier', rest', remaining, within);
    }
    NeighborsStay(p, remaining, within);
  }

  lemma GrownNothing(component: seq<Pos>, frontier: seq<Pos>, rest: set<Pos>)
    ensures Grown(component, frontier, rest, component, frontier, rest)
  {}

  lemma FillingSplits(start: Pos, q: Pos, component: seq<Pos>, frontier: seq<Pos>, rest: set<Pos>,
                      remaining: set<Pos>, within: set<Pos>)
    requires Filling(start, component, frontier, rest, remaining, within)
    ensures q in remaining ==> q in rest || q in Elements(component)
  {}

  lemma NeighborsStay(p: Pos, remaining: set<Pos>, within: set<Pos>)
    requires p in remaining && ClosedIn(remaining, within)
    ensures forall q :: q in Neighbors(p) && q in within ==> q in remaining
  {}

  lemma FillingGrows(start: Pos, p: Pos, q: Pos, component: seq<Pos>, frontier: seq<Pos>, rest: set<Pos>,
                     remaining: set<Pos>, within: set<Pos>)
    requires Filling(start, component, frontier, rest, remaining, within) && remaining <= within
    requires p in component && q in Neighbors(p) && q in rest
    ensures Filling(start, component + [q], frontier + [q], rest - {q}, remaining, within)
  {
    hide Connected, NoDuplicates, Neighbors;
    ConnectedStep(start, p, q, within);
    NoDuplicatesAppend(component, q);
    ElementsAppend(component, q);
    ElementsAppend(frontier, q);
  }

  lemma ElementsAppend(s: seq<Pos>, q: Pos)
    ensures Elements(s + [q]) == Elements(s) + {q}
  {}

  lemma GrownFurther(q: Pos, component0: seq<Pos>, frontier0: seq<Pos>, rest0: set<Pos>,
                     component: seq<Pos>, frontier: seq<Pos>, rest: set<Pos>)
    requires Grown(component0, frontier0, rest0, component, frontier, rest) && q in rest
    ensures Grown(component0, frontier0, rest0, component + [q], frontier + [q], rest - {q})
  {
    ElementsAppend(component, q);
    ElementsAppend(frontier, q);
    hide Elements;
  }

  lemma GrownHolds(p: Pos, component0: seq<Pos>, frontier0: seq<Pos>, rest0: set<Pos>, component: seq<Pos>,
                   frontier: seq<Pos>, rest: set<Pos>)
    requires Grown(component0, frontier0, rest0, component, frontier, rest) && p in component0
    ensures p in component
  {
    assert p in Elements(component0);
  }

  lemma RestClosed(part: set<Pos>, remaining: set<Pos>, rest: set<Pos>, within: set<Pos>)
    requires ClosedIn(part, within) && ClosedIn(remaining, within) && rest == remaining - part && remaining <= within
    ensures ClosedIn(rest, within)
  {
    forall p, q | p in rest && q in Neighbors(p) && q in within ensures q in rest {
      NeighborsSymmetric(p, q);
    }
  }

  // ----- centroid and sort key -----

  type Component = c: seq<Pos> | c != [] witness [(0, 0)]

  function Sum(values: seq<int>): int {
    if values == [] then 0 else values[0] + Sum(values[1..])
  }

  function Column(p: Pos): int { p.0 }

  function Row(p: Pos): int { p.1 }

  /** The floor of the mean; the divisor is positive, so `/` is Python's `//`. */
  function Centroid(component: Component): Pos {
    (Sum(Map(Column, component)) / |component|, Sum(Map(Row, component)) / |component|)
  }

  lemma {:induction false} SumBounds(values: seq<int>, low: int, high: int)
    requires forall i :: 0 <= i < |values| ==> low <= values[i] <= high
    ensures low * |values| <= Sum(values) <= high * |values|
  {
    if values != [] {
      SumBounds(values[1..], low, high);
      assert low * |values| == low * |values[1..]| + low && high * |values| == high * |values[1..]| + high;
    }
  }

  /** The centroid lies in every box that contains the component, its bounding box among them. */
  lemma CentroidInBox(component: Component, low: Pos, high: Pos)
    requires forall p :: p in component ==> low.0 <= p.0 <= high.0 && low.1 <= p.1 <= high.1
    ensures low.0 <= Centroid(component).0 <= high.0 && low.1 <= Centroid(component).1 <= high.1
  {
    var xs, ys := Map(Column, component), Map(Row, component);
    forall i | 0 <= i < |component| ensures low.0 <= xs[i] <= high.0 && low.1 <= ys[i] <= high.1 {
      assert component[i] in component;
    }
    SumBounds(xs, low.0, high.0);
    SumBounds(ys, low.1, high.1);
    QuotientBounds(Sum(xs), |xs|, low.0, high.0);
    QuotientBounds(Sum(ys), |ys|, low.1, high.1);
  }

  function RowMajorLe(p: Pos, q: Pos): bool {
    p.1 < q.1 || (p.1 == q.1 && p.0 <= q.0)
  }

  /** `min(component, key=(y, x))`. */
  function TopLeft(component: Component): (r: Pos)
    ensures r in component && forall p :: p in component ==> RowMajorLe(r, p)
  {
    if |component| == 1 then component[0]
    else
      assert component == [component[0]] + component[1..];
      var rest := TopLeft(component[1..]);
      if RowMajorLe(component[0], rest) then component[0] else rest
  }

  lemma {:induction false} TopLeftOfSet(s: set<Pos>) returns (r: Pos)
    requires s != {}
    ensures r in s && forall p :: p in s ==> RowMajorLe(r, p)
  {
    r :| r in s;
    if s != {r} {
      var other := TopLeftOfSet(s - {r});
      assert s == (s - {r}) + {r};
      if RowMajorLe(other, r) { r := other; }
    }
  }

  type Key = (int, int, int, int)

  /** `_component_sort_key`. */
  function SortKey(component: Component): Key {
    var centroid, corner := Centroid(component), TopLeft(component);
    (centroid.1, centroid.0, corner.1, corner.0)
  }

  function KeyLess(a: Key, b: Key): bool {
    a.0 < b.0 || (a.0 == b.0 && (a.1 < b.1 || (a.1 == b.1 && (a.2 < b.2 || (a.2 == b.2 && a.3 < b.3)))))
  }

  function ByKey(c: Component, d: Component): bool {
    SortKey(c) == SortKey(d) || KeyLess(SortKey(c), SortKey(d))
  }

  // ----- all components -----

  /** The components found so far and the marker pixels that remain make up the marker set. */
  ghost predicate Partition(components: seq<Component>, remaining: set<Pos>, within: set<Pos>) {
    && (forall c :: c in components ==> NoDuplicates(c) && IsComponent(Elements(c), within) && Elements(c) !! remaining)
    && (forall i, j :: 0 <= i < j < |components| ==> Elements(components[i]) !! Elements(components[j]))
    && (forall p :: p in within <==> p in remaining || exists c :: c in components && p in c)
  }

  lemma PartitionGrows(components: seq<Component>, c: Component, remaining: set<Pos>, rest: set<Pos>, within: set<Pos>)
    requires Partition(components, remaining, within)
    requires NoDuplicates(c) && IsComponent(Elements(c), within) && Elements(c) <= remaining
      && rest == remaining - Elements(c)
    ensures Partition(components + [c], rest, within)
  {
    hide IsComponent, NoDuplicates;
    forall p ensures p in within <==> p in rest || exists d :: d in components + [c] && p in d {
      if p in within && p !in remaining {
        var d :| d in components && p in d;
        assert d in components + [c];
      }
      if d :| d in components + [c] && p in d {
        assert p in Elements(d);
        assert d in components || d == c;
      }
      assert p in remaining && p !in rest ==> c in components + [c] && p in c;
    }
  }

  /** Sorting keeps the partition and makes the order strict: equal keys would need a shared top-left cell. */
  lemma PartitionSorted(components: seq<Component>, sorted: seq<Component>, within: set<Pos>)
    requires Partition(components, {}, within) && sorted == SortBy(components, ByKey)
    ensures Partition(sorted, {}, within)
    ensures forall i, j :: 0 <= i < j < |sorted| ==> KeyLess(SortKey(sorted[i]), SortKey(sorted[j]))
  {
    hide Partition, ByKey, NoDuplicates, IsComponent, KeyLess, SortKey;
    ByKeyOrders();
    SortBySorts(components, ByKey);
    SortByMembers(components, ByKey);
    ComponentsDistinct(components, within);
    NoDuplicatesPermuted(components, sorted);
    PartitionRearranged(components, sorted, within);
    forall i, j | 0 <= i < j < |sorted| ensures KeyLess(SortKey(sorted[i]), SortKey(sorted[j])) {
      DistinctAt(sorted, i, j);
      PartDistinct(components, within, sorted[i], sorted[j]);
      KeysDiffer(sorted[i], sorted[j]);
    }
  }

  lemma ByKeyOrders()
    ensures TotalPreorder(ByKey)
  {
    hide SortKey;
  }

  lemma PartitionRearranged(components: seq<Component>, sorted: seq<Component>, within: set<Pos>)
    requires Partition(components, {}, within) && NoDuplicates(sorted)
    requires forall c :: c in sorted <==> c in components
    ensures Partition(sorted, {}, within)
  {
    forall i, j | 0 <= i < j < |sorted| ensures Elements(sorted[i]) !! Elements(sorted[j]) {
      DistinctAt(sorted, i, j);
      PartDistinct(components, within, sorted[i], sorted[j]);
    }
    hide IsComponent, NoDuplicates;
  }

  lemma ComponentsDistinct(components: seq<Component>, within: set<Pos>)
    requires Partition(components, {}, within)
    ensures NoDuplicates(components)
  {
    hide IsComponent;
    forall i, j | 0 <= i < j < |components| ensures components[i] != components[j] {
      assert components[i][0] in Elements(components[i]);
    }
  }

  lemma DistinctAt(components: seq<Component>, i: nat, j: nat)
    requires NoDuplicates(components) && i < j < |components|
    ensures components[i] != components[j]
  {}

  lemma PartDistinct(components: seq<Component>, within: set<Pos>, c: Component, d: Component)
    requires Partition(components, {}, within) && c in components && d in components && c != d
    ensures Elements(c) !! Elements(d)
  {
    hide IsComponent;
    var k :| 0 <= k < |components| && components[k] == c;
    var l :| 0 <= l < |components| && components[l] == d;
    assert k < l || l < k;
  }

  lemma KeysDiffer(c: Component, d: Component)
    requires Elements(c) !! Elements(d) && ByKey(c, d)
    ensures KeyLess(SortKey(c), SortKey(d))
  {
    assert TopLeft(c) in Elements(c) && TopLeft(d) in Elements(d);
  }

  /** `_marker_components`. */
  method FindComponents(frame: Frame, marker: Marker) returns (components: seq<Component>)
    requires frame.Valid()
    ensures Partition(components, {}, MarkerPositions(frame, marker))
    ensures forall i, j :: 0 <= i < j < |components| ==> KeyLess(SortKey(components[i]), SortKey(components[j]))
    ensures forall c :: c in components ==> Inside(frame, Centroid(c))
  {
    hide IsComponent;
    var markers := MarkerPositions(frame, marker);
    var remaining := markers;
    var found: seq<Component> := [];
    while remaining != {}
      invariant remaining <= markers && ClosedIn(remaining, markers)
      invariant Partition(found, remaining, markers)
      decreases |remaining|
    {
      var _ := TopLeftOfSet(remaining);
      var start :| start in remaining && forall p :: p in remaining ==> RowMajorLe(start, p);
      ghost var before := remaining;
      var component, rest := FloodFill(start, remaining, markers);
      assert start in Elements(component);
      PartitionGrows(found, component, remaining, rest, markers);
      found, remaining := found + [component], rest;
    }
    components := SortBy(found, ByKey);
    PartitionSorted(found, components, markers);
    forall c | c in components ensures Inside(frame, Centroid(c)) {
      CentroidInFrame(frame, marker, components, c);
    }
  }

  lemma CentroidInFrame(frame: Frame, marker: Marker, components: seq<Component>, c: Component)
    requires frame.Valid() && Partition(components, {}, MarkerPositions(frame, marker)) && c in components
    ensures Inside(frame, Centroid(c))
  {
    hide IsComponent, NoDuplicates;
    forall p | p in c ensures Inside(frame, p) {
      assert p in MarkerPositions(frame, marker);
    }
    CentroidInBox(c, (0, 0), (frame.width - 1, frame.height - 1));
  }

  // ----- the producer -----

  datatype Prediction = Prediction(player: Option<Pos>, sprites: seq<Pos>)
  datatype ProducerError = SeveralPlayers

  /** `predict`: fails exactly when two player pixels are not connected. */
  method Predict(frame: Frame, player: Marker, sprite: Marker) returns (r: Result<Prediction, ProducerError>)
    requires frame.Valid()
    ensures r.Err? <==> Scattered(MarkerPositions(frame, player))
    ensures r.Ok? ==> (r.value.player.None? <==> MarkerPositions(frame, player) == {})
    ensures r.Ok? && r.value.player.Some? ==> AreCentroids([r.value.player.value], MarkerPositions(frame, player))
    ensures r.Ok? ==> AreCentroids(r.value.sprites, MarkerPositions(frame, sprite))
    ensures r.Ok? && r.value.player.Some? ==>
      0 <= r.value.player.value.0 < frame.width && 0 <= r.value.player.value.1 < frame.height
    ensures r.Ok? ==> forall p :: p in r.value.sprites ==> 0 <= p.0 < frame.width && 0 <= p.1 < frame.height
  {
    hide Partition, Scattered, AreCentroids;
    var players := FindComponents(frame, player);
    NoneWhenEmpty(players, MarkerPositions(frame, player));
    SeveralWhenScattered(players, MarkerPositions(frame, player));
    if |players| > 1 {
      return Err(SeveralPlayers);
    }
    var sprites := FindComponents(frame, sprite);
    var found := if |players| > 0 then Some(Centroid(players[0])) else None;
    CentroidsOf(sprites, MarkerPositions(frame, sprite));
    CentroidsOf(players, MarkerPositions(frame, player));
    if |players| > 0 { assert Map(Centroid, players) == [Centroid(players[0])]; }
    return Ok(Prediction(found, Map(Centroid, sprites)));
  }

  predicate InKeyOrder(components: seq<Component>) {
    forall i, j :: 0 <= i < j < |components| ==> KeyLess(SortKey(components[i]), SortKey(components[j]))
  }

  // ----- what the predicted points are -----

  function ColumnSum(cells: seq<Pos>): int {
    if cells == [] then 0 else cells[0].0 + ColumnSum(cells[1..])
  }

  function RowSum(cells: seq<Pos>): int {
    if cells == [] then 0 else cells[0].1 + RowSum(cells[1..])
  }

  /** Per axis, the largest whole number not above the mean of the cells. */
  predicate IsFloorMean(p: Pos, cells: seq<Pos>) {
    && p.0 * |cells| <= ColumnSum(cells) < (p.0 + 1) * |cells|
    && p.1 * |cells| <= RowSum(cells) < (p.1 + 1) * |cells|
  }

  /** The leftmost cell of the top row. */
  predicate IsCorner(corner: Pos, cells: seq<Pos>) {
    corner in cells && forall p :: p in cells ==> corner.1 < p.1 || (corner.1 == p.1 && corner.0 <= p.0)
  }

  /** Row before column, strictly. */
  predicate RowFirst(p: Pos, q: Pos) {
    p.1 < q.1 || (p.1 == q.1 && p.0 < q.0)
  }

  /** Components by the row, then the column of their centroids, and then by their corners. */
  ghost predicate InOrder(p: Pos, c: seq<Pos>, q: Pos, d: seq<Pos>) {
    RowFirst(p, q) || (p == q && forall a, b :: IsCorner(a, c) && IsCorner(b, d) ==> RowFirst(a, b))
  }

  /** The floor means of all components of `within`, one each, in order. */
  ghost predicate AreCentroids(points: seq<Pos>, within: set<Pos>) {
    exists components: seq<Component> ::
      && Partition(components, {}, within) && |points| == |components|
      && (forall i :: 0 <= i < |points| ==> IsFloorMean(points[i], components[i]))
      && (forall i, j :: 0 <= i < j < |points| ==> InOrder(points[i], components[i], points[j], components[j]))
  }

  lemma CentroidsOf(components: seq<Component>, within: set<Pos>)
    requires Partition(components, {}, within) && InKeyOrder(components)
    ensures AreCentroids(Map(Centroid, components), within)
  {
    hide Partition, IsFloorMean, InOrder, Centroid, SortKey, KeyLess;
    var points := Map(Centroid, components);
    forall i | 0 <= i < |points| ensures IsFloorMean(points[i], components[i]) {
      CentroidIsFloorMean(components[i]);
    }
    forall i, j | 0 <= i < j < |points| ensures InOrder(points[i], components[i], points[j], components[j]) {
      KeyIsOrder(components[i], components[j]);
    }
  }

  lemma {:induction false} SumsByAxis(cells: seq<Pos>)
    ensures Sum(Map(Column, cells)) == ColumnSum(cells) && Sum(Map(Row, cells)) == RowSum(cells)
  {
    if cells != [] {
      SumsByAxis(cells[1..]);
      assert Map(Column, cells)[1..] == Map(Column, cells[1..]);
      assert Map(Row, cells)[1..] == Map(Row, cells[1..]);
    }
  }

  lemma CentroidIsFloorMean(c: Component)
    ensures IsFloorMean(Centroid(c), c)
  {
    SumsByAxis(c);
    hide Sum, ColumnSum, RowSum;
    DivisionBounds(ColumnSum(c), |c|);
    DivisionBounds(RowSum(c), |c|);
  }

  lemma KeyIsOrder(c: Component, d: Component)
    requires KeyLess(SortKey(c), SortKey(d))
    ensures InOrder(Centroid(c), c, Centroid(d), d)
  {
    hide Centroid, TopLeft;
    forall a, b | IsCorner(a, c) && IsCorner(b, d) ensures a == TopLeft(c) && b == TopLeft(d) {
      CornerIsTopLeft(a, c);
      CornerIsTopLeft(b, d);
    }
  }

  lemma CornerIsTopLeft(corner: Pos, c: Component)
    requires IsCorner(corner, c)
    ensures corner == TopLeft(c)
  {
    hide TopLeft;
    assert TopLeft(c) in c;
  }

  // ----- pixels and neighbours -----

  /** The cells one step to the left, right, up or down, and no others. */
  lemma NeighborsAreAdjacent(p: Pos, q: Pos)
    ensures q in Neighbors(p) <==> (p.0 == q.0 && (q.1 - p.1 == 1 || p.1 - q.1 == 1))
                                   || (p.1 == q.1 && (q.0 - p.0 == 1 || p.0 - q.0 == 1))
  {
    var n := Neighbors(p);
    assert forall i :: 0 <= i < |n| ==> n[i] in n;
    assert n[0] == (p.0, p.1 - 1) && n[1] == (p.0 - 1, p.1) && n[2] == (p.0 + 1, p.1) && n[3] == (p.0, p.1 + 1);
  }

  /** The pixels of the first `n` cells in reading order, byte by byte. */
  function InReadingOrder(frame: Frame, n: nat): seq<byte>
    requires frame.Valid() && n <= frame.width * frame.height
  {
    if n == 0 then []
    else
      CellInside(frame, n - 1);
      var pixel := PixelAt(frame, ((n - 1) % frame.width, (n - 1) / frame.width));
      InReadingOrder(frame, n - 1) + [pixel.0, pixel.1, pixel.2]
  }

  lemma CellInside(frame: Frame, k: nat)
    requires frame.Valid() && k < frame.width * frame.height
    ensures Inside(frame, (k % frame.width, k / frame.width))
  {
    QuotientBelow(k, frame.height, frame.width);
  }

  lemma QuotientBelow(total: nat, q: nat, n: nat)
    requires n > 0 && total < q * n
    ensures 0 <= total / n < q && 0 <= total % n < n && total == total / n * n + total % n
  {
    DivisionBounds(total, n);
    Scaled(q, total / n, n);
    Scaled(total / n + 1, 0, n);
  }

  /** Reading all pixels row by row, left to right, gives the raster back: each byte belongs to one pixel. */
  lemma RasterIsPixels(frame: Frame)
    requires frame.Valid()
    ensures InReadingOrder(frame, frame.width * frame.height) == frame.rgb
  {
    ReadSoFar(frame, frame.width * frame.height);
    assert frame.rgb[..frame.width * frame.height * 3] == frame.rgb;
  }

  lemma {:induction false} ReadSoFar(frame: Frame, n: nat)
    requires frame.Valid() && n <= frame.width * frame.height
    ensures InReadingOrder(frame, n) == frame.rgb[..n * 3]
  {
    if n > 0 {
      ReadSoFar(frame, n - 1);
      CellInside(frame, n - 1);
      QuotientBelow(n - 1, frame.height, frame.width);
      var p := ((n - 1) % frame.width, (n - 1) / frame.width);
      assert p.1 * frame.width + p.0 == n - 1;
      PixelBytes(frame, p, n - 1);
    }
  }

  lemma PixelBytes(frame: Frame, p: Pos, k: nat)
    requires frame.Valid() && Inside(frame, p) && p.1 * frame.width + p.0 == k && k * 3 + 3 <= |frame.rgb|
    ensures var pixel := PixelAt(frame, p);
      frame.rgb[..k * 3] + [pixel.0, pixel.1, pixel.2] == frame.rgb[..(k + 1) * 3]
  {}

  /** Some two of these pixels are not connected. */
  ghost predicate Scattered(pixels: set<Pos>) {
    exists p, q :: p in pixels && q in pixels && !Connected(p, q, pixels)
  }

  lemma NoneWhenEmpty(components: seq<Component>, within: set<Pos>)
    requires Partition(components, {}, within)
    ensures components == [] <==> within == {}
  {
    hide IsComponent, NoDuplicates;
    if components != [] {
      assert components[0] in components && components[0][0] in components[0];
      assert components[0][0] in within;
    }
  }

  lemma SeveralWhenScattered(components: seq<Component>, within: set<Pos>)
    requires Partition(components, {}, within)
    ensures |components| > 1 <==> Scattered(within)
  {
    hide Partition, Scattered;
    if |components| > 1 {
      ScatteredWhenSeveral(components, within);
    } else if |components| == 1 {
      WholeWhenOne(components, within);
    } else {
      NoneWhenEmpty(components, within);
      NothingScattered(within);
    }
  }

  lemma NothingScattered(within: set<Pos>)
    requires within == {}
    ensures !Scattered(within)
  {}

  lemma ScatteredWhenSeveral(components: seq<Component>, within: set<Pos>)
    requires Partition(components, {}, within) && |components| > 1
    ensures Scattered(within)
  {
    hide Connected, NoDuplicates, IsComponent;
    var c, d := components[0], components[1];
    assert c in components && d in components;
    assert c[0] in Elements(c) && d[0] in Elements(d) && c[0] in c && d[0] in d;
    OutsideComponent(c, c[0], d[0], within);
  }

  lemma WholeWhenOne(components: seq<Component>, within: set<Pos>)
    requires Partition(components, {}, within) && |components| == 1
    ensures !Scattered(within)
  {
    hide Connected, NoDuplicates;
    var c := components[0];
    assert c in components;
    forall p | p in within ensures p in Elements(c) {}
  }

  lemma OutsideComponent(c: Component, p: Pos, q: Pos, within: set<Pos>)
    requires IsComponent(Elements(c), within) && p in Elements(c) && q in within && q !in Elements(c)
    ensures !Connected(p, q, within)
  {}
}
