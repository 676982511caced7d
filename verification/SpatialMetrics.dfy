/**
 * Point-detection metrics over annotated frames
 * (src/fh_agent/evals/spatial_perception_metrics.py, `evaluate_spatial_perception`).
 */
module SpatialMetrics {
  import opened Prelude
  import opened Ordering
  import opened SpatialDataset
  import opened AugmentingPaths
  import opened PointMatching

  datatype Sprite = Sprite(position: Point, confidence: Option<real>)
  datatype PlayerPrediction = PlayerPrediction(position: Point, confidence: real)
  datatype Output = Output(evidenceId: string, player: Option<PlayerPrediction>, sprites: seq<Sprite>)
  datatype Config = Config(tolerance: real, minConfidence: real)

  /** The aggregate counters. */
  datatype Counts = Counts(
    evaluatedFrames: nat, skippedFrames: nat,
    truePositives: nat, falsePositives: nat, falseNegatives: nat,
    playerTruths: nat, playersDetected: nat, playerFalsePositives: nat)
  {
    function Plus(other: Counts): Counts {
      Counts(evaluatedFrames + other.evaluatedFrames, skippedFrames + other.skippedFrames,
             truePositives + other.truePositives, falsePositives + other.falsePositives,
                 falseNegatives + other.falseNegatives,
             playerTruths + other.playerTruths, playersDetected + other.playersDetected,
             playerFalsePositives + other.playerFalsePositives)
    }
  }

  datatype EvaluationError = UnknownFrames(frameIds: seq<string>) | EvidenceMismatch(frameId: string)

  const NOTHING := Counts(0, 0, 0, 0, 0, 0, 0, 0)

  // ----- the maximum as a number -----

  lemma MaximumIsUnique(j: nat, k: nat, predictions: seq<Point>, targets: seq<Point>, tolerance: real)
    requires IsMaximum(j, predictions, targets, tolerance) && IsMaximum(k, predictions, targets, tolerance)
    ensures j == k
  {}

  lemma {:induction false} MaximumFrom(pairs: set<(nat, nat)>, predictions: seq<Point>, targets: seq<Point>,
                                       tolerance: real) returns (size: nat)
    requires IsPointMatching(pairs, predictions, targets, tolerance)
    ensures IsMaximum(size, predictions, targets, tolerance)
    decreases |targets| - |pairs|
  {
    var candidates := CandidateLists(predictions, targets, tolerance);
    SameMatchings(pairs, predictions, targets, tolerance);
    MatchingFits(pairs, candidates, IndexSet(|targets|));
    if larger :| IsPointMatching(larger, predictions, targets, tolerance) && |larger| > |pairs| {
      SameMatchings(larger, predictions, targets, tolerance);
      MatchingFits(larger, candidates, IndexSet(|targets|));
      size := MaximumFrom(larger, predictions, targets, tolerance);
    } else {
      size := |pairs|;
    }
  }

  lemma MaximumExists(predictions: seq<Point>, targets: seq<Point>, tolerance: real)
    ensures exists size: nat :: IsMaximum(size, predictions, targets, tolerance)
  {
    var _ := MaximumFrom({}, predictions, targets, tolerance);
  }

  /** The largest number of one-to-one pairs within tolerance. */
  ghost function MaxMatching(predictions: seq<Point>, targets: seq<Point>, tolerance: real): (size: nat)
    ensures IsMaximum(size, predictions, targets, tolerance)
    ensures size <= |predictions| && size <= |targets|
  {
    MaximumExists(predictions, targets, tolerance);
    var size: nat :| IsMaximum(size, predictions, targets, tolerance);
    MaximumFits(size, predictions, targets, tolerance);
    size
  }

  lemma MaximumFits(size: nat, predictions: seq<Point>, targets: seq<Point>, tolerance: real)
    requires IsMaximum(size, predictions, targets, tolerance)
    ensures size <= |predictions| && size <= |targets|
  {
    var pairs :| IsPointMatching(pairs, predictions, targets, tolerance) && |pairs| == size;
    SameMatchings(pairs, predictions, targets, tolerance);
    MatchingFits(pairs, CandidateLists(predictions, targets, tolerance), IndexSet(|targets|));
  }

  /** More predictions, more targets or a wider tolerance never shrink the maximum. */
  lemma MaxMatchingGrows(predictions: seq<Point>, targets: seq<Point>, tolerance: real,
                         predictions': seq<Point>, targets': seq<Point>, tolerance': real)
    requires multiset(predictions) <= multiset(predictions') && multiset(targets) <= multiset(targets')
      && tolerance <= tolerance'
    ensures MaxMatching(predictions, targets, tolerance) <= MaxMatching(predictions', targets', tolerance')
  {
    var left := Embedding(predictions, predictions');
    var right := Embedding(targets, targets');
    var pairs :| IsPointMatching(pairs, predictions, targets, tolerance)
        && |pairs| == MaxMatching(predictions, targets, tolerance);
    var moved := MovedMatching(pairs, predictions, targets, tolerance, predictions', targets', tolerance', left, right);
  }

  /** The pairs at their new indices. */
  ghost function Moved(pairs: set<(nat, nat)>, left: seq<nat>, right: seq<nat>): set<(nat, nat)>
    requires forall e :: e in pairs ==> e.0 < |left| && e.1 < |right|
  {
    set e | e in pairs :: (left[e.0], right[e.1])
  }

  lemma MovedMatching(pairs: set<(nat, nat)>, predictions: seq<Point>, targets: seq<Point>, tolerance: real,
                      predictions': seq<Point>, targets': seq<Point>, tolerance': real, left: seq<nat>, right: seq<nat>)
    returns (moved: set<(nat, nat)>)
    requires IsPointMatching(pairs, predictions, targets, tolerance) && tolerance <= tolerance'
    requires Embeds(left, predictions, predictions') && Embeds(right, targets, targets')
    ensures IsPointMatching(moved, predictions', targets', tolerance') && |moved| >= |pairs|
  {
    hide Within, NoDuplicates;
    moved := Moved(pairs, left, right);
    forall e | e in pairs ensures Within(predictions'[left[e.0]], targets'[right[e.1]], tolerance') {
      WithinWider(predictions[e.0], targets[e.1], tolerance, tolerance');
    }
    forall e, f | e in pairs && f in pairs ensures (left[e.0] == left[f.0] <==> e.0 == f.0)
        && (right[e.1] == right[f.1] <==> e.1 == f.1) {
      EmbedsApart(left, predictions, predictions', e.0, f.0);
      EmbedsApart(right, targets, targets', e.1, f.1);
    }
    MovedCount(pairs, left, right);
  }

  lemma MovedCount(pairs: set<(nat, nat)>, left: seq<nat>, right: seq<nat>)
    requires forall e :: e in pairs ==> e.0 < |left| && e.1 < |right|
    requires forall e, f :: e in pairs && f in pairs
                            ==> (left[e.0] == left[f.0] <==> e.0 == f.0) && (right[e.1] == right[f.1] <==> e.1 == f.1)
    ensures |Moved(pairs, left, right)| >= |pairs|
  {
    var f := map e | e in pairs :: (left[e.0], right[e.1]);
    InjectionBound(pairs, Moved(pairs, left, right), f);
  }

  lemma EmbedsApart<T>(e: seq<nat>, a: seq<T>, b: seq<T>, i: nat, j: nat)
    requires Embeds(e, a, b) && i < |a| && j < |a|
    ensures e[i] == e[j] <==> i == j
  {}

  lemma WithinWider(a: Point, b: Point, tolerance: real, tolerance': real)
    requires Within(a, b, tolerance) && tolerance <= tolerance'
    ensures Within(a, b, tolerance')
  {
    assert tolerance * tolerance <= tolerance' * tolerance';
  }

  // ----- one frame -----

  /** `_filtered_sprite_positions`. */
  function Kept(sprites: seq<Sprite>, minConfidence: real): seq<Point> {
    if sprites == [] then []
    else
      var rest := Kept(sprites[..|sprites| - 1], minConfidence);
      var last := sprites[|sprites| - 1];
      if last.confidence.Some? && last.confidence.value >= minConfidence then rest + [last.position] else rest
  }

  function KeptOf(output: Option<Output>, minConfidence: real): seq<Point> {
    if output.None? then [] else Kept(output.value.sprites, minConfidence)
  }

  /** `_filtered_player_position`. */
  function KeptPlayer(output: Option<Output>, minConfidence: real): Option<Point> {
    if output.None? || output.value.player.None? || output.value.player.value.confidence < minConfidence then None
    else Some(output.value.player.value.position)
  }

  function PlayerCounts(annotation: Annotation, output: Option<Output>, config: Config): Counts {
    var found := KeptPlayer(output, config.minConfidence);
    if annotation.player.Some? then
      NOTHING.(playerTruths := 1,
               playersDetected := if found.Some?
                   && Within(found.value, annotation.player.value, config.tolerance) then 1 else 0)
    else NOTHING.(playerFalsePositives := if found.Some? then 1 else 0)
  }

  /** What one usable frame contributes: a true positive for each pair of a maximum matching. */
  ghost function FrameCounts(annotation: Annotation, output: Option<Output>, config: Config): Counts {
    var kept := KeptOf(output, config.minConfidence);
    var matched := MaxMatching(kept, annotation.sprites, config.tolerance);
    PlayerCounts(annotation, output, config).(
      evaluatedFrames := 1,
      truePositives := matched, falsePositives := |kept| - matched, falseNegatives := |annotation.sprites| - matched)
  }

  /** Which sprites are confident enough, in their order, and how they were matched. */
  datatype FrameMatch = FrameMatch(where: seq<nat>, pairs: seq<(nat, nat)>, errors: seq<int>)

  function SpritesOf(output: Option<Output>): seq<Sprite> {
    if output.None? then [] else output.value.sprites
  }

  /** `where` lists, in order, exactly the sprites with a confidence of at least the threshold. */
  predicate ConfidentAt(where: seq<nat>, sprites: seq<Sprite>, minConfidence: real) {
    && (forall i, j :: 0 <= i < j < |where| ==> where[i] < where[j])
    && (forall k :: 0 <= k < |where| ==> where[k] < |sprites|)
    && (forall i: nat :: i < |sprites| ==>
          (i in where <==> sprites[i].confidence.Some? && sprites[i].confidence.value >= minConfidence))
  }

  function PositionsAt(where: seq<nat>, sprites: seq<Sprite>): seq<Point>
    requires forall k :: 0 <= k < |where| ==> where[k] < |sprites|
  {
    seq(|where|, k requires 0 <= k < |where| => sprites[where[k]].position)
  }

  /** A largest matching of a usable frame's confident sprites with its targets, and the squared distances in it. */
  ghost predicate Explains(m: FrameMatch, annotation: Annotation, output: Option<Output>, config: Config) {
    if annotation.status != Usable then m == FrameMatch([], [], [])
    else
      && ConfidentAt(m.where, SpritesOf(output), config.minConfidence)
      && var predictions := PositionsAt(m.where, SpritesOf(output));
         && InTargetOrder(m.pairs)
         && IsPointMatching(PairSet(m.pairs), predictions, annotation.sprites, config.tolerance)
         && IsMaximum(|m.pairs|, predictions, annotation.sprites, config.tolerance)
         && AreErrors(m.errors, m.pairs, predictions, annotation.sprites)
  }

  /** Where the kept sprites were. */
  lemma {:induction false} KeptWhere(sprites: seq<Sprite>, minConfidence: real) returns (where: seq<nat>)
    ensures ConfidentAt(where, sprites, minConfidence)
    ensures Kept(sprites, minConfidence) == PositionsAt(where, sprites)
  {
    if sprites == [] {
      where := [];
    } else {
      var n := |sprites| - 1;
      where := KeptWhere(sprites[..n], minConfidence);
      assert PositionsAt(where, sprites) == PositionsAt(where, sprites[..n]);
      ConfidentNext(where, sprites, minConfidence);
      if sprites[n].confidence.Some? && sprites[n].confidence.value >= minConfidence {
        where := where + [n];
      }
      hide ConfidentAt, PositionsAt;
    }
  }

  lemma ConfidentNext(where: seq<nat>, sprites: seq<Sprite>, minConfidence: real)
    requires sprites != [] && ConfidentAt(where, sprites[..|sprites| - 1], minConfidence)
    ensures var last := sprites[|sprites| - 1];
      if last.confidence.Some? && last.confidence.value >= minConfidence then
        && ConfidentAt(where + [|sprites| - 1], sprites, minConfidence)
        && PositionsAt(where + [|sprites| - 1], sprites) == PositionsAt(where, sprites) + [last.position]
      else ConfidentAt(where, sprites, minConfidence)
  {
    var n := |sprites| - 1;
    forall i: nat | i < n ensures sprites[i] == sprites[..n][i] {}
  }

  lemma KeptOfWhere(output: Option<Output>, minConfidence: real) returns (where: seq<nat>)
    ensures ConfidentAt(where, SpritesOf(output), minConfidence)
    ensures KeptOf(output, minConfidence) == PositionsAt(where, SpritesOf(output))
  {
    where := KeptWhere(SpritesOf(output), minConfidence);
  }

  method EvaluateFrame(annotation: Annotation, output: Option<Output>, config: Config)
      returns (counts: Counts, errors: seq<int>, ghost matched: FrameMatch)
    requires annotation.status == Usable
    ensures counts == FrameCounts(annotation, output, config)
    ensures |errors| == counts.truePositives && errors == matched.errors
    ensures Explains(matched, annotation, output, config) && |matched.pairs| == |errors|
    ensures |matched.where| == counts.truePositives + counts.falsePositives
  {
    hide IsMaximum, IsPointMatching, PairSet, AreErrors, InTargetOrder, ConfidentAt, MaxMatching, Kept;
    var kept := KeptOf(output, config.minConfidence);
    ghost var where := KeptOfWhere(output, config.minConfidence);
    var unmatchedPredictions, unmatchedTargets;
    ghost var pairs;
    errors, unmatchedPredictions, unmatchedTargets, pairs := MatchPoints(kept, annotation.sprites, config.tolerance);
    MaximumIsUnique(|errors|, MaxMatching(kept, annotation.sprites, config.tolerance), kept, annotation.sprites,
        config.tolerance);
    counts := PlayerCounts(annotation, output, config).(
      evaluatedFrames := 1,
      truePositives := |errors|, falsePositives := unmatchedPredictions, falseNegatives := unmatchedTargets);
    matched := FrameMatch(where, pairs, errors);
  }

  // ----- all frames -----

  function Lookup(predictions: map<string, Output>, frameId: string): Option<Output> {
    if frameId in predictions then Some(predictions[frameId]) else None
  }

  /** The frames in the given order; the first prediction bound to other evidence is an error. */
  ghost function Totals(ids: seq<string>, annotations: map<string, Annotation>, predictions: map<string, Output>,
                        config: Config):
    Result<Counts, EvaluationError>
    requires forall id :: id in ids ==> id in annotations
  {
    if ids == [] then Ok(NOTHING)
    else
      var n := |ids| - 1;
      var id := ids[n];
      var before := Totals(ids[..n], annotations, predictions, config);
      var output := Lookup(predictions, id);
      if before.Err? then before
      else if annotations[id].status != Usable then Ok(before.value.Plus(NOTHING.(skippedFrames := 1)))
      else if output.Some? && output.value.evidenceId != annotations[id].evidenceId then Err(EvidenceMismatch(id))
      else Ok(before.value.Plus(FrameCounts(annotations[id], output, config)))
  }

  ghost function Evaluation(annotations: map<string, Annotation>, predictions: map<string, Output>, config: Config):
    Result<Counts, EvaluationError>
  {
    var unknown := predictions.Keys - annotations.Keys;
    if unknown != {} then Err(UnknownFrames(SortedListing(unknown)))
    else Totals(SortedListing(annotations.Keys), annotations, predictions, config)
  }

  /** The errors of all frames, frame by frame. */
  function AllErrors(matches: seq<FrameMatch>): seq<int> {
    if matches == [] then [] else AllErrors(matches[..|matches| - 1]) + matches[|matches| - 1].errors
  }

  function AllKept(matches: seq<FrameMatch>): nat {
    if matches == [] then 0 else AllKept(matches[..|matches| - 1]) + |matches[|matches| - 1].where|
  }

  lemma MatchesNext(matches: seq<FrameMatch>, m: FrameMatch)
    ensures AllErrors(matches + [m]) == AllErrors(matches) + m.errors
    ensures AllKept(matches + [m]) == AllKept(matches) + |m.where|
  {
    assert (matches + [m])[..|matches|] == matches;
  }

  /**
   * `evaluate_spatial_perception`, up to the ratios and means it derives from these counters and errors.
   * `matches` says for every frame in id order which sprites were matched with which targets.
   */
  method Evaluate(annotations: map<string, Annotation>, predictions: map<string, Output>, config: Config)
    returns (r: Result<Counts, EvaluationError>, spriteErrors: seq<int>, ghost matches: seq<FrameMatch>)
    ensures r == Evaluation(annotations, predictions, config)
    ensures r.Ok? ==>
      && |matches| == |SortedListing(annotations.Keys)|
      && (forall i :: 0 <= i < |matches| ==>
            var id := SortedListing(annotations.Keys)[i];
            Explains(matches[i], annotations[id], if id in predictions then Some(predictions[id]) else None, config))
      && spriteErrors == AllErrors(matches)
      && |spriteErrors| == r.value.truePositives
      && AllKept(matches) == r.value.truePositives + r.value.falsePositives
  {
    hide Totals, FrameCounts, Explains, ExplainFirst, AllErrors, AllKept, MaxMatching, Kept, PlayerCounts, NoDuplicates,
         Sorted;
    spriteErrors, matches := [], [];
    var unknown := predictions.Keys - annotations.Keys;
    if unknown != {} {
      return Err(UnknownFrames(SortedListing(unknown))), [], [];
    }
    var ids := SortedListing(annotations.Keys);
    var counts := NOTHING;
    TotalsStart(annotations, predictions, config);
    NothingMatched(ids, annotations, predictions, config);
    for i := 0 to |ids|
      invariant Totals(ids[..i], annotations, predictions, config) == Ok(counts)
      invariant spriteErrors == AllErrors(matches) && |spriteErrors| == counts.truePositives
      invariant AllKept(matches) == counts.truePositives + counts.falsePositives
      invariant ExplainFirst(matches, ids, i, annotations, predictions, config)
    {
      var id := ids[i];
      var annotation, output := annotations[id], Lookup(predictions, id);
      TotalsStep(ids, i, annotations, predictions, config);
      if annotation.status != Usable {
        counts := counts.Plus(NOTHING.(skippedFrames := 1));
        SkippedExplained(annotation, output, config);
        MatchesNext(matches, FrameMatch([], [], []));
        ExplainNext(matches, FrameMatch([], [], []), ids, i, annotations, predictions, config);
        matches := matches + [FrameMatch([], [], [])];
      } else if output.Some? && output.value.evidenceId != annotation.evidenceId {
        TotalsStopAtError(ids, i + 1, annotations, predictions, config);
        return Err(EvidenceMismatch(id)), spriteErrors, matches;
      } else {
        ghost var matched;
        var frameCounts, errors;
        frameCounts, errors, matched := EvaluateFrame(annotation, output, config);
        MatchesNext(matches, matched);
        ExplainNext(matches, matched, ids, i, annotations, predictions, config);
        matches := matches + [matched];
        spriteErrors := spriteErrors + errors;
        counts := counts.Plus(frameCounts);
      }
    }
    assert ids[..|ids|] == ids;
    FirstExplained(matches, ids, annotations, predictions, config);
    return Ok(counts), spriteErrors, matches;
  }

  /** The first `n` frames are explained one by one. */
  ghost predicate ExplainFirst(matches: seq<FrameMatch>, ids: seq<string>, n: nat, annotations: map<string, Annotation>,
                               predictions: map<string, Output>, config: Config)
    requires n <= |ids| && forall id :: id in ids ==> id in annotations
  {
    |matches| == n && forall j :: 0 <= j < n ==>
                                    Explains(matches[j], annotations[ids[j]], Lookup(predictions, ids[j]), config)
  }

  lemma ExplainNext(matches: seq<FrameMatch>, m: FrameMatch, ids: seq<string>, n: nat,
                    annotations: map<string, Annotation>, predictions: map<string, Output>, config: Config)
    requires n < |ids| && forall id :: id in ids ==> id in annotations
    requires ExplainFirst(matches, ids, n, annotations, predictions, config)
    requires Explains(m, annotations[ids[n]], Lookup(predictions, ids[n]), config)
    ensures ExplainFirst(matches + [m], ids, n + 1, annotations, predictions, config)
  {
    hide Explains;
  }

  lemma FirstExplained(matches: seq<FrameMatch>, ids: seq<string>, annotations: map<string, Annotation>,
                       predictions: map<string, Output>, config: Config)
    requires forall id :: id in ids ==> id in annotations
    requires ExplainFirst(matches, ids, |ids|, annotations, predictions, config)
    ensures |matches| == |ids|
    ensures forall i :: 0 <= i < |matches| ==>
                          Explains(matches[i], annotations[ids[i]],
                                   if ids[i] in predictions then Some(predictions[ids[i]]) else None, config)
  {
    hide Explains;
  }

  lemma NothingMatched(ids: seq<string>, annotations: map<string, Annotation>, predictions: map<string, Output>,
                       config: Config)
    requires forall id :: id in ids ==> id in annotations
    ensures AllErrors([]) == [] && AllKept([]) == 0
    ensures ExplainFirst([], ids, 0, annotations, predictions, config)
  {}

  lemma SkippedExplained(annotation: Annotation, output: Option<Output>, config: Config)
    requires annotation.status != Usable
    ensures Explains(FrameMatch([], [], []), annotation, output, config)
  {}

  lemma TotalsStart(annotations: map<string, Annotation>, predictions: map<string, Output>, config: Config)
    ensures Totals([], annotations, predictions, config) == Ok(NOTHING)
  {}

  lemma TotalsStep(ids: seq<string>, i: nat, annotations: map<string, Annotation>, predictions: map<string, Output>,
                   config: Config)
    requires i < |ids| && (forall id :: id in ids ==> id in annotations)
      && Totals(ids[..i], annotations, predictions, config).Ok?
    ensures var counts, annotation, output :=
        Totals(ids[..i], annotations, predictions, config).value, annotations[ids[i]], Lookup(predictions, ids[i]);
      Totals(ids[..i + 1], annotations, predictions, config) ==
        if annotation.status != Usable then Ok(counts.Plus(NOTHING.(skippedFrames := 1)))
        else if output.Some? && output.value.evidenceId != annotation.evidenceId then Err(EvidenceMismatch(ids[i]))
        else Ok(counts.Plus(FrameCounts(annotation, output, config)))
  {
    assert ids[..i + 1][..i] == ids[..i];
  }

  lemma {:induction false} TotalsStopAtError(ids: seq<string>, i: nat, annotations: map<string, Annotation>,
                                             predictions: map<string, Output>, config: Config)
    requires i <= |ids| && forall id :: id in ids ==> id in annotations
    requires Totals(ids[..i], annotations, predictions, config).Err?
    ensures Totals(ids, annotations, predictions, config) == Totals(ids[..i], annotations, predictions, config)
    decreases |ids|
  {
    if i == |ids| {
      assert ids[..i] == ids;
    } else {
      var n := |ids| - 1;
      assert ids[..n][..i] == ids[..i];
      TotalsStopAtError(ids[..n], i, annotations, predictions, config);
    }
  }

  // ----- what the totals depend on -----

  /** Equal except for the order of the sprite points. */
  ghost predicate SameFrame(a: Annotation, b: Annotation) {
    Forget(a) == Forget(b)
  }

  /** Equal except for the order of the predicted sprites. */
  ghost predicate SameOutput(a: Option<Output>, b: Option<Output>) {
    && (a.Some? <==> b.Some?)
    && (a.Some? ==> a.value.evidenceId == b.value.evidenceId && a.value.player == b.value.player
                    && multiset(a.value.sprites) == multiset(b.value.sprites))
  }

  lemma {:induction false} KeptAppend(a: seq<Sprite>, b: seq<Sprite>, minConfidence: real)
    ensures Kept(a + b, minConfidence) == Kept(a, minConfidence) + Kept(b, minConfidence)
  {
    if b == [] {
      assert a + b == a;
    } else {
      var n := |b| - 1;
      assert (a + b)[..|a| + n] == a + b[..n];
      KeptAppend(a, b[..n], minConfidence);
    }
  }

  lemma KeptWithout(s: seq<Sprite>, k: nat, minConfidence: real)
    requires k < |s|
    ensures multiset(Kept(s, minConfidence))
      == multiset(Kept(RemoveAt(s, k), minConfidence)) + multiset(Kept([s[k]], minConfidence))
  {
    hide Kept;
    assert s == s[..k] + [s[k]] + s[k + 1..];
    KeptAppend(s[..k], [s[k]], minConfidence);
    KeptAppend(s[..k] + [s[k]], s[k + 1..], minConfidence);
    KeptAppend(s[..k], s[k + 1..], minConfidence);
  }

  /** Filtering commutes with rearranging. */
  lemma {:induction false} KeptReordered(a: seq<Sprite>, b: seq<Sprite>, minConfidence: real)
    requires multiset(a) == multiset(b)
    ensures multiset(Kept(a, minConfidence)) == multiset(Kept(b, minConfidence))
  {
    if a == [] {
      assert |multiset(b)| == 0 && b == [];
    } else {
      hide Kept;
      var n := |a| - 1;
      var k := FindLast(a, b);
      RemovedSame(a, b, k);
      KeptReordered(RemoveAt(a, n), RemoveAt(b, k), minConfidence);
      KeptWithout(a, n, minConfidence);
      KeptWithout(b, k, minConfidence);
    }
  }

  /** A higher confidence threshold keeps fewer predictions. */
  lemma {:induction false} KeptShrinks(sprites: seq<Sprite>, low: real, high: real)
    requires low <= high
    ensures multiset(Kept(sprites, high)) <= multiset(Kept(sprites, low))
  {
    if sprites != [] {
      KeptShrinks(sprites[..|sprites| - 1], low, high);
    }
  }

  lemma FrameCountsReordered(a: Annotation, b: Annotation, p: Option<Output>, q: Option<Output>, config: Config)
    requires SameFrame(a, b) && SameOutput(p, q)
    ensures FrameCounts(a, p, config) == FrameCounts(b, q, config)
  {
    hide Kept, IsMaximum, MaxMatching;
    var left, right := KeptOf(p, config.minConfidence), KeptOf(q, config.minConfidence);
    if p.Some? {
      KeptReordered(p.value.sprites, q.value.sprites, config.minConfidence);
    }
    MaxMatchingReordered(left, a.sprites, right, b.sprites, config.tolerance);
  }

  lemma MaxMatchingReordered(predictions: seq<Point>, targets: seq<Point>, predictions': seq<Point>,
                             targets': seq<Point>, tolerance: real)
    requires multiset(predictions) == multiset(predictions') && multiset(targets) == multiset(targets')
    ensures MaxMatching(predictions, targets, tolerance) == MaxMatching(predictions', targets', tolerance)
    ensures |predictions| == |predictions'| && |targets| == |targets'|
  {
    hide IsMaximum, MaxMatching;
    assert |multiset(predictions)| == |predictions| && |multiset(predictions')| == |predictions'|;
    assert |multiset(targets)| == |targets| && |multiset(targets')| == |targets'|;
    MaxMatchingGrows(predictions, targets, tolerance, predictions', targets', tolerance);
    MaxMatchingGrows(predictions', targets', tolerance, predictions, targets, tolerance);
  }

  lemma StatusSame(a: Annotation, b: Annotation, p: Option<Output>, q: Option<Output>)
    requires SameFrame(a, b) && SameOutput(p, q)
    ensures a.status == b.status && a.evidenceId == b.evidenceId
    ensures (p.Some? <==> q.Some?) && (p.Some? ==> p.value.evidenceId == q.value.evidenceId)
  {}

  lemma {:induction false} TotalsReordered(ids: seq<string>, a: map<string, Annotation>, b: map<string, Annotation>,
                                           p: map<string, Output>, q: map<string, Output>, config: Config)
    requires forall id :: id in ids
                          ==> id in a && id in b && SameFrame(a[id], b[id]) && SameOutput(Lookup(p, id), Lookup(q, id))
    ensures Totals(ids, a, p, config) == Totals(ids, b, q, config)
  {
    if ids != [] {
      hide FrameCounts, SameFrame, SameOutput;
      var n := |ids| - 1;
      TotalsReordered(ids[..n], a, b, p, q, config);
      StatusSame(a[ids[n]], b[ids[n]], Lookup(p, ids[n]), Lookup(q, ids[n]));
      FrameCountsReordered(a[ids[n]], b[ids[n]], Lookup(p, ids[n]), Lookup(q, ids[n]), config);
    }
  }

  /**
   * Reordering sequences, frames, targets or predicted sprites, or moving frames between sequences,
   * changes neither the counters nor the error.
   */
  lemma EvaluationReordered(d: Dataset, e: Dataset, p: map<string, Output>, q: map<string, Output>, config: Config)
    requires UniqueFrameIds(Flatten(d.sequences)) && UniqueFrameIds(Flatten(e.sequences))
    requires multiset(Map(Forget, Flatten(d.sequences))) == multiset(Map(Forget, Flatten(e.sequences)))
    requires p.Keys == q.Keys && forall id :: id in p ==> SameOutput(Some(p[id]), Some(q[id]))
    ensures Evaluation(ById(Flatten(d.sequences)), p, config) == Evaluation(ById(Flatten(e.sequences)), q, config)
  {
    var f, g := Flatten(d.sequences), Flatten(e.sequences);
    var a, b := ById(f), ById(g);
    SameFramesById(f, g);
    SameFramesById(g, f);
    assert a.Keys == b.Keys;
    TotalsReordered(SortedListing(a.Keys), a, b, p, q, config);
  }

  lemma SameFramesById(f: seq<Annotation>, g: seq<Annotation>)
    requires UniqueFrameIds(f) && UniqueFrameIds(g)
    requires multiset(Map(Forget, f)) == multiset(Map(Forget, g))
    ensures forall id :: id in ById(f) ==> id in ById(g) && SameFrame(ById(f)[id], ById(g)[id])
  {
    ByIdLists(g);
    forall id | id in ById(f) ensures id in ById(g) && SameFrame(ById(f)[id], ById(g)[id]) {
      var x := ById(f)[id];
      var i :| 0 <= i < |f| && f[i] == x;
      assert Map(Forget, f)[i] == Forget(x);
      assert Forget(x) in multiset(Map(Forget, g));
      var j :| 0 <= j < |g| && Map(Forget, g)[j] == Forget(x);
      assert g[j] in g && g[j].frameId == id;
    }
  }

  /** Predictions kept, and targets, over the usable frames. */
  ghost function UsableCounts(ids: seq<string>, annotations: map<string, Annotation>, predictions: map<string, Output>,
                              config: Config): (int, int)
    requires forall id :: id in ids ==> id in annotations
  {
    if ids == [] then (0, 0)
    else
      var n := |ids| - 1;
      var before := UsableCounts(ids[..n], annotations, predictions, config);
      if annotations[ids[n]].status != Usable then before
      else (before.0 + |KeptOf(Lookup(predictions, ids[n]), config.minConfidence)|,
          before.1 + |annotations[ids[n]].sprites|)
  }

  lemma FrameConserves(annotation: Annotation, output: Option<Output>, config: Config)
    ensures var c := FrameCounts(annotation, output, config);
      && c.truePositives + c.falsePositives == |KeptOf(output, config.minConfidence)|
      && c.truePositives + c.falseNegatives == |annotation.sprites|
      && c.evaluatedFrames == 1 && c.skippedFrames == 0
      && c.playersDetected <= c.playerTruths
  {}

  /** Every kept prediction is a true or a false positive, every target a true positive or a false negative. */
  lemma {:induction false} TotalsConserve(ids: seq<string>, annotations: map<string, Annotation>,
                                          predictions: map<string, Output>, config: Config)
    requires forall id :: id in ids ==> id in annotations
    ensures var r := Totals(ids, annotations, predictions, config);
      r.Ok? ==>
        && r.value.truePositives + r.value.falsePositives == UsableCounts(ids, annotations, predictions, config).0
        && r.value.truePositives + r.value.falseNegatives == UsableCounts(ids, annotations, predictions, config).1
        && r.value.evaluatedFrames + r.value.skippedFrames == |ids|
        && r.value.playersDetected <= r.value.playerTruths
  {
    if ids != [] {
      hide FrameCounts;
      var n := |ids| - 1;
      TotalsConserve(ids[..n], annotations, predictions, config);
      FrameConserves(annotations[ids[n]], Lookup(predictions, ids[n]), config);
    }
  }

  /** A wider tolerance and a lower threshold never lose a true positive, and raise no new error. */
  lemma {:induction false} TotalsMonotone(ids: seq<string>, annotations: map<string, Annotation>,
                                          predictions: map<string, Output>,
                                          strict: Config, lax: Config)
    requires forall id :: id in ids ==> id in annotations
    requires strict.tolerance <= lax.tolerance && lax.minConfidence <= strict.minConfidence
    ensures var r, s := Totals(ids, annotations, predictions, strict), Totals(ids, annotations, predictions, lax);
      if r.Ok? then s.Ok? && r.value.truePositives <= s.value.truePositives else r == s
  {
    if ids != [] {
      var n := |ids| - 1;
      TotalsMonotone(ids[..n], annotations, predictions, strict, lax);
      FrameGrows(annotations[ids[n]], Lookup(predictions, ids[n]), strict, lax);
    }
  }

  lemma FrameGrows(annotation: Annotation, output: Option<Output>, strict: Config, lax: Config)
    requires strict.tolerance <= lax.tolerance && lax.minConfidence <= strict.minConfidence
    ensures FrameCounts(annotation, output, strict).truePositives <= FrameCounts(annotation, output, lax).truePositives
  {
    if output.Some? {
      KeptShrinks(output.value.sprites, lax.minConfidence, strict.minConfidence);
    }
    MaxMatchingGrows(KeptOf(output, strict.minConfidence), annotation.sprites, strict.tolerance,
                     KeptOf(output, lax.minConfidence), annotation.sprites, lax.tolerance);
  }

  // ----- what the counters count -----

  predicate IsUsable(annotation: Annotation) {
    annotation.status == Usable
  }

  /** The usable frames where a player was annotated. */
  predicate HasTruth(annotation: Annotation) {
    IsUsable(annotation) && annotation.player.Some?
  }

  /** A player was predicted with enough confidence. */
  predicate PlayerPredicted(output: Option<Output>, config: Config) {
    output.Some? && output.value.player.Some? && output.value.player.value.confidence >= config.minConfidence
  }

  /** A player was predicted, with enough confidence, no further than the tolerance from the annotated one. */
  predicate Detected(annotation: Annotation, output: Option<Output>, config: Config) {
    && HasTruth(annotation) && PlayerPredicted(output, config)
    && var dx := output.value.player.value.position.0 - annotation.player.value.0;
       var dy := output.value.player.value.position.1 - annotation.player.value.1;
       config.tolerance >= 0.0 && (dx * dx + dy * dy) as real <= config.tolerance * config.tolerance
  }

  /** A player was predicted where none was annotated. */
  predicate Unexpected(annotation: Annotation, output: Option<Output>, config: Config) {
    IsUsable(annotation) && annotation.player.None? && PlayerPredicted(output, config)
  }

  type Frame = (Annotation, Option<Output>)

  /** The listed frames of which, with their predictions, something holds. */
  ghost function Frames(ids: seq<string>, annotations: map<string, Annotation>, predictions: map<string, Output>,
                        holds: Frame -> bool): set<string> {
    set id | id in ids && id in annotations && holds((annotations[id], Lookup(predictions, id)))
  }

  lemma FramesNext(ids: seq<string>, id: string, annotations: map<string, Annotation>,
                   predictions: map<string, Output>, holds: Frame -> bool)
    requires id !in ids && id in annotations
    ensures |Frames(ids + [id], annotations, predictions, holds)|
      == |Frames(ids, annotations, predictions, holds)| + One(holds((annotations[id], Lookup(predictions, id))))
  {
    var before := Frames(ids, annotations, predictions, holds);
    var after := Frames(ids + [id], annotations, predictions, holds);
    assert after == if holds((annotations[id], Lookup(predictions, id))) then before + {id} else before;
  }

  function One(holds: bool): nat { if holds then 1 else 0 }

  ghost function Usables(): Frame -> bool { (f: Frame) => IsUsable(f.0) }

  ghost function Skipped(): Frame -> bool { (f: Frame) => !IsUsable(f.0) }

  ghost function Truths(): Frame -> bool { (f: Frame) => HasTruth(f.0) }

  ghost function Detections(config: Config): Frame -> bool { (f: Frame) => Detected(f.0, f.1, config) }

  ghost function Surprises(config: Config): Frame -> bool { (f: Frame) => Unexpected(f.0, f.1, config) }

  /** The frame and player counters count, among the listed frames, those they are named after. */
  ghost predicate CountsListed(c: Counts, ids: seq<string>, annotations: map<string, Annotation>,
                               predictions: map<string, Output>, config: Config) {
    && c.evaluatedFrames == |Frames(ids, annotations, predictions, Usables())|
    && c.skippedFrames == |Frames(ids, annotations, predictions, Skipped())|
    && c.playerTruths == |Frames(ids, annotations, predictions, Truths())|
    && c.playersDetected == |Frames(ids, annotations, predictions, Detections(config))|
    && c.playerFalsePositives == |Frames(ids, annotations, predictions, Surprises(config))|
  }

  lemma CountsNext(c: Counts, d: Counts, ids: seq<string>, id: string, annotations: map<string, Annotation>,
                   predictions: map<string, Output>, config: Config)
    requires id !in ids && id in annotations && CountsListed(c, ids, annotations, predictions, config)
    requires var a, output := annotations[id], Lookup(predictions, id);
      && d.evaluatedFrames == One(IsUsable(a)) && d.skippedFrames == One(!IsUsable(a))
      && d.playerTruths == One(HasTruth(a)) && d.playersDetected == One(Detected(a, output, config))
      && d.playerFalsePositives == One(Unexpected(a, output, config))
    ensures CountsListed(c.Plus(d), ids + [id], annotations, predictions, config)
  {
    hide Frames, Lookup, IsUsable, HasTruth, Detected, Unexpected;
    FramesNext(ids, id, annotations, predictions, Usables());
    FramesNext(ids, id, annotations, predictions, Skipped());
    FramesNext(ids, id, annotations, predictions, Truths());
    FramesNext(ids, id, annotations, predictions, Detections(config));
    FramesNext(ids, id, annotations, predictions, Surprises(config));
  }

  lemma {:induction false} TotalsCount(ids: seq<string>, annotations: map<string, Annotation>,
                                       predictions: map<string, Output>, config: Config)
    requires NoDuplicates(ids) && (forall id :: id in ids ==> id in annotations)
    requires Totals(ids, annotations, predictions, config).Ok?
    ensures CountsListed(Totals(ids, annotations, predictions, config).value, ids, annotations, predictions, config)
  {
    hide *;
    if ids == [] {
      NothingCounted(annotations, predictions, config);
    } else {
      var n := |ids| - 1;
      var id, front := ids[n], ids[..n];
      FrontDistinct(ids);
      TotalsAdd(ids, annotations, predictions, config);
      TotalsCount(front, annotations, predictions, config);
      FrameCountsAre(annotations[id], Lookup(predictions, id), config);
      CountsNext(Totals(front, annotations, predictions, config).value,
                 Added(annotations[id], Lookup(predictions, id), config), front, id, annotations, predictions, config);
    }
  }

  lemma FrontDistinct(ids: seq<string>)
    requires NoDuplicates(ids) && ids != []
    ensures NoDuplicates(ids[..|ids| - 1]) && ids[|ids| - 1] !in ids[..|ids| - 1]
    ensures ids[..|ids| - 1] + [ids[|ids| - 1]] == ids
  {}

  lemma NothingCounted(annotations: map<string, Annotation>, predictions: map<string, Output>, config: Config)
    ensures Totals([], annotations, predictions, config) == Ok(NOTHING)
    ensures CountsListed(NOTHING, [], annotations, predictions, config)
  {
    hide IsUsable, HasTruth, Detected, Unexpected;
  }

  ghost function Added(annotation: Annotation, output: Option<Output>, config: Config): Counts {
    if IsUsable(annotation) then FrameCounts(annotation, output, config) else NOTHING.(skippedFrames := 1)
  }

  lemma TotalsAdd(ids: seq<string>, annotations: map<string, Annotation>, predictions: map<string, Output>,
                  config: Config)
    requires ids != [] && (forall id :: id in ids ==> id in annotations)
    requires Totals(ids, annotations, predictions, config).Ok?
    ensures var front, id := ids[..|ids| - 1], ids[|ids| - 1];
      && Totals(front, annotations, predictions, config).Ok?
      && Totals(ids, annotations, predictions, config).value
         == Totals(front, annotations, predictions, config).value.Plus(
              Added(annotations[id], Lookup(predictions, id), config))
  {
    hide FrameCounts, Lookup;
  }

  /** What one frame adds to the counters. */
  lemma FrameCountsAre(annotation: Annotation, output: Option<Output>, config: Config)
    ensures var c := Added(annotation, output, config);
      && c.evaluatedFrames == One(IsUsable(annotation)) && c.skippedFrames == One(!IsUsable(annotation))
      && c.playerTruths == One(HasTruth(annotation))
      && c.playersDetected == One(Detected(annotation, output, config))
      && c.playerFalsePositives == One(Unexpected(annotation, output, config))
  {
    hide MaxMatching, KeptOf;
  }

  /** A usable frame whose prediction is bound to other evidence. */
  predicate Mismatched(annotation: Annotation, output: Option<Output>) {
    IsUsable(annotation) && output.Some? && output.value.evidenceId != annotation.evidenceId
  }

  /** The frames are evaluated in order up to the first mismatched one, which is the error. */
  ghost predicate FailsAtFirst(r: Result<Counts, EvaluationError>, ids: seq<string>,
                               annotations: map<string, Annotation>, predictions: map<string, Output>)
    requires forall id :: id in ids ==> id in annotations
  {
    match r
    case Ok(_) => forall i :: 0 <= i < |ids| ==> !Mismatched(annotations[ids[i]], Lookup(predictions, ids[i]))
    case Err(error) =>
      exists i :: 0 <= i < |ids| && error == EvidenceMismatch(ids[i])
                  && Mismatched(annotations[ids[i]], Lookup(predictions, ids[i]))
                  && forall j :: 0 <= j < i ==> !Mismatched(annotations[ids[j]], Lookup(predictions, ids[j]))
  }

  lemma {:induction false} TotalsFailAtFirst(ids: seq<string>, annotations: map<string, Annotation>,
                                             predictions: map<string, Output>, config: Config)
    requires forall id :: id in ids ==> id in annotations
    ensures FailsAtFirst(Totals(ids, annotations, predictions, config), ids, annotations, predictions)
  {
    if ids != [] {
      hide FrameCounts, Lookup;
      TotalsFailAtFirst(ids[..|ids| - 1], annotations, predictions, config);
    }
  }

  /** Every counter is the number of frames it is named after. */
  ghost predicate CountsFrames(c: Counts, annotations: map<string, Annotation>, predictions: map<string, Output>,
                               config: Config) {
    && c.evaluatedFrames == |set id | id in annotations && IsUsable(annotations[id])|
    && c.skippedFrames == |set id | id in annotations && !IsUsable(annotations[id])|
    && c.playerTruths == |set id | id in annotations && HasTruth(annotations[id])|
    && c.playersDetected == |set id | id in annotations && Detected(annotations[id], Lookup(predictions, id), config)|
    && c.playerFalsePositives
       == |set id | id in annotations && Unexpected(annotations[id], Lookup(predictions, id), config)|
  }

  lemma ListedCounts(c: Counts, ids: seq<string>, annotations: map<string, Annotation>,
                     predictions: map<string, Output>, config: Config)
    requires CountsListed(c, ids, annotations, predictions, config) && forall id :: id in ids <==> id in annotations
    ensures CountsFrames(c, annotations, predictions, config)
  {
    hide IsUsable, HasTruth, Detected, Unexpected, Lookup;
    assert Frames(ids, annotations, predictions, Usables()) == set id | id in annotations && IsUsable(annotations[id]);
    assert Frames(ids, annotations, predictions, Skipped()) == set id | id in annotations && !IsUsable(annotations[id]);
    assert Frames(ids, annotations, predictions, Truths()) == set id | id in annotations && HasTruth(annotations[id]);
    assert Frames(ids, annotations, predictions, Detections(config))
        == set id | id in annotations && Detected(annotations[id], Lookup(predictions, id), config);
    assert Frames(ids, annotations, predictions, Surprises(config))
        == set id | id in annotations && Unexpected(annotations[id], Lookup(predictions, id), config);
  }

  /** `id` is the first mismatched frame. */
  ghost predicate FirstMismatch(id: string, annotations: map<string, Annotation>, predictions: map<string, Output>) {
    && id in annotations && Mismatched(annotations[id], Lookup(predictions, id))
    && forall other :: other in annotations && Mismatched(annotations[other], Lookup(predictions, other))
         ==> StringLe(id, other)
  }

  lemma ListedFirst(r: Result<Counts, EvaluationError>, ids: seq<string>, annotations: map<string, Annotation>,
                    predictions: map<string, Output>)
    requires Sorted(ids, StringLe) && (forall id :: id in ids <==> id in annotations)
    requires FailsAtFirst(r, ids, annotations, predictions)
    ensures r.Ok? ==> forall id :: id in annotations ==> !Mismatched(annotations[id], Lookup(predictions, id))
    ensures r.Err? ==> r.error.EvidenceMismatch? && FirstMismatch(r.error.frameId, annotations, predictions)
  {
    hide Mismatched, Lookup, StringLe;
    if r.Err? {
      var i :| 0 <= i < |ids| && r.error == EvidenceMismatch(ids[i])
        && Mismatched(annotations[ids[i]], Lookup(predictions, ids[i]))
        && forall j :: 0 <= j < i ==> !Mismatched(annotations[ids[j]], Lookup(predictions, ids[j]));
      StringOrder();
      forall other | other in annotations && Mismatched(annotations[other], Lookup(predictions, other))
        ensures StringLe(ids[i], other)
      {
        var k :| 0 <= k < |ids| && ids[k] == other;
        assert i <= k;
      }
    }
  }

  /**
   * What the evaluation reports: unknown frames before anything else, then the first mismatched frame
   * in id order; else every counter is the number of frames it is named after.
   */
  lemma EvaluationCounts(annotations: map<string, Annotation>, predictions: map<string, Output>, config: Config)
    ensures match Evaluation(annotations, predictions, config)
      case Err(UnknownFrames(ids)) => ids != [] && forall id :: id in ids <==> id in predictions && id !in annotations
      case Err(EvidenceMismatch(id)) =>
        predictions.Keys <= annotations.Keys && FirstMismatch(id, annotations, predictions)
      case Ok(c) =>
        && predictions.Keys <= annotations.Keys
        && (forall id :: id in annotations ==> !Mismatched(annotations[id], Lookup(predictions, id)))
        && CountsFrames(c, annotations, predictions, config)
  {
    hide Totals, CountsFrames, FirstMismatch, Mismatched, Lookup, FailsAtFirst, CountsListed;
    var unknown, ids := predictions.Keys - annotations.Keys, SortedListing(annotations.Keys);
    if unknown != {} {
      var id :| id in unknown;
      assert id in SortedListing(unknown);
    } else {
      assert forall id :: id in predictions.Keys ==> id !in unknown;
      SortedListingSorts(annotations.Keys);
      TotalsFailAtFirst(ids, annotations, predictions, config);
      var r := Totals(ids, annotations, predictions, config);
      ListedFirst(r, ids, annotations, predictions);
      if r.Ok? {
        TotalsCount(ids, annotations, predictions, config);
        ListedCounts(r.value, ids, annotations, predictions, config);
      }
    }
  }
}
