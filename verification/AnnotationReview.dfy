/**
 * Annotation revisions, reviews and the corpus freeze
 * (src/fh_agent/evals/spatial_annotation_review.py).
 *
 * A fingerprint is the canonical value that is hashed: SHA-256 is injective here.
 */
module AnnotationReview {
  import opened Prelude
  import opened Ordering
  import opened SpatialDataset
  import opened Corpus

  datatype ReviewStatus = Passed | NeedsRevision

  datatype Review = Review(frameId: string, fingerprint: Annotation, status: ReviewStatus)

  /** The sequence-level split assignment with the hashes of the selected frames. */
  type SplitFingerprint = seq<(string, Split, seq<(string, string)>)>

  datatype FreezeRecord = FreezeRecord(
    corpusId: string, corpusVersion: string, schemaVersion: string, corpusFingerprint: Payload,
        splitFingerprint: SplitFingerprint)

  datatype Workflow = Workflow(manifest: Manifest, reviews: seq<Review>, freezeRecord: Option<FreezeRecord>)

  /** The result of checking the frame files against a manifest. */
  datatype Integrity = Integrity(corpusId: string, manifestFingerprint: Payload, valid: bool)

  datatype BlockedReason = IntegrityNotPassed | UsableWithoutPassedReview | ObsoleteReview
      | SplitNotReviewed(split: Split) | AlreadyFrozen

  datatype WorkflowError = Frozen | UnknownFrame | EvidenceMismatch | NeedsOverwrite
      | NotReady(reasons: seq<BlockedReason>)

  // ----- revisions -----

  function Replace(annotation: Annotation): Annotation -> Annotation {
    (item: Annotation) => if item.frameId == annotation.frameId then annotation else item
  }

  function ReplaceIn(annotation: Annotation): AnnotationSequence -> AnnotationSequence {
    (s: AnnotationSequence) => s.(frames := Map(Replace(annotation), s.frames))
  }

  function Revised(m: Manifest, annotation: Annotation): Manifest {
    m.(annotations := m.annotations.(sequences := Map(ReplaceIn(annotation), m.annotations.sequences)))
  }

  /** `record_spatial_annotation`; `model_copy` does not run the manifest's own validators again. */
  function Record(w: Workflow, annotation: Annotation, overwrite: bool): Result<Workflow, WorkflowError> {
    var annotations := AnnotationsById(w.manifest);
    if w.freezeRecord.Some? then Err(Frozen)
    else if annotation.frameId !in annotations then Err(UnknownFrame)
    else if annotation.evidenceId != annotations[annotation.frameId].evidenceId then Err(EvidenceMismatch)
    else if !overwrite then Err(NeedsOverwrite)
    else Ok(Workflow(Revised(w.manifest, annotation), w.reviews, None))
  }

  /** `create_annotation_review`, which is also allowed after a freeze. */
  function AddReview(w: Workflow, frameId: string, status: ReviewStatus): Result<Workflow, WorkflowError> {
    var annotations := AnnotationsById(w.manifest);
    if frameId !in annotations then Err(UnknownFrame)
    else Ok(w.(reviews := w.reviews + [Review(frameId, CanonicalAnnotation(annotations[frameId]), status)]))
  }

  // ----- readiness -----

  /** `review_is_current`. */
  predicate IsCurrent(review: Review, annotations: Annotations) {
    review.frameId in annotations && review.fingerprint == CanonicalAnnotation(annotations[review.frameId])
  }

  function PassedIds(reviews: seq<Review>, annotations: Annotations): set<string> {
    set r | r in reviews && IsCurrent(r, annotations) && r.status == Passed :: r.frameId
  }

  function UsableIds(annotations: Annotations): set<string> {
    set id | id in annotations && annotations[id].status == Usable
  }

  function ObsoleteReviews(reviews: seq<Review>, annotations: Annotations): set<Review> {
    set r | r in reviews && !IsCurrent(r, annotations)
  }

  function IdsInSplit(sequences: seq<CorpusSequence>, split: Split): set<string> {
    set s, f | s in sequences && f in s.frames && s.split == split :: f.frameId
  }

  predicate IntegrityPassed(integrity: Integrity, m: Manifest) {
    integrity.corpusId == m.corpusId && integrity.manifestFingerprint == CanonicalPayload(m) && integrity.valid
  }

  /** Frames of the split whose annotation is usable and passed review. */
  function ReviewedIds(w: Workflow, split: Split): set<string> {
    var annotations := AnnotationsById(w.manifest);
    UsableIds(annotations) * PassedIds(w.reviews, annotations) * IdsInSplit(w.manifest.sequences, split)
  }

  function Unless(condition: bool, reason: BlockedReason): seq<BlockedReason> {
    if condition then [] else [reason]
  }

  /** The gates of `assess_spatial_corpus_readiness`, in its order. */
  function BlockedReasons(w: Workflow, integrity: Integrity): seq<BlockedReason> {
    var annotations := AnnotationsById(w.manifest);
    Unless(IntegrityPassed(integrity, w.manifest), IntegrityNotPassed)
    + Unless(UsableIds(annotations) - PassedIds(w.reviews, annotations) == {}, UsableWithoutPassedReview)
    + Unless(ObsoleteReviews(w.reviews, annotations) == {}, ObsoleteReview)
    + Unless(ReviewedIds(w, Train) != {}, SplitNotReviewed(Train))
    + Unless(ReviewedIds(w, Validation) != {}, SplitNotReviewed(Validation))
    + Unless(ReviewedIds(w, Test) != {}, SplitNotReviewed(Test))
    + Unless(w.freezeRecord.None?, AlreadyFrozen)
  }

  function FrameHash(f: CorpusFrame): (string, string) { (f.frameId, f.sha256) }

  function SplitEntry(s: CorpusSequence): (string, Split, seq<(string, string)>) {
    (s.sequenceId, s.split, Map(FrameHash, OrderedFrames(s)))
  }

  function SplitFingerprintOf(m: Manifest): SplitFingerprint {
    Map(SplitEntry, OrderedSequences(m))
  }

  function FreezeRecordOf(m: Manifest): FreezeRecord {
    FreezeRecord(m.corpusId, m.corpusVersion, m.schemaVersion, CanonicalPayload(m), SplitFingerprintOf(m))
  }

  /** `freeze_spatial_corpus`. */
  function Freeze(w: Workflow, integrity: Integrity): Result<Workflow, WorkflowError> {
    var reasons := BlockedReasons(w, integrity);
    if reasons != [] then Err(NotReady(reasons)) else Ok(w.(freezeRecord := Some(FreezeRecordOf(w.manifest))))
  }

  // ----- what readiness means -----

  /** Some review of this exact content passed. */
  ghost predicate PassedReview(reviews: seq<Review>, a: Annotation) {
    exists r :: r in reviews && r.status == Passed && r.frameId == a.frameId && r.fingerprint == CanonicalAnnotation(a)
  }

  /** The split holds a frame whose annotation is usable and passed review. */
  ghost predicate SplitReviewed(w: Workflow, split: Split) {
    exists s, f, a :: InSequence(w.manifest.sequences, s, f) && s.split == split
      && a in Flatten(w.manifest.annotations.sequences) && a.frameId == f.frameId && a.status == Usable
        && PassedReview(w.reviews, a)
  }

  /** Every usable annotation passed review in its current content, in all three splits. */
  ghost predicate FullyReviewed(w: Workflow) {
    && (forall a :: a in Flatten(w.manifest.annotations.sequences) && a.status == Usable ==> PassedReview(w.reviews, a))
    && SplitReviewed(w, Train) && SplitReviewed(w, Validation) && SplitReviewed(w, Test)
  }

  /** Every review still describes the annotation it was written for. */
  ghost predicate NoStaleReview(w: Workflow) {
    forall r :: r in w.reviews ==>
      exists a :: a in Flatten(w.manifest.annotations.sequences) && a.frameId == r.frameId
          && r.fingerprint == CanonicalAnnotation(a)
  }

  lemma UsableAndPassed(w: Workflow, id: string)
    requires UniqueFrameIds(Flatten(w.manifest.annotations.sequences))
    ensures var annotations := AnnotationsById(w.manifest);
      id in UsableIds(annotations) * PassedIds(w.reviews, annotations) <==>
      exists a :: a in Flatten(w.manifest.annotations.sequences) && a.frameId == id && a.status == Usable
          && PassedReview(w.reviews, a)
  {
    var annotations := AnnotationsById(w.manifest);
    ByIdLists(Flatten(w.manifest.annotations.sequences));
    if id in UsableIds(annotations) * PassedIds(w.reviews, annotations) {
      var r :| r in w.reviews && IsCurrent(r, annotations) && r.status == Passed && r.frameId == id;
      assert PassedReview(w.reviews, annotations[id]);
    }
  }

  lemma SplitGate(w: Workflow, split: Split)
    requires UniqueFrameIds(Flatten(w.manifest.annotations.sequences))
    ensures ReviewedIds(w, split) != {} <==> SplitReviewed(w, split)
  {
    var annotations := AnnotationsById(w.manifest);
    var both := UsableIds(annotations) * PassedIds(w.reviews, annotations);
    hide UsableIds, PassedIds, AnnotationsById, PassedReview;
    if id :| id in both * IdsInSplit(w.manifest.sequences, split) {
      UsableAndPassed(w, id);
      var s, f :| s in w.manifest.sequences && f in s.frames && s.split == split && f.frameId == id;
      assert InSequence(w.manifest.sequences, s, f);
    }
    if SplitReviewed(w, split) {
      var s, f, a :| InSequence(w.manifest.sequences, s, f) && s.split == split
        && a in Flatten(w.manifest.annotations.sequences) && a.frameId == f.frameId && a.status == Usable
          && PassedReview(w.reviews, a);
      UsableAndPassed(w, f.frameId);
      assert f.frameId in both * IdsInSplit(w.manifest.sequences, split);
    }
  }

  lemma UsableGate(w: Workflow)
    requires UniqueFrameIds(Flatten(w.manifest.annotations.sequences))
    ensures var annotations := AnnotationsById(w.manifest);
      UsableIds(annotations) - PassedIds(w.reviews, annotations) == {} <==>
      forall a :: a in Flatten(w.manifest.annotations.sequences) && a.status == Usable ==> PassedReview(w.reviews, a)
  {
    var annotations, all := AnnotationsById(w.manifest), Flatten(w.manifest.annotations.sequences);
    ByIdLists(all);
    if UsableIds(annotations) - PassedIds(w.reviews, annotations) == {} {
      forall a | a in all && a.status == Usable ensures PassedReview(w.reviews, a) {
        assert annotations[a.frameId] == a && a.frameId in UsableIds(annotations);
        assert a.frameId !in UsableIds(annotations) - PassedIds(w.reviews, annotations);
        UsableAndPassed(w, a.frameId);
        var b :| b in all && b.frameId == a.frameId && PassedReview(w.reviews, b);
        assert annotations[a.frameId] == a == b;
      }
    } else {
      var id :| id in UsableIds(annotations) - PassedIds(w.reviews, annotations);
      UsableAndPassed(w, id);
      assert annotations[id] in all && !PassedReview(w.reviews, annotations[id]);
    }
  }

  lemma StaleGate(w: Workflow)
    requires UniqueFrameIds(Flatten(w.manifest.annotations.sequences))
    ensures ObsoleteReviews(w.reviews, AnnotationsById(w.manifest)) == {} <==> NoStaleReview(w)
  {
    var annotations, all := AnnotationsById(w.manifest), Flatten(w.manifest.annotations.sequences);
    ByIdLists(all);
    forall r | r in w.reviews
      ensures IsCurrent(r, annotations)
        <==> exists a :: a in all && a.frameId == r.frameId && r.fingerprint == CanonicalAnnotation(a)
    {
      if IsCurrent(r, annotations) { assert annotations[r.frameId] in all; }
    }
    if !NoStaleReview(w) {
      var r :| r in w.reviews && !IsCurrent(r, annotations);
      assert r in ObsoleteReviews(w.reviews, annotations);
    }
  }

  /** A freeze succeeds exactly on an unfrozen, intact, fully reviewed corpus without obsolete reviews. */
  lemma FreezeExactly(w: Workflow, integrity: Integrity)
    requires ValidManifest(w.manifest)
    ensures Freeze(w, integrity).Ok? <==>
      && w.freezeRecord.None? && FullyReviewed(w) && NoStaleReview(w)
      && integrity.valid && integrity.corpusId == w.manifest.corpusId
      && integrity.manifestFingerprint == CanonicalPayload(w.manifest)
    ensures Freeze(w, integrity).Ok? ==>
      && Freeze(w, integrity).value.manifest == w.manifest && Freeze(w, integrity).value.reviews == w.reviews
      && Freeze(w, integrity).value.freezeRecord.Some?
      && Matches(Freeze(w, integrity).value.freezeRecord.value, w.manifest)
  {
    hide *;
    FreezeDoes(w, integrity);
    ValidUniqueIds(w.manifest);
    UsableGate(w);
    StaleGate(w);
    SplitGate(w, Train);
    SplitGate(w, Validation);
    SplitGate(w, Test);
    ReadyExactly(w, integrity);
    FullyReviewedIs(w);
  }

  /** A freeze record describes a manifest. */
  predicate Matches(record: FreezeRecord, m: Manifest) {
    && record.corpusId == m.corpusId && record.corpusVersion == m.corpusVersion
    && record.schemaVersion == m.schemaVersion
    && record.corpusFingerprint == CanonicalPayload(m) && record.splitFingerprint == SplitFingerprintOf(m)
  }

  lemma FreezeDoes(w: Workflow, integrity: Integrity)
    ensures Freeze(w, integrity).Ok? ==>
      && Freeze(w, integrity).value.manifest == w.manifest && Freeze(w, integrity).value.reviews == w.reviews
      && Freeze(w, integrity).value.freezeRecord.Some?
      && Matches(Freeze(w, integrity).value.freezeRecord.value, w.manifest)
    ensures IntegrityPassed(integrity, w.manifest) <==>
      && integrity.valid && integrity.corpusId == w.manifest.corpusId
      && integrity.manifestFingerprint == CanonicalPayload(w.manifest)
  {
    hide BlockedReasons, CanonicalPayload, SplitFingerprintOf;
  }

  /** A refused freeze gives every reason that applies, and no other. */
  lemma ReasonsExactly(w: Workflow, integrity: Integrity, reason: BlockedReason)
    requires ValidManifest(w.manifest)
    ensures reason in BlockedReasons(w, integrity) <==>
      match reason
      case IntegrityNotPassed =>
        !(integrity.valid && integrity.corpusId == w.manifest.corpusId
          && integrity.manifestFingerprint == CanonicalPayload(w.manifest))
      case UsableWithoutPassedReview =>
        exists a :: a in Flatten(w.manifest.annotations.sequences) && a.status == Usable && !PassedReview(w.reviews, a)
      case ObsoleteReview => !NoStaleReview(w)
      case SplitNotReviewed(split) => !SplitReviewed(w, split)
      case AlreadyFrozen => w.freezeRecord.Some?
  {
    hide *;
    ValidUniqueIds(w.manifest);
    FreezeDoes(w, integrity);
    UsableGate(w);
    StaleGate(w);
    SplitGate(w, Train);
    SplitGate(w, Validation);
    SplitGate(w, Test);
    ReasonListed(w, integrity, reason);
    if reason.SplitNotReviewed? { SplitGate(w, reason.split); }
  }

  lemma ReasonListed(w: Workflow, integrity: Integrity, reason: BlockedReason)
    ensures var annotations := AnnotationsById(w.manifest);
      reason in BlockedReasons(w, integrity) <==>
      match reason
      case IntegrityNotPassed => !IntegrityPassed(integrity, w.manifest)
      case UsableWithoutPassedReview => UsableIds(annotations) - PassedIds(w.reviews, annotations) != {}
      case ObsoleteReview => ObsoleteReviews(w.reviews, annotations) != {}
      case SplitNotReviewed(split) => ReviewedIds(w, split) == {}
      case AlreadyFrozen => w.freezeRecord.Some?
  {
    var annotations := AnnotationsById(w.manifest);
    var gates := [
      Unless(IntegrityPassed(integrity, w.manifest), IntegrityNotPassed),
      Unless(UsableIds(annotations) - PassedIds(w.reviews, annotations) == {}, UsableWithoutPassedReview),
      Unless(ObsoleteReviews(w.reviews, annotations) == {}, ObsoleteReview),
      Unless(ReviewedIds(w, Train) != {}, SplitNotReviewed(Train)),
      Unless(ReviewedIds(w, Validation) != {}, SplitNotReviewed(Validation)),
      Unless(ReviewedIds(w, Test) != {}, SplitNotReviewed(Test)),
      Unless(w.freezeRecord.None?, AlreadyFrozen)];
    hide UsableIds, PassedIds, ObsoleteReviews, ReviewedIds, AnnotationsById, IntegrityPassed;
    assert BlockedReasons(w, integrity)
        == gates[0] + gates[1] + gates[2] + gates[3] + gates[4] + gates[5] + gates[6];
    InSeven(gates, reason);
    hide BlockedReasons;
    if reason.SplitNotReviewed? {
      match reason.split {
        case Train => assert reason == SplitNotReviewed(Train);
        case Validation => assert reason == SplitNotReviewed(Validation);
        case Test => assert reason == SplitNotReviewed(Test);
      }
    }
  }

  lemma InSeven(gates: seq<seq<BlockedReason>>, reason: BlockedReason)
    requires |gates| == 7
    ensures reason in gates[0] + gates[1] + gates[2] + gates[3] + gates[4] + gates[5] + gates[6]
      <==> || reason in gates[0] || reason in gates[1] || reason in gates[2] || reason in gates[3]
           || reason in gates[4] || reason in gates[5] || reason in gates[6]
  {}

  lemma ValidUniqueIds(m: Manifest)
    requires ValidManifest(m)
    ensures UniqueFrameIds(Flatten(m.annotations.sequences))
  {}

  lemma FullyReviewedIs(w: Workflow)
    ensures FullyReviewed(w) <==>
      && (forall a :: a in Flatten(w.manifest.annotations.sequences) && a.status == Usable
                      ==> PassedReview(w.reviews, a))
      && SplitReviewed(w, Train) && SplitReviewed(w, Validation) && SplitReviewed(w, Test)
  {}

  lemma ReadyExactly(w: Workflow, integrity: Integrity)
    ensures var annotations := AnnotationsById(w.manifest);
      Freeze(w, integrity).Ok? <==>
      && IntegrityPassed(integrity, w.manifest)
      && UsableIds(annotations) - PassedIds(w.reviews, annotations) == {}
      && ObsoleteReviews(w.reviews, annotations) == {}
      && ReviewedIds(w, Train) != {} && ReviewedIds(w, Validation) != {} && ReviewedIds(w, Test) != {}
      && w.freezeRecord.None?
  {
    hide UsableIds, PassedIds, ObsoleteReviews, ReviewedIds, AnnotationsById, IntegrityPassed, FreezeRecordOf;
  }

  // ----- runs -----

  datatype Step = RecordStep(annotation: Annotation, overwrite: bool)
      | ReviewStep(frameId: string, status: ReviewStatus) | FreezeStep(integrity: Integrity)

  function Attempt(w: Workflow, step: Step): Result<Workflow, WorkflowError> {
    match step
    case RecordStep(annotation, overwrite) => Record(w, annotation, overwrite)
    case ReviewStep(frameId, status) => AddReview(w, frameId, status)
    case FreezeStep(integrity) => Freeze(w, integrity)
  }

  /** A step that raises leaves the immutable workflow as it was. */
  function Apply(w: Workflow, step: Step): Workflow {
    var r := Attempt(w, step);
    if r.Ok? then r.value else w
  }

  function Run(w: Workflow, steps: seq<Step>): Workflow
    decreases |steps|
  {
    if steps == [] then w else Run(Apply(w, steps[0]), steps[1..])
  }

  function FreezeCount(w: Workflow, steps: seq<Step>): nat
    decreases |steps|
  {
    if steps == [] then 0
    else
      var first := if steps[0].FreezeStep? && Attempt(w, steps[0]).Ok? then 1 else 0;
      first + FreezeCount(Apply(w, steps[0]), steps[1..])
  }

  lemma {:induction false} ReplacedFlatten(sequences: seq<AnnotationSequence>, annotation: Annotation)
    ensures Flatten(Map(ReplaceIn(annotation), sequences)) == Map(Replace(annotation), Flatten(sequences))
  {
    if sequences != [] {
      ReplacedFlatten(sequences[1..], annotation);
      MapAppend(Replace(annotation), sequences[0].frames, Flatten(sequences[1..]));
      assert Map(ReplaceIn(annotation), sequences)[1..] == Map(ReplaceIn(annotation), sequences[1..]);
    }
  }

  /** Although unchecked, a revision keeps every check of the manifest. */
  lemma RevisionValid(m: Manifest, annotation: Annotation)
    requires ValidManifest(m) && annotation.frameId in AnnotationsById(m)
    requires annotation.evidenceId == AnnotationsById(m)[annotation.frameId].evidenceId
    ensures ValidManifest(Revised(m, annotation))
  {
    RevisionReferences(m, annotation);
    ValidParts(m);
    RevisionIds(m, annotation);
    RevisionKeepsRest(m, annotation);
    hide *;
    ValidFrom(m, Revised(m, annotation));
  }

  lemma RevisionKeepsRest(m: Manifest, annotation: Annotation)
    ensures Revised(m, annotation).sequences == m.sequences
  {
    hide ReplaceIn, Map;
  }

  /** The checks that look at annotations only through their sequence ids, their frame ids and their references. */
  lemma ValidFrom(m: Manifest, n: Manifest)
    requires ValidManifest(m) && n.sequences == m.sequences && ReferencesMatch(n)
      && UniqueFrameIds(Flatten(n.annotations.sequences))
    requires Map(AnnotationSequenceId, n.annotations.sequences) == Map(AnnotationSequenceId, m.annotations.sequences)
    ensures ValidManifest(n)
  {
    hide ReferencesMatch, NoLeakage, ValidSequence, UniqueFrameIds, NoDuplicates, Flatten, AllFrames, Map;
  }

  lemma RevisionIds(m: Manifest, annotation: Annotation)
    requires UniqueFrameIds(Flatten(m.annotations.sequences))
    ensures UniqueFrameIds(Flatten(Revised(m, annotation).annotations.sequences))
    ensures Map(AnnotationSequenceId, Revised(m, annotation).annotations.sequences)
      == Map(AnnotationSequenceId, m.annotations.sequences)
  {
    ReplacedFlatten(m.annotations.sequences, annotation);
    ReplacedUnique(Flatten(m.annotations.sequences), annotation);
  }

  lemma RevisionReferences(m: Manifest, annotation: Annotation)
    requires ValidManifest(m) && annotation.frameId in AnnotationsById(m)
    requires annotation.evidenceId == AnnotationsById(m)[annotation.frameId].evidenceId
    ensures ReferencesMatch(Revised(m, annotation))
  {
    ValidParts(m);
    hide *;
    RevisionAnnotated(m, annotation);
    RevisionPlaced(m, annotation);
    ReferencesAre(Revised(m, annotation));
  }

  lemma ReferencesAre(m: Manifest)
    ensures ReferencesMatch(m) <==> FramesAnnotated(m) && AnnotationsPlaced(m)
  {}

  lemma ValidParts(m: Manifest)
    requires ValidManifest(m)
    ensures FramesAnnotated(m) && AnnotationsPlaced(m) && UniqueFrameIds(Flatten(m.annotations.sequences))
  {}

  lemma RevisionAnnotated(m: Manifest, annotation: Annotation)
    requires FramesAnnotated(m) && UniqueFrameIds(Flatten(m.annotations.sequences))
      && annotation.frameId in AnnotationsById(m)
    requires annotation.evidenceId == AnnotationsById(m)[annotation.frameId].evidenceId
    ensures FramesAnnotated(Revised(m, annotation))
  {
    hide Annotated, UniqueFrameIds, Replace, ReplaceIn, Flatten, AllFrames, AnnotationsById;
    var n := Revised(m, annotation);
    forall f | f in AllFrames(m.sequences)
      ensures exists a :: Annotated(n.annotations.sequences, f.sequenceId, a) && Describes(a, f)
    {
      var a :| Annotated(m.annotations.sequences, f.sequenceId, a) && Describes(a, f);
      RevisedAnnotated(m, annotation, f.sequenceId, a);
    }
  }

  lemma RevisionPlaced(m: Manifest, annotation: Annotation)
    requires AnnotationsPlaced(m)
    ensures AnnotationsPlaced(Revised(m, annotation))
  {
    hide Replace, ReplaceIn, Flatten, AllFrames;
    var all, n := m.annotations.sequences, Revised(m, annotation);
    ReplacedFlatten(all, annotation);
    forall b | b in Flatten(n.annotations.sequences)
      ensures exists f :: f in AllFrames(m.sequences) && f.frameId == b.frameId
    {
      var a := ReplacedFrom(Flatten(all), annotation, b);
    }
  }

  lemma RevisedAnnotated(m: Manifest, annotation: Annotation, sequenceId: string, a: Annotation)
    requires UniqueFrameIds(Flatten(m.annotations.sequences)) && annotation.frameId in AnnotationsById(m)
    requires annotation.evidenceId == AnnotationsById(m)[annotation.frameId].evidenceId
    requires Annotated(m.annotations.sequences, sequenceId, a)
    ensures var b := Replace(annotation)(a);
      Annotated(Revised(m, annotation).annotations.sequences, sequenceId, b) && b.frameId == a.frameId
          && b.evidenceId == a.evidenceId
  {
    var all := m.annotations.sequences;
    var s :| s in all && s.sequenceId == sequenceId && a in s.frames;
    FlattenMembers(all, a);
    ByIdLists(Flatten(all));
    MapMembers(ReplaceIn(annotation), all);
    MapMembers(Replace(annotation), s.frames);
    assert ReplaceIn(annotation)(s) in Revised(m, annotation).annotations.sequences;
  }

  lemma ReplacedFrom(listed: seq<Annotation>, annotation: Annotation, b: Annotation) returns (a: Annotation)
    requires b in Map(Replace(annotation), listed)
    ensures a in listed && b == Replace(annotation)(a) && a.frameId == b.frameId
  {
    var i :| 0 <= i < |listed| && Map(Replace(annotation), listed)[i] == b;
    a := listed[i];
  }

  /** A revision changes the annotation of its own frame and of no other. */
  lemma RevisionChangesOne(m: Manifest, annotation: Annotation)
    requires ValidManifest(m) && annotation.frameId in AnnotationsById(m)
    ensures AnnotationsById(Revised(m, annotation)) == AnnotationsById(m)[annotation.frameId := annotation]
    ensures var n := Revised(m, annotation);
      && n.sequences == m.sequences && n.corpusId == m.corpusId && n.corpusVersion == m.corpusVersion
      && n.schemaVersion == m.schemaVersion && n.annotations.version == m.annotations.version
  {
    hide ValidManifest;
    ReplacedFlatten(m.annotations.sequences, annotation);
    ValidUniqueIds(m);
    ReplacedById(Flatten(m.annotations.sequences), annotation);
  }

  lemma ReplacedById(listed: seq<Annotation>, annotation: Annotation)
    requires UniqueFrameIds(listed) && annotation.frameId in ById(listed)
    ensures ById(Map(Replace(annotation), listed)) == ById(listed)[annotation.frameId := annotation]
  {
    hide UniqueFrameIds, ById, Map;
    var before, after := ById(listed), ById(Map(Replace(annotation), listed));
    forall id ensures (id in after <==> id in before)
        && (id in before ==> after[id] == Replace(annotation)(before[id])) {
      ReplacedLookup(listed, annotation, id);
    }
  }

  lemma ReplacedLookup(listed: seq<Annotation>, annotation: Annotation, id: string)
    requires UniqueFrameIds(listed)
    ensures var before, after := ById(listed), ById(Map(Replace(annotation), listed));
      (id in after <==> id in before) && (id in before ==> after[id] == Replace(annotation)(before[id]))
  {
    var revised := Map(Replace(annotation), listed);
    ReplacedUnique(listed, annotation);
    ByIdLists(listed);
    ByIdLists(revised);
    hide UniqueFrameIds, ById, Map;
    MapMembers(Replace(annotation), listed);
    if id in ById(listed) {
      assert Replace(annotation)(ById(listed)[id]) in revised;
    } else if id in ById(revised) {
      var a := ReplacedFrom(listed, annotation, ById(revised)[id]);
    }
  }

  lemma ReplacedUnique(listed: seq<Annotation>, annotation: Annotation)
    requires UniqueFrameIds(listed)
    ensures UniqueFrameIds(Map(Replace(annotation), listed))
  {}

  /** What holds forever: the manifest passes its checks, and a freeze record matches it and rests on passed reviews. */
  ghost predicate Consistent(w: Workflow) {
    && ValidManifest(w.manifest)
    && (w.freezeRecord.Some? ==> Matches(w.freezeRecord.value, w.manifest) && FullyReviewed(w))
  }

  lemma MoreReviews(w: Workflow, review: Review)
    requires FullyReviewed(w)
    ensures FullyReviewed(w.(reviews := w.reviews + [review]))
  {
    var w' := w.(reviews := w.reviews + [review]);
    forall a | PassedReview(w.reviews, a) ensures PassedReview(w'.reviews, a) {
      var r :| r in w.reviews && r.status == Passed && r.frameId == a.frameId
          && r.fingerprint == CanonicalAnnotation(a);
      assert r in w'.reviews;
    }
    forall split | SplitReviewed(w, split) ensures SplitReviewed(w', split) {
      hide PassedReview;
      var s, f, a :| InSequence(w.manifest.sequences, s, f) && s.split == split
        && a in Flatten(w.manifest.annotations.sequences) && a.frameId == f.frameId && a.status == Usable
          && PassedReview(w.reviews, a);
      assert PassedReview(w'.reviews, a);
    }
  }

  /** One step keeps the workflow consistent, and leaves a frozen manifest and its record alone. */
  lemma StepConsistent(w: Workflow, step: Step)
    requires Consistent(w)
    ensures Consistent(Apply(w, step))
    ensures w.freezeRecord.Some? ==> Apply(w, step).manifest == w.manifest
                                     && Apply(w, step).freezeRecord == w.freezeRecord
    ensures w.freezeRecord.Some? && step.FreezeStep? ==> Attempt(w, step).Err?
  {
    hide ValidManifest, FullyReviewed, FreezeRecordOf, BlockedReasons, Matches, NoStaleReview, Freeze;
    match step
    case RecordStep(annotation, overwrite) =>
      if Record(w, annotation, overwrite).Ok? { RevisionValid(w.manifest, annotation); }
    case ReviewStep(frameId, status) =>
      if w.freezeRecord.Some? && AddReview(w, frameId, status).Ok? {
        MoreReviews(w, Apply(w, step).reviews[|w.reviews|]);
      }
    case FreezeStep(integrity) =>
      FreezeExactly(w, integrity);
      if Freeze(w, integrity).Ok? { FreezeKeepsReviews(w, Freeze(w, integrity).value.freezeRecord.value); }
  }

  lemma FreezeKeepsReviews(w: Workflow, record: FreezeRecord)
    requires FullyReviewed(w)
    ensures FullyReviewed(w.(freezeRecord := Some(record)))
  {}

  /**
   * Over every run: the manifest stays valid; there is at most one freeze, none once frozen;
   * from then on the manifest and the record do not change and both fingerprints match.
   */
  lemma {:induction false} RunConsistent(w: Workflow, steps: seq<Step>)
    requires Consistent(w)
    ensures Consistent(Run(w, steps))
    ensures w.freezeRecord.Some? ==>
      && Run(w, steps).manifest == w.manifest && Run(w, steps).freezeRecord == w.freezeRecord
        && FreezeCount(w, steps) == 0
    ensures FreezeCount(w, steps) <= 1
    ensures w.freezeRecord.None? ==> (FreezeCount(w, steps) == 1 <==> Run(w, steps).freezeRecord.Some?)
    decreases |steps|
  {
    if steps != [] {
      RunUnfolds(w, steps);
      StepConsistent(w, steps[0]);
      FreezeMarks(w, steps[0]);
      hide *;
      RunConsistent(Apply(w, steps[0]), steps[1..]);
    }
  }

  lemma FrozenStep(w: Workflow, step: Step)
    requires w.freezeRecord.Some?
    ensures Apply(w, step).manifest == w.manifest && Apply(w, step).freezeRecord == w.freezeRecord
    ensures step.FreezeStep? ==> Attempt(w, step).Err?
  {
    hide BlockedReasons, FreezeRecordOf, AnnotationsById;
    if step.FreezeStep? { FrozenIsBlocked(w, step.integrity); }
  }

  lemma FrozenIsBlocked(w: Workflow, integrity: Integrity)
    requires w.freezeRecord.Some?
    ensures Freeze(w, integrity).Err?
  {
    hide UsableIds, PassedIds, ObsoleteReviews, ReviewedIds, AnnotationsById, IntegrityPassed, FreezeRecordOf;
  }

  /**
   * Whatever the workflow says about its manifest, even one loaded with a record that does not match it:
   * once there is a freeze record, no run changes the manifest or the record or freezes again.
   */
  lemma {:induction false} FrozenForever(w: Workflow, steps: seq<Step>)
    requires w.freezeRecord.Some?
    ensures Run(w, steps).manifest == w.manifest && Run(w, steps).freezeRecord == w.freezeRecord
      && FreezeCount(w, steps) == 0
    decreases |steps|
  {
    if steps != [] {
      RunUnfolds(w, steps);
      FrozenStep(w, steps[0]);
      hide *;
      FrozenForever(Apply(w, steps[0]), steps[1..]);
    }
  }

  /** At most one freeze is accepted in any run of any workflow. */
  lemma {:induction false} AtMostOneFreeze(w: Workflow, steps: seq<Step>)
    ensures FreezeCount(w, steps) <= 1
    decreases |steps|
  {
    if steps != [] {
      RunUnfolds(w, steps);
      FreezeMarks(w, steps[0]);
      var next := Apply(w, steps[0]);
      if w.freezeRecord.Some? { FrozenForever(w, steps); }
      else if next.freezeRecord.Some? { FrozenForever(next, steps[1..]); }
      else { AtMostOneFreeze(next, steps[1..]); }
      hide *;
    }
  }

  lemma RunUnfolds(w: Workflow, steps: seq<Step>)
    requires steps != []
    ensures Run(w, steps) == Run(Apply(w, steps[0]), steps[1..])
    ensures FreezeCount(w, steps) ==
      (if steps[0].FreezeStep? && Attempt(w, steps[0]).Ok? then 1 else 0) + FreezeCount(Apply(w, steps[0]), steps[1..])
  {}

  lemma FreezeMarks(w: Workflow, step: Step)
    ensures w.freezeRecord.None? ==> (Apply(w, step).freezeRecord.Some? <==> step.FreezeStep? && Attempt(w, step).Ok?)
  {}

  // ----- what each step does -----

  /** A revision is recorded exactly for an annotated frame, on its own evidence, on request, before a freeze. */
  lemma RecordExactly(w: Workflow, annotation: Annotation, overwrite: bool)
    ensures var r, annotations := Record(w, annotation, overwrite), AnnotationsById(w.manifest);
      && (r.Ok? <==>
            && w.freezeRecord.None? && overwrite && annotation.frameId in annotations
            && annotation.evidenceId == annotations[annotation.frameId].evidenceId)
      && (r.Ok? ==>
            r.value.manifest == Revised(w.manifest, annotation) && r.value.reviews == w.reviews
            && r.value.freezeRecord.None?)
      && (r == Err(Frozen) <==> w.freezeRecord.Some?)
      && (r == Err(UnknownFrame) <==> w.freezeRecord.None? && annotation.frameId !in annotations)
      && (r == Err(EvidenceMismatch) <==>
            && w.freezeRecord.None? && annotation.frameId in annotations
            && annotation.evidenceId != annotations[annotation.frameId].evidenceId)
  {
    hide AnnotationsById, Revised;
  }

  /** A review is one more record, of the annotation as it is now and with the status given; nothing else changes. */
  lemma ReviewRecorded(w: Workflow, frameId: string, status: ReviewStatus)
    ensures var r, annotations := AddReview(w, frameId, status), AnnotationsById(w.manifest);
      if frameId !in annotations then r == Err(UnknownFrame)
      else
        && r.Ok? && r.value.manifest == w.manifest && r.value.freezeRecord == w.freezeRecord
        && |r.value.reviews| == |w.reviews| + 1 && r.value.reviews[..|w.reviews|] == w.reviews
        && var review := r.value.reviews[|w.reviews|];
           && review.frameId == frameId && review.status == status
           && Forget(review.fingerprint) == Forget(annotations[frameId])
  {
    hide AnnotationsById;
    if frameId in AnnotationsById(w.manifest) { CanonicalKeepsContent(AnnotationsById(w.manifest)[frameId]); }
  }

  /** Only a review with the passed status passes an annotation, and only the one it was written for. */
  lemma ReviewPasses(w: Workflow, frameId: string, status: ReviewStatus, a: Annotation)
    requires AddReview(w, frameId, status).Ok?
    ensures var reviews := AddReview(w, frameId, status).value.reviews;
      PassedReview(reviews, a) <==>
        || PassedReview(w.reviews, a)
        || (status == Passed && a.frameId == frameId && Forget(a) == Forget(AnnotationsById(w.manifest)[frameId]))
  {
    hide AnnotationsById;
    var current := AnnotationsById(w.manifest)[frameId];
    var reviews := AddReview(w, frameId, status).value.reviews;
    var review := Review(frameId, CanonicalAnnotation(current), status);
    CanonicalAnnotationComplete(a, current);
    hide CanonicalAnnotation, Forget;
    assert reviews == w.reviews + [review];
    if PassedReview(w.reviews, a) {
      var r :| r in w.reviews && r.status == Passed && r.frameId == a.frameId
        && r.fingerprint == CanonicalAnnotation(a);
      assert r in reviews;
    }
    assert review in reviews;
  }

  /** No step forgets a review. */
  lemma {:induction false} ReviewsStay(w: Workflow, steps: seq<Step>)
    ensures w.reviews <= Run(w, steps).reviews
    decreases |steps|
  {
    if steps != [] {
      ReviewStays(w, steps[0]);
      hide Apply;
      ReviewsStay(Apply(w, steps[0]), steps[1..]);
    }
  }

  lemma ReviewStays(w: Workflow, step: Step)
    ensures w.reviews <= Apply(w, step).reviews
  {
    hide BlockedReasons, AnnotationsById, Revised, CanonicalAnnotation, FreezeRecordOf;
  }

  /** Equal split fingerprints mean the same sequences in the same splits, with the same frames and content. */
  lemma SplitFingerprintTells(m: Manifest, n: Manifest, s: CorpusSequence) returns (t: CorpusSequence)
    requires SplitFingerprintOf(m) == SplitFingerprintOf(n) && s in m.sequences
    ensures t in n.sequences && t.sequenceId == s.sequenceId && t.split == s.split
    ensures multiset(Map(FrameHash, t.frames)) == multiset(Map(FrameHash, s.frames))
  {
    var a, b := OrderedSequences(m), OrderedSequences(n);
    SortByMembers(m.sequences, BySequenceId);
    SortByMembers(n.sequences, BySequenceId);
    hide BySequenceId, ByFrameIndex, FrameHash, SplitEntry, OrderedFrames;
    var i :| 0 <= i < |a| && a[i] == s;
    assert |a| == |SplitFingerprintOf(m)| == |b|;
    t := b[i];
    assert t in b;
    assert SplitEntry(s) == SplitFingerprintOf(m)[i] == SplitEntry(t);
    SplitEntryTells(s, t);
  }

  lemma SplitEntryTells(s: CorpusSequence, t: CorpusSequence)
    requires SplitEntry(s) == SplitEntry(t)
    ensures t.sequenceId == s.sequenceId && t.split == s.split
    ensures multiset(Map(FrameHash, t.frames)) == multiset(Map(FrameHash, s.frames))
  {
    hide ByFrameIndex, FrameHash;
    MapReordered(FrameHash, OrderedFrames(s), s.frames);
    MapReordered(FrameHash, OrderedFrames(t), t.frames);
  }
}
