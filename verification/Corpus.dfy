/**
 * Corpus manifests and their canonical payload
 * (src/fh_agent/evals/spatial_perception_corpus.py).
 *
 * SHA-256 of the canonical JSON is injective here, so a fingerprint is the payload itself.
 */
module Corpus {
  import opened Prelude
  import opened Ordering
  import opened SpatialDataset

  datatype Split = Train | Validation | Test

  datatype CorpusFrame = CorpusFrame(
    frameId: string, sequenceId: string, path: string, sha256: string, width: nat, height: nat,
    evidenceId: string, frameIndex: nat, capturedAt: Option<string>)

  datatype CorpusSequence = CorpusSequence(sequenceId: string, split: Split, frames: seq<CorpusFrame>)

  datatype Manifest = Manifest(
    corpusId: string, schemaVersion: string, corpusVersion: string, sequences: seq<CorpusSequence>,
        annotations: Dataset)

  // ----- validators -----

  function SequenceId(s: CorpusSequence): string { s.sequenceId }

  function AnnotationSequenceId(s: AnnotationSequence): string { s.sequenceId }

  function FrameId(f: CorpusFrame): string { f.frameId }

  function FrameIndex(f: CorpusFrame): nat { f.frameIndex }

  /** `validate_sequence_frames`. */
  ghost predicate ValidSequence(s: CorpusSequence) {
    && s.frames != []
    && (forall f :: f in s.frames ==> f.sequenceId == s.sequenceId)
    && NoDuplicates(Map(FrameIndex, s.frames))
  }

  function AllFrames(sequences: seq<CorpusSequence>): seq<CorpusFrame> {
    if sequences == [] then [] else sequences[0].frames + AllFrames(sequences[1..])
  }

  /** Which annotation a frame id has, and in which annotation sequence. */
  ghost predicate Annotated(sequences: seq<AnnotationSequence>, sequenceId: string, a: Annotation) {
    exists s :: s in sequences && s.sequenceId == sequenceId && a in s.frames
  }

  ghost predicate InSequence(sequences: seq<CorpusSequence>, s: CorpusSequence, f: CorpusFrame) {
    s in sequences && f in s.frames
  }

  /** `validate_manifest_references`, with the dataset's own validator. */
  ghost predicate ValidManifest(m: Manifest) {
    && m.sequences != []
    && (forall s :: s in m.sequences ==> ValidSequence(s))
    && UniqueFrameIds(Flatten(m.annotations.sequences))
    && NoDuplicates(Map(SequenceId, m.sequences))
    && NoDuplicates(Map(AnnotationSequenceId, m.annotations.sequences))
    && (forall id :: id in Map(SequenceId, m.sequences) <==> id in Map(AnnotationSequenceId, m.annotations.sequences))
    && NoDuplicates(Map(FrameId, AllFrames(m.sequences)))
    && NoLeakage(m.sequences)
    && ReferencesMatch(m)
  }

  /** `_validate_cross_split_hash_leakage`. */
  ghost predicate NoLeakage(sequences: seq<CorpusSequence>) {
    forall s, t, f, g :: InSequence(sequences, s, f) && InSequence(sequences, t, g) && f.sha256 == g.sha256
        ==> s.split == t.split
  }

  /** `_validate_annotation_references`. */
  ghost predicate ReferencesMatch(m: Manifest) {
    FramesAnnotated(m) && AnnotationsPlaced(m)
  }

  ghost predicate FramesAnnotated(m: Manifest) {
    forall f :: f in AllFrames(m.sequences)
        ==> exists a :: Annotated(m.annotations.sequences, f.sequenceId, a) && Describes(a, f)
  }

  ghost predicate AnnotationsPlaced(m: Manifest) {
    forall a :: a in Flatten(m.annotations.sequences)
        ==> exists f :: f in AllFrames(m.sequences) && f.frameId == a.frameId
  }

  ghost predicate Describes(a: Annotation, f: CorpusFrame) {
    a.frameId == f.frameId && a.evidenceId == f.evidenceId
  }

  // ----- canonical payload -----

  /** The annotation is absent only where the program would raise KeyError; in a valid manifest it never is. */
  datatype FramePayload = FramePayload(frame: CorpusFrame, annotation: Option<Annotation>)
  datatype SequencePayload = SequencePayload(sequenceId: string, split: Split, frames: seq<FramePayload>)
  datatype Payload = Payload(
    corpusId: string, schemaVersion: string, corpusVersion: string, datasetVersion: string,
        sequences: seq<SequencePayload>)

  /** `_canonical_annotation_payload`. */
  function CanonicalAnnotation(a: Annotation): Annotation {
    a.(sprites := SortBy(a.sprites, IntPairLe))
  }

  function BySequenceId(s: CorpusSequence, t: CorpusSequence): bool {
    StringLe(s.sequenceId, t.sequenceId)
  }

  function ByFrameIndex(f: CorpusFrame, g: CorpusFrame): bool {
    f.frameIndex < g.frameIndex || (f.frameIndex == g.frameIndex && StringLe(f.frameId, g.frameId))
  }

  function OrderedSequences(m: Manifest): seq<CorpusSequence> {
    SortBy(m.sequences, BySequenceId)
  }

  function OrderedFrames(s: CorpusSequence): seq<CorpusFrame> {
    SortBy(s.frames, ByFrameIndex)
  }

  type Annotations = map<string, Annotation>

  function AnnotationsById(m: Manifest): Annotations {
    ById(Flatten(m.annotations.sequences))
  }

  function PayloadOfFrame(annotations: Annotations): CorpusFrame -> FramePayload {
    (f: CorpusFrame) =>
      FramePayload(f, if f.frameId in annotations then Some(CanonicalAnnotation(annotations[f.frameId])) else None)
  }

  function PayloadOfSequence(annotations: Annotations): CorpusSequence -> SequencePayload {
    (s: CorpusSequence) => SequencePayload(s.sequenceId, s.split, Map(PayloadOfFrame(annotations), OrderedFrames(s)))
  }

  function CanonicalPayload(m: Manifest): Payload {
    Payload(m.corpusId, m.schemaVersion, m.corpusVersion, m.annotations.version,
            Map(PayloadOfSequence(AnnotationsById(m)), OrderedSequences(m)))
  }

  /** `canonical_payload`, which appends one entry per sequence to a local list. */
  method BuildCanonicalPayload(m: Manifest) returns (payload: Payload)
    ensures payload == CanonicalPayload(m)
  {
    hide *;
    var entry, ordered := PayloadOfSequence(AnnotationsById(m)), OrderedSequences(m);
    var sequences := [];
    for i := 0 to |ordered|
      invariant sequences == Map(entry, ordered)[..i]
    {
      sequences := sequences + [entry(ordered[i])];
    }
    payload := Payload(m.corpusId, m.schemaVersion, m.corpusVersion, m.annotations.version, sequences);
    assert payload == CanonicalPayload(m) by { PayloadIs(m); }
  }

  /** Sequences are listed by their ids, code point by code point. */
  lemma SequencesById(m: Manifest, i: nat, j: nat)
    requires i < j < |OrderedSequences(m)|
    ensures StringLe(OrderedSequences(m)[i].sequenceId, OrderedSequences(m)[j].sequenceId)
    ensures multiset(OrderedSequences(m)) == multiset(m.sequences)
  {
    StringOrder();
    hide StringLe;
    SortBySorts(m.sequences, BySequenceId);
  }

  /** A valid sequence's frames are listed by strictly increasing index. */
  lemma FramesByIndex(s: CorpusSequence, i: nat, j: nat)
    requires ValidSequence(s) && i < j < |OrderedFrames(s)|
    ensures OrderedFrames(s)[i].frameIndex < OrderedFrames(s)[j].frameIndex
    ensures multiset(OrderedFrames(s)) == multiset(s.frames)
  {
    var ordered := OrderedFrames(s);
    FrameOrder();
    SortBySorts(s.frames, ByFrameIndex);
    assert ByFrameIndex(ordered[i], ordered[j]);
    MapReordered(FrameIndex, s.frames, ordered);
    NoDuplicatesPermuted(Map(FrameIndex, s.frames), Map(FrameIndex, ordered));
    assert Map(FrameIndex, ordered)[i] != Map(FrameIndex, ordered)[j];
  }

  lemma PayloadIs(m: Manifest)
    ensures CanonicalPayload(m) == Payload(m.corpusId, m.schemaVersion, m.corpusVersion, m.annotations.version,
                                           Map(PayloadOfSequence(AnnotationsById(m)), OrderedSequences(m)))
  {}

  // ----- a manifest without its incidental order -----

  type UnorderedSequence = (string, Split, multiset<CorpusFrame>)
  type UnorderedAnnotations = (string, multiset<Unordered>)

  /** Sequences, frames, annotations and sprite points as multisets. */
  datatype UnorderedManifest = UnorderedManifest(
    corpusId: string, schemaVersion: string, corpusVersion: string, datasetVersion: string,
    sequences: multiset<UnorderedSequence>, annotations: multiset<UnorderedAnnotations>)

  ghost function ForgetFrames(s: CorpusSequence): UnorderedSequence {
    (s.sequenceId, s.split, multiset(s.frames))
  }

  ghost function ForgetAnnotations(s: AnnotationSequence): UnorderedAnnotations {
    (s.sequenceId, multiset(Map(Forget, s.frames)))
  }

  ghost function ForgetOrder(m: Manifest): UnorderedManifest {
    UnorderedManifest(m.corpusId, m.schemaVersion, m.corpusVersion, m.annotations.version,
                      multiset(Map(ForgetFrames, m.sequences)),
                          multiset(Map(ForgetAnnotations, m.annotations.sequences)))
  }

  // ----- reading a payload back -----

  function FrameOf(p: FramePayload): CorpusFrame { p.frame }

  ghost function AnnotationOf(p: FramePayload): Unordered {
    if p.annotation.Some? then Forget(p.annotation.value) else Unordered("", "", Exclude, None, multiset{})
  }

  ghost function ReadSequence(p: SequencePayload): UnorderedSequence {
    (p.sequenceId, p.split, multiset(Map(FrameOf, p.frames)))
  }

  ghost function ReadAnnotations(p: SequencePayload): UnorderedAnnotations {
    (p.sequenceId, multiset(Map(AnnotationOf, p.frames)))
  }

  ghost function ReadBack(p: Payload): UnorderedManifest {
    UnorderedManifest(p.corpusId, p.schemaVersion, p.corpusVersion, p.datasetVersion,
                      multiset(Map(ReadSequence, p.sequences)), multiset(Map(ReadAnnotations, p.sequences)))
  }

  lemma CanonicalKeepsContent(a: Annotation)
    ensures Forget(CanonicalAnnotation(a)) == Forget(a)
  {}

  /** Two annotations have one canonical form exactly when they differ only in sprite order. */
  lemma CanonicalAnnotationComplete(a: Annotation, b: Annotation)
    ensures CanonicalAnnotation(a) == CanonicalAnnotation(b) <==> Forget(a) == Forget(b)
  {
    IntPairOrder();
    if Forget(a) == Forget(b) {
      SortByCanonical(a.sprites, b.sprites, IntPairLe);
    }
    CanonicalKeepsContent(a);
    CanonicalKeepsContent(b);
  }

  lemma SequencesReadBack(m: Manifest)
    ensures multiset(Map(ReadSequence, CanonicalPayload(m).sequences)) == multiset(Map(ForgetFrames, m.sequences))
  {
    var ordered, payload := OrderedSequences(m), CanonicalPayload(m).sequences;
    forall i | 0 <= i < |ordered| ensures ReadSequence(payload[i]) == ForgetFrames(ordered[i]) {
      assert Map(FrameOf, payload[i].frames) == OrderedFrames(ordered[i]);
    }
    assert Map(ReadSequence, payload) == Map(ForgetFrames, ordered);
    MapReordered(ForgetFrames, ordered, m.sequences);
  }

  // ----- annotations in a valid manifest -----

  lemma {:induction false} AllFramesMembers(sequences: seq<CorpusSequence>, f: CorpusFrame)
    ensures f in AllFrames(sequences) <==> exists s :: s in sequences && f in s.frames
  {
    if sequences != [] {
      AllFramesMembers(sequences[1..], f);
      assert sequences == [sequences[0]] + sequences[1..];
    }
  }

  lemma {:induction false} FrameIdsWithin(sequences: seq<CorpusSequence>, s: CorpusSequence)
    requires NoDuplicates(Map(FrameId, AllFrames(sequences))) && s in sequences
    ensures NoDuplicates(Map(FrameId, s.frames))
  {
    var head, tail := sequences[0].frames, AllFrames(sequences[1..]);
    MapAppend(FrameId, head, tail);
    var ids := Map(FrameId, AllFrames(sequences));
    assert ids[..|head|] == Map(FrameId, head) && ids[|head|..] == Map(FrameId, tail);
    if s != sequences[0] {
      assert s in sequences[1..];
      FrameIdsWithin(sequences[1..], s);
    }
  }

  lemma SameIdSameSequence(m: Manifest, s: AnnotationSequence, t: AnnotationSequence)
    requires ValidManifest(m) && s in m.annotations.sequences && t in m.annotations.sequences
      && s.sequenceId == t.sequenceId
    ensures s == t
  {
    var ids := Map(AnnotationSequenceId, m.annotations.sequences);
    var i :| 0 <= i < |ids| && m.annotations.sequences[i] == s;
    var j :| 0 <= j < |ids| && m.annotations.sequences[j] == t;
    assert ids[i] == ids[j];
  }

  /** The annotation looked up for a frame sits in the annotation sequence of the frame's own sequence. */
  lemma FrameHasAnnotation(m: Manifest, s: CorpusSequence, f: CorpusFrame, t: AnnotationSequence)
    requires ValidManifest(m) && s in m.sequences && f in s.frames
    requires t in m.annotations.sequences && t.sequenceId == s.sequenceId
    ensures f.frameId in AnnotationsById(m)
    ensures AnnotationsById(m)[f.frameId] in t.frames && Describes(AnnotationsById(m)[f.frameId], f)
  {
    hide NoLeakage;
    AllFramesMembers(m.sequences, f);
    assert ValidSequence(s) && f.sequenceId == s.sequenceId;
    var a :| Annotated(m.annotations.sequences, f.sequenceId, a) && Describes(a, f);
    var u :| u in m.annotations.sequences && u.sequenceId == f.sequenceId && a in u.frames;
    SameIdSameSequence(m, t, u);
    FlattenMembers(m.annotations.sequences, a);
    ByIdLists(Flatten(m.annotations.sequences));
  }

  lemma AnnotationPlace(m: Manifest, s: AnnotationSequence, t: AnnotationSequence, a: Annotation, b: Annotation)
    requires ValidManifest(m) && s in m.annotations.sequences && t in m.annotations.sequences
    requires a in s.frames && b in t.frames && a.frameId == b.frameId
    ensures s == t && a == b
  {
    var all := m.annotations.sequences;
    var i :| 0 <= i < |all| && all[i] == s;
    var j :| 0 <= j < |all| && all[j] == t;
    var k :| 0 <= k < |s.frames| && s.frames[k] == a;
    var l :| 0 <= l < |t.frames| && t.frames[l] == b;
    if i <= j { FlattenPlaces(all, i, j, k, l); } else { FlattenPlaces(all, j, i, l, k); }
  }

  /** Every annotation describes a frame of the corpus sequence with its own sequence id. */
  lemma AnnotationHasFrame(m: Manifest, t: AnnotationSequence, a: Annotation)
      returns (s: CorpusSequence, f: CorpusFrame)
    requires ValidManifest(m) && t in m.annotations.sequences && a in t.frames
    ensures s in m.sequences && s.sequenceId == t.sequenceId && f in s.frames && f.frameId == a.frameId
  {
    hide NoLeakage;
    FlattenMembers(m.annotations.sequences, a);
    f :| f in AllFrames(m.sequences) && f.frameId == a.frameId;
    AllFramesMembers(m.sequences, f);
    s :| s in m.sequences && f in s.frames;
    assert ValidSequence(s) && f.sequenceId == s.sequenceId;
    var b :| Annotated(m.annotations.sequences, f.sequenceId, b) && Describes(b, f);
    var u :| u in m.annotations.sequences && u.sequenceId == f.sequenceId && b in u.frames;
    AnnotationPlace(m, t, u, a, b);
  }

  ghost function ForgottenFor(annotations: Annotations): CorpusFrame -> Annotation {
    (f: CorpusFrame) => if f.frameId in annotations then annotations[f.frameId]
        else Annotation("", "", Exclude, None, [])
  }

  lemma AnnotationsOfSequence(m: Manifest, s: CorpusSequence, t: AnnotationSequence)
    requires ValidManifest(m) && s in m.sequences && t in m.annotations.sequences && s.sequenceId == t.sequenceId
    ensures multiset(Map(ForgottenFor(AnnotationsById(m)), s.frames)) == multiset(t.frames)
  {
    hide NoLeakage, ReferencesMatch, AnnotationsById;
    var h := ForgottenFor(AnnotationsById(m));
    var found := Map(h, s.frames);
    FrameIdsWithin(m.sequences, s);
    var ids := Map(FrameId, s.frames);
    forall i | 0 <= i < |found| ensures found[i] in t.frames && found[i].frameId == ids[i] {
      FrameHasAnnotation(m, s, s.frames[i], t);
    }
    assert NoDuplicates(found);
    forall k, l | 0 <= k < l < |t.frames| ensures t.frames[k] != t.frames[l] {
      var j :| 0 <= j < |m.annotations.sequences| && m.annotations.sequences[j] == t;
      if t.frames[k] == t.frames[l] { FlattenPlaces(m.annotations.sequences, j, j, k, l); }
    }
    forall a | a in t.frames ensures a in found {
      var u, f := AnnotationHasFrame(m, t, a);
      SameIdSameCorpusSequence(m, s, u);
      var i :| 0 <= i < |s.frames| && s.frames[i] == f;
      AnnotationPlace(m, t, t, a, found[i]);
    }
    SameMembersSameMultiset(found, t.frames);
  }

  lemma SameIdSameCorpusSequence(m: Manifest, s: CorpusSequence, t: CorpusSequence)
    requires ValidManifest(m) && s in m.sequences && t in m.sequences && s.sequenceId == t.sequenceId
    ensures s == t
  {
    var ids := Map(SequenceId, m.sequences);
    var i :| 0 <= i < |ids| && m.sequences[i] == s;
    var j :| 0 <= j < |ids| && m.sequences[j] == t;
    assert ids[i] == ids[j];
  }

  lemma SequenceReadsAnnotations(m: Manifest, s: CorpusSequence, t: AnnotationSequence)
    requires ValidManifest(m) && s in m.sequences && t in m.annotations.sequences && s.sequenceId == t.sequenceId
    ensures ReadAnnotations(PayloadOfSequence(AnnotationsById(m))(s)) == ForgetAnnotations(t)
  {
    hide ValidManifest, AnnotationsById;
    var annotations := AnnotationsById(m);
    var h := ForgottenFor(annotations);
    var ordered := OrderedFrames(s);
    var p := PayloadOfSequence(annotations)(s);
    SortByMembers(s.frames, ByFrameIndex);
    forall i | 0 <= i < |ordered| ensures AnnotationOf(p.frames[i]) == Forget(h(ordered[i])) {
      FrameHasAnnotation(m, s, ordered[i], t);
      CanonicalKeepsContent(annotations[ordered[i].frameId]);
    }
    assert Map(AnnotationOf, p.frames) == Map(Forget, Map(h, ordered));
    AnnotationsOfSequence(m, s, t);
    MapReordered(h, ordered, s.frames);
    MapReordered(Forget, Map(h, ordered), t.frames);
  }

  lemma AnnotationSequenceFor(m: Manifest, s: CorpusSequence) returns (t: AnnotationSequence)
    requires ValidManifest(m) && s in m.sequences
    ensures t in m.annotations.sequences && t.sequenceId == s.sequenceId
  {
    hide NoLeakage, ReferencesMatch;
    var k :| 0 <= k < |m.sequences| && m.sequences[k] == s;
    var ids, annotationIds := Map(SequenceId, m.sequences), Map(AnnotationSequenceId, m.annotations.sequences);
    assert ids[k] in ids && ids[k] in annotationIds;
    var j :| 0 <= j < |annotationIds| && annotationIds[j] == ids[k];
    t := m.annotations.sequences[j];
  }

  lemma CorpusSequenceFor(m: Manifest, t: AnnotationSequence) returns (s: CorpusSequence)
    requires ValidManifest(m) && t in m.annotations.sequences
    ensures s in m.sequences && t.sequenceId == s.sequenceId
  {
    hide NoLeakage, ReferencesMatch;
    var k :| 0 <= k < |m.annotations.sequences| && m.annotations.sequences[k] == t;
    var ids, annotationIds := Map(SequenceId, m.sequences), Map(AnnotationSequenceId, m.annotations.sequences);
    assert annotationIds[k] in annotationIds && annotationIds[k] in ids;
    var j :| 0 <= j < |ids| && ids[j] == annotationIds[k];
    s := m.sequences[j];
  }

  lemma OrderedIdsDistinct(m: Manifest)
    requires ValidManifest(m)
    ensures NoDuplicates(Map(SequenceId, OrderedSequences(m)))
    ensures forall s :: s in OrderedSequences(m) <==> s in m.sequences
  {
    hide NoLeakage, ReferencesMatch;
    SortByMembers(m.sequences, BySequenceId);
    MapReordered(SequenceId, OrderedSequences(m), m.sequences);
    NoDuplicatesPermuted(Map(SequenceId, m.sequences), Map(SequenceId, OrderedSequences(m)));
  }

  lemma MapMembers<A, B>(f: A -> B, s: seq<A>)
    ensures forall x :: x in s ==> f(x) in Map(f, s)
  {
    forall x | x in s ensures f(x) in Map(f, s) {
      var i :| 0 <= i < |s| && s[i] == x;
      assert Map(f, s)[i] == f(x);
    }
  }

  lemma ReadingsDistinct(m: Manifest)
    requires ValidManifest(m)
    ensures NoDuplicates(Map(ReadAnnotations, CanonicalPayload(m).sequences))
    ensures NoDuplicates(Map(ForgetAnnotations, m.annotations.sequences))
  {
    var ordered, listed := OrderedSequences(m), m.annotations.sequences;
    var left, right := Map(ReadAnnotations, CanonicalPayload(m).sequences), Map(ForgetAnnotations, listed);
    assert NoDuplicates(Map(AnnotationSequenceId, listed));
    OrderedIdsDistinct(m);
    hide ValidManifest, OrderedSequences, AnnotationsById;
    forall i, j | 0 <= i < j < |left| ensures left[i] != left[j] {
      assert Map(SequenceId, ordered)[i] != Map(SequenceId, ordered)[j];
    }
    forall i, j | 0 <= i < j < |right| ensures right[i] != right[j] {
      assert Map(AnnotationSequenceId, listed)[i] != Map(AnnotationSequenceId, listed)[j];
    }
  }

  lemma AnnotationsReadBack(m: Manifest)
    requires ValidManifest(m)
    ensures multiset(Map(ReadAnnotations, CanonicalPayload(m).sequences))
      == multiset(Map(ForgetAnnotations, m.annotations.sequences))
  {
    hide ValidManifest, OrderedSequences, AnnotationsById, NoDuplicates, ForgetAnnotations, ReadAnnotations,
         PayloadOfSequence;
    var ordered, listed, payload := OrderedSequences(m), m.annotations.sequences, CanonicalPayload(m).sequences;
    var left, right := Map(ReadAnnotations, payload), Map(ForgetAnnotations, listed);
    ReadingsDistinct(m);
    OrderedIdsDistinct(m);
    MapMembers(ForgetAnnotations, listed);
    forall i | 0 <= i < |left| ensures left[i] in right {
      var t := AnnotationSequenceFor(m, ordered[i]);
      SequenceReadsAnnotations(m, ordered[i], t);
    }
    forall j | 0 <= j < |right| ensures right[j] in left {
      var s := CorpusSequenceFor(m, listed[j]);
      SequenceReadsAnnotations(m, s, listed[j]);
      var i :| 0 <= i < |ordered| && ordered[i] == s;
      assert left[i] == right[j];
    }
    SameMembersSameMultiset(left, right);
  }

  /** The payload of a valid manifest determines all its content. */
  lemma PayloadReadsBack(m: Manifest)
    requires ValidManifest(m)
    ensures ReadBack(CanonicalPayload(m)) == ForgetOrder(m)
  {
    SequencesReadBack(m);
    AnnotationsReadBack(m);
  }

  // ----- the payload depends on nothing else -----

  ghost function FirstLe(a: UnorderedSequence, b: UnorderedSequence): bool {
    StringLe(a.0, b.0)
  }

  /** Equal content means equal sequences in canonical order, up to the order of their frames. */
  lemma SameOrderedSequences(m: Manifest, n: Manifest)
    requires ValidManifest(m) && ValidManifest(n) && ForgetOrder(m) == ForgetOrder(n)
    ensures Map(ForgetFrames, OrderedSequences(m)) == Map(ForgetFrames, OrderedSequences(n))
  {
    var a, b := Map(ForgetFrames, OrderedSequences(m)), Map(ForgetFrames, OrderedSequences(n));
    StringOrder();
    SortedByFirst(m);
    SortedByFirst(n);
    FirstTellsApart(m);
    MapReordered(ForgetFrames, OrderedSequences(m), m.sequences);
    MapReordered(ForgetFrames, OrderedSequences(n), n.sequences);
    hide ValidManifest, StringLe, NoDuplicates;
    SortedUnique(a, b, FirstLe);
  }

  lemma SortedByFirst(m: Manifest)
    ensures Sorted(Map(ForgetFrames, OrderedSequences(m)), FirstLe)
  {
    StringOrder();
    hide StringLe;
    SortBySorts(m.sequences, BySequenceId);
  }

  lemma FirstTellsApart(m: Manifest)
    requires ValidManifest(m)
    ensures Antisymmetric(multiset(Map(ForgetFrames, OrderedSequences(m))), FirstLe)
  {
    hide ValidManifest, StringLe, OrderedSequences;
    var a, ids := Map(ForgetFrames, OrderedSequences(m)), Map(SequenceId, OrderedSequences(m));
    OrderedIdsDistinct(m);
    forall x, y | x in multiset(a) && y in multiset(a) && FirstLe(x, y) && FirstLe(y, x) ensures x == y {
      StringLeTotal(x.0, y.0);
      var i :| 0 <= i < |a| && a[i] == x;
      var j :| 0 <= j < |a| && a[j] == y;
      assert ids[i] == ids[j];
    }
  }

  lemma SameOrderedFrames(s: CorpusSequence, t: CorpusSequence)
    requires ValidSequence(s) && multiset(s.frames) == multiset(t.frames)
    ensures OrderedFrames(s) == OrderedFrames(t)
  {
    FrameOrder();
    FrameIndexTellsApart(s);
    hide ByFrameIndex, ValidSequence;
    SortByCanonical(s.frames, t.frames, ByFrameIndex);
  }

  lemma FrameOrder()
    ensures TotalPreorder(ByFrameIndex)
  {
    StringOrder();
    hide StringLe;
  }

  lemma FrameIndexTellsApart(s: CorpusSequence)
    requires ValidSequence(s)
    ensures Antisymmetric(multiset(s.frames), ByFrameIndex)
  {
    hide StringLe;
    var indices := Map(FrameIndex, s.frames);
    forall f, g | f in multiset(s.frames) && g in multiset(s.frames) && ByFrameIndex(f, g) && ByFrameIndex(g, f)
      ensures f == g
    {
      var i :| 0 <= i < |s.frames| && s.frames[i] == f;
      var j :| 0 <= j < |s.frames| && s.frames[j] == g;
      assert indices[i] == indices[j];
    }
  }

  /** Equal content means that a frame's two annotations differ at most in sprite order. */
  lemma SameFramePayload(m: Manifest, n: Manifest, s: CorpusSequence, f: CorpusFrame)
    requires ValidManifest(m) && ValidManifest(n) && ForgetOrder(m) == ForgetOrder(n)
    requires s in m.sequences && f in s.frames
    ensures PayloadOfFrame(AnnotationsById(m))(f) == PayloadOfFrame(AnnotationsById(n))(f)
  {
    var t := AnnotationSequenceFor(m, s);
    FrameHasAnnotation(m, s, f, t);
    var a := AnnotationsById(m)[f.frameId];
    var b := SameAnnotation(m, n, t, a);
    assert b.frameId == Forget(b).frameId == f.frameId;
    ByIdLists(Flatten(n.annotations.sequences));
    CanonicalAnnotationComplete(a, b);
  }

  lemma SameAnnotation(m: Manifest, n: Manifest, t: AnnotationSequence, a: Annotation) returns (b: Annotation)
    requires ForgetOrder(m) == ForgetOrder(n) && t in m.annotations.sequences && a in t.frames
    ensures b in Flatten(n.annotations.sequences) && Forget(b) == Forget(a)
  {
    hide ForgetAnnotations, Forget;
    var j := MappedBack(ForgetAnnotations, m.annotations.sequences, n.annotations.sequences, t);
    var u := n.annotations.sequences[j];
    SameListedAnnotations(t, u);
    var k := MappedBack(Forget, t.frames, u.frames, a);
    b := u.frames[k];
    FlattenMembers(n.annotations.sequences, b);
  }

  lemma SameListedAnnotations(t: AnnotationSequence, u: AnnotationSequence)
    requires ForgetAnnotations(t) == ForgetAnnotations(u)
    ensures multiset(Map(Forget, t.frames)) == multiset(Map(Forget, u.frames))
  {}

  lemma MappedBack<A, B>(f: A -> B, s: seq<A>, t: seq<A>, x: A) returns (j: nat)
    requires x in s && multiset(Map(f, s)) == multiset(Map(f, t))
    ensures j < |t| && f(t[j]) == f(x)
  {
    MapMembers(f, s);
    assert f(x) in multiset(Map(f, t));
    j :| 0 <= j < |t| && Map(f, t)[j] == f(x);
  }

  /**
   * `canonical_payload` is a complete invariant of valid manifests: equal payloads mean equal content
   * up to the order of sequences, frames, annotations and sprite points, and conversely.
   */
  lemma PayloadComplete(m: Manifest, n: Manifest)
    requires ValidManifest(m) && ValidManifest(n)
    ensures CanonicalPayload(m) == CanonicalPayload(n) <==> ForgetOrder(m) == ForgetOrder(n)
  {
    hide ValidManifest, CanonicalPayload, ReadBack, ForgetOrder;
    PayloadReadsBack(m);
    PayloadReadsBack(n);
    if ForgetOrder(m) == ForgetOrder(n) {
      PayloadFromContent(m, n);
    }
  }

  lemma PayloadFromContent(m: Manifest, n: Manifest)
    requires ValidManifest(m) && ValidManifest(n) && ForgetOrder(m) == ForgetOrder(n)
    ensures CanonicalPayload(m) == CanonicalPayload(n)
  {
    hide ValidManifest, PayloadOfSequence;
    var s, t := OrderedSequences(m), OrderedSequences(n);
    SameOrderedSequences(m, n);
    assert |s| == |Map(ForgetFrames, s)| == |Map(ForgetFrames, t)| == |t|;
    forall i | 0 <= i < |s| ensures PayloadOfSequence(AnnotationsById(m))(s[i])
        == PayloadOfSequence(AnnotationsById(n))(t[i]) {
      assert ForgetFrames(s[i]) == Map(ForgetFrames, s)[i] == Map(ForgetFrames, t)[i] == ForgetFrames(t[i]);
      SameSequencePayload(m, n, s[i], t[i]);
    }
  }

  lemma OrderedSequenceValid(m: Manifest, s: CorpusSequence)
    requires ValidManifest(m) && s in OrderedSequences(m)
    ensures s in m.sequences && ValidSequence(s)
  {
    SortByMembers(m.sequences, BySequenceId);
  }

  lemma SameSequencePayload(m: Manifest, n: Manifest, s: CorpusSequence, t: CorpusSequence)
    requires ValidManifest(m) && ValidManifest(n) && ForgetOrder(m) == ForgetOrder(n)
    requires s in OrderedSequences(m) && ForgetFrames(s) == ForgetFrames(t)
    ensures PayloadOfSequence(AnnotationsById(m))(s) == PayloadOfSequence(AnnotationsById(n))(t)
  {
    hide ValidManifest, ValidSequence, ForgetOrder, AnnotationsById, PayloadOfFrame, OrderedFrames, NoDuplicates;
    OrderedSequenceValid(m, s);
    SameOrderedFrames(s, t);
    SameFramePayloads(m, n, s);
  }

  lemma SameFramePayloads(m: Manifest, n: Manifest, s: CorpusSequence)
    requires ValidManifest(m) && ValidManifest(n) && ForgetOrder(m) == ForgetOrder(n) && s in m.sequences
    ensures Map(PayloadOfFrame(AnnotationsById(m)), OrderedFrames(s))
      == Map(PayloadOfFrame(AnnotationsById(n)), OrderedFrames(s))
  {
    SortByMembers(s.frames, ByFrameIndex);
    hide ValidManifest, ValidSequence, ForgetOrder, AnnotationsById, PayloadOfFrame, ByFrameIndex;
    var ordered := OrderedFrames(s);
    forall i | 0 <= i < |ordered|
      ensures PayloadOfFrame(AnnotationsById(m))(ordered[i]) == PayloadOfFrame(AnnotationsById(n))(ordered[i])
    {
      SameFramePayload(m, n, s, ordered[i]);
    }
  }
}
