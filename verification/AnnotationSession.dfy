/**
 * The local editing session with drafts and per-frame undo
 * (src/fh_agent/evals/spatial_annotation_ui.py, `SpatialAnnotationSession`).
 */
module AnnotationSession {
  import opened Prelude
  import opened Ordering
  import opened SpatialDataset
  import opened Corpus
  import opened AnnotationReview

  datatype FrameState = FrameState(frame: CorpusFrame, split: Split, annotation: Annotation)

  datatype SessionError =
    | FrozenCorpus | PointOutsideImage | NothingToRemove | IndexOutside | PersistFailed
        | RevisionRejected(reason: WorkflowError)

  // ----- the frames in display order -----

  /** The lookup raises KeyError for an unannotated frame, which a valid manifest does not have. */
  function AnnotationFor(annotations: Annotations, frameId: string): Annotation {
    if frameId in annotations then annotations[frameId] else Annotation(frameId, "", Exclude, None, [])
  }

  function StatesOf(frames: seq<CorpusFrame>, split: Split, annotations: Annotations): (r: seq<FrameState>)
    ensures |r| == |frames|
    ensures forall i :: 0 <= i < |frames|
                        ==> r[i] == FrameState(frames[i], split, AnnotationFor(annotations, frames[i].frameId))
  {
    seq(|frames|, i requires 0 <= i < |frames| => FrameState(frames[i], split,
        AnnotationFor(annotations, frames[i].frameId)))
  }

  function StatesOfAll(sequences: seq<CorpusSequence>, annotations: Annotations): seq<FrameState> {
    if sequences == [] then []
    else StatesOf(OrderedFrames(sequences[0]), sequences[0].split, annotations)
         + StatesOfAll(sequences[1..], annotations)
  }

  /** `_ordered_frame_states`. */
  function OrderedStates(m: Manifest): seq<FrameState> {
    StatesOfAll(OrderedSequences(m), AnnotationsById(m))
  }

  // ----- the session as a value -----

  type History = map<string, seq<Annotation>>

  datatype State = State(workflow: Workflow, frames: seq<FrameState>, index: nat, drafts: Annotations,
                         history: History) {
    predicate InRange() { index < |frames| }

    function CurrentFrame(): CorpusFrame requires InRange() { frames[index].frame }

    function CurrentId(): string requires InRange() { CurrentFrame().frameId }

    /** `current.annotation`: the draft if there is one, else the persisted annotation. */
    function CurrentAnnotation(): Annotation
      requires InRange()
    {
      if CurrentId() in drafts then drafts[CurrentId()] else frames[index].annotation
    }

    function HistoryOf(frameId: string): seq<Annotation> {
      if frameId in history then history[frameId] else []
    }
  }

  datatype Edit = SetPlayer(point: Option<Point>) | AddSprite(at: Point) | RemoveSprite(position: int)
      | SetStatus(status: Status)

  predicate InImage(frame: CorpusFrame, p: Point) {
    0 <= p.0 < frame.width && 0 <= p.1 < frame.height
  }

  /** The annotation an edit asks for, or why it is refused before anything is staged. */
  function Edited(edit: Edit, a: Annotation, frame: CorpusFrame): Result<Annotation, SessionError> {
    match edit
    case SetPlayer(point) =>
      if point.Some? && !InImage(frame, point.value) then Err(PointOutsideImage) else Ok(a.(player := point))
    case AddSprite(at) =>
      if !InImage(frame, at) then Err(PointOutsideImage) else Ok(a.(sprites := a.sprites + [at]))
    case RemoveSprite(position) =>
      if a.sprites == [] then Err(NothingToRemove)
      else
        var k := if position >= 0 then position else |a.sprites| + position;
        if k < 0 || k >= |a.sprites| then Err(IndexOutside) else Ok(a.(sprites := RemoveAt(a.sprites, k)))
    case SetStatus(status) => Ok(a.(status := status))
  }

  function Stage(s: State, a: Annotation): Result<State, SessionError>
    requires s.InRange()
  {
    if s.workflow.freezeRecord.Some? then Err(FrozenCorpus)
    else
      var id := s.CurrentId();
      Ok(s.(drafts := s.drafts[id := a], history := s.history[id := s.HistoryOf(id) + [s.CurrentAnnotation()]]))
  }

  function ApplyEdit(s: State, edit: Edit): Result<State, SessionError>
    requires s.InRange()
  {
    var edited := Edited(edit, s.CurrentAnnotation(), s.CurrentFrame());
    if edited.Err? then Err(edited.error) else Stage(s, edited.value)
  }

  function Undone(s: State): Result<State, SessionError>
    requires s.InRange()
  {
    var id := s.CurrentId();
    var past := s.HistoryOf(id);
    if s.workflow.freezeRecord.Some? then Err(FrozenCorpus)
    else if past == [] then Ok(s)
    else Ok(s.(drafts := s.drafts[id := past[|past| - 1]], history := s.history[id := past[..|past| - 1]]))
  }

  /** `save_current`; `persisted` is whether the caller's persist step returns. */
  function Saved(s: State, persisted: bool): Result<State, SessionError>
    requires s.InRange()
  {
    var id := s.CurrentId();
    if s.workflow.freezeRecord.Some? then Err(FrozenCorpus)
    else if id !in s.drafts then Ok(s)
    else
      var revised := Record(s.workflow, s.drafts[id], true);
      if revised.Err? then Err(RevisionRejected(revised.error))
      else if !persisted then Err(PersistFailed)
      else Ok(State(revised.value, OrderedStates(revised.value.manifest), s.index, s.drafts - {id}, s.history - {id}))
  }

  // ----- the session object -----

  class Session {
    var workflow: Workflow
    var frames: seq<FrameState>
    var frameIndex: nat
    var drafts: Annotations
    var history: History

    function Value(): State
      reads this
    {
      State(workflow, frames, frameIndex, drafts, history)
    }

    constructor (w: Workflow)
      requires OrderedStates(w.manifest) != []
      ensures Value() == State(w, OrderedStates(w.manifest), 0, map[], map[])
    {
      workflow, frames, frameIndex, drafts, history := w, OrderedStates(w.manifest), 0, map[], map[];
    }

    /** Opening a session raises, here returns null, for a corpus without frames. */
    static method Open(w: Workflow) returns (session: Session?)
      ensures session == null <==> OrderedStates(w.manifest) == []
      ensures session != null ==> session.Value() == State(w, OrderedStates(w.manifest), 0, map[], map[])
    {
      if OrderedStates(w.manifest) == [] { return null; }
      session := new Session(w);
    }

    method NextFrame() returns (moved: bool)
      requires Value().InRange()
      modifies this`frameIndex
      ensures moved == (old(frameIndex) + 1 < |frames|)
      ensures Value() == old(Value()).(index := if moved then old(frameIndex) + 1 else old(frameIndex))
    {
      moved := frameIndex + 1 < |frames|;
      if moved { frameIndex := frameIndex + 1; }
    }

    method PreviousFrame() returns (moved: bool)
      requires Value().InRange()
      modifies this`frameIndex
      ensures moved == (old(frameIndex) > 0)
      ensures Value() == old(Value()).(index := if moved then old(frameIndex) - 1 else old(frameIndex))
    {
      moved := frameIndex > 0;
      if moved { frameIndex := frameIndex - 1; }
    }

    /** The four editing methods, which differ only in the annotation they ask for. */
    method EditCurrent(edit: Edit) returns (error: Option<SessionError>)
      requires Value().InRange()
      modifies this`drafts, this`history
      ensures var r := ApplyEdit(old(Value()), edit);
        if r.Ok? then error == None && Value() == r.value else error == Some(r.error) && Value() == old(Value())
    {
      var current := Value();
      var edited := Edited(edit, current.CurrentAnnotation(), current.CurrentFrame());
      if edited.Err? { return Some(edited.error); }
      if workflow.freezeRecord.Some? { return Some(FrozenCorpus); }
      var id := current.CurrentId();
      history := history[id := current.HistoryOf(id) + [current.CurrentAnnotation()]];
      drafts := drafts[id := edited.value];
      return None;
    }

    method Undo() returns (r: Result<bool, SessionError>)
      requires Value().InRange()
      modifies this`drafts, this`history
      ensures var u := Undone(old(Value()));
        if u.Ok? then r == Ok(old(Value()).HistoryOf(old(Value()).CurrentId()) != []) && Value() == u.value
        else r == Err(u.error) && Value() == old(Value())
    {
      if workflow.freezeRecord.Some? { return Err(FrozenCorpus); }
      var id := Value().CurrentId();
      var past := Value().HistoryOf(id);
      if past == [] { return Ok(false); }
      drafts := drafts[id := past[|past| - 1]];
      history := history[id := past[..|past| - 1]];
      return Ok(true);
    }

    method SaveCurrent(persisted: bool) returns (error: Option<SessionError>)
      requires Value().InRange()
      modifies this
      ensures var r := Saved(old(Value()), persisted);
        if r.Ok? then error == None && Value() == r.value else error == Some(r.error) && Value() == old(Value())
    {
      hide Record, OrderedStates;
      if workflow.freezeRecord.Some? { return Some(FrozenCorpus); }
      var id := Value().CurrentId();
      if id !in drafts { return None; }
      var revised := Record(workflow, drafts[id], true);
      if revised.Err? { return Some(RevisionRejected(revised.error)); }
      if !persisted { return Some(PersistFailed); }
      workflow := revised.value;
      drafts := drafts - {id};
      history := history - {id};
      frames := OrderedStates(revised.value.manifest);
      return None;
    }
  }

  // ----- invariant -----

  /** The annotation shown for a frame: its draft, else what is persisted. */
  function Shown(s: State, frameId: string): Annotation {
    if frameId in s.drafts then s.drafts[frameId] else AnnotationFor(AnnotationsById(s.workflow.manifest), frameId)
  }

  /** Drafts and history entries belong to their frame and keep its evidence. */
  ghost predicate FitsFrame(a: Annotation, frameId: string, annotations: Annotations) {
    frameId in annotations && a.frameId == frameId && a.evidenceId == annotations[frameId].evidenceId
  }

  ghost predicate DraftsFit(drafts: Annotations, annotations: Annotations) {
    forall id :: id in drafts ==> FitsFrame(drafts[id], id, annotations)
  }

  ghost predicate HistoryFits(history: History, annotations: Annotations) {
    forall id, i :: id in history && 0 <= i < |history[id]| ==> FitsFrame(history[id][i], id, annotations)
  }

  ghost predicate Valid(s: State) {
    && ValidManifest(s.workflow.manifest)
    && s.frames == OrderedStates(s.workflow.manifest) && s.InRange()
    && DraftsFit(s.drafts, AnnotationsById(s.workflow.manifest))
    && HistoryFits(s.history, AnnotationsById(s.workflow.manifest))
  }

  // ----- the ordered frames -----

  lemma {:induction false} StateAt(sequences: seq<CorpusSequence>, annotations: Annotations, i: nat)
      returns (s: CorpusSequence)
    requires i < |StatesOfAll(sequences, annotations)|
    ensures s in sequences && StatesOfAll(sequences, annotations)[i].frame in s.frames
    ensures StatesOfAll(sequences, annotations)[i].annotation
      == AnnotationFor(annotations, StatesOfAll(sequences, annotations)[i].frame.frameId)
  {
    hide OrderedFrames, AnnotationFor;
    var head := StatesOf(OrderedFrames(sequences[0]), sequences[0].split, annotations);
    if i < |head| {
      s := sequences[0];
      OrderedFramesMembers(s);
      assert StatesOfAll(sequences, annotations)[i] == head[i];
    } else {
      s := StateAt(sequences[1..], annotations, i - |head|);
      assert StatesOfAll(sequences, annotations)[i] == StatesOfAll(sequences[1..], annotations)[i - |head|];
    }
  }

  lemma OrderedFramesMembers(s: CorpusSequence)
    ensures forall i :: 0 <= i < |OrderedFrames(s)| ==> OrderedFrames(s)[i] in s.frames
  {
    SortByMembers(s.frames, ByFrameIndex);
  }

  lemma {:induction false} SameFrames(sequences: seq<CorpusSequence>, a: Annotations, b: Annotations)
    ensures |StatesOfAll(sequences, a)| == |StatesOfAll(sequences, b)|
    ensures forall i :: 0 <= i < |StatesOfAll(sequences, a)| ==>
      StatesOfAll(sequences, a)[i].frame == StatesOfAll(sequences, b)[i].frame
          && StatesOfAll(sequences, a)[i].split == StatesOfAll(sequences, b)[i].split
  {
    if sequences != [] {
      SameFrames(sequences[1..], a, b);
    }
  }

  /** The current frame is annotated, and what `current` shows is what `Shown` says. */
  lemma CurrentShown(s: State)
    requires Valid(s)
    ensures s.CurrentAnnotation() == Shown(s, s.CurrentId())
    ensures FitsFrame(s.CurrentAnnotation(), s.CurrentId(), AnnotationsById(s.workflow.manifest))
  {
    hide ValidManifest, AnnotationsById, StatesOfAll, OrderedSequences, HistoryFits;
    var m := s.workflow.manifest;
    var sequence := StateAt(OrderedSequences(m), AnnotationsById(m), s.index);
    OrderedIdsDistinct(m);
    var t := AnnotationSequenceFor(m, sequence);
    FrameHasAnnotation(m, sequence, s.CurrentFrame(), t);
  }

  // ----- runs -----

  datatype Op = EditOp(edit: Edit) | UndoOp | SaveOp(persisted: bool) | NextOp | PreviousOp

  function AttemptOp(s: State, op: Op): Result<State, SessionError>
    requires s.InRange()
  {
    match op
    case EditOp(edit) => ApplyEdit(s, edit)
    case UndoOp => Undone(s)
    case SaveOp(persisted) => Saved(s, persisted)
    case NextOp => Ok(if s.index + 1 < |s.frames| then s.(index := s.index + 1) else s)
    case PreviousOp => Ok(if s.index > 0 then s.(index := s.index - 1) else s)
  }

  /** An operation that raises leaves the session as it was. */
  function StepOp(s: State, op: Op): State
    requires s.InRange()
  {
    var r := AttemptOp(s, op);
    if r.Ok? then r.value else s
  }

  /** There is something to save, and it may be saved. */
  predicate CanSave(s: State) {
    s.InRange() && s.workflow.freezeRecord.None? && s.CurrentId() in s.drafts
  }

  /** The revision that a save records is never rejected. */
  lemma SaveAccepted(s: State)
    requires Valid(s) && CanSave(s)
    ensures Record(s.workflow, s.drafts[s.CurrentId()], true) ==
      Ok(Workflow(Revised(s.workflow.manifest, s.drafts[s.CurrentId()]), s.workflow.reviews, None))
  {
    hide ValidManifest, AnnotationsById, Revised, OrderedStates, HistoryFits;
    assert FitsFrame(s.drafts[s.CurrentId()], s.CurrentId(), AnnotationsById(s.workflow.manifest));
  }

  lemma SaveResult(s: State)
    requires Valid(s) && CanSave(s)
    ensures var m := Revised(s.workflow.manifest, s.drafts[s.CurrentId()]);
      StepOp(s, SaveOp(true)) == State(Workflow(m, s.workflow.reviews, None), OrderedStates(m), s.index,
          s.drafts - {s.CurrentId()}, s.history - {s.CurrentId()})
  {
    hide Valid, Revised, OrderedStates, Record;
    SaveAccepted(s);
  }

  lemma RevisedOrder(m: Manifest, a: Annotation, i: nat)
    requires i < |OrderedStates(m)|
    ensures |OrderedStates(Revised(m, a))| == |OrderedStates(m)|
    ensures OrderedStates(Revised(m, a))[i].frame == OrderedStates(m)[i].frame
  {
    hide AnnotationsById, OrderedFrames, StatesOfAll, BySequenceId;
    SameFrames(OrderedSequences(m), AnnotationsById(m), AnnotationsById(Revised(m, a)));
    assert OrderedSequences(Revised(m, a)) == OrderedSequences(m);
  }

  /**
   * A save persists the current draft and nothing else: no other annotation changes, every other draft
   * and history stays, the cursor stays on its frame, and every frame shows what it showed before.
   */
  lemma SaveChangesOne(s: State)
    requires Valid(s) && CanSave(s)
    ensures var id, t := s.CurrentId(), StepOp(s, SaveOp(true));
      && AnnotationsById(t.workflow.manifest) == AnnotationsById(s.workflow.manifest)[id := s.drafts[id]]
      && t.drafts == s.drafts - {id} && t.history == s.history - {id}
      && t.InRange() && t.index == s.index && t.CurrentFrame() == s.CurrentFrame()
      && t.workflow.manifest.sequences == s.workflow.manifest.sequences && t.workflow.reviews == s.workflow.reviews
      && forall f :: Shown(t, f) == Shown(s, f)
  {
    hide *;
    SaveResult(s);
    SavePersists(s);
    SavedShows(s);
    SavedRange(s);
  }

  lemma SavePersists(s: State)
    requires Valid(s) && CanSave(s)
    ensures var id, m := s.CurrentId(), s.workflow.manifest;
      var n := Revised(m, s.drafts[id]);
      && AnnotationsById(n) == AnnotationsById(m)[id := s.drafts[id]] && n.sequences == m.sequences
      && s.index < |OrderedStates(n)| && OrderedStates(n)[s.index].frame == s.CurrentFrame()
  {
    hide ValidManifest, AnnotationsById, OrderedStates, HistoryFits;
    DraftFits(s);
    RevisionChangesOne(s.workflow.manifest, s.drafts[s.CurrentId()]);
    RevisedOrder(s.workflow.manifest, s.drafts[s.CurrentId()], s.index);
  }

  lemma SavedShows(s: State)
    requires Valid(s) && CanSave(s)
    ensures forall f :: Shown(StepOp(s, SaveOp(true)), f) == Shown(s, f)
  {
    hide Valid, StepOp, AnnotationsById, Revised, OrderedStates;
    SaveResult(s);
    SavePersists(s);
  }

  lemma SavedRange(s: State)
    requires Valid(s) && CanSave(s)
    ensures var t := StepOp(s, SaveOp(true)); t.InRange() && t.CurrentFrame() == s.CurrentFrame()
  {
    hide Valid, StepOp, AnnotationsById, Revised, OrderedStates;
    SaveResult(s);
    SavePersists(s);
  }

  lemma DraftFits(s: State)
    requires Valid(s) && CanSave(s)
    ensures FitsFrame(s.drafts[s.CurrentId()], s.CurrentId(), AnnotationsById(s.workflow.manifest))
  {
    hide ValidManifest, AnnotationsById, OrderedStates, HistoryFits;
  }

  /** Entries that fit their frames still fit after a revision that fits its own. */
  lemma FitsAfterRevision(drafts: Annotations, history: History, annotations: Annotations, id: string, a: Annotation)
    requires DraftsFit(drafts, annotations) && HistoryFits(history, annotations) && FitsFrame(a, id, annotations)
    ensures DraftsFit(drafts - {id}, annotations[id := a]) && HistoryFits(history - {id}, annotations[id := a])
  {}

  lemma SaveValid(s: State)
    requires Valid(s) && CanSave(s)
    ensures Valid(StepOp(s, SaveOp(true)))
  {
    var m, id := s.workflow.manifest, s.CurrentId();
    DraftFits(s);
    SaveResult(s);
    SaveChangesOne(s);
    hide ValidManifest, AnnotationsById, OrderedStates, StepOp, Revised, DraftsFit, HistoryFits, Shown;
    RevisionValid(m, s.drafts[id]);
    FitsAfterRevision(s.drafts, s.history, AnnotationsById(m), id, s.drafts[id]);
  }

  /** What each edit asks for: one field changes, as stated, and everything else of the annotation stays. */
  predicate Does(edit: Edit, a: Annotation, b: Annotation) {
    && b.frameId == a.frameId && b.evidenceId == a.evidenceId
    && match edit
       case SetPlayer(point) => b.player == point && b.sprites == a.sprites && b.status == a.status
       case AddSprite(at) =>
         && |b.sprites| == |a.sprites| + 1 && b.sprites[..|a.sprites|] == a.sprites && b.sprites[|a.sprites|] == at
         && b.player == a.player && b.status == a.status
       case RemoveSprite(position) =>
         var k := if position < 0 then |a.sprites| + position else position;
         && 0 <= k < |a.sprites| && b.sprites == a.sprites[..k] + a.sprites[k + 1..]
         && b.player == a.player && b.status == a.status
       case SetStatus(status) => b.status == status && b.player == a.player && b.sprites == a.sprites
  }

  /** A point must lie in the image; a position counts from the front, or from the back when it is negative. */
  predicate Possible(edit: Edit, a: Annotation, frame: CorpusFrame) {
    match edit
    case SetPlayer(point) => point.Some? ==> 0 <= point.value.0 < frame.width && 0 <= point.value.1 < frame.height
    case AddSprite(at) => 0 <= at.0 < frame.width && 0 <= at.1 < frame.height
    case RemoveSprite(position) => -|a.sprites| <= position < |a.sprites|
    case SetStatus(_) => true
  }

  lemma EditedExactly(edit: Edit, a: Annotation, frame: CorpusFrame)
    ensures Edited(edit, a, frame).Ok? <==> Possible(edit, a, frame)
    ensures Edited(edit, a, frame).Ok? ==> Does(edit, a, Edited(edit, a, frame).value)
    ensures Edited(edit, a, frame) == Err(NothingToRemove) <==> edit.RemoveSprite? && a.sprites == []
  {}

  /** An accepted edit changes what its frame shows as asked, and nothing that any other frame shows. */
  lemma EditShows(s: State, edit: Edit)
    requires Valid(s)
    ensures ApplyEdit(s, edit).Ok? <==>
      s.workflow.freezeRecord.None? && Possible(edit, Shown(s, s.CurrentId()), s.CurrentFrame())
    ensures var t := StepOp(s, EditOp(edit));
      && t.workflow == s.workflow && t.index == s.index && t.frames == s.frames
      && (forall f :: f != s.CurrentId() ==> Shown(t, f) == Shown(s, f) && t.HistoryOf(f) == s.HistoryOf(f))
      && if ApplyEdit(s, edit).Ok? then
           && Does(edit, Shown(s, s.CurrentId()), Shown(t, s.CurrentId()))
           && t.HistoryOf(s.CurrentId()) == s.HistoryOf(s.CurrentId()) + [Shown(s, s.CurrentId())]
         else t == s
  {
    hide *;
    InRangeWhenValid(s);
    CurrentShown(s);
    EditedExactly(edit, s.CurrentAnnotation(), s.CurrentFrame());
    EditAttempt(s, edit);
    if ApplyEdit(s, edit).Ok? { StageShows(s, Edited(edit, s.CurrentAnnotation(), s.CurrentFrame()).value); }
  }

  lemma InRangeWhenValid(s: State)
    requires Valid(s)
    ensures s.InRange()
  {}

  lemma EditAttempt(s: State, edit: Edit)
    requires s.InRange()
    ensures var edited := Edited(edit, s.CurrentAnnotation(), s.CurrentFrame());
      && (ApplyEdit(s, edit).Ok? <==> edited.Ok? && s.workflow.freezeRecord.None?)
      && (ApplyEdit(s, edit).Ok? ==>
            Stage(s, edited.value).Ok? && StepOp(s, EditOp(edit)) == Stage(s, edited.value).value)
      && (ApplyEdit(s, edit).Err? ==> StepOp(s, EditOp(edit)) == s)
  {
    hide Edited;
  }

  lemma StageShows(s: State, a: Annotation)
    requires s.InRange() && Stage(s, a).Ok? && s.CurrentAnnotation() == Shown(s, s.CurrentId())
    ensures var id, t := s.CurrentId(), Stage(s, a).value;
      && t.workflow == s.workflow && t.index == s.index && t.frames == s.frames
      && Shown(t, id) == a && t.HistoryOf(id) == s.HistoryOf(id) + [Shown(s, id)]
      && forall f :: f != id ==> Shown(t, f) == Shown(s, f) && t.HistoryOf(f) == s.HistoryOf(f)
  {
    hide AnnotationsById, AnnotationFor;
  }

  /** An undo shows the annotation from before the frame's latest open edit, if there is one. */
  lemma UndoShows(s: State)
    requires Valid(s)
    ensures var id, t := s.CurrentId(), StepOp(s, UndoOp);
      if s.workflow.freezeRecord.None? && s.HistoryOf(id) != [] then
        && Shown(t, id) == s.HistoryOf(id)[|s.HistoryOf(id)| - 1]
        && t.HistoryOf(id) == s.HistoryOf(id)[..|s.HistoryOf(id)| - 1]
        && t.workflow == s.workflow && t.index == s.index
        && (forall f :: f != id ==> Shown(t, f) == Shown(s, f) && t.HistoryOf(f) == s.HistoryOf(f))
      else t == s
  {
    hide Valid, AnnotationsById;
  }

  /** The cursor moves one frame on or back, stops at either end, and changes nothing else. */
  lemma CursorMoves(s: State)
    requires s.InRange()
    ensures StepOp(s, NextOp) == s.(index := if s.index < |s.frames| - 1 then s.index + 1 else s.index)
    ensures StepOp(s, PreviousOp) == s.(index := if s.index == 0 then 0 else s.index - 1)
    ensures s.index < |s.frames| - 1 ==> StepOp(StepOp(s, NextOp), PreviousOp) == s
    ensures s.index > 0 ==> StepOp(StepOp(s, PreviousOp), NextOp) == s
  {
    hide ApplyEdit, Undone, Saved;
  }

  /** Saving fails on a frozen corpus or on the persist step, and does nothing without a draft. */
  lemma SaveExactly(s: State, persisted: bool)
    requires Valid(s)
    ensures Saved(s, persisted) == Err(FrozenCorpus) <==> s.workflow.freezeRecord.Some?
    ensures s.workflow.freezeRecord.None? && s.CurrentId() !in s.drafts ==> Saved(s, persisted) == Ok(s)
    ensures Saved(s, persisted) == Err(PersistFailed) <==> CanSave(s) && !persisted
    ensures CanSave(s) && persisted ==> Saved(s, persisted).Ok?
  {
    hide *;
    InRangeWhenValid(s);
    CanSaveIs(s);
    if CanSave(s) { SaveAccepted(s); }
    SavedCases(s, persisted);
  }

  lemma CanSaveIs(s: State)
    requires s.InRange()
    ensures CanSave(s) <==> s.workflow.freezeRecord.None? && s.CurrentId() in s.drafts
  {}

  lemma SavedCases(s: State, persisted: bool)
    requires s.InRange()
    ensures Saved(s, persisted) == Err(FrozenCorpus) <==> s.workflow.freezeRecord.Some?
    ensures s.workflow.freezeRecord.None? && s.CurrentId() !in s.drafts ==> Saved(s, persisted) == Ok(s)
    ensures s.workflow.freezeRecord.None? && s.CurrentId() in s.drafts ==>
      var recorded := Record(s.workflow, s.drafts[s.CurrentId()], true);
      && (recorded.Ok? && !persisted ==> Saved(s, persisted) == Err(PersistFailed))
      && (recorded.Ok? && persisted ==> Saved(s, persisted).Ok?)
  {
    hide Record, OrderedStates;
  }

  lemma EditFits(edit: Edit, a: Annotation, frame: CorpusFrame)
    ensures Edited(edit, a, frame).Ok? ==>
      Edited(edit, a, frame).value.frameId == a.frameId && Edited(edit, a, frame).value.evidenceId == a.evidenceId
  {}

  lemma EditValid(s: State, edit: Edit)
    requires Valid(s)
    ensures Valid(StepOp(s, EditOp(edit)))
  {
    hide ValidManifest, AnnotationsById, OrderedStates, Edited;
    CurrentShown(s);
    EditFits(edit, s.CurrentAnnotation(), s.CurrentFrame());
  }

  lemma UndoValid(s: State)
    requires Valid(s)
    ensures Valid(StepOp(s, UndoOp))
  {
    hide ValidManifest, AnnotationsById, OrderedStates;
  }

  /** Every operation keeps the session valid. */
  lemma StepValid(s: State, op: Op)
    requires Valid(s)
    ensures Valid(StepOp(s, op))
  {
    match op
    case EditOp(edit) => EditValid(s, edit);
    case UndoOp => UndoValid(s);
    case SaveOp(persisted) => if persisted && CanSave(s) { SaveValid(s); } else { SaveNothing(s, persisted); }
    case NextOp => hide ValidManifest, AnnotationsById, OrderedStates, DraftsFit, HistoryFits;
    case PreviousOp => hide ValidManifest, AnnotationsById, OrderedStates, DraftsFit, HistoryFits;
  }

  lemma SaveNothing(s: State, persisted: bool)
    requires s.InRange() && !(persisted && CanSave(s))
    ensures StepOp(s, SaveOp(persisted)) == s
  {
    hide Record, OrderedStates;
  }

  // ----- undo -----

  /** The annotations a frame has shown and can still go back to, the one it shows now last. */
  function Trail(s: State, f: string): seq<Annotation> {
    s.HistoryOf(f) + [Shown(s, f)]
  }

  /** The number of open edits on frame `f` after `op`; none if it undoes more than was edited, or saves `f`. */
  function NextDepth(s: State, op: Op, f: string, depth: nat): Option<nat>
    requires s.InRange()
  {
    if s.CurrentId() != f then Some(depth)
    else
      match op
      case EditOp(edit) => Some(if ApplyEdit(s, edit).Ok? then depth + 1 else depth)
      case UndoOp => if depth > 0 then Some(depth - 1) else None
      case SaveOp(_) => None
      case NextOp => Some(depth)
      case PreviousOp => Some(depth)
  }

  /**
   * Edits that took effect and undos on frame `f` nest like brackets around `depth` open edits;
   * `f` itself is not saved.
   */
  ghost predicate Balanced(s: State, ops: seq<Op>, f: string, depth: nat)
    requires Valid(s)
    decreases |ops|
  {
    if ops == [] then depth == 0
    else
      StepValid(s, ops[0]);
      var next := NextDepth(s, ops[0], f, depth);
      next.Some? && Balanced(StepOp(s, ops[0]), ops[1..], f, next.value)
  }

  function RunOps(s: State, ops: seq<Op>): State
    requires Valid(s)
    decreases |ops|
  {
    if ops == [] then s
    else
      StepValid(s, ops[0]);
      RunOps(StepOp(s, ops[0]), ops[1..])
  }

  /** More open edits than can be undone cannot arise: the trail is long enough, and nothing was edited once frozen. */
  predicate Deep(s: State, f: string, depth: nat) {
    depth < |Trail(s, f)| && (depth > 0 ==> s.workflow.freezeRecord.None?)
  }

  /** Every allowed operation keeps the annotation that lies `depth` edits back. */
  lemma StepTrail(s: State, op: Op, f: string, depth: nat)
    requires Valid(s) && Deep(s, f, depth) && NextDepth(s, op, f, depth).Some?
    ensures var t, depth' := StepOp(s, op), NextDepth(s, op, f, depth).value;
      Deep(t, f, depth') && Trail(t, f)[..|Trail(t, f)| - depth'] == Trail(s, f)[..|Trail(s, f)| - depth]
  {
    hide Valid, AnnotationsById, Trail;
    FreezeKept(s, op);
    match op
    case EditOp(edit) => EditTrail(s, edit, f);
    case UndoOp => UndoTrail(s, f); TrailIs(s, f);
    case SaveOp(persisted) => SaveTrail(s, persisted, f);
    case NextOp => MoveTrail(s, op, f);
    case PreviousOp => MoveTrail(s, op, f);
  }

  lemma TrailIs(s: State, f: string)
    ensures |Trail(s, f)| == |s.HistoryOf(f)| + 1 && Trail(s, f)[..|s.HistoryOf(f)|] == s.HistoryOf(f)
  {}

  lemma MoveTrail(s: State, op: Op, f: string)
    requires Valid(s) && (op.NextOp? || op.PreviousOp?)
    ensures Trail(StepOp(s, op), f) == Trail(s, f)
  {
    hide ValidManifest, OrderedStates, DraftsFit, HistoryFits, AnnotationsById, AnnotationFor;
  }

  lemma FreezeKept(s: State, op: Op)
    requires Valid(s)
    ensures StepOp(s, op).workflow.freezeRecord == s.workflow.freezeRecord
  {
    hide ValidManifest, DraftsFit, HistoryFits, AnnotationsById, Edited, OrderedStates;
    match op
    case EditOp(edit) =>
    case UndoOp =>
    case SaveOp(persisted) => if persisted && CanSave(s) { SaveResult(s); } else { SaveNothing(s, persisted); }
    case NextOp =>
    case PreviousOp =>
  }

  lemma EditTrail(s: State, edit: Edit, f: string)
    requires Valid(s)
    ensures var t := StepOp(s, EditOp(edit));
      if s.CurrentId() == f && ApplyEdit(s, edit).Ok? then
        |Trail(t, f)| == |Trail(s, f)| + 1 && Trail(t, f)[..|Trail(s, f)|] == Trail(s, f)
      else Trail(t, f) == Trail(s, f)
  {
    hide Valid, AnnotationsById, Edited;
    CurrentShown(s);
  }

  lemma UndoTrail(s: State, f: string)
    requires Valid(s)
    ensures var t := StepOp(s, UndoOp);
      if s.CurrentId() == f && s.workflow.freezeRecord.None? && s.HistoryOf(f) != [] then Trail(t, f) == s.HistoryOf(f)
      else Trail(t, f) == Trail(s, f)
  {
    hide ValidManifest, AnnotationsById, OrderedStates, DraftsFit, HistoryFits;
  }

  lemma SaveTrail(s: State, persisted: bool, f: string)
    requires Valid(s) && s.CurrentId() != f
    ensures Trail(StepOp(s, SaveOp(persisted)), f) == Trail(s, f)
  {
    if persisted && CanSave(s) {
      hide *;
      SaveChangesOne(s);
      SavedTrail(s, f);
    } else {
      SaveNothing(s, persisted);
    }
  }

  lemma SavedTrail(s: State, f: string)
    requires Valid(s) && CanSave(s) && s.CurrentId() != f
    ensures Trail(StepOp(s, SaveOp(true)), f) == Trail(s, f)
  {
    hide Valid, Shown, StepOp, OrderedStates, Revised;
    SaveResult(s);
    SavedShows(s);
  }

  /** A run with `depth` open edits on a frame returns it to the annotation shown that many edits ago. */
  lemma {:induction false} BalancedReturns(s: State, ops: seq<Op>, f: string, depth: nat)
    requires Valid(s) && Balanced(s, ops, f, depth) && Deep(s, f, depth)
    ensures depth < |Trail(s, f)| && Trail(RunOps(s, ops), f) == Trail(s, f)[..|Trail(s, f)| - depth]
    decreases |ops|
  {
    hide *;
    DeepIs(s, f, depth);
    if ops == [] {
      NothingReturns(s, f, depth);
    } else {
      BalancedUnfolds(s, ops, f, depth);
      StepTrail(s, ops[0], f, depth);
      BalancedReturns(StepOp(s, ops[0]), ops[1..], f, NextDepth(s, ops[0], f, depth).value);
    }
  }

  lemma DeepIs(s: State, f: string, depth: nat)
    ensures Deep(s, f, depth) ==> depth < |Trail(s, f)|
    ensures Deep(s, f, 0)
  {}

  lemma NothingReturns(s: State, f: string, depth: nat)
    requires Valid(s) && Balanced(s, [], f, depth) && depth <= |Trail(s, f)|
    ensures Trail(RunOps(s, []), f) == Trail(s, f)[..|Trail(s, f)| - depth]
  {
    hide Valid, Trail;
  }

  lemma BalancedUnfolds(s: State, ops: seq<Op>, f: string, depth: nat)
    requires Valid(s) && ops != [] && Balanced(s, ops, f, depth)
    ensures s.InRange() && Valid(StepOp(s, ops[0]))
    ensures NextDepth(s, ops[0], f, depth).Some?
      && Balanced(StepOp(s, ops[0]), ops[1..], f, NextDepth(s, ops[0], f, depth).value)
    ensures RunOps(s, ops) == RunOps(StepOp(s, ops[0]), ops[1..])
  {
    assert s.InRange();
    hide Valid, StepOp, NextDepth;
    StepValid(s, ops[0]);
  }

  /** A balanced run of edits and undos on a frame restores what it showed, whatever happens on the other frames. */
  lemma UndoRestores(s: State, ops: seq<Op>, f: string)
    requires Valid(s) && Balanced(s, ops, f, 0)
    ensures Shown(RunOps(s, ops), f) == Shown(s, f)
    ensures RunOps(s, ops).HistoryOf(f) == s.HistoryOf(f)
  {
    hide *;
    DeepIs(s, f, 0);
    BalancedReturns(s, ops, f, 0);
    TrailParts(s, RunOps(s, ops), f);
  }

  lemma TrailParts(s: State, t: State, f: string)
    requires Trail(t, f) == Trail(s, f)[..|Trail(s, f)| - 0]
    ensures Shown(t, f) == Shown(s, f) && t.HistoryOf(f) == s.HistoryOf(f)
  {
    hide Shown;
    assert Trail(t, f) == Trail(s, f);
    assert Trail(t, f)[..|Trail(t, f)| - 1] == t.HistoryOf(f) && Trail(s, f)[..|Trail(s, f)| - 1] == s.HistoryOf(f);
    assert Trail(t, f)[|Trail(t, f)| - 1] == Shown(t, f) && Trail(s, f)[|Trail(s, f)| - 1] == Shown(s, f);
  }
}
