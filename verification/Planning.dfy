/** From memory and one observation to a grounded task: planning context, plan checks, grounding, task contract. */
module Planning {
  import opened Prelude
  import opened Observations
  import opened Tasks

  datatype NoteStatus = ObservedFact | ValidatedRule | Hypothesis

  datatype ReflectionNote = ReflectionNote(status: NoteStatus, note: string, evidence: seq<string>)
  {
    predicate Valid() {
      status != Hypothesis ==> evidence != []
    }
  }

  datatype RawStatus = NoStatus | KnownStatus(status: NoteStatus) | UnknownStatus

  /** What a caller may put in a note list; `extra` marks a mapping with a field the note model forbids. */
  datatype RawNote =
    | Typed(value: ReflectionNote)
    | Mapping(status: RawStatus, note: Option<string>, claim: Option<string>, evidence: seq<string>, extra: bool)
    | Text(text: string)
    | OtherNote

  datatype RawNotes = Notes(notes: seq<RawNote>) | NotASequence

  datatype Memory = Memory(knownFacts: RawNotes, hypotheses: RawNotes, outcomes: RawNotes)

  datatype Context = Context(observationEvidence: seq<string>, facts: seq<ReflectionNote>,
                             hypotheses: seq<ReflectionNote>,
                             outcomes: seq<ReflectionNote>, allowed: seq<UniversalSkill>)

  datatype Claim = Claim(isFact: bool, claim: string, evidence: seq<string>)

  datatype MemoryUpdate = MemoryUpdate(claim: string, evidence: seq<string>)

  datatype PlannerOutput = PlannerOutput(claims: seq<Claim>, updates: seq<MemoryUpdate>, goal: string,
                                         skill: UniversalSkill,
                                         successConditions: seq<string>)

  datatype PlanError =
    | SkillsOutsideRuntime | RepeatedSkills | InvalidNote(index: nat) | InvalidContext | InvalidOutput
        | EvidenceOutsideContext | SkillUnavailable
    | EmptyGoal | EmptyEvidenceId | EmptyVisualHash
    | SkillNotInCapabilities | UnsupportedSkill | UnexpectedGrounding | MissingGrounding
        | GroundingRejected(reason: GroundingFailure)
    | IncompatibleTarget | InvalidTask

  const RUNTIME_SKILLS: seq<UniversalSkill> := [BasicReachTarget, ContinueDialogue, InteractVisibleObject]
  const FAILURE_CONDITIONS: seq<string> := ["death_screen", "timeout", "no_progress"]

  // ----- notes -----

  function StatusOr(status: RawStatus, default: NoteStatus): Option<NoteStatus> {
    match status
    case NoStatus => Some(default)
    case KnownStatus(s) => Some(s)
    case UnknownStatus => None
  }

  /** The notes one raw entry stands for, none or one; `None` if it fails validation. */
  function CoerceOne(raw: RawNote, default: NoteStatus): Option<seq<ReflectionNote>> {
    match raw
    case Typed(note) => Some([note])
    case OtherNote => Some([])
    case Text(text) =>
      var note := ReflectionNote(default, text, []);
      if note.Valid() then Some([note]) else None
    case Mapping(status, note, claim, evidence, extra) =>
      var s, text := StatusOr(status, default), if note.None? then claim else note;
      if s.None? || text.None? || extra then None
      else
        var built := ReflectionNote(s.value, text.value, evidence);
        if built.Valid() then Some([built]) else None
  }

  /** All notes in order, or the position of the first entry that fails. */
  function CoerceAll(raw: seq<RawNote>, default: NoteStatus): Result<seq<ReflectionNote>, PlanError>
    decreases |raw|
  {
    if raw == [] then Ok([])
    else
      var front, last := CoerceAll(raw[..|raw| - 1], default), CoerceOne(raw[|raw| - 1], default);
      if front.Err? then front
      else if last.None? then Err(InvalidNote(|raw| - 1))
      else Ok(front.value + last.value)
  }

  function Coerced(raw: RawNotes, default: NoteStatus): Result<seq<ReflectionNote>, PlanError> {
    if raw.NotASequence? then Ok([]) else CoerceAll(raw.notes, default)
  }

  /** Entry `i` fails and none before it does. */
  predicate FirstInvalid(raw: seq<RawNote>, default: NoteStatus, i: nat) {
    i < |raw| && CoerceOne(raw[i], default).None? && forall j :: 0 <= j < i ==> CoerceOne(raw[j], default).Some?
  }

  lemma {:induction false} FailsAtFirst(raw: seq<RawNote>, default: NoteStatus)
    ensures match CoerceAll(raw, default)
      case Ok(_) => forall j :: 0 <= j < |raw| ==> CoerceOne(raw[j], default).Some?
      case Err(error) => error.InvalidNote? && FirstInvalid(raw, default, error.index)
    decreases |raw|
  {
    hide CoerceOne;
    if raw != [] {
      FailsAtFirst(raw[..|raw| - 1], default);
    }
  }

  /** What was coerced before the first failure does not matter. */
  lemma {:induction false} FirstErrorDecides(raw: seq<RawNote>, default: NoteStatus, i: nat)
    requires i <= |raw| && CoerceAll(raw[..i], default).Err?
    ensures CoerceAll(raw, default) == CoerceAll(raw[..i], default)
    decreases |raw|
  {
    if i == |raw| {
      assert raw[..i] == raw;
    } else {
      assert raw[..|raw| - 1][..i] == raw[..i];
      FirstErrorDecides(raw[..|raw| - 1], default, i);
    }
  }

  /** `_coerce_reflection_notes`. */
  method CoerceReflectionNotes(raw: RawNotes, default: NoteStatus) returns (r: Result<seq<ReflectionNote>, PlanError>)
    ensures r == Coerced(raw, default)
    ensures r.Err? ==> raw.Notes? && r.error.InvalidNote? && FirstInvalid(raw.notes, default, r.error.index)
  {
    if raw.NotASequence? { return Ok([]); }
    var notes: seq<ReflectionNote> := [];
    for i := 0 to |raw.notes|
      invariant CoerceAll(raw.notes[..i], default) == Ok(notes)
    {
      var next := CoerceOne(raw.notes[i], default);
      assert raw.notes[..i + 1][..i] == raw.notes[..i];
      if next.None? {
        FirstErrorDecides(raw.notes, default, i + 1);
        FailsAtFirst(raw.notes, default);
        return Err(InvalidNote(i));
      }
      notes := notes + next.value;
    }
    assert raw.notes[..|raw.notes|] == raw.notes;
    return Ok(notes);
  }

  // ----- evidence ids -----

  /** The non-empty ids among `ids`. */
  function Ids(ids: seq<string>): (r: set<string>)
    ensures forall id :: id in r <==> id in ids && id != ""
  {
    set id | id in ids && id != ""
  }

  function NoteIds(notes: seq<ReflectionNote>): set<string> {
    set i, id | 0 <= i < |notes| && id in notes[i].evidence && id != "" :: id
  }

  function RawIds(raw: RawNote): set<string> {
    match raw
    case Typed(note) => Ids(note.evidence)
    case Mapping(_, _, _, evidence, _) => Ids(evidence)
    case _ => {}
  }

  function RawListIds(raw: seq<RawNote>): set<string> {
    if raw == [] then {} else RawListIds(raw[..|raw| - 1]) + RawIds(raw[|raw| - 1])
  }

  function RawNotesIds(raw: RawNotes): set<string> {
    if raw.NotASequence? then {} else RawListIds(raw.notes)
  }

  /** Every id any note of the memory carries. */
  function MemoryIds(m: Memory): set<string> {
    RawNotesIds(m.knownFacts) + RawNotesIds(m.hypotheses) + RawNotesIds(m.outcomes)
  }

  function SpriteIds(sprites: seq<Sprite>): seq<string> {
    if sprites == [] then []
    else
      (if sprites[0].evidenceId.Some? && sprites[0].evidenceId.value != "" then [sprites[0].evidenceId.value] else [])
          + SpriteIds(sprites[1..])
  }

  /** Every id of an observation or one of its sprites. */
  function ObservationIds(o: Observation): set<string> {
    Ids(o.evidence) + Ids(SpriteIds(o.sprites))
  }

  function ContextIds(c: Context): set<string> {
    Ids(c.observationEvidence) + NoteIds(c.facts) + NoteIds(c.hypotheses) + NoteIds(c.outcomes)
  }

  function ClaimEvidence(claims: seq<Claim>): seq<string> {
    if claims == [] then [] else ClaimEvidence(claims[..|claims| - 1]) + claims[|claims| - 1].evidence
  }

  function UpdateEvidence(updates: seq<MemoryUpdate>): seq<string> {
    if updates == [] then [] else UpdateEvidence(updates[..|updates| - 1]) + updates[|updates| - 1].evidence
  }

  function OutputIds(output: PlannerOutput): set<string> {
    Ids(ClaimEvidence(output.claims)) + Ids(UpdateEvidence(output.updates))
  }

  // ----- planning -----

  function BuildContext(o: Observation, m: Memory, allowed: seq<UniversalSkill>): Result<Context, PlanError> {
    var facts, hypotheses, outcomes :=
      Coerced(m.knownFacts, ObservedFact), Coerced(m.hypotheses, Hypothesis), Coerced(m.outcomes, ObservedFact);
    if facts.Err? then Err(facts.error)
    else if hypotheses.Err? then Err(hypotheses.error)
    else if outcomes.Err? then Err(outcomes.error)
    else if exists i :: 0 <= i < |facts.value| && facts.value[i].status == Hypothesis then Err(InvalidContext)
    else if exists i :: 0 <= i < |hypotheses.value| && hypotheses.value[i].status != Hypothesis then Err(InvalidContext)
    else Ok(Context(o.evidence, facts.value, hypotheses.value, outcomes.value, allowed))
  }

  predicate Distinct(skills: seq<UniversalSkill>) {
    forall i, j :: 0 <= i < j < |skills| ==> skills[i] != skills[j]
  }

  predicate OutputValid(output: PlannerOutput) {
    && (forall i :: 0 <= i < |output.claims| && output.claims[i].isFact ==> output.claims[i].evidence != [])
    && (forall i :: 0 <= i < |output.updates| ==> output.updates[i].evidence != [])
  }

  /** `Cortex.plan_next_goal`; `answer` is what the language model's text parses to, if it parses. */
  function PlanNextGoal(answer: Option<PlannerOutput>, o: Observation, m: Memory,
                        available: seq<UniversalSkill>): Result<PlannerOutput, PlanError> {
    if exists i :: 0 <= i < |available| && available[i] !in RUNTIME_SKILLS then Err(SkillsOutsideRuntime)
    else if !Distinct(available) then Err(RepeatedSkills)
    else
      var context := BuildContext(o, m, available);
      if context.Err? then Err(context.error)
      else if answer.None? || !OutputValid(answer.value) then Err(InvalidOutput)
      else if !(OutputIds(answer.value) <= ContextIds(context.value)) then Err(EvidenceOutsideContext)
      else if answer.value.skill !in context.value.allowed then Err(SkillUnavailable)
      else Ok(answer.value)
  }

  // ----- grounding -----

  datatype Requirement = Targetless | NeedsScreenPoint | NeedsVisibleObject

  function RequirementFor(skill: UniversalSkill): Option<Requirement> {
    match skill
    case ContinueDialogue => Some(Targetless)
    case BasicReachTarget => Some(NeedsScreenPoint)
    case InteractVisibleObject => Some(NeedsVisibleObject)
    case _ => None
  }

  datatype GroundingRequest = GroundingRequest(skill: UniversalSkill, goal: string, scope: seq<string>)

  datatype GroundingFailure =
    | NoVisibleCandidate | AmbiguousCandidates | InsufficientEvidence | InsufficientConfidence | UnsupportedTargetType
        | StaleEvidence

  datatype GroundingResult =
    | Grounded(target: GroundedTarget, evidence: seq<string>)
    | NotGrounded(reason: GroundingFailure, evidence: seq<string>)

  /** The digest part of a target id, an arbitrary function of what identifies the target. */
  type Digest = (Requirement, Sprite, seq<string>) -> string

  function NonEmpty(ids: seq<string>): (r: seq<string>)
    ensures forall id :: id in r <==> id in ids && id != ""
  {
    if ids == [] then []
    else
      assert ids == [ids[0]] + ids[1..];
      (if ids[0] != "" then [ids[0]] else []) + NonEmpty(ids[1..])
  }

  /** `None` for a targetless skill. */
  function BuildGroundingRequest(output: PlannerOutput, o: Observation): Result<Option<GroundingRequest>, PlanError> {
    if RequirementFor(output.skill) == Some(Targetless) then Ok(None)
    else if output.goal == "" then Err(EmptyGoal)
    else Ok(Some(GroundingRequest(output.skill, output.goal, Deduplicated(NonEmpty(o.evidence)))))
  }

  predicate Compatible(s: Sprite) {
    s.position.0 >= 0 && s.position.1 >= 0
  }

  predicate Confident(s: Sprite, minConfidence: real) {
    s.confidence.Some? && s.confidence.value >= minConfidence
  }

  function Select(sprites: seq<Sprite>, keep: Sprite -> bool): (r: seq<Sprite>)
    ensures forall s :: s in r ==> s in sprites && keep(s)
  {
    if sprites == [] then []
    else (if keep(sprites[0]) then [sprites[0]] else []) + Select(sprites[1..], keep)
  }

  function TargetFor(requirement: Requirement, s: Sprite, evidence: seq<string>, digest: Digest): GroundedTarget
    requires s.confidence.Some?
  {
    var id := "target-" + digest(requirement, s, evidence);
    if requirement == NeedsVisibleObject then VisibleObject(id, s.confidence.value, evidence, s.position, s.visualHash)
    else ScreenPoint(id, s.confidence.value, evidence, s.position)
  }

  /** `BoundedObservationGroundingService.ground`, before the result's own model checks its ids. */
  function GroundRaw(request: GroundingRequest, o: Observation, minConfidence: real, digest: Digest): GroundingResult {
    var requirement := RequirementFor(request.skill);
    var seen := Deduplicated(o.evidence + SpriteIds(o.sprites));
    var audit := Deduplicated(request.scope + seen);
    if requirement.None? || requirement == Some(Targetless) then NotGrounded(UnsupportedTargetType, audit)
    else if seen == [] || request.scope == [] then NotGrounded(InsufficientEvidence, audit)
    else if exists i :: 0 <= i < |request.scope| && request.scope[i] !in seen then NotGrounded(StaleEvidence, audit)
    else
      var compatible := Select(o.sprites, s => Compatible(s));
      var confident := Select(compatible, s => Confident(s, minConfidence));
      if compatible == [] then NotGrounded(NoVisibleCandidate, audit)
      else if confident == [] then NotGrounded(InsufficientConfidence, audit)
      else if |confident| > 1 then NotGrounded(AmbiguousCandidates, audit)
      else
        var s := confident[0];
        assert s in confident;
        var own := if s.evidenceId.Some? && s.evidenceId.value != "" then [s.evidenceId.value] else [];
        var evidence := Deduplicated(request.scope + seen + own);
        Grounded(TargetFor(requirement.value, s, evidence, digest), evidence)
  }

  /** A visible-object target whose sprite has an empty visual hash, which the target model refuses. */
  predicate EmptyHashTarget(g: GroundingResult) {
    g.Grounded? && g.target.VisibleObject? && g.target.visualHash == Some("")
  }

  /** The result and target models refuse an empty evidence id and an empty visual hash. */
  function Ground(request: GroundingRequest, o: Observation, minConfidence: real,
                  digest: Digest): Result<GroundingResult, PlanError> {
    var raw := GroundRaw(request, o, minConfidence, digest);
    if "" in raw.evidence then Err(EmptyEvidenceId)
    else if EmptyHashTarget(raw) then Err(EmptyVisualHash)
    else Ok(raw)
  }

  // ----- the task contract -----

  function TimeoutSteps(skill: UniversalSkill): nat {
    match skill
    case ContinueDialogue => 6
    case BasicReachTarget => 60
    case InteractVisibleObject => 12
    case SafeReachTarget => 90
    case InteractVisible => 60
  }

  function TargetRequirement(t: GroundedTarget): Requirement {
    if t.ScreenPoint? then NeedsScreenPoint else NeedsVisibleObject
  }

  function ValidatedTarget(skill: UniversalSkill, grounding: Option<GroundingResult>): Result<Option<GroundedTarget>,
      PlanError> {
    match RequirementFor(skill)
    case None => Err(UnsupportedSkill)
    case Some(Targetless) => if grounding.Some? then Err(UnexpectedGrounding) else Ok(None)
    case Some(requirement) =>
      if grounding.None? then Err(MissingGrounding)
      else if grounding.value.NotGrounded? then Err(GroundingRejected(grounding.value.reason))
      else if TargetRequirement(grounding.value.target) != requirement then Err(IncompatibleTarget)
      else Ok(Some(grounding.value.target))
  }

  function SourceEvidence(output: PlannerOutput, grounding: Option<GroundingResult>,
                          target: Option<GroundedTarget>): seq<string> {
    Deduplicated(((ClaimEvidence(output.claims) + UpdateEvidence(output.updates))
                  + (if target.Some? then target.value.evidence else []))
                 + (if grounding.Some? then grounding.value.evidence else []))
  }

  /** Appends the ids of one group that are not listed yet. */
  method AddMissing(ids: seq<string>, group: seq<string>, ghost seen: seq<string>) returns (r: seq<string>)
    requires ids == Deduplicated(seen)
    ensures r == Deduplicated(seen + group)
  {
    r := ids;
    assert seen + group[..0] == seen;
    for i := 0 to |group|
      invariant r == Deduplicated(seen + group[..i])
    {
      assert (seen + group[..i + 1])[..|seen| + i] == seen + group[..i];
      if group[i] !in r {
        r := r + [group[i]];
      }
    }
    assert group[..|group|] == group;
  }

  method AddClaims(claims: seq<Claim>) returns (ids: seq<string>)
    ensures ids == Deduplicated(ClaimEvidence(claims))
  {
    ids := [];
    for i := 0 to |claims|
      invariant ids == Deduplicated(ClaimEvidence(claims[..i]))
    {
      assert claims[..i + 1][..i] == claims[..i];
      ids := AddMissing(ids, claims[i].evidence, ClaimEvidence(claims[..i]));
    }
    assert claims[..|claims|] == claims;
  }

  method AddUpdates(ids: seq<string>, updates: seq<MemoryUpdate>, ghost seen: seq<string>) returns (r: seq<string>)
    requires ids == Deduplicated(seen)
    ensures r == Deduplicated(seen + UpdateEvidence(updates))
  {
    hide Deduplicated, UpdateEvidence;
    r := ids;
    NoUpdates(updates, seen);
    for i := 0 to |updates|
      invariant r == Deduplicated(seen + UpdateEvidence(updates[..i]))
    {
      UpdateNext(updates, i, seen);
      r := AddMissing(r, updates[i].evidence, seen + UpdateEvidence(updates[..i]));
    }
    assert updates[..|updates|] == updates;
  }

  lemma NoUpdates(updates: seq<MemoryUpdate>, seen: seq<string>)
    ensures seen + UpdateEvidence(updates[..0]) == seen
  {}

  lemma UpdateNext(updates: seq<MemoryUpdate>, i: nat, seen: seq<string>)
    requires i < |updates|
    ensures (seen + UpdateEvidence(updates[..i])) + updates[i].evidence == seen + UpdateEvidence(updates[..i + 1])
  {
    assert updates[..i + 1][..i] == updates[..i];
  }

  /** `_source_evidence_ids`. */
  method CollectSourceEvidence(output: PlannerOutput, grounding: Option<GroundingResult>,
                               target: Option<GroundedTarget>)
    returns (ids: seq<string>)
    ensures ids == SourceEvidence(output, grounding, target)
  {
    hide ClaimEvidence, UpdateEvidence, Deduplicated;
    var ofTarget := if target.Some? then target.value.evidence else [];
    ids := AddClaims(output.claims);
    ids := AddUpdates(ids, output.updates, ClaimEvidence(output.claims));
    ids := AddMissing(ids, ofTarget, ClaimEvidence(output.claims) + UpdateEvidence(output.updates));
    ids := AddMissing(ids, if grounding.Some? then grounding.value.evidence else [],
                      (ClaimEvidence(output.claims) + UpdateEvidence(output.updates)) + ofTarget);
  }

  /** `create_task_from_planner_output`, under the id the caller then gives the task. */
  function TaskFrom(output: PlannerOutput, grounding: Option<GroundingResult>, available: seq<UniversalSkill>,
                    taskId: string): Result<TaskSpec, PlanError> {
    if output.skill !in available then Err(SkillNotInCapabilities)
    else
      var target := ValidatedTarget(output.skill, grounding);
      if target.Err? then Err(target.error)
      else
        var spec := TaskSpec(taskId, output.skill, output.goal, target.value, output.successConditions,
            FAILURE_CONDITIONS,
                             TimeoutSteps(output.skill), SourceEvidence(output, grounding, target.value));
        if spec.Valid() then Ok(spec) else Err(InvalidTask)
  }

  method CreateTask(output: PlannerOutput, grounding: Option<GroundingResult>, available: seq<UniversalSkill>,
                    taskId: string)
    returns (r: Result<TaskSpec, PlanError>)
    ensures r == TaskFrom(output, grounding, available, taskId)
  {
    if output.skill !in available { return Err(SkillNotInCapabilities); }
    var target := ValidatedTarget(output.skill, grounding);
    if target.Err? { return Err(target.error); }
    var evidence := CollectSourceEvidence(output, grounding, target.value);
    var spec := TaskSpec(taskId, output.skill, output.goal, target.value, output.successConditions, FAILURE_CONDITIONS,
                         TimeoutSteps(output.skill), evidence);
    if !spec.Valid() { return Err(InvalidTask); }
    return Ok(spec);
  }

  // ----- where evidence comes from -----

  lemma NoteIdsJoin(a: seq<ReflectionNote>, b: seq<ReflectionNote>)
    ensures NoteIds(a + b) <= NoteIds(a) + NoteIds(b)
  {
    forall id | id in NoteIds(a + b) ensures id in NoteIds(a) + NoteIds(b) {
      var i :| 0 <= i < |a + b| && id in (a + b)[i].evidence && id != "";
      if i < |a| { assert id in a[i].evidence; } else { assert id in b[i - |a|].evidence; }
    }
  }

  lemma CoerceOneIds(raw: RawNote, default: NoteStatus)
    ensures CoerceOne(raw, default).Some? ==> NoteIds(CoerceOne(raw, default).value) <= RawIds(raw)
  {}

  lemma {:induction false} CoercedIds(raw: seq<RawNote>, default: NoteStatus)
    ensures CoerceAll(raw, default).Ok? ==> NoteIds(CoerceAll(raw, default).value) <= RawListIds(raw)
    decreases |raw|
  {
    if raw != [] && CoerceAll(raw, default).Ok? {
      var front := raw[..|raw| - 1];
      CoercedIds(front, default);
      CoerceOneIds(raw[|raw| - 1], default);
      NoteIdsJoin(CoerceAll(front, default).value, CoerceOne(raw[|raw| - 1], default).value);
      hide NoteIds, CoerceOne, RawIds;
    }
  }

  lemma NotesIds(raw: RawNotes, default: NoteStatus)
    ensures Coerced(raw, default).Ok? ==> NoteIds(Coerced(raw, default).value) <= RawNotesIds(raw)
  {
    if raw.Notes? { CoercedIds(raw.notes, default); }
  }

  /** A plan cites only what the memory's notes and the observation carry. */
  lemma PlanWithin(answer: Option<PlannerOutput>, o: Observation, m: Memory, available: seq<UniversalSkill>)
    requires PlanNextGoal(answer, o, m, available).Ok?
    ensures var output := PlanNextGoal(answer, o, m, available).value;
      && OutputIds(output) <= MemoryIds(m) + Ids(o.evidence) && output.skill in available
      && (output.skill == BasicReachTarget || output.skill == ContinueDialogue || output.skill == InteractVisibleObject)
  {
    hide NoteIds, RawNotesIds, Coerced, OutputIds;
    NotesIds(m.knownFacts, ObservedFact);
    NotesIds(m.hypotheses, Hypothesis);
    NotesIds(m.outcomes, ObservedFact);
    var skill := PlanNextGoal(answer, o, m, available).value.skill;
    var i :| 0 <= i < |available| && available[i] == skill;
  }

  /** What one entry of a note list stands for, and exactly when it is refused. */
  lemma CoercedOne(raw: RawNote, default: NoteStatus)
    ensures var r := CoerceOne(raw, default);
      match raw
      case Typed(note) => r == Some([note])
      case OtherNote => r == Some([])
      case Text(text) =>
        // a bare text has no evidence, which only a hypothesis may lack
        r == if default == Hypothesis then Some([ReflectionNote(Hypothesis, text, [])]) else None
      case Mapping(status, note, claim, evidence, extra) =>
        && (r.None? <==>
              || extra || status.UnknownStatus? || (note.None? && claim.None?)
              || (evidence == [] && status != KnownStatus(Hypothesis) && !(status.NoStatus? && default == Hypothesis)))
        && (r.Some? ==>
              && |r.value| == 1 && r.value[0].evidence == evidence
              && r.value[0].status == (if status.KnownStatus? then status.status else default)
              && (note.Some? ==> r.value[0].note == note.value)
              && (note.None? && claim.Some? ==> r.value[0].note == claim.value))
  {}

  lemma {:induction false} ClaimEvidenceIs(claims: seq<Claim>, id: string)
    ensures id in ClaimEvidence(claims) <==> exists k :: 0 <= k < |claims| && id in claims[k].evidence
  {
    if claims != [] {
      var n := |claims| - 1;
      ClaimEvidenceIs(claims[..n], id);
      assert claims == claims[..n] + [claims[n]];
    }
  }

  lemma {:induction false} UpdateEvidenceIs(updates: seq<MemoryUpdate>, id: string)
    ensures id in UpdateEvidence(updates) <==> exists k :: 0 <= k < |updates| && id in updates[k].evidence
  {
    if updates != [] {
      var n := |updates| - 1;
      UpdateEvidenceIs(updates[..n], id);
      assert updates == updates[..n] + [updates[n]];
    }
  }

  /** A claim or a memory update of the answer cites the id. */
  predicate AnswerCites(output: PlannerOutput, id: string) {
    || (exists k :: 0 <= k < |output.claims| && id in output.claims[k].evidence)
    || (exists k :: 0 <= k < |output.updates| && id in output.updates[k].evidence)
  }

  /** The observation or a note of the context carries the id. */
  predicate ContextCarries(c: Context, id: string) {
    || id in c.observationEvidence
    || (exists k :: 0 <= k < |c.facts| && id in c.facts[k].evidence)
    || (exists k :: 0 <= k < |c.hypotheses| && id in c.hypotheses[k].evidence)
    || (exists k :: 0 <= k < |c.outcomes| && id in c.outcomes[k].evidence)
  }

  lemma ScopeExactly(output: PlannerOutput, c: Context)
    ensures OutputIds(output) <= ContextIds(c)
      <==> forall id :: id != "" && AnswerCites(output, id) ==> ContextCarries(c, id)
  {
    forall id ensures id in OutputIds(output) <==> id != "" && AnswerCites(output, id) {
      ClaimEvidenceIs(output.claims, id);
      UpdateEvidenceIs(output.updates, id);
    }
    hide OutputIds, AnswerCites;
    forall id ensures id in ContextIds(c) <==> id != "" && ContextCarries(c, id) {
      CarriedExactly(c, id);
    }
    hide ContextIds, ContextCarries;
  }

  lemma CarriedExactly(c: Context, id: string)
    ensures id in ContextIds(c) <==> id != "" && ContextCarries(c, id)
  {}

  /** A planning context that is not refused: all notes coerce, and each list holds only what it is for. */
  predicate IsContext(c: Context, o: Observation, m: Memory, allowed: seq<UniversalSkill>) {
    && c.observationEvidence == o.evidence && c.allowed == allowed
    && Coerced(m.knownFacts, ObservedFact) == Ok(c.facts)
    && Coerced(m.hypotheses, Hypothesis) == Ok(c.hypotheses)
    && Coerced(m.outcomes, ObservedFact) == Ok(c.outcomes)
    && (forall k :: 0 <= k < |c.facts| ==> c.facts[k].status != Hypothesis)
    && (forall k :: 0 <= k < |c.hypotheses| ==> c.hypotheses[k].status == Hypothesis)
  }

  lemma ContextExactly(o: Observation, m: Memory, allowed: seq<UniversalSkill>, c: Context)
    ensures BuildContext(o, m, allowed) == Ok(c) <==> IsContext(c, o, m, allowed)
  {
    hide Coerced;
  }

  /** A plan is accepted exactly if the runtime has its skills, its context stands and the answer keeps to it. */
  lemma PlanExactly(answer: Option<PlannerOutput>, o: Observation, m: Memory, available: seq<UniversalSkill>,
                    output: PlannerOutput)
    ensures PlanNextGoal(answer, o, m, available) == Ok(output) <==>
      && answer == Some(output) && output.skill in available
      && (forall i :: 0 <= i < |available| ==>
            || available[i] == BasicReachTarget || available[i] == ContinueDialogue
            || available[i] == InteractVisibleObject)
      && (forall i, j :: 0 <= i < j < |available| ==> available[i] != available[j])
      && (forall k :: 0 <= k < |output.claims| && output.claims[k].isFact ==> output.claims[k].evidence != [])
      && (forall k :: 0 <= k < |output.updates| ==> output.updates[k].evidence != [])
      && exists c :: IsContext(c, o, m, available)
                     && forall id :: id != "" && AnswerCites(output, id) ==> ContextCarries(c, id)
  {
    hide IsContext, AnswerCites, ContextCarries, OutputIds, ContextIds;
    forall c ensures BuildContext(o, m, available) == Ok(c) <==> IsContext(c, o, m, available) {
      ContextExactly(o, m, available, c);
    }
    if BuildContext(o, m, available).Ok? {
      ScopeExactly(output, BuildContext(o, m, available).value);
      ContextAllows(o, m, available);
    }
    RuntimeSkills(available);
    hide BuildContext;
  }

  lemma ContextAllows(o: Observation, m: Memory, allowed: seq<UniversalSkill>)
    requires BuildContext(o, m, allowed).Ok?
    ensures BuildContext(o, m, allowed).value.allowed == allowed
  {}

  lemma RuntimeSkills(available: seq<UniversalSkill>)
    ensures (exists i :: 0 <= i < |available| && available[i] !in RUNTIME_SKILLS) <==>
      !(forall i :: 0 <= i < |available| ==>
          available[i] == BasicReachTarget || available[i] == ContinueDialogue || available[i] == InteractVisibleObject)
  {}

  /** A scope built from an observation is never stale for it. */
  lemma NeverStale(output: PlannerOutput, o: Observation, minConfidence: real, digest: Digest)
    requires BuildGroundingRequest(output, o).Ok? && BuildGroundingRequest(output, o).value.Some?
    ensures var g := GroundRaw(BuildGroundingRequest(output, o).value.value, o, minConfidence, digest);
      g.NotGrounded? ==> g.reason != StaleEvidence
  {
    hide Select, SpriteIds, RequirementFor, TargetFor;
  }

  /** A grounding cites only the observation it was made from, and its target cites the same ids. */
  lemma GroundingWithin(output: PlannerOutput, o: Observation, minConfidence: real, digest: Digest)
    requires BuildGroundingRequest(output, o).Ok? && BuildGroundingRequest(output, o).value.Some?
    ensures var g := GroundRaw(BuildGroundingRequest(output, o).value.value, o, minConfidence, digest);
      Ids(g.evidence) == ObservationIds(o) && (g.Grounded? ==> g.target.evidence == g.evidence)
  {
    hide *;
    var request := BuildGroundingRequest(output, o).value.value;
    ScopeIs(output, o);
    var own := RawEvidence(request, o, minConfidence, digest);
    CitedIds(o, own);
  }

  lemma ScopeIs(output: PlannerOutput, o: Observation)
    requires BuildGroundingRequest(output, o).Ok? && BuildGroundingRequest(output, o).value.Some?
    ensures BuildGroundingRequest(output, o).value.value.scope == Deduplicated(NonEmpty(o.evidence))
    ensures BuildGroundingRequest(output, o).value.value.skill == output.skill
  {}

  /** A grounding lists the request's scope, everything the observation shows and, if it chose one, its sprite's id. */
  lemma RawEvidence(request: GroundingRequest, o: Observation, minConfidence: real, digest: Digest)
      returns (own: seq<string>)
    ensures forall id :: id in own ==> id in SpriteIds(o.sprites)
    ensures var g := GroundRaw(request, o, minConfidence, digest);
      var seen := Deduplicated(o.evidence + SpriteIds(o.sprites));
      && (g.evidence == Deduplicated(request.scope + seen) || g.evidence == Deduplicated(request.scope + seen + own))
      && (g.Grounded? ==> g.target.evidence == g.evidence)
  {
    hide GroundRaw, Select, SpriteIds, Deduplicated;
    own := [];
    if GroundRaw(request, o, minConfidence, digest).Grounded? {
      OwnSpriteId(o.sprites, minConfidence);
      RawGrounded(request, o, minConfidence, digest);
      own := OwnId(Chosen(o, minConfidence)[0]);
    } else {
      RawNotGrounded(request, o, minConfidence, digest);
    }
  }

  ghost function Chosen(o: Observation, minConfidence: real): seq<Sprite> {
    Select(Select(o.sprites, s => Compatible(s)), s => Confident(s, minConfidence))
  }

  ghost function OwnId(s: Sprite): seq<string> {
    if s.evidenceId.Some? && s.evidenceId.value != "" then [s.evidenceId.value] else []
  }

  lemma RawGrounded(request: GroundingRequest, o: Observation, minConfidence: real, digest: Digest)
    requires GroundRaw(request, o, minConfidence, digest).Grounded?
    ensures var g := GroundRaw(request, o, minConfidence, digest);
      && |Chosen(o, minConfidence)| == 1 && g.target.evidence == g.evidence
      && g.evidence == Deduplicated(request.scope + Deduplicated(o.evidence + SpriteIds(o.sprites))
                                    + OwnId(Chosen(o, minConfidence)[0]))
  {
    hide Select, SpriteIds, RequirementFor, Compatible, Confident, Deduplicated;
  }

  lemma RawNotGrounded(request: GroundingRequest, o: Observation, minConfidence: real, digest: Digest)
    requires GroundRaw(request, o, minConfidence, digest).NotGrounded?
    ensures GroundRaw(request, o, minConfidence, digest).evidence ==
        Deduplicated(request.scope + Deduplicated(o.evidence + SpriteIds(o.sprites)))
  {
    hide Select, SpriteIds, RequirementFor, Compatible, Confident, Deduplicated;
  }

  lemma CitedIds(o: Observation, own: seq<string>)
    requires forall id :: id in own ==> id in SpriteIds(o.sprites)
    ensures var scope, seen := Deduplicated(NonEmpty(o.evidence)), Deduplicated(o.evidence + SpriteIds(o.sprites));
      && Ids(Deduplicated(scope + seen)) == ObservationIds(o)
      && Ids(Deduplicated(scope + seen + own)) == ObservationIds(o)
  {
    hide SpriteIds;
    var scope, seen := Deduplicated(NonEmpty(o.evidence)), Deduplicated(o.evidence + SpriteIds(o.sprites));
    forall id ensures id in Deduplicated(scope + seen + own) <==> id in o.evidence + SpriteIds(o.sprites) {}
    forall id ensures id in Deduplicated(scope + seen) <==> id in o.evidence + SpriteIds(o.sprites) {}
    hide Deduplicated, NonEmpty;
  }

  lemma {:induction false} SpriteIdsNonEmpty(sprites: seq<Sprite>)
    ensures "" !in SpriteIds(sprites)
  {
    if sprites != [] { SpriteIdsNonEmpty(sprites[1..]); }
  }

  /** A chosen sprite's id is among the ids of all sprites. */
  lemma OwnSpriteId(sprites: seq<Sprite>, minConfidence: real)
    ensures var chosen := Select(Select(sprites, s => Compatible(s)), s => Confident(s, minConfidence));
      forall s :: s in chosen && s.evidenceId.Some? && s.evidenceId.value != ""
          ==> s.evidenceId.value in SpriteIds(sprites)
  {
    forall s | s in sprites && s.evidenceId.Some? && s.evidenceId.value != ""
      ensures s.evidenceId.value in SpriteIds(sprites)
    {
      SpriteIdListed(sprites, s);
    }
  }

  lemma {:induction false} SpriteIdListed(sprites: seq<Sprite>, s: Sprite)
    requires s in sprites && s.evidenceId.Some? && s.evidenceId.value != ""
    ensures s.evidenceId.value in SpriteIds(sprites)
  {
    if sprites[0] != s {
      assert s in sprites[1..];
      SpriteIdListed(sprites[1..], s);
    }
  }

  /** What a task cites comes from the plan or its grounding. */
  lemma TaskWithin(output: PlannerOutput, grounding: Option<GroundingResult>, available: seq<UniversalSkill>,
                   taskId: string)
    requires TaskFrom(output, grounding, available, taskId).Ok?
    requires grounding.Some? && grounding.value.Grounded?
      ==> grounding.value.target.evidence == grounding.value.evidence
    ensures var spec := TaskFrom(output, grounding, available, taskId).value;
      && spec.Valid() && spec.taskId == taskId && spec.skill == output.skill && spec.goal == output.goal
      && (spec.target.None? <==> spec.skill == ContinueDialogue)
      && (spec.target.Some? ==> RequirementFor(spec.skill) == Some(TargetRequirement(spec.target.value)))
      && Ids(spec.sourceEvidence) == OutputIds(output) + (if grounding.Some? then Ids(grounding.value.evidence) else {})
      && (forall i, j :: 0 <= i < j < |spec.sourceEvidence| ==> spec.sourceEvidence[i] != spec.sourceEvidence[j])
      && spec.successConditions == output.successConditions
      && spec.failureConditions == ["death_screen", "timeout", "no_progress"]
      && spec.timeoutSteps == (if spec.skill == ContinueDialogue then 6 else if spec.skill == BasicReachTarget then 60
                               else 12)
      && (spec.target.Some? ==> Ids(spec.target.value.evidence) <= Ids(spec.sourceEvidence))
  {}

  /** A task is made exactly for an available skill with the target it needs and conditions that are not empty. */
  lemma TaskExactly(output: PlannerOutput, grounding: Option<GroundingResult>, available: seq<UniversalSkill>,
                    taskId: string)
    ensures TaskFrom(output, grounding, available, taskId).Ok? <==>
      && output.skill in available && "" !in output.successConditions
      && match output.skill {
         case ContinueDialogue => grounding.None?
         case BasicReachTarget =>
           grounding.Some? && grounding.value.Grounded? && grounding.value.target.ScreenPoint?
         case InteractVisibleObject =>
           grounding.Some? && grounding.value.Grounded? && grounding.value.target.VisibleObject?
         case _ => false
         }
    ensures TaskFrom(output, grounding, available, taskId).Ok? && grounding.Some? ==>
      TaskFrom(output, grounding, available, taskId).value.target == Some(grounding.value.target)
  {
    hide SourceEvidence;
    assert "" !in output.successConditions
        <==> forall i :: 0 <= i < |output.successConditions| ==> output.successConditions[i] != "";
  }

  // ----- grounding is unambiguous -----

  lemma {:induction false} SelectTwice(sprites: seq<Sprite>, minConfidence: real)
    ensures Select(Select(sprites, s => Compatible(s)), s => Confident(s, minConfidence))
      == Select(sprites, s => Compatible(s) && Confident(s, minConfidence))
  {
    if sprites != [] {
      SelectTwice(sprites[1..], minConfidence);
      var rest := Select(sprites[1..], s => Compatible(s));
      if Compatible(sprites[0]) {
        assert ([sprites[0]] + rest)[1..] == rest;
      } else {
        assert [] + rest == rest;
      }
    }
  }

  predicate OnScreen(s: Sprite) {
    0 <= s.position.0 && 0 <= s.position.1
  }

  /** On screen, and confident enough. */
  predicate Visible(s: Sprite, minConfidence: real) {
    OnScreen(s) && s.confidence.Some? && minConfidence <= s.confidence.value
  }

  function VisibleCount(sprites: seq<Sprite>, minConfidence: real): nat {
    if sprites == [] then 0
    else (if Visible(sprites[0], minConfidence) then 1 else 0) + VisibleCount(sprites[1..], minConfidence)
  }

  lemma {:induction false} SelectCounts(sprites: seq<Sprite>, minConfidence: real)
    ensures |Select(sprites, s => Compatible(s) && Confident(s, minConfidence))| == VisibleCount(sprites, minConfidence)
  {
    if sprites != [] { SelectCounts(sprites[1..], minConfidence); }
  }

  lemma RawGroundedExactly(output: PlannerOutput, o: Observation, minConfidence: real, digest: Digest)
    requires BuildGroundingRequest(output, o).Ok? && BuildGroundingRequest(output, o).value.Some?
    ensures GroundRaw(BuildGroundingRequest(output, o).value.value, o, minConfidence, digest).Grounded? <==>
      RequirementFor(output.skill).Some? && Ids(o.evidence) != {} && VisibleCount(o.sprites, minConfidence) == 1
  {
    SelectTwice(o.sprites, minConfidence);
    SelectCounts(o.sprites, minConfidence);
    SelectEmpty(o.sprites, minConfidence);
    ScopeHasIds(o);
    ScopeSeen(o);
    hide Select, VisibleCount, Deduplicated, NonEmpty, SpriteIds, RequirementFor, TargetFor, Ids;
  }

  /** The scope of a request is part of what the observation shows, and empty only without evidence. */
  lemma ScopeSeen(o: Observation)
    ensures var scope, seen := Deduplicated(NonEmpty(o.evidence)), Deduplicated(o.evidence + SpriteIds(o.sprites));
      && (forall i :: 0 <= i < |scope| ==> scope[i] in seen)
      && (Ids(o.evidence) != {} ==> scope != [] && seen != [])
  {
    var scope := Deduplicated(NonEmpty(o.evidence));
    forall i | 0 <= i < |scope| ensures scope[i] in Deduplicated(o.evidence + SpriteIds(o.sprites)) {
      assert scope[i] in NonEmpty(o.evidence);
    }
    if Ids(o.evidence) != {} {
      var id :| id in Ids(o.evidence);
      assert id in scope && id in o.evidence + SpriteIds(o.sprites);
    }
  }

  /** Some sprite on screen, confident enough, has an empty visual hash. */
  predicate ShowsEmptyHash(sprites: seq<Sprite>, minConfidence: real) {
    exists s :: s in sprites && Visible(s, minConfidence) && s.visualHash == Some("")
  }

  /** The one visible sprite has an empty visual hash, and the skill needs a visible object. */
  predicate SoleHashEmpty(output: PlannerOutput, o: Observation, minConfidence: real) {
    && RequirementFor(output.skill) == Some(NeedsVisibleObject) && Ids(o.evidence) != {}
    && VisibleCount(o.sprites, minConfidence) == 1 && ShowsEmptyHash(o.sprites, minConfidence)
  }

  lemma {:induction false} SelectKeeps(sprites: seq<Sprite>, keep: Sprite -> bool, s: Sprite)
    requires s in sprites && keep(s)
    ensures s in Select(sprites, keep)
  {
    if sprites[0] != s {
      assert s in sprites[1..];
      SelectKeeps(sprites[1..], keep, s);
    }
  }

  /** The one selected sprite has an empty hash exactly when some visible sprite has. */
  lemma OnlySelected(sprites: seq<Sprite>, minConfidence: real, chosen: seq<Sprite>)
    requires chosen == Select(sprites, s => Compatible(s) && Confident(s, minConfidence)) && |chosen| == 1
    ensures chosen[0].visualHash == Some("") <==> ShowsEmptyHash(sprites, minConfidence)
  {
    assert chosen[0] in chosen;
    if ShowsEmptyHash(sprites, minConfidence) {
      var s :| s in sprites && Visible(s, minConfidence) && s.visualHash == Some("");
      SelectKeeps(sprites, s => Compatible(s) && Confident(s, minConfidence), s);
    }
  }

  /** A grounded target is the one selected sprite. */
  lemma TargetIsChosen(request: GroundingRequest, o: Observation, minConfidence: real, digest: Digest)
    requires GroundRaw(request, o, minConfidence, digest).Grounded?
    ensures var chosen := Select(Select(o.sprites, s => Compatible(s)), s => Confident(s, minConfidence));
      && |chosen| == 1
      && (EmptyHashTarget(GroundRaw(request, o, minConfidence, digest)) <==>
            RequirementFor(request.skill) == Some(NeedsVisibleObject) && chosen[0].visualHash == Some(""))
  {
    hide Select, Deduplicated, SpriteIds;
  }

  lemma EmptyHashExactly(output: PlannerOutput, o: Observation, minConfidence: real, digest: Digest)
    requires BuildGroundingRequest(output, o).Ok? && BuildGroundingRequest(output, o).value.Some?
    ensures EmptyHashTarget(GroundRaw(BuildGroundingRequest(output, o).value.value, o, minConfidence, digest))
      <==> SoleHashEmpty(output, o, minConfidence)
  {
    hide GroundRaw, Select, VisibleCount, ShowsEmptyHash, Ids;
    var request := BuildGroundingRequest(output, o).value.value;
    RawGroundedExactly(output, o, minConfidence, digest);
    if GroundRaw(request, o, minConfidence, digest).Grounded? {
      TargetIsChosen(request, o, minConfidence, digest);
      SelectTwice(o.sprites, minConfidence);
      OnlySelected(o.sprites, minConfidence, Select(o.sprites, s => Compatible(s) && Confident(s, minConfidence)));
    }
  }

  lemma EmptyIdExactly(output: PlannerOutput, o: Observation, minConfidence: real, digest: Digest)
    requires BuildGroundingRequest(output, o).Ok? && BuildGroundingRequest(output, o).value.Some?
    ensures "" in GroundRaw(BuildGroundingRequest(output, o).value.value, o, minConfidence, digest).evidence
      <==> "" in o.evidence
  {
    SpriteIdsNonEmpty(o.sprites);
    hide Select, SpriteIds, RequirementFor, Compatible, Confident, TargetFor;
  }

  /**
   * A grounding attempt raises exactly for an empty evidence id, or for the empty hash of the one sprite
   * it would choose.
   */
  lemma GroundingRefusedExactly(output: PlannerOutput, o: Observation, minConfidence: real, digest: Digest)
    requires BuildGroundingRequest(output, o).Ok? && BuildGroundingRequest(output, o).value.Some?
    ensures Ground(BuildGroundingRequest(output, o).value.value, o, minConfidence, digest).Err?
      <==> "" in o.evidence || SoleHashEmpty(output, o, minConfidence)
  {
    hide GroundRaw, EmptyHashTarget, SoleHashEmpty, BuildGroundingRequest;
    EmptyIdExactly(output, o, minConfidence, digest);
    EmptyHashExactly(output, o, minConfidence, digest);
  }

  /**
   * A skill that needs a target is grounded exactly when there is evidence, one sprite is confident enough, and
   * neither check refuses it.
   */
  lemma GroundedExactly(output: PlannerOutput, o: Observation, minConfidence: real, digest: Digest)
    requires BuildGroundingRequest(output, o).Ok? && BuildGroundingRequest(output, o).value.Some?
    ensures var r := Ground(BuildGroundingRequest(output, o).value.value, o, minConfidence, digest);
      r.Ok? && r.value.Grounded? <==>
        && RequirementFor(output.skill).Some? && Ids(o.evidence) != {} && VisibleCount(o.sprites, minConfidence) == 1
        && "" !in o.evidence && !SoleHashEmpty(output, o, minConfidence)
  {
    hide GroundRaw, EmptyHashTarget, SoleHashEmpty, BuildGroundingRequest, VisibleCount, Ids, RequirementFor;
    RawGroundedExactly(output, o, minConfidence, digest);
    EmptyIdExactly(output, o, minConfidence, digest);
    EmptyHashExactly(output, o, minConfidence, digest);
  }

  /** A grounded target is the one visible sprite: where it is, how sure it is, and for an object what it looks like. */
  lemma TargetIsVisible(output: PlannerOutput, o: Observation, minConfidence: real, digest: Digest) returns (s: Sprite)
    requires BuildGroundingRequest(output, o).Ok? && BuildGroundingRequest(output, o).value.Some?
    requires GroundRaw(BuildGroundingRequest(output, o).value.value, o, minConfidence, digest).Grounded?
    ensures var target := GroundRaw(BuildGroundingRequest(output, o).value.value, o, minConfidence, digest).target;
      && s in o.sprites && Visible(s, minConfidence)
      && target.position == s.position && target.confidence == s.confidence.value
      && (target.VisibleObject? <==> output.skill == InteractVisibleObject)
      && (target.VisibleObject? ==> target.visualHash == s.visualHash)
      && target.id == "target-" + digest(TargetRequirement(target), s, target.evidence)
  {
    var chosen := Select(Select(o.sprites, s => Compatible(s)), s => Confident(s, minConfidence));
    s := chosen[0];
    assert s in chosen;
    hide Select, Deduplicated, SpriteIds, NonEmpty;
  }

  /** Why nothing was grounded, given that the skill needs a target. */
  lemma NotGroundedFor(output: PlannerOutput, o: Observation, minConfidence: real, digest: Digest)
    requires BuildGroundingRequest(output, o).Ok? && BuildGroundingRequest(output, o).value.Some?
    requires GroundRaw(BuildGroundingRequest(output, o).value.value, o, minConfidence, digest).NotGrounded?
    ensures
      var reason := GroundRaw(BuildGroundingRequest(output, o).value.value, o, minConfidence, digest).reason;
      var needsTarget := output.skill == BasicReachTarget || output.skill == InteractVisibleObject;
      var count := VisibleCount(o.sprites, minConfidence);
      reason == if !needsTarget then UnsupportedTargetType
                else if Ids(o.evidence) == {} then InsufficientEvidence
                else if count > 1 then AmbiguousCandidates
                else if exists s :: s in o.sprites && OnScreen(s) then InsufficientConfidence
                else NoVisibleCandidate
  {
    SelectTwice(o.sprites, minConfidence);
    SelectCounts(o.sprites, minConfidence);
    SelectEmpty(o.sprites, minConfidence);
    ScopeHasIds(o);
    ScopeSeen(o);
    OnScreenSelected(o.sprites);
    hide Select, VisibleCount, Deduplicated, NonEmpty, SpriteIds, TargetFor, Ids;
  }

  lemma OnScreenSelected(sprites: seq<Sprite>)
    ensures Select(sprites, s => Compatible(s)) != [] <==> exists s :: s in sprites && OnScreen(s)
  {
    var compatible := Select(sprites, s => Compatible(s));
    if s :| s in sprites && OnScreen(s) { SelectKeeps(sprites, s => Compatible(s), s); }
    if compatible != [] { assert compatible[0] in compatible; }
  }

  /** A plan for a visible object, and one sprite in full confidence. */
  const OBJECT_PLAN: PlannerOutput := PlannerOutput([], [], "open the chest", InteractVisibleObject, [])

  function OneSprite(evidence: seq<string>, visualHash: Option<string>): Observation {
    Observation(evidence, [Sprite((3, 4), visualHash, Some(1.0), None)], "map", false, None)
  }

  lemma OneSpriteVisible(evidence: seq<string>, visualHash: Option<string>)
    ensures VisibleCount(OneSprite(evidence, visualHash).sprites, 0.5) == 1
    ensures ShowsEmptyHash(OneSprite(evidence, visualHash).sprites, 0.5) <==> visualHash == Some("")
  {
    var sprites := OneSprite(evidence, visualHash).sprites;
    assert sprites[1..] == [];
    assert sprites[0] in sprites;
  }

  /** An empty id beside a good one. */
  lemma EmptyIdRefused(digest: Digest)
    ensures var o := OneSprite(["", "e1"], None);
      && BuildGroundingRequest(OBJECT_PLAN, o).Ok? && BuildGroundingRequest(OBJECT_PLAN, o).value.Some?
      && Ground(BuildGroundingRequest(OBJECT_PLAN, o).value.value, o, 0.5, digest).Err?
  {
    hide Ground;
    var o := OneSprite(["", "e1"], None);
    GroundingRefusedExactly(OBJECT_PLAN, o, 0.5, digest);
    assert "" in o.evidence;
  }

  /** No empty id, but an empty visual hash. */
  lemma EmptyHashRefused(digest: Digest)
    ensures var o := OneSprite(["e1"], Some(""));
      && "" !in o.evidence
      && BuildGroundingRequest(OBJECT_PLAN, o).Ok? && BuildGroundingRequest(OBJECT_PLAN, o).value.Some?
      && Ground(BuildGroundingRequest(OBJECT_PLAN, o).value.value, o, 0.5, digest).Err?
  {
    hide Ground, VisibleCount, ShowsEmptyHash;
    var o := OneSprite(["e1"], Some(""));
    OneSpriteVisible(["e1"], Some(""));
    assert "e1" in o.evidence && "e1" in Ids(o.evidence);
    GroundingRefusedExactly(OBJECT_PLAN, o, 0.5, digest);
  }

  lemma ScopeHasIds(o: Observation)
    ensures Deduplicated(NonEmpty(o.evidence)) != [] ==> Ids(o.evidence) != {}
  {
    var scope := Deduplicated(NonEmpty(o.evidence));
    if scope != [] {
      assert scope[0] in NonEmpty(o.evidence);
      assert scope[0] in Ids(o.evidence);
    }
  }

  lemma SelectEmpty(sprites: seq<Sprite>, minConfidence: real)
    ensures Select(sprites, s => Compatible(s)) == []
      ==> Select(Select(sprites, s => Compatible(s)), s => Confident(s, minConfidence)) == []
  {}
}
