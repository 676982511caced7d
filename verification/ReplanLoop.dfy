/**
 * The Manager hierarchy above the skill runner: submission, one hierarchical step, and
 * the bounded replan loop whose only feedback into planning is verified outcomes.
 */
module ReplanLoop {
  import opened Prelude
  import opened Verdicts
  import opened Observations
  import opened Tasks
  import opened Planning
  import S = Scheduler
  import Skills = SkillRunner
  import Guard = InputExecutor

  /** Caller-owned identities of one attempt. */
  datatype StepIds = StepIds(taskId: string, completionEventId: string)

  /** What the language model and the skill catalog answer in one step. */
  datatype Script = Script(answer: Option<PlannerOutput>, skill: Skills.Skill)

  datatype Policy = Policy(available: seq<UniversalSkill>, minConfidence: real, digest: Digest)

  datatype StepError =
    | NotIdle | SourceExhausted | PlanRejected(error: PlanError) | NotStarted
    | NoRunningTask | SkillMismatch | NoVerifier | TaskMismatch | ResultMismatch
        | SchedulerRefused(cause: S.SchedulerError) | InvalidEvent

  datatype StepRecord = StepRecord(ids: StepIds, observation: Observation, output: PlannerOutput,
                                   grounding: Option<GroundingResult>,
                                   spec: TaskSpec, run: Skills.RunResult, completion: Option<S.Completion>)

  /** What a step enqueued, and what it was derived from. */
  datatype Submission = Submission(ids: StepIds, observation: Observation, output: PlannerOutput,
                                   grounding: Option<GroundingResult>,
                                   spec: TaskSpec)

  datatype ReplanError = NotVerified | NotTerminal | NoEvidence | OutcomesNotASequence

  datatype LoopError = NoSteps | StepFailed(error: StepError) | MissingAuthority | ReplanFailed(cause: ReplanError)

  datatype StopReason = BudgetExhausted | StoppedByManager | Nonterminal

  datatype LoopResult = LoopResult(steps: seq<StepRecord>, memory: Memory, reason: StopReason)

  // ----- feedback into planning -----

  function OutcomeNote(skill: UniversalSkill, verdict: Verdict): RawNote
    requires verdict.Terminal()
  {
    var text :=
      if verdict.Success? then "Skill " + skill.Text() + " completed with verifier status success."
      else "Skill " + skill.Text() + " completed with verifier failure " + verdict.kind.Text() + ".";
    Mapping(KnownStatus(ObservedFact), Some(text), None, verdict.evidence, false)
  }

  /** `build_replan_memory_summary`. */
  function BuildReplanMemory(m: Memory, completion: S.Completion): Result<Memory, ReplanError> {
    if completion.verdict.None? then Err(NotVerified)
    else if !completion.verdict.value.Terminal() then Err(NotTerminal)
    else if completion.verdict.value.evidence == [] then Err(NoEvidence)
    else if m.outcomes.NotASequence? then Err(OutcomesNotASequence)
    else Ok(m.(outcomes := Notes(m.outcomes.notes + [OutcomeNote(completion.spec.skill, completion.verdict.value)])))
  }

  /** Closed by a verdict, so that it leaves a note. */
  predicate Verified(record: StepRecord) {
    record.completion.Some? && record.completion.value.verdict.Some? && record.completion.value.verdict.value.Terminal()
  }

  function NoteOf(record: StepRecord): seq<RawNote> {
    if Verified(record) then [OutcomeNote(record.spec.skill, record.completion.value.verdict.value)] else []
  }

  function NotesOf(steps: seq<StepRecord>): seq<RawNote> {
    if steps == [] then [] else NotesOf(steps[..|steps| - 1]) + NoteOf(steps[|steps| - 1])
  }

  /** The initial memory and one note per verifier-closed step, in order; nothing else changes. */
  function MemoryAfter(m: Memory, steps: seq<StepRecord>): Memory {
    if NotesOf(steps) == [] || m.outcomes.NotASequence? then m
        else m.(outcomes := Notes(m.outcomes.notes + NotesOf(steps)))
  }

  /** A remembered fact that names the skill and exactly this outcome, with the verdict's evidence. */
  predicate Reports(note: RawNote, skill: UniversalSkill, verdict: Verdict) {
    && note.Mapping? && note.status == KnownStatus(ObservedFact) && note.claim.None? && !note.extra
    && note.evidence == verdict.evidence
    && match verdict
       case Success(_) => note.note == Some("Skill " + skill.Text() + " completed with verifier status success.")
       case Failure(kind, _) =>
         note.note == Some("Skill " + skill.Text() + " completed with verifier failure " + kind.Text() + ".")
       case _ => false
  }

  lemma NoteReports(skill: UniversalSkill, verdict: Verdict)
    requires verdict.Terminal()
    ensures Reports(OutcomeNote(skill, verdict), skill, verdict)
  {}

  /** Two reports on one skill say the same only about the same outcome. */
  lemma ReportsTellApart(a: RawNote, b: RawNote, skill: UniversalSkill, v: Verdict, w: Verdict)
    requires Reports(a, skill, v) && Reports(b, skill, w) && a.note == b.note
    ensures v.Success? <==> w.Success?
    ensures v.Failure? && w.Failure? ==> v.kind == w.kind
  {
    var head := "Skill " + skill.Text();
    if v.Success? != w.Success? {
      var failed := if v.Failure? then v.kind.Text() else w.kind.Text();
      OutcomesDiffer(head, failed);
    } else if v.Failure? {
      SameEnding(head + " completed with verifier failure ", v.kind.Text(), w.kind.Text(), ".");
      KindsTellApart(v.kind, w.kind);
    }
  }

  lemma OutcomesDiffer(head: string, kind: string)
    ensures head + " completed with verifier status success." != head + " completed with verifier failure " + kind + "."
  {
    var a := head + " completed with verifier status success.";
    var b := head + " completed with verifier failure " + kind + ".";
    assert a[|head| + 25] == 's' && b[|head| + 25] == 'f';
  }

  lemma SameEnding(head: string, a: string, b: string, tail: string)
    requires head + a + tail == head + b + tail
    ensures a == b
  {
    var left, right := head + a + tail, head + b + tail;
    assert |a| == |b|;
    assert left[|head|..|head| + |a|] == a && right[|head|..|head| + |b|] == b;
  }

  lemma KindsTellApart(a: FailureKind, b: FailureKind)
    requires a.Text() == b.Text()
    ensures a == b
  {}

  /** The initial notes, then one report for each verified step in order; nothing else changes. */
  ghost predicate Remembers(m: Memory, steps: seq<StepRecord>, memory: Memory) {
    && memory.knownFacts == m.knownFacts && memory.hypotheses == m.hypotheses
    && (m.outcomes.NotASequence? ==> memory == m)
    && (m.outcomes.Notes? ==>
          && memory.outcomes.Notes? && m.outcomes.notes <= memory.outcomes.notes
          && var first, notes := |m.outcomes.notes|, memory.outcomes.notes;
             && |notes| == first + |steps| - (if steps != [] && !Verified(steps[|steps| - 1]) then 1 else 0)
             && forall i :: 0 <= i < |steps| && Verified(steps[i]) ==> ReportsStep(notes[first + i], steps[i]))
  }

  predicate ReportsStep(note: RawNote, record: StepRecord) {
    Verified(record) && Reports(note, record.spec.skill, record.completion.value.verdict.value)
  }

  lemma {:induction false} NotesReport(steps: seq<StepRecord>)
    requires forall i :: 0 <= i < |steps| - 1 ==> Verified(steps[i])
    ensures |NotesOf(steps)| == |steps| - (if steps != [] && !Verified(steps[|steps| - 1]) then 1 else 0)
    ensures forall i :: 0 <= i < |steps| && Verified(steps[i]) ==> ReportsStep(NotesOf(steps)[i], steps[i])
  {
    hide Verified, ReportsStep, NoteOf;
    if steps != [] {
      var front, last := steps[..|steps| - 1], steps[|steps| - 1];
      NotesReport(front);
      assert front != [] ==> Verified(front[|front| - 1]);
      NoteIs(last);
    }
  }

  lemma NoteIs(record: StepRecord)
    ensures |NoteOf(record)| == if Verified(record) then 1 else 0
    ensures Verified(record) ==> ReportsStep(NoteOf(record)[0], record)
  {
    if Verified(record) { NoteReports(record.spec.skill, record.completion.value.verdict.value); }
    hide OutcomeNote, Reports;
  }

  /** What a run remembers, and so what the next planning call is told, is what its verified steps came to. */
  lemma MemoryReports(m: Memory, steps: seq<StepRecord>)
    requires forall i :: 0 <= i < |steps| - 1 ==> Verified(steps[i])
    ensures Remembers(m, steps, MemoryAfter(m, steps))
  {
    NotesReport(steps);
    hide ReportsStep, NotesOf, Verified;
  }

  // ----- one step -----

  function GroundFor(output: PlannerOutput, o: Observation, p: Policy): Result<Option<GroundingResult>, PlanError> {
    var request := BuildGroundingRequest(output, o);
    if request.Err? then Err(request.error)
    else if request.value.None? then Ok(None)
    else
      var ground := Ground(request.value.value, o, p.minConfidence, p.digest);
      if ground.Err? then Err(ground.error) else Ok(Some(ground.value))
  }

  /** Planning, grounding and the task contract in turn; the first that refuses decides. */
  function PlannedFrom(answer: Option<PlannerOutput>, o: Observation, m: Memory, p: Policy, taskId: string)
    : Result<(PlannerOutput, Option<GroundingResult>, TaskSpec), PlanError>
  {
    var output := PlanNextGoal(answer, o, m, p.available);
    if output.Err? then Err(output.error)
    else
      var grounding := GroundFor(output.value, o, p);
      if grounding.Err? then Err(grounding.error)
      else
        var spec := TaskFrom(output.value, grounding.value, p.available, taskId);
        if spec.Err? then Err(spec.error) else Ok((output.value, grounding.value, spec.value))
  }

  function RunningTask(spec: TaskSpec): S.Scheduled {
    S.Scheduled(spec, S.Running, 0, None)
  }

  /** How a skill run closes its task: by the Manager's stop if there is one, else by a terminal verdict. */
  function EndingOfRun(run: Skills.RunResult): Option<S.Ending> {
    if run.stop.Some? then Some(S.EndingOfStop(run.stop.value, None))
    else if run.verdict.Some? then S.EndingOfVerdict(run.verdict.value, None)
    else None
  }

  /** The scheduler after its running task's skill run is over. */
  function SettledBy(s: S.State, run: Skills.RunResult): S.State
    requires s.current.Some?
  {
    match EndingOfRun(run)
    case None => s
    case Some(ending) =>
      var done := s.current.value.(status := ending.status, completion :=
          Some(S.CompletionOf(s.current.value, ending)));
      S.State(s.queue, None, s.completed + [done])
  }

  function CompletionOfRun(spec: TaskSpec, run: Skills.RunResult): Option<S.Completion> {
    if EndingOfRun(run).None? then None else Some(S.CompletionOf(RunningTask(spec), EndingOfRun(run).value))
  }

  /** Who closed a task, and how: the Manager's stop if there is one, else a success or failure verdict. */
  predicate ClosedBy(completion: Option<S.Completion>, spec: TaskSpec, run: Skills.RunResult) {
    if run.stop.Some? then
      && completion.Some? && var c := completion.value;
         && c.stop == run.stop && c.verdict.None? && c.spec == spec && c.taskId == spec.taskId
         && c.evidence == run.stop.value.evidence && c.reason == Some(run.stop.value.reason)
         && c.condition == run.stop.value.kind.Text()
         && c.status == (if run.stop.value.kind == Timeout then S.TimedOut else S.Failed)
    else if run.verdict.Some? && (run.verdict.value.Success? || run.verdict.value.Failure?) then
      && completion.Some? && var c := completion.value;
         && c.verdict == run.verdict && c.stop.None? && c.spec == spec && c.taskId == spec.taskId
         && c.evidence == run.verdict.value.evidence && c.reason.None?
         && c.condition == (if run.verdict.value.Success? then "success" else run.verdict.value.kind.Text())
         && c.status == (if run.verdict.value.Success? then S.Succeeded else S.Failed)
    else completion.None?
  }

  /** A skill run's completion names its authority. */
  lemma CompletionSays(spec: TaskSpec, run: Skills.RunResult)
    ensures ClosedBy(CompletionOfRun(spec, run), spec, run)
  {}

  function SubmissionOf(record: StepRecord): Submission {
    Submission(record.ids, record.observation, record.output, record.grounding, record.spec)
  }

  /** A submitted task follows from its observation and the memory it was planned from. */
  predicate SubmissionFollows(s: Submission, answer: Option<PlannerOutput>, m: Memory, p: Policy) {
    && PlanNextGoal(answer, s.observation, m, p.available) == Ok(s.output)
    && GroundFor(s.output, s.observation, p) == Ok(s.grounding)
    && TaskFrom(s.output, s.grounding, p.available, s.ids.taskId) == Ok(s.spec)
  }

  /** A step's record follows from its observation, the memory it was planned from, and its skill run. */
  ghost predicate StepFollows(record: StepRecord, script: Script, m: Memory, p: Policy) {
    && SubmissionFollows(SubmissionOf(record), script.answer, m, p)
    && record.run.skill == record.spec.skill.Text() && Skills.OneAuthority(record.run)
    && Skills.ComesFrom(script.skill, record.run)
    && record.completion == CompletionOfRun(record.spec, record.run)
    && ClosedBy(record.completion, record.spec, record.run)
  }

  /** The closed task a step leaves behind, if it closed. */
  function DoneTask(record: StepRecord): seq<S.Scheduled> {
    if record.completion.None? then []
    else [RunningTask(record.spec).(status := record.completion.value.status, completion := record.completion)]
  }

  function DoneTasks(steps: seq<StepRecord>): seq<S.Scheduled> {
    if steps == [] then [] else DoneTasks(steps[..|steps| - 1]) + DoneTask(steps[|steps| - 1])
  }

  /** The scheduler an idle one becomes after a step. */
  function SchedulerAfter(completed: seq<S.Scheduled>, record: StepRecord): S.State {
    S.State([], if record.completion.None? then Some(RunningTask(record.spec)) else None, completed + DoneTask(record))
  }

  /** A verifier is registered for the task's skill and kind of target. */
  predicate HasVerifier(spec: TaskSpec) {
    match spec.skill
    case ContinueDialogue => spec.target.None?
    case BasicReachTarget => spec.target.Some? && spec.target.value.ScreenPoint?
    case InteractVisibleObject => spec.target.Some? && spec.target.value.VisibleObject?
    case _ => false
  }

  predicate EventValid(runId: string, ids: StepIds, completion: S.Completion) {
    runId != "" && ids.completionEventId != "" && completion.taskId != "" && completion.spec.goal != ""
        && completion.condition != ""
  }

  lemma StartsSubmitted(s: S.State, spec: TaskSpec)
    requires s.current.None? && s.queue == []
    ensures S.After(S.After(s, S.Enqueue(spec)), S.StartNext) == S.State([], Some(RunningTask(spec)), s.completed)
  {
    assert s.queue + [S.Scheduled(spec, S.Pending, 0, None)] == [S.Scheduled(spec, S.Pending, 0, None)];
  }

  /** The running task is still there, or is the one closed task more. */
  ghost predicate StillOrClosed(s: S.State, t: S.State) {
    || t == s
    || (s.current.Some? && t.current.None? && t.queue == s.queue
        && exists done: S.Scheduled :: done.spec == s.current.value.spec && t.completed == s.completed + [done])
  }

  /** Whichever it is, the same tasks are on the books. */
  lemma SameSpecs(s: S.State, t: S.State)
    requires StillOrClosed(s, t)
    ensures S.AllSpecs(t) == S.AllSpecs(s)
  {
    if t != s {
      var done: S.Scheduled :| done.spec == s.current.value.spec && t.completed == s.completed + [done];
      S.SpecsAppend(s.completed, done);
      assert (S.Specs(s.completed) + [done.spec]) + S.Specs(s.queue)
          == S.Specs(s.completed) + ([done.spec] + S.Specs(s.queue));
    }
  }

  lemma SettledClosesOne(s: S.State, run: Skills.RunResult)
    requires s.current.Some?
    ensures StillOrClosed(s, SettledBy(s, run))
  {
    if EndingOfRun(run).Some? {
      var done := s.current.value.(status := EndingOfRun(run).value.status,
                                   completion := Some(S.CompletionOf(s.current.value, EndingOfRun(run).value)));
      assert done.spec == s.current.value.spec && SettledBy(s, run).completed == s.completed + [done];
    }
  }

  /** A task submitted to an idle scheduler and started is the one task more. */
  lemma StartedSpecs(s: S.State, spec: TaskSpec)
    requires s.current.None? && s.queue == []
    ensures S.AllSpecs(S.State([], Some(RunningTask(spec)), s.completed)) == S.AllSpecs(s) + [spec]
  {
    assert S.Specs([]) == [];
    assert S.Specs(s.completed) + ([] + []) == S.Specs(s.completed);
    assert [spec] + S.Specs([]) == [spec];
  }

  lemma PlannedTask(answer: Option<PlannerOutput>, o: Observation, m: Memory, p: Policy, output: PlannerOutput,
                    grounding: Option<GroundingResult>, taskId: string, spec: TaskSpec)
    requires PlanNextGoal(answer, o, m, p.available) == Ok(output) && GroundFor(output, o, p) == Ok(grounding)
    requires TaskFrom(output, grounding, p.available, taskId) == Ok(spec)
    ensures spec.Valid() && spec.taskId == taskId && HasVerifier(spec)
    ensures Ids(spec.sourceEvidence) <= MemoryIds(m) + ObservationIds(o)
    ensures spec.target.Some? ==> Ids(spec.target.value.evidence) <= Ids(spec.sourceEvidence)
  {
    hide PlanNextGoal, TaskFrom, GroundRaw, MemoryIds, SpriteIds, OutputIds;
    PlanWithin(answer, o, m, p.available);
    if grounding.Some? { GroundingWithin(output, o, p.minConfidence, p.digest); }
    TaskWithin(output, grounding, p.available, taskId);
  }

  class Orchestrator {
    const scheduler: S.TaskScheduler
    const policy: Policy

    constructor (scheduler: S.TaskScheduler, policy: Policy)
      ensures this.scheduler == scheduler && this.policy == policy
    {
      this.scheduler, this.policy := scheduler, policy;
    }

    /** `plan_ground_and_submit`: nothing is enqueued unless every check passes. */
    method PlanGroundAndSubmit(answer: Option<PlannerOutput>, o: Observation, m: Memory, taskId: string)
      returns (r: Result<(PlannerOutput, Option<GroundingResult>, TaskSpec), PlanError>)
      requires scheduler.Valid()
      modifies scheduler
      ensures scheduler.Valid() && r == PlannedFrom(answer, o, m, policy, taskId)
      ensures r.Err? ==> scheduler.Value() == old(scheduler.Value())
      ensures r.Ok? ==>
        && PlanNextGoal(answer, o, m, policy.available) == Ok(r.value.0)
        && GroundFor(r.value.0, o, policy) == Ok(r.value.1)
        && TaskFrom(r.value.0, r.value.1, policy.available, taskId) == Ok(r.value.2)
        && scheduler.Value() == S.After(old(scheduler.Value()), S.Enqueue(r.value.2))
        && HasVerifier(r.value.2) && r.value.2.taskId == taskId
    {
      hide PlanNextGoal, GroundFor, TaskFrom, MemoryIds, ObservationIds, HasVerifier;
      var output := PlanNextGoal(answer, o, m, policy.available);
      if output.Err? { return Err(output.error); }
      var grounding := GroundFor(output.value, o, policy);
      if grounding.Err? { return Err(grounding.error); }
      var spec := CreateTask(output.value, grounding.value, policy.available, taskId);
      if spec.Err? { return Err(spec.error); }
      PlannedTask(answer, o, m, policy, output.value, grounding.value, taskId, spec.value);
      var scheduled := scheduler.Submit(spec.value);
      return Ok((output.value, grounding.value, spec.value));
    }

    /**
     * `complete_from_skill_run`: the Manager's stop wins over a verdict; without an authority the task keeps running.
     */
    method CompleteFromSkillRun(run: Skills.RunResult, taskId: string, runId: string, ids: StepIds)
      returns (r: Result<Option<S.Completion>, StepError>)
      requires scheduler.Valid()
      modifies scheduler
      ensures scheduler.Valid()
      ensures old(scheduler.current).None? ==> r == Err(NoRunningTask)
      ensures StillOrClosed(old(scheduler.Value()), scheduler.Value())
      ensures
        var task := old(scheduler.current);
        task.Some? && taskId == task.value.spec.taskId && run.skill == task.value.spec.skill.Text() ==>
          && scheduler.Value() == SettledBy(old(scheduler.Value()), run)
          && match EndingOfRun(run)
             case None => r == Ok(None)
             case Some(ending) =>
               var completion := S.CompletionOf(task.value, ending);
               r == if EventValid(runId, ids, completion) then Ok(Some(completion)) else Err(InvalidEvent)
      ensures r != Err(SkillMismatch)
    {
      var task := scheduler.current;
      if task.None? { return Err(NoRunningTask); }
      if taskId != task.value.spec.taskId { return Err(TaskMismatch); }
      if run.skill != task.value.spec.skill.Text() { return Err(ResultMismatch); }
      hide S.WellFormed, S.AllSpecs;
      var completion: S.Completion;
      if run.stop.Some? {
        var closed := scheduler.CompleteFromManagerStop(run.stop.value, None);
        match closed {
          case Err(error) => return Err(SchedulerRefused(error));
          case Ok(record) => completion := record;
        }
      } else if run.verdict.None? {
        return Ok(None);
      } else {
        var closed := scheduler.CompleteFromVerifier(run.verdict.value, None);
        match closed {
          case Err(error) => return Err(SchedulerRefused(error));
          case Ok(None) => return Ok(None);
          case Ok(Some(record)) => completion := record;
        }
      }
      assert scheduler.completed[|old(scheduler.completed)|].completion == Some(completion);
      SettledClosesOne(old(scheduler.Value()), run);
      if !EventValid(runId, ids, completion) { return Err(InvalidEvent); }
      return Ok(Some(completion));
    }
  }

  /** Some run of the skill closed the task with a completion that the event's model refuses. */
  ghost predicate NotRecorded(skill: Skills.Skill, task: S.Scheduled, runId: string, ids: StepIds) {
    exists run :: Skills.ComesFrom(skill, run) && EndingOfRun(run).Some?
                  && (runId == "" || ids.completionEventId == "" || task.spec.taskId == "" || task.spec.goal == ""
                      || EndingOfRun(run).value.condition == "")
  }

  lemma NotRecordedFor(skill: Skills.Skill, w: Skills.World, t: Skills.Trace, run: Skills.RunResult,
                       task: S.Scheduled, runId: string, ids: StepIds)
    requires Skills.RanThrough(w, t, run) && w.skill == skill && EndingOfRun(run).Some?
    requires !EventValid(runId, ids, S.CompletionOf(task, EndingOfRun(run).value))
    ensures NotRecorded(skill, task, runId, ids)
  {
    assert Skills.ComesFrom(skill, run);
  }

  /** `ManagerTaskExecutor.execute_current_task`, with the trace of the skill run it made. */
  method ExecuteCurrentTask(o: Orchestrator, source: PrimedSource, executor: Guard.Executor, skill: Skills.Skill,
                            runId: string, ids: StepIds)
    returns (r: Result<(Skills.RunResult, Option<S.Completion>), StepError>, ghost trace: Skills.Trace)
    requires o.scheduler.Valid() && executor.Valid() && skill.contract.Valid()
    modifies o.scheduler, source, source.rest, executor
    ensures o.scheduler.Valid() && executor.Valid() && executor.latched == old(executor.latched)
    ensures r.Ok? ==> Skills.RanThrough(old(Skills.WorldOf(skill, source, executor)), trace, r.value.0)
    ensures r.Ok? ==> Skills.Actions(executor.sent) == Skills.Actions(old(executor.sent)) + Skills.Sends(trace)
    ensures r == Err(SkillMismatch) ==>
      && old(o.scheduler.current).Some? && skill.contract.skill != old(o.scheduler.current).value.spec.skill.Text()
      && executor.sent == old(executor.sent) && source.rest.asked == old(source.rest.asked)
    ensures r == Err(InvalidEvent) ==>
      old(o.scheduler.current).Some? && NotRecorded(skill, old(o.scheduler.current).value, runId, ids)
    ensures r.Ok? && r.value.1.Some? ==>
      && runId != "" && ids.completionEventId != ""
      && old(o.scheduler.current).Some? && old(o.scheduler.current).value.spec.taskId != ""
    ensures old(o.scheduler.current).None? ==> r == Err(NoRunningTask)
    ensures StillOrClosed(old(o.scheduler.Value()), o.scheduler.Value())
    ensures
      var task := old(o.scheduler.current);
      task.Some? && HasVerifier(task.value.spec) ==>
        if r.Err? then r.error == SkillMismatch || r.error == InvalidEvent
        else
          var (run, completion) := r.value;
          && run.skill == task.value.spec.skill.Text() && Skills.OneAuthority(run)
          && o.scheduler.Value() == SettledBy(old(o.scheduler.Value()), run)
          && completion == (if EndingOfRun(run).None? then None
            else Some(S.CompletionOf(task.value, EndingOfRun(run).value)))
  {
    hide S.WellFormed, HasVerifier, StillOrClosed, Skills.OneAuthority, Skills.Legal, Skills.ResultOf;
    Unchanged(o.scheduler.Value());
    var task := o.scheduler.current;
    trace := Skills.Start;
    if task.None? { return Err(NoRunningTask), trace; }
    var spec := task.value.spec;
    if skill.contract.skill != spec.skill.Text() { return Err(SkillMismatch), trace; }
    if !HasVerifier(spec) { return Err(NoVerifier), trace; }
    ghost var w := Skills.WorldOf(skill, source, executor);
    Skills.WorldIs(skill, source, executor);
    var run, t := Skills.Run(skill, source, executor);
    trace := t;
    var completion := o.CompleteFromSkillRun(run, spec.taskId, runId, ids);
    if completion.Err? {
      if completion.error.InvalidEvent? { NotRecordedFor(skill, w, trace, run, task.value, runId, ids); }
      return Err(completion.error), trace;
    }
    return Ok((run, completion.value)), trace;
  }

  lemma Unchanged(s: S.State)
    ensures StillOrClosed(s, s)
  {}

  lemma SettledIs(completed: seq<S.Scheduled>, record: StepRecord)
    requires record.completion == CompletionOfRun(record.spec, record.run)
    ensures SettledBy(S.State([], Some(RunningTask(record.spec)), completed), record.run)
      == SchedulerAfter(completed, record)
  {}

  /**
   * Why a step failed, where the source has come to: the observation it planned from was its latest answer.
   * A step that had submitted a task failed on the skill's contract or on the completion's event.
   */
  ghost predicate ErrorTrue(e: StepError, answers: nat -> Option<Observation>, asked: nat, m: Memory, script: Script,
                            p: Policy, runId: string, ids: StepIds, left: Option<Submission>) {
    match e
    case NotIdle => left.None?
    case SourceExhausted => left.None? && asked > 0 && answers(asked - 1).None?
    case PlanRejected(error) =>
      && left.None? && asked > 0 && answers(asked - 1).Some?
      && PlannedFrom(script.answer, answers(asked - 1).value, m, p, ids.taskId) == Err(error)
    case SkillMismatch => left.Some? && script.skill.contract.skill != left.value.spec.skill.Text()
    case InvalidEvent => left.Some? && NotRecorded(script.skill, RunningTask(left.value.spec), runId, ids)
    case _ => false
  }

  /** What the skill run of a step meets: the planning observation first, then what the source shows next. */
  ghost function StepWorld(script: Script, o: Observation, answers: nat -> Option<Observation>, asked: nat,
                           executor: Guard.Executor): Skills.World
    reads executor
  {
    Skills.World(script.skill, Some(o), answers, asked, executor.latched, executor.answers, executor.calls)
  }

  /**
   * `HierarchicalTaskStepRunner.run_once`. Whether it returns or raises, `left` is the task it put on
   * the scheduler's books, if it got that far; `trace` is its skill run.
   */
  method RunOnce(o: Orchestrator, source: ObservationSource, executor: Guard.Executor, memory: Memory, script: Script,
                 runId: string, ids: StepIds)
    returns (r: Result<StepRecord, StepError>, ghost left: Option<Submission>, ghost trace: Skills.Trace)
    requires o.scheduler.Valid() && executor.Valid() && script.skill.contract.Valid()
    modifies o.scheduler, source, executor
    ensures o.scheduler.Valid() && executor.Valid()
    ensures r == Err(NotIdle) <==> !old(o.scheduler.Idle())
    ensures r.Err? ==> ErrorTrue(r.error, source.answers, source.asked, memory, script, o.policy, runId, ids, left)
    ensures r.Ok? ==>
      && old(o.scheduler.Idle()) && r.value.ids == ids && StepFollows(r.value, script, memory, o.policy)
      && o.scheduler.Value() == SchedulerAfter(old(o.scheduler.completed), r.value)
      && left == Some(SubmissionOf(r.value))
      && (r.value.completion.Some? ==> runId != "" && ids.completionEventId != "" && ids.taskId != "")
    ensures r.Ok? ==>
      && source.answers(old(source.asked)) == Some(r.value.observation)
      && Skills.RanThrough(old(StepWorld(script, r.value.observation, source.answers, source.asked + 1, executor)),
                           trace, r.value.run)
      && Skills.Actions(executor.sent) == Skills.Actions(old(executor.sent)) + Skills.Sends(trace)
    ensures left.None? ==> r.Err? && o.scheduler.Value() == old(o.scheduler.Value())
    ensures left.Some? ==>
      && SubmissionFollows(left.value, script.answer, memory, o.policy)
      && StillOrClosed(S.State([], Some(RunningTask(left.value.spec)), old(o.scheduler.completed)), o.scheduler.Value())
    ensures S.AllSpecs(o.scheduler.Value()) == S.AllSpecs(old(o.scheduler.Value())) + LeftSpecs(left)
  {
    hide *;
    left, trace := None, Skills.Start;
    IdleIs(o.scheduler);
    ValueIs(o.scheduler);
    NothingLeft(o.scheduler.Value());
    if o.scheduler.current.Some? || o.scheduler.queue != [] {
      NotIdleTrue(source.answers, source.asked, memory, script, o.policy, runId, ids);
      return Err(NotIdle), left, trace;
    }
    var planning := source.Observe();
    if planning.None? {
      ExhaustedTrue(source.answers, source.asked, memory, script, o.policy, runId, ids);
      return Err(SourceExhausted), left, trace;
    }
    var submitted := o.PlanGroundAndSubmit(script.answer, planning.value, memory, ids.taskId);
    if submitted.Err? {
      RejectedTrue(submitted.error, source.answers, source.asked, memory, script, o.policy, runId, ids);
      return Err(PlanRejected(submitted.error)), left, trace;
    }
    var (output, grounding, spec) := submitted.value;
    left := Some(Submission(ids, planning.value, output, grounding, spec));
    SubmissionIs(left.value, script.answer, memory, o.policy);
    ValueIs(o.scheduler);
    StartsSubmitted(old(o.scheduler.Value()), spec);
    EnqueuedIs(old(o.scheduler.Value()), spec);
    StartedSpecs(old(o.scheduler.Value()), spec);
    OneLeft(left.value);
    var started := o.scheduler.Start();
    ghost var running := o.scheduler.Value();
    ValueIs(o.scheduler);
    RunningTaskIs(spec);
    if started.None? || started.value.status != S.Running || started.value.spec.taskId != spec.taskId {
      return Err(NotStarted), left, trace;
    }
    var primed := new PrimedSource(planning.value, source);
    Skills.WorldIs(script.skill, primed, executor);
    ghost var w := StepWorld(script, planning.value, source.answers, source.asked, executor);
    StepWorldIs(script, planning.value, source.answers, source.asked, primed, executor);
    var executed;
    executed, trace := ExecuteCurrentTask(o, primed, executor, script.skill, runId, ids);
    SameSpecs(running, o.scheduler.Value());
    if executed.Err? {
      SubmittedFailedTrue(executed.error, left.value, source.answers, source.asked, memory, script, o.policy, runId,
                          ids);
      return Err(executed.error), left, trace;
    }
    var record := StepRecord(ids, planning.value, output, grounding, spec, executed.value.0, executed.value.1);
    StepIs(record, script, memory, o.policy, w, trace);
    TaskIdKept(record, script.answer, memory, o.policy);
    SettledIs(old(o.scheduler.completed), record);
    return Ok(record), left, trace;
  }

  lemma TaskIdKept(record: StepRecord, answer: Option<PlannerOutput>, m: Memory, p: Policy)
    requires SubmissionFollows(Submission(record.ids, record.observation, record.output, record.grounding, record.spec),
                               answer, m, p)
    ensures record.spec.taskId == record.ids.taskId
  {
    hide PlanNextGoal, GroundFor, SourceEvidence, ValidatedTarget;
  }

  lemma NothingLeft(s: S.State)
    ensures S.AllSpecs(s) == S.AllSpecs(s) + LeftSpecs(None)
  {}

  lemma OneLeft(left: Submission)
    ensures LeftSpecs(Some(left)) == [left.spec]
  {}

  lemma RunningTaskIs(spec: TaskSpec)
    ensures RunningTask(spec).spec == spec && RunningTask(spec).status == S.Running
  {}

  lemma NotIdleTrue(answers: nat -> Option<Observation>, asked: nat, m: Memory, script: Script, p: Policy,
                    runId: string, ids: StepIds)
    ensures ErrorTrue(NotIdle, answers, asked, m, script, p, runId, ids, None)
  {}

  lemma ExhaustedTrue(answers: nat -> Option<Observation>, asked: nat, m: Memory, script: Script, p: Policy,
                      runId: string, ids: StepIds)
    requires asked > 0 && answers(asked - 1).None?
    ensures ErrorTrue(SourceExhausted, answers, asked, m, script, p, runId, ids, None)
  {}

  lemma RejectedTrue(e: PlanError, answers: nat -> Option<Observation>, asked: nat, m: Memory, script: Script,
                     p: Policy, runId: string, ids: StepIds)
    requires asked > 0 && answers(asked - 1).Some?
    requires PlannedFrom(script.answer, answers(asked - 1).value, m, p, ids.taskId) == Err(e)
    ensures ErrorTrue(PlanRejected(e), answers, asked, m, script, p, runId, ids, None)
  {
    hide PlannedFrom;
  }

  lemma SubmittedFailedTrue(e: StepError, left: Submission, answers: nat -> Option<Observation>, asked: nat,
                            m: Memory, script: Script, p: Policy, runId: string, ids: StepIds)
    requires e == SkillMismatch || e == InvalidEvent
    requires e == SkillMismatch ==> script.skill.contract.skill != left.spec.skill.Text()
    requires e == InvalidEvent ==> NotRecorded(script.skill, RunningTask(left.spec), runId, ids)
    ensures ErrorTrue(e, answers, asked, m, script, p, runId, ids, Some(left))
  {
    hide NotRecorded;
  }

  lemma SubmissionIs(s: Submission, answer: Option<PlannerOutput>, m: Memory, p: Policy)
    requires PlanNextGoal(answer, s.observation, m, p.available) == Ok(s.output)
    requires GroundFor(s.output, s.observation, p) == Ok(s.grounding)
    requires TaskFrom(s.output, s.grounding, p.available, s.ids.taskId) == Ok(s.spec)
    ensures SubmissionFollows(s, answer, m, p)
  {
    hide PlanNextGoal, GroundFor, TaskFrom;
  }

  lemma StepWorldIs(script: Script, o: Observation, answers: nat -> Option<Observation>, asked: nat,
                    source: PrimedSource, executor: Guard.Executor)
    requires source.available && source.first == o && source.rest.answers == answers && source.rest.asked == asked
    ensures Skills.WorldOf(script.skill, source, executor) == StepWorld(script, o, answers, asked, executor)
  {}

  lemma StepIs(record: StepRecord, script: Script, m: Memory, p: Policy, w: Skills.World, t: Skills.Trace)
    requires SubmissionFollows(Submission(record.ids, record.observation, record.output, record.grounding, record.spec),
                               script.answer, m, p)
    requires record.run.skill == record.spec.skill.Text() && Skills.OneAuthority(record.run)
    requires Skills.RanThrough(w, t, record.run) && w.skill == script.skill
    requires record.completion == (if EndingOfRun(record.run).None? then None
      else Some(S.CompletionOf(RunningTask(record.spec), EndingOfRun(record.run).value)))
    ensures StepFollows(record, script, m, p) && record.completion == CompletionOfRun(record.spec, record.run)
    ensures SubmissionOf(record)
      == Submission(record.ids, record.observation, record.output, record.grounding, record.spec)
  {
    hide SubmissionFollows, Skills.RanThrough, Skills.OneAuthority, EndingOfRun, S.CompletionOf, ClosedBy;
    CompletionSays(record.spec, record.run);
    assert Skills.ComesFrom(script.skill, record.run);
  }

  /** The specs on the books because of a step. */
  function LeftSpecs(left: Option<Submission>): seq<TaskSpec> {
    if left.None? then [] else [left.value.spec]
  }

  lemma EnqueuedIs(s: S.State, spec: TaskSpec)
    ensures S.After(s, S.Enqueue(spec)) == s.(queue := s.queue + [S.Scheduled(spec, S.Pending, 0, None)])
  {}

  // ----- the loop -----

  /** Every step was planned from what the earlier ones verified, and all but the last were closed by a verdict. */
  ghost predicate RunFollows(steps: seq<StepRecord>, m: Memory, scripts: nat -> Script, p: Policy) {
    && (forall i :: 0 <= i < |steps| ==> StepFollows(steps[i], scripts(i), MemoryAfter(m, steps[..i]), p))
    && (forall i :: 0 <= i < |steps| - 1 ==> Verified(steps[i]))
  }

  function ReasonAfter(last: StepRecord): StopReason {
    if last.completion.None? then Nonterminal
    else if last.completion.value.stop.Some? then StoppedByManager
    else BudgetExhausted
  }

  lemma NotesNext(steps: seq<StepRecord>, record: StepRecord)
    ensures NotesOf(steps + [record]) == NotesOf(steps) + NoteOf(record)
    ensures DoneTasks(steps + [record]) == DoneTasks(steps) + DoneTask(record)
  {
    assert (steps + [record])[..|steps|] == steps;
  }

  lemma MemorySame(m: Memory, steps: seq<StepRecord>, record: StepRecord)
    requires !Verified(record)
    ensures MemoryAfter(m, steps + [record]) == MemoryAfter(m, steps)
  {
    NotesNext(steps, record);
    hide NotesOf;
    assert NotesOf(steps) + [] == NotesOf(steps);
  }

  lemma MemoryNotes(m: Memory, steps: seq<StepRecord>)
    requires m.outcomes.Notes?
    ensures MemoryAfter(m, steps) == m.(outcomes := Notes(m.outcomes.notes + NotesOf(steps)))
  {
    hide NotesOf;
    assert m.outcomes.notes + [] == m.outcomes.notes;
  }

  lemma MemoryGrows(m: Memory, steps: seq<StepRecord>, record: StepRecord)
    requires Verified(record) && m.outcomes.Notes?
    ensures MemoryAfter(m, steps + [record])
      == MemoryAfter(m, steps).(outcomes := Notes(MemoryAfter(m, steps).outcomes.notes + NoteOf(record)))
  {
    hide NotesOf, NoteOf, MemoryAfter, Verified;
    NotesNext(steps, record);
    MemoryNotes(m, steps);
    MemoryNotes(m, steps + [record]);
    assert (m.outcomes.notes + NotesOf(steps)) + NoteOf(record) == m.outcomes.notes + (NotesOf(steps) + NoteOf(record));
  }

  /** Replanning appends exactly the note of the step just verified; a step without a verdict leaves memory alone. */
  lemma MemoryNext(m: Memory, steps: seq<StepRecord>, record: StepRecord)
    ensures !Verified(record) ==> MemoryAfter(m, steps + [record]) == MemoryAfter(m, steps)
    ensures record.completion.Some? && record.completion.value.spec == record.spec
      && BuildReplanMemory(MemoryAfter(m, steps), record.completion.value).Ok?
      ==> Verified(record) && MemoryAfter(m, steps + [record])
          == BuildReplanMemory(MemoryAfter(m, steps), record.completion.value).value
  {
    if !Verified(record) {
      MemorySame(m, steps, record);
      hide MemoryAfter;
    } else if m.outcomes.Notes? {
      MemoryGrows(m, steps, record);
      hide MemoryAfter;
    } else {
      hide NotesOf;
    }
  }

  lemma RunFollowsNext(steps: seq<StepRecord>, m: Memory, scripts: nat -> Script, p: Policy, record: StepRecord)
    requires RunFollows(steps, m, scripts, p) && (steps != [] ==> Verified(steps[|steps| - 1]))
    requires StepFollows(record, scripts(|steps|), MemoryAfter(m, steps), p)
    ensures RunFollows(steps + [record], m, scripts, p)
  {
    hide StepFollows, MemoryAfter, Verified;
    var all := steps + [record];
    forall i | 0 <= i < |all| ensures StepFollows(all[i], scripts(i), MemoryAfter(m, all[..i]), p) {
      assert all[..i] == steps[..i];
      if i == |steps| { assert steps[..i] == steps; }
    }
  }

  /** A completion that came from a skill run has one of the two authorities. */
  lemma CompletionHasAuthority(record: StepRecord)
    requires record.completion.Some? && record.completion == CompletionOfRun(record.spec, record.run)
    ensures record.completion.value.spec == record.spec
    ensures record.completion.value.stop.None? ==> Verified(record)
    ensures record.completion.value.stop.Some? ==> !Verified(record)
  {}

  /** What a loop that returns says. */
  ghost predicate LoopFollows(r: LoopResult, m: Memory, scripts: nat -> Script, p: Policy, budget: nat) {
    && 0 < |r.steps| <= budget && RunFollows(r.steps, m, scripts, p)
    && r.memory == MemoryAfter(m, r.steps)
    && r.reason == ReasonAfter(r.steps[|r.steps| - 1])
    && (r.reason == BudgetExhausted ==> |r.steps| == budget && Verified(r.steps[|r.steps| - 1]))
    && AllTold(r.steps, m)
  }

  /** Every verified step had evidence to remember it by, and a list to be remembered in. */
  predicate AllTold(steps: seq<StepRecord>, m: Memory) {
    forall i :: 0 <= i < |steps| && Verified(steps[i]) ==>
                  m.outcomes.Notes? && steps[i].completion.value.verdict.value.evidence != []
  }

  lemma ToldNext(steps: seq<StepRecord>, record: StepRecord, memory: Memory, m: Memory)
    requires AllTold(steps, m) && (memory.outcomes.NotASequence? <==> m.outcomes.NotASequence?)
    requires Verified(record) ==>
      record.completion.Some? && BuildReplanMemory(memory, record.completion.value).Ok?
    ensures AllTold(steps + [record], m)
  {
    hide OutcomeNote;
  }

  /** Everything a run put on the books: the tasks of its finished steps, and of a step that raised after submitting. */
  function SubmittedSpecs(made: seq<StepRecord>, left: Option<Submission>): seq<TaskSpec> {
    RecordSpecs(made) + LeftSpecs(left)
  }

  function RecordSpecs(made: seq<StepRecord>): seq<TaskSpec> {
    if made == [] then [] else RecordSpecs(made[..|made| - 1]) + [made[|made| - 1].spec]
  }

  /** Every step was planned from what the earlier ones verified, the unfinished one included. */
  ghost predicate RunSubmits(made: seq<StepRecord>, left: Option<Submission>, m: Memory, scripts: nat -> Script,
                             p: Policy) {
    && RunFollows(made, m, scripts, p)
    && (left.Some? ==>
          && (made != [] ==> Verified(made[|made| - 1]))
          && SubmissionFollows(left.value, scripts(|made|).answer, MemoryAfter(m, made), p))
  }

  lemma RecordedNext(made: seq<StepRecord>, record: StepRecord, before: seq<TaskSpec>)
    ensures before + SubmittedSpecs(made + [record], None) == (before + SubmittedSpecs(made, None)) + [record.spec]
  {
    assert (made + [record])[..|made|] == made;
  }

  lemma LeftNext(made: seq<StepRecord>, left: Option<Submission>, before: seq<TaskSpec>)
    ensures before + SubmittedSpecs(made, left) == (before + SubmittedSpecs(made, None)) + LeftSpecs(left)
  {
    hide RecordSpecs;
    assert RecordSpecs(made) + [] == RecordSpecs(made);
  }

  lemma NothingSubmitted(before: seq<TaskSpec>)
    ensures before + SubmittedSpecs([], None) == before
  {}

  /** Why a run failed, after the steps it made. */
  ghost predicate LoopErrorTrue(e: LoopError, made: seq<StepRecord>, left: Option<Submission>, initial: Memory,
                                scripts: nat -> Script, p: Policy, runId: string, stepIds: seq<StepIds>,
                                answers: nat -> Option<Observation>, asked: nat) {
    match e
    case NoSteps => stepIds == []
    case StepFailed(error) =>
      && |made| < |stepIds|
      && ErrorTrue(error, answers, asked, MemoryAfter(initial, made), scripts(|made|), p, runId, stepIds[|made|], left)
      && (error.NotIdle? ==> made == [])
    case MissingAuthority => false
    case ReplanFailed(cause) =>
      && made != [] && left.None? && Verified(made[|made| - 1])
      && match cause {
         case NoEvidence => made[|made| - 1].completion.value.verdict.value.evidence == []
         case OutcomesNotASequence => initial.outcomes.NotASequence?
         case _ => false
         }
  }

  /**
   * `HierarchicalReplanLoopRunner.run_bounded`. Whether it returns or raises, `made` are its finished
   * steps and `left` is what a step that raised had already submitted.
   */
  method RunBounded(o: Orchestrator, source: ObservationSource, executor: Guard.Executor, initial: Memory,
                    runId: string, stepIds: seq<StepIds>, scripts: nat -> Script)
    returns (r: Result<LoopResult, LoopError>, ghost made: seq<StepRecord>, ghost left: Option<Submission>)
    requires o.scheduler.Valid() && executor.Valid() && forall i :: scripts(i).skill.contract.Valid()
    modifies o.scheduler, source, executor
    ensures o.scheduler.Valid() && executor.Valid()
    ensures r.Err? ==>
      && LoopErrorTrue(r.error, made, left, initial, scripts, o.policy, runId, stepIds, source.answers, source.asked)
      && (r.error == StepFailed(NotIdle) ==> !old(o.scheduler.Idle()))
    ensures r.Ok? ==>
      && old(o.scheduler.Idle()) && LoopFollows(r.value, initial, scripts, o.policy, |stepIds|)
      && o.scheduler.queue == [] && (o.scheduler.current.Some? <==> r.value.reason == Nonterminal)
      && o.scheduler.completed == old(o.scheduler.completed) + DoneTasks(r.value.steps)
      && made == r.value.steps && left.None?
    ensures r.Ok? ==> Remembers(initial, r.value.steps, r.value.memory)
    ensures RunSubmits(made, left, initial, scripts, o.policy)
    ensures S.AllSpecs(o.scheduler.Value()) == S.AllSpecs(old(o.scheduler.Value())) + SubmittedSpecs(made, left)
  {
    hide *;
    made, left := [], None;
    NothingKept(initial, scripts, o.policy);
    NothingSubmitted(S.AllSpecs(o.scheduler.Value()));
    if stepIds == [] {
      NoStepsTrue(initial, scripts, o.policy, runId, source.answers, source.asked);
      return Err(NoSteps), made, left;
    }
    IdleIs(o.scheduler);
    var memory := initial;
    var steps: seq<StepRecord> := [];
    ghost var specs, completed, idle := S.AllSpecs(o.scheduler.Value()), o.scheduler.completed, o.scheduler.Idle();
    for i := 0 to |stepIds|
      invariant o.scheduler.Valid() && executor.Valid() && |steps| == i && made == steps && left.None?
      invariant if i > 0 then idle && o.scheduler.Idle() else o.scheduler.Idle() == idle
      invariant o.scheduler.completed == completed + DoneTasks(steps)
      invariant LoopKept(steps, memory, initial, scripts, o.policy)
      invariant S.AllSpecs(o.scheduler.Value()) == specs + SubmittedSpecs(steps, None)
    {
      var step;
      ghost var trace;
      KeptIs(steps, memory, initial, scripts, o.policy);
      step, left, trace := RunOnce(o, source, executor, memory, scripts(i), runId, stepIds[i]);
      LeftNext(steps, left, specs);
      if step.Err? {
        KeptLeft(steps, memory, left, initial, scripts, o.policy);
        StepFailedTrue(step.error, steps, left, initial, scripts, o.policy, runId, stepIds, source.answers,
                       source.asked);
        return Err(StepFailed(step.error)), made, left;
      }
      var record := step.value;
      LeftIsRecord(record);
      left := None;
      StepTaken(steps, record, memory, initial, scripts, o.policy, |stepIds|);
      NotesNext(steps, record);
      RecordedNext(steps, record, specs);
      Regrouped(completed, DoneTasks(steps), DoneTask(record));
      SchedulerIs(completed + DoneTasks(steps), record);
      ValueIs(o.scheduler);
      steps := steps + [record];
      made := steps;
      FollowsSubmits(steps, initial, scripts, o.policy);
      if record.completion.None? {
        return Ok(LoopResult(steps, memory, Nonterminal)), made, left;
      }
      if record.completion.value.stop.Some? {
        ReasonIs(record);
        return Ok(LoopResult(steps, memory, StoppedByManager)), made, left;
      }
      if record.completion.value.verdict.None? { return Err(MissingAuthority), made, left; }
      var next := BuildReplanMemory(memory, record.completion.value);
      if next.Err? {
        ReplanFailedTrue(next.error, steps, memory, initial, scripts, o.policy, runId, stepIds, source.answers,
                         source.asked);
        return Err(ReplanFailed(next.error)), made, left;
      }
      memory := next.value;
      IdleIs(o.scheduler);
    }
    BudgetUsed(steps, memory, initial, scripts, o.policy);
    KeptIs(steps, memory, initial, scripts, o.policy);
    IdleIs(o.scheduler);
    return Ok(LoopResult(steps, memory, BudgetExhausted)), made, left;
  }

  lemma IdleIs(scheduler: S.TaskScheduler)
    ensures scheduler.Idle() <==> scheduler.current.None? && scheduler.queue == []
  {}

  lemma ValueIs(scheduler: S.TaskScheduler)
    ensures scheduler.Value() == S.State(scheduler.queue, scheduler.current, scheduler.completed)
  {}

  lemma ReasonIs(record: StepRecord)
    requires record.completion.Some? && record.completion.value.stop.Some?
    ensures ReasonAfter(record) == StoppedByManager
  {}

  lemma SchedulerIs(completed: seq<S.Scheduled>, record: StepRecord)
    ensures SchedulerAfter(completed, record)
      == S.State([], if record.completion.None? then Some(RunningTask(record.spec)) else None,
                 completed + DoneTask(record))
  {}

  /** Between steps: all were verified, and the memory is what they came to. */
  ghost predicate LoopKept(steps: seq<StepRecord>, memory: Memory, m: Memory, scripts: nat -> Script, p: Policy) {
    && RunFollows(steps, m, scripts, p) && memory == MemoryAfter(m, steps)
    && (steps != [] ==> Verified(steps[|steps| - 1]) && ReasonAfter(steps[|steps| - 1]) == BudgetExhausted)
    && AllTold(steps, m)
  }

  /** One more step, and what each way out of the loop says. */
  lemma StepTaken(steps: seq<StepRecord>, record: StepRecord, memory: Memory, m: Memory, scripts: nat -> Script,
                  p: Policy, budget: nat)
    requires LoopKept(steps, memory, m, scripts, p) && StepFollows(record, scripts(|steps|), memory, p)
    requires |steps| < budget
    ensures RunFollows(steps + [record], m, scripts, p)
    ensures record.completion.None? || record.completion.value.stop.Some? ==>
      && LoopFollows(LoopResult(steps + [record], memory, ReasonAfter(record)), m, scripts, p, budget)
      && Remembers(m, steps + [record], memory) && ReasonAfter(record) != BudgetExhausted
      && (ReasonAfter(record) == Nonterminal <==> record.completion.None?)
    ensures record.completion.Some? && record.completion.value.stop.None? ==>
      && record.completion.value.verdict.Some? && Verified(record)
      && (memory.outcomes.NotASequence? <==> m.outcomes.NotASequence?)
      && (BuildReplanMemory(memory, record.completion.value).Ok? ==>
            LoopKept(steps + [record], BuildReplanMemory(memory, record.completion.value).value, m, scripts, p))
  {
    hide StepFollows, MemoryAfter, Remembers, BuildReplanMemory, RunFollows, NotesOf, AllTold;
    RunFollowsNext(steps, m, scripts, p, record);
    MemoryNext(m, steps, record);
    StepHasAuthority(record, scripts(|steps|), memory, p);
    RunRemembers(steps + [record], m, scripts, p);
    MemoryKind(m, steps);
    if Verified(record) ==> BuildReplanMemory(memory, record.completion.value).Ok? {
      ToldNext(steps, record, memory, m);
    }
  }

  lemma MemoryKind(m: Memory, steps: seq<StepRecord>)
    ensures MemoryAfter(m, steps).outcomes.NotASequence? <==> m.outcomes.NotASequence?
  {
    hide NotesOf;
  }

  lemma NothingKept(m: Memory, scripts: nat -> Script, p: Policy)
    ensures LoopKept([], m, m, scripts, p) && RunFollows([], m, scripts, p) && DoneTasks([]) == []
    ensures RunSubmits([], None, m, scripts, p)
  {}

  lemma KeptIs(steps: seq<StepRecord>, memory: Memory, m: Memory, scripts: nat -> Script, p: Policy)
    requires LoopKept(steps, memory, m, scripts, p)
    ensures RunFollows(steps, m, scripts, p) && memory == MemoryAfter(m, steps)
    ensures RunSubmits(steps, None, m, scripts, p)
  {}

  lemma KeptLeft(steps: seq<StepRecord>, memory: Memory, left: Option<Submission>, m: Memory, scripts: nat -> Script,
                 p: Policy)
    requires LoopKept(steps, memory, m, scripts, p)
    requires left.Some? ==> SubmissionFollows(left.value, scripts(|steps|).answer, memory, p)
    ensures RunSubmits(steps, left, m, scripts, p)
  {
    hide RunFollows, SubmissionFollows;
  }

  lemma FollowsSubmits(steps: seq<StepRecord>, m: Memory, scripts: nat -> Script, p: Policy)
    requires RunFollows(steps, m, scripts, p)
    ensures RunSubmits(steps, None, m, scripts, p)
  {
    hide RunFollows;
  }

  lemma BudgetUsed(steps: seq<StepRecord>, memory: Memory, m: Memory, scripts: nat -> Script, p: Policy)
    requires LoopKept(steps, memory, m, scripts, p) && steps != []
    ensures LoopFollows(LoopResult(steps, memory, BudgetExhausted), m, scripts, p, |steps|)
    ensures Remembers(m, steps, memory)
  {
    hide RunFollows, MemoryAfter, Remembers;
    RunRemembers(steps, m, scripts, p);
  }

  lemma RunRemembers(steps: seq<StepRecord>, m: Memory, scripts: nat -> Script, p: Policy)
    requires RunFollows(steps, m, scripts, p)
    ensures Remembers(m, steps, MemoryAfter(m, steps))
  {
    hide StepFollows, MemoryAfter, Remembers, Verified;
    MemoryReports(m, steps);
  }

  lemma NoStepsTrue(m: Memory, scripts: nat -> Script, p: Policy, runId: string,
                    answers: nat -> Option<Observation>, asked: nat)
    ensures LoopErrorTrue(NoSteps, [], None, m, scripts, p, runId, [], answers, asked)
  {}

  lemma StepFailedTrue(e: StepError, made: seq<StepRecord>, left: Option<Submission>, m: Memory,
                       scripts: nat -> Script, p: Policy, runId: string, stepIds: seq<StepIds>,
                       answers: nat -> Option<Observation>, asked: nat)
    requires |made| < |stepIds| && (e.NotIdle? ==> made == [])
    requires ErrorTrue(e, answers, asked, MemoryAfter(m, made), scripts(|made|), p, runId, stepIds[|made|], left)
    ensures LoopErrorTrue(StepFailed(e), made, left, m, scripts, p, runId, stepIds, answers, asked)
  {
    hide ErrorTrue;
  }

  lemma ReplanFailedTrue(e: ReplanError, made: seq<StepRecord>, before: Memory, m: Memory,
                         scripts: nat -> Script, p: Policy, runId: string, stepIds: seq<StepIds>,
                         answers: nat -> Option<Observation>, asked: nat)
    requires made != [] && Verified(made[|made| - 1]) && (before.outcomes.NotASequence? <==> m.outcomes.NotASequence?)
    requires BuildReplanMemory(before, made[|made| - 1].completion.value) == Err(e)
    ensures LoopErrorTrue(ReplanFailed(e), made, None, m, scripts, p, runId, stepIds, answers, asked)
  {
    hide ErrorTrue, OutcomeNote;
  }

  lemma Regrouped(a: seq<S.Scheduled>, b: seq<S.Scheduled>, c: seq<S.Scheduled>)
    ensures (a + b) + c == a + (b + c)
  {}

  lemma LeftIsRecord(record: StepRecord)
    ensures LeftSpecs(Some(SubmissionOf(record))) == [record.spec]
  {}

  lemma StepHasAuthority(record: StepRecord, script: Script, m: Memory, p: Policy)
    requires StepFollows(record, script, m, p)
    ensures record.completion.Some? ==>
      && record.completion.value.spec == record.spec
      && (record.completion.value.stop.None? <==> Verified(record))
  {
    if record.completion.Some? { CompletionHasAuthority(record); }
  }

  /** One closed task per step, save for a last one that is still running. */
  lemma {:induction false} DoneTasksCount(steps: seq<StepRecord>, m: Memory, scripts: nat -> Script, p: Policy)
    requires RunFollows(steps, m, scripts, p) && steps != []
    ensures |DoneTasks(steps)| == |steps| - if steps[|steps| - 1].completion.None? then 1 else 0
  {
    hide StepFollows;
    ClosedCount(steps[..|steps| - 1]);
  }

  lemma {:induction false} ClosedCount(steps: seq<StepRecord>)
    requires forall i :: 0 <= i < |steps| ==> Verified(steps[i])
    ensures |DoneTasks(steps)| == |steps|
  {
    if steps != [] { ClosedCount(steps[..|steps| - 1]); }
  }

  // ----- where the evidence on every task comes from -----

  /** The ids a step's closing verdict carried. */
  function VerdictIds(record: StepRecord): set<string> {
    if Verified(record) then Ids(record.completion.value.verdict.value.evidence) else {}
  }

  function VerdictsIds(steps: seq<StepRecord>): set<string> {
    if steps == [] then {} else VerdictsIds(steps[..|steps| - 1]) + VerdictIds(steps[|steps| - 1])
  }

  lemma {:induction false} RawListIdsJoin(a: seq<RawNote>, b: seq<RawNote>)
    ensures RawListIds(a + b) == RawListIds(a) + RawListIds(b)
    decreases |b|
  {
    if b == [] {
      assert a + b == a;
    } else {
      assert (a + b)[..|a + b| - 1] == a + b[..|b| - 1];
      RawListIdsJoin(a, b[..|b| - 1]);
    }
  }

  lemma {:induction false} NotesCarryVerdicts(steps: seq<StepRecord>)
    ensures RawListIds(NotesOf(steps)) == VerdictsIds(steps)
  {
    if steps != [] {
      var front, last := steps[..|steps| - 1], steps[|steps| - 1];
      NotesCarryVerdicts(front);
      RawListIdsJoin(NotesOf(front), NoteOf(last));
      OneNoteIds(last);
    }
  }

  lemma OneNoteIds(record: StepRecord)
    ensures RawListIds(NoteOf(record)) == VerdictIds(record)
  {
    if Verified(record) {
      var note := OutcomeNote(record.spec.skill, record.completion.value.verdict.value);
      assert [note][..0] == [];
    }
  }

  lemma MemoryCarriesVerdicts(m: Memory, steps: seq<StepRecord>)
    ensures MemoryIds(MemoryAfter(m, steps)) <= MemoryIds(m) + VerdictsIds(steps)
  {
    hide RawListIds, NotesOf, VerdictsIds;
    NotesCarryVerdicts(steps);
    if m.outcomes.Notes? { RawListIdsJoin(m.outcomes.notes, NotesOf(steps)); }
  }

  lemma SubmissionEvidence(sub: Submission, answer: Option<PlannerOutput>, m: Memory, p: Policy)
    requires SubmissionFollows(sub, answer, m, p)
    ensures Ids(sub.spec.sourceEvidence) <= MemoryIds(m) + ObservationIds(sub.observation)
    ensures sub.spec.target.Some? ==> Ids(sub.spec.target.value.evidence) <= Ids(sub.spec.sourceEvidence)
  {
    hide PlanNextGoal, GroundFor, TaskFrom, MemoryIds, ObservationIds;
    PlannedTask(answer, sub.observation, m, p, sub.output, sub.grounding, sub.ids.taskId, sub.spec);
  }

  /** The evidence ids on a task. */
  predicate Cites(spec: TaskSpec, id: string) {
    id in Ids(spec.sourceEvidence) || (spec.target.Some? && id in Ids(spec.target.value.evidence))
  }

  /**
   * An initial note, the planning observation or one of its sprites, or the verdict of an earlier step
   * carries the id.
   */
  predicate HasOrigin(id: string, m: Memory, o: Observation, earlier: seq<StepRecord>) {
    id in MemoryIds(m) || id in ObservationIds(o) || exists j :: 0 <= j < |earlier| && id in VerdictIds(earlier[j])
  }

  lemma SubmissionOrigins(sub: Submission, answer: Option<PlannerOutput>, m: Memory, earlier: seq<StepRecord>,
                          p: Policy, id: string)
    requires SubmissionFollows(sub, answer, MemoryAfter(m, earlier), p) && Cites(sub.spec, id)
    ensures HasOrigin(id, m, sub.observation, earlier)
  {
    hide SubmissionFollows, MemoryAfter, MemoryIds, ObservationIds, VerdictIds;
    SubmissionEvidence(sub, answer, MemoryAfter(m, earlier), p);
    MemoryCarriesVerdicts(m, earlier);
    if id in VerdictsIds(earlier) {
      var j := VerdictOf(earlier, id);
    }
  }

  /** The `i`-th task a run put on the books. */
  function SubmissionAt(made: seq<StepRecord>, left: Option<Submission>, i: nat): Submission
    requires i < |made| || (i == |made| && left.Some?)
  {
    if i < |made| then SubmissionOf(made[i]) else left.value
  }

  lemma {:induction false} SubmittedAt(made: seq<StepRecord>, left: Option<Submission>, i: nat)
    requires i < |SubmittedSpecs(made, left)|
    ensures i < |made| || (i == |made| && left.Some?)
    ensures SubmittedSpecs(made, left)[i] == SubmissionAt(made, left, i).spec
  {
    RecordSpecsAt(made);
  }

  lemma {:induction false} RecordSpecsAt(made: seq<StepRecord>)
    ensures |RecordSpecs(made)| == |made| && forall i :: 0 <= i < |made| ==> RecordSpecs(made)[i] == made[i].spec
  {
    if made != [] { RecordSpecsAt(made[..|made| - 1]); }
  }

  /**
   * Every evidence id on every task a run put on the books, whether the run returned or raised, comes
   * from the initial memory's notes, from that step's own planning observation or its sprites, or from
   * an earlier step's verdict.
   */
  lemma EvidenceOrigins(made: seq<StepRecord>, left: Option<Submission>, m: Memory, scripts: nat -> Script, p: Policy,
                        i: nat, id: string)
    requires RunSubmits(made, left, m, scripts, p) && i < |SubmittedSpecs(made, left)|
      && Cites(SubmittedSpecs(made, left)[i], id)
    ensures i <= |made| && (i == |made| ==> left.Some?)
    ensures HasOrigin(id, m, SubmissionAt(made, left, i).observation, made[..i])
  {
    hide SubmissionFollows, MemoryAfter, MemoryIds, ObservationIds, VerdictIds, SubmittedSpecs, Cites, HasOrigin;
    SubmittedAt(made, left, i);
    if i == |made| { assert made[..i] == made; }
    else { RecordSubmits(made, m, scripts, p, i); }
    SubmissionOrigins(SubmissionAt(made, left, i), scripts(i).answer, m, made[..i], p, id);
  }

  lemma RecordSubmits(made: seq<StepRecord>, m: Memory, scripts: nat -> Script, p: Policy, i: nat)
    requires RunFollows(made, m, scripts, p) && i < |made|
    ensures SubmissionFollows(SubmissionOf(made[i]), scripts(i).answer, MemoryAfter(m, made[..i]), p)
  {
    hide SubmissionFollows, MemoryAfter;
    assert StepFollows(made[i], scripts(i), MemoryAfter(m, made[..i]), p);
  }

  lemma {:induction false} VerdictOf(steps: seq<StepRecord>, id: string) returns (j: nat)
    requires id in VerdictsIds(steps)
    ensures j < |steps| && id in VerdictIds(steps[j])
  {
    hide VerdictIds;
    if id in VerdictIds(steps[|steps| - 1]) {
      j := |steps| - 1;
    } else {
      j := VerdictOf(steps[..|steps| - 1], id);
    }
  }
}
