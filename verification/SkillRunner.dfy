/**
 * Runs one skill through guarded input. The skill's and the verifier's answers are
 * arbitrary functions of everything that happened in the run so far.
 */
module SkillRunner {
  import opened Prelude
  import opened Verdicts
  import opened Observations
  import Guard = InputExecutor

  datatype Contract = Contract(skill: string, allowed: seq<PrimitiveAction>, combatIsFailure: bool, maxSteps: nat)
  {
    predicate Valid() {
      allowed != [] && maxSteps > 0
    }
  }

  datatype Step =
    | Observed(observation: Observation)
    | Exhausted
    | Chosen(action: PrimitiveAction)
    | Sent(action: PrimitiveAction)
    | Blocked(action: PrimitiveAction, reason: BlockedReason)
    | Verified(verdict: Verdict)

  datatype Trace = Start | Then(before: Trace, step: Step)

  datatype Skill = Skill(contract: Contract, canStart: Observation -> bool, nextAction: Trace -> PrimitiveAction,
                         verify: Trace -> Verdict)

  datatype RunResult = RunResult(skill: string, success: bool, failureReason: Option<string>, evidence: seq<string>,
                                 verdict: Option<Verdict>, stop: Option<ManagerStop>)

  // ----- reading a trace -----

  function Attempts(t: Trace): nat {
    match t
    case Start => 0
    case Then(before, Chosen(_)) => Attempts(before) + 1
    case Then(before, _) => Attempts(before)
  }

  /** The actions sent, in order. */
  function Sends(t: Trace): seq<PrimitiveAction> {
    match t
    case Start => []
    case Then(before, Sent(action)) => Sends(before) + [action]
    case Then(before, _) => Sends(before)
  }

  function LastVerdict(t: Trace): Option<Verdict> {
    match t
    case Start => None
    case Then(_, Verified(verdict)) => Some(verdict)
    case Then(before, _) => LastVerdict(before)
  }

  function FirstObservation(t: Trace): Option<Observation> {
    match t
    case Start => None
    case Then(Start, Observed(observation)) => Some(observation)
    case Then(before, _) => FirstObservation(before)
  }

  function LastObservation(t: Trace): Option<Observation> {
    match t
    case Start => None
    case Then(_, Observed(observation)) => Some(observation)
    case Then(before, _) => LastObservation(before)
  }

  /** What happened after the latest send. */
  function SinceSend(t: Trace): seq<Step> {
    match t
    case Start => []
    case Then(_, Sent(_)) => []
    case Then(before, step) => SinceSend(before) + [step]
  }

  predicate IsCombat(o: Observation) {
    o.uiState == "combat" || o.combatUiVisible
  }

  /** A verification that ends the run: a terminal verdict, or combat for a skill that forbids it. */
  predicate Ends(c: Contract, before: Trace, verdict: Verdict) {
    verdict.Terminal() || (c.combatIsFailure && LastObservation(before).Some?
        && IsCombat(LastObservation(before).value))
  }

  /** Nothing may be sent any more. */
  predicate Closed(c: Contract, t: Trace) {
    match t
    case Start => false
    case Then(before, step) =>
      || Closed(c, before)
      || step.Blocked? || step.Exhausted?
      || (step.Verified? && Ends(c, before, step.verdict))
      || (step.Chosen? && step.action !in c.allowed)
  }

  /** A fresh observation and a verification that did not end the run, then the choice of the next action. */
  predicate FreshlyVerified(c: Contract, steps: seq<Step>, action: PrimitiveAction) {
    && |steps| == 3 && steps[0].Observed? && steps[1].Verified? && steps[2] == Chosen(action)
    && !steps[1].verdict.Terminal() && !(c.combatIsFailure && IsCombat(steps[0].observation))
  }

  /**
   * Only chosen, allowed actions are sent or blocked, after an observation and never once the run is closed;
   * before every send but the first, what happened since the previous one is a fresh observation and a verdict
   * that did not end the run.
   */
  predicate Legal(c: Contract, t: Trace) {
    match t
    case Start => true
    case Then(before, step) =>
      && Legal(c, before)
      && (step.Sent? || step.Blocked?
        ==> !Closed(c, before) && step.action in c.allowed && before.Then? && before.step == Chosen(step.action)
                                           && LastObservation(before).Some?)
      && (step.Sent? && Sends(before) != [] ==> FreshlyVerified(c, SinceSend(before), step.action))
      && (step.Verified? ==> before.Then? && before.step.Observed?)
  }

  // ----- where a trace comes from -----

  /**
   * What one run meets: its skill, what the source shows (`first`, if it was observed before, then `rest`
   * from position `from` on), and what the guard is told from call `calls` on.
   */
  datatype World = World(skill: Skill, first: Option<Observation>, rest: nat -> Option<Observation>, from: nat,
                         latched: bool, guard: nat -> Guard.Answers, calls: nat)
  {
    /** The `k`-th look at the screen. */
    function Look(k: nat): Option<Observation> {
      if first.None? then rest(from + k) else if k == 0 then first else rest(from + (k - 1))
    }
  }

  function Looks(t: Trace): nat {
    match t
    case Start => 0
    case Then(before, step) => Looks(before) + if step.Observed? || step.Exhausted? then 1 else 0
  }

  /** What the skill and the verifier see: after a send, the action with the evidence around it. */
  predicate Shows(t: Trace, raw: Observation, seen: Observation) {
    if t == Start then seen == raw
    else
      && t.Then? && t.step.Sent? && LastObservation(t).Some?
      && seen == raw.(lastAction := Some(ActionResult(t.step.action, None,
           Deduplicated(LastObservation(t).value.evidence + raw.evidence))))
  }

  /** The guard let the action through, or stopped it for the reason given. */
  predicate Guarded(latched: bool, a: Guard.Answers, step: Step) {
    var stopped := latched || a.stop == Guard.Triggered || a.stop == Guard.Raised;
    && (step.Sent? ==> !stopped && a.focused)
    && (step.Blocked? ==>
          && (step.reason == EmergencyStopped <==> stopped)
          && (step.reason == NotFocused <==> !stopped && !a.focused))
  }

  predicate StepGenuine(w: World, t: Trace, step: Step) {
    match step
    case Observed(seen) => w.Look(Looks(t)).Some? && Shows(t, w.Look(Looks(t)).value, seen)
    case Exhausted => w.Look(Looks(t)).None?
    case Chosen(action) => action == w.skill.nextAction(t)
    case Sent(_) => Attempts(t) > 0 && Guarded(w.latched, w.guard(w.calls + (Attempts(t) - 1)), step)
    case Blocked(_, _) => Attempts(t) > 0 && Guarded(w.latched, w.guard(w.calls + (Attempts(t) - 1)), step)
    case Verified(verdict) => verdict == w.skill.verify(t)
  }

  /** Every step is the answer its source gives after what came before. */
  predicate Genuine(w: World, t: Trace) {
    match t
    case Start => true
    case Then(before, step) => Genuine(w, before) && StepGenuine(w, before, step)
  }

  predicate InCombat(o: Observation) {
    o.uiState == "combat" || o.combatUiVisible
  }

  /** A verification after which the run goes no further, whatever its budget. */
  predicate Decides(c: Contract, t: Trace, verdict: Verdict) {
    verdict.Success? || verdict.Failure?
    || (c.combatIsFailure && LastObservation(t).Some? && InCombat(LastObservation(t).value))
  }

  /**
   * How a run may end: nothing to see, a start the skill refuses, an action that is not allowed or is blocked,
   * nothing to see after a send, or a verification that decides or uses up the budget.
   */
  predicate Finished(w: World, t: Trace) {
    match t
    case Start => false
    case Then(Start, Exhausted) => true
    case Then(Start, Observed(o)) => !w.skill.canStart(o)
    case Then(before, step) =>
      && FirstObservation(before).Some? && w.skill.canStart(FirstObservation(before).value)
      && match step {
         case Chosen(action) => action !in w.skill.contract.allowed
         case Blocked(_, _) => true
         case Exhausted => before.Then? && before.step.Sent?
         case Verified(verdict) =>
           Decides(w.skill.contract, before, verdict) || Attempts(t) == w.skill.contract.maxSteps
         case _ => false
         }
  }

  // ----- what a result is, read off the trace -----

  function StopForBlocked(reason: BlockedReason, evidence: seq<string>): ManagerStop {
    ManagerStop(if reason == NotFocused then FocusLost else SafetyIntervention, reason.Text(), evidence, None)
  }

  function FailureReason(kind: FailureKind): string {
    if kind == Death then "death_screen" else kind.Text()
  }

  function EvidenceAround(t: Trace): seq<string> {
    if FirstObservation(t).Some? && LastObservation(t).Some? then
      MergedEvidence(FirstObservation(t).value, LastObservation(t).value)
    else []
  }

  function LatestEvidence(t: Trace): seq<string> {
    if LastObservation(t).Some? then LastObservation(t).value.evidence else []
  }

  function Failed(c: Contract, t: Trace, reason: string, verdict: Option<Verdict>,
                  stop: Option<ManagerStop>): RunResult {
    RunResult(c.skill, false, Some(reason), EvidenceAround(t), verdict, stop)
  }

  function TimedOut(c: Contract, t: Trace): RunResult {
    Failed(c, t, "timeout", LastVerdict(t), Some(ManagerStop(Timeout, "timeout", LatestEvidence(t), None)))
  }

  /** The result of a run is determined by how its trace ends. */
  function ResultOf(c: Contract, t: Trace): RunResult {
    match t
    case Start => Failed(c, t, "empty_observation_sequence", None, None)
    case Then(Start, Exhausted) => RunResult(c.skill, false, Some("empty_observation_sequence"), [], None, None)
    case Then(Start, Observed(o)) => RunResult(c.skill, false, Some("precondition_failed"), o.evidence, None, None)
    case Then(before, Chosen(_)) =>
      Failed(c, t, "action_not_allowed", LastVerdict(t),
             Some(ManagerStop(CapabilityRejected, "action_not_allowed", LatestEvidence(t), None)))
    case Then(before, Blocked(_, reason)) =>
      Failed(c, t, reason.Text(), LastVerdict(t), Some(StopForBlocked(reason, LatestEvidence(t))))
    case Then(before, Exhausted) => Failed(c, t, "observation_sequence_exhausted", LastVerdict(t), None)
    case Then(before, Verified(verdict)) =>
      match verdict {
        case Success(evidence) => RunResult(c.skill, true, None, evidence, Some(verdict), None)
        case Failure(kind, evidence) => RunResult(c.skill, false, Some(FailureReason(kind)), evidence, Some(verdict),
            None)
        case _ => if Ends(c, before, verdict) then Failed(c, t, "combat_started", Some(verdict), None)
            else TimedOut(c, t)
      }
    case Then(before, _) => TimedOut(c, t)
  }

  /** Stopped by the Manager for this reason, citing what was seen last. */
  predicate Stopped(r: RunResult, t: Trace, kind: FailureKind, reason: string) {
    && LastObservation(t).Some?
    && r.stop == Some(ManagerStop(kind, reason, LastObservation(t).value.evidence, None))
    && r.failureReason == Some(reason)
  }

  /** The first and the last thing seen are the evidence. */
  predicate CitesEnds(r: RunResult, t: Trace) {
    && FirstObservation(t).Some? && LastObservation(t).Some?
    && r.evidence == Deduplicated(FirstObservation(t).value.evidence + LastObservation(t).value.evidence)
  }

  /** What a result says about the way its run ended. */
  predicate Reads(c: Contract, t: Trace, r: RunResult)
    requires t.Then?
  {
    && r.skill == c.skill && r.verdict == LastVerdict(t)
    && (r.success <==> t.step.Verified? && t.step.verdict.Success?)
    && match t.step
       case Exhausted =>
         && r.stop.None?
         && (if t.before == Start then r.failureReason == Some("empty_observation_sequence") && r.evidence == []
             else r.failureReason == Some("observation_sequence_exhausted") && CitesEnds(r, t))
       case Observed(o) => r.stop.None? && r.failureReason == Some("precondition_failed") && r.evidence == o.evidence
       case Chosen(_) => Stopped(r, t, CapabilityRejected, "action_not_allowed") && CitesEnds(r, t)
       case Blocked(_, NotFocused) => Stopped(r, t, FocusLost, "not_focused") && CitesEnds(r, t)
       case Blocked(_, EmergencyStopped) => Stopped(r, t, SafetyIntervention, "emergency_stop") && CitesEnds(r, t)
       case Blocked(_, RateLimited) => Stopped(r, t, SafetyIntervention, "rate_limited") && CitesEnds(r, t)
       case Verified(verdict) => VerdictReads(c, t, verdict, r)
       case Sent(_) => false
  }

  predicate VerdictReads(c: Contract, t: Trace, verdict: Verdict, r: RunResult)
    requires t.Then?
  {
    match verdict
    case Success(evidence) => r.stop.None? && r.failureReason.None? && r.evidence == evidence
    case Failure(kind, evidence) =>
      && r.stop.None? && r.evidence == evidence
      && r.failureReason == Some(if kind == Death then "death_screen" else kind.Text())
    case _ =>
      && CitesEnds(r, t)
      && (if Decides(c, t.before, verdict) then r.stop.None? && r.failureReason == Some("combat_started")
          else Stopped(r, t, Timeout, "timeout"))
  }

  /** A finished run of the world's skill, and what it reports. */
  predicate RanThrough(w: World, t: Trace, r: RunResult) {
    Genuine(w, t) && Finished(w, t) && Legal(w.skill.contract, t) && t.Then? && Reads(w.skill.contract, t, r)
  }

  /** The result is one that some run of the skill reports. */
  ghost predicate ComesFrom(skill: Skill, r: RunResult) {
    exists w, t :: RanThrough(w, t, r) && w.skill == skill
  }

  lemma {:induction false} FirstAndLast(t: Trace)
    ensures FirstObservation(t).Some? ==> LastObservation(t).Some?
  {
    if t.Then? { FirstAndLast(t.before); }
  }

  lemma FirstStays(t: Trace, step: Step)
    requires t != Start
    ensures FirstObservation(Then(t, step)) == FirstObservation(t)
  {}

  /** The computed result reads as it should. */
  lemma ResultReads(w: World, t: Trace)
    requires Finished(w, t)
    ensures t.Then? && Reads(w.skill.contract, t, ResultOf(w.skill.contract, t))
  {
    hide *;
    FinishedHas(w, t);
    if t.step.Verified? {
      VerdictLast(t);
      VerifiedReads(w, t);
    } else if t.before == Start {
      AtOnceReads(w, t);
    } else {
      StoppedReads(w, t);
    }
  }

  lemma FinishedHas(w: World, t: Trace)
    requires Finished(w, t)
    ensures t.Then? && (t.before == Start ==> t.step.Exhausted? || t.step.Observed?)
    ensures t.before != Start ==>
      FirstObservation(t).Some? && LastObservation(t).Some? && !t.step.Observed? && !t.step.Sent?
  {
    FirstAndLast(t);
    if t.Then? && t.before != Start { FirstStays(t.before, t.step); }
    assert FirstObservation(Start).None?;
  }

  lemma AtOnceReads(w: World, t: Trace)
    requires t.Then? && t.before == Start && (t.step.Exhausted? || t.step.Observed?)
    ensures Reads(w.skill.contract, t, ResultOf(w.skill.contract, t))
  {
    assert LastVerdict(Start).None?;
  }

  lemma StoppedReads(w: World, t: Trace)
    requires t.Then? && t.before != Start && FirstObservation(t).Some? && LastObservation(t).Some?
    requires t.step.Chosen? || t.step.Blocked? || t.step.Exhausted?
    ensures Reads(w.skill.contract, t, ResultOf(w.skill.contract, t))
  {
    hide Deduplicated, Attempts, LastObservation, FirstObservation, LastVerdict;
  }

  lemma VerdictLast(t: Trace)
    requires t.Then? && t.step.Verified?
    ensures LastVerdict(t) == Some(t.step.verdict) && LastObservation(t) == LastObservation(t.before)
  {}

  lemma VerifiedReads(w: World, t: Trace)
    requires t.Then? && t.step.Verified? && t.before != Start
    requires FirstObservation(t).Some? && LastObservation(t).Some? && LastObservation(t) == LastObservation(t.before)
    ensures Reads(w.skill.contract, t, ResultOf(w.skill.contract, t))
  {
    hide FailureKind.Text, Deduplicated, Attempts, Closed, Legal, LastObservation, FirstObservation;
  }

  /** No result carries both a Manager stop and a terminal verdict. */
  predicate OneAuthority(r: RunResult) {
    r.stop.Some? ==> (r.verdict.Some? ==> !r.verdict.value.Terminal())
  }

  /** The verdict a trace ends with is the only terminal one it can contain. */
  lemma {:induction false} OpenHasNoTerminal(c: Contract, t: Trace)
    requires !Closed(c, t)
    ensures LastVerdict(t).Some? ==> !LastVerdict(t).value.Terminal()
  {
    match t
    case Start =>
    case Then(before, step) => OpenHasNoTerminal(c, before);
  }

  /** Any trace that was open until its last step gives a result with one authority. */
  lemma ResultHasOneAuthority(c: Contract, t: Trace)
    requires t.Then? ==> !Closed(c, t.before)
    ensures OneAuthority(ResultOf(c, t))
    ensures ResultOf(c, t).success ==> ResultOf(c, t).verdict.Some? && ResultOf(c, t).verdict.value.Success?
    ensures ResultOf(c, t).skill == c.skill
  {
    ResultSucceeds(c, t);
    hide EvidenceAround, LatestEvidence, LastObservation, FailureReason, BlockedReason.Text, FailureKind.Text;
    if t.Then? {
      OpenHasNoTerminal(c, t.before);
      hide Closed;
    }
  }

  lemma ResultSucceeds(c: Contract, t: Trace)
    ensures ResultOf(c, t).success ==> ResultOf(c, t).verdict.Some? && ResultOf(c, t).verdict.value.Success?
    ensures ResultOf(c, t).skill == c.skill
  {
    hide EvidenceAround, LatestEvidence, LastObservation, LastVerdict, FailureReason, BlockedReason.Text,
         FailureKind.Text;
  }

  // ----- steps -----

  /** At the start of a turn: the start was just observed, or a verification did not end the run. */
  predicate AtTurn(c: Contract, t: Trace) {
    && Legal(c, t) && !Closed(c, t) && t.Then? && LastObservation(t).Some?
    && (t.step.Observed? ==> t.before == Start)
    && (t.step.Observed? || t.step.Verified?)
    && (Sends(t) == [] ==> Attempts(t) == 0)
    && (Sends(t) != [] ==>
          && t.step.Verified? && |SinceSend(t)| == 2 && SinceSend(t)[0] == Observed(LastObservation(t).value)
            && SinceSend(t)[1] == t.step
          && !t.step.verdict.Terminal() && !(c.combatIsFailure && IsCombat(LastObservation(t).value)))
    && |Sends(t)| == Attempts(t)
  }

  lemma ChoiceMade(c: Contract, t: Trace, action: PrimitiveAction)
    requires AtTurn(c, t)
    ensures var t' := Then(t, Chosen(action));
      && Legal(c, t') && (Closed(c, t') <==> action !in c.allowed)
      && Attempts(t') == Attempts(t) + 1 && Sends(t') == Sends(t) && LastObservation(t') == LastObservation(t)
      && (Sends(t') != [] ==> FreshlyVerified(c, SinceSend(t'), action))
  {}

  lemma AttemptMade(c: Contract, t: Trace, step: Step)
    requires Legal(c, t) && !Closed(c, t) && t.Then? && t.step.Chosen? && t.step.action in c.allowed
      && LastObservation(t).Some?
    requires Sends(t) != [] ==> FreshlyVerified(c, SinceSend(t), t.step.action)
    requires step == Sent(t.step.action) || (step.Blocked? && step.action == t.step.action)
    ensures var t' := Then(t, step);
      && Legal(c, t') && Attempts(t') == Attempts(t) && LastObservation(t') == LastObservation(t)
      && Sends(t') == (if step.Sent? then Sends(t) + [t.step.action] else Sends(t))
      && (step.Sent? ==> !Closed(c, t') && SinceSend(t') == [])
  {}

  lemma OutcomeSeen(c: Contract, t: Trace, observation: Observation, verdict: Verdict)
    requires Legal(c, t) && !Closed(c, t) && t.Then? && t.step.Sent? && |Sends(t)| == Attempts(t)
    ensures var o := Then(t, Observed(observation));
      var v := Then(o, Verified(verdict));
      && Legal(c, v) && Attempts(v) == Attempts(t) && Sends(v) == Sends(t) && !Closed(c, o)
      && (!Ends(c, o, verdict) ==> AtTurn(c, v))
  {
    var o := Then(t, Observed(observation));
    var v := Then(o, Verified(verdict));
    assert Legal(c, o) && !Closed(c, o) && Attempts(o) == Attempts(t) && Sends(o) == Sends(t) && Sends(t) != [];
    assert SinceSend(t) == [] && SinceSend(o) == [Observed(observation)];
    assert SinceSend(v) == [Observed(observation), Verified(verdict)];
    assert LastObservation(o) == Some(observation) && LastObservation(v) == LastObservation(o);
  }

  lemma RanDry(c: Contract, t: Trace)
    requires Legal(c, t)
    ensures Legal(c, Then(t, Exhausted)) && Attempts(Then(t, Exhausted)) == Attempts(t)
      && Sends(Then(t, Exhausted)) == Sends(t)
  {}

  lemma StartedWith(c: Contract, observation: Observation)
    ensures AtTurn(c, Then(Start, Observed(observation))) && Attempts(Then(Start, Observed(observation))) == 0
  {
    assert Sends(Start) == [] && Attempts(Start) == 0 && Legal(c, Start);
  }

  // ----- the run -----

  function Actions(sent: seq<(PrimitiveAction, real)>): seq<PrimitiveAction> {
    if sent == [] then [] else Actions(sent[..|sent| - 1]) + [sent[|sent| - 1].0]
  }

  lemma ActionsNext(sent: seq<(PrimitiveAction, real)>, next: (PrimitiveAction, real))
    ensures Actions(sent + [next]) == Actions(sent) + [next.0]
  {
    assert (sent + [next])[..|sent|] == sent;
  }

  /** `ActionResult` is linked to the evidence around it before the skill and the verifier see it. */
  function WithAction(after: Observation, before: Observation, result: ActionResult): Observation {
    after.(lastAction := Some(result.(evidence := MergedEvidence(before, after))))
  }

  /** An attempt that was not sent ends its run. */
  function Unsent(t: Trace): nat {
    if t.Then? && (t.step.Chosen? || t.step.Blocked?) then 1 else 0
  }

  /** What one turn leaves behind: another turn can start, or the run is over with a single authority. */
  predicate TurnLeaves(c: Contract, t: Trace, over: bool) {
    if over then
      && Legal(c, t) && Attempts(t) == |Sends(t)| + Unsent(t) && t.Then? && !Closed(c, t.before) && t.before.Then?
      && (t.step.Chosen? || t.step.Blocked? || t.step.Exhausted?
          || (t.step.Verified? && Ends(c, t.before, t.step.verdict)))
    else AtTurn(c, t) && t.step.Verified? && !Ends(c, t.before, t.step.verdict)
  }

  // ----- following the world -----

  /** Source and guard stand where the trace has brought them. */
  ghost predicate InStep(w: World, source: PrimedSource, executor: Guard.Executor, t: Trace)
    reads source, source.rest, executor
  {
    && !source.available && source.rest.answers == w.rest && (w.first.Some? ==> Looks(t) > 0)
    && source.rest.asked == w.from + Looks(t) - (if w.first.Some? then 1 else 0)
    && executor.answers == w.guard && executor.calls == w.calls + Attempts(t) && executor.latched == w.latched
  }

  /** The run got past its start. */
  predicate Begun(w: World, t: Trace) {
    t != Start && FirstObservation(t).Some? && w.skill.canStart(FirstObservation(t).value) && Genuine(w, t)
  }

  lemma ChosenBegun(w: World, t: Trace)
    requires Begun(w, t)
    ensures Begun(w, Then(t, Chosen(w.skill.nextAction(t))))
  {
    FirstStays(t, Chosen(w.skill.nextAction(t)));
  }

  lemma GuardSays(latched: bool, a: Guard.Answers, early: bool, result: ActionResult)
    requires if latched || Guard.StopSignalled(a) then result.blocked == Some(EmergencyStopped)
             else if !a.focused then result.blocked == Some(NotFocused)
             else result.blocked == if early then Some(RateLimited) else None
    ensures Guarded(latched, a, if result.blocked.Some? then Blocked(result.action, result.blocked.value)
                                else Sent(result.action))
  {}

  lemma GuardBegun(w: World, t: Trace, a: Guard.Answers, step: Step)
    requires Begun(w, t) && Attempts(t) > 0 && a == w.guard(w.calls + (Attempts(t) - 1))
    requires (step.Sent? || step.Blocked?) && Guarded(w.latched, a, step)
    ensures Begun(w, Then(t, step)) && Looks(Then(t, step)) == Looks(t)
  {
    FirstStays(t, step);
    hide FirstObservation;
  }

  lemma LookIs(w: World, t: Trace, asked: nat)
    requires asked == w.from + Looks(t) - (if w.first.Some? then 1 else 0) && (w.first.Some? ==> Looks(t) > 0)
    ensures w.Look(Looks(t)) == w.rest(asked)
  {}

  lemma SeenBegun(w: World, t: Trace, before: Observation, after: Observation, result: ActionResult)
    requires Begun(w, t) && t.step.Sent? && LastObservation(t) == Some(before) && w.Look(Looks(t)) == Some(after)
    requires result == ActionResult(t.step.action, None, [])
    ensures var o := Then(t, Observed(WithAction(after, before, result)));
      Begun(w, o) && Begun(w, Then(o, Verified(w.skill.verify(o)))) && Looks(o) == Looks(t) + 1
  {
    hide Deduplicated;
    var o := Then(t, Observed(WithAction(after, before, result)));
    FirstStays(t, o.step);
    FirstStays(o, Verified(w.skill.verify(o)));
    assert Shows(t, after, WithAction(after, before, result));
    hide FirstObservation, LastObservation, Shows;
  }

  lemma DryEnds(w: World, t: Trace)
    requires Begun(w, t) && t.step.Sent? && w.Look(Looks(t)).None?
    ensures Genuine(w, Then(t, Exhausted)) && Finished(w, Then(t, Exhausted))
  {
    hide FirstObservation;
  }

  lemma BlockedEnds(w: World, t: Trace, step: Step)
    requires Begun(w, t) && step.Blocked? && Genuine(w, Then(t, step))
    ensures Finished(w, Then(t, step))
  {
    hide FirstObservation;
  }

  lemma RefusedEnds(w: World, t: Trace, action: PrimitiveAction)
    requires Begun(w, t) && action !in w.skill.contract.allowed
    ensures Finished(w, Then(t, Chosen(action)))
  {
    hide FirstObservation;
  }

  lemma DecidedEnds(w: World, t: Trace, verdict: Verdict)
    requires Begun(w, t)
    requires Ends(w.skill.contract, t, verdict) || Attempts(Then(t, Verified(verdict))) == w.skill.contract.maxSteps
    ensures Finished(w, Then(t, Verified(verdict)))
  {
    hide FirstObservation;
  }

  lemma StepCounts(t: Trace, step: Step)
    ensures Looks(Then(t, step)) == Looks(t) + if step.Observed? || step.Exhausted? then 1 else 0
    ensures Attempts(Then(t, step)) == Attempts(t) + if step.Chosen? then 1 else 0
  {}

  lemma BegunHas(w: World, t: Trace)
    requires Begun(w, t)
    ensures t.Then? && Genuine(w, t)
  {
    hide FirstObservation, Genuine;
  }

  /** One pass of the loop of `SkillRunner.run`. */
  method Turn(ghost w: World, skill: Skill, source: PrimedSource, executor: Guard.Executor, t: Trace)
      returns (t': Trace, over: bool)
    requires executor.Valid() && AtTurn(skill.contract, t) && !source.available
    requires w.skill == skill && Begun(w, t) && InStep(w, source, executor, t)
    modifies source, source.rest, executor
    ensures executor.Valid() && !source.available && executor.latched == old(executor.latched)
    ensures TurnLeaves(skill.contract, t', over) && Attempts(t') == Attempts(t) + 1 && Attempts(t) == |Sends(t)|
    ensures Sends(t) <= Sends(t') && Actions(executor.sent) == Actions(old(executor.sent)) + Sends(t')[|Sends(t)|..]
    ensures Genuine(w, t') && (if over then Finished(w, t') else Begun(w, t') && InStep(w, source, executor, t'))
  {
    hide *;
    var c := skill.contract;
    AtTurnHas(c, t);
    InStepIs(w, source, executor, t);
    var before := LastObservation(t).value;
    var action := skill.nextAction(t);
    ChoiceMade(c, t, action);
    ChosenBegun(w, t);
    var chosen := Then(t, Chosen(action));
    BegunHas(w, chosen);
    StepCounts(t, Chosen(action));
    if action !in c.allowed {
      LeavesRefused(c, chosen);
      RefusedEnds(w, t, action);
      NoSend(Sends(t), Actions(executor.sent));
      return chosen, true;
    }
    ValueSent(executor);
    ghost var answers, early := executor.answers(executor.calls), Early(executor.sent, executor.answers(executor.calls),
                                                                        executor.minInterval);
    EarlyIs(executor.sent, answers, executor.minInterval);
    var result := executor.Execute(action);
    ValueSent(executor);
    ExecutorSends(old(executor.Value()), executor.answers(old(executor.calls)), executor.minInterval, action);
    GuardSays(w.latched, answers, early, result);
    if result.blocked.Some? {
      var stopped := Blocked(action, result.blocked.value);
      AttemptMade(c, chosen, stopped);
      LeavesStopped(c, chosen, stopped);
      GuardBegun(w, chosen, answers, stopped);
      BegunHas(w, Then(chosen, stopped));
      BlockedEnds(w, chosen, stopped);
      NoSend(Sends(t), Actions(executor.sent));
      return Then(chosen, stopped), true;
    }
    AttemptMade(c, chosen, Sent(action));
    OneSend(Sends(t), action, Actions(old(executor.sent)));
    var sent := Then(chosen, Sent(action));
    GuardBegun(w, chosen, answers, Sent(action));
    LookIs(w, sent, source.rest.asked);
    var after := source.Observe();
    if after.None? {
      RanDry(c, sent);
      LeavesStopped(c, sent, Exhausted);
      DryEnds(w, sent);
      return Then(sent, Exhausted), true;
    }
    var latest := WithAction(after.value, before, result);
    var observed := Then(sent, Observed(latest));
    var verdict := skill.verify(observed);
    SeenBegun(w, sent, before, after.value, result);
    StepCounts(observed, Verified(verdict));
    OutcomeSeen(c, sent, latest, verdict);
    LeavesVerified(c, observed, verdict);
    t', over := Then(observed, Verified(verdict)), Ends(c, observed, verdict);
    BegunHas(w, t');
    if over { DecidedEnds(w, observed, verdict); } else { IsInStep(w, source, executor, t'); }
  }

  predicate Early(sent: seq<(PrimitiveAction, real)>, a: Guard.Answers, minInterval: real) {
    sent != [] && a.at - sent[|sent| - 1].1 < minInterval
  }

  lemma EarlyIs(sent: seq<(PrimitiveAction, real)>, a: Guard.Answers, minInterval: real)
    ensures Early(sent, a, minInterval) <==> sent != [] && a.at - sent[|sent| - 1].1 < minInterval
  {}

  lemma InStepIs(w: World, source: PrimedSource, executor: Guard.Executor, t: Trace)
    requires InStep(w, source, executor, t)
    ensures source.rest.answers == w.rest && (w.first.Some? ==> Looks(t) > 0)
    ensures source.rest.asked == w.from + Looks(t) - (if w.first.Some? then 1 else 0)
    ensures executor.answers == w.guard && executor.calls == w.calls + Attempts(t) && executor.latched == w.latched
  {}

  lemma IsInStep(w: World, source: PrimedSource, executor: Guard.Executor, t: Trace)
    requires !source.available && source.rest.answers == w.rest && (w.first.Some? ==> Looks(t) > 0)
    requires source.rest.asked == w.from + Looks(t) - (if w.first.Some? then 1 else 0)
    requires executor.answers == w.guard && executor.calls == w.calls + Attempts(t) && executor.latched == w.latched
    ensures InStep(w, source, executor, t)
  {}

  lemma AtTurnHas(c: Contract, t: Trace)
    requires AtTurn(c, t)
    ensures LastObservation(t).Some? && |Sends(t)| == Attempts(t) && Legal(c, t) && !Closed(c, t) && t.Then?
  {
    hide Legal, Closed, Sends, Attempts, SinceSend, LastObservation;
  }

  lemma NoSend(sends: seq<PrimitiveAction>, actions: seq<PrimitiveAction>)
    ensures sends <= sends && actions == actions + sends[|sends|..]
  {}

  lemma OneSend(sends: seq<PrimitiveAction>, action: PrimitiveAction, actions: seq<PrimitiveAction>)
    ensures sends <= sends + [action] && actions + [action] == actions + (sends + [action])[|sends|..]
  {}

  lemma ValueSent(executor: Guard.Executor)
    ensures executor.Value().sent == executor.sent
  {}

  /** What one call adds to the backend's record. */
  lemma ExecutorSends(s: Guard.State, a: Guard.Answers, minInterval: real, action: PrimitiveAction)
    ensures var t := Guard.After(s, Guard.Execute(action, a), minInterval);
      Actions(t.sent) == if Guard.Refusal(s, a, minInterval).Some? then Actions(s.sent) else Actions(s.sent) + [action]
  {
    ActionsNext(s.sent, (action, a.at));
    hide Actions;
  }

  lemma LeavesRefused(c: Contract, t: Trace)
    requires t.Then? && t.step.Chosen? && Legal(c, t) && !Closed(c, t.before) && t.before.Then?
      && |Sends(t)| + 1 == Attempts(t)
    ensures TurnLeaves(c, t, true)
  {
    hide Legal, Closed, Sends, Attempts;
  }

  lemma LeavesStopped(c: Contract, t: Trace, step: Step)
    requires t.Then? && (step.Blocked? || step.Exhausted?) && Legal(c, Then(t, step)) && !Closed(c, t)
    requires |Sends(Then(t, step))| + (if step.Blocked? then 1 else 0) == Attempts(Then(t, step))
    ensures TurnLeaves(c, Then(t, step), true)
  {
    hide Legal, Closed, Sends, Attempts;
  }

  lemma LeavesVerified(c: Contract, t: Trace, verdict: Verdict)
    requires t.Then? && !Closed(c, t) && Legal(c, Then(t, Verified(verdict)))
    requires |Sends(Then(t, Verified(verdict)))| == Attempts(Then(t, Verified(verdict)))
    requires !Ends(c, t, verdict) ==> AtTurn(c, Then(t, Verified(verdict)))
    ensures TurnLeaves(c, Then(t, Verified(verdict)), Ends(c, t, verdict))
  {
    hide Legal, Closed, Sends, Attempts, AtTurn;
  }

  predicate IsTimeout(r: RunResult) {
    r.stop.Some? && r.stop.value.kind == Timeout
  }

  /** A run that is over reports what its last step says; one that used up its steps reports a timeout. */
  lemma RunReports(c: Contract, t: Trace, over: bool)
    requires TurnLeaves(c, t, over)
    ensures OneAuthority(ResultOf(c, t)) && ResultOf(c, t).skill == c.skill && ResultOf(c, t).verdict == LastVerdict(t)
    ensures over <==> !IsTimeout(ResultOf(c, t))
    ensures Legal(c, t)
  {
    hide EvidenceAround, LatestEvidence;
    if !over { hide Legal; }
    ResultHasOneAuthority(c, t);
  }

  lemma EmptyRun(c: Contract)
    ensures var t := Then(Start, Exhausted);
      && Legal(c, t) && OneAuthority(ResultOf(c, t)) && Sends(t) == [] && Attempts(t) == 0
      && LastVerdict(t).None? && ResultOf(c, t).verdict.None? && ResultOf(c, t).skill == c.skill
        && !IsTimeout(ResultOf(c, t)) && Unsent(t) == 0
  {
    assert Legal(c, Start) && Sends(Start) == [] && Attempts(Start) == 0 && LastVerdict(Start).None?;
  }

  lemma OnlyObserved(c: Contract, o: Observation)
    ensures var t := Then(Start, Observed(o));
      && Legal(c, t) && OneAuthority(ResultOf(c, t)) && Sends(t) == [] && Attempts(t) == 0
      && LastVerdict(t).None? && ResultOf(c, t).verdict.None? && ResultOf(c, t).skill == c.skill
        && !IsTimeout(ResultOf(c, t))
  {
    assert Legal(c, Start) && Sends(Start) == [] && Attempts(Start) == 0 && LastVerdict(Start).None?;
  }

  /** What a run that starts now will meet. */
  ghost function WorldOf(skill: Skill, source: PrimedSource, executor: Guard.Executor): World
    reads source, source.rest, executor
  {
    World(skill, if source.available then Some(source.first) else None, source.rest.answers, source.rest.asked,
          executor.latched, executor.answers, executor.calls)
  }

  /**
   * `SkillRunner.run`. Its trace is what the source, the skill, the verifier and the guard answered, one step
   * after the other until the run is finished; the backend received exactly the actions it shows as sent.
   */
  method Run(skill: Skill, source: PrimedSource, executor: Guard.Executor) returns (r: RunResult, t: Trace)
    requires executor.Valid() && skill.contract.Valid()
    modifies source, source.rest, executor
    ensures executor.Valid() && executor.latched == old(executor.latched)
    ensures RanThrough(old(WorldOf(skill, source, executor)), t, r)
    ensures r == ResultOf(skill.contract, t) && OneAuthority(r) && r.skill == skill.contract.skill
    ensures |Sends(t)| <= Attempts(t) <= skill.contract.maxSteps && Attempts(t) == |Sends(t)| + Unsent(t)
    ensures Actions(executor.sent) == Actions(old(executor.sent)) + Sends(t)
    ensures old(executor.latched) ==> Sends(t) == []
    ensures r.verdict == LastVerdict(t) && (IsTimeout(r) ==> Attempts(t) == skill.contract.maxSteps)
  {
    hide *;
    var c := skill.contract;
    ghost var w := WorldOf(skill, source, executor);
    WorldIs(skill, source, executor);
    t := Start;
    EmptyRun(c);
    NothingSent(executor.sent);
    PositiveSteps(c);
    FirstLook(w);
    var start := source.Observe();
    if start.None? {
      ResultReads(w, Then(t, Exhausted));
      RanIs(w, Then(t, Exhausted));
      return ResultOf(c, Then(t, Exhausted)), Then(t, Exhausted);
    }
    t := Then(t, Observed(start.value));
    StartedWith(c, start.value);
    OnlyObserved(c, start.value);
    if !skill.canStart(start.value) {
      ResultReads(w, t);
      RanIs(w, t);
      return ResultOf(c, t), t;
    }
    IsInStep(w, source, executor, t);
    var turn := 0;
    while turn < c.maxSteps
      invariant turn <= c.maxSteps && executor.Valid() && !source.available && executor.latched == w.latched
      invariant Attempts(t) == turn && AtTurn(c, t) && (turn > 0 ==> TurnLeaves(c, t, false))
      invariant Actions(executor.sent) == Actions(old(executor.sent)) + Sends(t)
      invariant Begun(w, t) && InStep(w, source, executor, t)
    {
      ghost var sends := Sends(t);
      var over;
      t, over := Turn(w, skill, source, executor, t);
      AppendedTo(sends, Sends(t), Actions(old(executor.sent)));
      TurnLeft(c, t, over);
      RunReports(c, t, over);
      if over {
        LatchedSendsNothing(w, t);
        ResultReads(w, t);
        RanIs(w, t);
        return ResultOf(c, t), t;
      }
      turn := turn + 1;
    }
    TurnLeft(c, t, false);
    RunReports(c, t, false);
    BegunHas(w, t);
    BudgetEnds(w, t);
    LatchedSendsNothing(w, t);
    ResultReads(w, t);
    RanIs(w, t);
    return ResultOf(c, t), t;
  }

  lemma RanIs(w: World, t: Trace)
    requires Genuine(w, t) && Finished(w, t) && Legal(w.skill.contract, t) && t.Then?
    requires Reads(w.skill.contract, t, ResultOf(w.skill.contract, t))
    ensures RanThrough(w, t, ResultOf(w.skill.contract, t))
  {}

  lemma WorldIs(skill: Skill, source: PrimedSource, executor: Guard.Executor)
    ensures var w := WorldOf(skill, source, executor);
      && w.skill == skill && w.rest == source.rest.answers && w.from == source.rest.asked
      && w.first == (if source.available then Some(source.first) else None)
      && w.guard == executor.answers && w.calls == executor.calls && w.latched == executor.latched
  {}

  /** The first look, at the start of a run. */
  lemma FirstLook(w: World)
    ensures Looks(Start) == 0 && w.Look(0) == if w.first.Some? then w.first else w.rest(w.from)
    ensures w.Look(0).None? ==> Genuine(w, Then(Start, Exhausted)) && Finished(w, Then(Start, Exhausted))
    ensures w.Look(0).Some? ==>
      var t := Then(Start, Observed(w.Look(0).value));
      && Genuine(w, t) && Looks(t) == 1 && Attempts(t) == 0 && Unsent(t) == 0
      && if w.skill.canStart(w.Look(0).value) then Begun(w, t) else Finished(w, t)
  {
    assert Looks(Start) == 0 && Genuine(w, Start);
  }

  lemma BudgetEnds(w: World, t: Trace)
    requires Begun(w, t) && TurnLeaves(w.skill.contract, t, false) && Attempts(t) == w.skill.contract.maxSteps
    ensures Finished(w, t) && Unsent(t) == 0
  {
    assert t.step.Verified? && AtTurn(w.skill.contract, t);
    FirstOfRest(t);
    hide AtTurn, Ends;
  }

  lemma FirstOfRest(t: Trace)
    requires t.Then? && t.step.Verified? && FirstObservation(t).Some?
    ensures t.before != Start && FirstObservation(t.before) == FirstObservation(t)
  {
    assert FirstObservation(Start).None?;
  }

  /** A latched guard lets nothing through. */
  lemma {:induction false} LatchedSendsNothing(w: World, t: Trace)
    requires Genuine(w, t)
    ensures w.latched ==> Sends(t) == []
  {
    if t.Then? { LatchedSendsNothing(w, t.before); }
  }

  lemma PositiveSteps(c: Contract)
    requires c.Valid()
    ensures c.maxSteps > 0
  {}

  lemma NothingSent(sent: seq<(PrimitiveAction, real)>)
    ensures Actions(sent) == Actions(sent) + []
  {}

  lemma AppendedTo(before: seq<PrimitiveAction>, after: seq<PrimitiveAction>, first: seq<PrimitiveAction>)
    ensures before <= after ==> (first + before) + after[|before|..] == first + after
  {}

  lemma TurnLeft(c: Contract, t: Trace, over: bool)
    requires TurnLeaves(c, t, over)
    ensures Legal(c, t) && Attempts(t) == |Sends(t)| + Unsent(t) && t.Then? && (!over ==> AtTurn(c, t))
  {
    hide Legal, Closed, Sends, Attempts, SinceSend, LastObservation;
  }
}
