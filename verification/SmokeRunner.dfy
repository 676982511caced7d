/**
 * The controlled live smoke runner: one loop with three exclusive action modes.
 * Adapter answers (focus, emergency stop, clock, capture, senders) are arbitrary
 * functions of everything that happened before the call.
 */
module SmokeRunner {
  import opened Prelude

  datatype InputMode = NoInput | WaitOnly | SingleTap

  datatype ResearchMode = ScreenOnly | OtherMode

  datatype ExecutionMode = Live | OtherExecution

  const TAP_ACTION := "move_right_short"
  const WAIT_ACTION := "wait"
  const MAX_FRAMES := 30

  datatype Config = Config(userStarted: bool, allowRealInput: bool, maxFrames: Option<int>, logging: bool, dryRun: bool,
                           input: InputMode, hasWaitSender: bool, hasTapSender: bool, allowedPrimitives: seq<string>,
                           maxInputCount: int, rateLimit: real, frequency: int)

  datatype Plan = Plan(officialRunAllowed: bool, mode: ResearchMode, execution: ExecutionMode,
                       maxFrames: nat, maxActions: nat, maxDuration: nat)

  datatype Summary = Summary(officialRunAllowed: bool, mode: ResearchMode, execution: ExecutionMode)

  /** A plan its own model accepts: the time limit is positive. */
  type ReadablePlan = p: Plan | p.maxDuration > 0 witness Plan(false, ScreenOnly, Live, 0, 0, 1)

  /** What the two optional paths hold; a plan that cannot be read is absent. */
  datatype PlanSource = PlanSource(summary: Option<Summary>, plan: Option<ReadablePlan>)

  datatype StartError =
    | NotUserStarted | DryRunWithLogging
    | InputNotAllowed | InputWithLoggingOrDryRun | NoSender | BadInputCount | NegativeRateLimit | WrongPrimitives
    | TooFewFrames | AllowedWithoutMode | BadFrequency
    | NoPlan | SummaryBlocks | PlanBlocks | WrongClassification | ClassificationMismatch
    | NotFocused | NoEmergencyStop | AlreadyStopped | FramesOutOfRange

  datatype StopReason = Completed | LostFocus | EmergencyStop | MaxFrames | MaxDuration | MaxActions | CaptureError

  datatype BlockReason = BlockedByFocus | BlockedByStop | OverInputCount | TooSoon | NotSent

  datatype Intent = Intent(action: string, executed: bool, inputSent: bool, frameIndex: int,
                           blocked: Option<BlockReason>)

  datatype Event =
    | RuntimeStart
    | FrameCaptured(frameIndex: int, evidence: string)
    | WaitIntent(intent: Intent)
    | DryRunTaskIntent(intent: Intent)
    | ActionRequest(intent: Intent)
    | InputExecuted(intent: Intent)
    | StopTriggered(reason: StopReason)
    | RuntimeEnd(reason: StopReason)

  /** One adapter call with its answer, or one emitted event. `Captured(None)` is a capture that raised. */
  datatype Step =
    | FocusAsked(ok: bool)
    | StopAvailableAsked(available: bool)
    | StopAsked(triggered: bool)
    | ClockRead(at: real)
    | Captured(evidence: Option<string>)
    | WaitSent(sent: bool)
    | TapSent(action: string, sent: bool)
    | Emitted(event: Event)

  datatype Trace = Start | Then(before: Trace, step: Step)

  datatype Adapters = Adapters(focus: Trace -> bool, stopAvailable: Trace -> bool, stop: Trace -> bool,
                               clock: Trace -> real, capture: Trace -> Option<string>,
                               sendWait: Trace -> bool, sendTap: (Trace, string) -> bool)

  // ----- where a trace comes from -----

  predicate StepAnswers(a: Adapters, t: Trace, step: Step) {
    match step
    case FocusAsked(ok) => ok == a.focus(t)
    case StopAvailableAsked(available) => available == a.stopAvailable(t)
    case StopAsked(triggered) => triggered == a.stop(t)
    case ClockRead(at) => at == a.clock(t)
    case Captured(evidence) => evidence == a.capture(t)
    case WaitSent(sent) => sent == a.sendWait(t)
    case TapSent(action, sent) => sent == a.sendTap(t, action)
    case Emitted(_) => true
  }

  /** Every answer in the trace is the one the adapter gives after what came before. */
  predicate Answers(a: Adapters, t: Trace) {
    match t
    case Start => true
    case Then(before, step) => Answers(a, before) && StepAnswers(a, before, step)
  }

  lemma AnswersNext(a: Adapters, t: Trace, step: Step)
    ensures Answers(a, Then(t, step)) <==> Answers(a, t) && StepAnswers(a, t, step)
  {}

  // ----- what a trace says -----

  function Captures(t: Trace): nat {
    match t
    case Start => 0
    case Then(before, Captured(Some(_))) => Captures(before) + 1
    case Then(before, _) => Captures(before)
  }

  /** The ids of the captured frames, in order. */
  function Evidence(t: Trace): seq<string> {
    match t
    case Start => []
    case Then(before, Captured(Some(evidence))) => Evidence(before) + [evidence]
    case Then(before, _) => Evidence(before)
  }

  predicate IsSend(step: Step) {
    step.WaitSent? || step.TapSent?
  }

  /** Successful sends. */
  function Sends(t: Trace): nat {
    match t
    case Start => 0
    case Then(before, step) => Sends(before) + if IsSend(step) && step.sent then 1 else 0
  }

  function CapturesAfterSend(t: Trace): nat {
    match t
    case Start => 0
    case Then(before, Captured(Some(_))) => CapturesAfterSend(before) + if Sends(before) > 0 then 1 else 0
    case Then(before, _) => CapturesAfterSend(before)
  }

  predicate IsBlock(step: Step) {
    && step.Emitted? && (step.event.WaitIntent? || step.event.ActionRequest?) && step.event.intent.blocked.Some?
    && step.event.intent.action == if step.event.WaitIntent? then WAIT_ACTION else TAP_ACTION
  }

  /** Attempts reported as blocked. */
  function Blocks(t: Trace): nat {
    match t
    case Start => 0
    case Then(before, step) => Blocks(before) + if IsBlock(step) then 1 else 0
  }

  /** The clock readings taken right before the successful wait sends, in order. */
  function SendTimes(t: Trace): seq<real> {
    match t
    case Start => []
    case Then(Then(before, ClockRead(at)), WaitSent(true)) => SendTimes(before) + [at]
    case Then(before, _) => SendTimes(before)
  }

  /** Focus held and no stop was signalled at the two checks that end `t`. */
  predicate Clear(t: Trace) {
    t.Then? && t.step == StopAsked(false) && t.before.Then? && t.before.step == FocusAsked(true)
  }

  /** The clock reading taken right before the run reported its start. */
  function StartedAt(t: Trace): Option<real> {
    if Opening(t).Some? && Opening(t).value.Then? && Opening(t).value.step.ClockRead? then
      Some(Opening(t).value.step.at)
    else None
  }

  /** What happened before the run reported its start. */
  function Opening(t: Trace): Option<Trace> {
    match t
    case Start => None
    case Then(before, Emitted(RuntimeStart)) => Some(before)
    case Then(before, _) => Opening(before)
  }

  /** Focus held, the emergency stop was available and not triggered; with real input focus was asked for again. */
  predicate ClearOpening(c: Config, t: Trace) {
    var checked := Then(Then(Then(Start, FocusAsked(true)), StopAvailableAsked(true)), StopAsked(false));
    && t.Then? && t.step.ClockRead?
    && t.before == if c.allowRealInput then Then(checked, FocusAsked(true)) else checked
  }

  /** The run started, and only after every check. */
  predicate Opened(c: Config, t: Trace) {
    Opening(t).Some? && ClearOpening(c, Opening(t).value)
  }

  predicate SameStart(t: Trace, t': Trace) {
    Opening(t') == Opening(t) && StartedAt(t') == StartedAt(t)
  }

  /**
   * Every capture follows a clock reading within the time limit of the start and passing checks; every send
   * follows its own passing checks; neither follows a blocked attempt.
   */
  predicate Guarded(t: Trace, duration: nat) {
    match t
    case Start => true
    case Then(before, step) =>
      && Guarded(before, duration)
      && (step.Captured? ==>
            && Blocks(before) == 0 && Clear(before)
            && before.before.before.Then? && before.before.before.step.ClockRead?
            && StartedAt(before).Some? && before.before.before.step.at - StartedAt(before).value < duration as real)
      && (step.WaitSent? ==>
            && Blocks(before) == 0
            && before.Then? && before.step.ClockRead? && Clear(before.before))
      && (step.TapSent? ==> Blocks(before) == 0 && step.action == TAP_ACTION && Clear(before))
  }

  predicate Spaced(times: seq<real>, gap: real) {
    forall i, j :: 0 <= i < j < |times| ==> times[j] - times[i] >= gap
  }

  /** The latest answer of one adapter. */
  function LastFocus(t: Trace): Option<bool> {
    match t
    case Start => None
    case Then(_, FocusAsked(ok)) => Some(ok)
    case Then(before, _) => LastFocus(before)
  }

  function LastStop(t: Trace): Option<bool> {
    match t
    case Start => None
    case Then(_, StopAsked(triggered)) => Some(triggered)
    case Then(before, _) => LastStop(before)
  }

  function LastClock(t: Trace): Option<real> {
    match t
    case Start => None
    case Then(_, ClockRead(at)) => Some(at)
    case Then(before, _) => LastClock(before)
  }

  function LastCapture(t: Trace): Option<Option<string>> {
    match t
    case Start => None
    case Then(_, Captured(evidence)) => Some(evidence)
    case Then(before, _) => LastCapture(before)
  }

  // ----- starting -----

  function ModeError(c: Config): Option<StartError> {
    if c.input == WaitOnly then
      if !c.allowRealInput then Some(InputNotAllowed)
      else if c.logging || c.dryRun then Some(InputWithLoggingOrDryRun)
      else if !c.hasWaitSender then Some(NoSender)
      else if c.maxInputCount < 1 then Some(BadInputCount)
      else if c.rateLimit < 0.0 then Some(NegativeRateLimit)
      else None
    else if c.input == SingleTap then
      if !c.allowRealInput then Some(InputNotAllowed)
      else if c.logging || c.dryRun then Some(InputWithLoggingOrDryRun)
      else if !c.hasTapSender then Some(NoSender)
      else if c.allowedPrimitives != [TAP_ACTION] then Some(WrongPrimitives)
      else if c.maxInputCount != 1 then Some(BadInputCount)
      else if c.maxFrames.Some? && c.maxFrames.value < 2 then Some(TooFewFrames)
      else if c.rateLimit < 0.0 then Some(NegativeRateLimit)
      else None
    else if c.allowRealInput then Some(AllowedWithoutMode)
    else None
  }

  function ConfigError(c: Config): Option<StartError> {
    if !c.userStarted then Some(NotUserStarted)
    else if c.dryRun && c.logging then Some(DryRunWithLogging)
    else if ModeError(c).Some? then ModeError(c)
    else if c.frequency < 1 then Some(BadFrequency)
    else None
  }

  function LoadAllowedPlan(source: PlanSource): Result<Plan, StartError> {
    if source.summary.Some? && !source.summary.value.officialRunAllowed then Err(SummaryBlocks)
    else if source.plan.None? then Err(NoPlan)
    else
      var plan := source.plan.value;
      if !plan.officialRunAllowed then Err(PlanBlocks)
      else if plan.mode != ScreenOnly || plan.execution != Live then Err(WrongClassification)
      else if source.summary.Some? && (source.summary.value.mode != plan.mode
          || source.summary.value.execution != plan.execution) then
        Err(ClassificationMismatch)
      else Ok(plan)
  }

  function Min(a: int, b: int): int {
    if a <= b then a else b
  }

  function EffectiveMaxFrames(c: Config, plan: Plan): int {
    Min(plan.maxFrames, if c.maxFrames.Some? then c.maxFrames.value else MAX_FRAMES)
  }

  /** No more frames than the plan and the caller allow; a caller who sets no limit is held to 30. */
  predicate WithinFrames(c: Config, plan: Plan, frames: int) {
    && frames <= plan.maxFrames
    && (c.maxFrames.Some? ==> frames <= c.maxFrames.value)
    && (c.maxFrames.None? ==> frames <= 30)
  }

  lemma EffectiveIsLimit(c: Config, plan: Plan, frames: int)
    ensures frames <= EffectiveMaxFrames(c, plan) <==> WithinFrames(c, plan, frames)
  {}

  function FramesError(c: Config, plan: Plan): Option<StartError> {
    if c.maxFrames.Some? && !(1 <= c.maxFrames.value <= MAX_FRAMES) then Some(FramesOutOfRange)
    else if c.input == SingleTap && EffectiveMaxFrames(c, plan) < 2 then Some(TooFewFrames)
    else None
  }

  /** The reported reason to stop is what the adapters last answered, or a limit that was reached. */
  predicate StopTrue(c: Config, plan: Plan, t: Trace, stop: StopReason, actions: nat) {
    match stop
    case Completed => false
    case LostFocus => LastFocus(t) == Some(false)
    case EmergencyStop => LastStop(t) == Some(true) && LastFocus(t) == Some(true)
    case MaxFrames => !WithinFrames(c, plan, Captures(t) + 1)
    case MaxDuration => LastClock(t).Some? && StartedAt(t).Some?
        && LastClock(t).value - StartedAt(t).value >= plan.maxDuration as real
    case MaxActions =>
      || Blocks(t) > 0
      || (&& plan.maxActions > 0 && actions >= plan.maxActions && WithinFrames(c, plan, Captures(t) + 1)
          && LastClock(t).Some? && StartedAt(t).Some?
          && LastClock(t).value - StartedAt(t).value < plan.maxDuration as real)
    case CaptureError => LastCapture(t) == Some(None)
  }

  // ----- the loop's state -----

  datatype RunState = RunState(trace: Trace, stop: StopReason, frames: nat, actions: nat, attempts: nat, sent: nat,
                               allowed: nat, forbidden: nat, executedWaits: nat,
                               focusChecks: nat, focusPasses: nat, stopChecks: nat, stopClears: nat,
                               exceeded: bool, lastInput: Option<real>,
                               evidence: seq<string>, pre: seq<string>, post: seq<string>,
                               requested: seq<Intent>, executed: seq<Intent>, tasks: seq<Intent>)

  function Initial(trace: Trace): RunState {
    RunState(trace, Completed, 0, 0, 0, 0, 0, 0, 0, 0, 0, 0, 0, false, None, [], [], [], [], [], [])
  }

  function Emit(s: RunState, event: Event): RunState {
    s.(trace := Then(s.trace, Emitted(event)))
  }

  function PreCaptureStopReason(focusOk: bool, triggered: bool, elapsed: real, plan: Plan, frames: nat,
                                maxFrames: int, actions: nat): StopReason {
    if !focusOk then LostFocus
    else if triggered then EmergencyStop
    else if elapsed >= plan.maxDuration as real then MaxDuration
    else if frames >= maxFrames then MaxFrames
    else if plan.maxActions > 0 && actions >= plan.maxActions then MaxActions
    else Completed
  }

  /** The clock, focus and stop readings at the top of the loop. */
  function PreCapture(c: Config, plan: Plan, a: Adapters, start: real, s: RunState): RunState {
    var at := a.clock(s.trace);
    var t1 := Then(s.trace, ClockRead(at));
    var focusOk := a.focus(t1);
    var t2 := Then(t1, FocusAsked(focusOk));
    var triggered := a.stop(t2);
    s.(trace := Then(t2, StopAsked(triggered)),
       stop := PreCaptureStopReason(focusOk, triggered, at - start, plan, s.frames, EffectiveMaxFrames(c, plan),
           s.actions))
  }

  /** A captured frame, after the capture call itself. */
  function RecordFrame(c: Config, s: RunState, evidence: string): RunState {
    var counted := s.(trace := Then(s.trace, Captured(Some(evidence))), frames := s.frames + 1, evidence :=
        s.evidence + [evidence]);
    var sorted :=
      if c.input == SingleTap then
        if s.sent == 0 && s.attempts == 0 then counted.(pre := s.pre + [evidence])
        else if s.sent == 1 then counted.(post := s.post + [evidence])
        else counted
      else counted;
    Emit(sorted, FrameCaptured(s.frames, evidence))
  }

  predicate OnBeat(c: Config, frames: nat)
    requires c.frequency >= 1
  {
    frames % c.frequency == 0
  }

  /** The two modes that only log: a no-op wait intent, or a dry-run task around one. */
  function LogIntents(c: Config, s: RunState): RunState
    requires c.frequency >= 1
  {
    var intent := Intent(WAIT_ACTION, false, false, s.frames - 1, None);
    var logged :=
      if c.logging && OnBeat(c, s.frames) then
        Emit(s.(requested := s.requested + [intent], actions := s.actions + 1), WaitIntent(intent))
      else s;
    if c.dryRun && OnBeat(c, s.frames) then
      Emit(logged.(tasks := logged.tasks + [intent], requested := logged.requested + [intent], actions :=
          logged.actions + 1),
           DryRunTaskIntent(intent))
    else logged
  }

  function StopFor(blocked: Option<BlockReason>): StopReason {
    match blocked
    case None => Completed
    case Some(BlockedByFocus) => LostFocus
    case Some(BlockedByStop) => EmergencyStop
    case Some(_) => MaxActions
  }

  /** The counters an attempt moves before anything is sent. */
  function CountChecks(s: RunState, trace: Trace, focusOk: bool, triggered: bool): RunState {
    s.(trace := trace, attempts := s.attempts + 1, actions := s.actions + 1,
       focusChecks := s.focusChecks + 1, focusPasses := s.focusPasses + (if focusOk then 1 else 0),
       stopChecks := s.stopChecks + 1, stopClears := s.stopClears + (if triggered then 0 else 1))
  }

  function CheckBlock(focusOk: bool, triggered: bool, overCount: bool, tooSoon: bool): Option<BlockReason> {
    if !focusOk then Some(BlockedByFocus)
    else if triggered then Some(BlockedByStop)
    else if overCount then Some(OverInputCount)
    else if tooSoon then Some(TooSoon)
    else None
  }

  function WaitAttempt(c: Config, a: Adapters, s: RunState): (r: (RunState, Option<BlockReason>)) {
    var focusOk := a.focus(s.trace);
    var t1 := Then(s.trace, FocusAsked(focusOk));
    var triggered := a.stop(t1);
    var t2 := Then(t1, StopAsked(triggered));
    var at := a.clock(t2);
    var checked := CountChecks(s, Then(t2, ClockRead(at)), focusOk, triggered);
    var gate := CheckBlock(focusOk, triggered, checked.attempts > c.maxInputCount,
                           s.lastInput.Some? && at - s.lastInput.value < c.rateLimit);
    var sent := gate.None? && c.hasWaitSender && a.sendWait(checked.trace);
    var blocked := if gate.Some? then gate else if sent then None else Some(NotSent);
    var called := if gate.None? && c.hasWaitSender then checked.(trace := Then(checked.trace, WaitSent(sent)))
        else checked;
    var counted :=
      if sent then
        called.(sent := s.sent + 1, allowed := s.allowed + 1, executedWaits := s.executedWaits + 1, lastInput :=
            Some(at))
      else called.(forbidden := s.forbidden + 1, exceeded := s.exceeded || gate == Some(OverInputCount), stop :=
          StopFor(blocked));
    var intent := Intent(WAIT_ACTION, sent, sent, s.frames - 1, blocked);
    var listed := counted.(requested := s.requested + [intent], executed :=
        if sent then s.executed + [intent] else s.executed);
    (Emit(listed, WaitIntent(intent)), blocked)
  }

  function TapAttempt(c: Config, a: Adapters, s: RunState): (r: (RunState, Option<BlockReason>)) {
    var focusOk := a.focus(s.trace);
    var t1 := Then(s.trace, FocusAsked(focusOk));
    var triggered := a.stop(t1);
    var checked := CountChecks(s, Then(t1, StopAsked(triggered)), focusOk, triggered);
    var gate := CheckBlock(focusOk, triggered, checked.attempts > c.maxInputCount, false);
    var sent := gate.None? && c.hasTapSender && a.sendTap(checked.trace, TAP_ACTION);
    var blocked := if gate.Some? then gate else if sent then None else Some(NotSent);
    var called := if gate.None? && c.hasTapSender
        then checked.(trace := Then(checked.trace, TapSent(TAP_ACTION, sent))) else checked;
    var at := a.clock(called.trace);
    var counted :=
      if sent then called.(trace := Then(called.trace, ClockRead(at)), sent := s.sent + 1, allowed :=
          s.allowed + 1, lastInput := Some(at))
      else called.(forbidden := s.forbidden + 1, exceeded := s.exceeded || gate == Some(OverInputCount), stop :=
          StopFor(blocked));
    var intent := Intent(TAP_ACTION, sent, sent, s.frames - 1, blocked);
    var requested := Emit(counted.(requested := s.requested + [intent]), ActionRequest(intent));
    if sent then (Emit(requested.(executed := s.executed + [intent]), InputExecuted(intent)), blocked)
        else (requested, blocked)
  }

  // ----- the report and its validator -----

  datatype Report = Report(
    allowRealInput: bool, mode: ResearchMode, execution: ExecutionMode, executionEnabled: bool, stop: StopReason,
        actionsRequested: nat,
    noInputSent: bool, inputsSent: nat, logging: bool, dryRun: bool, input: InputMode, waitOnlyActive: bool,
    allowedPrimitives: seq<string>, inputAttempts: nat, allowedInputs: nat, forbiddenInputs: nat,
    executedActionCount: nat, executedWaits: nat, forbiddenExecuted: nat,
    focusChecks: nat, focusPasses: nat, stopChecks: nat, stopClears: nat,
    rateLimitEnabled: bool, maxInputCount: int, maxInputCountExceeded: bool, officialScreenOnly: bool,
    dryRunTaskCount: nat, dryRunSkillCount: nat, dryRunTasks: seq<Intent>, managerDryRun: bool, bodyDryRun: bool,
    requested: seq<Intent>, executed: seq<Intent>, capturedFrames: nat, evidence: seq<string>,
    preEvidence: seq<string>, postEvidence: seq<string>, autonomyClaimed: bool, hiddenStateViolations: nat)
  {
    predicate DisabledOk() {
      !waitOnlyActive && noInputSent && inputsSent == 0 && executed == []
    }

    predicate WaitOk() {
      && allowRealInput && waitOnlyActive && mode == ScreenOnly && officialScreenOnly && !logging && !dryRun
      && rateLimitEnabled && maxInputCount > 0 && !maxInputCountExceeded
      && inputsSent > 0 && !noInputSent
      && (forall i :: 0 <= i < |executed|
                      ==> executed[i].action == WAIT_ACTION && executed[i].executed && executed[i].inputSent)
      && executedActionCount == |executed| && executedWaits == executedActionCount && inputsSent == executedWaits
      && forbiddenInputs == 0 && forbiddenExecuted == 0
      && focusChecks >= inputsSent && stopChecks >= inputsSent
    }

    predicate TapOk() {
      && allowRealInput && mode == ScreenOnly && officialScreenOnly && allowedPrimitives == [TAP_ACTION] && !logging
        && !dryRun
      && maxInputCount == 1 && !maxInputCountExceeded && inputsSent == 1 && !noInputSent
      && |executed| == 1 && executed[0].action == TAP_ACTION && executed[0].executed && executed[0].inputSent
      && executedActionCount == 1 && executedWaits == 0 && forbiddenInputs == 0 && forbiddenExecuted == 0
      && focusChecks == 1 && focusPasses == 1 && stopChecks == 1 && stopClears == 1
      && preEvidence != [] && postEvidence != []
    }

    predicate DryRunOk() {
      if dryRun then
        && dryRunTasks != [] && dryRunTaskCount == |dryRunTasks| && dryRunSkillCount == |dryRunTasks| && managerDryRun
          && bodyDryRun
        && forall i :: 0 <= i < |dryRunTasks| ==>
             dryRunTasks[i].action == WAIT_ACTION && !dryRunTasks[i].executed && !dryRunTasks[i].inputSent
      else
        dryRunTaskCount == 0 && dryRunSkillCount == 0 && dryRunTasks == [] && !managerDryRun && !bodyDryRun
    }

    /** `report_must_not_claim_autonomy`. */
    predicate Accepted() {
      && mode == ScreenOnly && execution == Live && !executionEnabled
      && (match input
          case NoInput => DisabledOk()
          case WaitOnly => WaitOk()
          case SingleTap => TapOk())
      && DryRunOk()
      && !autonomyClaimed && hiddenStateViolations == 0
    }
  }

  /** Any report the validator takes: only its mode's input, fully accounted for, and nothing claimed or forbidden. */
  lemma AcceptedMeans(r: Report)
    requires r.Accepted()
    ensures r.mode == ScreenOnly && r.execution == Live && !r.executionEnabled
    ensures !r.autonomyClaimed && r.hiddenStateViolations == 0
    ensures r.inputsSent == |r.executed| && (r.noInputSent <==> r.inputsSent == 0)
    ensures r.input == NoInput <==> r.inputsSent == 0
    ensures forall i :: 0 <= i < |r.executed| ==>
              && r.executed[i].executed && r.executed[i].inputSent
              && r.executed[i].action == if r.input == WaitOnly then "wait" else "move_right_short"
    ensures r.input != NoInput ==>
      && r.allowRealInput && r.officialScreenOnly && !r.logging && !r.dryRun
      && r.forbiddenInputs == 0 && r.forbiddenExecuted == 0 && !r.maxInputCountExceeded
      && r.focusChecks >= r.inputsSent && r.stopChecks >= r.inputsSent
    ensures r.input == WaitOnly ==> r.rateLimitEnabled && r.maxInputCount > 0 && r.executedWaits == r.inputsSent
    ensures r.input == SingleTap ==>
      && r.inputsSent == r.maxInputCount == 1 && r.allowedPrimitives == ["move_right_short"] && r.executedWaits == 0
      && r.focusPasses == 1 && r.stopClears == 1 && r.preEvidence != [] && r.postEvidence != []
    ensures if r.dryRun then r.dryRunTasks != [] && r.managerDryRun && r.bodyDryRun else r.dryRunTasks == []
    ensures |r.dryRunTasks| == r.dryRunTaskCount == r.dryRunSkillCount
    ensures forall i :: 0 <= i < |r.dryRunTasks| ==> !r.dryRunTasks[i].executed && !r.dryRunTasks[i].inputSent
  {}

  function ReportOf(c: Config, plan: Plan, s: RunState): Report {
    Report(c.allowRealInput, plan.mode, plan.execution, false, s.stop, s.actions,
           s.sent == 0, s.sent, c.logging, c.dryRun, c.input, c.input == WaitOnly,
           c.allowedPrimitives, s.attempts, s.allowed, s.forbidden,
           |s.executed|, s.executedWaits, 0,
           s.focusChecks, s.focusPasses, s.stopChecks, s.stopClears,
           c.input == WaitOnly, c.maxInputCount, s.exceeded, plan.mode == ScreenOnly,
           |s.tasks|, |s.tasks|, s.tasks, c.dryRun, c.dryRun,
           s.requested, s.executed, s.frames, s.evidence,
           s.pre, s.post, false, 0)
  }

  // ----- what the loop keeps -----

  /** A configuration and plan that passed every check made before the loop. */
  predicate MayRun(c: Config, plan: Plan) {
    && ConfigError(c).None? && FramesError(c, plan).None?
    && plan.officialRunAllowed && plan.mode == ScreenOnly && plan.execution == Live && plan.maxDuration > 0
  }

  /** The counters are the trace's counts. */
  predicate Tally(s: RunState) {
    && s.frames == Captures(s.trace) == |s.evidence| && s.evidence == Evidence(s.trace)
    && s.sent == Sends(s.trace) == s.allowed == |s.executed|
    && s.forbidden == Blocks(s.trace) <= 1
    && s.attempts == s.sent + s.forbidden
    && s.focusChecks == s.stopChecks == s.attempts
    && (s.forbidden == 0 ==> s.focusPasses == s.stopClears == s.sent && !s.exceeded)
  }

  predicate AllSentWith(executed: seq<Intent>, action: string) {
    forall i :: 0 <= i < |executed| ==> executed[i].action == action && executed[i].executed && executed[i].inputSent
  }

  predicate InputTally(c: Config, s: RunState) {
    match c.input
    case NoInput => s.attempts == s.executedWaits == 0
    case WaitOnly =>
      s.executedWaits == s.sent <= c.maxInputCount && AllSentWith(s.executed, WAIT_ACTION) && s.post == []
    case SingleTap =>
      && s.attempts <= 1 && s.executedWaits == 0 && AllSentWith(s.executed, TAP_ACTION)
      && (s.frames > 0 ==> s.pre != []) && |s.post| == CapturesAfterSend(s.trace) && s.pre + s.post == s.evidence
  }

  /** The last successful wait send was at the remembered time; no earlier pair was closer than the limit. */
  predicate SpacingTally(c: Config, s: RunState) {
    var times := SendTimes(s.trace);
    if c.input == WaitOnly then
      && Spaced(times, c.rateLimit)
      && (match s.lastInput case None => times == [] case Some(at) => times != [] && times[|times| - 1] == at)
    else times == []
  }

  predicate AllUnsent(tasks: seq<Intent>) {
    forall i :: 0 <= i < |tasks| ==> tasks[i].action == WAIT_ACTION && !tasks[i].executed && !tasks[i].inputSent
  }

  predicate DryRunTally(c: Config, s: RunState, frames: nat)
    requires c.frequency >= 1
  {
    && AllUnsent(s.tasks) && |s.tasks| == (if c.dryRun then frames / c.frequency else 0)
    && s.actions == |s.requested| == s.attempts + LoggedIntents(c, frames)
  }

  /** One intent on every `frequency`-th frame in each of the modes that only log. */
  function LoggedIntents(c: Config, frames: nat): nat
    requires c.frequency >= 1
  {
    (if c.logging then frames / c.frequency else 0) + (if c.dryRun then frames / c.frequency else 0)
  }

  predicate WithinLimits(c: Config, plan: Plan, s: RunState) {
    s.frames <= EffectiveMaxFrames(c, plan) && (plan.maxActions > 0 ==> s.actions <= plan.maxActions)
  }

  /** What holds whenever the loop starts another turn or ends. */
  predicate Kept(c: Config, plan: Plan, start: real, s: RunState)
    requires c.frequency >= 1
  {
    && Tally(s) && InputTally(c, s) && SpacingTally(c, s) && DryRunTally(c, s, s.frames) && WithinLimits(c, plan, s)
    && StartedAt(s.trace) == Some(start) && Opened(c, s.trace) && Guarded(s.trace, plan.maxDuration)
  }

  // ----- steps that count for nothing -----

  predicate IsQuiet(step: Step) {
    !step.Captured? && !IsSend(step) && !IsBlock(step) && step != Emitted(RuntimeStart)
  }

  predicate SameCounts(t: Trace, t': Trace) {
    && Captures(t') == Captures(t) && Evidence(t') == Evidence(t) && Sends(t') == Sends(t) && Blocks(t') == Blocks(t)
    && CapturesAfterSend(t') == CapturesAfterSend(t) && SendTimes(t') == SendTimes(t)
    && SameStart(t, t')
  }

  lemma Quiet(t: Trace, step: Step, duration: nat)
    requires IsQuiet(step)
    ensures SameCounts(t, Then(t, step)) && (Guarded(t, duration) ==> Guarded(Then(t, step), duration))
  {}

  /** A state that differs from `s` in nothing the invariant counts. */
  predicate SameTallies(s: RunState, t: RunState) {
    && SameCounts(s.trace, t.trace)
    && t.frames == s.frames && t.attempts == s.attempts && t.sent == s.sent && t.allowed == s.allowed
      && t.forbidden == s.forbidden
    && t.executedWaits == s.executedWaits && t.focusChecks == s.focusChecks && t.focusPasses == s.focusPasses
    && t.stopChecks == s.stopChecks && t.stopClears == s.stopClears && t.exceeded == s.exceeded
      && t.lastInput == s.lastInput
    && t.evidence == s.evidence && t.pre == s.pre && t.post == s.post && t.executed == s.executed
  }

  lemma SameTalliesKeep(c: Config, s: RunState, t: RunState)
    requires SameTallies(s, t)
    ensures Tally(s) ==> Tally(t)
    ensures InputTally(c, s) ==> InputTally(c, t)
    ensures SpacingTally(c, s) ==> SpacingTally(c, t)
  {
    hide Captures, Evidence, Sends, Blocks, CapturesAfterSend, SendTimes, StartedAt, Opening;
  }

  lemma PreCaptureQuiet(c: Config, plan: Plan, a: Adapters, start: real, s: RunState)
    requires Guarded(s.trace, plan.maxDuration)
    ensures var t := PreCapture(c, plan, a, start, s);
      && SameTallies(s, t) && t.tasks == s.tasks && t.actions == s.actions && t.requested == s.requested
      && Guarded(t.trace, plan.maxDuration)
  {
    hide Captures, Evidence, Sends, Blocks, CapturesAfterSend, SendTimes, StartedAt, Opening, Guarded;
    var at := a.clock(s.trace);
    var t1 := Then(s.trace, ClockRead(at));
    var t2 := Then(t1, FocusAsked(a.focus(t1)));
    Quiet(s.trace, ClockRead(at), plan.maxDuration);
    Quiet(t1, FocusAsked(a.focus(t1)), plan.maxDuration);
    Quiet(t2, StopAsked(a.stop(t2)), plan.maxDuration);
  }

  /** A turn that may capture has room for one more frame and one more action, and has just passed the checks. */
  lemma PreCaptureClears(c: Config, plan: Plan, a: Adapters, start: real, s: RunState)
    requires PreCapture(c, plan, a, start, s).stop == Completed
    requires Guarded(s.trace, plan.maxDuration) && StartedAt(s.trace) == Some(start) && Blocks(s.trace) == 0
    ensures var t := PreCapture(c, plan, a, start, s);
      && t.frames < EffectiveMaxFrames(c, plan) && (plan.maxActions > 0 ==> t.actions < plan.maxActions)
      && CaptureReady(plan, t.trace)
  {
    hide Guarded, Captures, Evidence, Sends, Blocks, CapturesAfterSend, SendTimes, StartedAt, Opening;
    PreCaptureQuiet(c, plan, a, start, s);
  }

  // ----- capturing -----

  predicate CaptureReady(plan: Plan, t: Trace) {
    && Blocks(t) == 0 && Clear(t) && t.before.before.Then? && t.before.before.step.ClockRead?
    && StartedAt(t).Some? && t.before.before.step.at - StartedAt(t).value < plan.maxDuration as real
  }

  lemma CaptureCounts(t: Trace, evidence: Option<string>, plan: Plan)
    requires Guarded(t, plan.maxDuration) && CaptureReady(plan, t)
    ensures var t' := Then(t, Captured(evidence));
      && Captures(t') == Captures(t) + (if evidence.Some? then 1 else 0)
      && Evidence(t') == Evidence(t) + (if evidence.Some? then [evidence.value] else [])
      && Sends(t') == Sends(t) && Blocks(t') == Blocks(t) && SendTimes(t') == SendTimes(t)
      && CapturesAfterSend(t') == CapturesAfterSend(t) + (if evidence.Some? && Sends(t) > 0 then 1 else 0)
      && SameStart(t, t') && Guarded(t', plan.maxDuration)
  {}

  /** One attempt on every `frequency`-th frame, or one tap on the first. */
  function ExpectedAttempts(c: Config, frames: nat): nat
    requires c.frequency >= 1
  {
    match c.input
    case NoInput => 0
    case WaitOnly => frames / c.frequency
    case SingleTap => if frames == 0 then 0 else 1
  }

  predicate OnTurn(c: Config, s: RunState, frames: nat)
    requires c.frequency >= 1
  {
    s.attempts == ExpectedAttempts(c, frames)
  }

  lemma FailedCaptureKeeps(c: Config, plan: Plan, start: real, s: RunState)
    requires c.frequency >= 1 && Kept(c, plan, start, s) && CaptureReady(plan, s.trace)
    ensures Kept(c, plan, start, s.(trace := Then(s.trace, Captured(None)), stop := CaptureError))
  {
    hide Captures, Evidence, Sends, Blocks, CapturesAfterSend, SendTimes, StartedAt, Opening, Guarded, Clear,
         CaptureReady;
    CaptureCounts(s.trace, None, plan);
    SameTalliesKeep(c, s, s.(trace := Then(s.trace, Captured(None)), stop := CaptureError));
  }

  lemma RecordFrameTrace(c: Config, plan: Plan, s: RunState, evidence: string)
    requires Guarded(s.trace, plan.maxDuration) && CaptureReady(plan, s.trace)
    ensures var t := RecordFrame(c, s, evidence).trace;
      && Captures(t) == Captures(s.trace) + 1 && Evidence(t) == Evidence(s.trace) + [evidence]
      && Sends(t) == Sends(s.trace) && Blocks(t) == Blocks(s.trace)
      && SendTimes(t) == SendTimes(s.trace) && SameStart(s.trace, t) && Guarded(t, plan.maxDuration)
      && CapturesAfterSend(t) == CapturesAfterSend(s.trace) + (if Sends(s.trace) > 0 then 1 else 0)
  {
    hide Captures, Evidence, Sends, Blocks, CapturesAfterSend, SendTimes, StartedAt, Opening, Guarded, Clear,
         CaptureReady;
    CaptureCounts(s.trace, Some(evidence), plan);
    Quiet(Then(s.trace, Captured(Some(evidence))), Emitted(FrameCaptured(s.frames, evidence)), plan.maxDuration);
  }

  /** Recording a frame keeps everything but the count of dry-run tasks, which is now one frame behind. */
  lemma RecordFrameKeeps(c: Config, plan: Plan, start: real, s: RunState, evidence: string)
    requires c.frequency >= 1 && Kept(c, plan, start, s) && OnTurn(c, s, s.frames) && s.forbidden == 0
    requires CaptureReady(plan, s.trace) && s.frames < EffectiveMaxFrames(c, plan)
    ensures var t := RecordFrame(c, s, evidence);
      && Tally(t) && InputTally(c, t) && SpacingTally(c, t) && DryRunTally(c, t, s.frames) && WithinLimits(c, plan, t)
      && StartedAt(t.trace) == Some(start) && Opened(c, t.trace) && Guarded(t.trace, plan.maxDuration)
      && t.frames == s.frames + 1 && t.actions == s.actions && t.forbidden == 0 && t.stop == s.stop
        && OnTurn(c, t, s.frames)
  {
    RecordFrameTallies(c, plan, s, evidence);
    hide Captures, Evidence, Sends, Blocks, CapturesAfterSend, SendTimes, StartedAt, Opening, Guarded, Clear,
         CaptureReady, Tally, InputTally, SpacingTally;
    RecordFrameTrace(c, plan, s, evidence);
  }

  lemma RecordFrameTallies(c: Config, plan: Plan, s: RunState, evidence: string)
    requires Tally(s) && InputTally(c, s) && SpacingTally(c, s)
    requires c.frequency >= 1 && OnTurn(c, s, s.frames) && s.forbidden == 0
    requires Guarded(s.trace, plan.maxDuration) && CaptureReady(plan, s.trace)
    ensures var t := RecordFrame(c, s, evidence); Tally(t) && InputTally(c, t) && SpacingTally(c, t)
  {
    hide Captures, Evidence, Sends, Blocks, CapturesAfterSend, SendTimes, StartedAt, Opening, Guarded, Clear,
         CaptureReady;
    RecordFrameTrace(c, plan, s, evidence);
  }

  // ----- the logging modes -----

  lemma BeatCount(frames: nat, frequency: nat)
    requires frequency >= 1
    ensures (frames + 1) / frequency == frames / frequency + if (frames + 1) % frequency == 0 then 1 else 0
  {
    var q, r := frames / frequency, frames % frequency;
    if r == frequency - 1 {
      QuotientIs(frames + 1, q + 1, frequency);
    } else {
      QuotientIs(frames + 1, q, frequency);
    }
    DivisionBounds(frames + 1, frequency);
  }

  lemma LogIntentsQuiet(c: Config, plan: Plan, s: RunState)
    requires c.frequency >= 1 && s.frames >= 1 && Guarded(s.trace, plan.maxDuration)
    ensures var t := LogIntents(c, s);
      && SameTallies(s, t) && Guarded(t.trace, plan.maxDuration) && t.stop == s.stop
      && t.tasks == (if c.dryRun && OnBeat(c, s.frames)
        then s.tasks + [Intent(WAIT_ACTION, false, false, s.frames - 1, None)] else s.tasks)
      && t.actions - s.actions == |t.requested| - |s.requested|
      && t.actions == s.actions + (if c.logging && OnBeat(c, s.frames) then 1 else 0)
                                + (if c.dryRun && OnBeat(c, s.frames) then 1 else 0)
  {
    hide Captures, Evidence, Sends, Blocks, CapturesAfterSend, SendTimes, StartedAt, Opening, Guarded;
    var intent := Intent(WAIT_ACTION, false, false, s.frames - 1, None);
    Quiet(s.trace, Emitted(WaitIntent(intent)), plan.maxDuration);
    Quiet(s.trace, Emitted(DryRunTaskIntent(intent)), plan.maxDuration);
    Quiet(Then(s.trace, Emitted(WaitIntent(intent))), Emitted(DryRunTaskIntent(intent)), plan.maxDuration);
  }

  // ----- attempts -----

  lemma WaitSentCounts(t: Trace, at: real, sent: bool, duration: nat)
    requires Guarded(t, duration) && Blocks(t) == 0 && Clear(t)
    ensures var t' := Then(Then(t, ClockRead(at)), WaitSent(sent));
      && Captures(t') == Captures(t) && Evidence(t') == Evidence(t) && CapturesAfterSend(t') == CapturesAfterSend(t)
      && Blocks(t') == 0
      && Sends(t') == Sends(t) + (if sent then 1 else 0)
        && SendTimes(t') == (if sent then SendTimes(t) + [at] else SendTimes(t))
      && SameStart(t, t') && Guarded(t', duration)
  {
    Quiet(t, ClockRead(at), duration);
    assert Then(t, ClockRead(at)).step.ClockRead?;
  }

  lemma TapSentCounts(t: Trace, sent: bool, duration: nat)
    requires Guarded(t, duration) && Blocks(t) == 0 && Clear(t)
    ensures var t' := Then(t, TapSent(TAP_ACTION, sent));
      && Captures(t') == Captures(t) && Evidence(t') == Evidence(t) && CapturesAfterSend(t') == CapturesAfterSend(t)
      && Blocks(t') == 0
      && Sends(t') == Sends(t) + (if sent then 1 else 0) && SendTimes(t') == SendTimes(t)
        && SameStart(t, t') && Guarded(t', duration)
  {}

  lemma BlockCounts(t: Trace, event: Event, duration: nat)
    requires IsBlock(Emitted(event)) && Guarded(t, duration)
    ensures var t' := Then(t, Emitted(event));
      && Captures(t') == Captures(t) && Evidence(t') == Evidence(t) && CapturesAfterSend(t') == CapturesAfterSend(t)
      && Blocks(t') == Blocks(t) + 1
      && Sends(t') == Sends(t) && SendTimes(t') == SendTimes(t) && SameStart(t, t')
        && Guarded(t', duration)
  {}

  /** The trace after an attempt that was not blocked, or was: one more send, or one more block. */
  predicate AttemptTrace(t: Trace, t': Trace, sent: bool, times: seq<real>, duration: nat) {
    && Captures(t') == Captures(t) && Evidence(t') == Evidence(t) && CapturesAfterSend(t') == CapturesAfterSend(t)
    && Sends(t') == Sends(t) + (if sent then 1 else 0) && Blocks(t') == (if sent then 0 else 1)
    && SendTimes(t') == times && SameStart(t, t') && Guarded(t', duration)
  }

  lemma ChecksQuiet(t: Trace, focusOk: bool, triggered: bool, duration: nat)
    requires Guarded(t, duration)
    ensures var t' := Then(Then(t, FocusAsked(focusOk)), StopAsked(triggered));
      SameCounts(t, t') && Guarded(t', duration) && (focusOk && !triggered ==> Clear(t'))
  {
    hide Captures, Evidence, Sends, Blocks, CapturesAfterSend, SendTimes, StartedAt, Opening, Guarded;
    Quiet(t, FocusAsked(focusOk), duration);
    Quiet(Then(t, FocusAsked(focusOk)), StopAsked(triggered), duration);
  }

  lemma WaitTrace(c: Config, plan: Plan, a: Adapters, s: RunState)
    requires Guarded(s.trace, plan.maxDuration) && Blocks(s.trace) == 0
    ensures var (t, blocked) := WaitAttempt(c, a, s);
      AttemptTrace(s.trace, t.trace, blocked.None?,
                   if blocked.None? && t.lastInput.Some? then SendTimes(s.trace) + [t.lastInput.value]
                       else SendTimes(s.trace),
                   plan.maxDuration)
  {
    hide Captures, Evidence, Sends, Blocks, CapturesAfterSend, SendTimes, StartedAt, Opening, Guarded, Clear;
    var focusOk := a.focus(s.trace);
    var t1 := Then(s.trace, FocusAsked(focusOk));
    var triggered := a.stop(t1);
    var t2 := Then(t1, StopAsked(triggered));
    var at := a.clock(t2);
    var t3 := Then(t2, ClockRead(at));
    var (t, blocked) := WaitAttempt(c, a, s);
    ChecksQuiet(s.trace, focusOk, triggered, plan.maxDuration);
    Quiet(t2, ClockRead(at), plan.maxDuration);
    var last := t.trace.before;
    if last != t3 { WaitSentCounts(t2, at, blocked.None?, plan.maxDuration); }
    if blocked.None? { Quiet(last, t.trace.step, plan.maxDuration); }
    else { BlockCounts(last, t.trace.step.event, plan.maxDuration); }
  }

  lemma SpacedNext(times: seq<real>, at: real, gap: real)
    requires Spaced(times, gap) && gap >= 0.0 && (times != [] ==> at - times[|times| - 1] >= gap)
    ensures Spaced(times + [at], gap)
  {
    var all := times + [at];
    forall i, j | 0 <= i < j < |all| ensures all[j] - all[i] >= gap {
      if j == |times| && i < |times| - 1 {
        assert times[|times| - 1] - times[i] >= gap;
      }
    }
  }

  /** What an attempt does to the counters. */
  predicate AttemptCounters(s: RunState, t: RunState, sent: bool) {
    && t.frames == s.frames && t.evidence == s.evidence && t.pre == s.pre && t.post == s.post && t.tasks == s.tasks
    && t.attempts == s.attempts + 1 && t.actions == s.actions + 1 && |t.requested| == |s.requested| + 1
    && t.sent == s.sent + (if sent then 1 else 0) && t.allowed == s.allowed + (if sent then 1 else 0)
    && t.forbidden == s.forbidden + (if sent then 0 else 1)
    && (t.exceeded ==> s.exceeded || !sent)
    && t.focusChecks == s.focusChecks + 1 && t.stopChecks == s.stopChecks + 1
    && (sent ==> t.focusPasses == s.focusPasses + 1 && t.stopClears == s.stopClears + 1)
    && |t.executed| == |s.executed| + (if sent then 1 else 0) && s.executed <= t.executed
    && (!sent ==> t.executed == s.executed && t.lastInput == s.lastInput && t.stop != Completed)
  }

  lemma WaitCounters(c: Config, a: Adapters, s: RunState)
    ensures var (t, blocked) := WaitAttempt(c, a, s);
      && AttemptCounters(s, t, blocked.None?)
      && t.executedWaits == s.executedWaits + (if blocked.None? then 1 else 0)
      && (blocked.None? ==>
            && t.stop == s.stop && t.attempts <= c.maxInputCount && t.lastInput.Some?
            && (s.lastInput.Some? ==> t.lastInput.value - s.lastInput.value >= c.rateLimit)
            && t.executed == s.executed + [Intent(WAIT_ACTION, true, true, s.frames - 1, None)])
  {}

  lemma WaitExplained(c: Config, plan: Plan, a: Adapters, s: RunState)
    requires s.stop == Completed
    ensures var (t, blocked) := WaitAttempt(c, a, s);
      blocked.Some? && Blocks(t.trace) == t.forbidden == 1 ==> StopTrue(c, plan, t.trace, t.stop, t.actions)
  {
    hide Captures, Evidence, Sends, Blocks, CapturesAfterSend, SendTimes, StartedAt, Opening;
    var focusOk := a.focus(s.trace);
    var t1 := Then(s.trace, FocusAsked(focusOk));
    var triggered := a.stop(t1);
    var t2 := Then(t1, StopAsked(triggered));
    var t3 := Then(t2, ClockRead(a.clock(t2)));
    assert LastFocus(t3) == LastFocus(t2) == LastFocus(t1) == Some(focusOk);
    assert LastStop(t3) == LastStop(t2) == Some(triggered);
  }

  lemma TapExplained(c: Config, plan: Plan, a: Adapters, s: RunState)
    requires s.stop == Completed
    ensures var (t, blocked) := TapAttempt(c, a, s);
      blocked.Some? && Blocks(t.trace) == t.forbidden == 1 ==> StopTrue(c, plan, t.trace, t.stop, t.actions)
  {
    hide Captures, Evidence, Sends, Blocks, CapturesAfterSend, SendTimes, StartedAt, Opening;
    var focusOk := a.focus(s.trace);
    var t1 := Then(s.trace, FocusAsked(focusOk));
    var triggered := a.stop(t1);
    var t2 := Then(t1, StopAsked(triggered));
    assert LastFocus(t2) == LastFocus(t1) == Some(focusOk);
    assert LastStop(t2) == Some(triggered);
  }

  lemma WaitBlockTrue(c: Config, plan: Plan, a: Adapters, s: RunState)
    requires s.forbidden == 0 && Tally(s) && SpacingTally(c, s) && Guarded(s.trace, plan.maxDuration)
    requires c.input == WaitOnly
    ensures var (t, blocked) := WaitAttempt(c, a, s); blocked.Some? ==> BlockTrue(c, t)
  {
    hide Captures, Evidence, Sends, Blocks, CapturesAfterSend, SendTimes, StartedAt, Opening, Guarded, Spaced;
    WaitTrace(c, plan, a, s);
    var focusOk := a.focus(s.trace);
    var t1 := Then(s.trace, FocusAsked(focusOk));
    var triggered := a.stop(t1);
    var t2 := Then(t1, StopAsked(triggered));
    var at := a.clock(t2);
    var t3 := Then(t2, ClockRead(at));
    assert LastFocus(t3) == LastFocus(t2) == LastFocus(t1) == Some(focusOk);
    assert LastStop(t3) == LastStop(t2) == Some(triggered);
    assert LastClock(t3) == Some(at);
    var (t, blocked) := WaitAttempt(c, a, s);
    if blocked.Some? {
      var last := t.trace.before;
      assert last == t3 || last == Then(t3, WaitSent(false));
      SameReadings(t3, last);
      SameReadings(last, t.trace);
    }
  }

  /** A step that asks nothing leaves the last readings. */
  lemma SameReadings(t: Trace, t': Trace)
    requires t' == t || (t'.Then? && t'.before == t && (t'.step.WaitSent? || t'.step.TapSent? || t'.step.Emitted?))
    ensures LastFocus(t') == LastFocus(t) && LastStop(t') == LastStop(t) && LastClock(t') == LastClock(t)
  {}

  lemma TapBlockTrue(c: Config, plan: Plan, a: Adapters, s: RunState)
    requires s.forbidden == 0 && Tally(s)
    requires c.input == SingleTap
    ensures var (t, blocked) := TapAttempt(c, a, s); blocked.Some? ==> BlockTrue(c, t)
  {
    hide Captures, Evidence, Sends, Blocks, CapturesAfterSend, SendTimes, StartedAt, Opening, Guarded;
    var focusOk := a.focus(s.trace);
    var t1 := Then(s.trace, FocusAsked(focusOk));
    var triggered := a.stop(t1);
    var t2 := Then(t1, StopAsked(triggered));
    assert LastFocus(t2) == LastFocus(t1) == Some(focusOk);
    assert LastStop(t2) == Some(triggered);
    var (t, blocked) := TapAttempt(c, a, s);
    if blocked.Some? {
      var last := t.trace.before;
      assert last == t2 || last == Then(t2, TapSent(TAP_ACTION, false));
      SameReadings(t2, last);
      SameReadings(last, t.trace);
    }
  }

  lemma WaitKeeps(c: Config, plan: Plan, a: Adapters, start: real, s: RunState)
    requires c.frequency >= 1 && c.input == WaitOnly && c.rateLimit >= 0.0 && Kept(c, plan, start, s)
      && s.forbidden == 0
    requires plan.maxActions > 0 ==> s.actions < plan.maxActions
    ensures var (t, blocked) := WaitAttempt(c, a, s);
      && Kept(c, plan, start, t) && t.frames == s.frames && (t.forbidden == 0 <==> blocked.None?)
      && (blocked.None? ==> t.stop == s.stop)
  {
    hide Captures, Evidence, Sends, Blocks, CapturesAfterSend, SendTimes, StartedAt, Opening, Guarded, WaitAttempt,
         Spaced;
    WaitTrace(c, plan, a, s);
    WaitCounters(c, a, s);
    var (t, blocked) := WaitAttempt(c, a, s);
    if blocked.None? { SpacedNext(SendTimes(s.trace), t.lastInput.value, c.rateLimit); }
  }

  lemma TapTrace(c: Config, plan: Plan, a: Adapters, s: RunState)
    requires Guarded(s.trace, plan.maxDuration) && Blocks(s.trace) == 0
    ensures var (t, blocked) := TapAttempt(c, a, s);
      AttemptTrace(s.trace, t.trace, blocked.None?, SendTimes(s.trace), plan.maxDuration)
  {
    hide Captures, Evidence, Sends, Blocks, CapturesAfterSend, SendTimes, StartedAt, Opening, Guarded, Clear;
    var focusOk := a.focus(s.trace);
    var t1 := Then(s.trace, FocusAsked(focusOk));
    var triggered := a.stop(t1);
    var t2 := Then(t1, StopAsked(triggered));
    var (t, blocked) := TapAttempt(c, a, s);
    ChecksQuiet(s.trace, focusOk, triggered, plan.maxDuration);
    if blocked.None? {
      var t3 := Then(t2, TapSent(TAP_ACTION, true));
      var t4 := Then(t3, ClockRead(a.clock(t3)));
      TapSentCounts(t2, true, plan.maxDuration);
      Quiet(t3, t4.step, plan.maxDuration);
      Quiet(t4, t.trace.before.step, plan.maxDuration);
      Quiet(t.trace.before, t.trace.step, plan.maxDuration);
    } else {
      var last := t.trace.before;
      if last != t2 { TapSentCounts(t2, false, plan.maxDuration); }
      BlockCounts(last, t.trace.step.event, plan.maxDuration);
    }
  }

  lemma TapCounters(c: Config, a: Adapters, s: RunState)
    ensures var (t, blocked) := TapAttempt(c, a, s);
      && AttemptCounters(s, t, blocked.None?) && t.executedWaits == s.executedWaits
      && (blocked.None? ==> t.stop == s.stop
                            && t.executed == s.executed + [Intent(TAP_ACTION, true, true, s.frames - 1, None)])
  {}

  lemma TapKeeps(c: Config, plan: Plan, a: Adapters, start: real, s: RunState)
    requires c.frequency >= 1 && c.input == SingleTap && Kept(c, plan, start, s) && s.attempts == 0
    requires s.frames == 1
    requires plan.maxActions > 0 ==> s.actions < plan.maxActions
    ensures var (t, blocked) := TapAttempt(c, a, s);
      && Kept(c, plan, start, t) && t.frames == s.frames && (t.forbidden == 0 <==> blocked.None?)
      && (blocked.None? ==> t.stop == s.stop)
  {
    hide Captures, Evidence, Sends, Blocks, CapturesAfterSend, SendTimes, StartedAt, Opening, Guarded, TapAttempt,
         Spaced;
    TapTrace(c, plan, a, s);
    TapCounters(c, a, s);
  }

  // ----- the steps are the adapters' -----

  lemma PreCaptureAnswers(c: Config, plan: Plan, a: Adapters, start: real, s: RunState)
    requires Answers(a, s.trace)
    ensures Answers(a, PreCapture(c, plan, a, start, s).trace)
  {
    hide Answers;
    var t1 := Then(s.trace, ClockRead(a.clock(s.trace)));
    var t2 := Then(t1, FocusAsked(a.focus(t1)));
    AnswersNext(a, s.trace, t1.step);
    AnswersNext(a, t1, t2.step);
    AnswersNext(a, t2, StopAsked(a.stop(t2)));
  }

  lemma FrameAnswers(c: Config, a: Adapters, s: RunState, evidence: string)
    requires c.frequency >= 1 && Answers(a, s.trace) && a.capture(s.trace) == Some(evidence)
    ensures Answers(a, LogIntents(c, RecordFrame(c, s, evidence)).trace)
  {
    hide Answers;
    var t1 := Then(s.trace, Captured(Some(evidence)));
    var t2 := Then(t1, Emitted(FrameCaptured(s.frames, evidence)));
    AnswersNext(a, s.trace, t1.step);
    AnswersNext(a, t1, t2.step);
    var intent := Intent(WAIT_ACTION, false, false, s.frames, None);
    AnswersNext(a, t2, Emitted(WaitIntent(intent)));
    AnswersNext(a, t2, Emitted(DryRunTaskIntent(intent)));
    AnswersNext(a, Then(t2, Emitted(WaitIntent(intent))), Emitted(DryRunTaskIntent(intent)));
  }

  lemma WaitAnswers(c: Config, a: Adapters, s: RunState)
    requires Answers(a, s.trace)
    ensures Answers(a, WaitAttempt(c, a, s).0.trace)
  {
    hide Answers;
    var t1 := Then(s.trace, FocusAsked(a.focus(s.trace)));
    var t2 := Then(t1, StopAsked(a.stop(t1)));
    var t3 := Then(t2, ClockRead(a.clock(t2)));
    AnswersNext(a, s.trace, t1.step);
    AnswersNext(a, t1, t2.step);
    AnswersNext(a, t2, t3.step);
    AnswersNext(a, t3, WaitSent(a.sendWait(t3)));
    var t := WaitAttempt(c, a, s).0.trace;
    AnswersNext(a, t.before, t.step);
  }

  lemma TapAnswers(c: Config, a: Adapters, s: RunState)
    requires Answers(a, s.trace)
    ensures Answers(a, TapAttempt(c, a, s).0.trace)
  {
    hide Answers;
    var t1 := Then(s.trace, FocusAsked(a.focus(s.trace)));
    var t2 := Then(t1, StopAsked(a.stop(t1)));
    var t3 := Then(t2, TapSent(TAP_ACTION, a.sendTap(t2, TAP_ACTION)));
    var t4 := Then(t3, ClockRead(a.clock(t3)));
    AnswersNext(a, s.trace, t1.step);
    AnswersNext(a, t1, t2.step);
    AnswersNext(a, t2, t3.step);
    AnswersNext(a, t3, t4.step);
    hide StepAnswers;
    var (r, blocked) := TapAttempt(c, a, s);
    if blocked.None? {
      assert r.trace.before.before == t4;
      EventAnswers(a, t4, r.trace.before.step);
    }
    EventAnswers(a, r.trace.before, r.trace.step);
  }

  lemma EventAnswers(a: Adapters, t: Trace, step: Step)
    requires Answers(a, t) && step.Emitted?
    ensures Answers(a, Then(t, step))
  {}

  // ----- the loop -----

  /** The invariant between turns. */
  predicate Ready(c: Config, plan: Plan, start: real, s: RunState)
    requires c.frequency >= 1
  {
    Kept(c, plan, start, s) && OnTurn(c, s, s.frames) && s.forbidden == 0
  }

  /** The invariant at the end. */
  predicate Done(c: Config, plan: Plan, start: real, s: RunState)
    requires c.frequency >= 1
  {
    && Kept(c, plan, start, s) && OnTurn(c, s, s.frames) && StopTrue(c, plan, s.trace, s.stop, s.actions)
    && BlockTrue(c, s)
  }

  /** A blocked attempt is the last one, and is listed with the first reason that stood against it. */
  predicate BlockTrue(c: Config, s: RunState) {
    s.forbidden > 0 ==>
      && s.requested != [] && BlockedFor(c, s.trace, s.attempts, s.requested[|s.requested| - 1].blocked)
      && s.focusPasses == s.sent + (if LastFocus(s.trace) == Some(true) then 1 else 0)
      && s.stopClears == s.sent + (if LastStop(s.trace) == Some(false) then 1 else 0)
      && (s.exceeded <==> s.requested[|s.requested| - 1].blocked == Some(OverInputCount))
  }

  /** The first of focus, stop, input count, spacing and sender that stands against the last attempt of `t`. */
  predicate BlockedFor(c: Config, t: Trace, attempts: nat, reason: Option<BlockReason>) {
    reason == Some(
      if LastFocus(t) != Some(true) then BlockedByFocus
      else if LastStop(t) != Some(false) then BlockedByStop
      else if attempts > c.maxInputCount then OverInputCount
      else if c.input == WaitOnly && SendTimes(t) != [] && LastClock(t).Some?
              && LastClock(t).value - SendTimes(t)[|SendTimes(t)| - 1] < c.rateLimit then TooSoon
      else NotSent)
  }

  /** Past the frame: everything but the attempt is settled. */
  predicate Settled(c: Config, plan: Plan, start: real, s: RunState)
    requires c.frequency >= 1
  {
    && Kept(c, plan, start, s) && s.forbidden == 0 && s.frames > 0 && s.stop == Completed && OnTurn(c, s, s.frames - 1)
    && (c.input != NoInput && plan.maxActions > 0 ==> s.actions < plan.maxActions)
  }

  lemma PreCaptureExplained(c: Config, plan: Plan, a: Adapters, start: real, s: RunState)
    requires StartedAt(s.trace) == Some(start) && s.frames == Captures(s.trace) && Guarded(s.trace, plan.maxDuration)
    ensures var t := PreCapture(c, plan, a, start, s);
      t.stop != Completed ==> StopTrue(c, plan, t.trace, t.stop, t.actions)
  {
    PreCaptureQuiet(c, plan, a, start, s);
    hide Captures, Evidence, Sends, Blocks, CapturesAfterSend, SendTimes, StartedAt, Opening, Guarded;
    var t := PreCapture(c, plan, a, start, s).trace;
    assert LastStop(t) == Some(t.step.triggered);
    assert LastFocus(t) == LastFocus(t.before) == Some(t.before.step.ok);
    assert LastClock(t) == LastClock(t.before) == LastClock(t.before.before) == Some(t.before.before.step.at);
  }

  lemma PreCaptureKeeps(c: Config, plan: Plan, a: Adapters, start: real, s: RunState)
    requires c.frequency >= 1 && Ready(c, plan, start, s)
    ensures var t := PreCapture(c, plan, a, start, s);
      && Ready(c, plan, start, t) && t.frames == s.frames
      && (t.stop == Completed ==>
            && CaptureReady(plan, t.trace) && t.frames < EffectiveMaxFrames(c, plan)
            && (plan.maxActions > 0 ==> t.actions < plan.maxActions))
      && (t.stop != Completed ==> StopTrue(c, plan, t.trace, t.stop, t.actions))
  {
    hide Captures, Evidence, Sends, Blocks, CapturesAfterSend, SendTimes, StartedAt, Opening, Guarded, PreCapture,
         Clear, CaptureReady, StopTrue;
    var t := PreCapture(c, plan, a, start, s);
    PreCaptureExplained(c, plan, a, start, s);
    PreCaptureQuiet(c, plan, a, start, s);
    SameTalliesKeep(c, s, t);
    if t.stop == Completed { PreCaptureClears(c, plan, a, start, s); }
  }

  /** Capturing, recording and logging one frame. */
  lemma FrameKeeps(c: Config, plan: Plan, start: real, s: RunState, evidence: string)
    requires MayRun(c, plan) && Ready(c, plan, start, s) && s.stop == Completed
    requires CaptureReady(plan, s.trace) && s.frames < EffectiveMaxFrames(c, plan)
      && (plan.maxActions > 0 ==> s.actions < plan.maxActions)
    ensures var t := LogIntents(c, RecordFrame(c, s, evidence));
      Settled(c, plan, start, t) && t.frames == s.frames + 1
  {
    hide Captures, Evidence, Sends, Blocks, CapturesAfterSend, SendTimes, StartedAt, Opening, Guarded, Clear,
         CaptureReady, RecordFrame, LogIntents;
    var r := RecordFrame(c, s, evidence);
    RecordFrameKeeps(c, plan, start, s, evidence);
    LogIntentsQuiet(c, plan, r);
    SameTalliesKeep(c, r, LogIntents(c, r));
    BeatCount(s.frames, c.frequency);
  }

  lemma ClockKeeps(c: Config, plan: Plan, start: real, s: RunState, at: real, stop: StopReason)
    requires c.frequency >= 1 && Ready(c, plan, start, s)
    ensures Ready(c, plan, start, s.(trace := Then(s.trace, ClockRead(at)), stop := stop))
  {
    hide Captures, Evidence, Sends, Blocks, CapturesAfterSend, SendTimes, StartedAt, Opening, Guarded;
    Quiet(s.trace, ClockRead(at), plan.maxDuration);
    SameTalliesKeep(c, s, s.(trace := Then(s.trace, ClockRead(at)), stop := stop));
  }

  lemma StopKeeps(c: Config, plan: Plan, start: real, s: RunState, stop: StopReason)
    requires c.frequency >= 1 && Ready(c, plan, start, s) && StopTrue(c, plan, s.trace, stop, s.actions)
    ensures Done(c, plan, start, s.(stop := stop))
  {
    hide Captures, Evidence, Sends, Blocks, CapturesAfterSend, SendTimes, StartedAt, Opening, Guarded, StopTrue;
    SameCountsSelf(s.trace);
    SameTalliesKeep(c, s, s.(stop := stop));
  }

  lemma SameCountsSelf(t: Trace)
    ensures SameCounts(t, t)
  {}

  /** A turn ends ready for the next one, or blocked and explained. */
  predicate TurnEnds(c: Config, plan: Plan, start: real, s: RunState, blocked: bool)
    requires c.frequency >= 1
  {
    if blocked then Done(c, plan, start, s) else Ready(c, plan, start, s)
  }

  lemma WaitDue(c: Config, frames: nat)
    requires c.frequency >= 1 && c.input == WaitOnly && frames > 0 && OnBeat(c, frames)
    ensures ExpectedAttempts(c, frames) == ExpectedAttempts(c, frames - 1) + 1
  {
    BeatCount(frames - 1, c.frequency);
  }

  lemma WaitTurn(c: Config, plan: Plan, a: Adapters, start: real, s: RunState)
    requires MayRun(c, plan) && Settled(c, plan, start, s) && c.input == WaitOnly && OnBeat(c, s.frames)
    ensures var (t, blocked) := WaitAttempt(c, a, s);
      t.frames == s.frames && TurnEnds(c, plan, start, t, blocked.Some?)
  {
    hide StopTrue, Captures, Evidence, Sends, Blocks, CapturesAfterSend, SendTimes, StartedAt, Opening, Guarded,
         WaitAttempt, SpacingTally, FramesError, DryRunTally, EffectiveMaxFrames, ExpectedAttempts, OnBeat;
    WaitDue(c, s.frames);
    WaitKeeps(c, plan, a, start, s);
    WaitCounters(c, a, s);
    WaitExplained(c, plan, a, s);
    WaitBlockTrue(c, plan, a, s);
    var (t, blocked) := WaitAttempt(c, a, s);
    assert OnTurn(c, t, t.frames);
    assert blocked.Some? ==> t.forbidden == 1;
  }

  lemma TapTurn(c: Config, plan: Plan, a: Adapters, start: real, s: RunState)
    requires MayRun(c, plan) && Settled(c, plan, start, s) && c.input == SingleTap && s.frames == 1 && s.attempts == 0
    ensures var (t, blocked) := TapAttempt(c, a, s);
      t.frames == s.frames && TurnEnds(c, plan, start, t, blocked.Some?)
  {
    hide StopTrue, Captures, Evidence, Sends, Blocks, CapturesAfterSend, SendTimes, StartedAt, Opening, Guarded,
         TapAttempt, SpacingTally;
    TapKeeps(c, plan, a, start, s);
    TapCounters(c, a, s);
    TapExplained(c, plan, a, s);
    TapBlockTrue(c, plan, a, s);
    var (t, blocked) := TapAttempt(c, a, s);
    assert t.attempts == 1 && t.frames == 1;
    assert OnTurn(c, t, t.frames);
  }

  lemma NoTurn(c: Config, plan: Plan, start: real, s: RunState)
    requires MayRun(c, plan) && Settled(c, plan, start, s)
    requires c.input == WaitOnly ==> !OnBeat(c, s.frames)
    requires c.input == SingleTap ==> !(s.frames == 1 && s.attempts == 0)
    ensures TurnEnds(c, plan, start, s, false)
  {
    BeatCount(s.frames - 1, c.frequency);
    hide Kept, EffectiveMaxFrames;
  }

  /** One turn's attempt, in whichever input mode is on. */
  method Attempt(c: Config, plan: Plan, a: Adapters, start: real, s: RunState) returns (t: RunState, blocked: bool)
    requires MayRun(c, plan) && Settled(c, plan, start, s) && Answers(a, s.trace)
    ensures t.frames == s.frames && TurnEnds(c, plan, start, t, blocked) && Answers(a, t.trace)
  {
    hide *;
    FrequencyPositive(c, plan);
    if c.input == WaitOnly && OnBeat(c, s.frames) {
      WaitTurn(c, plan, a, start, s);
      WaitAnswers(c, a, s);
      var (next, reason) := WaitAttempt(c, a, s);
      return next, reason.Some?;
    }
    if c.input == SingleTap && s.frames == 1 && s.attempts == 0 {
      TapTurn(c, plan, a, start, s);
      TapAnswers(c, a, s);
      var (next, reason) := TapAttempt(c, a, s);
      return next, reason.Some?;
    }
    NoTurn(c, plan, start, s);
    return s, false;
  }

  /** The loop of `run_controlled_live_smoke`. */
  method CaptureLoop(c: Config, plan: Plan, a: Adapters, start: real, s0: RunState) returns (s: RunState)
    requires MayRun(c, plan) && Ready(c, plan, start, s0) && Answers(a, s0.trace)
    ensures Done(c, plan, start, s) && Answers(a, s.trace)
  {
    hide Answers, StopTrue, Kept, PreCapture, RecordFrame, LogIntents, CaptureReady, ConfigError, FramesError,
         EffectiveMaxFrames;
    s := s0;
    assert c.frequency >= 1 by { FrequencyPositive(c, plan); }
    KeptWithin(c, plan, start, s);
    while true
      invariant Ready(c, plan, start, s)
      invariant s.frames <= EffectiveMaxFrames(c, plan) && Answers(a, s.trace)
      decreases EffectiveMaxFrames(c, plan) - s.frames
    {
      PreCaptureKeeps(c, plan, a, start, s);
      PreCaptureAnswers(c, plan, a, start, s);
      s := PreCapture(c, plan, a, start, s);
      if s.stop != Completed { return s; }
      var frame := a.capture(s.trace);
      AnswersNext(a, s.trace, Captured(frame));
      if frame.None? {
        FailedCaptureKeeps(c, plan, start, s);
        RaisedExplained(c, plan, s.trace, s.actions);
        return s.(trace := Then(s.trace, Captured(None)), stop := CaptureError);
      }
      FrameKeeps(c, plan, start, s, frame.value);
      FrameAnswers(c, a, s, frame.value);
      s := LogIntents(c, RecordFrame(c, s, frame.value));
      var blocked;
      s, blocked := Attempt(c, plan, a, start, s);
      if blocked { return s; }
      if s.frames >= EffectiveMaxFrames(c, plan) {
        FramesExplained(c, plan, start, s);
        StopKeeps(c, plan, start, s, MaxFrames);
        return s.(stop := MaxFrames);
      }
      var at := a.clock(s.trace);
      AnswersNext(a, s.trace, ClockRead(at));
      if at - start >= plan.maxDuration as real {
        ClockKeeps(c, plan, start, s, at, MaxDuration);
        DurationExplained(c, plan, start, s, at);
        return s.(trace := Then(s.trace, ClockRead(at)), stop := MaxDuration);
      }
      ClockKeeps(c, plan, start, s, at, s.stop);
      s := s.(trace := Then(s.trace, ClockRead(at)));
    }
  }

  lemma RaisedExplained(c: Config, plan: Plan, t: Trace, actions: nat)
    ensures StopTrue(c, plan, Then(t, Captured(None)), CaptureError, actions)
  {}

  lemma FramesExplained(c: Config, plan: Plan, start: real, s: RunState)
    requires c.frequency >= 1 && Ready(c, plan, start, s) && s.frames >= EffectiveMaxFrames(c, plan)
    ensures StopTrue(c, plan, s.trace, MaxFrames, s.actions)
  {}

  lemma DurationExplained(c: Config, plan: Plan, start: real, s: RunState, at: real)
    requires c.frequency >= 1 && Ready(c, plan, start, s) && at - start >= plan.maxDuration as real
    ensures StopTrue(c, plan, Then(s.trace, ClockRead(at)), MaxDuration, s.actions)
  {
    Quiet(s.trace, ClockRead(at), plan.maxDuration);
    hide Captures, Evidence, Sends, Blocks, CapturesAfterSend, SendTimes, StartedAt, Opening, Guarded;
  }

  lemma EmittedExplained(c: Config, plan: Plan, t: Trace, stop: StopReason, actions: nat, event: Event)
    requires StopTrue(c, plan, t, stop, actions) && SameCounts(t, Then(t, Emitted(event)))
    ensures StopTrue(c, plan, Then(t, Emitted(event)), stop, actions)
  {
    hide Captures, Evidence, Sends, Blocks, CapturesAfterSend, SendTimes, StartedAt, Opening;
  }

  lemma FrequencyPositive(c: Config, plan: Plan)
    requires MayRun(c, plan)
    ensures c.frequency >= 1
  {}

  lemma KeptWithin(c: Config, plan: Plan, start: real, s: RunState)
    requires c.frequency >= 1 && Kept(c, plan, start, s)
    ensures s.frames <= EffectiveMaxFrames(c, plan)
  {}

  // ----- what a finished run says -----

  /** The guarantees over a whole run, read off its trace alone. */
  predicate SafeRun(c: Config, plan: Plan, t: Trace) {
    && Guarded(t, plan.maxDuration)
    && WithinFrames(c, plan, Captures(t))
    && Sends(t) <= (if c.input == NoInput then 0 else c.maxInputCount)
    && Blocks(t) <= 1
    && Spaced(SendTimes(t), c.rateLimit)
  }

  /** When the report's validator takes the counters. */
  predicate Acceptable(c: Config, t: Trace) {
    match c.input
    case NoInput => c.dryRun ==> Captures(t) >= c.frequency
    case WaitOnly => Sends(t) > 0 && Blocks(t) == 0
    case SingleTap => Sends(t) > 0 && Blocks(t) == 0 && CapturesAfterSend(t) > 0
  }

  lemma DoneSafe(c: Config, plan: Plan, start: real, s: RunState)
    requires MayRun(c, plan) && Done(c, plan, start, s)
    ensures SafeRun(c, plan, s.trace) && s.attempts == Sends(s.trace) + Blocks(s.trace) && s.frames == Captures(s.trace)
    ensures StopTrue(c, plan, s.trace, s.stop, s.actions) && c.frequency >= 1
      && s.attempts == ExpectedAttempts(c, s.frames)
  {
    hide StopTrue, Captures, Evidence, Sends, Blocks, CapturesAfterSend, SendTimes, StartedAt, Opening, Guarded;
  }

  lemma AtLeastOneBeat(frames: nat, frequency: nat)
    requires frequency >= 1
    ensures frames / frequency > 0 <==> frames >= frequency
  {
    DivisionBounds(frames, frequency);
    if frames >= frequency { Scaled(frames / frequency + 1, 1, frequency); }
    else { QuotientIs(frames, 0, frequency); }
  }

  lemma AcceptedWithoutInput(c: Config, plan: Plan, start: real, s: RunState)
    requires MayRun(c, plan) && Done(c, plan, start, s) && c.input == NoInput
    ensures ReportOf(c, plan, s).Accepted() <==> (c.dryRun ==> s.frames >= c.frequency)
  {
    hide Captures, Evidence, Sends, Blocks, CapturesAfterSend, SendTimes, StartedAt, Opening, Guarded;
    AtLeastOneBeat(s.frames, c.frequency);
  }

  lemma AcceptedWait(c: Config, plan: Plan, start: real, s: RunState)
    requires MayRun(c, plan) && Done(c, plan, start, s) && c.input == WaitOnly
    ensures ReportOf(c, plan, s).Accepted() <==> s.sent > 0 && s.forbidden == 0
  {
    hide Captures, Evidence, Sends, Blocks, CapturesAfterSend, SendTimes, StartedAt, Opening, Guarded;
  }

  lemma AcceptedTap(c: Config, plan: Plan, start: real, s: RunState)
    requires MayRun(c, plan) && Done(c, plan, start, s) && c.input == SingleTap
    ensures ReportOf(c, plan, s).Accepted() <==> s.sent > 0 && s.forbidden == 0 && s.post != []
  {
    hide Captures, Evidence, Sends, Blocks, CapturesAfterSend, SendTimes, StartedAt, Opening, Guarded;
  }

  /** The validator accepts exactly the runs that are acceptable by their trace. */
  lemma AcceptedExactly(c: Config, plan: Plan, start: real, s: RunState)
    requires MayRun(c, plan) && Done(c, plan, start, s)
    ensures ReportOf(c, plan, s).Accepted() <==> Acceptable(c, s.trace)
  {
    hide Captures, Evidence, Sends, Blocks, CapturesAfterSend, SendTimes, StartedAt, Opening, Guarded, ReportOf,
         ConfigError, FramesError;
    match c.input
    case NoInput => AcceptedWithoutInput(c, plan, start, s);
    case WaitOnly => AcceptedWait(c, plan, start, s);
    case SingleTap => AcceptedTap(c, plan, start, s);
  }

  // ----- adapters that never object -----

  /** Focus held, no stop, a clock that stands still, and every capture succeeds. */
  ghost predicate Calm(a: Adapters) {
    forall t :: a.focus(t) && a.stopAvailable(t) && !a.stop(t) && a.clock(t) == 0.0 && a.capture(t).Some?
  }

  function CalmAdapters(): Adapters {
    Adapters(t => true, t => true, t => false, t => 0.0, t => Some("frame"), t => true, (t, action) => true)
  }

  lemma CalmAdaptersExist()
    ensures Calm(CalmAdapters())
  {}

  lemma {:induction false} CalmTrace(a: Adapters, t: Trace)
    requires Calm(a) && Answers(a, t)
    ensures LastFocus(t) != Some(false) && LastStop(t) != Some(true) && LastCapture(t) != Some(None)
    ensures (LastClock(t).Some? ==> LastClock(t) == Some(0.0)) && (StartedAt(t).Some? ==> StartedAt(t) == Some(0.0))
  {
    if t.Then? { CalmTrace(a, t.before); }
  }

  /** When nothing objects, a dry run reaches its first intent if its frame limit lets it. */
  lemma CalmReachesBeat(c: Config, plan: Plan, a: Adapters, start: real, s: RunState)
    requires MayRun(c, plan) && Done(c, plan, start, s) && Calm(a) && Answers(a, s.trace)
    requires c.dryRun && WithinFrames(c, plan, c.frequency)
    ensures s.frames >= c.frequency
  {
    CalmTrace(a, s.trace);
    AtLeastOneBeat(s.frames, c.frequency);
    hide Captures, Evidence, Sends, Blocks, CapturesAfterSend, SendTimes, StartedAt, Opening, Guarded, Answers,
         LastFocus, LastStop, LastClock, LastCapture, EffectiveMaxFrames;
  }

  /** A dry run whose limit is below its frequency is never accepted. */
  lemma RareDryRunRefused(c: Config, plan: Plan, t: Trace)
    requires MayRun(c, plan) && SafeRun(c, plan, t) && c.dryRun && !WithinFrames(c, plan, c.frequency)
    ensures !Acceptable(c, t)
  {
    hide Captures, Evidence, Sends, Blocks, CapturesAfterSend, SendTimes, Guarded;
  }

  /** One intent on every 31st frame, with the default limit of 30 frames. */
  const RARE_DRY_RUN: Config :=
    Config(true, false, None, false, true, NoInput, false, false, [], 0, 0.0, 31)

  lemma RareDryRunStarts(maxFrames: nat)
    ensures var plan := Plan(true, ScreenOnly, Live, maxFrames, 25, 30);
      MayRun(RARE_DRY_RUN, plan) && !WithinFrames(RARE_DRY_RUN, plan, RARE_DRY_RUN.frequency)
  {}

  // ----- what lets a run start -----

  /** The configuration and the plan that a run needs. */
  predicate Startable(c: Config, source: PlanSource) {
    && c.userStarted && !(c.dryRun && c.logging) && c.frequency >= 1
    && (c.allowRealInput <==> c.input != NoInput)
    && (c.input != NoInput ==> !c.logging && !c.dryRun && c.rateLimit >= 0.0)
    && (c.input == WaitOnly ==> c.hasWaitSender && c.maxInputCount >= 1)
    && (c.input == SingleTap ==>
          && c.hasTapSender && c.allowedPrimitives == ["move_right_short"] && c.maxInputCount == 1
          && (c.maxFrames.Some? ==> c.maxFrames.value >= 2))
    && source.plan.Some? && source.plan.value.officialRunAllowed
    && source.plan.value.mode == ScreenOnly && source.plan.value.execution == Live
    && (source.summary.Some? ==>
          && source.summary.value.officialRunAllowed
          && source.summary.value.mode == ScreenOnly && source.summary.value.execution == Live)
  }

  /** A caller's own frame limit is 1 to 30, and a tap needs a frame before it and one after it. */
  predicate FramesAllowed(c: Config, plan: Plan) {
    && (c.maxFrames.Some? ==> 1 <= c.maxFrames.value <= 30)
    && (c.input == SingleTap ==> WithinFrames(c, plan, 2))
  }

  lemma StartableExactly(c: Config, source: PlanSource)
    ensures Startable(c, source) <==> ConfigError(c).None? && LoadAllowedPlan(source).Ok?
    ensures LoadAllowedPlan(source).Ok? ==> source.plan.Some? && LoadAllowedPlan(source).value == source.plan.value
  {}

  lemma FramesAllowedExactly(c: Config, plan: Plan)
    ensures FramesAllowed(c, plan) <==> FramesError(c, plan).None?
  {
    EffectiveIsLimit(c, plan, 2);
    EffectiveIsLimit(c, plan, 1);
  }

  /** Why a configuration, its plan or its frame limits were refused. */
  predicate RefusalTrue(c: Config, source: PlanSource, e: StartError) {
    match e
    case NotUserStarted => !c.userStarted
    case DryRunWithLogging => c.dryRun && c.logging
    case InputNotAllowed => c.input != NoInput && !c.allowRealInput
    case InputWithLoggingOrDryRun => c.input != NoInput && (c.logging || c.dryRun)
    case NoSender => (c.input == WaitOnly && !c.hasWaitSender) || (c.input == SingleTap && !c.hasTapSender)
    case BadInputCount =>
      (c.input == WaitOnly && c.maxInputCount < 1) || (c.input == SingleTap && c.maxInputCount != 1)
    case NegativeRateLimit => c.input != NoInput && c.rateLimit < 0.0
    case WrongPrimitives => c.input == SingleTap && c.allowedPrimitives != ["move_right_short"]
    case TooFewFrames => c.input == SingleTap && ((c.maxFrames.Some? && c.maxFrames.value < 2)
                                                  || (source.plan.Some? && !WithinFrames(c, source.plan.value, 2)))
    case AllowedWithoutMode => c.input == NoInput && c.allowRealInput
    case BadFrequency => c.frequency < 1
    case NoPlan => source.plan.None?
    case SummaryBlocks => source.summary.Some? && !source.summary.value.officialRunAllowed
    case PlanBlocks => source.plan.Some? && !source.plan.value.officialRunAllowed
    case WrongClassification =>
      source.plan.Some? && (source.plan.value.mode != ScreenOnly || source.plan.value.execution != Live)
    case ClassificationMismatch =>
      source.summary.Some? && (source.summary.value.mode != ScreenOnly || source.summary.value.execution != Live)
    case FramesOutOfRange => c.maxFrames.Some? && !(1 <= c.maxFrames.value <= 30)
    case _ => false
  }

  lemma ConfigRefused(c: Config, source: PlanSource)
    ensures ConfigError(c).Some? ==> RefusalTrue(c, source, ConfigError(c).value)
  {}

  lemma PlanRefused(c: Config, source: PlanSource)
    ensures LoadAllowedPlan(source).Err? ==> RefusalTrue(c, source, LoadAllowedPlan(source).error)
  {}

  lemma FramesRefused(c: Config, source: PlanSource)
    requires source.plan.Some? && FramesError(c, source.plan.value).Some?
    ensures RefusalTrue(c, source, FramesError(c, source.plan.value).value)
  {
    EffectiveIsLimit(c, source.plan.value, 2);
  }

  /** Refused before any adapter was asked, by an adapter's answer, or on its frame limits after the checks. */
  predicate Refused(c: Config, source: PlanSource, e: StartError, t: Trace) {
    if !Startable(c, source) then t == Start && RefusalTrue(c, source, e)
    else
      || AnswerRefuses(t, e)
      || (ClearOpening(c, t) && !FramesAllowed(c, source.plan.value) && RefusalTrue(c, source, e))
  }

  /** The report's counters and lists are those of the trace. */
  predicate Reported(c: Config, t: Trace, r: Report) {
    && r.allowRealInput == c.allowRealInput && r.input == c.input && r.maxInputCount == c.maxInputCount
    && r.logging == c.logging && r.dryRun == c.dryRun && !r.autonomyClaimed && !r.executionEnabled
    && r.capturedFrames == Captures(t) && r.evidence == Evidence(t)
    && r.inputsSent == r.allowedInputs == r.executedActionCount == |r.executed| == Sends(t)
    && (r.noInputSent <==> Sends(t) == 0) && r.forbiddenInputs == Blocks(t)
    && r.inputAttempts == r.focusChecks == r.stopChecks == Sends(t) + Blocks(t)
    && r.executedWaits == (if c.input == WaitOnly then Sends(t) else 0)
    && (Blocks(t) > 0 ==>
          r.requested != [] && BlockedFor(c, t, r.inputAttempts, r.requested[|r.requested| - 1].blocked))
    && r.focusPasses == Sends(t) + (if Blocks(t) > 0 && LastFocus(t) == Some(true) then 1 else 0)
    && r.stopClears == Sends(t) + (if Blocks(t) > 0 && LastStop(t) == Some(false) then 1 else 0)
    && (r.maxInputCountExceeded <==>
          && Blocks(t) > 0 && LastFocus(t) == Some(true) && LastStop(t) == Some(false)
          && r.inputAttempts > c.maxInputCount)
    && (c.input == SingleTap ==>
          r.preEvidence + r.postEvidence == r.evidence && |r.postEvidence| == CapturesAfterSend(t))
    && c.frequency >= 1
    && r.actionsRequested == |r.requested| == r.inputAttempts + LoggedIntents(c, Captures(t))
    && r.dryRunTaskCount == |r.dryRunTasks| == if c.dryRun then Captures(t) / c.frequency else 0
  }

  lemma DoneReported(c: Config, plan: Plan, start: real, s: RunState)
    requires c.frequency >= 1 && Done(c, plan, start, s)
    ensures Reported(c, s.trace, ReportOf(c, plan, s)) && Opened(c, s.trace)
  {
    hide StopTrue, Captures, Evidence, Sends, Blocks, CapturesAfterSend, SendTimes, StartedAt, Opening, Guarded,
         SpacingTally, WithinLimits;
  }

  /** A run stopped by its frame limit captured exactly as many frames as one of the limits allows. */
  lemma FrameLimitMet(c: Config, plan: Plan, t: Trace, actions: nat)
    requires WithinFrames(c, plan, Captures(t)) && StopTrue(c, plan, t, MaxFrames, actions)
    ensures
      || Captures(t) == plan.maxFrames || c.maxFrames == Some(Captures(t))
      || (c.maxFrames.None? && Captures(t) == 30)
  {
    hide Captures;
  }

  lemma SafeFrames(c: Config, plan: Plan, t: Trace)
    requires SafeRun(c, plan, t)
    ensures WithinFrames(c, plan, Captures(t)) && Captures(t) <= plan.maxFrames
    ensures (c.maxFrames.Some? ==> Captures(t) <= c.maxFrames.value) && (c.maxFrames.None? ==> Captures(t) <= 30)
  {
    hide Captures, Guarded, Spaced;
  }

  // ----- the whole run -----

  /** A refusal before the loop, or a finished run with its report and whether the report model took it. */
  datatype Outcome =
    | NotStarted(error: StartError, trace: Trace)
    | Finished(plan: Plan, report: Report, accepted: bool, trace: Trace)

  predicate Untouched(t: Trace) {
    && Captures(t) == 0 && Evidence(t) == [] && Sends(t) == 0 && Blocks(t) == 0
    && CapturesAfterSend(t) == 0 && SendTimes(t) == []
  }

  lemma QuietUntouched(t: Trace, step: Step, duration: nat)
    requires Untouched(t) && Guarded(t, duration) && IsQuiet(step)
    ensures Untouched(Then(t, step)) && Guarded(Then(t, step), duration)
  {
    hide Captures, Evidence, Sends, Blocks, CapturesAfterSend, SendTimes, StartedAt, Opening, Guarded;
    Quiet(t, step, duration);
  }

  lemma StartReady(c: Config, plan: Plan, t: Trace, at: real)
    requires MayRun(c, plan) && Untouched(t) && Guarded(t, plan.maxDuration) && ClearOpening(c, Then(t, ClockRead(at)))
    ensures Ready(c, plan, at, Emit(Initial(Then(t, ClockRead(at))), RuntimeStart))
  {
    hide Captures, Evidence, Sends, Blocks, CapturesAfterSend, SendTimes, StartedAt, Opening, Guarded, ConfigError,
         FramesError;
    FrequencyPositive(c, plan);
    RoomForFrames(c, plan);
    StartCounts(t, at, plan.maxDuration);
    QuotientIs(0, 0, c.frequency);
  }

  lemma RoomForFrames(c: Config, plan: Plan)
    requires MayRun(c, plan)
    ensures EffectiveMaxFrames(c, plan) >= 0 && (c.input == WaitOnly ==> c.maxInputCount >= 0)
  {}

  lemma StartCounts(t: Trace, at: real, duration: nat)
    requires Untouched(t) && Guarded(t, duration)
    ensures var t' := Then(Then(t, ClockRead(at)), Emitted(RuntimeStart));
      Untouched(t') && Guarded(t', duration) && StartedAt(t') == Some(at) && Opening(t') == Some(Then(t, ClockRead(at)))
  {
    Quiet(t, ClockRead(at), duration);
  }

  lemma CloseKeeps(c: Config, plan: Plan, start: real, s: RunState, event: Event)
    requires c.frequency >= 1 && Done(c, plan, start, s) && (event.StopTriggered? || event.RuntimeEnd?)
    ensures Done(c, plan, start, Emit(s, event))
  {
    hide StopTrue, Captures, Evidence, Sends, Blocks, CapturesAfterSend, SendTimes, StartedAt, Opening, Guarded;
    Quiet(s.trace, Emitted(event), plan.maxDuration);
    EmittedExplained(c, plan, s.trace, s.stop, s.actions, event);
    SameTalliesKeep(c, s, Emit(s, event));
  }

  /** The last answer before the loop is the one the run was refused for, every earlier one having passed. */
  predicate AnswerRefuses(t: Trace, e: StartError) {
    var focused := Then(Start, FocusAsked(true));
    var available := Then(focused, StopAvailableAsked(true));
    || (e == NotFocused && t == Then(Start, FocusAsked(false)))
    || (e == NoEmergencyStop && t == Then(focused, StopAvailableAsked(false)))
    || (e == AlreadyStopped && t == Then(available, StopAsked(true)))
    || (e == NotFocused && t == Then(Then(available, StopAsked(false)), FocusAsked(false)))
  }

  /** The checks that call adapters before the loop; nothing is captured or sent by them. */
  method Preflight(c: Config, plan: Plan, a: Adapters) returns (error: Option<StartError>, t: Trace)
    ensures Untouched(t) && Guarded(t, plan.maxDuration) && Answers(a, t)
    ensures Calm(a) ==> error.None?
    ensures error.None? ==> forall at :: ClearOpening(c, Then(t, ClockRead(at)))
    ensures error.Some? ==> t.Then? && AnswerRefuses(t, error.value)
  {
    hide Untouched, Guarded, Answers;
    t := Start;
    StartUntouched(plan.maxDuration);
    StartAnswers(a);
    var focusOk := a.focus(t);
    QuietUntouched(t, FocusAsked(focusOk), plan.maxDuration);
    AnswersNext(a, t, FocusAsked(focusOk));
    t := Then(t, FocusAsked(focusOk));
    if !focusOk { return Some(NotFocused), t; }
    var available := a.stopAvailable(t);
    QuietUntouched(t, StopAvailableAsked(available), plan.maxDuration);
    AnswersNext(a, t, StopAvailableAsked(available));
    t := Then(t, StopAvailableAsked(available));
    if !available { return Some(NoEmergencyStop), t; }
    var triggered := a.stop(t);
    QuietUntouched(t, StopAsked(triggered), plan.maxDuration);
    AnswersNext(a, t, StopAsked(triggered));
    t := Then(t, StopAsked(triggered));
    if triggered { return Some(AlreadyStopped), t; }
    if c.allowRealInput {
      var still := a.focus(t);
      QuietUntouched(t, FocusAsked(still), plan.maxDuration);
      AnswersNext(a, t, FocusAsked(still));
      t := Then(t, FocusAsked(still));
      if !still { return Some(NotFocused), t; }
    }
    return None, t;
  }

  lemma StartAnswers(a: Adapters)
    ensures Answers(a, Start)
  {}

  lemma StartUntouched(duration: nat)
    ensures Untouched(Start) && Guarded(Start, duration)
  {}

  /** `run_controlled_live_smoke`. */
  method Run(c: Config, source: PlanSource, a: Adapters) returns (outcome: Outcome)
    ensures outcome.NotStarted? ==>
      && Captures(outcome.trace) == 0 && Sends(outcome.trace) == 0
      && Refused(c, source, outcome.error, outcome.trace)
    ensures outcome.Finished? ==>
      && Startable(c, source) && source.plan == Some(outcome.plan) && FramesAllowed(c, outcome.plan)
      && Opened(c, outcome.trace)
    ensures Answers(a, outcome.trace)
    ensures outcome.Finished? ==>
      && SafeRun(c, outcome.plan, outcome.trace)
      && Captures(outcome.trace) <= outcome.plan.maxFrames
      && (c.maxFrames.Some? ==> Captures(outcome.trace) <= c.maxFrames.value)
      && (c.maxFrames.None? ==> Captures(outcome.trace) <= 30)
    ensures outcome.Finished? ==>
      && StopTrue(c, outcome.plan, outcome.trace, outcome.report.stop, outcome.report.actionsRequested)
      && (outcome.report.stop == MaxFrames ==>
            || Captures(outcome.trace) == outcome.plan.maxFrames || c.maxFrames == Some(Captures(outcome.trace))
            || (c.maxFrames.None? && Captures(outcome.trace) == 30))
    ensures outcome.Finished? ==>
      && Reported(c, outcome.trace, outcome.report)
      && outcome.report.inputAttempts == ExpectedAttempts(c, Captures(outcome.trace))
    ensures outcome.Finished? ==>
      && outcome.accepted == outcome.report.Accepted()
      && (outcome.accepted <==> Acceptable(c, outcome.trace))
    ensures outcome.Finished? && c.dryRun && !WithinFrames(c, outcome.plan, c.frequency) ==> !outcome.accepted
    ensures
      Calm(a) && Startable(c, source) && FramesAllowed(c, source.plan.value) ==>
        && outcome.Finished?
        && (c.dryRun && WithinFrames(c, outcome.plan, c.frequency) ==> outcome.accepted)
  {
    hide *;
    StartUntouched(0);
    StartAnswers(a);
    UntouchedIs(Start);
    StartableExactly(c, source);
    var problem := ConfigError(c);
    ConfigRefused(c, source);
    if problem.Some? {
      RefusedAtOnce(c, source, problem.value);
      return NotStarted(problem.value, Start);
    }
    var loaded := LoadAllowedPlan(source);
    PlanRefused(c, source);
    if loaded.Err? {
      RefusedAtOnce(c, source, loaded.error);
      return NotStarted(loaded.error, Start);
    }
    var plan := loaded.value;
    FramesAllowedExactly(c, plan);
    var error, t := Preflight(c, plan, a);
    UntouchedIs(t);
    if error.Some? {
      RefusedByAnswer(c, source, error.value, t);
      return NotStarted(error.value, t);
    }
    var start := a.clock(t);
    AnswersNext(a, t, ClockRead(start));
    ClockAnswered(a, t);
    if FramesError(c, plan).Some? {
      QuietUntouched(t, ClockRead(start), plan.maxDuration) by { ClockQuiet(start); }
      UntouchedIs(Then(t, ClockRead(start)));
      FramesRefused(c, source);
      RefusedOnFrames(c, source, FramesError(c, plan).value, Then(t, ClockRead(start)));
      return NotStarted(FramesError(c, plan).value, Then(t, ClockRead(start)));
    }
    LoadedMayRun(c, source, plan);
    StartReady(c, plan, t, start);
    EmitAnswers(a, Initial(Then(t, ClockRead(start))), RuntimeStart);
    InitialTrace(Then(t, ClockRead(start)));
    var s := CaptureLoop(c, plan, a, start, Emit(Initial(Then(t, ClockRead(start))), RuntimeStart));
    FrequencyPositive(c, plan);
    CloseKeeps(c, plan, start, s, StopTriggered(s.stop));
    EmitAnswers(a, s, StopTriggered(s.stop));
    s := Emit(s, StopTriggered(s.stop));
    CloseKeeps(c, plan, start, s, RuntimeEnd(s.stop));
    EmitAnswers(a, s, RuntimeEnd(s.stop));
    s := Emit(s, RuntimeEnd(s.stop));
    DoneSafe(c, plan, start, s);
    AcceptedExactly(c, plan, start, s);
    if c.dryRun { DryRunDecided(c, plan, a, start, s); }
    var report := ReportOf(c, plan, s);
    ReportedCounts(c, plan, s);
    DoneReported(c, plan, start, s);
    SafeFrames(c, plan, s.trace);
    if s.stop == MaxFrames { FrameLimitMet(c, plan, s.trace, s.actions); }
    return Finished(plan, report, report.Accepted(), s.trace);
  }

  lemma RefusedAtOnce(c: Config, source: PlanSource, e: StartError)
    requires !Startable(c, source) && RefusalTrue(c, source, e)
    ensures Refused(c, source, e, Start)
  {}

  lemma RefusedByAnswer(c: Config, source: PlanSource, e: StartError, t: Trace)
    requires Startable(c, source) && AnswerRefuses(t, e)
    ensures Refused(c, source, e, t)
  {}

  lemma RefusedOnFrames(c: Config, source: PlanSource, e: StartError, t: Trace)
    requires Startable(c, source) && ClearOpening(c, t) && !FramesAllowed(c, source.plan.value)
    requires RefusalTrue(c, source, e)
    ensures Refused(c, source, e, t)
  {}

  lemma ClockAnswered(a: Adapters, t: Trace)
    ensures StepAnswers(a, t, ClockRead(a.clock(t)))
  {}

  lemma EmitAnswers(a: Adapters, s: RunState, event: Event)
    ensures Answers(a, s.trace) ==> Answers(a, Emit(s, event).trace)
  {}

  lemma InitialTrace(t: Trace)
    ensures Initial(t).trace == t
  {}

  /**
   * A dry run's frequency and frame limit decide its report: refused for all adapters, or accepted when none objects.
   */
  lemma DryRunDecided(c: Config, plan: Plan, a: Adapters, start: real, s: RunState)
    requires MayRun(c, plan) && Done(c, plan, start, s) && Answers(a, s.trace) && c.dryRun
    ensures !WithinFrames(c, plan, c.frequency) ==> !Acceptable(c, s.trace)
    ensures WithinFrames(c, plan, c.frequency) && Calm(a) ==> Acceptable(c, s.trace)
  {
    DoneSafe(c, plan, start, s);
    hide Done, SafeRun, Calm, Answers, EffectiveMaxFrames;
    if !WithinFrames(c, plan, c.frequency) { RareDryRunRefused(c, plan, s.trace); }
    else if Calm(a) { CalmReachesBeat(c, plan, a, start, s); }
  }

  lemma UntouchedIs(t: Trace)
    ensures Untouched(t) ==> Captures(t) == 0 && Sends(t) == 0
  {}

  lemma ClockQuiet(at: real)
    ensures IsQuiet(ClockRead(at))
  {}

  lemma LoadedMayRun(c: Config, source: PlanSource, plan: Plan)
    requires ConfigError(c).None? && LoadAllowedPlan(source) == Ok(plan) && FramesError(c, plan).None?
    ensures MayRun(c, plan)
  {}

  lemma ReportedCounts(c: Config, plan: Plan, s: RunState)
    ensures var r := ReportOf(c, plan, s);
      r.inputAttempts == s.attempts && r.capturedFrames == s.frames && r.stop == s.stop
          && r.actionsRequested == s.actions
  {}
}
