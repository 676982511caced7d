/** The first-in first-out scheduler of task life cycles: one running task, many queued, many completed. */
module Scheduler {
  import opened Prelude
  import opened Verdicts
  import opened Tasks

  datatype TaskStatus = Pending | Running | Succeeded | Failed | TimedOut | Cancelled
  {
    predicate Terminal() {
      Succeeded? || Failed? || TimedOut? || Cancelled?
    }
  }

  datatype Completion = Completion(taskId: string, spec: TaskSpec, status: TaskStatus, condition: string,
                                   evidence: seq<string>, reason: Option<string>, elapsed: nat,
                                   verdict: Option<Verdict>, verdictEvent: Option<string>,
                                   stop: Option<ManagerStop>, stopEvent: Option<string>)

  datatype Scheduled = Scheduled(spec: TaskSpec, status: TaskStatus, elapsed: nat, completion: Option<Completion>)

  datatype State = State(queue: seq<Scheduled>, current: Option<Scheduled>, completed: seq<Scheduled>)

  datatype SchedulerError = NoRunningTask | EmptyCondition | InvalidCondition | EmptyReason | EmptyEventId

  /** The way a task ends, before it is recorded on the task. */
  datatype Ending = Ending(status: TaskStatus, condition: string, evidence: seq<string>, reason: Option<string>,
                           verdict: Option<Verdict>, verdictEvent: Option<string>,
                           stop: Option<ManagerStop>, stopEvent: Option<string>)

  datatype Op =
    | Enqueue(spec: TaskSpec)
    | StartNext
    | Tick
    | MarkSuccess(condition: string, evidence: seq<string>)
    | MarkFailure(condition: string, evidence: seq<string>, reason: Option<string>)
    | Cancel(cancelReason: string, evidence: seq<string>)
    | FromVerifier(verdict: Verdict, event: Option<string>)
    | FromManagerStop(stop: ManagerStop, event: Option<string>)

  // ----- the operations -----

  function EndingPlain(status: TaskStatus, condition: string, evidence: seq<string>, reason: Option<string>): Ending {
    Ending(status, condition, evidence, reason, None, None, None, None)
  }

  function EndingOfStop(stop: ManagerStop, event: Option<string>): Ending {
    var status := if stop.kind == Timeout then TimedOut else Failed;
    Ending(status, stop.kind.Text(), stop.evidence, Some(stop.reason), None, None, Some(stop), event)
  }

  /** How a verdict closes a task; `None` for one that decides nothing. */
  function EndingOfVerdict(verdict: Verdict, event: Option<string>): Option<Ending> {
    match verdict
    case Success(evidence) => Some(Ending(Succeeded, "success", evidence, None, Some(verdict), event, None, None))
    case Failure(kind, evidence) => Some(Ending(Failed, kind.Text(), evidence, None, Some(verdict), event, None, None))
    case Progress(_) => None
    case Abstain(_) => None
  }

  function CompletionOf(task: Scheduled, ending: Ending): Completion {
    Completion(task.spec.taskId, task.spec, ending.status, ending.condition, ending.evidence, ending.reason,
               task.elapsed, ending.verdict, ending.verdictEvent, ending.stop, ending.stopEvent)
  }

  /** `_complete_current`. */
  function CompleteCurrent(s: State, ending: Ending): Result<State, SchedulerError> {
    if s.current.None? then Err(NoRunningTask)
    else if ending.verdictEvent == Some("") || ending.stopEvent == Some("") then Err(EmptyEventId)
    else
      var done := s.current.value.(status := ending.status, completion := Some(CompletionOf(s.current.value, ending)));
      Ok(s.(current := None, completed := s.completed + [done]))
  }

  function ConditionError(condition: string, allowed: seq<string>): Option<SchedulerError> {
    if condition == "" then Some(EmptyCondition)
    else if allowed != [] && condition !in allowed then Some(InvalidCondition)
    else None
  }

  function Started(s: State): State {
    if s.current.Some? || s.queue == [] then s
    else s.(queue := s.queue[1..], current := Some(s.queue[0].(status := Running)))
  }

  function Ticked(s: State): State {
    if s.current.None? then s
    else
      var running := s.current.value.(elapsed := s.current.value.elapsed + 1);
      var t := s.(current := Some(running));
      if running.elapsed >= running.spec.timeoutSteps then
        CompleteCurrent(t, EndingPlain(TimedOut, "timeout", [], Some("timeout"))).value
      else t
  }

  function Marked(s: State, condition: string, allowed: seq<string>, ending: Ending): Result<State, SchedulerError>
    requires s.current.Some?
  {
    var error := ConditionError(condition, allowed);
    if error.Some? then Err(error.value) else CompleteCurrent(s, ending)
  }

  /** One operation; an error leaves the scheduler as it was. */
  function Apply(s: State, op: Op): Result<State, SchedulerError> {
    match op
    case Enqueue(spec) => Ok(s.(queue := s.queue + [Scheduled(spec, Pending, 0, None)]))
    case StartNext => Ok(Started(s))
    case Tick => Ok(Ticked(s))
    case MarkSuccess(condition, evidence) =>
      if s.current.None? then Err(NoRunningTask)
      else Marked(s, condition, s.current.value.spec.successConditions,
          EndingPlain(Succeeded, condition, evidence, None))
    case MarkFailure(condition, evidence, reason) =>
      if s.current.None? then Err(NoRunningTask)
      else Marked(s, condition, s.current.value.spec.failureConditions,
          EndingPlain(Failed, condition, evidence, reason))
    case Cancel(reason, evidence) =>
      if reason == "" then Err(EmptyReason)
      else CompleteCurrent(s, EndingPlain(Cancelled, "cancelled", evidence, Some(reason)))
    case FromVerifier(verdict, event) =>
      if s.current.None? then Err(NoRunningTask)
      else if EndingOfVerdict(verdict, event).None? then Ok(s)
      else CompleteCurrent(s, EndingOfVerdict(verdict, event).value)
    case FromManagerStop(stop, event) => CompleteCurrent(s, EndingOfStop(stop, event))
  }

  function After(s: State, op: Op): State {
    if Apply(s, op).Ok? then Apply(s, op).value else s
  }

  function Run(s: State, ops: seq<Op>): State
    decreases |ops|
  {
    if ops == [] then s else Run(After(s, ops[0]), ops[1..])
  }

  // ----- what every operation keeps -----

  predicate QueuedOk(t: Scheduled) {
    t.spec.Valid() && t.status == Pending && t.elapsed == 0 && t.completion.None?
  }

  predicate RunningOk(t: Scheduled) {
    t.spec.Valid() && t.status == Running && t.elapsed < t.spec.timeoutSteps && t.completion.None?
  }

  /** The status a completion's own authority gives it. */
  predicate Justified(c: Completion) {
    && !(c.verdict.Some? && c.stop.Some?)
    && (c.verdict.Some? ==> c.verdict.value.Terminal() && (c.status == Succeeded <==> c.verdict.value.Success?)
                            && (c.status == Failed <==> c.verdict.value.Failure?)
                              && c.evidence == c.verdict.value.evidence)
    && (c.stop.Some? ==> c.status == (if c.stop.value.kind == Timeout then TimedOut else Failed)
                         && c.evidence == c.stop.value.evidence)
  }

  predicate CompletedOk(t: Scheduled) {
    && t.completion.Some? && t.status.Terminal()
    && var c := t.completion.value;
      && c.status == t.status && c.spec == t.spec && c.taskId == t.spec.taskId && c.elapsed == t.elapsed
      && t.elapsed <= t.spec.timeoutSteps
      && (t.elapsed == t.spec.timeoutSteps ==> t.status == TimedOut && c.verdict.None? && c.stop.None?)
      && Justified(c)
  }

  predicate AllQueuedOk(ts: seq<Scheduled>) {
    forall i :: 0 <= i < |ts| ==> QueuedOk(ts[i])
  }

  predicate AllCompletedOk(ts: seq<Scheduled>) {
    forall i :: 0 <= i < |ts| ==> CompletedOk(ts[i])
  }

  predicate WellFormed(s: State) {
    AllQueuedOk(s.queue) && (s.current.Some? ==> RunningOk(s.current.value)) && AllCompletedOk(s.completed)
  }

  function Specs(ts: seq<Scheduled>): seq<TaskSpec> {
    if ts == [] then [] else [ts[0].spec] + Specs(ts[1..])
  }

  /** Completed, then running, then queued, read in order. */
  function AllSpecs(s: State): seq<TaskSpec> {
    Specs(s.completed) + ((if s.current.Some? then [s.current.value.spec] else []) + Specs(s.queue))
  }

  function Submitted(ops: seq<Op>): seq<TaskSpec>
    decreases |ops|
  {
    if ops == [] then []
    else (if ops[0].Enqueue? then [ops[0].spec] else []) + Submitted(ops[1..])
  }

  lemma {:induction false} SpecsAppend(ts: seq<Scheduled>, t: Scheduled)
    ensures Specs(ts + [t]) == Specs(ts) + [t.spec]
  {
    if ts == [] {
      assert (ts + [t])[1..] == [];
    } else {
      assert (ts + [t])[1..] == ts[1..] + [t];
      SpecsAppend(ts[1..], t);
    }
  }

  lemma CompleteKeeps(s: State, ending: Ending)
    requires AllQueuedOk(s.queue) && AllCompletedOk(s.completed) && s.current.Some?
    requires
      var completion := CompletionOf(s.current.value, ending);
      CompletedOk(s.current.value.(status := ending.status, completion := Some(completion)))
    ensures var r := CompleteCurrent(s, ending);
      r.Ok? ==> WellFormed(r.value) && AllSpecs(r.value) == AllSpecs(s)
  {
    hide CompletedOk, QueuedOk;
    var done := s.current.value.(status := ending.status, completion := Some(CompletionOf(s.current.value, ending)));
    SpecsAppend(s.completed, done);
    assert (Specs(s.completed) + [done.spec]) + Specs(s.queue) == Specs(s.completed) + ([done.spec] + Specs(s.queue));
  }

  lemma EndingFits(t: Scheduled, ending: Ending)
    requires RunningOk(t) && ending.status.Terminal() && Justified(CompletionOf(t, ending))
    ensures CompletedOk(t.(status := ending.status, completion := Some(CompletionOf(t, ending))))
  {}

  lemma StartedKeeps(s: State)
    requires WellFormed(s)
    ensures WellFormed(Started(s)) && AllSpecs(Started(s)) == AllSpecs(s)
  {}

  lemma TickedKeeps(s: State)
    requires WellFormed(s)
    ensures WellFormed(Ticked(s)) && AllSpecs(Ticked(s)) == AllSpecs(s)
  {
    if s.current.Some? {
      var running := s.current.value.(elapsed := s.current.value.elapsed + 1);
      var t := s.(current := Some(running));
      assert AllSpecs(t) == AllSpecs(s);
      if running.elapsed >= running.spec.timeoutSteps {
        CompleteKeeps(t, EndingPlain(TimedOut, "timeout", [], Some("timeout")));
      }
    }
  }

  /** An operation that closes the running task, if it is accepted, keeps the invariant and the order. */
  lemma ClosingKeeps(s: State, op: Op)
    requires WellFormed(s) && !op.Enqueue? && !op.StartNext? && !op.Tick?
    ensures WellFormed(After(s, op)) && AllSpecs(After(s, op)) == AllSpecs(s)
  {
    if s.current.Some? {
      var t := s.current.value;
      var ending :=
        match op
        case MarkSuccess(condition, evidence) => EndingPlain(Succeeded, condition, evidence, None)
        case MarkFailure(condition, evidence, reason) => EndingPlain(Failed, condition, evidence, reason)
        case Cancel(reason, evidence) => EndingPlain(Cancelled, "cancelled", evidence, Some(reason))
        case FromVerifier(verdict, event) =>
          if verdict.Terminal() then EndingOfVerdict(verdict, event).value else EndingPlain(Cancelled, "", [], None)
        case FromManagerStop(stop, event) => EndingOfStop(stop, event);
      EndingFits(t, ending);
      CompleteKeeps(s, ending);
      hide WellFormed, AllSpecs, CompleteCurrent;
    }
  }

  lemma EnqueueKeeps(s: State, spec: TaskSpec)
    requires WellFormed(s) && spec.Valid()
    ensures WellFormed(After(s, Enqueue(spec))) && AllSpecs(After(s, Enqueue(spec))) == AllSpecs(s) + [spec]
  {
    SpecsAppend(s.queue, Scheduled(spec, Pending, 0, None));
  }

  /** Operations submit only specs that their own model accepted. */
  predicate ValidOps(ops: seq<Op>) {
    forall i :: 0 <= i < |ops| && ops[i].Enqueue? ==> ops[i].spec.Valid()
  }

  lemma ApplyKeeps(s: State, op: Op)
    requires WellFormed(s) && (op.Enqueue? ==> op.spec.Valid())
    ensures WellFormed(After(s, op)) && AllSpecs(After(s, op)) == AllSpecs(s) + Submitted([op])
  {
    hide WellFormed, AllSpecs, CompleteCurrent;
    SubmittedOne(op);
    match op
    case Enqueue(spec) => EnqueueKeeps(s, spec);
    case StartNext => StartedKeeps(s);
    case Tick => TickedKeeps(s);
    case _ => ClosingKeeps(s, op);
  }

  lemma SubmittedOne(op: Op)
    ensures Submitted([op]) == if op.Enqueue? then [op.spec] else []
  {
    assert [op][1..] == [];
  }

  /** Over any run, what was submitted is what is completed, running and queued, in submission order. */
  lemma {:induction false} RunKeepsOrder(s: State, ops: seq<Op>)
    requires WellFormed(s) && ValidOps(ops)
    ensures WellFormed(Run(s, ops)) && AllSpecs(Run(s, ops)) == AllSpecs(s) + Submitted(ops)
    decreases |ops|
  {
    hide WellFormed, AllSpecs, After;
    if ops != [] {
      ApplyKeeps(s, ops[0]);
      SubmittedOne(ops[0]);
      RunKeepsOrder(After(s, ops[0]), ops[1..]);
      assert Submitted(ops) == Submitted([ops[0]]) + Submitted(ops[1..]);
    }
  }

  /** Completed tasks are never touched again. */
  lemma {:induction false} CompletedStay(s: State, ops: seq<Op>)
    ensures s.completed <= Run(s, ops).completed
    decreases |ops|
  {
    if ops != [] {
      assert s.completed <= After(s, ops[0]).completed;
      CompletedStay(After(s, ops[0]), ops[1..]);
    }
  }

  /** From the empty scheduler the submitted specs are all there is. */
  lemma FreshRun(ops: seq<Op>)
    requires ValidOps(ops)
    ensures var s := Run(State([], None, []), ops);
      WellFormed(s) && AllSpecs(s) == Submitted(ops)
  {
    RunKeepsOrder(State([], None, []), ops);
  }

  // ----- what each operation does -----

  /** The running task is now the last completed one, closed with exactly these particulars. */
  predicate ClosedWith(s: State, t: State, status: TaskStatus, condition: string, evidence: seq<string>,
                       reason: Option<string>, verdict: Option<Verdict>, verdictEvent: Option<string>,
                       stop: Option<ManagerStop>, stopEvent: Option<string>) {
    && s.current.Some? && t.current.None? && t.queue == s.queue && |t.completed| == |s.completed| + 1
    && t.completed[..|s.completed|] == s.completed
    && var task, done := s.current.value, t.completed[|s.completed|];
       && done.spec == task.spec && done.elapsed == task.elapsed && done.status == status && done.completion.Some?
       && var c := done.completion.value;
          && c.taskId == task.spec.taskId && c.spec == task.spec && c.status == status && c.elapsed == task.elapsed
          && c.condition == condition && c.evidence == evidence && c.reason == reason
          && c.verdict == verdict && c.verdictEvent == verdictEvent && c.stop == stop && c.stopEvent == stopEvent
  }

  /** A tick counts one more step of the running task and times it out exactly when that step reaches the timeout. */
  lemma TickCounts(s: State)
    requires s.current.Some?
    ensures var task, t := s.current.value, After(s, Tick);
      var counted := s.(current := Some(task.(elapsed := task.elapsed + 1)));
      if task.elapsed + 1 >= task.spec.timeoutSteps then
        ClosedWith(counted, t, TimedOut, "timeout", [], Some("timeout"), None, None, None, None)
      else t == counted
  {}

  /** Starting takes the task that has waited longest, and only when none is running. */
  lemma StartTakesFirst(s: State)
    ensures var t := After(s, StartNext);
      if s.current.None? && s.queue != [] then
        && t.current.Some? && t.current.value.spec == s.queue[0].spec && t.current.value.status == Running
        && t.current.value.elapsed == s.queue[0].elapsed && t.queue == s.queue[1..] && t.completed == s.completed
      else t == s
  {}

  /** A condition that is empty, or not among those the task names, is refused. */
  predicate Names(allowed: seq<string>, condition: string) {
    condition != "" && (allowed == [] || condition in allowed)
  }

  lemma MarkSuccessCloses(s: State, condition: string, evidence: seq<string>)
    ensures var r := Apply(s, MarkSuccess(condition, evidence));
      && (r.Ok? <==> s.current.Some? && Names(s.current.value.spec.successConditions, condition))
      && (r.Ok? ==> ClosedWith(s, r.value, Succeeded, condition, evidence, None, None, None, None, None))
      && (r.Err? ==> r.error == if s.current.None? then NoRunningTask
                                else if condition == "" then EmptyCondition else InvalidCondition)
  {}

  lemma MarkFailureCloses(s: State, condition: string, evidence: seq<string>, reason: Option<string>)
    ensures var r := Apply(s, MarkFailure(condition, evidence, reason));
      && (r.Ok? <==> s.current.Some? && Names(s.current.value.spec.failureConditions, condition))
      && (r.Ok? ==> ClosedWith(s, r.value, Failed, condition, evidence, reason, None, None, None, None))
      && (r.Err? ==> r.error == if s.current.None? then NoRunningTask
                                else if condition == "" then EmptyCondition else InvalidCondition)
  {}

  lemma CancelCloses(s: State, reason: string, evidence: seq<string>)
    ensures var r := Apply(s, Cancel(reason, evidence));
      && (r.Ok? <==> s.current.Some? && reason != "")
      && (r.Ok? ==> ClosedWith(s, r.value, Cancelled, "cancelled", evidence, Some(reason), None, None, None, None))
      && (r.Err? ==> r.error == if reason == "" then EmptyReason else NoRunningTask)
  {}

  /** A success or failure verdict closes the task; any other leaves everything as it was. */
  lemma VerdictCloses(s: State, verdict: Verdict, event: Option<string>)
    ensures var r := Apply(s, FromVerifier(verdict, event));
      match verdict
      case Success(evidence) =>
        && (r.Ok? <==> s.current.Some? && event != Some(""))
        && (r.Ok? ==>
              ClosedWith(s, r.value, Succeeded, "success", evidence, None, Some(verdict), event, None, None))
      case Failure(kind, evidence) =>
        && (r.Ok? <==> s.current.Some? && event != Some(""))
        && (r.Ok? ==>
              ClosedWith(s, r.value, Failed, kind.Text(), evidence, None, Some(verdict), event, None, None))
      case _ => r == if s.current.Some? then Ok(s) else Err(NoRunningTask)
  {}

  lemma StopCloses(s: State, stop: ManagerStop, event: Option<string>)
    ensures var r := Apply(s, FromManagerStop(stop, event));
      && (r.Ok? <==> s.current.Some? && event != Some(""))
      && (r.Ok? ==> ClosedWith(s, r.value, if stop.kind == Timeout then TimedOut else Failed, stop.kind.Text(),
                               stop.evidence, Some(stop.reason), None, None, Some(stop), event))
  {}

  // ----- the class -----

  class TaskScheduler {
    var queue: seq<Scheduled>
    var current: Option<Scheduled>
    var completed: seq<Scheduled>

    ghost function Value(): State
      reads this
    {
      State(queue, current, completed)
    }

    ghost predicate Valid()
      reads this
    {
      WellFormed(Value())
    }

    ghost predicate Idle()
      reads this
    {
      current.None? && queue == []
    }

    constructor ()
      ensures Valid() && Value() == State([], None, [])
    {
      queue, current, completed := [], None, [];
    }

    method Submit(spec: TaskSpec) returns (task: Scheduled)
      requires Valid() && spec.Valid()
      modifies this
      ensures Valid() && Value() == After(old(Value()), Enqueue(spec))
      ensures task == Scheduled(spec, Pending, 0, None)
    {
      EnqueueKeeps(Value(), spec);
      task := Scheduled(spec, Pending, 0, None);
      queue := queue + [task];
    }

    method Start() returns (task: Option<Scheduled>)
      requires Valid()
      modifies this
      ensures Valid() && Value() == After(old(Value()), StartNext)
      ensures task == if old(current).Some? || old(queue) == [] then None else current
    {
      StartedKeeps(Value());
      if current.Some? || queue == [] { return None; }
      current := Some(queue[0].(status := Running));
      queue := queue[1..];
      return current;
    }

    method Advance() returns (task: Option<Scheduled>)
      requires Valid()
      modifies this
      ensures Valid() && Value() == After(old(Value()), Tick)
      ensures old(current).None? ==> task.None?
      ensures old(current).Some? ==> task == if current.Some? then current else Some(completed[|completed| - 1])
      ensures old(current).Some? ==>
        && task.Some? && task.value.spec == old(current).value.spec && queue == old(queue)
        && task.value.elapsed == old(current).value.elapsed + 1
        && (current.None? <==> task.value.elapsed >= task.value.spec.timeoutSteps)
        && task.value.status == (if current.None? then TimedOut else old(current).value.status)
    {
      hide After, CompleteCurrent, Completes, WellFormed, AllSpecs, EndingPlain;
      TickedKeeps(Value());
      TickAfter(Value());
      if current.Some? { TickCounts(Value()); }
      if current.None? { return None; }
      var running := current.value.(elapsed := current.value.elapsed + 1);
      current := Some(running);
      if running.elapsed >= running.spec.timeoutSteps {
        TimeoutCompletes(Value());
        var completion := Complete(EndingPlain(TimedOut, "timeout", [], Some("timeout")));
        return Some(completed[|completed| - 1]);
      }
      return current;
    }

    method Complete(ending: Ending) returns (completion: Result<Completion, SchedulerError>)
      modifies this
      ensures Completes(old(Value()), Value(), ending, completion)
    {
      if current.None? { return Err(NoRunningTask); }
      if ending.verdictEvent == Some("") || ending.stopEvent == Some("") { return Err(EmptyEventId); }
      var record := CompletionOf(current.value, ending);
      completed := completed + [current.value.(status := ending.status, completion := Some(record))];
      current := None;
      return Ok(record);
    }

    method Succeed(condition: string, evidence: seq<string>) returns (completion: Result<Completion, SchedulerError>)
      requires Valid()
      modifies this
      ensures Valid() && Closes(old(Value()), Value(), MarkSuccess(condition, evidence), completion)
    {
      ClosingKeeps(Value(), MarkSuccess(condition, evidence));
      hide WellFormed, AllSpecs;
      if current.None? { return Err(NoRunningTask); }
      var error := ConditionError(condition, current.value.spec.successConditions);
      if error.Some? { return Err(error.value); }
      completion := Complete(EndingPlain(Succeeded, condition, evidence, None));
    }

    method Fail(condition: string, evidence: seq<string>, reason: Option<string>)
        returns (completion: Result<Completion, SchedulerError>)
      requires Valid()
      modifies this
      ensures Valid() && Closes(old(Value()), Value(), MarkFailure(condition, evidence, reason), completion)
    {
      ClosingKeeps(Value(), MarkFailure(condition, evidence, reason));
      hide WellFormed, AllSpecs;
      if current.None? { return Err(NoRunningTask); }
      var error := ConditionError(condition, current.value.spec.failureConditions);
      if error.Some? { return Err(error.value); }
      completion := Complete(EndingPlain(Failed, condition, evidence, reason));
    }

    method CancelCurrent(reason: string, evidence: seq<string>) returns (completion: Result<Completion, SchedulerError>)
      requires Valid()
      modifies this
      ensures Valid() && Closes(old(Value()), Value(), Cancel(reason, evidence), completion)
    {
      ClosingKeeps(Value(), Cancel(reason, evidence));
      hide WellFormed, AllSpecs;
      if reason == "" { return Err(EmptyReason); }
      completion := Complete(EndingPlain(Cancelled, "cancelled", evidence, Some(reason)));
    }

    /** `Ok(None)`: the verdict decides nothing and the task keeps running. */
    method CompleteFromVerifier(verdict: Verdict, event: Option<string>)
        returns (completion: Result<Option<Completion>, SchedulerError>)
      requires Valid()
      modifies this
      ensures Valid()
      ensures
        if completion == Ok(None) then
          current.Some? && !verdict.Terminal() && Value() == old(Value())
        else
          var closed := if completion.Ok? then Ok(completion.value.value) else Err(completion.error);
          Closes(old(Value()), Value(), FromVerifier(verdict, event), closed)
    {
      hide Apply, After, CompleteCurrent, Completes, Closes, EndingOfVerdict, EndingOfStop, WellFormed, AllSpecs;
      ghost var s := Value();
      ClosingKeeps(s, FromVerifier(verdict, event));
      VerdictEnds(s, verdict, event);
      if current.None? {
        ClosesAfter(s, s, FromVerifier(verdict, event), Err(NoRunningTask));
        return Err(NoRunningTask);
      }
      var ending := EndingOfVerdict(verdict, event);
      if ending.None? { return Ok(None); }
      var closed := Complete(ending.value);
      CompletesCloses(s, Value(), FromVerifier(verdict, event), ending.value, closed);
      ClosesAfter(s, Value(), FromVerifier(verdict, event), closed);
      if closed.Ok? { return Ok(Some(closed.value)); }
      return Err(closed.error);
    }

    method CompleteFromManagerStop(stop: ManagerStop, event: Option<string>)
        returns (completion: Result<Completion, SchedulerError>)
      requires Valid()
      modifies this
      ensures Valid() && Closes(old(Value()), Value(), FromManagerStop(stop, event), completion)
    {
      hide Apply, After, CompleteCurrent, Completes, Closes, EndingOfVerdict, EndingOfStop, WellFormed, AllSpecs;
      ghost var s := Value();
      ClosingKeeps(s, FromManagerStop(stop, event));
      StopEnds(s, stop, event);
      completion := Complete(EndingOfStop(stop, event));
      CompletesCloses(s, Value(), FromManagerStop(stop, event), EndingOfStop(stop, event), completion);
      ClosesAfter(s, Value(), FromManagerStop(stop, event), completion);
    }
  }

  /** What completing the running task leaves and reports. */
  predicate Completes(s: State, t: State, ending: Ending, completion: Result<Completion, SchedulerError>) {
    var r := CompleteCurrent(s, ending);
    if r.Ok? then t == r.value && completion == Ok(CompletionOf(s.current.value, ending))
    else t == s && completion == Err(r.error)
  }

  lemma CompletesCloses(s: State, t: State, op: Op, ending: Ending, completion: Result<Completion, SchedulerError>)
    requires Apply(s, op) == CompleteCurrent(s, ending) && Completes(s, t, ending, completion)
    ensures Closes(s, t, op, completion)
  {
    hide Apply;
  }

  lemma ClosesAfter(s: State, t: State, op: Op, completion: Result<Completion, SchedulerError>)
    requires Closes(s, t, op, completion)
    ensures t == After(s, op)
  {}

  lemma TickAfter(s: State)
    ensures After(s, Tick) == Ticked(s)
  {
    hide Ticked;
  }

  lemma TimeoutCompletes(s: State)
    requires s.current.Some?
    ensures
      var ending := EndingPlain(TimedOut, "timeout", [], Some("timeout"));
      var r := CompleteCurrent(s, ending);
      r.Ok? && r.value.current.None? && |r.value.completed| > 0
      && forall t, completion :: Completes(s, t, ending, completion) ==> t == r.value
  {}

  lemma StopEnds(s: State, stop: ManagerStop, event: Option<string>)
    ensures Apply(s, FromManagerStop(stop, event)) == CompleteCurrent(s, EndingOfStop(stop, event))
  {}

  /** A verdict closes the task by its ending; without a task it is refused, without an ending nothing happens. */
  lemma VerdictEnds(s: State, verdict: Verdict, event: Option<string>)
    ensures verdict.Terminal() <==> EndingOfVerdict(verdict, event).Some?
    ensures s.current.None? ==> Closes(s, s, FromVerifier(verdict, event), Err(NoRunningTask))
    ensures s.current.Some? && !verdict.Terminal() ==> After(s, FromVerifier(verdict, event)) == s
    ensures s.current.Some? && verdict.Terminal() ==>
              var ending := EndingOfVerdict(verdict, event).value;
              Apply(s, FromVerifier(verdict, event)) == CompleteCurrent(s, ending)
  {
    hide CompleteCurrent;
  }

  /** An accepted closing appends the closed task and reports its completion; a refused one changes nothing. */
  predicate Closes(s: State, t: State, op: Op, completion: Result<Completion, SchedulerError>) {
    && t == After(s, op)
    && match completion
       case Err(error) => Apply(s, op) == Err(error)
       case Ok(record) =>
         && Apply(s, op).Ok? && s.current.Some? && t.current.None? && t.queue == s.queue
         && t.completed == s.completed + [s.current.value.(status := record.status, completion := Some(record))]
  }
}
