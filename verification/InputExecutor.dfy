/** The guard around every primitive input: emergency stop, focus and a minimum interval. */
module InputExecutor {
  import opened Prelude
  import opened Observations

  /** What the environment answers during one call; a stop check that raises counts as triggered. */
  datatype StopAnswer = NotChecked | Clear | Triggered | Raised

  datatype Answers = Answers(at: real, stop: StopAnswer, focused: bool)

  datatype State = State(latched: bool, last: Option<real>, sent: seq<(PrimitiveAction, real)>)

  datatype Op = Execute(action: PrimitiveAction, answers: Answers) | EnableStop | ClearStop

  /** Why this call must not send; `None` if it may. */
  function Refusal(s: State, a: Answers, minInterval: real): Option<BlockedReason> {
    if s.latched || a.stop == Triggered || a.stop == Raised then Some(EmergencyStopped)
    else if !a.focused then Some(NotFocused)
    else if s.last.Some? && a.at - s.last.value < minInterval then Some(RateLimited)
    else None
  }

  function After(s: State, op: Op, minInterval: real): State {
    match op
    case EnableStop => s.(latched := true)
    case ClearStop => s.(latched := false)
    case Execute(action, a) =>
      if Refusal(s, a, minInterval).Some? then s
      else s.(last := Some(a.at), sent := s.sent + [(action, a.at)])
  }

  function Run(s: State, ops: seq<Op>, minInterval: real): State
    decreases |ops|
  {
    if ops == [] then s else Run(After(s, ops[0], minInterval), ops[1..], minInterval)
  }

  /** Any two sends, not just neighbouring ones, are at least the interval apart. */
  predicate Spaced(sent: seq<(PrimitiveAction, real)>, minInterval: real) {
    forall i, j :: 0 <= i < j < |sent| ==> sent[j].1 - sent[i].1 >= minInterval
  }

  predicate WellTimed(s: State, minInterval: real) {
    && Spaced(s.sent, minInterval)
    && match s.last
       case None => s.sent == []
       case Some(at) => s.sent != [] && s.sent[|s.sent| - 1].1 == at
  }

  lemma SentNext(sent: seq<(PrimitiveAction, real)>, action: PrimitiveAction, at: real, minInterval: real)
    requires minInterval >= 0.0 && Spaced(sent, minInterval) && (sent != [] ==> at - sent[|sent| - 1].1 >= minInterval)
    ensures Spaced(sent + [(action, at)], minInterval)
  {
    var all := sent + [(action, at)];
    forall i, j | 0 <= i < j < |all| ensures all[j].1 - all[i].1 >= minInterval {
      if j == |sent| && i < |sent| - 1 {
        assert sent[|sent| - 1].1 - sent[i].1 >= minInterval;
      }
    }
  }

  lemma AfterWellTimed(s: State, op: Op, minInterval: real)
    requires minInterval >= 0.0 && WellTimed(s, minInterval)
    ensures WellTimed(After(s, op, minInterval), minInterval)
  {
    if op.Execute? && Refusal(s, op.answers, minInterval).None? {
      hide Spaced;
      SentNext(s.sent, op.action, op.answers.at, minInterval);
    }
  }

  /** Whatever the clock reads, forwards or backwards. */
  lemma {:induction false} RunSpaced(s: State, ops: seq<Op>, minInterval: real)
    requires minInterval >= 0.0 && WellTimed(s, minInterval)
    ensures WellTimed(Run(s, ops, minInterval), minInterval)
    decreases |ops|
  {
    if ops != [] {
      AfterWellTimed(s, ops[0], minInterval);
      RunSpaced(After(s, ops[0], minInterval), ops[1..], minInterval);
    }
  }

  /** Nothing is sent from an emergency stop until it is cleared, whatever is attempted. */
  lemma {:induction false} LatchHolds(s: State, ops: seq<Op>, minInterval: real)
    requires s.latched && ClearStop !in ops
    ensures Run(s, ops, minInterval).latched && Run(s, ops, minInterval).sent == s.sent
    decreases |ops|
  {
    if ops != [] {
      assert ops[0] in ops && After(s, ops[0], minInterval).latched;
      LatchHolds(After(s, ops[0], minInterval), ops[1..], minInterval);
    }
  }

  /** After `EnableStop` and before the next `ClearStop` a run sends nothing more. */
  lemma {:induction false} NothingSentWhileStopped(s: State, ops: seq<Op>, i: nat, j: nat, minInterval: real)
    requires i < j <= |ops| && ops[i] == EnableStop && ClearStop !in ops[i..j]
    ensures Run(s, ops[..j], minInterval).sent == Run(s, ops[..i], minInterval).sent
  {
    var before, after := Run(s, ops[..i], minInterval), Run(s, ops[..i + 1], minInterval);
    assert ops[..i + 1] == ops[..i] + [ops[i]] && ops[..j] == ops[..i + 1] + ops[i + 1..j];
    RunSplit(s, ops[..i], [ops[i]], minInterval);
    RunSplit(s, ops[..i + 1], ops[i + 1..j], minInterval);
    assert Run(before, [ops[i]], minInterval) == After(before, EnableStop, minInterval) by {
      assert [ops[i]][1..] == [];
    }
    assert ops[i..j] == [ops[i]] + ops[i + 1..j];
    LatchHolds(after, ops[i + 1..j], minInterval);
  }

  lemma {:induction false} RunSplit(s: State, a: seq<Op>, b: seq<Op>, minInterval: real)
    ensures Run(s, a + b, minInterval) == Run(Run(s, a, minInterval), b, minInterval)
    decreases |a|
  {
    if a == [] {
      assert a + b == b;
    } else {
      assert (a + b)[0] == a[0] && (a + b)[1..] == a[1..] + b;
      RunSplit(After(s, a[0], minInterval), a[1..], b, minInterval);
    }
  }

  /** A stop was signalled, or a stop check raised. */
  predicate StopSignalled(a: Answers) {
    a.stop == Triggered || a.stop == Raised
  }

  class Executor {
    const minInterval: real
    const answers: nat -> Answers
    var calls: nat
    var latched: bool
    var last: Option<real>
    var sent: seq<(PrimitiveAction, real)>

    ghost function Value(): State
      reads this
    {
      State(latched, last, sent)
    }

    ghost predicate Valid()
      reads this
    {
      minInterval >= 0.0 && WellTimed(Value(), minInterval)
    }

    constructor (minInterval: real, answers: nat -> Answers)
      requires minInterval >= 0.0
      ensures Valid() && Value() == State(false, None, []) && this.minInterval == minInterval && this.answers == answers
    {
      this.minInterval, this.answers := minInterval, answers;
      calls, latched, last, sent := 0, false, None, [];
    }

    method EnableEmergencyStop()
      requires Valid()
      modifies this`latched
      ensures Valid() && latched && Value() == After(old(Value()), EnableStop, minInterval)
    {
      latched := true;
    }

    method ClearEmergencyStop()
      requires Valid()
      modifies this`latched
      ensures Valid() && !latched && Value() == After(old(Value()), ClearStop, minInterval)
    {
      latched := false;
    }

    /**
     * The call's answers are the next of the environment's. It sends exactly when no stop is latched or
     * signalled, focus holds and the last send is long enough ago, and else reports the first that fails.
     */
    method Execute(action: PrimitiveAction) returns (result: ActionResult)
      requires Valid()
      modifies this
      ensures Valid() && calls == old(calls) + 1 && latched == old(latched)
      ensures result.action == action && result.evidence == []
      ensures var a := answers(old(calls));
        var early := old(sent) != [] && a.at - old(sent)[|old(sent)| - 1].1 < minInterval;
        if old(latched) || StopSignalled(a) then sent == old(sent) && result.blocked == Some(EmergencyStopped)
        else if !a.focused then sent == old(sent) && result.blocked == Some(NotFocused)
        else if early then sent == old(sent) && result.blocked == Some(RateLimited)
        else sent == old(sent) + [(action, a.at)] && result.blocked.None?
      ensures Value() == After(old(Value()), Op.Execute(action, answers(old(calls))), minInterval)
      ensures result == ActionResult(action, Refusal(old(Value()), answers(old(calls)), minInterval), [])
    {
      AfterWellTimed(Value(), Op.Execute(action, answers(calls)), minInterval);
      var a := answers(calls);
      calls := calls + 1;
      if latched || a.stop == Triggered || a.stop == Raised {
        return ActionResult(action, Some(EmergencyStopped), []);
      }
      if !a.focused {
        return ActionResult(action, Some(NotFocused), []);
      }
      if last.Some? && a.at - last.value < minInterval {
        return ActionResult(action, Some(RateLimited), []);
      }
      sent := sent + [(action, a.at)];
      last := Some(a.at);
      return ActionResult(action, None, []);
    }
  }
}
