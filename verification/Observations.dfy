/** What the screen showed, and the sources it is read from. */
module Observations {
  import opened Prelude

  datatype PrimitiveAction = MoveUp | MoveDown | MoveLeft | MoveRight | Confirm | Cancel | OpenMenu | Wait

  datatype BlockedReason = NotFocused | EmergencyStopped | RateLimited
  {
    function Text(): string {
      match this
      case NotFocused => "not_focused"
      case EmergencyStopped => "emergency_stop"
      case RateLimited => "rate_limited"
    }
  }

  /** `blocked` is the reason nothing was sent; the action was executed when there is none. */
  datatype ActionResult = ActionResult(action: PrimitiveAction, blocked: Option<BlockedReason>, evidence: seq<string>)

  datatype Sprite = Sprite(position: (int, int), visualHash: Option<string>, confidence: Option<real>,
                           evidenceId: Option<string>)

  datatype Observation = Observation(evidence: seq<string>, sprites: seq<Sprite>, uiState: string,
                                     combatUiVisible: bool,
                                     lastAction: Option<ActionResult>)

  /** Ids in order of first appearance. */
  function Deduplicated(ids: seq<string>): (r: seq<string>)
    ensures forall id :: id in r <==> id in ids
    ensures forall i, j :: 0 <= i < j < |r| ==> r[i] != r[j]
    ensures |r| <= |ids|
  {
    if ids == [] then []
    else
      var front, last := Deduplicated(ids[..|ids| - 1]), ids[|ids| - 1];
      assert ids == ids[..|ids| - 1] + [last];
      if last in front then front else front + [last]
  }

  function MergedEvidence(before: Observation, after: Observation): seq<string> {
    Deduplicated(before.evidence + after.evidence)
  }

  /** Any source: its n-th answer is arbitrary, `None` once it is exhausted. */
  class ObservationSource {
    const answers: nat -> Option<Observation>
    var asked: nat

    constructor (answers: nat -> Option<Observation>)
      ensures this.answers == answers && asked == 0
    {
      this.answers, asked := answers, 0;
    }

    method Observe() returns (observation: Option<Observation>)
      modifies this
      ensures observation == answers(old(asked)) && asked == old(asked) + 1
    {
      observation := answers(asked);
      asked := asked + 1;
    }
  }

  /** Returns an observation that was already taken first, then delegates. */
  class PrimedSource {
    const first: Observation
    const rest: ObservationSource
    var available: bool

    constructor (first: Observation, rest: ObservationSource)
      ensures this.first == first && this.rest == rest && available
    {
      this.first, this.rest, available := first, rest, true;
    }

    method Observe() returns (observation: Option<Observation>)
      modifies this, rest
      ensures !available
      ensures if old(available) then observation == Some(first) && rest.asked == old(rest.asked)
              else observation == rest.answers(old(rest.asked)) && rest.asked == old(rest.asked) + 1
    {
      if available {
        available := false;
        return Some(first);
      }
      observation := rest.Observe();
    }
  }
}
