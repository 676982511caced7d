/** Outcomes of verification, and terminal stops owned by the Manager itself. */
module Verdicts {
  import opened Prelude

  datatype FailureKind =
    | PerceptionUncertain | GroundingFailed | CapabilityRejected | PlanningFailed | SkillFailed | NoProgress | Timeout
    | TargetLost | SafetyIntervention | FocusLost | Death | ReplanRequired | Contaminated
  {
    function Text(): string {
      match this
      case PerceptionUncertain => "perception_uncertain"
      case GroundingFailed => "grounding_failed"
      case CapabilityRejected => "capability_rejected"
      case PlanningFailed => "planning_failed"
      case SkillFailed => "skill_failed"
      case NoProgress => "no_progress"
      case Timeout => "timeout"
      case TargetLost => "target_lost"
      case SafetyIntervention => "safety_intervention"
      case FocusLost => "focus_lost"
      case Death => "death"
      case ReplanRequired => "replan_required"
      case Contaminated => "contaminated"
    }
  }

  /** A verifier's outcome; only a failure has a kind. */
  datatype Verdict =
    | Success(evidence: seq<string>)
    | Progress(evidence: seq<string>)
    | Failure(kind: FailureKind, evidence: seq<string>)
    | Abstain(evidence: seq<string>)
  {
    predicate Terminal() {
      Success? || Failure?
    }
  }

  datatype ManagerStop = ManagerStop(kind: FailureKind, reason: string, evidence: seq<string>, trigger: Option<string>)
}
