/** The executable contract a plan is turned into. */
module Tasks {
  import opened Prelude

  datatype UniversalSkill = ContinueDialogue | BasicReachTarget | InteractVisible | InteractVisibleObject
      | SafeReachTarget
  {
    function Text(): string {
      match this
      case ContinueDialogue => "continue_dialogue"
      case BasicReachTarget => "basic_reach_target"
      case InteractVisible => "interact_visible"
      case InteractVisibleObject => "interact_visible_object"
      case SafeReachTarget => "safe_reach_target"
    }
  }

  datatype GroundedTarget =
    | ScreenPoint(id: string, confidence: real, evidence: seq<string>, position: (int, int))
    | VisibleObject(id: string, confidence: real, evidence: seq<string>, position: (int, int),
        visualHash: Option<string>)

  datatype TaskSpec = TaskSpec(taskId: string, skill: UniversalSkill, goal: string, target: Option<GroundedTarget>,
                               successConditions: seq<string>, failureConditions: seq<string>, timeoutSteps: nat,
                               sourceEvidence: seq<string>)
  {
    predicate Valid() {
      && timeoutSteps > 0
      && (forall i :: 0 <= i < |successConditions| ==> successConditions[i] != "")
      && (forall i :: 0 <= i < |failureConditions| ==> failureConditions[i] != "")
    }
  }
}
