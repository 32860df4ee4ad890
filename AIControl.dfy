// The enemy's AI controller, reduced to what the gameplay code writes into
// it: its blackboard keys, whether it was told to stop moving and whether
// its behaviour tree runs.

module AIControl {
  import opened ShooterTypes

  /** A blackboard entry: a bool, a vector or an object reference. */
  datatype BBValue = BoolValue(b: bool) | VectorValue(v: Vector) | ObjectValue(obj: object)

  const CanAttackKey := "CanAttack"
  const DeadKey := "Dead"
  const InAttackRangeKey := "InAttackRange"
  const StunnedKey := "Stunned"
  const TargetKey := "Target"
  const PatrolPointKey := "PatrolPoint"
  const PatrolPoint2Key := "PatrolPoint2"
  const CharacterDeadKey := "CharacterDead"

  class EnemyController {
    var blackboard: map<string, BBValue>
    var movementStopped: bool
    var behaviorTreeRunning: bool

    constructor ()
      ensures blackboard == map[] && !movementStopped && !behaviorTreeRunning
    {
      blackboard := map[];
      movementStopped := false;
      behaviorTreeRunning := false;
    }

    /** UBlackboardComponent::SetValueAsBool / AsVector / AsObject. */
    method SetValue(key: string, value: BBValue)
      modifies this`blackboard
      ensures blackboard == old(blackboard)[key := value]
    {
      blackboard := blackboard[key := value];
    }

    method StopMovement()
      modifies this`movementStopped
      ensures movementStopped
    {
      movementStopped := true;
    }

    method RunBehaviorTree()
      modifies this`behaviorTreeRunning
      ensures behaviorTreeRunning
    {
      behaviorTreeRunning := true;
    }
  }
}
