/** The zombie's Attack state: strikes while the player stays in melee range. */
module ZombieAttack {
  import opened Engine
  import opened StateMachine
  import opened ZombieState

  /** Attack's rule: a visible player is (re)targeted, attacked again when in melee range
      and pursued otherwise; anything else ends the attack in Alerted. */
  function AttackRule(visual: AITargetType, inMelee: bool): (r: Decision)
    ensures r.next == AIStateType.Attack <==> visual == AITargetType.Visual_Player && inMelee
    ensures r.next == AIStateType.Pursuit <==> visual == AITargetType.Visual_Player && !inMelee
    ensures r.next == AIStateType.Alerted <==> visual != AITargetType.Visual_Player
    ensures r.change == ToVisualThreat <==> visual == AITargetType.Visual_Player
    ensures r.change != ToAudioThreat
  {
    if visual == AITargetType.Visual_Player then
      if !inMelee then Decision(AIStateType.Pursuit, ToVisualThreat)
      else Decision(AIStateType.Attack, ToVisualThreat)
    else Decision(AIStateType.Alerted, KeepTarget)
  }

  /** Random.Range(1, 100) over integers: 100 is exclusive. */
  predicate IsAttackType(a: int) {
    1 <= a <= 99
  }

  /** The speed Attack sets from the distance to the current target position. */
  function ApproachSpeed(distanceToTarget: real, stoppingDistance: real, speed: real): (r: real)
    ensures r == 0.0 || r == speed
    ensures r == speed <==> distanceToTarget >= stoppingDistance || speed == 0.0
  {
    if distanceToTarget < stoppingDistance then 0.0 else speed
  }

  class Attack1 {
    const zombie: AIZombieState
    /** Inspector speed, in [0, 10]. */
    const speed: real
    /** The state's own stopping distance (not the machine's). */
    const stoppingDistance: real
    /** Weight of the look-at IK, restarted on entry. */
    var currentLookAtWeight: real

    constructor (zombie: AIZombieState, speed: real, stoppingDistance: real)
      ensures this.zombie == zombie && this.speed == speed && this.stoppingDistance == stoppingDistance
      ensures currentLookAtWeight == 0.0
    {
      this.zombie := zombie;
      this.speed := speed;
      this.stoppingDistance := stoppingDistance;
      currentLookAtWeight := 0.0;
    }

    /** OnEnterState: hands the nav agent's position to the animator, picks an attack
        animation and moves at the state's speed. */
    method OnEnterState()
      modifies this`currentLookAtWeight, zombie.zombieMachine
      ensures zombie.zombieMachine == null ==> currentLookAtWeight == old(currentLookAtWeight)
      ensures zombie.zombieMachine != null ==>
        var zm := zombie.zombieMachine;
        && IsAttackType(zm.attackType)
        && zm.Actuators() == old(zm.Actuators()).(
             navUpdatePosition := true, navUpdateRotation := false, seeking := 0, feeding := false,
             attackType := zm.attackType, speed := speed)
        && zm.Routes() == old(zm.Routes())
        && currentLookAtWeight == 0.0
    {
      var zm := zombie.zombieMachine;
      if zm == null { return; }
      zm.NavAgentControl(true, false);
      zm.seeking := 0;
      zm.feeding := false;
      assert IsAttackType(1);
      var a :| IsAttackType(a);
      zm.attackType := a;
      zm.speed := speed;
      currentLookAtWeight := 0.0;
    }

    /** OnUpdate. `distanceToTarget` is the distance from the zombie to the target position
        held before this tick. The source dereferences the zombie machine unchecked, so a
        bound one is required. The rotation towards the target is not modelled. */
    method OnUpdate(distanceToTarget: real) returns (next: AIStateType)
      requires zombie.zombieMachine != null
      modifies zombie.zombieMachine
      ensures
        var zm := zombie.zombieMachine;
        var d := AttackRule(old(zm.visualThreat.targetType), old(zm.inMeleeRange));
        && next == d.next
        && zm.speed == ApproachSpeed(distanceToTarget, stoppingDistance, speed)
        && (next == AIStateType.Attack ==> IsAttackType(zm.attackType))
        && zm.Actuators() == old(Retargeted(zm, d.change)).(
             speed := zm.speed,
             attackType := if next == AIStateType.Attack then zm.attackType else old(zm.attackType))
        && zm.Routes() == old(zm.Routes())
    {
      var zm := zombie.zombieMachine;
      next := Strike(zm, distanceToTarget);
    }

    /** The body of OnUpdate on a bound machine, field by field. */
    method Strike(zm: AIStateMachine, distanceToTarget: real) returns (next: AIStateType)
      modifies zm`speed, zm`attackType, zm`target, zm`targetTrigger
      ensures next == AttackRule(zm.visualThreat.targetType, zm.inMeleeRange).next
      ensures zm.speed == ApproachSpeed(distanceToTarget, stoppingDistance, speed)
      ensures zm.visualThreat.targetType == AITargetType.Visual_Player ==>
        zm.target == zm.visualThreat &&
        zm.targetTrigger == (if zm.hasTargetTrigger then TargetTrigger(zm.stoppingDistance, zm.visualThreat.position, true)
                             else old(zm.targetTrigger))
      ensures zm.visualThreat.targetType != AITargetType.Visual_Player ==>
        zm.target == old(zm.target) && zm.targetTrigger == old(zm.targetTrigger)
      ensures next == AIStateType.Attack ==> IsAttackType(zm.attackType)
      ensures next != AIStateType.Attack ==> zm.attackType == old(zm.attackType)
    {
      if distanceToTarget < stoppingDistance {
        zm.speed := 0.0;
      } else {
        zm.speed := speed;
      }
      if zm.visualThreat.targetType == AITargetType.Visual_Player {
        zm.SetTarget(zm.visualThreat);
        if !zm.inMeleeRange {
          return AIStateType.Pursuit;
        }
        assert IsAttackType(1);
        var a :| IsAttackType(a);
        zm.attackType := a;
        return AIStateType.Attack;
      }
      return AIStateType.Alerted;
    }
  }
}
