/** The zombie's Patrol state: walks the waypoint network, reacting to threats. */
module ZombiePatrol {
  import opened Engine
  import opened StateMachine
  import opened ZombieState
  import ZombieIdle

  /** The food test 1 - satisfaction > distance / sensorRadius in single precision: a zero
      radius gives +Infinity or NaN (never hungry enough); an infinite distance is only
      below a negative radius's -Infinity. */
  predicate HungryEnough(satisfaction: real, d: Dist, sensorRadius: real) {
    match d
    case Finite(v) => sensorRadius != 0.0 && 1.0 - satisfaction > v / sensorRadius
    case Infinity => sensorRadius < 0.0
  }

  /** With a positive sensor radius, food draws the zombie exactly when it lies within the
      fraction (1 - satisfaction) of the radius: a sated zombie never goes for food. */
  lemma HungerScalesWithRadius(satisfaction: real, d: real, sensorRadius: real)
    requires sensorRadius > 0.0
    ensures HungryEnough(satisfaction, Finite(d), sensorRadius) <==> d < (1.0 - satisfaction) * sensorRadius
    ensures satisfaction >= 1.0 && d >= 0.0 ==> !HungryEnough(satisfaction, Finite(d), sensorRadius)
  {
    var q := d / sensorRadius;
    assert q * sensorRadius == d;
    var h := 1.0 - satisfaction;
    if h > q {
      assert h * sensorRadius - q * sensorRadius == (h - q) * sensorRadius;
    } else {
      assert q * sensorRadius - h * sensorRadius == (q - h) * sensorRadius;
    }
  }

  /** Patrol's priority: player, light, sound, then food when hungry enough; then a pending
      path keeps patrolling, a sharp turn alerts, and otherwise it keeps patrolling. */
  function PatrolRule(visual: AITargetType, audio: AITargetType, hungry: bool,
                      pathPending: bool, sharpTurn: bool): (r: Decision)
    ensures visual == AITargetType.Visual_Player ==> r == Decision(AIStateType.Pursuit, ToVisualThreat)
    ensures visual == AITargetType.Visual_Light ==> r == Decision(AIStateType.Alerted, ToVisualThreat)
    ensures (visual != AITargetType.Visual_Player && visual != AITargetType.Visual_Light &&
             audio == AITargetType.Audio) ==> r == Decision(AIStateType.Alerted, ToAudioThreat)
    ensures r.next == AIStateType.Pursuit && visual != AITargetType.Visual_Player ==>
      visual == AITargetType.Visual_Food && hungry
    ensures (visual != AITargetType.Visual_Player && visual != AITargetType.Visual_Light &&
             audio != AITargetType.Audio && visual == AITargetType.Visual_Food && hungry) ==>
      r == Decision(AIStateType.Pursuit, ToVisualThreat)
    ensures (visual != AITargetType.Visual_Player && visual != AITargetType.Visual_Light &&
             audio != AITargetType.Audio) ==>
      (r.change == KeepTarget <==> !(visual == AITargetType.Visual_Food && hungry))
    ensures r.change == KeepTarget ==>
      (r.next == AIStateType.Alerted <==> !pathPending && sharpTurn) &&
      (r.next == AIStateType.Patrol <==> pathPending || !sharpTurn)
  {
    if visual == AITargetType.Visual_Player then Decision(AIStateType.Pursuit, ToVisualThreat)
    else if visual == AITargetType.Visual_Light then Decision(AIStateType.Alerted, ToVisualThreat)
    else if audio == AITargetType.Audio then Decision(AIStateType.Alerted, ToAudioThreat)
    else if visual == AITargetType.Visual_Food && hungry then Decision(AIStateType.Pursuit, ToVisualThreat)
    else if pathPending then Decision(AIStateType.Patrol, KeepTarget)
    else if sharpTurn then Decision(AIStateType.Alerted, KeepTarget)
    else Decision(AIStateType.Patrol, KeepTarget)
  }

  /** Idle and Patrol react alike to players, lights and sounds, whatever the timers,
      hunger and path say. */
  lemma IdleAndPatrolShareThreatPriority(visual: AITargetType, audio: AITargetType, hungry: bool,
                                         pathPending: bool, sharpTurn: bool, timer: real, idleTime: real)
    requires visual == AITargetType.Visual_Player || visual == AITargetType.Visual_Light ||
             audio == AITargetType.Audio
    ensures PatrolRule(visual, audio, hungry, pathPending, sharpTurn) == ZombieIdle.IdleRule(visual, audio, timer, idleTime)
  {
  }

  /** Heading for a waypoint, `navAgent.destination = GetWaypointPosition(increment)`: the
      waypoint step from `before` to `after`, with the returned position as the destination. */
  predicate Steered(zm: AIStateMachine, increment: bool, distanceTo: Vec3 -> real, now: real,
                    before: Actuation, after: Actuation)
  {
    && zm.WaypointStep(increment, distanceTo, now, before, after.(navDestination := before.navDestination))
    && 0 <= after.currentWaypoint < |zm.waypoints|
    && after.navDestination == zm.WaypointPosition(after.currentWaypoint)
  }

  method SteerToWaypoint(zm: AIStateMachine, increment: bool, distanceTo: Vec3 -> real, now: real)
    requires zm.WaypointValid() && |zm.waypoints| > 0
    modifies zm`currentWaypoint, zm`target, zm`targetTrigger, zm`navDestination
    ensures zm.WaypointValid() && zm.Routes() == old(zm.Routes())
    ensures Steered(zm, increment, distanceTo, now, old(zm.Actuators()), zm.Actuators())
  {
    ghost var before := zm.Actuators();
    var p := zm.GetWaypointPosition(increment, distanceTo, now);
    ghost var after := zm.Actuators();
    zm.navDestination := p;
    assert after == zm.Actuators().(navDestination := before.navDestination);
  }

  class Patrol1 {
    const zombie: AIZombieState
    /** Inspector speed, in [0, 3]. */
    const speed: real
    const turnOnSpotThreshold: real

    constructor (zombie: AIZombieState, speed: real, turnOnSpotThreshold: real)
      ensures this.zombie == zombie && this.speed == speed && this.turnOnSpotThreshold == turnOnSpotThreshold
    {
      this.zombie := zombie;
      this.speed := speed;
      this.turnOnSpotThreshold := turnOnSpotThreshold;
    }

    /** OnEnterState: resets the animation parameters and heads for the current waypoint
        without advancing. The source indexes the waypoint network unchecked. */
    method OnEnterState(distanceTo: Vec3 -> real, now: real)
      requires zombie.zombieMachine != null ==> zombie.zombieMachine.Valid() && |zombie.zombieMachine.waypoints| > 0
      modifies zombie.zombieMachine
      ensures zombie.zombieMachine != null ==>
        var zm := zombie.zombieMachine;
        && zm.Valid()
        && Steered(zm, false, distanceTo, now,
             old(zm.Actuators()).(navUpdatePosition := true, navUpdateRotation := false, seeking := 0,
                                  feeding := false, attackType := 0),
             zm.Actuators().(navStopped := old(zm.navStopped)))
        && !zm.navStopped
        && zm.Routes() == old(zm.Routes())
    {
      var zm := zombie.zombieMachine;
      if zm == null { return; }
      Head(zm, distanceTo, now);
    }

    /** The body of OnEnterState on a bound machine. */
    method Head(zm: AIStateMachine, distanceTo: Vec3 -> real, now: real)
      requires zm.WaypointValid() && |zm.waypoints| > 0
      modifies zm`navUpdatePosition, zm`navUpdateRotation, zm`seeking, zm`feeding, zm`attackType,
               zm`currentWaypoint, zm`target, zm`targetTrigger, zm`navDestination, zm`navStopped
      ensures zm.WaypointValid() && zm.Routes() == old(zm.Routes())
      ensures Steered(zm, false, distanceTo, now,
                old(zm.Actuators()).(navUpdatePosition := true, navUpdateRotation := false, seeking := 0,
                                     feeding := false, attackType := 0),
                zm.Actuators().(navStopped := old(zm.navStopped)))
      ensures !zm.navStopped
    {
      ghost var routes := zm.Routes();
      zm.NavAgentControl(true, false);
      zm.seeking := 0;
      zm.feeding := false;
      zm.attackType := 0;
      ghost var before := zm.Actuators();
      assert before == old(zm.Actuators()).(navUpdatePosition := true, navUpdateRotation := false,
                                            seeking := 0, feeding := false, attackType := 0);
      assert zm.Routes() == routes;
      SteerToWaypoint(zm, false, distanceTo, now);
      ghost var after := zm.Actuators();
      assert zm.Routes() == routes;
      zm.navStopped := false;
      assert after == zm.Actuators().(navStopped := before.navStopped);
      assert zm.Routes() == routes;
    }

    /** The decision OnUpdate takes for a bound machine's current threats. */
    function Decide(zm: AIStateMachine, pathPending: bool, steeringAngle: real): Decision
      reads zm
    {
      PatrolRule(zm.visualThreat.targetType, zm.audioThreat.targetType,
                 HungryEnough(zm.satisfaction, zm.visualThreat.distance, zm.SensorRadius()),
                 pathPending, steeringAngle > turnOnSpotThreshold && !zm.crawling)
    }

    /** OnUpdate. The nav agent supplies `pathPending`, `pathInvalid` (stale, missing or
        incomplete path) and `steeringAngle`, the angle between the zombie's forward
        vector and its steering target. The slerped rotation is not modelled. */
    method OnUpdate(pathPending: bool, steeringAngle: real, pathInvalid: bool,
                    distanceTo: Vec3 -> real, now: real) returns (next: AIStateType)
      requires zombie.zombieMachine != null ==> zombie.zombieMachine.Valid() && |zombie.zombieMachine.waypoints| > 0
      modifies zombie.zombieMachine
      ensures zombie.zombieMachine == null ==> next == AIStateType.Idle
      ensures zombie.zombieMachine != null ==>
        var zm := zombie.zombieMachine;
        && zm.Valid() && zm.Routes() == old(zm.Routes())
        && next == old(Decide(zm, pathPending, steeringAngle)).next
        && Walked(zm, old(Decide(zm, pathPending, steeringAngle)), old(Retargeted(zm, Decide(zm, pathPending, steeringAngle).change)),
                  old(zm.Actuators()), zm.Actuators(), pathPending, pathInvalid, distanceTo, now)
    {
      var zm := zombie.zombieMachine;
      if zm == null { return AIStateType.Idle; }
      var d := Decide(zm, pathPending, steeringAngle);
      next := Step(zm, d, pathPending, pathInvalid, distanceTo, now);
    }

    /** The actuators OnUpdate leaves: the retargeted ones after a threat; otherwise speed 0
        while the path is pending, else the patrol speed, and on an invalid path a fresh
        destination from the next waypoint. */
    predicate Walked(zm: AIStateMachine, d: Decision, retargeted: Actuation, before: Actuation, after: Actuation,
                     pathPending: bool, pathInvalid: bool, distanceTo: Vec3 -> real, now: real)
    {
      && (d.change != KeepTarget ==> after == retargeted)
      && (d.change == KeepTarget && pathPending ==> after == before.(speed := 0.0))
      && (d.change == KeepTarget && !pathPending && (d.next == AIStateType.Alerted || !pathInvalid) ==>
            after == before.(speed := speed))
      && (d.change == KeepTarget && !pathPending && d.next == AIStateType.Patrol && pathInvalid ==>
            Steered(zm, true, distanceTo, now, before.(speed := speed), after))
    }

    /** Carries out decision `d` on a bound machine. */
    method Step(zm: AIStateMachine, d: Decision, pathPending: bool, pathInvalid: bool,
                distanceTo: Vec3 -> real, now: real) returns (next: AIStateType)
      requires zm.WaypointValid() && |zm.waypoints| > 0
      modifies zm`speed, zm`target, zm`targetTrigger, zm`currentWaypoint, zm`navDestination
      ensures zm.WaypointValid() && zm.Routes() == old(zm.Routes())
      ensures next == d.next
      ensures Walked(zm, d, old(Retargeted(zm, d.change)), old(zm.Actuators()), zm.Actuators(),
                     pathPending, pathInvalid, distanceTo, now)
    {
      next := d.next;
      if d.change != KeepTarget {
        // a player, light, sound or tempting food: target it and leave
        if d.change == ToVisualThreat {
          zm.SetTarget(zm.visualThreat);
        } else {
          zm.SetTarget(zm.audioThreat);
        }
      } else {
        Walk(zm, next, pathPending, pathInvalid, distanceTo, now);
      }
    }

    /** The part of OnUpdate that keeps the current target and only drives the agent. */
    method Walk(zm: AIStateMachine, next: AIStateType, pathPending: bool, pathInvalid: bool,
                distanceTo: Vec3 -> real, now: real)
      requires zm.WaypointValid() && |zm.waypoints| > 0
      modifies zm`speed, zm`currentWaypoint, zm`target, zm`targetTrigger, zm`navDestination
      ensures zm.WaypointValid() && zm.Routes() == old(zm.Routes())
      ensures Walked(zm, Decision(next, KeepTarget), old(zm.Actuators()), old(zm.Actuators()), zm.Actuators(),
                     pathPending, pathInvalid, distanceTo, now)
    {
      if pathPending {
        zm.speed := 0.0;
        return;
      }
      zm.speed := speed;
      if next == AIStateType.Patrol && pathInvalid {
        SteerToWaypoint(zm, true, distanceTo, now);
      }
    }

    /** OnDestinationReach: on arrival at a waypoint target, heads for the next waypoint;
        leaving the target, or arriving at any other target, changes nothing. */
    method OnDestinationReach(isReached: bool, distanceTo: Vec3 -> real, now: real)
      requires zombie.zombieMachine != null ==> zombie.zombieMachine.Valid() && |zombie.zombieMachine.waypoints| > 0
      modifies zombie.zombieMachine
      ensures zombie.zombieMachine != null ==>
        var zm := zombie.zombieMachine;
        && zm.Valid()
        && zm.Routes() == old(zm.Routes())
        && (!isReached || old(zm.target.targetType) != AITargetType.Waypoint ==> zm.Actuators() == old(zm.Actuators()))
        && (isReached && old(zm.target.targetType) == AITargetType.Waypoint ==>
              Steered(zm, true, distanceTo, now, old(zm.Actuators()), zm.Actuators()))
    {
      var zm := zombie.zombieMachine;
      if zm == null || !isReached { return; }
      if zm.target.targetType == AITargetType.Waypoint {
        SteerToWaypoint(zm, true, distanceTo, now);
      }
    }
  }
}
