/** The zombie's Idle state: stands still for a random time, reacting to threats. */
module ZombieIdle {
  import opened Engine
  import opened StateMachine
  import opened ZombieState

  /** Threat priority of Idle: a player, then a light, then a sound, then food; with no
      threat, Patrol once the timer (already advanced by this tick) exceeds the idle time. */
  function IdleRule(visual: AITargetType, audio: AITargetType, timer: real, idleTime: real): (r: Decision)
    ensures visual == AITargetType.Visual_Player ==> r == Decision(AIStateType.Pursuit, ToVisualThreat)
    ensures visual == AITargetType.Visual_Light ==> r == Decision(AIStateType.Alerted, ToVisualThreat)
    ensures (visual != AITargetType.Visual_Player && visual != AITargetType.Visual_Light &&
             audio == AITargetType.Audio) ==> r == Decision(AIStateType.Alerted, ToAudioThreat)
    ensures visual == AITargetType.Visual_Food && audio != AITargetType.Audio ==>
      r == Decision(AIStateType.Pursuit, ToVisualThreat)
    ensures r.change == KeepTarget <==> !Threatened(visual, audio)
    ensures !Threatened(visual, audio) ==>
      (r.next == AIStateType.Patrol <==> timer > idleTime) &&
      (r.next == AIStateType.Idle <==> timer <= idleTime)
  {
    if visual == AITargetType.Visual_Player then Decision(AIStateType.Pursuit, ToVisualThreat)
    else if visual == AITargetType.Visual_Light then Decision(AIStateType.Alerted, ToVisualThreat)
    else if audio == AITargetType.Audio then Decision(AIStateType.Alerted, ToAudioThreat)
    else if visual == AITargetType.Visual_Food then Decision(AIStateType.Pursuit, ToVisualThreat)
    else if timer > idleTime then Decision(AIStateType.Patrol, KeepTarget)
    else Decision(AIStateType.Idle, KeepTarget)
  }

  /** A threat Idle reacts to: a visual player, light or food, or an audio threat. */
  predicate Threatened(visual: AITargetType, audio: AITargetType) {
    visual == AITargetType.Visual_Player || visual == AITargetType.Visual_Light ||
    visual == AITargetType.Visual_Food || audio == AITargetType.Audio
  }

  /** With no threat and a positive tick dt, Idle hands over to Patrol on the first tick n
      with n * dt > idleTime and stays Idle on every tick k before it. */
  lemma IdleTimesOut(idleTime: real, dt: real, k: nat, n: nat)
    requires dt > 0.0 && k < n
    requires (n as real) * dt > idleTime && ((n - 1) as real) * dt <= idleTime
    ensures IdleRule(AITargetType.None, AITargetType.None, (k as real) * dt, idleTime).next == AIStateType.Idle
    ensures IdleRule(AITargetType.None, AITargetType.None, (n as real) * dt, idleTime).next == AIStateType.Patrol
  {
    MulMonotone(k, n - 1, dt);
  }

  lemma MulMonotone(a: nat, b: nat, dt: real)
    requires a <= b && dt > 0.0
    ensures (a as real) * dt <= (b as real) * dt
  {
    assert (b as real) * dt - (a as real) * dt == ((b - a) as real) * dt;
  }

  class Idle1 {
    const zombie: AIZombieState
    /** The inspector's _idleTimeRange (x, y). */
    const idleTimeMin: real
    const idleTimeMax: real
    var idleTime: real
    var timer: real

    constructor (zombie: AIZombieState, idleTimeMin: real, idleTimeMax: real)
      ensures this.zombie == zombie && this.idleTimeMin == idleTimeMin && this.idleTimeMax == idleTimeMax
      ensures idleTime == 0.0 && timer == 0.0
    {
      this.zombie := zombie;
      this.idleTimeMin, this.idleTimeMax := idleTimeMin, idleTimeMax;
      idleTime, timer := 0.0, 0.0;
    }

    /** OnEnterState: draws the idle time from the range, restarts the timer, stops the
        zombie and clears its target. The source clears the target trigger without a null
        check, so a bound machine needs one. */
    method OnEnterState()
      requires zombie.zombieMachine != null ==> zombie.zombieMachine.hasTargetTrigger
      modifies this, zombie.zombieMachine
      ensures zombie.zombieMachine == null ==> idleTime == old(idleTime) && timer == old(timer)
      ensures zombie.zombieMachine != null ==>
        var zm := zombie.zombieMachine;
        && Min(idleTimeMin, idleTimeMax) <= idleTime <= Max(idleTimeMin, idleTimeMax)
        && timer == 0.0
        && zm.Actuators() == old(zm.Actuators()).(
             navUpdatePosition := true, navUpdateRotation := false, speed := 0.0, seeking := 0,
             feeding := false, attackType := 0, target := ClearedAITarget(),
             trigger := old(zm.targetTrigger).(enabled := false))
        && zm.Routes() == old(zm.Routes())
    {
      var zm := zombie.zombieMachine;
      if zm == null { return; }
      var lo, hi := Min(idleTimeMin, idleTimeMax), Max(idleTimeMin, idleTimeMax);
      assert Within(lo, lo, hi);
      var t :| Within(t, lo, hi);
      idleTime := t;
      timer := 0.0;
      zm.NavAgentControl(true, false);
      zm.speed := 0.0;
      zm.seeking := 0;
      zm.feeding := false;
      zm.attackType := 0;
      zm.ClearTarget();
      assert Within(idleTime, lo, hi);
    }

    /** OnUpdate: `dt` is Time.deltaTime. The timer only advances when no threat is seen. */
    method OnUpdate(dt: real) returns (next: AIStateType)
      modifies this`timer, zombie.zombieMachine
      ensures zombie.zombieMachine == null ==> next == AIStateType.Idle && timer == old(timer)
      ensures zombie.zombieMachine != null ==>
        var zm := zombie.zombieMachine;
        var visual, audio := old(zm.visualThreat.targetType), old(zm.audioThreat.targetType);
        var r := IdleRule(visual, audio, old(timer) + dt, idleTime);
        && next == r.next
        && timer == (if Threatened(visual, audio) then old(timer) else old(timer) + dt)
        && zm.Actuators() == old(Retargeted(zm, r.change))
        && zm.Routes() == old(zm.Routes())
    {
      var zm := zombie.zombieMachine;
      if zm == null { return AIStateType.Idle; }
      if zm.visualThreat.targetType == AITargetType.Visual_Player {
        zm.SetTarget(zm.visualThreat);
        return AIStateType.Pursuit;
      }
      if zm.visualThreat.targetType == AITargetType.Visual_Light {
        zm.SetTarget(zm.visualThreat);
        return AIStateType.Alerted;
      }
      if zm.audioThreat.targetType == AITargetType.Audio {
        zm.SetTarget(zm.audioThreat);
        return AIStateType.Alerted;
      }
      if zm.visualThreat.targetType == AITargetType.Visual_Food {
        zm.SetTarget(zm.visualThreat);
        return AIStateType.Pursuit;
      }
      timer := timer + dt;
      if timer > idleTime {
        return AIStateType.Patrol;
      }
      return AIStateType.Idle;
    }
  }
}
