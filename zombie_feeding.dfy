/** The zombie's Feeding state: eats until sated, breaking off for any visual threat. */
module ZombieFeeding {
  import opened Engine
  import opened StateMachine
  import opened ZombieState

  /** Feeding's rule, branch by branch: sated (above 0.9) ends in Alerted; any visual threat
      other than none or food is targeted and ends in Alerted; an audio-typed *visual*
      threat would target the audio threat; otherwise keep feeding. */
  function FeedingRule(satisfaction: real, visual: AITargetType): (r: Decision)
    ensures satisfaction > 0.9 ==> r == Decision(AIStateType.Alerted, KeepTarget)
    ensures r.change == ToVisualThreat <==>
      satisfaction <= 0.9 && visual != AITargetType.None && visual != AITargetType.Visual_Food
    ensures r.next == AIStateType.Feeding <==>
      satisfaction <= 0.9 && (visual == AITargetType.None || visual == AITargetType.Visual_Food)
    ensures r.next == AIStateType.Feeding || r.next == AIStateType.Alerted
    // the branch that targets the audio threat can never be taken
    ensures r.change != ToAudioThreat
  {
    if satisfaction > 0.9 then Decision(AIStateType.Alerted, KeepTarget)
    else if visual != AITargetType.None && visual != AITargetType.Visual_Food then
      Decision(AIStateType.Alerted, ToVisualThreat)
    else if visual == AITargetType.Audio then Decision(AIStateType.Alerted, ToAudioThreat)
    else Decision(AIStateType.Feeding, KeepTarget)
  }

  /** One tick of eating: satisfaction grows by dt * replenishRate / 100, capped at 1
      (Mathf.Min). */
  function Replenished(satisfaction: real, dt: real, replenishRate: real): (r: real)
    ensures r <= 1.0
    ensures r == 1.0 || r == satisfaction + dt * replenishRate / 100.0
    ensures r <= satisfaction + dt * replenishRate / 100.0
    ensures satisfaction <= 1.0 && dt * replenishRate >= 0.0 ==> satisfaction <= r
  {
    Min(satisfaction + dt * replenishRate / 100.0, 1.0)
  }

  /** Satisfaction after eating through the ticks `dts`, oldest first. */
  function ReplenishedOver(satisfaction: real, dts: seq<real>, replenishRate: real): real
    decreases |dts|
  {
    if dts == [] then satisfaction
    else Replenished(ReplenishedOver(satisfaction, dts[..|dts| - 1], replenishRate), dts[|dts| - 1], replenishRate)
  }

  /** While eating with a non-negative replenish rate and frame times, satisfaction never
      decreases and never exceeds 1, however many ticks pass. */
  lemma {:induction false} EatingIsMonotoneAndCapped(satisfaction: real, dts: seq<real>, n: nat, replenishRate: real)
    requires 0.0 <= satisfaction <= 1.0 && replenishRate >= 0.0
    requires forall i :: 0 <= i < |dts| ==> dts[i] >= 0.0
    requires n <= |dts|
    ensures satisfaction <= ReplenishedOver(satisfaction, dts[..n], replenishRate)
    ensures ReplenishedOver(satisfaction, dts[..n], replenishRate) <= ReplenishedOver(satisfaction, dts, replenishRate) <= 1.0
    decreases |dts|
  {
    if dts != [] {
      var init := dts[..|dts| - 1];
      assert forall i :: 0 <= i < |init| ==> init[i] >= 0.0;
      var last := dts[|dts| - 1];
      assert last * replenishRate >= 0.0;
      if n == |dts| {
        assert dts[..n] == dts;
        EatingIsMonotoneAndCapped(satisfaction, init, |init|, replenishRate);
        assert init[..|init|] == init;
      } else {
        assert dts[..n] == init[..n];
        EatingIsMonotoneAndCapped(satisfaction, init, n, replenishRate);
      }
    } else {
      assert dts[..n] == dts;
    }
  }

  /** The burst timer after a tick: a burst is emitted, and the timer restarts, when eating
      with the particle system available and the advanced timer has reached the burst time. */
  function BurstTimer(timer: real, dt: real, bursting: bool, burstTime: real): (r: real)
    ensures bursting && timer + dt >= burstTime ==> r == 0.0
    ensures !(bursting && timer + dt >= burstTime) ==> r == timer + dt
  {
    if bursting && timer + dt >= burstTime then 0.0 else timer + dt
  }

  /** With bursts enabled and a positive burst time, the timer never passes the burst time
      by more than one tick: each tick either restarts it or leaves it below the burst time. */
  lemma BurstTimerBounded(timer: real, dt: real, burstTime: real)
    requires 0.0 <= timer < burstTime && 0.0 <= dt
    ensures 0.0 <= BurstTimer(timer, dt, true, burstTime) < burstTime
  {
  }

  class Feeding1 {
    const zombie: AIZombieState
    /** _bloodParticlesBurstTime, in [0.01, 1]. */
    const burstTime: real
    /** _bloodParticlesBurstAmount, in [1, 100]. */
    const burstAmount: int
    /** Animator layer of the eating states, -1 until the first entry looks it up. */
    var eatingLayerIndex: int
    var timer: real

    constructor (zombie: AIZombieState, burstTime: real, burstAmount: int)
      ensures this.zombie == zombie && this.burstTime == burstTime && this.burstAmount == burstAmount
      ensures eatingLayerIndex == -1 && timer == 0.0
    {
      this.zombie := zombie;
      this.burstTime := burstTime;
      this.burstAmount := burstAmount;
      eatingLayerIndex := -1;
      timer := 0.0;
    }

    /** OnEnterState: looks up the "Cinematic" layer once (its index is `cinematicLayer`),
        starts the feeding animation, stops the zombie and restarts the burst timer. */
    method OnEnterState(cinematicLayer: int)
      modifies this`eatingLayerIndex, this`timer, zombie.zombieMachine
      ensures zombie.zombieMachine == null ==>
        eatingLayerIndex == old(eatingLayerIndex) && timer == old(timer)
      ensures zombie.zombieMachine != null ==>
        var zm := zombie.zombieMachine;
        && eatingLayerIndex == (if old(eatingLayerIndex) == -1 then cinematicLayer else old(eatingLayerIndex))
        && timer == 0.0
        && zm.Actuators() == old(zm.Actuators()).(feeding := true, seeking := 0, speed := 0.0, attackType := 0)
        && zm.Routes() == old(zm.Routes())
    {
      var zm := zombie.zombieMachine;
      if zm == null { return; }
      if eatingLayerIndex == -1 {
        eatingLayerIndex := cinematicLayer;
      }
      StartFeeding(zm);
      timer := 0.0;
    }

    /** The animation parameters OnEnterState sets on a bound machine. */
    static method StartFeeding(zm: AIStateMachine)
      modifies zm`feeding, zm`seeking, zm`speed, zm`attackType
      ensures zm.feeding && zm.seeking == 0 && zm.speed == 0.0 && zm.attackType == 0
    {
      zm.feeding := true;
      zm.seeking := 0;
      zm.speed := 0.0;
      zm.attackType := 0;
    }

    /** OnUpdate. `dt` is Time.deltaTime; `eating` says whether the animator is in the
        eating or crawl-eating state on the eating layer; `canBurst` whether the scene's
        blood particle system and this state's particle mount exist. `burst` reports that
        `burstAmount` blood particles were emitted. The source dereferences the zombie
        machine unchecked, and the sated branch indexes the waypoint network unchecked.
        The head-to-target drift of the transform is not modelled. */
    method OnUpdate(dt: real, eating: bool, canBurst: bool, distanceTo: Vec3 -> real, now: real)
      returns (next: AIStateType, burst: bool)
      requires zombie.zombieMachine != null
      requires zombie.zombieMachine.WaypointValid()
      requires zombie.zombieMachine.satisfaction > 0.9 ==> |zombie.zombieMachine.waypoints| > 0
      modifies this`timer, zombie.zombieMachine
      ensures
        var zm := zombie.zombieMachine;
        var d := FeedingRule(old(zm.satisfaction), old(zm.visualThreat.targetType));
        && next == d.next
        && zm.WaypointValid()
        && zm.Routes() == old(zm.Routes())
        && (old(zm.satisfaction) > 0.9 ==>
              zm.WaypointStep(false, distanceTo, now, old(zm.Actuators()), zm.Actuators()))
        && (d.change == ToVisualThreat ==> zm.Actuators() == old(zm.AfterSetTarget(zm.visualThreat)))
        && (next == AIStateType.Feeding ==>
              zm.Actuators() == old(zm.Actuators()).(
                satisfaction := if eating then Replenished(old(zm.satisfaction), dt, zm.replenishRate)
                                else old(zm.satisfaction)))
        && burst == (next == AIStateType.Feeding && eating && canBurst && old(timer) + dt >= burstTime)
        && timer == BurstTimer(old(timer), dt, next == AIStateType.Feeding && eating && canBurst, burstTime)
    {
      var zm := zombie.zombieMachine;
      next, burst := Feed(zm, dt, eating, canBurst, distanceTo, now);
    }

    /** The body of OnUpdate on a bound machine, field by field. */
    method Feed(zm: AIStateMachine, dt: real, eating: bool, canBurst: bool, distanceTo: Vec3 -> real, now: real)
      returns (next: AIStateType, burst: bool)
      requires zm.WaypointValid()
      requires zm.satisfaction > 0.9 ==> |zm.waypoints| > 0
      modifies this`timer, zm`satisfaction, zm`currentWaypoint, zm`target, zm`targetTrigger
      ensures
        var d := FeedingRule(old(zm.satisfaction), zm.visualThreat.targetType);
        && next == d.next
        && zm.WaypointValid()
        && (old(zm.satisfaction) > 0.9 ==>
              zm.WaypointStep(false, distanceTo, now, old(zm.Actuators()), zm.Actuators()))
        && (d.change == ToVisualThreat ==>
              && zm.target == zm.visualThreat
              && zm.targetTrigger == (if zm.hasTargetTrigger then TargetTrigger(zm.stoppingDistance, zm.visualThreat.position, true)
                                      else old(zm.targetTrigger))
              && zm.satisfaction == old(zm.satisfaction) && zm.currentWaypoint == old(zm.currentWaypoint))
        && (next == AIStateType.Feeding ==>
              && zm.satisfaction == (if eating then Replenished(old(zm.satisfaction), dt, zm.replenishRate)
                                     else old(zm.satisfaction))
              && zm.target == old(zm.target) && zm.targetTrigger == old(zm.targetTrigger)
              && zm.currentWaypoint == old(zm.currentWaypoint))
        && burst == (next == AIStateType.Feeding && eating && canBurst && old(timer) + dt >= burstTime)
        && timer == BurstTimer(old(timer), dt, next == AIStateType.Feeding && eating && canBurst, burstTime)
    {
      burst := false;
      timer := timer + dt;
      if zm.satisfaction > 0.9 {
        var _ := zm.GetWaypointPosition(false, distanceTo, now);
        return AIStateType.Alerted, false;
      }
      if zm.visualThreat.targetType != AITargetType.None && zm.visualThreat.targetType != AITargetType.Visual_Food {
        zm.SetTarget(zm.visualThreat);
        return AIStateType.Alerted, false;
      }
      if zm.visualThreat.targetType == AITargetType.Audio {
        // the source would target the audio threat here; the test above already returned
        assert false;
      }
      if eating {
        zm.satisfaction := Min(zm.satisfaction + dt * zm.replenishRate / 100.0, 1.0);
        if canBurst && timer >= burstTime {
          burst := true;
          timer := 0.0;
        }
      }
      return AIStateType.Feeding, burst;
    }

    /** OnExitState: stops the feeding animation of a bound machine. */
    method OnExitState()
      modifies zombie.zombieMachine
      ensures zombie.zombieMachine != null ==>
        && zombie.zombieMachine.Actuators() == old(zombie.zombieMachine.Actuators()).(feeding := false)
        && zombie.zombieMachine.Routes() == old(zombie.zombieMachine.Routes())
    {
      if zombie.zombieMachine != null {
        zombie.zombieMachine.feeding := false;
      }
    }
  }
}
