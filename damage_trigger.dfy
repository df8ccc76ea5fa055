/** AIDamageTrigger: the zombie's hand trigger. While the attack animation's parameter is
    above 0.9, touching the player hurts them; the damage sound plays only on a first
    contact, re-armed on entry or after three seconds without contact. */
module DamageTrigger {
  import opened Engine

  /** _resetFirstContactDelay, seconds. */
  const ResetFirstContactDelay: real := 3.0

  /** The first-contact flag and its re-arm timer. */
  datatype Cooldown = Cooldown(firstContact: bool, timer: real)

  /** The states the trigger can be in between frames: armed, or counting towards the delay. */
  predicate Reachable(c: Cooldown) {
    c.firstContact || c.timer < ResetFirstContactDelay
  }

  /** Update over one frame of `dt` seconds. */
  function Tick(c: Cooldown, dt: real): (r: Cooldown)
    ensures c.firstContact ==> r == c
    ensures !c.firstContact ==> (r.firstContact <==> c.timer + dt >= ResetFirstContactDelay)
    ensures !c.firstContact && r.firstContact ==> r.timer == 0.0
    ensures !r.firstContact ==> r.timer == c.timer + dt
    ensures Reachable(r)
  {
    if c.firstContact then c
    else if c.timer + dt >= ResetFirstContactDelay then Cooldown(true, 0.0)
    else Cooldown(false, c.timer + dt)
  }

  /** Update over the frames `dts`, oldest first. */
  function TickAll(c: Cooldown, dts: seq<real>): Cooldown
    decreases |dts|
  {
    if dts == [] then c else Tick(TickAll(c, dts[..|dts| - 1]), dts[|dts| - 1])
  }

  /** Frames without contact either re-arm the trigger or leave it disarmed with the timer
      advanced by exactly the elapsed time, still short of the delay. */
  lemma {:induction false} TimerCountsElapsedTime(c: Cooldown, dts: seq<real>)
    requires Reachable(c)
    ensures TickAll(c, dts).firstContact || TickAll(c, dts).timer == c.timer + Elapsed(dts) < ResetFirstContactDelay
    ensures c.firstContact ==> TickAll(c, dts) == c
    decreases |dts|
  {
    if dts != [] {
      TimerCountsElapsedTime(c, dts[..|dts| - 1]);
    }
  }

  /** A disarmed trigger is armed again once the frames since the last contact add up to
      the delay. */
  lemma RearmsAfterDelay(c: Cooldown, dts: seq<real>)
    requires Reachable(c) && c.timer + Elapsed(dts) >= ResetFirstContactDelay
    ensures TickAll(c, dts).firstContact
  {
    TimerCountsElapsedTime(c, dts);
  }

  /** What a qualifying stay event asks CharacterManager.TakeDamage for. */
  datatype Damage = Damage(amount: real, doDamageSound: bool, doPainSound: bool)

  class AIDamageTrigger {
    /** Whether Start found the state machine's animator. */
    const hasAnimator: bool
    /** Whether GameSceneManager.instance exists, and its blood particle system. */
    const hasSceneManager: bool
    const hasBloodParticles: bool
    /** _bloodParticleBurstAmount, _damageAmount, _doDamageSound, _doPainSound. */
    const burstAmount: int
    const damageAmount: real
    const doDamageSound: bool
    const doPainSound: bool
    var firstContact: bool
    var resetFirstContactTimer: real

    /** The flag and the timer together. */
    function State(): Cooldown
      reads this
    {
      Cooldown(firstContact, resetFirstContactTimer)
    }

    /** The component after Start: not armed, timer at 0. */
    constructor (hasAnimator: bool, hasSceneManager: bool, hasBloodParticles: bool, burstAmount: int,
                 damageAmount: real, doDamageSound: bool, doPainSound: bool)
      ensures this.hasAnimator == hasAnimator && this.hasSceneManager == hasSceneManager
      ensures this.hasBloodParticles == hasBloodParticles && this.burstAmount == burstAmount
      ensures this.damageAmount == damageAmount && this.doDamageSound == doDamageSound
      ensures this.doPainSound == doPainSound
      ensures State() == Cooldown(false, 0.0) && Reachable(State())
    {
      this.hasAnimator := hasAnimator;
      this.hasSceneManager := hasSceneManager;
      this.hasBloodParticles := hasBloodParticles;
      this.burstAmount := burstAmount;
      this.damageAmount := damageAmount;
      this.doDamageSound := doDamageSound;
      this.doPainSound := doPainSound;
      firstContact := false;
      resetFirstContactTimer := 0.0;
    }

    /** OnTriggerEnter: `isPlayer` is the collider's Player tag, `parameter` the animator's
        attack parameter. */
    method OnTriggerEnter(isPlayer: bool, parameter: real)
      modifies this`firstContact
      ensures hasAnimator && isPlayer && parameter > 0.9 ==> firstContact
      ensures !(hasAnimator && isPlayer && parameter > 0.9) ==> firstContact == old(firstContact)
    {
      if !hasAnimator { return; }
      if isPlayer && parameter > 0.9 {
        firstContact := true;
      }
    }

    /** Update; `dt` is Time.deltaTime. */
    method Update(dt: real)
      modifies this`firstContact, this`resetFirstContactTimer
      ensures State() == Tick(old(State()), dt)
    {
      if !firstContact {
        resetFirstContactTimer := resetFirstContactTimer + dt;
        if resetFirstContactTimer >= ResetFirstContactDelay {
          resetFirstContactTimer := 0.0;
          firstContact := true;
        }
      }
    }

    /** OnTriggerStay: returns whether `burstAmount` blood particles were emitted, and the
        damage dealt to the player, if any. */
    method OnTriggerStay(isPlayer: bool, parameter: real) returns (burst: bool, damage: Option<Damage>)
      modifies this`firstContact, this`resetFirstContactTimer
      ensures hasAnimator && isPlayer && parameter > 0.9 ==>
        && burst == (hasSceneManager && hasBloodParticles)
        && damage == (if hasSceneManager then Some(Damage(damageAmount, doDamageSound && old(firstContact), doPainSound))
                      else Option.None)
        && State() == Cooldown(false, 0.0)
      ensures !(hasAnimator && isPlayer && parameter > 0.9) ==>
        !burst && damage == Option.None && State() == old(State())
    {
      burst, damage := false, Option.None;
      if !hasAnimator { return; }
      if isPlayer && parameter > 0.9 {
        if hasSceneManager && hasBloodParticles {
          burst := true;
        }
        if hasSceneManager {
          damage := Some(Damage(damageAmount, doDamageSound && firstContact, doPainSound));
        }
        firstContact := false;
        resetFirstContactTimer := 0.0;
      }
    }
  }
}
