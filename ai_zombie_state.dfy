/** The shared base of the zombie states: binding to a zombie machine, arbitrating which
    trigger event becomes the visual or audio threat, and the line-of-sight test. */
module ZombieState {
  import opened Engine
  import opened AIState
  import opened StateMachine

  /** A collider reported by the sensor, by tag. Distances are the engine's
      Vector3.Distance from the sensor position; a sound emitter carries its sphere
      collider, whose world-space centre and radius the arbitration computes. */
  datatype Stimulus =
    | Player(collider: ObjectId, position: Vec3, distance: real)
    | Flashlight(collider: ObjectId, position: Vec3, distance: real, zSize: real)
    | Sound(collider: ObjectId, sphere: SphereCollider, distance: real)
    | Food(collider: ObjectId, position: Vec3, distance: real)
    | Untagged

  /** The machine's two threat slots. */
  datatype Threats = Threats(visual: AITarget, audio: AITarget)

  /** The zombie parameters the arbitration reads. */
  datatype Senses = Senses(sight: real, hearing: real, intelligence: real, satisfaction: real)

  /** The sound is too far when (d / r) * (2 - hearing) > 1. With a zero radius the
      single-precision quotient is +Infinity for d > 0 (too far unless hearing is 1, where
      Infinity * 0 is NaN) and NaN for d = 0; NaN compares false. */
  predicate SoundTooFar(d: real, r: real, hearing: real) {
    if r == 0.0 then d > 0.0 && hearing < 1.0
    else (d / r) * (2.0 - hearing) > 1.0
  }

  /** A flashlight aggravates when d / zSize is within both sight and intelligence. A zero
      zSize gives +Infinity or NaN, which never passes. */
  predicate FlashlightAggravates(d: real, zSize: real, sight: real, intelligence: real) {
    zSize != 0.0 && d / zSize <= sight && d / zSize <= intelligence
  }

  /** OnTriggerEvent's decision for a machine that is bound. `visible` is the line-of-sight
      answer for the stimulus's collider, consulted only for players and food. */
  function Arbitrate(th: Threats, eventType: AITriggerEventType, s: Stimulus, senses: Senses,
                     visible: bool, now: real): (r: Threats)
    ensures eventType == AITriggerEventType.Exit ==> r == th
    ensures s.Sound? || s.Untagged? ==> r.visual == th.visual
    ensures !s.Sound? ==> r.audio == th.audio
    ensures r.visual != th.visual ==>
      r.visual.collider == Some(s.collider) && r.visual.distance == Finite(s.distance) && r.visual.time == now
  {
    if eventType == AITriggerEventType.Exit then th
    else
      var curType := th.visual.targetType;
      match s
      case Player(c, p, d) =>
        if (curType != AITargetType.Visual_Player || Below(d, th.visual.distance)) && visible
        then th.(visual := SetAITarget(AITargetType.Visual_Player, Some(c), p, d, now))
        else th
      case Flashlight(c, p, d, zSize) =>
        if curType != AITargetType.Visual_Player &&
           FlashlightAggravates(d, zSize, senses.sight, senses.intelligence)
        then th.(visual := SetAITarget(AITargetType.Visual_Light, Some(c), p, d, now))
        else th
      case Sound(c, sphere, d) =>
        var world := ConvertSphereColliderToWorldSpace(Some(sphere));
        if SoundTooFar(d, world.radius, senses.hearing) then th
        else if Below(d, th.audio.distance)
        then th.(audio := SetAITarget(AITargetType.Audio, Some(c), world.position, d, now))
        else th
      case Food(c, p, d) =>
        if curType != AITargetType.Visual_Player && curType != AITargetType.Visual_Light &&
           th.audio.targetType == AITargetType.None && senses.satisfaction <= 0.9 &&
           Below(d, th.visual.distance) && visible
        then th.(visual := SetAITarget(AITargetType.Visual_Food, Some(c), p, d, now))
        else th
      case Untagged => th
  }

  /** A player replaces the visual threat exactly when it is visible and either no player is
      the threat yet or it is strictly closer than the current player. */
  lemma PlayerReplacesIff(th: Threats, eventType: AITriggerEventType, c: ObjectId, p: Vec3, d: real,
                          senses: Senses, visible: bool, now: real)
    requires eventType != AITriggerEventType.Exit
    ensures var r := Arbitrate(th, eventType, Player(c, p, d), senses, visible, now);
      (r.visual == SetAITarget(AITargetType.Visual_Player, Some(c), p, d, now)) <==>
      (th.visual == SetAITarget(AITargetType.Visual_Player, Some(c), p, d, now) ||
       (visible && (th.visual.targetType != AITargetType.Visual_Player || Below(d, th.visual.distance))))
  {
  }

  /** Once a player is the visual threat, no flashlight, food, sound or untagged collider
      displaces it, and a player only displaces it by being strictly closer: the player's
      distance never grows. */
  lemma PlayerThreatDominates(th: Threats, eventType: AITriggerEventType, s: Stimulus,
                              senses: Senses, visible: bool, now: real)
    requires th.visual.targetType == AITargetType.Visual_Player
    ensures var r := Arbitrate(th, eventType, s, senses, visible, now);
      r.visual.targetType == AITargetType.Visual_Player &&
      AtMost(r.visual.distance, th.visual.distance) &&
      (!s.Player? ==> r.visual == th.visual)
  {
  }

  /** The audio threat only ever moves to a strictly closer sound. */
  lemma AudioThreatNeverRecedes(th: Threats, eventType: AITriggerEventType, s: Stimulus,
                                senses: Senses, visible: bool, now: real)
    ensures var r := Arbitrate(th, eventType, s, senses, visible, now);
      r.audio == th.audio ||
      (r.audio.targetType == AITargetType.Audio && r.audio.distance.Finite? &&
       Below(r.audio.distance.value, th.audio.distance))
  {
  }

  /** Food is only taken as the threat when there is no player or light threat, no audio
      threat, the zombie is not sated (satisfaction at most 0.9), and the food is visible
      and strictly closer than the current visual threat. */
  lemma FoodNeedsHunger(th: Threats, eventType: AITriggerEventType, s: Stimulus,
                        senses: Senses, visible: bool, now: real)
    requires Arbitrate(th, eventType, s, senses, visible, now).visual.targetType == AITargetType.Visual_Food
    requires Arbitrate(th, eventType, s, senses, visible, now).visual != th.visual
    ensures s.Food? && visible && senses.satisfaction <= 0.9
    ensures s.Food? ==> Below(s.distance, th.visual.distance)
    ensures th.audio.targetType == AITargetType.None
    ensures th.visual.targetType != AITargetType.Visual_Player && th.visual.targetType != AITargetType.Visual_Light
  {
  }

  /** A flashlight becomes the visual threat exactly when it already is that threat, or no
      player is the threat and it is near enough for both sight and intelligence. There is
      no distance test: it displaces any other light, even a nearer one. With a positive
      depth zSize, near enough means the distance is at most sight * zSize and at most
      intelligence * zSize. */
  lemma FlashlightIff(th: Threats, eventType: AITriggerEventType, c: ObjectId, p: Vec3, d: real,
                      zSize: real, senses: Senses, visible: bool, now: real)
    requires eventType != AITriggerEventType.Exit
    ensures var r := Arbitrate(th, eventType, Flashlight(c, p, d, zSize), senses, visible, now);
      (r.visual == SetAITarget(AITargetType.Visual_Light, Some(c), p, d, now)) <==>
      (th.visual == SetAITarget(AITargetType.Visual_Light, Some(c), p, d, now) ||
       (th.visual.targetType != AITargetType.Visual_Player &&
        FlashlightAggravates(d, zSize, senses.sight, senses.intelligence)))
    ensures zSize > 0.0 ==>
      (FlashlightAggravates(d, zSize, senses.sight, senses.intelligence) <==>
       d <= senses.sight * zSize && d <= senses.intelligence * zSize)
  {
    if zSize > 0.0 {
      QuotientAtMost(d, zSize, senses.sight);
      QuotientAtMost(d, zSize, senses.intelligence);
    }
  }

  /** For a positive divisor, d / z <= bound exactly when d <= bound * z. */
  lemma QuotientAtMost(d: real, z: real, bound: real)
    requires z > 0.0
    ensures d / z <= bound <==> d <= bound * z
  {
    var q := d / z;
    if q <= bound {
      MulNonNegative(bound - q, z);
      assert (bound - q) * z == bound * z - q * z;
    } else {
      MulPositive(q - bound, z);
      assert (q - bound) * z == q * z - bound * z;
      assert q * z == d;
    }
  }

  /** A sound that is too far for the zombie's hearing changes nothing, not even the audio
      threat; one within hearing and strictly closer than the audio threat replaces it at the
      emitter's world-space centre. With a positive world radius r, too far means
      d * (2 - hearing) > r. */
  lemma SoundRejected(th: Threats, eventType: AITriggerEventType, c: ObjectId, sphere: SphereCollider,
                      d: real, senses: Senses, visible: bool, now: real)
    requires eventType != AITriggerEventType.Exit
    ensures var world := ConvertSphereColliderToWorldSpace(Some(sphere));
      var r := Arbitrate(th, eventType, Sound(c, sphere, d), senses, visible, now);
      && (SoundTooFar(d, world.radius, senses.hearing) ==> r == th)
      && (!SoundTooFar(d, world.radius, senses.hearing) && Below(d, th.audio.distance) ==>
            r.audio == SetAITarget(AITargetType.Audio, Some(c), world.position, d, now))
    ensures var rad := ConvertSphereColliderToWorldSpace(Some(sphere)).radius;
      rad > 0.0 ==> (SoundTooFar(d, rad, senses.hearing) <==> d * (2.0 - senses.hearing) > rad)
  {
    var rad := ConvertSphereColliderToWorldSpace(Some(sphere)).radius;
    if rad > 0.0 {
      var h := 2.0 - senses.hearing;
      assert (d / rad) * h == (d * h) / rad;
      QuotientAtMost(d * h, rad, 1.0);
    }
  }

  /** Food becomes the visual threat exactly when it already is that threat, or it is visible,
      strictly closer than the current visual threat, no player, light or audio threat is
      held, and the zombie is not sated. */
  lemma FoodReplacesIff(th: Threats, eventType: AITriggerEventType, c: ObjectId, p: Vec3, d: real,
                        senses: Senses, visible: bool, now: real)
    requires eventType != AITriggerEventType.Exit
    ensures var r := Arbitrate(th, eventType, Food(c, p, d), senses, visible, now);
      (r.visual == SetAITarget(AITargetType.Visual_Food, Some(c), p, d, now)) <==>
      (th.visual == SetAITarget(AITargetType.Visual_Food, Some(c), p, d, now) ||
       (visible && Below(d, th.visual.distance) &&
        th.visual.targetType != AITargetType.Visual_Player &&
        th.visual.targetType != AITargetType.Visual_Light &&
        th.audio.targetType == AITargetType.None && senses.satisfaction <= 0.9))
  {
  }

  /** The same event delivered twice in one tick has the effect of delivering it once. */
  lemma ArbitrateIdempotent(th: Threats, eventType: AITriggerEventType, s: Stimulus,
                              senses: Senses, visible: bool, now: real)
    ensures var once := Arbitrate(th, eventType, s, senses, visible, now);
      Arbitrate(once, eventType, s, senses, visible, now) == once
  {
    var once := Arbitrate(th, eventType, s, senses, visible, now);
    if eventType != AITriggerEventType.Exit && s.Food? && once != th {
      assert once.visual.targetType == AITargetType.Visual_Food;
    }
  }

  /** Which threat, if any, a state's OnUpdate makes the machine's target. */
  datatype TargetChange = KeepTarget | ToVisualThreat | ToAudioThreat

  /** A state's OnUpdate decision: the state type it returns and its target change. */
  datatype Decision = Decision(next: AIStateType, change: TargetChange)

  /** The machine's actuators after a target change. */
  function Retargeted(m: AIStateMachine, change: TargetChange): Actuation
    reads m
  {
    match change
    case KeepTarget => m.Actuators()
    case ToVisualThreat => m.AfterSetTarget(m.visualThreat)
    case ToAudioThreat => m.AfterSetTarget(m.audioThreat)
  }

  /** Performs a target change with SetTarget. */
  method ApplyTargetChange(m: AIStateMachine, change: TargetChange)
    modifies m
    ensures m.Actuators() == old(Retargeted(m, change))
    ensures m.Routes() == old(m.Routes())
  {
    match change
    case KeepTarget =>
    case ToVisualThreat => m.SetTarget(m.visualThreat);
    case ToAudioThreat => m.SetTarget(m.audioThreat);
  }

  /** A hit of Physics.RaycastAll: the hit collider's game object, its distance, whether it
      is on the AI body-part layer, and whether its rigidbody is registered to the looking
      machine itself (the GameSceneManager lookup). */
  datatype RaycastHit = RaycastHit(gameObject: ObjectId, distance: real, bodyPart: bool, ownBody: bool)

  /** Hits that can block the view: everything except the zombie's own body parts. */
  predicate Qualifies(h: RaycastHit) {
    !h.bodyPart || !h.ownBody
  }

  /** The hit the source's loop ends with: the last qualifying one. */
  function LastQualifying(hits: seq<RaycastHit>): (r: Option<RaycastHit>)
    ensures r.Some? ==> r.value in hits && Qualifies(r.value)
    ensures r.Some? ==> exists k :: 0 <= k < |hits| && hits[k] == r.value &&
                                    forall l :: k < l < |hits| ==> !Qualifies(hits[l])
    ensures r.None? <==> forall k :: 0 <= k < |hits| ==> !Qualifies(hits[k])
    decreases |hits|
  {
    if hits == [] then Option.None
    else if Qualifies(hits[|hits| - 1]) then Some(hits[|hits| - 1])
    else LastQualifying(hits[..|hits| - 1])
  }

  /** The nearest qualifying hit, the first of equals in hit order. */
  function ClosestQualifying(hits: seq<RaycastHit>): (r: Option<RaycastHit>)
    ensures r.Some? ==> r.value in hits && Qualifies(r.value)
    ensures r.Some? ==> forall k :: 0 <= k < |hits| && Qualifies(hits[k]) ==> r.value.distance <= hits[k].distance
    ensures r.None? <==> forall k :: 0 <= k < |hits| ==> !Qualifies(hits[k])
    decreases |hits|
  {
    if hits == [] then Option.None
    else
      var prev := ClosestQualifying(hits[..|hits| - 1]);
      var last := hits[|hits| - 1];
      if Qualifies(last) && (prev.None? || last.distance < prev.value.distance) then Some(last)
      else prev
  }

  /** Line of sight as written: within half the field of view, and the last qualifying hit
      of the ray is the target. */
  predicate SeesAsWritten(fov: real, angle: real, target: ObjectId, hits: seq<RaycastHit>) {
    angle <= fov * 0.5 && LastQualifying(hits).Some? && LastQualifying(hits).value.gameObject == target
  }

  /** Line of sight as the closest-hit bookkeeping intends: within half the field of view,
      and the nearest qualifying hit is the target. */
  predicate Sees(fov: real, angle: real, target: ObjectId, hits: seq<RaycastHit>) {
    angle <= fov * 0.5 && ClosestQualifying(hits).Some? && ClosestQualifying(hits).value.gameObject == target
  }

  /** Seeing the target means the ray reaches it with nothing that blocks nearer. */
  lemma SeesMeansUnobstructed(fov: real, angle: real, target: ObjectId, hits: seq<RaycastHit>)
    requires Sees(fov, angle, target, hits)
    ensures angle <= fov * 0.5
    ensures exists k :: 0 <= k < |hits| && hits[k].gameObject == target && Qualifies(hits[k]) &&
                        (forall l :: 0 <= l < |hits| && Qualifies(hits[l]) ==> hits[k].distance <= hits[l].distance)
  {
    var h := ClosestQualifying(hits).value;
    var k :| 0 <= k < |hits| && hits[k] == h;
  }

  /** RaycastAll returns hits in no defined order. With the target nearest and a wall behind
      it reported last, the code as written reports the target hidden. */
  lemma LastHitHidesNearestTarget()
    ensures var hits := [RaycastHit(1, 2.0, false, false), RaycastHit(2, 5.0, false, false)];
      !SeesAsWritten(50.0, 0.0, 1, hits) && Sees(50.0, 0.0, 1, hits)
  {
    var hits := [RaycastHit(1, 2.0, false, false), RaycastHit(2, 5.0, false, false)];
    assert hits[..1] == [hits[0]];
    assert [hits[0]][..0] == [];
  }

  /** The AIZombieState part every zombie state shares. */
  class AIZombieState {
    /** AIState._stateMachine. */
    var stateMachine: AIStateMachine?
    /** _zombieStateMachine: set only for a machine that is exactly a zombie machine. */
    var zombieMachine: AIStateMachine?

    constructor ()
      ensures stateMachine == null && zombieMachine == null
    {
      stateMachine := null;
      zombieMachine := null;
    }

    /** SetStateMachine: binds only a machine whose runtime type is exactly the zombie
        machine; any other machine leaves the state unbound. */
    method SetStateMachine(machine: AIStateMachine)
      modifies this
      ensures machine.isZombieMachine ==> stateMachine == machine && zombieMachine == machine
      ensures !machine.isZombieMachine ==> stateMachine == old(stateMachine) && zombieMachine == old(zombieMachine)
    {
      if machine.isZombieMachine {
        stateMachine := machine;
        zombieMachine := machine;
      }
    }

    /** ColliderIsVisible, with the closest-hit rule its bookkeeping intends. `angle` is
        Vector3.Angle between the direction to the target and the state's forward vector;
        `hits` is the RaycastAll result. Without a bound zombie machine nothing is visible. */
    method ColliderIsVisible(target: ObjectId, angle: real, hits: seq<RaycastHit>) returns (visible: bool)
      ensures zombieMachine == null ==> !visible
      ensures zombieMachine != null ==> visible == Sees(zombieMachine.fov, angle, target, hits)
    {
      if zombieMachine == null {
        return false;
      }
      if angle > zombieMachine.fov * 0.5 {
        return false;
      }
      var closest: Option<RaycastHit> := Option.None;
      var i := 0;
      while i < |hits|
        invariant 0 <= i <= |hits|
        invariant closest == ClosestQualifying(hits[..i])
      {
        assert hits[..i + 1][..i] == hits[..i];
        var hit := hits[i];
        if Qualifies(hit) && (closest.None? || hit.distance < closest.value.distance) {
          closest := Some(hit);
        }
        i := i + 1;
      }
      assert hits[..i] == hits;
      visible := closest.Some? && closest.value.gameObject == target;
    }

    function SensesOf(m: AIStateMachine): Senses
      reads m
    {
      Senses(m.sight, m.hearing, m.intelligence, m.satisfaction)
    }

    /** The collider whose visibility a stimulus asks for. */
    static function ColliderOf(s: Stimulus): ObjectId {
      match s
      case Player(c, _, _) => c
      case Flashlight(c, _, _, _) => c
      case Sound(c, _, _) => c
      case Food(c, _, _) => c
      case Untagged => 0
    }

    /** OnTriggerEvent: with a bound zombie machine, updates its threats by the arbitration
        rule, asking for line of sight (`angle`, `hits`) where the rule needs it; without one
        it does nothing. `now` is Time.time. */
    method OnTriggerEvent(eventType: AITriggerEventType, other: Stimulus, angle: real,
                          hits: seq<RaycastHit>, now: real)
      modifies zombieMachine
      ensures zombieMachine != null ==>
        var zm := zombieMachine;
        var r := Arbitrate(Threats(old(zm.visualThreat), old(zm.audioThreat)), eventType, other,
                           old(SensesOf(zm)), Sees(zm.fov, angle, ColliderOf(other), hits), now);
        && zm.visualThreat == r.visual && zm.audioThreat == r.audio
        && zm.Actuators() == old(zm.Actuators())
        && zm.Routes() == old(zm.Routes()).(visualThreat := r.visual, audioThreat := r.audio)
    {
      if zombieMachine == null {
        return;
      }
      var zm := zombieMachine;
      var visible := false;
      if eventType != AITriggerEventType.Exit && (other.Player? || other.Food?) {
        visible := ColliderIsVisible(ColliderOf(other), angle, hits);
      }
      var r := Arbitrate(Threats(zm.visualThreat, zm.audioThreat), eventType, other, SensesOf(zm), visible, now);
      zm.visualThreat := r.visual;
      zm.audioThreat := r.audio;
    }
  }
}
