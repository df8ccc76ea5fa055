/** The per-agent AI state machine: targets, the table of states, transitions,
    root-motion reference counts and waypoint patrol. The fields of the zombie
    subclass (senses, feeding, speed, ...) live in the same class here. */
module StateMachine {
  import opened Engine
  import opened AIState

  datatype AIStateType = None | Idle | Alerted | Patrol | Attack | Feeding | Pursuit | Dead
  datatype AITargetType = None | Waypoint | Visual_Player | Visual_Light | Visual_Food | Audio
  datatype AITriggerEventType = Enter | Stay | Exit

  /** The AITarget struct. */
  datatype AITarget = AITarget(
    targetType: AITargetType, collider: Option<ObjectId>, position: Vec3, distance: Dist, time: real)

  /** `new AITarget()`: the all-zero struct. Its distance is 0, not Infinity. */
  const DefaultTarget: AITarget := AITarget(AITargetType.None, Option.None, Zero, Finite(0.0), 0.0)

  /** AITarget.Set; `now` is Time.time at the call. */
  function SetAITarget(t: AITargetType, c: Option<ObjectId>, p: Vec3, d: real, now: real): AITarget {
    AITarget(t, c, p, Finite(d), now)
  }

  /** AITarget.Clear. */
  function ClearedAITarget(): AITarget {
    AITarget(AITargetType.None, Option.None, Zero, Infinity, 0.0)
  }

  /** A cleared target has no type and no collider, and every finite distance is closer than
      it; the default struct instead admits no distance as closer (its distance is 0). */
  lemma ClearedTargetAdmitsAnyDistance(d: real)
    requires d >= 0.0
    ensures ClearedAITarget().targetType == AITargetType.None && ClearedAITarget().collider.None?
    ensures Below(d, ClearedAITarget().distance)
    ensures !Below(d, DefaultTarget.distance)
  {
  }

  /** A target that was Set is never mistaken for a cleared one: its distance is finite. */
  lemma SetTargetIsNotCleared(t: AITargetType, c: Option<ObjectId>, p: Vec3, d: real, now: real)
    ensures SetAITarget(t, c, p, d, now) != ClearedAITarget()
    ensures SetAITarget(t, c, p, d, now).distance.Finite?
  {
  }

  /** An AIState component: its identity and the type its GetStateType returns. */
  datatype StateRef = StateRef(id: ObjectId, stateType: AIStateType)

  /** Calls the machine makes on its states: SetStateMachine, OnEnterState, OnExitState. */
  datatype Hook = Bound(state: StateRef) | Entered(state: StateRef) | Exited(state: StateRef)

  /** The table Start builds: each non-null component is added under its type unless the
      type already has a state. */
  function StartTable(m: map<AIStateType, StateRef>, components: seq<Option<StateRef>>): map<AIStateType, StateRef>
    decreases |components|
  {
    if components == [] then m
    else
      var before := StartTable(m, components[..|components| - 1]);
      var o := components[|components| - 1];
      if o.Some? && o.value.stateType !in before then before[o.value.stateType := o.value] else before
  }

  /** The SetStateMachine calls Start makes: one per state it adds to the table, in order. */
  function StartBinds(m: map<AIStateType, StateRef>, components: seq<Option<StateRef>>): seq<Hook>
    decreases |components|
  {
    if components == [] then []
    else
      var o := components[|components| - 1];
      StartBinds(m, components[..|components| - 1]) +
      (if o.Some? && o.value.stateType !in StartTable(m, components[..|components| - 1]) then [Bound(o.value)] else [])
  }

  /** Some non-null component among the first n has type t. */
  ghost predicate FoundBefore(components: seq<Option<StateRef>>, n: nat, t: AIStateType)
    requires n <= |components|
  {
    exists j :: 0 <= j < n && components[j].Some? && components[j].value.stateType == t
  }

  /** Start keeps the states already in the table and adds an entry for exactly the types of
      the non-null components found (stated for every prefix of the components). */
  lemma {:induction false} StartRegistersFoundTypes(m: map<AIStateType, StateRef>,
                                                    components: seq<Option<StateRef>>, n: nat, t: AIStateType)
    requires n <= |components|
    ensures t in StartTable(m, components[..n]) <==> t in m || FoundBefore(components, n, t)
    ensures t in m ==> StartTable(m, components[..n])[t] == m[t]
    decreases n
  {
    if n == 0 {
      assert components[..0] == [];
    } else {
      StartRegistersFoundTypes(m, components, n - 1, t);
      assert components[..n][..n - 1] == components[..n - 1];
      if FoundBefore(components, n, t) {
        var j :| 0 <= j < n && components[j].Some? && components[j].value.stateType == t;
        if j < n - 1 {
          assert FoundBefore(components, n - 1, t);
        }
      }
    }
  }

  /** First one wins: the first non-null component of a type not yet in the table is the
      state Start registers for that type. */
  lemma {:induction false} StartKeepsFirstOfType(m: map<AIStateType, StateRef>,
                                                 components: seq<Option<StateRef>>, i: nat, n: nat)
    requires i < n <= |components| && components[i].Some? && components[i].value.stateType !in m
    requires !FoundBefore(components, i, components[i].value.stateType)
    ensures components[i].value.stateType in StartTable(m, components[..n])
    ensures StartTable(m, components[..n])[components[i].value.stateType] == components[i].value
    decreases n
  {
    var t := components[i].value.stateType;
    assert components[..n][..n - 1] == components[..n - 1];
    if i == n - 1 {
      StartRegistersFoundTypes(m, components, n - 1, t);
    } else {
      StartKeepsFirstOfType(m, components, i, n - 1);
    }
  }

  /** Every type Start binds a state for was absent before, and each is bound once. */
  lemma {:induction false} StartBindsNewTypes(m: map<AIStateType, StateRef>, components: seq<Option<StateRef>>, n: nat)
    requires n <= |components|
    ensures forall k :: 0 <= k < |StartBinds(m, components[..n])| ==>
      StartBinds(m, components[..n])[k].Bound? &&
      StartBinds(m, components[..n])[k].state.stateType !in m &&
      StartBinds(m, components[..n])[k].state.stateType in StartTable(m, components[..n]) &&
      StartTable(m, components[..n])[StartBinds(m, components[..n])[k].state.stateType] == StartBinds(m, components[..n])[k].state
    ensures forall k, l :: 0 <= k < l < |StartBinds(m, components[..n])| ==>
      StartBinds(m, components[..n])[k].state.stateType != StartBinds(m, components[..n])[l].state.stateType
    decreases n
  {
    if n == 0 {
      assert components[..0] == [];
    } else {
      StartBindsNewTypes(m, components, n - 1);
      assert components[..n][..n - 1] == components[..n - 1];
      var before := StartTable(m, components[..n - 1]);
      var b := StartBinds(m, components[..n - 1]);
      var after := StartTable(m, components[..n]);
      var o := components[n - 1];
      assert after == if o.Some? && o.value.stateType !in before then before[o.value.stateType := o.value] else before;
      if o.Some? && o.value.stateType !in before {
        StartRegistersFoundTypes(m, components, n - 1, o.value.stateType);
        var all := StartBinds(m, components[..n]);
        assert all == b + [Bound(o.value)];
        forall k | 0 <= k < |all|
          ensures all[k].Bound? && all[k].state.stateType !in m
          ensures all[k].state.stateType in after && after[all[k].state.stateType] == all[k].state
        {
          if k < |b| {
            assert all[k] == b[k];
          }
        }
      } else {
        assert StartBinds(m, components[..n]) == b;
      }
    }
  }

  /** What one Update does to the current state, its type and the hooks called. */
  datatype Step = Step(current: Option<StateRef>, currentType: AIStateType, calls: seq<Hook>)

  /** The transition rule of Update, given the type the current state's OnUpdate returned. */
  function Transition(states: map<AIStateType, StateRef>, current: Option<StateRef>,
                      currentType: AIStateType, returned: AIStateType): (r: Step)
    ensures current.None? || returned == currentType ==> r == Step(current, currentType, [])
    ensures current.Some? && returned != currentType ==> r.currentType == returned
    ensures current.Some? && returned != currentType && returned in states ==>
      r.current == Some(states[returned]) && r.calls == [Exited(current.value), Entered(states[returned])]
    ensures current.Some? && returned != currentType && returned !in states && AIStateType.Idle in states ==>
      r.current == Some(states[AIStateType.Idle]) &&
      r.calls == [Exited(current.value), Entered(states[AIStateType.Idle])]
    ensures current.Some? && returned != currentType && returned !in states && AIStateType.Idle !in states ==>
      r.current == current && r.calls == []
  {
    if current.None? || returned == currentType then Step(current, currentType, [])
    else if returned in states then
      Step(Some(states[returned]), returned, [Exited(current.value), Entered(states[returned])])
    else if AIStateType.Idle in states then
      Step(Some(states[AIStateType.Idle]), returned, [Exited(current.value), Entered(states[AIStateType.Idle])])
    else Step(current, returned, [])
  }

  /** The current state is always one of the registered states. */
  lemma TransitionStaysRegistered(states: map<AIStateType, StateRef>, current: Option<StateRef>,
                                  currentType: AIStateType, returned: AIStateType)
    requires current.Some? ==> current.value in states.Values
    ensures Transition(states, current, currentType, returned).current.Some? ==>
      Transition(states, current, currentType, returned).current.value in states.Values
  {
  }

  /** Falling back to Idle records the requested type, not Idle. So when the Idle state then
      reports Idle, the next Update exits and re-enters the Idle state. */
  lemma FallbackReentersIdle(states: map<AIStateType, StateRef>, current: StateRef,
                             currentType: AIStateType, returned: AIStateType)
    requires returned != currentType && returned !in states && AIStateType.Idle in states
    ensures var first := Transition(states, Some(current), currentType, returned);
      var second := Transition(states, first.current, first.currentType, AIStateType.Idle);
      && first.current == Some(states[AIStateType.Idle])
      && first.currentType == returned
      && second.calls == [Exited(states[AIStateType.Idle]), Entered(states[AIStateType.Idle])]
      && second.currentType == AIStateType.Idle
  {
    assert returned != AIStateType.Idle;
  }

  /** Cyclic successor of a waypoint index. */
  function NextIndex(i: int, count: int): (r: int)
    requires 0 <= i < count
    ensures 0 <= r < count
    ensures r == (i + 1) % count
  {
    if i == count - 1 then 0 else i + 1
  }

  /** The index after k cyclic advances. */
  function Advance(i: int, count: int, k: nat): (r: int)
    requires 0 <= i < count
    ensures 0 <= r < count
    decreases k
  {
    if k == 0 then i else NextIndex(Advance(i, count, k - 1), count)
  }

  /** Non-random patrol goes round the network: k steps from i land on (i + k) mod count,
      so every waypoint is reached and count steps return to the start. */
  lemma {:induction false} AdvanceIsModular(i: int, count: int, k: nat)
    requires 0 <= i < count
    ensures Advance(i, count, k) == (i + k) % count
    decreases k
  {
    if k > 0 {
      AdvanceIsModular(i, count, k - 1);
      var p := Advance(i, count, k - 1);
      assert p == (i + k - 1) % count;
      ModSucc(i + k - 1, count);
    }
  }

  lemma ModSucc(a: int, count: int)
    requires a >= 0 && count > 0
    ensures (a % count + 1) % count == (a + 1) % count
  {
    var q, m := a / count, a % count;
    assert a == q * count + m;
    if m + 1 < count {
      ModUnique(a + 1, q, m + 1, count);
    } else {
      assert a + 1 == (q + 1) * count;
      ModUnique(a + 1, q + 1, 0, count);
    }
  }

  /** Quotient and remainder are unique. */
  lemma ModUnique(a: int, q: int, x: int, count: int)
    requires count > 0 && 0 <= x < count && a == q * count + x
    ensures a % count == x
  {
    var d, m := a / count, a % count;
    assert a == d * count + m;
    var e := q - d;
    assert e * count == m - x;
    if e >= 1 {
      MulAtLeast(e, count);
    } else if e <= -1 {
      MulAtLeast(-e, count);
    }
  }

  lemma MulAtLeast(e: int, c: int)
    requires e >= 1 && c > 0
    ensures e * c >= c && (-e) * c <= -c
  {
    assert e * c == (e - 1) * c + c;
  }

  /** The target trigger sphere (radius, position, enabled). */
  datatype TargetTrigger = TargetTrigger(radius: real, position: Vec3, enabled: bool)

  /** The fields the states write: zombie animation parameters, satisfaction, the
      nav-agent settings, the target with its trigger, and the waypoint index. */
  datatype Actuation = Actuation(
    seeking: int, feeding: bool, attackType: int, speed: real, satisfaction: real,
    navUpdatePosition: bool, navUpdateRotation: bool, navDestination: Vec3, navStopped: bool,
    target: AITarget, trigger: TargetTrigger, currentWaypoint: int)

  /** The fields the states never write. */
  datatype Routing = Routing(
    visualThreat: AITarget, audioThreat: AITarget, current: Option<StateRef>,
    states: map<AIStateType, StateRef>, currentType: AIStateType, hooks: seq<Hook>,
    rootPositionRefCount: int, rootRotationRefCount: int, isTargetReached: bool, inMeleeRange: bool)

  /** Inspector settings of the machine. */
  datatype Setup = Setup(
    currentStateType: AIStateType, hasTargetTrigger: bool, sensorTrigger: Option<SphereCollider>,
    waypoints: seq<Option<Vec3>>, randomPatrol: bool, currentWaypoint: int, stoppingDistance: real)

  /** Inspector settings of AIZombieStateMachine. */
  datatype ZombieTraits = ZombieTraits(
    fov: real, sight: real, hearing: real, intelligence: real, satisfaction: real,
    replenishRate: real)

  class AIStateMachine {
    var visualThreat: AITarget
    var audioThreat: AITarget
    var currentState: Option<StateRef>
    var states: map<AIStateType, StateRef>
    var target: AITarget
    var rootPositionRefCount: int
    var rootRotationRefCount: int
    var isTargetReached: bool
    var currentStateType: AIStateType
    const hasTargetTrigger: bool
    var targetTrigger: TargetTrigger
    const sensorTrigger: Option<SphereCollider>
    /** The waypoint network's transforms; an entry may be null. */
    const waypoints: seq<Option<Vec3>>
    const randomPatrol: bool
    var currentWaypoint: int
    const stoppingDistance: real
    var inMeleeRange: bool
    /** The calls made on states, in order. */
    var hooks: seq<Hook>
    var navUpdatePosition: bool
    var navUpdateRotation: bool
    var navDestination: Vec3
    var navStopped: bool

    /** True when the runtime type is exactly AIZombieStateMachine. */
    const isZombieMachine: bool
    const fov: real
    const sight: real
    const hearing: real
    const intelligence: real
    const replenishRate: real
    /** Never set: the zombie machine initialises it to false and exposes only a getter. */
    const crawling: bool
    var satisfaction: real
    var seeking: int
    var feeding: bool
    var attackType: int
    var speed: real

    ghost predicate Valid()
      reads this
    {
      StatesValid() && WaypointValid()
    }

    /** Every registered state is filed under its own type, and the current state is one of them. */
    ghost predicate StatesValid()
      reads this`states, this`currentState
    {
      && (forall t | t in states :: states[t].stateType == t)
      && (currentState.Some? ==> currentState.value in states.Values)
    }

    /** The current waypoint is -1 (none yet) or an index into the network. */
    ghost predicate WaypointValid()
      reads this`currentWaypoint
    {
      -1 <= currentWaypoint < |waypoints|
    }

    /** The inspector ranges of AIZombieStateMachine's senses: [0, 1], fov in [10, 360]. */
    ghost predicate SensesInRange()
      reads this
    {
      && 10.0 <= fov <= 360.0
      && 0.0 <= sight <= 1.0 && 0.0 <= hearing <= 1.0 && 0.0 <= intelligence <= 1.0
      && 0.0 <= satisfaction <= 1.0
    }

    function Actuators(): Actuation
      reads this
    {
      Actuation(seeking, feeding, attackType, speed, satisfaction,
                navUpdatePosition, navUpdateRotation, navDestination, navStopped,
                target, targetTrigger, currentWaypoint)
    }

    /** The actuators after SetTarget(t). */
    function AfterSetTarget(t: AITarget): Actuation
      reads this
    {
      Actuators().(target := t,
                   trigger := if hasTargetTrigger then TargetTrigger(stoppingDistance, t.position, true) else targetTrigger)
    }

    function Routes(): Routing
      reads this
    {
      Routing(visualThreat, audioThreat, currentState, states, currentStateType, hooks,
              rootPositionRefCount, rootRotationRefCount, isTargetReached, inMeleeRange)
    }

    /** Field initialisers and inspector values. */
    constructor (setup: Setup, isZombie: bool, traits: ZombieTraits)
      requires -1 <= setup.currentWaypoint < |setup.waypoints|
      ensures Valid()
      ensures visualThreat == DefaultTarget && audioThreat == DefaultTarget && target == DefaultTarget
      ensures currentState.None? && states == map[] && hooks == []
      ensures rootPositionRefCount == 0 && rootRotationRefCount == 0 && !isTargetReached
      ensures currentStateType == setup.currentStateType && currentWaypoint == setup.currentWaypoint
      ensures waypoints == setup.waypoints && randomPatrol == setup.randomPatrol
      ensures hasTargetTrigger == setup.hasTargetTrigger && sensorTrigger == setup.sensorTrigger
      ensures stoppingDistance == setup.stoppingDistance
      ensures isZombieMachine == isZombie
      ensures fov == traits.fov && sight == traits.sight && hearing == traits.hearing
      ensures intelligence == traits.intelligence && satisfaction == traits.satisfaction
      ensures replenishRate == traits.replenishRate && !crawling
      ensures seeking == 0 && !feeding && attackType == 0 && speed == 0.0
    {
      visualThreat, audioThreat, target := DefaultTarget, DefaultTarget, DefaultTarget;
      currentState, states, hooks := Option.None, map[], [];
      rootPositionRefCount, rootRotationRefCount, isTargetReached := 0, 0, false;
      currentStateType := setup.currentStateType;
      hasTargetTrigger := setup.hasTargetTrigger;
      targetTrigger := TargetTrigger(0.0, Zero, setup.hasTargetTrigger);
      sensorTrigger := setup.sensorTrigger;
      waypoints, randomPatrol, currentWaypoint := setup.waypoints, setup.randomPatrol, setup.currentWaypoint;
      stoppingDistance := setup.stoppingDistance;
      inMeleeRange := false;
      navUpdatePosition, navUpdateRotation, navDestination, navStopped := true, true, Zero, false;
      isZombieMachine := isZombie;
      fov, sight, hearing, intelligence := traits.fov, traits.sight, traits.hearing, traits.intelligence;
      replenishRate, crawling, satisfaction := traits.replenishRate, false, traits.satisfaction;
      seeking, feeding, attackType, speed := 0, false, 0, 0.0;
    }

    /** The sensor's world-space radius: the largest scaled radius, 0 without a sensor. */
    function SensorRadius(): (r: real)
      reads this
      ensures sensorTrigger.None? ==> r == 0.0
      ensures sensorTrigger.Some? ==>
        var c := sensorTrigger.value;
        && r >= c.radius * c.lossyScale.x
        && r >= c.radius * c.lossyScale.y
        && r >= c.radius * c.lossyScale.z
        && (r == c.radius * c.lossyScale.x || r == c.radius * c.lossyScale.y || r == c.radius * c.lossyScale.z)
    {
      ConvertSphereColliderToWorldSpace(sensorTrigger).radius
    }

    function UseRootPosition(): bool
      reads this
    {
      rootPositionRefCount > 0
    }

    function UseRootRotation(): bool
      reads this
    {
      rootRotationRefCount > 0
    }

    /** Start: registers each found state under its type unless the type already has one,
        binding each registered state to this machine, then enters the state of the
        current type, or leaves the machine without a state when none is registered. */
    method Start(components: seq<Option<StateRef>>)
      requires Valid()
      modifies this`states, this`currentState, this`hooks
      ensures Valid()
      ensures states == StartTable(old(states), components)
      ensures currentStateType in states ==>
        currentState == Some(states[currentStateType]) &&
        hooks == old(hooks) + StartBinds(old(states), components) + [Entered(states[currentStateType])]
      ensures currentStateType !in states ==>
        currentState.None? && hooks == old(hooks) + StartBinds(old(states), components)
    {
      var i := 0;
      ghost var binds: seq<Hook> := [];
      assert components[..0] == [];
      while i < |components|
        invariant 0 <= i <= |components|
        invariant forall t | t in states :: states[t].stateType == t
        invariant states == StartTable(old(states), components[..i])
        invariant binds == StartBinds(old(states), components[..i])
        invariant hooks == old(hooks) + binds
      {
        assert components[..i + 1][..i] == components[..i];
        if components[i].Some? && components[i].value.stateType !in states {
          var s := components[i].value;
          states := states[s.stateType := s];
          hooks := hooks + [Bound(s)];
          binds := binds + [Bound(s)];
        }
        i := i + 1;
      }
      assert components[..i] == components;
      if currentStateType in states {
        currentState := Some(states[currentStateType]);
        hooks := hooks + [Entered(states[currentStateType])];
      } else {
        currentState := Option.None;
      }
    }

    /** Update: `returned` is what the current state's OnUpdate gave back. */
    method Update(returned: AIStateType)
      requires Valid()
      modifies this`currentState, this`currentStateType, this`hooks
      ensures Valid()
      ensures var s := Transition(old(states), old(currentState), old(currentStateType), returned);
        currentState == s.current && currentStateType == s.currentType && hooks == old(hooks) + s.calls
    {
      if currentState.None? { return; }
      if returned != currentStateType {
        if returned in states {
          hooks := hooks + [Exited(currentState.value), Entered(states[returned])];
          currentState := Some(states[returned]);
        } else if AIStateType.Idle in states {
          hooks := hooks + [Exited(currentState.value), Entered(states[AIStateType.Idle])];
          currentState := Some(states[AIStateType.Idle]);
        }
        currentStateType := returned;
      }
    }

    /** FixedUpdate: clears both threats, refreshes the distance to a typed target and resets
        the target-reached flag. `distanceToTarget` is the engine's distance to the target. */
    method FixedUpdate(distanceToTarget: real)
      modifies this`visualThreat, this`audioThreat, this`target, this`isTargetReached
      ensures visualThreat == ClearedAITarget() && audioThreat == ClearedAITarget()
      ensures !isTargetReached
      ensures old(target).targetType != AITargetType.None ==>
        target == old(target).(distance := Finite(distanceToTarget))
      ensures old(target).targetType == AITargetType.None ==> target == old(target)
    {
      visualThreat := ClearedAITarget();
      audioThreat := ClearedAITarget();
      if target.targetType != AITargetType.None {
        target := target.(distance := Finite(distanceToTarget));
      }
      isTargetReached := false;
    }

    /** SetTarget(AITarget); the four-argument overload is SetTarget(SetAITarget(...)). */
    method SetTarget(t: AITarget)
      modifies this`target, this`targetTrigger
      ensures target == t
      ensures hasTargetTrigger ==> targetTrigger == TargetTrigger(stoppingDistance, t.position, true)
      ensures !hasTargetTrigger ==> targetTrigger == old(targetTrigger)
    {
      target := t;
      if hasTargetTrigger {
        targetTrigger := TargetTrigger(stoppingDistance, t.position, true);
      }
    }

    /** ClearTarget. The source dereferences the target trigger without a null check. */
    method ClearTarget()
      requires hasTargetTrigger
      modifies this`target, this`targetTrigger
      ensures target == ClearedAITarget()
      ensures targetTrigger == old(targetTrigger).(enabled := false)
    {
      target := ClearedAITarget();
      if targetTrigger.enabled {
        targetTrigger := targetTrigger.(enabled := false);
      }
    }

    method NavAgentControl(updatePosition: bool, updateRotation: bool)
      modifies this`navUpdatePosition, this`navUpdateRotation
      ensures navUpdatePosition == updatePosition && navUpdateRotation == updateRotation
    {
      navUpdatePosition := updatePosition;
      navUpdateRotation := updateRotation;
    }

    /** AddRootMotionRequest: reference counts, so root motion stays on while any request
        is outstanding. */
    method AddRootMotionRequest(rootPosition: int, rootRotation: int)
      modifies this`rootPositionRefCount, this`rootRotationRefCount
      ensures rootPositionRefCount == old(rootPositionRefCount) + rootPosition
      ensures rootRotationRefCount == old(rootRotationRefCount) + rootRotation
      ensures UseRootPosition() <==> old(rootPositionRefCount) + rootPosition > 0
      ensures UseRootRotation() <==> old(rootRotationRefCount) + rootRotation > 0
    {
      rootPositionRefCount := rootPositionRefCount + rootPosition;
      rootRotationRefCount := rootRotationRefCount + rootRotation;
    }

    /** The index rule of GetWaypointPosition, from index `i` to index `j`: with no current
        waypoint the first one is picked (index 0 unless patrolling randomly); otherwise the
        index advances only when asked, to a different index when patrolling randomly over
        more than one waypoint, else to the cyclic successor. */
    predicate WaypointIndexStep(increment: bool, i: int, j: int) {
      && -1 <= i < |waypoints|
      && 0 <= j < |waypoints|
      && (i == -1 && !randomPatrol ==> j == 0)
      && (i != -1 && !increment ==> j == i)
      && (i != -1 && increment && randomPatrol && |waypoints| > 1 ==> j != i)
      && (i != -1 && increment && !(randomPatrol && |waypoints| > 1) ==> j == NextIndex(i, |waypoints|))
    }

    /** The actuators after targeting waypoint j: a null waypoint leaves the target alone. */
    function TargetedWaypoint(a: Actuation, j: int, distanceTo: Vec3 -> real, now: real): Actuation
      requires 0 <= j < |waypoints|
    {
      match waypoints[j]
      case Some(w) =>
        a.(target := SetAITarget(AITargetType.Waypoint, Option.None, w, distanceTo(w), now),
           trigger := if hasTargetTrigger then TargetTrigger(stoppingDistance, w, true) else a.trigger)
      case None => a
    }

    /** The position of waypoint j: the origin for a null waypoint. */
    function WaypointPosition(j: int): Vec3
      requires 0 <= j < |waypoints|
    {
      if waypoints[j].Some? then waypoints[j].value else Zero
    }

    /** What GetWaypointPosition(increment) does to the waypoint index, the target and its
        trigger, from actuators `before` to `after`. Every other actuator is kept. */
    predicate WaypointStep(increment: bool, distanceTo: Vec3 -> real, now: real,
                           before: Actuation, after: Actuation)
    {
      var j := after.currentWaypoint;
      && WaypointIndexStep(increment, before.currentWaypoint, j)
      && after == TargetedWaypoint(before.(currentWaypoint := j), j, distanceTo, now)
    }

    /** GetWaypointPosition: picks the first waypoint (random or 0) when none is current,
        otherwise advances when asked; targets a non-null waypoint. `distanceTo` gives the
        agent's distance to a point and `now` is Time.time. The source indexes the network
        without checks, so it needs a non-empty network. */
    method GetWaypointPosition(increment: bool, distanceTo: Vec3 -> real, now: real) returns (p: Vec3)
      requires WaypointValid() && |waypoints| > 0
      modifies this`currentWaypoint, this`target, this`targetTrigger
      ensures WaypointValid() && WaypointStep(increment, distanceTo, now, old(Actuators()), Actuators())
      ensures p == WaypointPosition(currentWaypoint)
    {
      ghost var before := Actuators();
      SelectWaypoint(increment);
      ghost var mid := Actuators();
      assert mid == before.(currentWaypoint := currentWaypoint);
      if waypoints[currentWaypoint].Some? {
        var w := waypoints[currentWaypoint].value;
        var t := SetAITarget(AITargetType.Waypoint, Option.None, w, distanceTo(w), now);
        SetTarget(t);
        p := w;
        assert Actuators() == mid.(target := t, trigger := targetTrigger);
      } else {
        p := Zero;
      }
    }

    /** The index part of GetWaypointPosition. */
    method SelectWaypoint(increment: bool)
      requires WaypointValid() && |waypoints| > 0
      modifies this`currentWaypoint
      ensures WaypointValid() && WaypointIndexStep(increment, old(currentWaypoint), currentWaypoint)
    {
      if currentWaypoint == -1 {
        if randomPatrol {
          var pick :| 0 <= pick < |waypoints|;
          currentWaypoint := pick;
        } else {
          currentWaypoint := 0;
        }
      } else if increment {
        NextWaypoint();
      }
    }

    /** NextWaypoint: a random different index when patrolling randomly over more than one
        waypoint (the source retries Random.Range until it differs), else the cyclic successor. */
    method NextWaypoint()
      requires WaypointValid() && 0 <= currentWaypoint
      modifies this`currentWaypoint
      ensures WaypointValid() && 0 <= currentWaypoint
      ensures randomPatrol && |waypoints| > 1 ==> currentWaypoint != old(currentWaypoint)
      ensures !(randomPatrol && |waypoints| > 1) ==> currentWaypoint == NextIndex(old(currentWaypoint), |waypoints|)
    {
      if randomPatrol && |waypoints| > 1 {
        var old_ := currentWaypoint;
        var pick :| 0 <= pick < |waypoints| && pick != old_ by {
          assert 0 <= (if old_ == 0 then 1 else 0) < |waypoints|;
        }
        currentWaypoint := pick;
      } else {
        currentWaypoint := NextIndex(currentWaypoint, |waypoints|);
      }
    }
  }
}
