# Zombie AI and audio bookkeeping, modelled in Dafny

This project models the hand-written control logic of a Unity survival game. It covers the
zombie AI and the audio and scene bookkeeping beneath it. Every engine value is an abstract
input: positions, distances, angles, clip lengths, `Time.deltaTime`, raycast hits, animator
parameters and nav-agent flags. Colliders, clips, collections and mixer groups are opaque
identities (`ObjectId`), and `null` is `Option.None`. A `Random.Range` call is a
nondeterministic choice constrained to its range.

Modules, one per source file:

- `Engine`: stand-ins for the engine's values.
  - `Option` and `Vec3`.
  - `Dist`, a finite distance or `Mathf.Infinity`.
  - `float.MaxValue`, `float.MinValue` and `Mathf.Epsilon`.
  - `Mathf.Clamp01`, `Mathf.Lerp`, `Mathf.Min` and `Mathf.Max`.
- `Registry`: the register-if-absent dictionaries of `GameSceneManager`.
- `AIState`: the static helpers of the state base class.
- `StateMachine`: the per-agent state machine. Its class also holds the zombie machine's fields (senses, satisfaction, speed and animation parameters), because the zombie machine is a subclass in the source.
- `ZombieState`: threat arbitration and line of sight, shared by the zombie states.
- `ZombieIdle`, `ZombiePatrol`, `ZombieAttack` and `ZombieFeeding`: the four zombie states.
  - Each state's `OnUpdate` is specified by a pure priority rule (`IdleRule`, `PatrolRule`, `AttackRule`, `FeedingRule`).
  - Each state also has a class whose methods change the bound machine's fields in place.
- `SoundEmitter` and `DamageTrigger`: the timed radius decay of a sound emitter and the first-contact cooldown of a zombie's hand trigger.
- `LayeredAudio` and `AudioManagement`: the layered audio source and the audio manager.
  - The audio manager has a voice pool with ID allocation, an active-sound table and the layered-source registry.
- `Application`: the game-state dictionary.
- `SceneManagement`: the four scene registries.

## Model

| member | source | states |
|---|---|---|
| AIState.ConvertSphereColliderToWorldSpace | AI/AIState.cs:31-47 | a null collider gives the zero position and radius 0; each position axis is the transform position plus center times lossy scale on that axis; the radius is at least radius times the scale on every axis and equals one of the three products |
| AIState.UniformScaleRadius | AI/AIState.cs:43-46 | with a uniform scale s the world radius is radius times s |
| AIState.Sign | AI/AIState.cs:55 | Mathf.Sign is 1 or -1, and 1 exactly for non-negative values |
| AIState.FindSignedAngle | AI/AIState.cs:50-58 | equal vectors give 0; otherwise the result is plus or minus the unsigned angle, negative exactly when the cross product's y is negative |
| AIState.FindSignedAngleAntisymmetric | AI/AIState.cs:50-58 | swapping the two vectors negates the signed angle when their cross product's y is not zero |
| StateMachine.ClearedTargetAdmitsAnyDistance | AI/AIStateMachine.cs:31-37 | a cleared target has type None and no collider, and every finite distance is strictly below it; the default struct's distance 0 admits none |
| StateMachine.SetTargetIsNotCleared | AI/AIStateMachine.cs:23-29 | a target that was Set has a finite distance and differs from a cleared one |
| StateMachine.StartRegistersFoundTypes | AI/AIStateMachine.cs:144-152 | after Start's loop a type has a state exactly when it had one before or some non-null component has that type; states already present are kept |
| StateMachine.StartKeepsFirstOfType | AI/AIStateMachine.cs:144-152 | the first component of a type not yet registered is the one registered; later duplicates are ignored |
| StateMachine.StartBindsNewTypes | AI/AIStateMachine.cs:144-152 | SetStateMachine is called once per registered state, only for types that were absent, on the state that ends up in the table |
| StateMachine.Transition | AI/AIStateMachine.cs:171-193 | no current state, or the same type returned, changes nothing; a registered type is exited into and entered; an unregistered type falls back to Idle when Idle is registered; the requested type is recorded in every case |
| StateMachine.TransitionStaysRegistered | AI/AIStateMachine.cs:177-191 | the current state always stays one of the registered states |
| StateMachine.FallbackReentersIdle | AI/AIStateMachine.cs:183-191 | after a fallback to Idle the recorded type is the requested one, so the next Update that returns Idle exits and re-enters the Idle state |
| StateMachine.NextIndex | AI/AIStateMachine.cs:342 | the cyclic successor stays in range and is (i + 1) mod count |
| StateMachine.AdvanceIsModular | AI/AIStateMachine.cs:331-343 | k non-random steps from waypoint i land on (i + k) mod count, so patrol visits every waypoint and count steps return to the start |
| StateMachine.AIStateMachine.constructor | AI/AIStateMachine.cs:42-63 | the field initialisers: default threats and target with distance 0, no states, zero reference counts, and the inspector's current waypoint (-1 by default) |
| StateMachine.AIStateMachine.SensorRadius | AI/AIStateMachine.cs:87-95 | 0 without a sensor, else the largest of the radius scaled on x, y and z: at least each of them and equal to one |
| StateMachine.AIStateMachine.Start | AI/AIStateMachine.cs:131-160 | the table becomes StartTable of the found components, each added state is bound in order, and the current state is the registered state of the current type (entered) or null |
| StateMachine.AIStateMachine.Update | AI/AIStateMachine.cs:171-193 | the current state, its type and the hooks called follow Transition; the state invariant is kept |
| StateMachine.AIStateMachine.FixedUpdate | AI/AIStateMachine.cs:195-206 | both threats are cleared, a typed target's distance is refreshed, an untyped target is untouched, and target-reached becomes false |
| StateMachine.AIStateMachine.SetTarget | AI/AIStateMachine.cs:230-239 | the target is replaced, and an existing target trigger moves to it with the stopping distance as radius and is enabled |
| StateMachine.AIStateMachine.ClearTarget | AI/AIStateMachine.cs:242-248 | the target is cleared and the trigger disabled, its other settings kept |
| StateMachine.AIStateMachine.NavAgentControl | AI/AIStateMachine.cs:299-304 | the agent's update-position and update-rotation flags take the given values |
| StateMachine.AIStateMachine.AddRootMotionRequest | AI/AIStateMachine.cs:307-310 | the counts grow by the requests, and useRootPosition/useRootRotation hold exactly when the new counts are positive |
| StateMachine.AIStateMachine.GetWaypointPosition | AI/AIStateMachine.cs:312-329 | with no current waypoint the first one is picked (0 unless random), otherwise the index advances only when asked; a non-null waypoint becomes the target; the result is its position or zero |
| StateMachine.AIStateMachine.SelectWaypoint | AI/AIStateMachine.cs:313-319 | the index part of GetWaypointPosition, staying within the network |
| StateMachine.AIStateMachine.NextWaypoint | AI/AIStateMachine.cs:331-343 | random patrol over more than one waypoint always moves to a different index; otherwise the index advances by one and wraps from the last to 0 |
| ZombieState.Arbitrate | AI/AIZombieState.cs:29-86 | exit events change no threat; sounds and untagged colliders never touch the visual threat and only sounds touch the audio threat; a replaced visual threat holds the stimulus's collider, distance and time |
| ZombieState.PlayerReplacesIff | AI/AIZombieState.cs:36-44 | a player becomes the visual threat exactly when it is visible and either no player is the threat or it is strictly closer |
| ZombieState.PlayerThreatDominates | AI/AIZombieState.cs:36-53 | once a player is the visual threat, no flashlight, food, sound or untagged collider displaces it and its distance never grows |
| ZombieState.AudioThreatNeverRecedes | AI/AIZombieState.cs:54-70 | the audio threat only changes to a strictly closer sound |
| ZombieState.FlashlightIff | AI/AIZombieState.cs:45-53 | a flashlight becomes the visual threat exactly when it already is, or no player is the threat and distance / zSize is within both sight and intelligence; there is no distance test, so it displaces any other light, even a nearer one; for a positive zSize the test is distance at most sight times zSize and at most intelligence times zSize |
| ZombieState.SoundRejected | AI/AIZombieState.cs:54-70 | a sound with (d / r) * (2 - hearing) > 1 changes no threat at all; one within hearing and strictly closer than the audio threat replaces it at the emitter's world centre; for a positive radius r, too far means d * (2 - hearing) > r |
| ZombieState.FoodNeedsHunger | AI/AIZombieState.cs:71-83 | a visual threat newly set to food (including food replacing food) comes from a food stimulus that is visible and strictly closer than the previous visual threat, with no player or light threat, no audio threat and satisfaction at most 0.9 |
| ZombieState.FoodReplacesIff | AI/AIZombieState.cs:71-83 | food becomes the visual threat exactly when it already was, or it is visible, strictly closer, no player, light or audio threat is held and satisfaction is at most 0.9 |
| ZombieState.ArbitrateIdempotent | AI/AIZombieState.cs:29-86 | the same event twice in one tick has the effect of one |
| ZombieState.LastQualifying | AI/AIZombieState.cs:107-120 | the hit the source's loop ends with: a qualifying hit with no qualifying hit after it in the array; none exactly when no hit qualifies |
| ZombieState.ClosestQualifying | AI/AIZombieState.cs:104-120 | the nearest qualifying hit, no farther than any qualifying hit; none exactly when no hit qualifies |
| ZombieState.SeesMeansUnobstructed | AI/AIZombieState.cs:98-125 | seeing a target means the angle is within half the field of view and the ray hits the target with no qualifying hit nearer |
| ZombieState.LastHitHidesNearestTarget | AI/AIZombieState.cs:104-123 | with the target nearest and a wall reported after it, the code as written says hidden while the closest-hit rule says visible |
| ZombieState.AIZombieState.SetStateMachine | AI/AIZombieState.cs:22-27 | binds both machine references exactly when the runtime type is the zombie machine, else changes nothing |
| ZombieState.AIZombieState.ColliderIsVisible | AI/AIZombieState.cs:88-126 | false without a bound zombie machine; otherwise equal to the closest-hit line-of-sight rule |
| ZombieState.AIZombieState.OnTriggerEvent | AI/AIZombieState.cs:29-86 | with a bound zombie machine the threats become Arbitrate's answer and nothing else of the machine changes; without one nothing happens; the line-of-sight answer passed to Arbitrate is the corrected closest-hit rule (Sees), not the last-hit rule as written |
| ZombieIdle.IdleRule | AI/AIZombieState_Idle1.cs:35-65 | player gives Pursuit, light or sound gives Alerted, food gives Pursuit, each targeting that threat, in that priority; with no threat Patrol exactly when the timer exceeds the idle time, else Idle |
| ZombieIdle.IdleTimesOut | AI/AIZombieState_Idle1.cs:60-64 | with no threat and a positive tick, Idle stays Idle on every tick before the first one whose timer passes the idle time, and turns to Patrol on it |
| ZombieIdle.Idle1.OnEnterState | AI/AIZombieState_Idle1.cs:17-33 | idle time within the range, timer 0, speed, seeking and attack type 0, not feeding, target cleared; nothing changes without a bound machine |
| ZombieIdle.Idle1.OnUpdate | AI/AIZombieState_Idle1.cs:35-65 | returns IdleRule's state and performs its target change; the timer advances only without a threat; Idle without a bound machine |
| ZombiePatrol.HungerScalesWithRadius | AI/AIZombieState_Patrol1.cs:53-58 | with a positive sensor radius, food draws the zombie exactly when nearer than (1 - satisfaction) times the radius; a sated zombie never goes for food |
| ZombiePatrol.PatrolRule | AI/AIZombieState_Patrol1.cs:34-87 | player, light, sound in that order, each targeted; then food when hungry enough gives Pursuit on the visual threat, and Pursuit without a player needs hungry food; with no player, light or sound, the target is kept exactly when there is no hungry food, and then a pending path keeps Patrol, a sharp turn gives Alerted, else Patrol |
| ZombiePatrol.IdleAndPatrolShareThreatPriority | AI/AIZombieState_Patrol1.cs:38-51 | Idle and Patrol give the same decision for players, lights and sounds |
| ZombiePatrol.Patrol1.OnEnterState | AI/AIZombieState_Patrol1.cs:17-32 | seeking and attack type 0, not feeding, the destination is the current waypoint (not advanced), the agent is not stopped |
| ZombiePatrol.Patrol1.OnUpdate | AI/AIZombieState_Patrol1.cs:34-87 | returns PatrolRule's state; speed 0 while the path is pending, else the patrol speed; an invalid path heads for the next waypoint; Idle without a bound machine |
| ZombiePatrol.Patrol1.OnDestinationReach | AI/AIZombieState_Patrol1.cs:89-96 | arriving at a waypoint target heads for the next waypoint; leaving, or any other target, changes nothing |
| ZombieAttack.AttackRule | AI/AIZombieState_Attack1.cs:42-68 | a visible player is targeted, attacked in melee range and pursued otherwise; without one the result is always Alerted |
| ZombieAttack.ApproachSpeed | AI/AIZombieState_Attack1.cs:37-40 | 0 closer than the stopping distance, else the state's speed |
| ZombieAttack.Attack1.OnEnterState | AI/AIZombieState_Attack1.cs:16-30 | seeking 0, not feeding, speed set, attack type in [1, 99], look-at weight 0 |
| ZombieAttack.Attack1.OnUpdate | AI/AIZombieState_Attack1.cs:32-69 | returns AttackRule's state with its target change, sets the approach speed, and draws a fresh attack type in [1, 99] only when attacking |
| ZombieFeeding.FeedingRule | AI/AIZombieState_Feeding1.cs:43-59 | sated (above 0.9) gives Alerted; any visual threat but none or food is targeted and gives Alerted; the branch that targets the audio threat is never taken |
| ZombieFeeding.Replenished | AI/AIZombieState_Feeding1.cs:63 | satisfaction becomes the smaller of 1 and satisfaction plus dt times the rate over 100: never above either, equal to one of them, and never falling |
| ZombieFeeding.EatingIsMonotoneAndCapped | AI/AIZombieState_Feeding1.cs:63 | over any run of ticks satisfaction never decreases and never exceeds 1 |
| ZombieFeeding.BurstTimer | AI/AIZombieState_Feeding1.cs:65-72 | the timer restarts at 0 exactly when a burst is emitted, else it advances by the tick |
| ZombieFeeding.BurstTimerBounded | AI/AIZombieState_Feeding1.cs:65-72 | with bursts on, a timer below the burst time stays below it |
| ZombieFeeding.Feeding1.OnEnterState | AI/AIZombieState_Feeding1.cs:20-37 | feeding on, seeking, speed and attack type 0, burst timer 0, the eating layer looked up once |
| ZombieFeeding.Feeding1.OnUpdate | AI/AIZombieState_Feeding1.cs:39-85 | returns FeedingRule's state; sated re-targets the current waypoint; a threat is targeted; while eating satisfaction is replenished and a burst is emitted exactly when the timer has reached the burst time |
| ZombieFeeding.Feeding1.OnExitState | AI/AIZombieState_Feeding1.cs:87-90 | feeding off, nothing else changed |
| SoundEmitter.InterpolatorSpeed | AI/AISoundEmitter.cs:26-30 | the inverse of the decay time when it exceeds 0.02, else 0 |
| SoundEmitter.ProgressIsElapsedTimesSpeed | AI/AISoundEmitter.cs:38 | the unclamped progress of a run of ticks is the elapsed time times the speed |
| SoundEmitter.InterpolatorAdvances | AI/AISoundEmitter.cs:38 | with non-negative ticks the interpolator never falls back and stays at most 1 |
| SoundEmitter.DecayCompletes | AI/AISoundEmitter.cs:38-39 | once the ticks add up to the decay time, the interpolator is 1 and the radius is the target radius |
| SoundEmitter.ShrinkIsMonotone | AI/AISoundEmitter.cs:39 | while shrinking, a later interpolator never gives a larger radius |
| SoundEmitter.ResizeSource | AI/AISoundEmitter.cs:48 | an instant or growing resize starts from the new radius, a shrink from the current one |
| SoundEmitter.ResizeStartsAtSource | AI/AISoundEmitter.cs:48-50 | a shrink keeps the current radius on its first tick, any other resize shows the new radius at once |
| SoundEmitter.AISoundEmitter.Awake | AI/AISoundEmitter.cs:19-31 | source and target radius are the collider's radius and the speed is InterpolatorSpeed; nothing without a collider |
| SoundEmitter.AISoundEmitter.FixedUpdate | AI/AISoundEmitter.cs:34-43 | the interpolator advances clamped to [0, 1], the radius lies between source and target, and the collider is enabled exactly when the radius is at least epsilon |
| SoundEmitter.AISoundEmitter.SetRadius | AI/AISoundEmitter.cs:45-51 | the current target radius changes nothing; otherwise the decay restarts from ResizeSource towards the new radius |
| DamageTrigger.Tick | AI/AIDamageTrigger.cs:42-52 | an armed trigger is unchanged; a disarmed one re-arms with the timer at 0 exactly when the timer reaches the delay, else the timer grows by the tick |
| DamageTrigger.TimerCountsElapsedTime | AI/AIDamageTrigger.cs:42-52 | over frames without contact the trigger re-arms or its timer equals the elapsed time, still short of the delay |
| DamageTrigger.RearmsAfterDelay | AI/AIDamageTrigger.cs:44-51 | a disarmed trigger is armed again once three seconds have passed |
| DamageTrigger.AIDamageTrigger.OnTriggerEnter | AI/AIDamageTrigger.cs:31-40 | a player touched while the attack parameter is above 0.9 arms the trigger; anything else changes nothing |
| DamageTrigger.AIDamageTrigger.Update | AI/AIDamageTrigger.cs:42-52 | the flag and timer follow Tick |
| DamageTrigger.AIDamageTrigger.OnTriggerStay | AI/AIDamageTrigger.cs:54-77 | a qualifying player hit emits blood when possible, requests damage with the damage sound only on a first contact, then disarms and zeroes the timer; anything else changes nothing |
| LayeredAudio.FloatRem | Audio/LayeredAudioSource.cs:114 | the truncating float remainder differs from the time by a whole multiple of the length, and for a non-negative time lies in [0, length) |
| LayeredAudio.LayerTick | Audio/LayeredAudioSource.cs:103-136 | an empty layer is skipped; an expired one-shot layer with a clip is emptied; a looping or clipless expired layer keeps its collection, bank and looping and takes the collection's clip and its length, its time the remainder of the new time over that length for the same clip, else 0; otherwise time advances |
| LayeredAudio.Ticked | Audio/LayeredAudioSource.cs:102-137 | every layer is ticked, none added or lost |
| LayeredAudio.ActiveAmongIsHighestLive | Audio/LayeredAudioSource.cs:122-135 | the active layer is -1 exactly when no layer holds a collection, else the highest one that does |
| LayeredAudio.PlayLayer | Audio/LayeredAudioSource.cs:49-67 | the same collection, bank and looping leave the layer as is; anything else restarts it unmuted at time 0 without a clip |
| LayeredAudio.PlayIsIdempotent | Audio/LayeredAudioSource.cs:56-66 | playing the same request twice equals playing it once |
| LayeredAudio.StopLayer | Audio/LayeredAudioSource.cs:73-77 | the layer stops looping and jumps to its unchanged duration; clip, collection, bank and mute flag are kept |
| LayeredAudio.StoppedLayerRetires | Audio/LayeredAudioSource.cs:126-133 | a stopped layer with a clip is emptied by the next Update |
| LayeredAudio.LayerVolume | Audio/LayeredAudioSource.cs:160-164 | a muted active layer forces volume 0, else the collection's volume |
| LayeredAudio.PlayingLayer | Audio/LayeredAudioSource.cs:146-153 | switching to a layer plays its clip from its time with its looping and volume, and the collection's spatial blend and mixer group |
| LayeredAudio.MuteKeepsActive | Audio/LayeredAudioSource.cs:80-95 | muting never changes which layer is active |
| LayeredAudio.LayeredAudioSource.constructor | Audio/LayeredAudioSource.cs:32-47 | with a source and a positive count, that many empty, looping, unmuted layers at time 0; otherwise none |
| LayeredAudio.LayeredAudioSource.Play | Audio/LayeredAudioSource.cs:49-67 | false and no change for an index past the end; otherwise true with the layer replaced by PlayLayer |
| LayeredAudio.LayeredAudioSource.Stop | Audio/LayeredAudioSource.cs:69-78 | the layer is replaced by StopLayer; an index past the end changes nothing |
| LayeredAudio.LayeredAudioSource.Mute | Audio/LayeredAudioSource.cs:80-89 | only the given layer's mute flag changes; an index past the end changes nothing |
| LayeredAudio.LayeredAudioSource.MuteAll | Audio/LayeredAudioSource.cs:91-95 | every layer's mute flag is set, nothing else changes |
| LayeredAudio.LayeredAudioSource.Update | Audio/LayeredAudioSource.cs:97-165 | layers become Ticked, the active layer is the highest live one, and the source is switched, stopped or only re-volumed as the active layer changed or restarted |
| LayeredAudio.LayeredAudioSource.TickLayers | Audio/LayeredAudioSource.cs:99-137 | the reverse loop ticks every layer and finds the highest live layer and whether it restarted its clip |
| LayeredAudio.LayeredAudioSource.SwitchSource | Audio/LayeredAudioSource.cs:139-164 | the source is stopped when no layer is left, switched to the active layer when it changed or restarted, and given the active layer's volume |
| AudioManagement.FirstFree | Audio/AudioManager.cs:246-253 | the lowest index of a voice that is not playing, or -1 exactly when all play |
| AudioManagement.EvictionScanAsWrittenFindsNothing | Audio/AudioManager.cs:242-264 | as written, the eviction scan ends at index -1 and float.MaxValue for any pool |
| AudioManagement.MostUnimportant | Audio/AudioManager.cs:256-263 | the first voice of greatest unimportance |
| AudioManagement.Unimportance | Audio/AudioManager.cs:240 | the squared distance over the priority taken as at least 1: the squared distance itself for a priority up to 1, and times the priority gives back the squared distance above 1; non-negative and not above the squared distance |
| AudioManagement.IndexOfSource | Audio/AudioManager.cs:284-291 | the first registered layered source on the given AudioSource, -1 exactly when there is none |
| AudioManagement.IndexOfItem | Audio/AudioManager.cs:303 | List.IndexOf: the first occurrence, -1 exactly when absent |
| AudioManagement.RemovingKeepsDistinct | Audio/AudioManager.cs:302-304 | in a registry with one entry per source, removal hits that entry and keeps one entry per source |
| AudioManagement.AudioManager.constructor | Audio/AudioManager.cs:44-72 | with a mixer, one track per mixer group and exactly maxSounds voices, none playing; without one, neither |
| AudioManagement.AudioManager.TrackVolume | Audio/AudioManager.cs:100-111 | float.MinValue without a mixer or for an unknown track, else the mixer's value, and 0 when the mixer exposes no value for a known track |
| AudioManagement.AudioManager.SetTrackVolumeAsWrittenIsNoOp | Audio/AudioManager.cs:122-136 | as written, SetTrackVolume never changes a volume, so a known track's volume is not read back |
| AudioManagement.AudioManager.VolumesAfterSet | Audio/AudioManager.cs:122-136 | with the intended guard, no other track's volume changes |
| AudioManagement.AudioManager.SetThenGetTrackVolume | Audio/AudioManager.cs:100-136 | an immediate set on a known track is read back by GetTrackVolume, and other tracks keep theirs |
| AudioManagement.AudioManager.SetTrackVolumeAsWritten | Audio/AudioManager.cs:122-136 | as written, the mixer volumes are left unchanged |
| AudioManagement.AudioManager.SetTrackVolume | Audio/AudioManager.cs:122-136 | with the intended guard, an immediate set on a known track takes effect |
| AudioManagement.AudioManager.ConfigurePoolObject | Audio/AudioManager.cs:154-181 | an out-of-range index returns 0 and uses no ID; otherwise the counter grows by one, the new non-zero ID is returned, its voice plays and the ID enters the active table |
| AudioManagement.AudioManager.StopSound | Audio/AudioManager.cs:199-227 | a live ID leaves the active table and its voice stops; an unknown ID changes nothing |
| AudioManagement.AudioManager.PlayOneShotSoundAsWritten | Audio/AudioManager.cs:235-274 | 0 and no change for an unknown track, a null clip, zero volume or a full pool; otherwise the lowest free voice starts the sound |
| AudioManagement.AudioManager.PlayOneShotSound | Audio/AudioManager.cs:235-274 | as written for the first three cases and a free voice; with a full pool, the most unimportant sound is stopped and replaced when it is more unimportant than the new one, else 0 |
| AudioManagement.AudioManager.RegisterLayeredAudioSource | Audio/AudioManager.cs:282-300 | null for a null source or no layers; the existing entry for a registered source; else a new source with that many empty layers and no active layer, added at the end |
| AudioManagement.AudioManager.UnregisterLayeredAudioSource | Audio/AudioManager.cs:302-304 | List.Remove: the entry is removed if present and is no longer registered |
| AudioManagement.AudioManager.UnregisterLayeredAudioSourceOf | Audio/AudioManager.cs:306-318 | the entry on the given AudioSource is removed if present, and none is left |
| Application.FirstRejected | ApplicationManager.cs:39-43 | the index of the first starting entry with a null or repeated key, or the list's length; every entry before it is accepted |
| Application.LoadedKeys | ApplicationManager.cs:36-44 | the dictionary's keys are exactly the keys of the entries added |
| Application.LoadedHoldsEntry | ApplicationManager.cs:36-44 | without a rejected entry, each starting key maps to its own entry's value |
| Application.StartingStatesAreSet | ApplicationManager.cs:36-56 | right after a reset that accepted every entry, the starting states count as set exactly when every starting value is a non-empty string |
| Application.ApplicationManager.ResetGameStates | ApplicationManager.cs:36-44 | succeeds exactly when no starting key is null or repeated; the dictionary holds the entries before the first rejected one |
| Application.ApplicationManager.GetGameState | ApplicationManager.cs:58-63 | the stored value, null for an absent key |
| Application.ApplicationManager.AreStatesSet | ApplicationManager.cs:46-56 | true exactly when every entry's key maps to a non-empty value equal to the entry's value (so true on an empty list); no answer when a null key is reached first |
| Application.ApplicationManager.SetGameState | ApplicationManager.cs:65-78 | false and no change for a null key or value; otherwise the key holds the value, no other key changes, and the result says whether the key was new |
| Registry.Register | GameSceneManager.cs:39-43 | a present key keeps its value, an absent one gets the new value; no key is lost or rewritten |
| Registry.FirstRegistrationWins | GameSceneManager.cs:39-43 | after a run of registrations each key holds its first registered value, or its value from before |
| Registry.LookupFindsFirstRegistration | GameSceneManager.cs:46-52 | looking a key up after registrations into an empty table gives its first registered value, or null |
| SceneManagement.GameSceneManager.constructor | GameSceneManager.cs:30-36 | four empty tables |
| SceneManagement.GameSceneManager.RegisterAIStateMachine | GameSceneManager.cs:39-43 | first registration for a key wins; no other key and no other table changes |
| SceneManagement.GameSceneManager.GetAIStateMachine | GameSceneManager.cs:46-52 | the registered value, or null for an unknown key |
| SceneManagement.GameSceneManager.RegisterPlayerInfo | GameSceneManager.cs:54-60 | first registration for a key wins; no other key and no other table changes |
| SceneManagement.GameSceneManager.GetPlayerInfo | GameSceneManager.cs:63-71 | the registered value, or null for an unknown key |
| SceneManagement.GameSceneManager.RegisterInteractiveItem | GameSceneManager.cs:73-77 | first registration for a key wins; no other key and no other table changes |
| SceneManagement.GameSceneManager.GetInteractiveItem | GameSceneManager.cs:79-83 | the registered value, or null for an unknown key |
| SceneManagement.GameSceneManager.RegisterMaterialController | GameSceneManager.cs:85-90 | first registration for a key wins; no other key and no other table changes |
| SceneManagement.GameSceneManager.GetMaterialController | GameSceneManager.cs:92-97 | the registered value, or null for an unknown key |

## Left out

- Engine behaviour is not modelled; each engine value is an input, as described above. This covers:
  - nav-mesh paths and steering;
  - Animator parameters, IK and bone transforms;
  - `Physics.RaycastAll` (its hits are an input, in no particular order);
  - rotations and slerps (the Patrol and Attack turning, the Feeding head drift toward the target);
  - particle emission (reported as a flag);
  - AudioSource playback and mixer parameters (kept as plain values).
- Floating point: numbers are `real`.
  - Only the IEEE effects the code depends on are written out: division by zero in the sound, flashlight and food tests; `float.MaxValue`; the truncating `%`.
  - Rounding is not modelled.
- The default handlers of AIState (AI/AIState.cs:13-14, 24-26) have empty bodies. The model has no dynamic dispatch, so the machine's Update takes the type the current state returned as a parameter, and the hooks are logged in `hooks`.
- AIState.OnAnimatorUpdated writes engine velocities and rotations.
- StateMachine.AIStateMachine has no Awake.
  - Awake's registration with the scene manager is modelled only as the scene manager's tables.
  - Its target-trigger callbacks (AI/AIStateMachine.cs:251-277) and the forwarding of trigger, move and IK events are left out: they are engine callbacks.
- StateMachine.AIStateMachine.SetTarget models the AITarget overload. The four-argument overload is that one applied to `SetAITarget`; the five-argument overload, with an explicit trigger radius, is not modelled.
- StateMachine.AIStateMachine.NextWaypoint: the source retries `Random.Range` in a loop until the index differs. The model makes one choice constrained to differ, because the retry loop has no termination bound.
- StateMachine.AIStateMachine.constructor requires the inspector's current waypoint to lie in -1 up to the network's last index. The source indexes the network with it unchecked, so an out-of-range value can throw.
- StateMachine.AIStateMachine.GetWaypointPosition and SelectWaypoint require a non-empty waypoint network. The source indexes the network unchecked, with `Random.Range(0, 0)` for the first random pick, so an empty network throws.
- StateMachine.AIStateMachine.NavAgentControl assumes the nav agent exists; the source's `if (_navAgent)` guard for a missing agent is not modelled, because the agent's flags are plain fields of the machine.
- StateMachine.AIStateMachine.ClearTarget requires a target trigger. The source dereferences it unchecked and would throw.
- ZombieIdle.Idle1.OnEnterState requires a target trigger on a bound machine, for the same reason.
- ZombieAttack.Attack1.OnUpdate and ZombieFeeding.Feeding1.OnUpdate require a bound zombie machine. The source dereferences it without a null check.
- ZombieFeeding.Feeding1.OnUpdate also requires a non-empty waypoint network when sated. ZombiePatrol.Patrol1's methods require it on a bound machine. The source indexes the network unchecked.
- ZombiePatrol.Patrol1 reads `isCrawling`, which the zombie machine does not declare; its field is `crawling`. The model reads `crawling`, which nothing ever sets, so it is always false.
- The zombie machine's `health` getter recurses forever (AI/AIZombieStateMachine.cs:38). Its fields are used only as parameters, with the inspector ranges in `SensesInRange`.
- ZombieState.AIZombieState.ColliderIsVisible compares a hit's game object with the stimulus's collider identity. The source compares the two game objects, so the model identifies each collider with its game object; a game object with several colliders is not distinguished.
- ZombieState.AIZombieState.ColliderIsVisible does not model the layer masks or the ray length (sensor radius times sight). They only filter which hits the engine reports.
- DamageTrigger.AIDamageTrigger.OnTriggerStay returns the damage request instead of calling CharacterManager.TakeDamage, whose class is not part of this model.
  - A player without a CharacterManager would throw; that case is not modelled.
  - The PlayerInfo lookup, whose result is unused, is omitted.
- AudioManagement.AudioManager.PlayOneShotSound and PlayOneShotSoundAsWritten require the squared distance to be at most float.MaxValue. The listener's position is an input, and the model does not capture a squared magnitude that overflows to Infinity.
- AudioManagement.AudioManager.ConfigurePoolObject requires a known track, because the source's lookup would throw on an unknown one. For an index in range it also requires a voice that is not playing. Its callers only pass free voices, or a voice they have stopped first; reusing a playing voice as written would leave its old ID in the active table.
- AudioManagement.AudioManager.ConfigurePoolObject does not model the `ulong` wrap-around of the ID counter after 2^64 sounds.
- The clip, position, volume, spatial blend, start time and listener-pause settings of a pooled AudioSource are not modelled. The timed stop (`StopSoundDelayed`) and `PlayOneShotSoundDelayed` are coroutines and are not modelled. `StopSound` stands for StopOneShotSound too, whose only other effect is stopping that coroutine.
- Volume fades in SetTrackVolume and `SetTrackVolumeInternal` run as coroutines and are not modelled: a fade leaves the modelled volumes unchanged.
- AudioManagement.AudioManager.constructor requires distinct mixer group names, because `Dictionary.Add` throws on a repeated one.
- AudioManager's Update loop, its scene-loaded listener lookup, the singleton accessors and `GetAudioGroupFromATrackName` are left out. Each registered source's Update is modelled by itself.
- LayeredAudio.LayeredAudioSource.Play, Stop and Mute require a non-negative index. The source indexes the list without a lower-bound check and would throw.
- LayeredAudio.LayerTick assumes that every clip a collection hands out is non-null and has a positive length (`ClipsHaveLength`).
- LayeredAudio.LayeredAudioSource keeps its layers as values in a sequence. The source's layers are objects, but nothing outside a layered source holds them, so no aliasing is lost.
- Application.ApplicationManager.GetGameState takes a non-null key; the source's `TryGetValue` throws on a null key, which is not modelled.
- Application.ApplicationManager.ResetGameStates returns false where `Dictionary.Add` throws on a null or repeated key. Scene loading and Quit are not modelled.
- SceneManagement.GameSceneManager: the singleton accessor is not modelled. The OnDestroy loop, which resets every material controller, is also left out, because MaterialController is not part of this model.

## Findings

| source | as written | input that shows it | evidently intended | confidence | as-written member | corrected member |
|---|---|---|---|---|---|---|
| Audio/AudioManager.cs:242-269 | the eviction scan starts from float.MaxValue and records a voice only when its unimportance is strictly greater, which no float is | any request while every voice is playing | evict the most unimportant playing sound when it is more unimportant than the new one | not executed | AudioManagement.AudioManager.PlayOneShotSoundAsWritten, with AudioManagement.EvictionScanAsWrittenFindsNothing | AudioManagement.AudioManager.PlayOneShotSound |
| Audio/AudioManager.cs:123 | `if (_mixer) return;` returns exactly when a mixer is assigned, and without a mixer there are no tracks, so no volume is ever set | SetTrackVolume("Music", -10, 0) with a mixer that has a "Music" group | return when no mixer is assigned, as GetTrackVolume does | not executed | AudioManagement.AudioManager.SetTrackVolumeAsWritten, with AudioManagement.AudioManager.SetTrackVolumeAsWrittenIsNoOp | AudioManagement.AudioManager.SetTrackVolume, with AudioManagement.AudioManager.SetThenGetTrackVolume |
| AI/AIZombieState.cs:107-122 | every qualifying hit overwrites the "closest" collider without comparing distances, so the last hit in RaycastAll's unordered array wins | hits [target at 2.0, wall at 5.0] in that order, within the field of view | keep the nearest qualifying hit | not executed | ZombieState.SeesAsWritten, with ZombieState.LastHitHidesNearestTarget | ZombieState.AIZombieState.ColliderIsVisible, with ZombieState.SeesMeansUnobstructed |
