/** GameSceneManager: the scene-wide lookup tables from an object's instance id to its
    state machine, player information, interactive item and material controller. Values
    are opaque identities; a registered value may itself be null. */
module SceneManagement {
  import opened Engine
  import opened Registry

  class GameSceneManager {
    /** _bloodParticles, as set in the inspector. */
    const bloodParticles: Option<ObjectId>
    /** _stateMachines, _playerInfos, _interactiveItems and _materialControllers. */
    var stateMachines: map<int, Option<ObjectId>>
    var playerInfos: map<int, Option<ObjectId>>
    var interactiveItems: map<int, Option<ObjectId>>
    var materialControllers: map<int, Option<ObjectId>>

    /** The scene's manager as loaded: four empty tables. */
    constructor (bloodParticles: Option<ObjectId>)
      ensures this.bloodParticles == bloodParticles
      ensures stateMachines == map[] && playerInfos == map[]
      ensures interactiveItems == map[] && materialControllers == map[]
    {
      this.bloodParticles := bloodParticles;
      stateMachines := map[];
      playerInfos := map[];
      interactiveItems := map[];
      materialControllers := map[];
    }

    /** RegisterAIStateMachine: first registration for a key wins; no other key changes. */
    method RegisterAIStateMachine(key: int, stateMachine: Option<ObjectId>)
      modifies this`stateMachines
      ensures stateMachines == Register(old(stateMachines), key, stateMachine)
      ensures GetAIStateMachine(key) == if key in old(stateMachines) then old(GetAIStateMachine(key)) else stateMachine
      ensures forall k :: k != key ==> GetAIStateMachine(k) == old(GetAIStateMachine(k))
    {
      if key !in stateMachines {
        stateMachines := stateMachines[key := stateMachine];
      }
    }

    /** GetAIStateMachine: the registered machine, or null for an unknown key. */
    function GetAIStateMachine(key: int): (r: Option<ObjectId>)
      reads this
      ensures key in stateMachines ==> r == stateMachines[key]
      ensures key !in stateMachines ==> r.None?
    {
      Lookup(stateMachines, key)
    }

    /** RegisterPlayerInfo: first registration for a key wins; no other key changes. */
    method RegisterPlayerInfo(key: int, playerInfo: Option<ObjectId>)
      modifies this`playerInfos
      ensures playerInfos == Register(old(playerInfos), key, playerInfo)
      ensures GetPlayerInfo(key) == if key in old(playerInfos) then old(GetPlayerInfo(key)) else playerInfo
      ensures forall k :: k != key ==> GetPlayerInfo(k) == old(GetPlayerInfo(k))
    {
      if key !in playerInfos {
        playerInfos := playerInfos[key := playerInfo];
      }
    }

    /** GetPlayerInfo: the registered information, or null for an unknown key. */
    function GetPlayerInfo(key: int): (r: Option<ObjectId>)
      reads this
      ensures key in playerInfos ==> r == playerInfos[key]
      ensures key !in playerInfos ==> r.None?
    {
      Lookup(playerInfos, key)
    }

    /** RegisterInteractiveItem: first registration for a key wins; no other key changes. */
    method RegisterInteractiveItem(key: int, item: Option<ObjectId>)
      modifies this`interactiveItems
      ensures interactiveItems == Register(old(interactiveItems), key, item)
      ensures GetInteractiveItem(key) == if key in old(interactiveItems) then old(GetInteractiveItem(key)) else item
      ensures forall k :: k != key ==> GetInteractiveItem(k) == old(GetInteractiveItem(k))
    {
      if key !in interactiveItems {
        interactiveItems := interactiveItems[key := item];
      }
    }

    /** GetInteractiveItem: the registered item, or null (TryGetValue's default) for an
        unknown key. */
    function GetInteractiveItem(key: int): (r: Option<ObjectId>)
      reads this
      ensures key in interactiveItems ==> r == interactiveItems[key]
      ensures key !in interactiveItems ==> r.None?
    {
      Lookup(interactiveItems, key)
    }

    /** RegisterMaterialController: first registration for a key wins; no other key changes. */
    method RegisterMaterialController(key: int, materialController: Option<ObjectId>)
      modifies this`materialControllers
      ensures materialControllers == Register(old(materialControllers), key, materialController)
      ensures GetMaterialController(key) ==
        if key in old(materialControllers) then old(GetMaterialController(key)) else materialController
      ensures forall k :: k != key ==> GetMaterialController(k) == old(GetMaterialController(k))
    {
      if key !in materialControllers {
        materialControllers := materialControllers[key := materialController];
      }
    }

    /** GetMaterialController: the registered controller, or null (TryGetValue's default)
        for an unknown key. */
    function GetMaterialController(key: int): (r: Option<ObjectId>)
      reads this
      ensures key in materialControllers ==> r == materialControllers[key]
      ensures key !in materialControllers ==> r.None?
    {
      Lookup(materialControllers, key)
    }
  }
}
