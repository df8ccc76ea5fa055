/** ApplicationManager: the game-state dictionary that scripts read and write by key
    (door codes, mission flags), reset to a starting list when a game begins. */
module Application {
  import opened Engine

  /** A GameState entry; either string may be null. */
  datatype GameState = GameState(key: Option<string>, value: Option<string>)

  /** Dictionary.Add accepts entry i after the entries before it: its key is non-null and
      no earlier entry has it. */
  predicate NewKeyAt(states: seq<GameState>, i: nat)
    requires i < |states|
  {
    states[i].key.Some? && forall j :: 0 <= j < i ==> states[j].key != states[i].key
  }

  /** The index of the first starting entry Dictionary.Add rejects, or the list's length
      when it accepts them all. */
  function FirstRejected(states: seq<GameState>): (r: nat)
    ensures r <= |states|
    ensures forall i :: 0 <= i < r ==> NewKeyAt(states, i)
    ensures forall i :: 0 <= i < r ==> states[i].key.Some?
    ensures r < |states| ==> !NewKeyAt(states, r)
    decreases |states|
  {
    if states == [] then 0
    else
      var init := states[..|states| - 1];
      var k := FirstRejected(init);
      assert forall i :: 0 <= i < |init| ==> (NewKeyAt(init, i) <==> NewKeyAt(states, i));
      if k < |init| then k
      else if !NewKeyAt(states, |init|) then |init|
      else |states|
  }

  /** An entry at or before the first rejected one that Dictionary.Add rejects is the first
      rejected one. */
  lemma RejectedAt(states: seq<GameState>, i: nat)
    requires i <= FirstRejected(states) && i < |states| && !NewKeyAt(states, i)
    ensures i == FirstRejected(states)
  {
  }

  /** The dictionary after adding the first n starting entries, whose keys are non-null. */
  function Loaded(states: seq<GameState>, n: nat): map<string, Option<string>>
    requires n <= |states| && forall i :: 0 <= i < n ==> states[i].key.Some?
    decreases n
  {
    if n == 0 then map[]
    else Loaded(states, n - 1)[states[n - 1].key.value := states[n - 1].value]
  }

  /** The keys of the loaded dictionary are those of the entries added. */
  lemma {:induction false} LoadedKeys(states: seq<GameState>, n: nat, k: string)
    requires n <= |states| && forall i :: 0 <= i < n ==> states[i].key.Some?
    ensures k in Loaded(states, n) <==> exists i :: 0 <= i < n && states[i].key == Some(k)
    decreases n
  {
    if n > 0 {
      LoadedKeys(states, n - 1, k);
    }
  }

  /** Without rejected entries, each starting key holds its own entry's value. */
  lemma {:induction false} LoadedHoldsEntry(states: seq<GameState>, n: nat, i: nat)
    requires n <= FirstRejected(states) && i < n
    ensures states[i].key.value in Loaded(states, n)
    ensures Loaded(states, n)[states[i].key.value] == states[i].value
    decreases n
  {
    if i < n - 1 {
      LoadedHoldsEntry(states, n - 1, i);
      assert NewKeyAt(states, n - 1);
    }
  }

  /** What AreStatesSet asks of one entry: the dictionary holds a non-empty value for its
      key, equal to the entry's value. */
  predicate StateIsSetIn(dict: map<string, Option<string>>, gs: GameState) {
    && gs.key.Some? && gs.key.value in dict
    && dict[gs.key.value].Some? && dict[gs.key.value].value != ""
    && gs.value == dict[gs.key.value]
  }

  /** Right after a reset that accepted every entry, the starting states are all set exactly
      when every starting value is a non-empty string. */
  lemma StartingStatesAreSet(states: seq<GameState>)
    requires FirstRejected(states) == |states|
    ensures (forall i :: 0 <= i < |states| ==> StateIsSetIn(Loaded(states, |states|), states[i])) <==>
            (forall i :: 0 <= i < |states| ==> states[i].value.Some? && states[i].value.value != "")
  {
    forall i | 0 <= i < |states| {
      LoadedHoldsEntry(states, |states|, i);
    }
  }

  class ApplicationManager {
    /** _startingGameStates, as set in the inspector. */
    const startingGameStates: seq<GameState>
    /** _gameStateDictionary. */
    var gameStates: map<string, Option<string>>

    constructor (startingGameStates: seq<GameState>)
      ensures this.startingGameStates == startingGameStates && gameStates == map[]
    {
      this.startingGameStates := startingGameStates;
      gameStates := map[];
    }

    /** ResetGameStates (called by Awake, LoadGame and TheHospital): clears the dictionary
        and adds the starting entries in order. Returns false when Dictionary.Add throws on a
        null or repeated key; the entries before it stay added. */
    method ResetGameStates() returns (ok: bool)
      modifies this`gameStates
      ensures ok <==> FirstRejected(startingGameStates) == |startingGameStates|
      ensures gameStates == Loaded(startingGameStates, FirstRejected(startingGameStates))
    {
      gameStates := map[];
      var i := 0;
      while i < |startingGameStates|
        invariant 0 <= i <= FirstRejected(startingGameStates)
        invariant gameStates == Loaded(startingGameStates, i)
      {
        var gs := startingGameStates[i];
        if gs.key.None? {
          RejectedAt(startingGameStates, i);
          return false;
        }
        LoadedKeys(startingGameStates, i, gs.key.value);
        if gs.key.value in gameStates {
          RejectedAt(startingGameStates, i);
          return false;
        }
        gameStates := gameStates[gs.key.value := gs.value];
        i := i + 1;
      }
      return true;
    }

    /** GetGameState: the value under a (non-null) key, null when absent. */
    function GetGameState(key: string): (r: Option<string>)
      reads this
      ensures key !in gameStates ==> r.None?
      ensures key in gameStates ==> r == gameStates[key]
    {
      if key in gameStates then gameStates[key] else Option.None
    }

    /** AreStatesSet: whether every entry is set. Dictionary lookups throw on a null key, so
        the answer is None when a null key is reached before any entry that is not set. */
    method AreStatesSet(states: seq<GameState>) returns (r: Option<bool>)
      ensures r == Some(true) <==> forall i :: 0 <= i < |states| ==> StateIsSetIn(gameStates, states[i])
      ensures r.None? <==> exists i :: 0 <= i < |states| && states[i].key.None? &&
                                       forall j :: 0 <= j < i ==> StateIsSetIn(gameStates, states[j])
    {
      var i := 0;
      while i < |states|
        invariant 0 <= i <= |states|
        invariant forall j :: 0 <= j < i ==> StateIsSetIn(gameStates, states[j])
      {
        var state := states[i];
        if state.key.None? {
          return Option.None;
        }
        var result := GetGameState(state.key.value);
        if result.None? || result.value == "" || result != state.value {
          assert !StateIsSetIn(gameStates, states[i]);
          return Some(false);
        }
        i := i + 1;
      }
      return Some(true);
    }

    /** SetGameState: false and no change for a null key or value; otherwise the key is set,
        and the result says whether it was new. */
    method SetGameState(key: Option<string>, value: Option<string>) returns (added: bool)
      modifies this`gameStates
      ensures key.None? || value.None? ==> !added && gameStates == old(gameStates)
      ensures key.Some? && value.Some? ==>
        && (added <==> key.value !in old(gameStates))
        && gameStates == old(gameStates)[key.value := value]
        && GetGameState(key.value) == value
        && forall k :: k != key.value ==> GetGameState(k) == old(GetGameState(k))
    {
      if key.None? || value.None? { return false; }
      if key.value !in gameStates {
        gameStates := gameStates[key.value := value];
        return true;
      }
      gameStates := gameStates[key.value := value];
      return false;
    }
  }
}
