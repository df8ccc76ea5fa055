/** Register-if-absent tables. AIStateMachine.Start and the four GameSceneManager
    registries add an entry only when its key is not yet present, so for every key the
    table keeps the value of the first registration. */
module Registry {
  import opened Engine

  /** One registration: `if (!table.ContainsKey(k)) table[k] = v`. */
  function Register<K(==), V>(m: map<K, V>, k: K, v: V): (r: map<K, V>)
    ensures k in r && r[k] == (if k in m then m[k] else v)
    ensures r.Keys == m.Keys + {k}
    ensures forall j :: j in m ==> j in r && r[j] == m[j]
  {
    if k in m then m else m[k := v]
  }

  /** The table after registering the entries from left to right. */
  function RegisterAll<K(==), V>(m: map<K, V>, entries: seq<(K, V)>): map<K, V>
    decreases |entries|
  {
    if entries == [] then m
    else
      var last := entries[|entries| - 1];
      Register(RegisterAll(m, entries[..|entries| - 1]), last.0, last.1)
  }

  /** Reference definition: the value of the first entry for key k, if any. */
  function FirstFor<K(==), V>(entries: seq<(K, V)>, k: K): Option<V>
    decreases |entries|
  {
    if entries == [] then None
    else if entries[0].0 == k then Some(entries[0].1)
    else FirstFor(entries[1..], k)
  }

  /** Appending an entry does not change the first value of a key that already has one. */
  lemma {:induction false} FirstForAppend<K, V>(entries: seq<(K, V)>, e: (K, V), k: K)
    ensures FirstFor(entries + [e], k) ==
      if FirstFor(entries, k).Some? then FirstFor(entries, k)
      else if e.0 == k then Some(e.1) else None
    decreases |entries|
  {
    if entries == [] {
      assert entries + [e] == [e];
    } else {
      assert (entries + [e])[1..] == entries[1..] + [e];
      FirstForAppend(entries[1..], e, k);
    }
  }

  /** First registration wins: a key registered into a table that lacks it maps to the value
      of its first entry; keys already present keep their values; no other key appears. */
  lemma {:induction false} FirstRegistrationWins<K, V>(m: map<K, V>, entries: seq<(K, V)>, k: K)
    ensures k in RegisterAll(m, entries) <==> k in m || FirstFor(entries, k).Some?
    ensures k in m ==> RegisterAll(m, entries)[k] == m[k]
    ensures k !in m && FirstFor(entries, k).Some? ==>
      RegisterAll(m, entries)[k] == FirstFor(entries, k).value
    decreases |entries|
  {
    if entries != [] {
      var before := entries[..|entries| - 1];
      var last := entries[|entries| - 1];
      assert before + [last] == entries;
      FirstRegistrationWins(m, before, k);
      FirstForAppend(before, last, k);
    }
  }

  /** Dictionary.TryGetValue with a default of null: the stored value, which may itself be
      null, or null for a key that is absent. */
  function Lookup<K(==), V>(m: map<K, Option<V>>, k: K): Option<V> {
    if k in m then m[k] else None
  }

  /** Looking a key up after a run of registrations into an empty table gives the value of
      its first registration, or null when it was never registered. */
  lemma LookupFindsFirstRegistration<K, V>(entries: seq<(K, Option<V>)>, k: K)
    ensures Lookup(RegisterAll(map[], entries), k) ==
      if FirstFor(entries, k).Some? then FirstFor(entries, k).value else None
  {
    FirstRegistrationWins(map[], entries, k);
  }
}
