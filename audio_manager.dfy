/** AudioManager: the game's one-shot sound pool and registry of layered sources. A fixed
    number of pooled voices play one-shot sounds; each sound started gets a fresh non-zero
    ID, under which it is listed in the active table until stopped. */
module AudioManagement {
  import opened Engine
  import opened LayeredAudio

  /** An AudioPoolItem: whether its voice plays, how unimportant its sound is (the larger,
      the sooner it may be replaced), and the ID of that sound. */
  datatype PoolItem = PoolItem(playing: bool, unimportance: real, id: nat)

  /** A pool item as Awake creates it. */
  const FreshItem: PoolItem := PoolItem(false, FloatMax, 0)

  /** The index of the first voice that is not playing, or -1 when all are. */
  function FirstFree(pool: seq<PoolItem>): (r: int)
    ensures -1 <= r < |pool|
    ensures r == -1 <==> forall j :: 0 <= j < |pool| ==> pool[j].playing
    ensures r != -1 ==> !pool[r].playing && forall j :: 0 <= j < r ==> pool[j].playing
    decreases |pool|
  {
    if pool == [] then -1
    else
      var k := FirstFree(pool[..|pool| - 1]);
      if k != -1 then k
      else if !pool[|pool| - 1].playing then |pool| - 1
      else -1
  }

  /** The eviction scan of PlayOneShotSound over the first n voices, as written: the
      candidate index and value, starting from (-1, float.MaxValue) and replaced by any
      voice strictly more unimportant than the value so far. */
  function EvictionScanAsWritten(pool: seq<PoolItem>, n: nat): (int, real)
    requires n <= |pool|
  {
    if n == 0 then (-1, FloatMax)
    else
      var (k, v) := EvictionScanAsWritten(pool, n - 1);
      if pool[n - 1].unimportance > v then (n - 1, pool[n - 1].unimportance) else (k, v)
  }

  /** As written, the scan never records a candidate: no voice is ever more unimportant than
      float.MaxValue, so a full pool can never give up a voice. */
  lemma {:induction false} EvictionScanAsWrittenFindsNothing(pool: seq<PoolItem>, n: nat)
    requires n <= |pool|
    requires forall j :: 0 <= j < |pool| ==> pool[j].unimportance <= FloatMax
    ensures EvictionScanAsWritten(pool, n) == (-1, FloatMax)
    decreases n
  {
    if n > 0 {
      EvictionScanAsWrittenFindsNothing(pool, n - 1);
    }
  }

  /** The intended eviction candidate among the first n voices: the first of the most
      unimportant ones, -1 when there are none. */
  function MostUnimportant(pool: seq<PoolItem>, n: nat): (r: int)
    requires n <= |pool|
    ensures n == 0 <==> r == -1
    ensures n > 0 ==> 0 <= r < n
    ensures n > 0 ==> forall j :: 0 <= j < n ==> pool[j].unimportance <= pool[r].unimportance
    ensures n > 0 ==> forall j :: 0 <= j < r ==> pool[j].unimportance < pool[r].unimportance
    decreases n
  {
    if n == 0 then -1
    else
      var k := MostUnimportant(pool, n - 1);
      if k == -1 || pool[n - 1].unimportance > pool[k].unimportance then n - 1 else k
  }

  /** How unimportant a sound is: its squared distance to the listener over its priority,
      the priority counting as at least 1. */
  function Unimportance(sqrDist: real, priority: int): (r: real)
    ensures 0.0 <= sqrDist ==> 0.0 <= r <= sqrDist
    ensures priority <= 1 ==> r == sqrDist
    ensures priority > 1 ==> r * (priority as real) == sqrDist
  {
    var p := if priority > 1 then priority else 1;
    QuotientBelow(sqrDist, p as real);
    sqrDist / (p as real)
  }

  /** Dividing a non-negative value by at least 1 does not increase it. */
  lemma QuotientBelow(x: real, p: real)
    requires p >= 1.0
    ensures 0.0 <= x ==> 0.0 <= x / p <= x
  {
    if 0.0 <= x {
      var q := x / p;
      assert q * p == x;
      if q < 0.0 {
        MulNonNegative(-q, p);
      }
      MulNonNegative(q, p - 1.0);
      assert q * p - q == q * (p - 1.0);
    }
  }

  /** The first index of a registered layered source playing through `source`, or -1. */
  function IndexOfSource(ls: seq<LayeredAudioSource>, source: Option<ObjectId>): (r: int)
    ensures -1 <= r < |ls|
    ensures r == -1 <==> forall j :: 0 <= j < |ls| ==> ls[j].audioSource != source
    ensures r != -1 ==> ls[r].audioSource == source && forall j :: 0 <= j < r ==> ls[j].audioSource != source
    decreases |ls|
  {
    if ls == [] then -1
    else
      var k := IndexOfSource(ls[..|ls| - 1], source);
      if k != -1 then k
      else if ls[|ls| - 1].audioSource == source then |ls| - 1
      else -1
  }

  /** The first index of `x` in `ls`, or -1 (List.IndexOf). */
  function IndexOfItem(ls: seq<LayeredAudioSource>, x: LayeredAudioSource?): (r: int)
    ensures -1 <= r < |ls|
    ensures r == -1 <==> x !in ls
    ensures r != -1 ==> ls[r] == x && x !in ls[..r]
    decreases |ls|
  {
    if ls == [] then -1
    else
      var k := IndexOfItem(ls[..|ls| - 1], x);
      if k != -1 then
        assert ls[..|ls| - 1][..k] == ls[..k];
        k
      else if ls[|ls| - 1] == x then
        |ls| - 1
      else
        assert ls == ls[..|ls| - 1] + [ls[|ls| - 1]];
        -1
  }

  /** The list without its element at index i. */
  function RemovedAt<T>(ls: seq<T>, i: nat): (r: seq<T>)
    requires i < |ls|
    ensures |r| == |ls| - 1
    ensures forall j :: 0 <= j < i ==> r[j] == ls[j]
    ensures forall j :: i <= j < |r| ==> r[j] == ls[j + 1]
  {
    ls[..i] + ls[i + 1..]
  }

  /** Layered sources registered at most once per AudioSource, each with one. */
  predicate DistinctSources(ls: seq<LayeredAudioSource>) {
    && (forall j :: 0 <= j < |ls| ==> ls[j].audioSource.Some?)
    && (forall i, j :: 0 <= i < j < |ls| ==> ls[i].audioSource != ls[j].audioSource)
  }

  /** In a list registered once per source, a source's entry is the entry's first
      occurrence, and removing it leaves a list registered once per source. */
  lemma RemovingKeepsDistinct(ls: seq<LayeredAudioSource>, k: nat)
    requires DistinctSources(ls) && k < |ls|
    ensures IndexOfItem(ls, ls[k]) == k
    ensures DistinctSources(RemovedAt(ls, k))
  {
    var r := RemovedAt(ls, k);
    forall i, j | 0 <= i < j < |r|
      ensures r[i].audioSource != r[j].audioSource
    {
      var i' := if i < k then i else i + 1;
      var j' := if j < k then j else j + 1;
      assert r[i] == ls[i'] && r[j] == ls[j'] && i' < j';
    }
  }

  class AudioManager {
    /** Whether an AudioMixer is assigned. */
    const hasMixer: bool
    /** _maxSounds. */
    const maxSounds: int
    /** _tracks: the mixer group of each track name, filled by Awake. */
    const tracks: map<string, ObjectId>
    var pool: seq<PoolItem>
    /** _activePool: the pool index of the voice playing each live sound ID. */
    var activePool: map<nat, nat>
    var idGiver: nat
    var layeredAudio: seq<LayeredAudioSource>
    /** The mixer's exposed volume parameters, by track name. */
    var mixerVolumes: map<string, real>

    /** The active table lists exactly the playing voices, under the IDs they were started
        with; every ID handed out so far is at most the counter; unimportances are finite
        floats; without a mixer there are neither tracks nor voices; each AudioSource has at
        most one layered source. */
    predicate Valid()
      reads this
    {
      && (!hasMixer ==> tracks == map[] && pool == [])
      && (forall id :: id in activePool ==>
            0 < id <= idGiver && activePool[id] < |pool|
            && pool[activePool[id]].playing && pool[activePool[id]].id == id)
      && (forall i :: 0 <= i < |pool| && pool[i].playing ==> pool[i].id in activePool && activePool[pool[i].id] == i)
      && (forall i :: 0 <= i < |pool| ==> pool[i].unimportance <= FloatMax)
      && DistinctSources(layeredAudio)
    }

    /** The component after Awake. `groups` are the mixer's groups with their names, in the
        order FindMatchingGroups lists them; Dictionary.Add throws on a repeated name, so the
        names are distinct. `mixerVolumes` are the mixer's exposed volumes. */
    constructor (hasMixer: bool, maxSounds: int, groups: seq<(string, ObjectId)>, mixerVolumes: map<string, real>)
      requires forall i, j :: 0 <= i < j < |groups| ==> groups[i].0 != groups[j].0
      ensures this.hasMixer == hasMixer && this.maxSounds == maxSounds && this.mixerVolumes == mixerVolumes
      ensures !hasMixer ==> tracks == map[] && pool == []
      ensures hasMixer ==>
        && (forall name :: name in tracks <==> exists i :: 0 <= i < |groups| && groups[i].0 == name)
        && (forall i :: 0 <= i < |groups| ==> tracks[groups[i].0] == groups[i].1)
        && pool == seq(if maxSounds > 0 then maxSounds else 0, _ => FreshItem)
      ensures activePool == map[] && idGiver == 0 && layeredAudio == []
      ensures Valid()
    {
      var ts: map<string, ObjectId> := map[];
      var ps: seq<PoolItem> := [];
      if hasMixer {
        var i := 0;
        while i < |groups|
          invariant 0 <= i <= |groups|
          invariant forall name :: name in ts <==> exists j :: 0 <= j < i && groups[j].0 == name
          invariant forall j :: 0 <= j < i ==> ts[groups[j].0] == groups[j].1
        {
          ts := ts[groups[i].0 := groups[i].1];
          i := i + 1;
        }
        var n := 0;
        while n < maxSounds
          invariant 0 <= n && (maxSounds > 0 ==> n <= maxSounds) && (maxSounds <= 0 ==> n == 0)
          invariant ps == seq(n, _ => FreshItem)
        {
          ps := ps + [FreshItem];
          n := n + 1;
        }
      }
      this.hasMixer := hasMixer;
      this.maxSounds := maxSounds;
      tracks := ts;
      pool := ps;
      activePool := map[];
      idGiver := 0;
      layeredAudio := [];
      this.mixerVolumes := mixerVolumes;
    }

    /** GetTrackVolume over the mixer volumes `volumes`: float.MinValue without a mixer or for
        an unknown track, else the mixer's value, and 0 when the mixer exposes no value for a
        known track. */
    function TrackVolume(volumes: map<string, real>, track: string): (r: real)
      ensures !hasMixer || track !in tracks ==> r == FloatMin
      ensures hasMixer && track in tracks && track in volumes ==> r == volumes[track]
      ensures hasMixer && track in tracks && track !in volumes ==> r == 0.0
    {
      if !hasMixer then FloatMin
      else if track in tracks then (if track in volumes then volumes[track] else 0.0)
      else FloatMin
    }

    /** The mixer volumes after SetTrackVolume as written, whose guard returns when a mixer
        IS assigned. A fade (`fadeTime` not 0) runs as a coroutine and is not modelled. */
    function VolumesAfterSetAsWritten(volumes: map<string, real>, track: string, volume: real, fadeTime: real): map<string, real>
    {
      if hasMixer then volumes
      else if track in tracks && fadeTime == 0.0 then volumes[track := volume]
      else volumes
    }

    /** As written, SetTrackVolume never changes any volume: with a mixer it returns at once,
        and without one there are no tracks. */
    lemma SetTrackVolumeAsWrittenIsNoOp(volumes: map<string, real>, track: string, volume: real, fadeTime: real)
      requires !hasMixer ==> tracks == map[]
      ensures VolumesAfterSetAsWritten(volumes, track, volume, fadeTime) == volumes
      ensures hasMixer && track in tracks && TrackVolume(volumes, track) != volume ==>
        TrackVolume(VolumesAfterSetAsWritten(volumes, track, volume, fadeTime), track) != volume
    {
    }

    /** The mixer volumes after SetTrackVolume with the guard the other accessors use:
        nothing without a mixer, an immediate set of a known track's volume otherwise. */
    function VolumesAfterSet(volumes: map<string, real>, track: string, volume: real, fadeTime: real): (r: map<string, real>)
      ensures forall t :: t != track ==> (t in r <==> t in volumes) && (t in r ==> r[t] == volumes[t])
    {
      if !hasMixer then volumes
      else if track in tracks && fadeTime == 0.0 then volumes[track := volume]
      else volumes
    }

    /** An immediate SetTrackVolume on a known track is read back by GetTrackVolume, and no
        other track's volume changes. */
    lemma SetThenGetTrackVolume(volumes: map<string, real>, track: string, volume: real, other: string)
      requires hasMixer && track in tracks && other != track
      ensures TrackVolume(VolumesAfterSet(volumes, track, volume, 0.0), track) == volume
      ensures TrackVolume(VolumesAfterSet(volumes, track, volume, 0.0), other) == TrackVolume(volumes, other)
    {
    }

    /** SetTrackVolume as written (the inverted mixer guard). */
    method SetTrackVolumeAsWritten(track: string, volume: real, fadeTime: real)
      requires Valid()
      modifies this`mixerVolumes
      ensures mixerVolumes == VolumesAfterSetAsWritten(old(mixerVolumes), track, volume, fadeTime)
      ensures mixerVolumes == old(mixerVolumes)
    {
      SetTrackVolumeAsWrittenIsNoOp(mixerVolumes, track, volume, fadeTime);
      if hasMixer { return; }
      if track in tracks {
        // without a mixer Awake registered no track, so the volume is never set
        assert false;
      }
    }

    /** SetTrackVolume with the intended guard. */
    method SetTrackVolume(track: string, volume: real, fadeTime: real)
      modifies this`mixerVolumes
      ensures mixerVolumes == VolumesAfterSet(old(mixerVolumes), track, volume, fadeTime)
      ensures hasMixer && track in tracks && fadeTime == 0.0 ==> TrackVolume(mixerVolumes, track) == volume
    {
      if !hasMixer { return; }
      if track in tracks {
        if fadeTime == 0.0 {
          mixerVolumes := mixerVolumes[track := volume];
        }
      }
    }

    /** ConfigurePoolObject: starts a sound with a fresh ID on the voice `poolIndex` (a free
        one), or returns 0 for an index outside the pool. The source looks the track up
        unchecked, so a known track is required for a voice in range. */
    method ConfigurePoolObject(poolIndex: int, track: string, unimportance: real) returns (id: nat)
      requires Valid() && unimportance <= FloatMax
      requires 0 <= poolIndex < |pool| ==> !pool[poolIndex].playing && track in tracks
      modifies this`pool, this`activePool, this`idGiver
      ensures Valid()
      ensures !(0 <= poolIndex < |old(pool)|) ==>
        id == 0 && pool == old(pool) && activePool == old(activePool) && idGiver == old(idGiver)
      ensures 0 <= poolIndex < |old(pool)| ==>
        && id == old(idGiver) + 1 && idGiver == id && id !in old(activePool)
        && pool == old(pool)[poolIndex := PoolItem(true, unimportance, id)]
        && activePool == old(activePool)[id := poolIndex]
    {
      if poolIndex < 0 || poolIndex >= |pool| { return 0; }
      idGiver := idGiver + 1;
      pool := pool[poolIndex := PoolItem(true, unimportance, idGiver)];
      activePool := activePool[idGiver := poolIndex];
      return idGiver;
    }

    /** StopSound: a live sound's voice stops and its ID leaves the active table; an unknown
        ID is ignored. StopOneShotSound does the same after stopping the sound's timed stop. */
    method StopSound(id: nat)
      requires Valid()
      modifies this`pool, this`activePool
      ensures Valid()
      ensures id !in old(activePool) ==> pool == old(pool) && activePool == old(activePool)
      ensures id in old(activePool) ==>
        && activePool == old(activePool) - {id}
        && pool == old(pool)[old(activePool)[id] := old(pool)[old(activePool)[id]].(playing := false)]
    {
      if id !in activePool { return; }
      var slot := activePool[id];
      activePool := activePool - {id};
      pool := pool[slot := pool[slot].(playing := false)];
    }

    /** PlayOneShotSound as written. `sqrDist` is the squared distance from the listener, a
        finite float; the clip is an identity, None for null. Returns the sound's ID, 0 when
        nothing plays. The lowest free voice is used; when every voice plays, the eviction
        scan finds no candidate, so the sound is dropped. */
    method PlayOneShotSoundAsWritten(track: string, clip: Option<ObjectId>, volume: real, sqrDist: real, priority: int)
      returns (id: nat)
      requires Valid() && 0.0 <= sqrDist <= FloatMax
      modifies this`pool, this`activePool, this`idGiver
      ensures Valid()
      ensures track !in tracks || clip.None? || volume == 0.0 || FirstFree(old(pool)) == -1 ==>
        id == 0 && pool == old(pool) && activePool == old(activePool) && idGiver == old(idGiver)
      ensures track in tracks && clip.Some? && volume != 0.0 && FirstFree(old(pool)) != -1 ==>
        Started(old(pool), old(activePool), old(idGiver), FirstFree(old(pool)), Unimportance(sqrDist, priority), id)
    {
      if track !in tracks || clip.None? || volume == 0.0 { return 0; }
      var unimportance := Unimportance(sqrDist, priority);
      var leastImportantIndex := -1;
      var leastImportanceValue := FloatMax;
      var i := 0;
      while i < |pool|
        invariant 0 <= i <= |pool|
        invariant forall j :: 0 <= j < i ==> pool[j].playing
        invariant (leastImportantIndex, leastImportanceValue) == EvictionScanAsWritten(pool, i)
      {
        if !pool[i].playing {
          id := ConfigurePoolObject(i, track, unimportance);
          return;
        } else if pool[i].unimportance > leastImportanceValue {
          leastImportanceValue := pool[i].unimportance;
          leastImportantIndex := i;
        }
        i := i + 1;
      }
      EvictionScanAsWrittenFindsNothing(pool, |pool|);
      if leastImportanceValue > unimportance {
        id := ConfigurePoolObject(leastImportantIndex, track, unimportance);
        return;
      }
      return 0;
    }

    /** The state after a sound with unimportance `u` started on voice `slot` of `pool`. */
    predicate Started(pool0: seq<PoolItem>, active0: map<nat, nat>, idGiver0: nat, slot: nat, u: real, id: nat)
      requires slot < |pool0|
      reads this
    {
      && id == idGiver0 + 1 && idGiver == id && id !in active0
      && pool == pool0[slot := PoolItem(true, u, id)]
      && activePool == active0[id := slot]
    }

    /** PlayOneShotSound as intended: when every voice plays, the most unimportant sound is
        stopped and its voice reused, provided it is more unimportant than the new one. */
    method PlayOneShotSound(track: string, clip: Option<ObjectId>, volume: real, sqrDist: real, priority: int)
      returns (id: nat)
      requires Valid() && 0.0 <= sqrDist <= FloatMax
      modifies this`pool, this`activePool, this`idGiver
      ensures Valid()
      ensures track !in tracks || clip.None? || volume == 0.0 ==>
        id == 0 && pool == old(pool) && activePool == old(activePool) && idGiver == old(idGiver)
      ensures track in tracks && clip.Some? && volume != 0.0 && FirstFree(old(pool)) != -1 ==>
        Started(old(pool), old(activePool), old(idGiver), FirstFree(old(pool)), Unimportance(sqrDist, priority), id)
      ensures track in tracks && clip.Some? && volume != 0.0 && FirstFree(old(pool)) == -1 ==>
        var m := MostUnimportant(old(pool), |old(pool)|);
        if m != -1 && old(pool)[m].unimportance > Unimportance(sqrDist, priority) then
          Started(old(pool)[m := old(pool)[m].(playing := false)], old(activePool) - {old(pool)[m].id},
                  old(idGiver), m, Unimportance(sqrDist, priority), id)
        else id == 0 && pool == old(pool) && activePool == old(activePool) && idGiver == old(idGiver)
    {
      if track !in tracks || clip.None? || volume == 0.0 { return 0; }
      var unimportance := Unimportance(sqrDist, priority);
      var leastImportantIndex := -1;
      var i := 0;
      while i < |pool|
        invariant 0 <= i <= |pool|
        invariant forall j :: 0 <= j < i ==> pool[j].playing
        invariant leastImportantIndex == MostUnimportant(pool, i)
      {
        if !pool[i].playing {
          id := ConfigurePoolObject(i, track, unimportance);
          return;
        } else if leastImportantIndex == -1 || pool[i].unimportance > pool[leastImportantIndex].unimportance {
          leastImportantIndex := i;
        }
        i := i + 1;
      }
      if leastImportantIndex != -1 && pool[leastImportantIndex].unimportance > unimportance {
        StopSound(pool[leastImportantIndex].id);
        id := ConfigurePoolObject(leastImportantIndex, track, unimportance);
        return;
      }
      return 0;
    }

    /** RegisterLayeredAudioSource: null without a source or without layers; the existing
        entry when the source is already registered; else a new layered source with
        `layers` layers, added at the end. `output` is the AudioSource's current state. */
    method RegisterLayeredAudioSource(audioSource: Option<ObjectId>, layers: int, output: SourceOutput)
      returns (r: LayeredAudioSource?)
      requires Valid()
      modifies this`layeredAudio
      ensures Valid()
      ensures audioSource.None? || layers <= 0 ==> r == null && layeredAudio == old(layeredAudio)
      ensures audioSource.Some? && layers > 0 && IndexOfSource(old(layeredAudio), audioSource) != -1 ==>
        r == old(layeredAudio)[IndexOfSource(old(layeredAudio), audioSource)] && layeredAudio == old(layeredAudio)
      ensures audioSource.Some? && layers > 0 && IndexOfSource(old(layeredAudio), audioSource) == -1 ==>
        && r != null && fresh(r) && r.audioSource == audioSource && r.Valid()
        && r.layers == seq(layers, _ => EmptyLayer) && r.activeLayer == -1
        && layeredAudio == old(layeredAudio) + [r]
      ensures r != null ==> IndexOfSource(layeredAudio, audioSource) != -1
    {
      if audioSource.None? || layers <= 0 { return null; }
      var i := 0;
      while i < |layeredAudio|
        invariant 0 <= i <= |layeredAudio|
        invariant forall j :: 0 <= j < i ==> layeredAudio[j].audioSource != audioSource
      {
        if layeredAudio[i].audioSource == audioSource {
          return layeredAudio[i];
        }
        i := i + 1;
      }
      r := new LayeredAudioSource(audioSource, layers, output);
      layeredAudio := layeredAudio + [r];
      assert layeredAudio[|layeredAudio| - 1] == r;
    }

    /** UnregisterLayeredAudioSource(ILayeredAudioSource): List.Remove of the entry. */
    method UnregisterLayeredAudioSource(source: LayeredAudioSource?)
      requires Valid()
      modifies this`layeredAudio
      ensures Valid()
      ensures source !in old(layeredAudio) ==> layeredAudio == old(layeredAudio)
      ensures source in old(layeredAudio) ==>
        layeredAudio == RemovedAt(old(layeredAudio), IndexOfItem(old(layeredAudio), source)) && source !in layeredAudio
    {
      var k := IndexOfItem(layeredAudio, source);
      if k != -1 {
        RemovingKeepsDistinct(layeredAudio, k);
        layeredAudio := RemovedAt(layeredAudio, k);
        assert source !in layeredAudio by {
          forall j | 0 <= j < |layeredAudio|
            ensures layeredAudio[j] != source
          {
            var j' := if j < k then j else j + 1;
            assert layeredAudio[j] == old(layeredAudio)[j'] && j' != k;
            assert old(layeredAudio)[j'].audioSource != old(layeredAudio)[k].audioSource;
          }
        }
      }
    }

    /** UnregisterLayeredAudioSource(AudioSource): removes the entry playing through `source`,
        if any. */
    method UnregisterLayeredAudioSourceOf(source: Option<ObjectId>)
      requires Valid()
      modifies this`layeredAudio
      ensures Valid()
      ensures IndexOfSource(old(layeredAudio), source) == -1 ==> layeredAudio == old(layeredAudio)
      ensures IndexOfSource(old(layeredAudio), source) != -1 ==>
        layeredAudio == RemovedAt(old(layeredAudio), IndexOfSource(old(layeredAudio), source))
      ensures IndexOfSource(layeredAudio, source) == -1
    {
      var i := 0;
      while i < |layeredAudio|
        invariant 0 <= i <= |layeredAudio|
        invariant forall j :: 0 <= j < i ==> layeredAudio[j].audioSource != source
      {
        if layeredAudio[i].audioSource == source {
          RemovingKeepsDistinct(layeredAudio, i);
          layeredAudio := RemovedAt(layeredAudio, i);
          return;
        }
        i := i + 1;
      }
    }
  }
}
