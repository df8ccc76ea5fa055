/** LayeredAudioSource: one AudioSource shared by several layers of looping or one-shot
    audio. Each layer plays a clip from an audio collection's bank; every Update the
    highest-numbered layer still holding a collection is the one the source plays. */
module LayeredAudio {
  import opened Engine

  /** An AudioLayer. `clip` and `collection` are identities of the AudioClip and the
      AudioCollection, None for null. */
  datatype AudioLayer = AudioLayer(
    clip: Option<ObjectId>, collection: Option<ObjectId>, bank: int, looping: bool,
    time: real, duration: real, muted: bool)

  /** A layer as the constructor makes it: no collection, looping, unmuted, at time 0. */
  const EmptyLayer: AudioLayer := AudioLayer(Option.None, Option.None, 0, true, 0.0, 0.0, false)

  /** What the engine answers about clips and collections: the clip a collection hands out
      for a bank (`collection[bank]`), a clip's length, and a collection's volume, spatial
      blend and mixer group (looked up through the audio manager by track name). */
  datatype Assets = Assets(
    pick: (ObjectId, int) -> ObjectId,
    length: ObjectId -> real,
    volume: ObjectId -> real,
    spatialBlend: ObjectId -> real,
    group: ObjectId -> Option<ObjectId>)

  /** Every clip has a positive length. */
  ghost predicate ClipsHaveLength(assets: Assets) {
    forall c :: assets.length(c) > 0.0
  }

  /** The state of the underlying AudioSource the layers drive. */
  datatype SourceOutput = SourceOutput(
    clip: Option<ObjectId>, volume: real, spatialBlend: real, time: real, loop: bool,
    group: Option<ObjectId>, playing: bool)

  /** `q` whole copies of `y`. */
  function Times(y: real, q: int): real {
    y * (q as real)
  }

  /** The `%` of C# on floats: the remainder of the quotient truncated towards zero. It
      differs from `x` by a whole multiple of `y`, and for a non-negative `x` lies in [0, y). */
  function FloatRem(x: real, y: real): (r: real)
    requires y > 0.0
    ensures x >= 0.0 ==> 0.0 <= r < y
    ensures exists q: int :: x == Times(y, q) + r
  {
    var q := x / y;
    var t := if q >= 0.0 then q.Floor else -((-q).Floor);
    if x >= 0.0 then
      var f := q - (t as real);
      assert 0.0 <= f < 1.0;
      MulNonNegative(y, f);
      MulNonNegative(y, 1.0 - f);
      assert x - y * (t as real) == y * f;
      assert x == Times(y, t) + (x - y * (t as real));
      x - y * (t as real)
    else
      assert x == Times(y, t) + (x - y * (t as real));
      x - y * (t as real)
  }

  /** The layer has reached the end of its clip this tick and starts a clip again: it is
      looping, or has not had a clip yet. */
  predicate Renewed(l: AudioLayer, dt: real) {
    l.collection.Some? && l.time + dt >= l.duration && (l.looping || l.clip.None?)
  }

  /** The layer has played its one-shot clip to the end this tick. */
  predicate Retired(l: AudioLayer, dt: real) {
    l.collection.Some? && l.time + dt >= l.duration && !l.looping && l.clip.Some?
  }

  /** A layer that holds a collection is live. */
  predicate Live(l: AudioLayer) {
    l.collection.Some?
  }

  /** One layer over one Update of `dt` seconds. */
  function LayerTick(l: AudioLayer, dt: real, assets: Assets): (r: AudioLayer)
    requires ClipsHaveLength(assets)
    ensures !Live(l) ==> r == l
    ensures Live(r) <==> Live(l) && !Retired(l, dt)
    ensures Retired(l, dt) ==> r == AudioLayer(Option.None, Option.None, 0, false, 0.0, 0.0, false).(muted := l.muted)
    ensures Renewed(l, dt) ==>
      var c := assets.pick(l.collection.value, l.bank);
      && r.clip == Some(c) && r.duration == assets.length(c)
      && (l.clip != Some(c) ==> r.time == 0.0)
      && r.collection == l.collection && r.bank == l.bank && r.looping == l.looping
      && (l.clip == Some(c) ==> r.time == FloatRem(l.time + dt, assets.length(c)))
      && (l.clip == Some(c) && l.time + dt >= 0.0 ==> 0.0 <= r.time < r.duration)
    ensures Live(l) && l.time + dt < l.duration ==> r == l.(time := l.time + dt)
    ensures r.muted == l.muted
  {
    if l.collection.None? then l
    else
      var t := l.time + dt;
      if t >= l.duration then
        if l.looping || l.clip.None? then
          var c := assets.pick(l.collection.value, l.bank);
          l.(time := if Some(c) == l.clip then FloatRem(t, assets.length(c)) else 0.0,
             duration := assets.length(c), clip := Some(c))
        else
          l.(clip := Option.None, collection := Option.None, duration := 0.0, bank := 0, looping := false, time := 0.0)
      else l.(time := t)
  }

  /** Every layer over one Update. */
  function Ticked(ls: seq<AudioLayer>, dt: real, assets: Assets): (r: seq<AudioLayer>)
    requires ClipsHaveLength(assets)
    ensures |r| == |ls| && forall j :: 0 <= j < |ls| ==> r[j] == LayerTick(ls[j], dt, assets)
  {
    seq(|ls|, j requires 0 <= j < |ls| => LayerTick(ls[j], dt, assets))
  }

  /** The highest index at or above `i` holding a live layer, or -1. */
  function ActiveAmong(ls: seq<AudioLayer>, i: nat): (r: int)
    requires i <= |ls|
    ensures r == -1 || i <= r < |ls|
    decreases |ls| - i
  {
    if i == |ls| then -1
    else
      var up := ActiveAmong(ls, i + 1);
      if up != -1 then up else if Live(ls[i]) then i else -1
  }

  /** ActiveAmong is the highest live layer: -1 exactly when none at or above `i` is live,
      else a live layer with none live above it. */
  lemma {:induction false} ActiveAmongIsHighestLive(ls: seq<AudioLayer>, i: nat)
    requires i <= |ls|
    ensures ActiveAmong(ls, i) == -1 <==> forall j :: i <= j < |ls| ==> !Live(ls[j])
    ensures ActiveAmong(ls, i) != -1 ==>
      Live(ls[ActiveAmong(ls, i)]) && forall j :: ActiveAmong(ls, i) < j < |ls| ==> !Live(ls[j])
    decreases |ls| - i
  {
    if i < |ls| {
      ActiveAmongIsHighestLive(ls, i + 1);
    }
  }

  /** Play on one layer: unchanged when it already plays that collection, bank and looping
      mode; otherwise restarted on them, unmuted, with no clip yet. */
  function PlayLayer(l: AudioLayer, collection: Option<ObjectId>, bank: int, looping: bool): (r: AudioLayer)
    ensures r.collection == collection && r.bank == bank && r.looping == looping
    ensures l.collection == collection && l.bank == bank && l.looping == looping ==> r == l
    ensures !(l.collection == collection && l.bank == bank && l.looping == looping) ==>
      r.time == 0.0 && r.duration == 0.0 && !r.muted && r.clip.None?
  {
    if l.collection == collection && l.bank == bank && l.looping == looping then l
    else AudioLayer(Option.None, collection, bank, looping, 0.0, 0.0, false)
  }

  /** Playing the same thing twice is the same as playing it once. */
  lemma PlayIsIdempotent(l: AudioLayer, collection: Option<ObjectId>, bank: int, looping: bool)
    ensures PlayLayer(PlayLayer(l, collection, bank, looping), collection, bank, looping)
         == PlayLayer(l, collection, bank, looping)
  {
  }

  /** Stop on one layer: it stops looping and jumps to the end of its clip. */
  function StopLayer(l: AudioLayer): (r: AudioLayer)
    ensures !r.looping && r.time == r.duration
    ensures r.clip == l.clip && r.collection == l.collection && r.muted == l.muted
    ensures r.duration == l.duration && r.bank == l.bank
  {
    l.(looping := false, time := l.duration)
  }

  /** A stopped layer that has a clip is emptied by the next Update. */
  lemma StoppedLayerRetires(l: AudioLayer, dt: real, assets: Assets)
    requires ClipsHaveLength(assets) && Live(l) && l.clip.Some? && dt >= 0.0
    ensures Retired(StopLayer(l), dt)
    ensures !Live(LayerTick(StopLayer(l), dt, assets))
  {
  }

  /** The volume the source plays a live layer at. */
  function LayerVolume(l: AudioLayer, assets: Assets): (r: real)
    requires Live(l)
    ensures l.muted ==> r == 0.0
    ensures !l.muted ==> r == assets.volume(l.collection.value)
  {
    if l.muted then 0.0 else assets.volume(l.collection.value)
  }

  /** The source after switching to the live layer `l` and calling Play. */
  function PlayingLayer(l: AudioLayer, assets: Assets): (r: SourceOutput)
    requires Live(l)
    ensures r.playing && r.clip == l.clip && r.volume == LayerVolume(l, assets)
    ensures r.time == l.time && r.loop == l.looping
    ensures r.spatialBlend == assets.spatialBlend(l.collection.value) && r.group == assets.group(l.collection.value)
  {
    SourceOutput(l.clip, LayerVolume(l, assets), assets.spatialBlend(l.collection.value), l.time, l.looping,
                 assets.group(l.collection.value), true)
  }

  /** Muting changes no layer's liveness, so it never changes the active layer. */
  lemma {:induction false} MuteKeepsActive(ls: seq<AudioLayer>, muted: seq<AudioLayer>, i: nat)
    requires |ls| == |muted| && i <= |ls|
    requires forall j :: 0 <= j < |ls| ==> muted[j] == ls[j].(muted := muted[j].muted)
    ensures ActiveAmong(muted, i) == ActiveAmong(ls, i)
    decreases |ls| - i
  {
    if i < |ls| {
      MuteKeepsActive(ls, muted, i + 1);
      assert Live(muted[i]) == Live(ls[i]);
    }
  }

  class LayeredAudioSource {
    /** The AudioSource, None when constructed without one or without layers. */
    const audioSource: Option<ObjectId>
    var layers: seq<AudioLayer>
    var activeLayer: int
    /** What the layers have made the AudioSource do. */
    var output: SourceOutput

    /** Layers exist only with a source, and the active layer is -1 or one of them. */
    predicate Valid()
      reads this
    {
      (audioSource.None? ==> layers == []) && -1 <= activeLayer < |layers|
    }

    /** The constructor: `count` empty layers over `source`, or none at all. `output` is the
        AudioSource's state before any layer drives it. */
    constructor (source: Option<ObjectId>, count: int, output: SourceOutput)
      ensures source.Some? && count > 0 ==> audioSource == source && layers == seq(count, _ => EmptyLayer)
      ensures !(source.Some? && count > 0) ==> audioSource.None? && layers == []
      ensures activeLayer == -1 && this.output == output
      ensures Valid()
    {
      var ls: seq<AudioLayer> := [];
      if source.Some? && count > 0 {
        var i := 0;
        while i < count
          invariant 0 <= i <= count
          invariant ls == seq(i, _ => EmptyLayer)
        {
          ls := ls + [EmptyLayer];
          i := i + 1;
        }
        audioSource := source;
      } else {
        audioSource := Option.None;
      }
      layers := ls;
      activeLayer := -1;
      this.output := output;
    }

    /** Play: returns false for a layer index past the end. The source indexes the list
        unchecked, so a negative index is excluded. */
    method Play(collection: Option<ObjectId>, bank: int, layer: int, looping: bool) returns (ok: bool)
      requires 0 <= layer
      modifies this`layers
      ensures ok <==> layer < |old(layers)|
      ensures ok ==> layers == old(layers)[layer := PlayLayer(old(layers)[layer], collection, bank, looping)]
      ensures !ok ==> layers == old(layers)
    {
      if layer >= |layers| { return false; }
      var l := layers[layer];
      if l.collection == collection && l.bank == bank && l.looping == looping { return true; }
      layers := layers[layer := l.(collection := collection, bank := bank, looping := looping,
                                   time := 0.0, duration := 0.0, muted := false, clip := Option.None)];
      return true;
    }

    /** Stop: the layer plays its clip out and does not loop. */
    method Stop(layerIndex: int)
      requires 0 <= layerIndex
      modifies this`layers
      ensures layerIndex < |old(layers)| ==> layers == old(layers)[layerIndex := StopLayer(old(layers)[layerIndex])]
      ensures layerIndex >= |old(layers)| ==> layers == old(layers)
    {
      if layerIndex >= |layers| { return; }
      var l := layers[layerIndex];
      layers := layers[layerIndex := l.(looping := false, time := l.duration)];
    }

    /** Mute(int, bool). */
    method Mute(layerIndex: int, mute: bool)
      requires 0 <= layerIndex
      modifies this`layers
      ensures layerIndex < |old(layers)| ==> layers == old(layers)[layerIndex := old(layers)[layerIndex].(muted := mute)]
      ensures layerIndex >= |old(layers)| ==> layers == old(layers)
    {
      if layerIndex >= |layers| { return; }
      layers := layers[layerIndex := layers[layerIndex].(muted := mute)];
    }

    /** Mute(bool): every layer. */
    method MuteAll(mute: bool)
      modifies this`layers
      ensures |layers| == |old(layers)|
      ensures forall j :: 0 <= j < |layers| ==> layers[j] == old(layers)[j].(muted := mute)
    {
      var i := 0;
      while i < |layers|
        invariant 0 <= i <= |layers| == |old(layers)|
        invariant forall j :: 0 <= j < i ==> layers[j] == old(layers)[j].(muted := mute)
        invariant forall j :: i <= j < |layers| ==> layers[j] == old(layers)[j]
      {
        Mute(i, mute);
        i := i + 1;
      }
    }

    /** Update; `dt` is Time.deltaTime. Every layer ticks; the active layer becomes the
        highest live one, and the source is switched to it (or stopped when none is left)
        when it changed or restarted its clip. */
    method Update(dt: real, assets: Assets)
      requires Valid() && ClipsHaveLength(assets)
      modifies this`layers, this`activeLayer, this`output
      ensures Valid()
      ensures layers == Ticked(old(layers), dt, assets)
      ensures activeLayer == ActiveAmong(layers, 0)
      ensures activeLayer != -1 ==> Live(layers[activeLayer])
      ensures activeLayer == -1 && old(activeLayer) != -1 ==> output == old(output).(playing := false, clip := Option.None)
      ensures activeLayer == -1 && old(activeLayer) == -1 ==> output == old(output)
      ensures activeLayer != -1 && (activeLayer != old(activeLayer) || Renewed(old(layers)[activeLayer], dt)) ==>
        output == PlayingLayer(layers[activeLayer], assets)
      ensures activeLayer != -1 && activeLayer == old(activeLayer) && !Renewed(old(layers)[activeLayer], dt) ==>
        output == old(output).(volume := LayerVolume(layers[activeLayer], assets))
    {
      var newActiveLayer, refresh := TickLayers(dt, assets);
      ActiveAmongIsHighestLive(layers, 0);
      SwitchSource(newActiveLayer, refresh, assets);
    }

    /** The loop of Update: ticks every layer from the highest index down, finding the
        highest live layer and whether it restarted its clip. */
    method TickLayers(dt: real, assets: Assets) returns (newActiveLayer: int, refresh: bool)
      requires ClipsHaveLength(assets)
      modifies this`layers
      ensures layers == Ticked(old(layers), dt, assets)
      ensures newActiveLayer == ActiveAmong(layers, 0)
      ensures refresh <==> newActiveLayer != -1 && Renewed(old(layers)[newActiveLayer], dt)
    {
      ghost var after := Ticked(layers, dt, assets);
      newActiveLayer := -1;
      refresh := false;
      var i := |layers|;
      while i > 0
        invariant 0 <= i <= |layers| == |old(layers)|
        invariant forall j :: i <= j < |layers| ==> layers[j] == after[j]
        invariant forall j :: 0 <= j < i ==> layers[j] == old(layers)[j]
        invariant newActiveLayer == ActiveAmong(after, i)
        invariant refresh <==> newActiveLayer != -1 && Renewed(old(layers)[newActiveLayer], dt)
      {
        i := i - 1;
        var layer := layers[i];
        if layer.collection.None? {
          continue;
        }
        layer := layer.(time := layer.time + dt);
        if layer.time >= layer.duration {
          if layer.looping || layer.clip.None? {
            var clip := assets.pick(layer.collection.value, layer.bank);
            if Some(clip) == layer.clip {
              layer := layer.(time := FloatRem(layer.time, assets.length(clip)));
            } else {
              layer := layer.(time := 0.0);
            }
            layer := layer.(duration := assets.length(clip), clip := Some(clip));
            if newActiveLayer < i {
              newActiveLayer := i;
              refresh := true;
            }
          } else {
            layer := layer.(clip := Option.None, collection := Option.None, duration := 0.0, bank := 0,
                            looping := false, time := 0.0);
          }
        } else {
          if newActiveLayer < i {
            newActiveLayer := i;
          }
        }
        layers := layers[i := layer];
      }
      assert layers == after;
    }

    /** The tail of Update: switches the source to the new active layer (or stops it) when
        that changed or restarted, then applies the active layer's mute. */
    method SwitchSource(newActiveLayer: int, refresh: bool, assets: Assets)
      requires (audioSource.None? ==> layers == []) && -1 <= newActiveLayer < |layers|
      requires newActiveLayer != -1 ==> Live(layers[newActiveLayer])
      requires newActiveLayer == -1 ==> !refresh
      modifies this`activeLayer, this`output
      ensures activeLayer == newActiveLayer
      ensures newActiveLayer == -1 && old(activeLayer) != -1 ==> output == old(output).(playing := false, clip := Option.None)
      ensures newActiveLayer == -1 && old(activeLayer) == -1 ==> output == old(output)
      ensures newActiveLayer != -1 && (newActiveLayer != old(activeLayer) || refresh) ==>
        output == PlayingLayer(layers[newActiveLayer], assets)
      ensures newActiveLayer != -1 && newActiveLayer == old(activeLayer) && !refresh ==>
        output == old(output).(volume := LayerVolume(layers[newActiveLayer], assets))
    {
      if newActiveLayer != activeLayer || refresh {
        if newActiveLayer == -1 {
          output := output.(playing := false, clip := Option.None);
        } else {
          var l := layers[newActiveLayer];
          output := SourceOutput(l.clip, if l.muted then 0.0 else assets.volume(l.collection.value),
                                 assets.spatialBlend(l.collection.value), l.time, l.looping,
                                 assets.group(l.collection.value), true);
        }
      }
      activeLayer := newActiveLayer;
      if activeLayer != -1 && audioSource.Some? {
        var l := layers[activeLayer];
        output := output.(volume := if l.muted then 0.0 else assets.volume(l.collection.value));
      }
    }
  }
}
