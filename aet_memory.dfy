/**
 * The flattening pass of `Set::to_buf` (`src/aet.rs`): `SetMemory` and the allocation
 * routines `alloc_fcurve`, `alloc_item` and `alloc_comp` that copy an owned composition
 * into its arenas, sharing curves, videos, audios and comps found by linear scan.
 *
 * The source creates every arena with `Vec::with_capacity` from the counting pass and
 * keeps raw pointers into them, which stay valid only while no arena outgrows its
 * capacity. Each routine here bounds what it appends by what the counting pass counted
 * for the same part of the graph.
 */
module AetMemory {
  import opened Ints
  import opened Float32
  import opened Wrappers
  import opened AetGraph
  import opened AetCurves
  import opened AetCounts
  import opened AetRaw
  import opened AetArenas
  import opened AetScenes

  /** The record `aet_scene` is while its comps are being allocated: the counters `alloc_item` bumps. */
  class OutScene {
    var compCount: nat
    var videoCount: nat
    var audioCount: nat

    /** A scene starts with one comp (its root, pushed last) and no videos or audios. */
    constructor ()
      ensures compCount == 1 && videoCount == 0 && audioCount == 0
    {
      compCount, videoCount, audioCount := 1, 0, 0;
    }
  }

  /** `SetMemory`: one growable arena per record kind, the curve registry and the layer table. */
  class SetMemory {
    var audios: seq<RawAudio>
    var cameras: seq<RawCamera>
    var comps: seq<RawComp>
    /** The stored curves the dedup scan of `alloc_fcurve` looks through. */
    var fcurves: seq<RawFCurve>
    var keys: seq<F32>
    var layerAudios: seq<RawLayerAudio>
    var layers: seq<RawLayer>
    /** Each flattened layer's `Rc` identity with the address of its record. */
    var layerPtrs: seq<(LayerId, nat)>
    var video3ds: seq<RawLayerVideo3D>
    var layerVideos: seq<RawLayerVideo>
    var markers: seq<RawMarker>
    var names: seq<string>
    var scenes: seq<RawScene>
    var videos: seq<RawVideo>
    var videoSources: seq<RawVideoSource>

    function Value(): Arenas
      reads this
    {
      Arenas(audios, cameras, comps, keys, layerAudios, layers, video3ds, layerVideos,
             markers, names, scenes, videos, videoSources)
    }

    /** How many records of each kind the arenas hold. */
    function Used(): Counts
      reads this
    {
      Counts(|audios|, |cameras|, |comps|, |keys|, |layerAudios|, |layers|, |video3ds|,
             |layerVideos|, |markers|, |names|, |scenes|, |videos|, |videoSources|)
    }

    /** The float arena with the curve registry. */
    function Store(): CurveStore
      reads this
    {
      CurveStore(fcurves, keys)
    }

    predicate Valid()
      reads this
    {
      Linked(Value()) && StoreOk(Store()) &&
      |layerPtrs| == |layers| && (forall i :: 0 <= i < |layerPtrs| ==> layerPtrs[i].1 == i)
    }

    /** Every arena, the curve registry and the layer table, as values. */
    function Snap(): Snapshot
      reads this
    {
      Snapshot(Value(), fcurves, layerPtrs)
    }

    /** The scene's counters never run ahead of the arenas. */
    predicate Fits(scene: OutScene)
      reads this, scene
    {
      1 <= scene.compCount <= |comps| + 1 && scene.videoCount <= |videos| && scene.audioCount <= |audios|
    }

    /** Every arena empty, as `to_buf` creates them. */
    constructor ()
      ensures Valid() && Used() == NoCounts && fcurves == [] && layerPtrs == []
    {
      audios, cameras, comps, fcurves, keys := [], [], [], [], [];
      layerAudios, layers, layerPtrs, video3ds, layerVideos := [], [], [], [], [];
      markers, names, scenes, videos, videoSources := [], [], [], [], [];
    }

    /** `fcurve_eq` against the float arena. */
    method FCurveEq(f: FCurve, r: RawFCurve) returns (b: bool)
      requires InArena(r, |keys|)
      ensures b == CurveMatches(f, r, keys)
    {
      var n := |f.keys|;
      if n != r.keysCount {
        return false;
      }
      if n == 0 {
        return true;
      } else if n == 1 {
        return FEq(keys[r.keys.value], f.keys[0].value);
      }
      var p := r.keys.value;
      var i := 0;
      while i < n
        invariant i <= n
        invariant forall j :: 0 <= j < i ==>
          FEq(keys[p + j], f.keys[j].frame) &&
          FEq(keys[p + n + 2 * j], f.keys[j].value) &&
          FEq(keys[p + n + 2 * j + 1], f.keys[j].tangent)
      {
        if !FEq(keys[p + i], f.keys[i].frame) || !FEq(keys[p + n + 2 * i], f.keys[i].value)
           || !FEq(keys[p + n + 2 * i + 1], f.keys[i].tangent) {
          return false;
        }
        i := i + 1;
      }
      return true;
    }

    /** Appends the block of a curve with two or more keys: all frames, then each key's value and tangent. */
    method PushBlock(f: FCurve)
      requires |f.keys| >= 2
      modifies this`keys
      ensures keys == old(keys) + StoredBlock(f)
    {
      PushFrames(f.keys);
      PushPairs(f.keys);
      assert keys == old(keys) + Frames(f.keys) + Pairs(f.keys);
    }

    /** The frame of every key, in order. */
    method PushFrames(ks: seq<FCurveKey>)
      modifies this`keys
      ensures keys == old(keys) + Frames(ks)
    {
      ghost var base := keys;
      var i := 0;
      while i < |ks|
        invariant i <= |ks| && |keys| == |base| + i && keys[..|base|] == base
        invariant forall k :: 0 <= k < i ==> keys[|base| + k] == ks[k].frame
      {
        keys := keys + [ks[i].frame];
        i := i + 1;
      }
      assert keys == base + Frames(ks) by {
        assert keys[..|base|] == base;
        assert keys[|base|..] == Frames(ks);
      }
    }

    /** The value and tangent of every key, in order. */
    method PushPairs(ks: seq<FCurveKey>)
      modifies this`keys
      ensures keys == old(keys) + Pairs(ks)
    {
      ghost var base := keys;
      var i := 0;
      while i < |ks|
        invariant i <= |ks| && |keys| == |base| + 2 * i && keys[..|base|] == base
        invariant forall k :: 0 <= k < i ==>
          keys[|base| + 2 * k] == ks[k].value && keys[|base| + 2 * k + 1] == ks[k].tangent
      {
        keys := keys + [ks[i].value, ks[i].tangent];
        i := i + 1;
      }
      assert keys == base + Pairs(ks) by {
        assert keys[..|base|] == base;
        var ps := Pairs(ks);
        forall j | 0 <= j < |ps|
          ensures keys[|base| + j] == ps[j]
        {
          var k := j / 2;
          assert 0 <= k < |ks|;
          if j == 2 * k {
            assert ps[2 * k] == ks[k].value;
          } else {
            assert j == 2 * k + 1 && ps[2 * k + 1] == ks[k].tangent;
          }
        }
        assert keys[|base|..] == ps;
      }
    }

    /**
     * `alloc_fcurve`: a curve that stores nothing gets the empty record; otherwise the
     * first registered record `fcurve_eq` accepts lends its pointer; otherwise the curve's
     * block is appended and registered.
     */
    method AllocFCurve(f: FCurve) returns (out: RawFCurve)
      requires StoreOk(Store())
      modifies this`keys, this`fcurves
      ensures StoreOk(Store()) && InArena(out, |keys|)
      ensures old(keys) <= keys && old(fcurves) <= fcurves
      ensures |keys| <= |old(keys)| + KeyFloats(f)
      ensures (out, Store()) == AllocCurve(f, old(Store()))
    {
      if |f.keys| == 0 || (|f.keys| == 1 && FEq(f.keys[0].value, Zero)) {
        return EmptyRecord;
      }
      var i := 0;
      while i < |fcurves|
        modifies {}
        invariant i <= |fcurves|
        invariant FirstMatch(f, fcurves, keys, 0) == FirstMatch(f, fcurves, keys, i)
      {
        var eq := FCurveEq(f, fcurves[i]);
        if eq {
          return RawFCurve(|f.keys|, fcurves[i].keys);
        }
        i := i + 1;
      }
      out := RawFCurve(|f.keys|, Some(|keys|));
      if |f.keys| == 1 {
        keys := keys + [f.keys[0].value];
      } else {
        PushBlock(f);
      }
      fcurves := fcurves + [out];
      AllocCurveBounds(f, old(Store()));
    }

    /**
     * The curves of one block, allocated one after the other in declaration order, as the
     * struct literals of `alloc_comp` and `to_buf` do.
     */
    method AllocFCurves(fs: seq<FCurve>) returns (rs: seq<RawFCurve>)
      requires StoreOk(Store())
      modifies this`keys, this`fcurves
      ensures (rs, Store()) == AllocRun(fs, old(Store()))
      ensures StoreOk(Store()) && |rs| == |fs| && CurvesInArena(rs, |keys|)
      ensures old(keys) <= keys && old(fcurves) <= fcurves
      ensures |keys| <= |old(keys)| + SeqFloats(fs)
      ensures RunReadsBack(fs, rs, keys)
    {
      rs := AllocEach(fs);
      AllocRunReadsBack(fs, old(Store()));
    }

    /** The loop of `alloc_fcurve` calls behind `AllocFCurves`, one curve after the other. */
    method AllocEach(fs: seq<FCurve>) returns (rs: seq<RawFCurve>)
      requires StoreOk(Store())
      modifies this`keys, this`fcurves
      ensures (rs, Store()) == AllocRun(fs, old(Store()))
    {
      rs := [];
      var i := 0;
      while i < |fs|
        invariant i <= |fs| && StoreOk(Store())
        invariant (rs, Store()) == AllocRun(fs[..i], old(Store()))
      {
        assert fs[..i + 1][..i] == fs[..i];
        var r := AllocFCurve(fs[i]);
        rs := rs + [r];
        i := i + 1;
      }
      assert fs[..i] == fs;
    }

    /** The eight curves of a 3D block, as one new record. */
    method AllocVideo3D(d: LayerVideo3D) returns (addr: nat)
      requires Valid()
      modifies this`keys, this`fcurves, this`video3ds
      ensures Valid()
      ensures old(keys) <= keys && old(fcurves) <= fcurves
      ensures |keys| <= |old(keys)| + Video3DFloats(d)
      ensures addr == |old(video3ds)| && |video3ds| == addr + 1 && video3ds[..addr] == old(video3ds)
      ensures RunReadsBack(Video3DCurves(d), RawVideo3DCurves(video3ds[addr]), keys)
    {
      ghost var a := Value();
      var rs := AllocFCurves(Video3DCurves(d));
      KeysGrow(a, Value());
      var r := RawVideo3DFrom(rs);
      ghost var b := Value();
      addr := |video3ds|;
      video3ds := video3ds + [r];
      PushVideo3D(b, r);
    }

    /** A layer's video block: its 3D block first, then its own eight curves. */
    method AllocLayerVideo(v: LayerVideo) returns (addr: nat)
      requires Valid()
      modifies this`keys, this`fcurves, this`video3ds, this`layerVideos
      ensures Valid()
      ensures old(keys) <= keys && old(fcurves) <= fcurves && old(video3ds) <= video3ds
      ensures |keys| <= |old(keys)| + LayerVideoCounts(v).fcurveKey
      ensures |video3ds| == |old(video3ds)| + LayerVideoCounts(v).layerVideo3d
      ensures addr == |old(layerVideos)| && |layerVideos| == addr + 1 && layerVideos[..addr] == old(layerVideos)
      ensures layerVideos[addr].transferMode == v.transferMode
      ensures RunReadsBack(VideoCurves(v), RawVideoCurves(layerVideos[addr]), keys)
      ensures layerVideos[addr].threeD.Some? == v.threeD.Some?
      ensures v.threeD.Some? ==>
        layerVideos[addr].threeD.value == |old(video3ds)| &&
        RunReadsBack(Video3DCurves(v.threeD.value), RawVideo3DCurves(video3ds[|old(video3ds)|]), keys)
    {
      if v.threeD.Some? {
        var d := AllocVideo3D(v.threeD.value);
        ghost var keys3d := keys;
        addr := AllocVideoBlock(v, Some(d));
        RunReadsBackGrows(Video3DCurves(v.threeD.value), RawVideo3DCurves(video3ds[d]), keys3d, keys);
      } else {
        addr := AllocVideoBlock(v, None);
      }
    }

    /** The eight curves of a video block and its record, pointing at its 3D block if any. */
    method AllocVideoBlock(v: LayerVideo, threeD: Option<nat>) returns (addr: nat)
      requires Valid() && (threeD.Some? ==> threeD.value < |video3ds|)
      modifies this`keys, this`fcurves, this`layerVideos
      ensures Valid()
      ensures old(keys) <= keys && old(fcurves) <= fcurves
      ensures |keys| <= |old(keys)| + VideoFloats(v)
      ensures addr == |old(layerVideos)| && |layerVideos| == addr + 1 && layerVideos[..addr] == old(layerVideos)
      ensures layerVideos[addr].transferMode == v.transferMode && layerVideos[addr].threeD == threeD
      ensures RunReadsBack(VideoCurves(v), RawVideoCurves(layerVideos[addr]), keys)
    {
      ghost var a := Value();
      var rs := AllocFCurves(VideoCurves(v));
      KeysGrow(a, Value());
      var r := RawVideoFrom(v.transferMode, rs, threeD);
      ghost var b := Value();
      addr := |layerVideos|;
      layerVideos := layerVideos + [r];
      PushLayerVideo(b, r);
    }

    /** A layer's audio block: its four curves. */
    method AllocLayerAudio(au: LayerAudio) returns (addr: nat)
      requires Valid()
      modifies this`keys, this`fcurves, this`layerAudios
      ensures Valid()
      ensures old(keys) <= keys && old(fcurves) <= fcurves
      ensures |keys| <= |old(keys)| + AudioFloats(au)
      ensures addr == |old(layerAudios)| && |layerAudios| == addr + 1 && layerAudios[..addr] == old(layerAudios)
      ensures RunReadsBack(AudioCurves(au), RawAudioCurves(layerAudios[addr]), keys)
    {
      ghost var a := Value();
      var rs := AllocFCurves(AudioCurves(au));
      KeysGrow(a, Value());
      var r := RawAudioFrom(rs);
      ghost var b := Value();
      addr := |layerAudios|;
      layerAudios := layerAudios + [r];
      PushLayerAudio(b, r);
    }

    /** The thirteen camera curves of a scene. */
    method AllocCamera(c: Camera) returns (addr: nat)
      requires Valid()
      modifies this`keys, this`fcurves, this`cameras
      ensures Valid()
      ensures old(keys) <= keys && old(fcurves) <= fcurves
      ensures |keys| <= |old(keys)| + CameraFloats(c)
      ensures addr == |old(cameras)| && |cameras| == addr + 1 && cameras[..addr] == old(cameras)
      ensures RunReadsBack(CameraCurves(c), RawCameraCurves(cameras[addr]), keys)
    {
      ghost var a := Value();
      var rs := AllocFCurves(CameraCurves(c));
      KeysGrow(a, Value());
      var r := RawCameraFrom(rs);
      ghost var b := Value();
      addr := |cameras|;
      cameras := cameras + [r];
      PushCamera(b, r);
    }

    /** `names.push_mut(CString::new(s).unwrap_or_default())`. */
    method PushName(s: string) returns (addr: nat)
      requires Valid()
      modifies this`names
      ensures Valid()
      ensures addr == |old(names)| && names == old(names) + [CName(s)]
    {
      addr := |names|;
      names := names + [CName(s)];
    }

    /** A layer's markers and their names; null when it has none. */
    method PushMarkers(ms: seq<Marker>) returns (addr: Option<nat>)
      requires Valid()
      modifies this`names, this`markers
      ensures Valid()
      ensures old(names) <= names && old(markers) <= markers
      ensures |names| == |old(names)| + |ms| && |markers| == |old(markers)| + |ms|
      ensures ms == [] <==> addr.None?
      ensures addr.Some? ==> addr.value == |old(markers)|
      ensures forall j :: 0 <= j < |ms| ==>
        markers[|old(markers)| + j] == RawMarker(ms[j].time, |old(names)| + j) &&
        names[|old(names)| + j] == CName(ms[j].name)
      ensures MarkersStored(ms, addr, Value())
    {
      if ms == [] {
        return None;
      }
      addr := Some(|markers|);
      var i := 0;
      while i < |ms|
        invariant i <= |ms| && Valid()
        invariant old(names) <= names && old(markers) <= markers
        invariant |names| == |old(names)| + i && |markers| == |old(markers)| + i
        invariant forall j :: 0 <= j < i ==>
          markers[|old(markers)| + j] == RawMarker(ms[j].time, |old(names)| + j) &&
          names[|old(names)| + j] == CName(ms[j].name)
      {
        var name := PushName(ms[i].name);
        markers := markers + [RawMarker(ms[i].time, name)];
        i := i + 1;
      }
    }

    /**
     * The body of `alloc_comp`'s first loop for one layer: its name, its markers, its
     * video and audio blocks, then the layer record with no item yet and the parent's
     * `Rc` identity, and the (identity, address) entry of `layer_ptrs`.
     */
    method AllocLayer(l: Layer) returns (addr: nat)
      requires Valid()
      modifies this`names, this`markers, this`keys, this`fcurves, this`video3ds,
               this`layerVideos, this`layerAudios, this`layers, this`layerPtrs
      ensures Valid() && Grew(old(Snap()), Snap())
      ensures addr == |old(layers)| && |layers| == addr + 1 && layers[..addr] == old(layers)
      ensures LayerStored(layers[addr], l, Value())
      ensures layers[addr].itemType == 0 && layers[addr].item == None
      ensures layerPtrs == old(layerPtrs) + [(l.id, addr)]
      ensures Le(Used(), Plus(old(Used()), LayerOwnCounts(l)))
    {
      ghost var u0 := Used();
      var r := AllocLayerRecord(l);
      ghost var a := Value();
      addr := |layers|;
      layers := layers + [r];
      layerPtrs := layerPtrs + [(l.id, addr)];
      PushLayer(a, r);
      LayerStoredGrows(r, r, l, a, Value());
      OwnCountsBound(u0, Used(), l);
    }

    /** Everything a layer record points at, and the record itself (not yet pushed). */
    method AllocLayerRecord(l: Layer) returns (r: RawLayer)
      requires Valid()
      modifies this`names, this`markers, this`keys, this`fcurves, this`video3ds,
               this`layerVideos, this`layerAudios
      ensures Valid() && LayerOk(r, Value()) && LayerStored(r, l, Value())
      ensures r.itemType == 0 && r.item == None
      ensures old(names) <= names && old(markers) <= markers && old(keys) <= keys &&
        old(fcurves) <= fcurves && old(video3ds) <= video3ds && old(layerVideos) <= layerVideos &&
        old(layerAudios) <= layerAudios
      ensures |names| == |old(names)| + 1 + |l.markers| && |markers| == |old(markers)| + |l.markers|
      ensures |keys| <= |old(keys)| + LayerOwnCounts(l).fcurveKey
      ensures |video3ds| == |old(video3ds)| + LayerOwnCounts(l).layerVideo3d
      ensures |layerVideos| == |old(layerVideos)| + LayerOwnCounts(l).layerVideo
      ensures |layerAudios| == |old(layerAudios)| + LayerOwnCounts(l).layerAudio
    {
      var name := PushName(l.name);
      var ms := PushMarkers(l.markers);
      ghost var a := Value();
      var video, audio := AllocLayerBlocks(l);
      MarkersStoredGrows(l.markers, ms, a, Value());
      r := RawLayer(name, l.startTime, l.endTime, l.offsetTime, l.timeScale, l.flags, l.quality,
                    0, None, ParentField(l.parent), |l.markers|, ms, video, audio);
    }

    /** A layer's video block and audio block, each when it has one. */
    method AllocLayerBlocks(l: Layer) returns (video: Option<nat>, audio: Option<nat>)
      requires Valid()
      modifies this`keys, this`fcurves, this`video3ds, this`layerVideos, this`layerAudios
      ensures Valid()
      ensures old(keys) <= keys && old(fcurves) <= fcurves && old(video3ds) <= video3ds &&
        old(layerVideos) <= layerVideos && old(layerAudios) <= layerAudios
      ensures |keys| <= |old(keys)| + LayerOwnCounts(l).fcurveKey
      ensures |video3ds| == |old(video3ds)| + LayerOwnCounts(l).layerVideo3d
      ensures |layerVideos| == |old(layerVideos)| + LayerOwnCounts(l).layerVideo
      ensures |layerAudios| == |old(layerAudios)| + LayerOwnCounts(l).layerAudio
      ensures video.Some? == l.video.Some? && audio.Some? == l.audio.Some?
      ensures video.Some? ==> video.value == |old(layerVideos)| && VideoBlockStored(l.video.value, video.value, Value())
      ensures audio.Some? ==> audio.value == |old(layerAudios)| && AudioBlockStored(l.audio.value, audio.value, Value())
    {
      video, audio := None, None;
      if l.video.Some? {
        var v := AllocLayerVideo(l.video.value);
        video := Some(v);
      }
      ghost var a := Value();
      if l.audio.Some? {
        var au := AllocLayerAudio(l.audio.value);
        audio := Some(au);
      }
      if l.video.Some? {
        VideoBlockStoredGrows(l.video.value, video.value, a, Value());
      }
    }

    /** The video scan of `alloc_item` over arena indices `0 .. count`. */
    method ScanVideos(v: Video, count: nat) returns (m: Option<nat>)
      requires Valid() && count <= |videos|
      ensures m == FirstVideo(v, Value(), count, 0)
    {
      var i := 0;
      while i < count
        invariant i <= count
        invariant FirstVideo(v, Value(), count, 0) == FirstVideo(v, Value(), count, i)
      {
        var r := videos[i];
        if r.color == v.color && r.width == v.width && r.height == v.height && FEq(r.fpf, v.fpf)
           && r.sourcesCount == |v.sources| {
          var j := 0;
          while j < r.sourcesCount && names[videoSources[r.sources + j].spriteName] == v.sources[j].name
                && videoSources[r.sources + j].spriteIndex == v.sources[j].id
            invariant j <= r.sourcesCount
            invariant forall k :: 0 <= k < j ==>
              names[videoSources[r.sources + k].spriteName] == v.sources[k].name &&
              videoSources[r.sources + k].spriteIndex == v.sources[k].id
          {
            j := j + 1;
          }
          if j == r.sourcesCount {
            return Some(i);
          }
        }
        i := i + 1;
      }
      return None;
    }

    /** The audio scan of `alloc_item` over arena indices `0 .. count`. */
    method ScanAudios(au: Audio, count: nat) returns (m: Option<nat>)
      requires count <= |audios|
      ensures m == FirstAudio(au, audios, count, 0)
    {
      var i := 0;
      while i < count
        invariant i <= count
        invariant FirstAudio(au, audios, count, 0) == FirstAudio(au, audios, count, i)
      {
        if audios[i].soundIndex == au.soundIndex {
          return Some(i);
        }
        i := i + 1;
      }
      return None;
    }

    /** The comp scan of `alloc_item` over arena indices `0 .. count`. */
    method ScanComps(c: Composition, count: nat) returns (m: Option<nat>)
      requires Valid() && count <= |comps|
      ensures m == FirstComp(c, Value(), count, 0)
    {
      var i := 0;
      while i < count
        invariant i <= count
        invariant FirstComp(c, Value(), count, 0) == FirstComp(c, Value(), count, i)
      {
        var r := comps[i];
        if r.layersCount == |c.layers| {
          var j := 0;
          while j < |c.layers| && LayerMatches(c.layers[j], layers[r.layers + j], Value())
            invariant j <= |c.layers|
            invariant forall k :: 0 <= k < j ==> LayerMatches(c.layers[k], layers[r.layers + k], Value())
          {
            j := j + 1;
          }
          if j == |c.layers| {
            return Some(i);
          }
        }
        i := i + 1;
      }
      return None;
    }

    /**
     * The audio branch of `alloc_item`: the first of the scene's `audio_count` records with
     * the same sound index, or else a new record, counted by the scene.
     */
    method AllocAudioItem(au: Audio, scene: OutScene) returns (ptr: nat)
      requires Valid() && Fits(scene)
      modifies this`audios, scene`audioCount
      ensures Valid() && Fits(scene) && Grew(old(Snap()), Snap())
      ensures |comps| - scene.compCount == old(|comps| - scene.compCount)
      ensures |videos| - scene.videoCount == old(|videos| - scene.videoCount)
      ensures |audios| - scene.audioCount == old(|audios| - scene.audioCount)
      ensures Le(Used(), Plus(old(Used()), ItemCounts(AudioItem(au))))
      ensures old(audios) <= audios && ptr < |audios| && audios[ptr].soundIndex == au.soundIndex
      ensures match FirstAudio(au, old(audios), old(scene.audioCount), 0)
        case Some(i) => ptr == i && audios == old(audios) && scene.audioCount == old(scene.audioCount)
        case None =>
          ptr == |old(audios)| && audios == old(audios) + [RawAudio(au.soundIndex)] &&
          scene.audioCount == old(scene.audioCount) + 1
    {
      var m := ScanAudios(au, scene.audioCount);
      if m.Some? {
        LeSelf(Used(), ItemCounts(AudioItem(au)));
        return m.value;
      }
      scene.audioCount := scene.audioCount + 1;
      ghost var a := Value();
      ptr := |audios|;
      audios := audios + [RawAudio(au.soundIndex)];
      PushAudio(a, RawAudio(au.soundIndex));
    }

    /**
     * The video branch of `alloc_item`: the first of the scene's `video_count` records
     * the scan accepts, or else a new record whose sources (and their names) are appended
     * as one run, counted by the scene.
     */
    method AllocVideoItem(v: Video, scene: OutScene) returns (ptr: nat)
      requires Valid() && Fits(scene)
      modifies this`videos, this`videoSources, this`names, scene`videoCount
      ensures Valid() && Fits(scene) && Grew(old(Snap()), Snap())
      ensures |comps| - scene.compCount == old(|comps| - scene.compCount)
      ensures |videos| - scene.videoCount == old(|videos| - scene.videoCount)
      ensures |audios| - scene.audioCount == old(|audios| - scene.audioCount)
      ensures Le(Used(), Plus(old(Used()), ItemCounts(VideoItem(v))))
      ensures old(videos) <= videos && old(videoSources) <= videoSources && old(names) <= names
      ensures ptr < |videos| && VideoHeld(v, videos[ptr], Value())
      ensures match FirstVideo(v, old(Value()), old(scene.videoCount), 0)
        case Some(i) =>
          ptr == i && videos == old(videos) && videoSources == old(videoSources) &&
          names == old(names) && scene.videoCount == old(scene.videoCount)
        case None =>
          ptr == |old(videos)| && |videos| == ptr + 1 && StoresVideo(videos[ptr], v, Value()) &&
          videos[ptr].sources == |old(videoSources)| &&
          |videoSources| == |old(videoSources)| + |v.sources| && |names| == |old(names)| + |v.sources| &&
          scene.videoCount == old(scene.videoCount) + 1
    {
      var m := ScanVideos(v, scene.videoCount);
      if m.Some? {
        LeSelf(Used(), ItemCounts(VideoItem(v)));
        MatchedVideoHeld(v, videos[m.value], Value());
        return m.value;
      }
      scene.videoCount := scene.videoCount + 1;
      var sources := PushSources(v);
      var r := RawVideo(v.color, v.width, v.height, v.fpf, |v.sources|, sources);
      ghost var a := Value();
      ptr := |videos|;
      videos := videos + [r];
      PushVideo(a, r);
      StoredVideoHeld(v, r, Value());
    }

    /** The sources of a new video record, each with its sprite name, appended as one run. */
    method PushSources(v: Video) returns (sources: nat)
      requires Valid()
      modifies this`videoSources, this`names
      ensures Valid() && sources == |old(videoSources)|
      ensures old(videoSources) <= videoSources && old(names) <= names
      ensures |videoSources| == sources + |v.sources| && |names| == |old(names)| + |v.sources|
      ensures forall k :: 0 <= k < |v.sources| ==>
        videoSources[sources + k] == RawVideoSource(|old(names)| + k, v.sources[k].id) &&
        names[|old(names)| + k] == CName(v.sources[k].name)
    {
      sources := |videoSources|;
      var i := 0;
      while i < |v.sources|
        invariant i <= |v.sources| && Valid()
        invariant old(videoSources) <= videoSources && old(names) <= names
        invariant |videoSources| == sources + i && |names| == |old(names)| + i
        invariant forall k :: 0 <= k < i ==>
          videoSources[sources + k] == RawVideoSource(|old(names)| + k, v.sources[k].id) &&
          names[|old(names)| + k] == CName(v.sources[k].name)
      {
        var name := PushName(v.sources[i].name);
        ghost var a := Value();
        videoSources := videoSources + [RawVideoSource(name, v.sources[i].id)];
        PushVideoSource(a, RawVideoSource(name, v.sources[i].id));
        i := i + 1;
      }
    }

    /**
     * `alloc_item`: no pointer for no item, otherwise the record the scan of its kind
     * finds or a new one; the code says which kind.
     */
    method AllocItem(item: Item, scene: OutScene) returns (itemType: byte, ptr: Option<nat>)
      requires Valid() && Fits(scene)
      modifies this, scene
      decreases item, 4
      ensures Valid() && Fits(scene) && Grew(old(Snap()), Snap())
      ensures |comps| - scene.compCount == old(|comps| - scene.compCount)
      ensures |videos| - scene.videoCount == old(|videos| - scene.videoCount)
      ensures |audios| - scene.audioCount == old(|audios| - scene.audioCount)
      ensures ItemOk(itemType, ptr, Value()) && ItemStored(item, itemType, ptr, Snap(), |old(layers)|)
      ensures Le(Used(), Plus(old(Used()), ItemCounts(item)))
    {
      match item
      case NoItem =>
        PlusZero(Used());
        return 0, None;
      case VideoItem(v) =>
        var p := AllocVideoItem(v, scene);
        return 1, Some(p);
      case AudioItem(au) =>
        var p := AllocAudioItem(au, scene);
        return 2, Some(p);
      case CompItem(c) =>
        var p := AllocCompItem(c, scene);
        return 3, Some(p);
    }

    /** Writes an item code and pointer into the layer record at `k`, through the saved pointer. */
    method Patch(k: nat, itemType: byte, item: Option<nat>)
      requires Valid() && k < |layers| && ItemOk(itemType, item, Value())
      modifies this`layers
      ensures Valid() && Used() == old(Used())
      ensures layers == old(layers)[k := old(layers)[k].(itemType := itemType, item := item)]
      ensures Snap() == old(Snap()).(arenas := old(Snap()).arenas.(layers := layers))
    {
      ghost var a := Value();
      layers := layers[k := layers[k].(itemType := itemType, item := item)];
      PatchItem(a, k, itemType, item);
    }

    /**
     * The composition branch of `alloc_item`: the first of the scene's earlier comps
     * (indices `0 .. comp_count - 1`) whose layers all pass `layer_eq`, or else the comp
     * flattened by `alloc_comp` and appended, counted by the scene.
     */
    method AllocCompItem(c: Composition, scene: OutScene) returns (ptr: nat)
      requires Valid() && Fits(scene)
      modifies this, scene
      decreases c, 4
      ensures Valid() && Fits(scene) && Grew(old(Snap()), Snap())
      ensures |comps| - scene.compCount == old(|comps| - scene.compCount)
      ensures |videos| - scene.videoCount == old(|videos| - scene.videoCount)
      ensures |audios| - scene.audioCount == old(|audios| - scene.audioCount)
      ensures ptr < |comps| && CompHeld(c, comps[ptr], Snap(), |old(layers)|)
      ensures Le(Used(), Plus(old(Used()), CompCounts(c)))
      ensures match FirstComp(c, old(Value()), old(scene.compCount) - 1, 0)
        case Some(i) =>
          ptr == i && Snap() == old(Snap()) && scene.compCount == old(scene.compCount)
        case None =>
          ptr == |comps| - 1 && comps[ptr] == RawComp(|c.layers|, |old(layers)|) &&
          RunStored(Snap(), c, |old(layers)|, |c.layers|, |c.layers|)
    {
      var m := ScanComps(c, scene.compCount - 1);
      if m.Some? {
        LeSelf(Used(), CompCounts(c));
        assert CompMatches(c, comps[m.value], Value());
        return m.value;
      }
      ptr := AllocNewComp(c, scene);
    }

    /** The miss branch of the comp case: the comp flattened by `alloc_comp`, then its record appended. */
    method AllocNewComp(c: Composition, scene: OutScene) returns (ptr: nat)
      requires Valid() && Fits(scene)
      modifies this, scene
      decreases c, 3
      ensures Valid() && Fits(scene) && Grew(old(Snap()), Snap())
      ensures |comps| - scene.compCount == old(|comps| - scene.compCount)
      ensures |videos| - scene.videoCount == old(|videos| - scene.videoCount)
      ensures |audios| - scene.audioCount == old(|audios| - scene.audioCount)
      ensures Le(Used(), Plus(old(Used()), CompCounts(c)))
      ensures ptr == |comps| - 1 && comps[ptr] == RawComp(|c.layers|, |old(layers)|) &&
        RunStored(Snap(), c, |old(layers)|, |c.layers|, |c.layers|)
    {
      var out := AllocComp(c, scene);
      scene.compCount := scene.compCount + 1;
      ghost var a, u1, s1 := Value(), Used(), Snap();
      ptr := |comps|;
      comps := comps + [out];
      PushComp(a, out);
      CompPushBound(old(Used()), u1, Used(), LayersCounts(c, |c.layers|));
      GrewFrame(s1, Snap(), 0);
      RunStoredFrame(s1, Snap(), c, out.layers, |c.layers|, |c.layers|, 0);
    }

    /**
     * `alloc_comp`: the layers of `c` are stored first, as one run starting at the end of
     * the layer arena, and only then are their items allocated and patched into the run.
     */
    method AllocComp(c: Composition, scene: OutScene) returns (out: RawComp)
      requires Valid() && Fits(scene)
      modifies this, scene
      decreases c, 2
      ensures Valid() && Fits(scene) && Grew(old(Snap()), Snap())
      ensures |comps| - scene.compCount == old(|comps| - scene.compCount)
      ensures |videos| - scene.videoCount == old(|videos| - scene.videoCount)
      ensures |audios| - scene.audioCount == old(|audios| - scene.audioCount)
      ensures out == RawComp(|c.layers|, |old(layers)|)
      ensures RunStored(Snap(), c, out.layers, |c.layers|, |c.layers|)
      ensures Le(Used(), Plus(old(Used()), LayersCounts(c, |c.layers|)))
    {
      ghost var s0, u0 := Snap(), Used();
      var start := StoreLayers(c);
      out := RawComp(|c.layers|, start);
      ghost var s1, u1 := Snap(), Used();
      AllocItems(c, start, scene);
      assert s0.arenas.keys <= s1.arenas.keys;
      GrewThenAbove(s0, s1, Snap());
      LeTrans(u0, u1, Used(), LayersOwnCounts(c, |c.layers|), LayersItemCounts(c, |c.layers|));
      LayersCountsSplit(c, |c.layers|);
    }

    /** The first loop of `alloc_comp`: every layer of `c` stored, in order, with no item yet. */
    method StoreLayers(c: Composition) returns (start: nat)
      requires Valid()
      modifies this`names, this`markers, this`keys, this`fcurves, this`video3ds,
               this`layerVideos, this`layerAudios, this`layers, this`layerPtrs
      ensures start == |old(layers)| && Storing(old(Snap()), old(Used()), c, start, |c.layers|)
    {
      ghost var s0, u0 := Snap(), Used();
      start := |layers|;
      var i := 0;
      StoringStart(s0, u0, c, start);
      while i < |c.layers|
        invariant i <= |c.layers| && Storing(s0, u0, c, start, i)
      {
        StoreLayerAt(s0, u0, c, start, i);
        i := i + 1;
      }
    }

    /** Before the loop no layer is stored, and nothing is used. */
    lemma StoringStart(s0: Snapshot, u0: Counts, c: Composition, start: nat)
      requires Valid() && s0 == Snap() && u0 == Used() && start == |layers|
      ensures Storing(s0, u0, c, start, 0)
    {
      PlusZero(u0);
    }

    /** The invariant of that loop: the first `i` layers of `c` stored from `start`. */
    predicate Storing(s0: Snapshot, u0: Counts, c: Composition, start: nat, i: nat)
      reads this
    {
      Valid() && StoringRun(s0, u0, c, start, i, Snap(), Used())
    }

    /** One step of that loop: layer `i` of `c` appended to the run. */
    method StoreLayerAt(ghost s0: Snapshot, ghost u0: Counts, c: Composition, start: nat, i: nat)
      requires i < |c.layers| && Storing(s0, u0, c, start, i)
      modifies this`names, this`markers, this`keys, this`fcurves, this`video3ds,
               this`layerVideos, this`layerAudios, this`layers, this`layerPtrs
      ensures Storing(s0, u0, c, start, i + 1)
    {
      ghost var sb, ub := Snap(), Used();
      var addr := AllocLayer(c.layers[i]);
      RunStoredExtend(sb, Snap(), c, start, i);
      GrewTrans(s0, sb, Snap());
      OwnStep(u0, ub, Used(), c, i);
    }

    /** The second loop of `alloc_comp`: each stored layer gets its item's code and pointer. */
    method AllocItems(c: Composition, start: nat, scene: OutScene)
      requires Valid() && Fits(scene)
      requires RunStored(Snap(), c, start, |c.layers|, 0)
      modifies this, scene
      decreases c, 1
      ensures Valid() && Fits(scene) && GrewAbove(old(Snap()), Snap(), start)
      ensures |comps| - scene.compCount == old(|comps| - scene.compCount)
      ensures |videos| - scene.videoCount == old(|videos| - scene.videoCount)
      ensures |audios| - scene.audioCount == old(|audios| - scene.audioCount)
      ensures RunStored(Snap(), c, start, |c.layers|, |c.layers|)
      ensures Le(Used(), Plus(old(Used()), LayersItemCounts(c, |c.layers|)))
    {
      ghost var s0, u0 := Snap(), Used();
      ghost var o0 := (|comps| - scene.compCount, |videos| - scene.videoCount, |audios| - scene.audioCount);
      var i := 0;
      PatchingStart(s0, u0, o0, c, start, scene);
      while i < |c.layers|
        invariant i <= |c.layers| && Patching(s0, u0, o0, c, start, i, scene)
      {
        AllocItemAt(s0, u0, o0, c, start, i, scene);
        i := i + 1;
      }
      PatchingDone(s0, u0, o0, c, start, scene);
    }

    /** After the loop every item is patched in. */
    lemma PatchingDone(s0: Snapshot, u0: Counts, o0: (int, int, int), c: Composition, start: nat, scene: OutScene)
      requires Patching(s0, u0, o0, c, start, |c.layers|, scene)
      ensures Valid() && Fits(scene) && GrewAbove(s0, Snap(), start)
      ensures |comps| - scene.compCount == o0.0 && |videos| - scene.videoCount == o0.1 &&
        |audios| - scene.audioCount == o0.2
      ensures RunStored(Snap(), c, start, |c.layers|, |c.layers|)
      ensures Le(Used(), Plus(u0, LayersItemCounts(c, |c.layers|)))
    {
    }

    /** Before the loop no item is patched in, and nothing is used. */
    lemma PatchingStart(s0: Snapshot, u0: Counts, o0: (int, int, int), c: Composition, start: nat, scene: OutScene)
      requires Valid() && Fits(scene) && RunStored(Snap(), c, start, |c.layers|, 0)
      requires s0 == Snap() && u0 == Used()
      requires o0 == (|comps| - scene.compCount, |videos| - scene.videoCount, |audios| - scene.audioCount)
      ensures Patching(s0, u0, o0, c, start, 0, scene)
    {
      PlusZero(u0);
      GrewAboveSelf(s0, start);
    }

    /** The invariant of that loop: the items of the first `i` layers of the run patched in. */
    predicate Patching(s0: Snapshot, u0: Counts, o0: (int, int, int), c: Composition, start: nat, i: nat,
                       scene: OutScene)
      reads this, scene
    {
      Valid() && Fits(scene) && PatchedUpTo(s0, u0, c, start, i, Snap(), Used()) &&
      |comps| - scene.compCount == o0.0 && |videos| - scene.videoCount == o0.1 &&
      |audios| - scene.audioCount == o0.2
    }

    /** One step of that loop: allocate the item of layer `i` and patch it into its record. */
    method AllocItemAt(ghost s0: Snapshot, ghost u0: Counts, ghost o0: (int, int, int),
                       c: Composition, start: nat, i: nat, scene: OutScene)
      requires i < |c.layers| && Patching(s0, u0, o0, c, start, i, scene)
      modifies this, scene
      decreases c, 0
      ensures Patching(s0, u0, o0, c, start, i + 1, scene)
    {
      ghost var sb, ub := Snap(), Used();
      var itemType, item := AllocItem(c.layers[i].item, scene);
      ghost var sc, uc := Snap(), Used();
      PatchedGrows(s0, u0, c, start, i, sb, ub, sc, uc);
      Patch(start + i, itemType, item);
      ghost var sd := Snap();
      PatchStep(s0, u0, c, start, i, sc, uc, itemType, item, |sb.arenas.layers|, sd);
    }

    /** The scene's name, then its camera when it has one. */
    method AllocSceneHead(sc: Scene) returns (name: nat, camera: Option<nat>)
      requires Valid()
      modifies this`names, this`keys, this`fcurves, this`cameras
      ensures Valid() && Grew(old(Snap()), Snap()) && HeadStored(name, camera, sc, Snap())
      ensures Used().scene == old(Used()).scene && Le(Used(), Plus(old(Used()), HeadCounts(sc)))
    {
      name := PushName(sc.name);
      camera := AllocSceneCamera(sc);
      HeadBound(sc, old(Used()), Used());
    }

    /** A scene's camera record when it has a camera, and null otherwise. */
    method AllocSceneCamera(sc: Scene) returns (camera: Option<nat>)
      requires Valid()
      modifies this`keys, this`fcurves, this`cameras
      ensures Valid() && old(keys) <= keys && old(fcurves) <= fcurves && old(cameras) <= cameras
      ensures camera.Some? == sc.camera.Some?
      ensures camera.Some? ==>
        camera.value < |cameras| &&
        RunReadsBack(CameraCurves(sc.camera.value), RawCameraCurves(cameras[camera.value]), keys)
      ensures |cameras| == |old(cameras)| + (if sc.camera.Some? then 1 else 0)
      ensures |keys| <= |old(keys)| + (if sc.camera.Some? then CameraFloats(sc.camera.value) else 0)
    {
      camera := None;
      if sc.camera.Some? {
        var addr := AllocCamera(sc.camera.value);
        camera := Some(addr);
      }
    }

    /**
     * The body of the second loop of `to_buf` for one scene: its name and camera, then
     * the rest of the scene.
     */
    method AllocScene(sc: Scene)
      requires Valid()
      modifies this
      ensures Valid() && Grew(old(Snap()), Snap())
      ensures |scenes| == |old(scenes)| + 1 && SceneStored(scenes[|old(scenes)|], sc, Snap())
      ensures Le(Used(), Plus(old(Used()), SceneCounts(sc)))
    {
      ghost var s0, u0 := Snap(), Used();
      var name, camera := AllocSceneHead(sc);
      ghost var s1, u1 := Snap(), Used();
      var r := AllocSceneBody(sc, name, camera);
      GrewTrans(s0, s1, Snap());
      SceneBound(sc, u0, u1, Used());
    }

    /**
     * A scene record that starts with one comp and points at the ends of the comp, video
     * and audio arenas; the root flattened by `alloc_comp`; null video and audio pointers
     * when the scene added none; then the root comp record, after every comp it nests,
     * and the scene record.
     */
    method AllocSceneBody(sc: Scene, name: nat, camera: Option<nat>) returns (r: RawScene)
      requires Valid() && HeadStored(name, camera, sc, Snap())
      modifies this
      ensures Valid() && Grew(old(Snap()), Snap())
      ensures scenes == old(scenes) + [r] && SceneStored(r, sc, Snap())
      ensures Le(Used(), Plus(old(Used()), BodyCounts(sc)))
    {
      ghost var s1, u1 := Snap(), Used();
      var c0, v0, a0 := |comps|, |videos|, |audios|;
      var root, compCount, videoCount, audioCount := AllocRoot(sc.root);
      ghost var s2, u2 := Snap(), Used();
      var video: Option<nat> := if videoCount == 0 then None else Some(v0);
      var audio: Option<nat> := if audioCount == 0 then None else Some(a0);
      r := RawScene(name, sc.startTime, sc.endTime, sc.fps, sc.color, sc.width, sc.height, camera,
                        compCount, Some(c0), videoCount, video, audioCount, audio);
      PushScene(root, r);
      HeadStoredGrows(name, camera, sc, s1, s2);
      SceneClose(sc, r, root, s2, Snap());
      GrewTrans(s1, s2, Snap());
      BodyBound(sc, u1, u2, Used());
    }

    /** The root comp record, then the scene record. */
    method PushScene(root: RawComp, r: RawScene)
      requires Valid() && root.layers + root.layersCount <= |layers|
      modifies this`comps, this`scenes
      ensures Valid() && comps == old(comps) + [root] && scenes == old(scenes) + [r]
    {
      ghost var a := Value();
      comps := comps + [root];
      scenes := scenes + [r];
      PushCompScene(a, root, r);
    }

    /**
     * The root of a scene flattened by `alloc_comp` against a fresh scene record, which
     * counts one comp (the root, not yet pushed) and no videos or audios; the counts it
     * ends with are the records the scene appended.
     */
    method AllocRoot(c: Composition) returns (root: RawComp, compCount: nat, videoCount: nat, audioCount: nat)
      requires Valid()
      modifies this
      ensures Valid() && Grew(old(Snap()), Snap())
      ensures root.layersCount == |c.layers| && RunStored(Snap(), c, root.layers, |c.layers|, |c.layers|)
      ensures 1 <= compCount && |comps| == |old(comps)| + compCount - 1
      ensures |videos| == |old(videos)| + videoCount && |audios| == |old(audios)| + audioCount
      ensures scenes == old(scenes)
      ensures Le(Used(), Plus(old(Used()), LayersCounts(c, |c.layers|)))
    {
      var out := new OutScene();
      root := AllocComp(c, out);
      compCount, videoCount, audioCount := out.compCount, out.videoCount, out.audioCount;
      LayersCountsNoScene(c, |c.layers|);
    }

    /** The search of the third pass: the first entry of `layer_ptrs` for identity `id`. */
    method ScanPtrs(id: LayerId) returns (m: Option<nat>)
      ensures m == FirstPtr(layerPtrs, id, 0)
    {
      var i := 0;
      while i < |layerPtrs|
        invariant i <= |layerPtrs| && FirstPtr(layerPtrs, id, 0) == FirstPtr(layerPtrs, id, i)
      {
        if layerPtrs[i].0 == id {
          return Some(i);
        }
        i := i + 1;
      }
      return None;
    }

    /**
     * The third pass of `to_buf`: each layer record's parent identity becomes the address
     * `layer_ptrs` holds for the same `Rc`, or null; a null parent is left alone.
     */
    method FixParents()
      modifies this`layers
      ensures layers == FixedLayers(old(layers), layerPtrs)
    {
      var i := 0;
      var n := |layers|;
      while i < n
        invariant i <= n == |layers| == |old(layers)|
        invariant forall j :: 0 <= j < i ==> layers[j] == FixedLayers(old(layers), layerPtrs)[j]
        invariant forall j :: i <= j < n ==> layers[j] == old(layers)[j]
      {
        match layers[i].parent {
          case NoParent =>
          case ParentAt(_) =>
          case ParentRc(id) =>
            var m := ScanPtrs(id);
            var fixed := if m.Some? then ParentAt(layerPtrs[m.value].1) else NoParent;
            layers := layers[i := layers[i].(parent := fixed)];
        }
        i := i + 1;
      }
    }
  }
}
