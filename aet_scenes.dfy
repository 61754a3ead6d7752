/**
 * The scene records of `Set::to_buf` (`src/aet.rs`) and its third pass, on values: what a
 * flattened scene holds, that it survives the allocation of later scenes, and how each
 * layer's parent identity becomes the address of the parent's record.
 */
module AetScenes {
  import opened Ints
  import opened Float32
  import opened Wrappers
  import opened AetGraph
  import opened AetCurves
  import opened AetCounts
  import opened AetRaw
  import opened AetArenas

  /** The scene's name and camera as the second pass stores them. */
  predicate HeadStored(name: nat, camera: Option<nat>, sc: Scene, s: Snapshot) {
    var a := s.arenas;
    name < |a.names| && a.names[name] == CName(sc.name) &&
    camera.Some? == sc.camera.Some? &&
    (camera.Some? ==>
      camera.value < |a.cameras| &&
      RunReadsBack(CameraCurves(sc.camera.value), RawCameraCurves(a.cameras[camera.value]), a.keys))
  }

  /**
   * A scene record of the second pass: the scene's own fields; its comps are the run
   * `comp .. comp + comp_count`, the last being its root, whose layers are one stored run;
   * its videos and audios are runs of `video_count` and `audio_count` records, null when
   * empty.
   */
  predicate SceneStored(r: RawScene, sc: Scene, s: Snapshot) {
    var a := s.arenas;
    HeadStored(r.name, r.camera, sc, s) &&
    r.startTime == sc.startTime && r.endTime == sc.endTime && r.fps == sc.fps &&
    r.color == sc.color && r.width == sc.width && r.height == sc.height &&
    r.comp.Some? && 1 <= r.compCount && r.comp.value + r.compCount <= |a.comps| &&
    RootStored(a.comps[r.comp.value + r.compCount - 1], sc.root, s) &&
    (r.video.None? <==> r.videoCount == 0) &&
    (r.video.Some? ==> r.video.value + r.videoCount <= |a.videos|) &&
    (r.audio.None? <==> r.audioCount == 0) &&
    (r.audio.Some? ==> r.audio.value + r.audioCount <= |a.audios|)
  }

  /** A root comp record: its layer count, and its layers stored in order with their items. */
  predicate RootStored(rc: RawComp, c: Composition, s: Snapshot) {
    rc.layersCount == |c.layers| && RunStored(s, c, rc.layers, |c.layers|, |c.layers|)
  }

  lemma HeadStoredGrows(name: nat, camera: Option<nat>, sc: Scene, s0: Snapshot, s1: Snapshot)
    requires HeadStored(name, camera, sc, s0) && Grew(s0, s1)
    ensures HeadStored(name, camera, sc, s1)
  {
    var a, b := s0.arenas, s1.arenas;
    assert b.names[name] == a.names[name];
    if camera.Some? {
      assert b.cameras[camera.value] == a.cameras[camera.value];
      RunReadsBackGrows(CameraCurves(sc.camera.value), RawCameraCurves(a.cameras[camera.value]), a.keys, b.keys);
    }
  }

  /** A stored scene stays stored while later scenes are allocated. */
  lemma SceneStoredGrows(r: RawScene, sc: Scene, s0: Snapshot, s1: Snapshot)
    requires SceneStored(r, sc, s0) && Grew(s0, s1) && Linked(s1.arenas)
    ensures SceneStored(r, sc, s1)
  {
    var a, b := s0.arenas, s1.arenas;
    HeadStoredGrows(r.name, r.camera, sc, s0, s1);
    var k := r.comp.value + r.compCount - 1;
    assert b.comps[k] == a.comps[k];
    GrewFrame(s0, s1, 0);
    RunStoredFrame(s0, s1, sc.root, a.comps[k].layers, |sc.root.layers|, |sc.root.layers|, 0);
  }

  /** Every scene record so far holds its scene. */
  predicate ScenesStored(rs: seq<RawScene>, scenes: seq<Scene>, s: Snapshot) {
    |rs| <= |scenes| && forall j :: 0 <= j < |rs| ==> SceneStored(rs[j], scenes[j], s)
  }

  lemma ScenesStoredGrows(rs: seq<RawScene>, scenes: seq<Scene>, s0: Snapshot, s1: Snapshot)
    requires ScenesStored(rs, scenes, s0) && Grew(s0, s1) && Linked(s1.arenas)
    ensures ScenesStored(rs, scenes, s1)
  {
    forall j | 0 <= j < |rs|
      ensures SceneStored(rs[j], scenes[j], s1)
    {
      SceneStoredGrows(rs[j], scenes[j], s0, s1);
    }
  }

  lemma ScenesStoredPush(rs: seq<RawScene>, scenes: seq<Scene>, r: RawScene, s: Snapshot)
    requires ScenesStored(rs, scenes, s) && |rs| < |scenes| && SceneStored(r, scenes[|rs|], s)
    ensures ScenesStored(rs + [r], scenes, s)
  {
  }

  /** The bound of the first `k` scenes and one more scene's bound give the bound of `k + 1`. */
  lemma ScenesBoundStep(scenes: seq<Scene>, k: nat, u0: Counts, u1: Counts)
    requires k < |scenes| && Le(u0, ScenesCounts(scenes, k)) && Le(u1, Plus(u0, SceneCounts(scenes[k])))
    ensures Le(u1, ScenesCounts(scenes, k + 1))
  {
  }

  /**
   * The end of one scene: its root comp record is pushed after every comp it nests, and
   * then the scene record itself.
   */
  lemma SceneClose(sc: Scene, r: RawScene, root: RawComp, s2: Snapshot, s3: Snapshot)
    requires HeadStored(r.name, r.camera, sc, s2)
    requires r.startTime == sc.startTime && r.endTime == sc.endTime && r.fps == sc.fps &&
      r.color == sc.color && r.width == sc.width && r.height == sc.height
    requires root.layersCount == |sc.root.layers|
    requires RunStored(s2, sc.root, root.layers, |sc.root.layers|, |sc.root.layers|)
    requires r.comp.Some? && 1 <= r.compCount && r.comp.value + r.compCount - 1 == |s2.arenas.comps|
    requires (r.video.None? <==> r.videoCount == 0) &&
      (r.video.Some? ==> r.video.value + r.videoCount == |s2.arenas.videos|)
    requires (r.audio.None? <==> r.audioCount == 0) &&
      (r.audio.Some? ==> r.audio.value + r.audioCount == |s2.arenas.audios|)
    requires s3 == s2.(arenas := s2.arenas.(comps := s2.arenas.comps + [root], scenes := s2.arenas.scenes + [r]))
    requires Linked(s3.arenas)
    ensures Grew(s2, s3) && SceneStored(r, sc, s3)
  {
    HeadStoredGrows(r.name, r.camera, sc, s2, s3);
    GrewFrame(s2, s3, 0);
    RunStoredFrame(s2, s3, sc.root, root.layers, |sc.root.layers|, |sc.root.layers|, 0);
    assert s3.arenas.comps[r.comp.value + r.compCount - 1] == root;
  }

  /** What a scene's name and camera add. */
  function HeadCounts(sc: Scene): Counts {
    NoCounts.(name := 1,
      camera := if sc.camera.Some? then 1 else 0,
      fcurveKey := if sc.camera.Some? then CameraFloats(sc.camera.value) else 0)
  }

  /** The name and the camera records of a scene, and at most its camera's floats. */
  lemma HeadBound(sc: Scene, u0: Counts, u1: Counts)
    requires u1 == u0.(name := u0.name + 1, camera := u1.camera, fcurveKey := u1.fcurveKey)
    requires u1.camera == u0.camera + (if sc.camera.Some? then 1 else 0)
    requires u1.fcurveKey <= u0.fcurveKey + (if sc.camera.Some? then CameraFloats(sc.camera.value) else 0)
    ensures u1.scene == u0.scene && Le(u1, Plus(u0, HeadCounts(sc)))
  {
  }

  /** What a scene adds after its name and camera: its root composition and its own record. */
  function BodyCounts(sc: Scene): Counts {
    Plus(NoCounts.(scene := 1), CompCounts(sc.root))
  }

  /** The root's layers and items, then the root comp record and the scene record. */
  lemma BodyBound(sc: Scene, u1: Counts, u2: Counts, u3: Counts)
    requires u2.scene >= u1.scene && Le(u2, Plus(u1, LayersCounts(sc.root, |sc.root.layers|)))
    requires u3 == u2.(comp := u2.comp + 1, scene := u2.scene + 1)
    ensures u3.scene == u1.scene + 1 && Le(u3, Plus(u1, BodyCounts(sc)))
  {
    LayersCountsNoScene(sc.root, |sc.root.layers|);
  }

  /** A scene's head, then its body, is what the counting pass counts for the scene. */
  lemma SceneBound(sc: Scene, u0: Counts, u1: Counts, u2: Counts)
    requires u1.scene == u0.scene && Le(u1, Plus(u0, HeadCounts(sc)))
    requires Le(u2, Plus(u1, BodyCounts(sc)))
    ensures Le(u2, Plus(u0, SceneCounts(sc)))
  {
  }

  // ---------------------------------------------------------------------------------
  // Iteration three: parent identities to addresses.

  /** `layer_ptrs.iter().find(...)` from index `from`: the first entry for identity `id`. */
  function FirstPtr(ptrs: seq<(LayerId, nat)>, id: LayerId, from: nat): (m: Option<nat>)
    ensures m.Some? ==> from <= m.value < |ptrs| && ptrs[m.value].0 == id
    ensures m.Some? ==> forall j :: from <= j < m.value ==> ptrs[j].0 != id
    ensures m.None? ==> forall j :: from <= j < |ptrs| ==> ptrs[j].0 != id
    decreases |ptrs| - from
  {
    if from >= |ptrs| then None
    else if ptrs[from].0 == id then Some(from)
    else FirstPtr(ptrs, id, from + 1)
  }

  /**
   * The fix-up of one parent field: null stays null, and an `Rc` identity becomes the
   * address recorded with the first entry for it, or null when the parent was never
   * flattened. (An address is never present before the fix-up; it is left as it is.)
   */
  function FixParent(p: RawParent, ptrs: seq<(LayerId, nat)>): RawParent {
    match p
    case NoParent => NoParent
    case ParentRc(id) =>
      (match FirstPtr(ptrs, id, 0)
       case Some(j) => ParentAt(ptrs[j].1)
       case None => NoParent)
    case ParentAt(a) => ParentAt(a)
  }

  /** Every layer record after the fix-up pass. */
  function FixedLayers(ls: seq<RawLayer>, ptrs: seq<(LayerId, nat)>): (out: seq<RawLayer>)
    ensures |out| == |ls|
  {
    seq(|ls|, i requires 0 <= i < |ls| => ls[i].(parent := FixParent(ls[i].parent, ptrs)))
  }

  /**
   * When the table pairs every layer record with its own address, a fixed parent is the
   * address of the first flattened layer of that identity, and null exactly when no layer
   * of that identity was flattened.
   */
  lemma FixParentAddress(id: LayerId, ptrs: seq<(LayerId, nat)>)
    requires forall i :: 0 <= i < |ptrs| ==> ptrs[i].1 == i
    ensures FixParent(ParentRc(id), ptrs).ParentAt? ==>
      var j := FixParent(ParentRc(id), ptrs).addr;
      j < |ptrs| && ptrs[j].0 == id && forall i :: 0 <= i < j ==> ptrs[i].0 != id
    ensures FixParent(ParentRc(id), ptrs) == NoParent <==> forall i :: 0 <= i < |ptrs| ==> ptrs[i].0 != id
  {
  }

  /** The fix-up rewrites only parent fields, so it keeps every other field of every record. */
  lemma FixedLayersKeepFields(ls: seq<RawLayer>, ptrs: seq<(LayerId, nat)>, i: nat)
    requires i < |ls|
    ensures FixedLayers(ls, ptrs)[i] == ls[i].(parent := FixedLayers(ls, ptrs)[i].parent)
  {
  }
}
