/**
 * `Set::to_buf` (`src/aet.rs`) up to the call into the packer: the counting pass, the
 * flattening of every scene into arenas created empty, the fix-up of the parent fields
 * and the header of the flat set.
 */
module AetEncode {
  import opened Ints
  import opened Float32
  import opened Wrappers
  import opened AetGraph
  import opened AetCurves
  import opened AetCounts
  import opened AetRaw
  import opened AetArenas
  import opened AetScenes
  import opened AetMemory

  /**
   * The flat set `to_buf` hands to the packer, with the memory it points into. `flat` is
   * that memory before the fix-up pass: every scene record holds its scene there, every
   * arena stays within what the counting pass reserved, and the fix-up rewrote only the
   * parent fields of the layer records.
   */
  method ToBuf(s: AetSet) returns (header: RawSet, mem: SetMemory, ghost flat: Snapshot)
    ensures fresh(mem)
    ensures header == RawSet(true, s.modern, s.bigEndian, s.isX, mem.scenes)
    ensures |mem.scenes| == |s.scenes| && ScenesStored(mem.scenes, s.scenes, flat)
    ensures Le(mem.Used(), ScenesCounts(s.scenes, |s.scenes|))
    ensures Linked(flat.arenas) && (forall i :: 0 <= i < |flat.layerPtrs| ==> flat.layerPtrs[i].1 == i)
    ensures mem.layers == FixedLayers(flat.arenas.layers, flat.layerPtrs)
    ensures mem.Snap() == flat.(arenas := flat.arenas.(layers := mem.layers))
  {
    var count := CountScenes(s.scenes);
    mem := Flatten(s.scenes);
    flat := mem.Snap();
    mem.FixParents();
    header := RawSet(true, s.modern, s.bigEndian, s.isX, mem.scenes);
  }

  /** The second pass of `to_buf`: every scene, in order, into arenas created empty. */
  method Flatten(scenes: seq<Scene>) returns (mem: SetMemory)
    ensures fresh(mem) && Flattened(mem, scenes, |scenes|)
  {
    mem := new SetMemory();
    var k := 0;
    assert ScenesCounts(scenes, 0) == NoCounts;
    assert Flattened(mem, scenes, 0);
    while k < |scenes|
      invariant fresh(mem) && Flattened(mem, scenes, k)
    {
      FlattenScene(mem, scenes, k);
      k := k + 1;
    }
  }

  /** The first `k` scenes flattened: well-linked arenas within the first `k` scenes' counts. */
  predicate Flattened(mem: SetMemory, scenes: seq<Scene>, k: nat)
    reads mem
  {
    mem.Valid() && k <= |scenes| && |mem.scenes| == k &&
    ScenesStored(mem.scenes, scenes, mem.Snap()) && Le(mem.Used(), ScenesCounts(scenes, k))
  }

  /** One step of that loop. */
  method FlattenScene(mem: SetMemory, scenes: seq<Scene>, k: nat)
    requires k < |scenes| && Flattened(mem, scenes, k)
    modifies mem
    ensures Flattened(mem, scenes, k + 1)
  {
    ghost var s0, u0 := mem.Snap(), mem.Used();
    mem.AllocScene(scenes[k]);
    ScenesStoredGrows(s0.arenas.scenes, scenes, s0, mem.Snap());
    assert mem.scenes == s0.arenas.scenes + [mem.scenes[k]];
    ScenesStoredPush(s0.arenas.scenes, scenes, mem.scenes[k], mem.Snap());
    ScenesBoundStep(scenes, k, u0, mem.Used());
  }
}
