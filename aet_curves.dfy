/**
 * How `src/aet.rs` stores an animation curve in the flat float arena, compares an owned
 * curve with a stored one (`fcurve_eq`) and reads a stored one back (`Into<FCurve>`).
 *
 * A stored curve is a key count and a pointer into the float arena (here an index).
 * Zero keys, or a single key whose value is 0.0, store nothing; one other key stores
 * its value; n >= 2 keys store the n frames followed by n (value, tangent) pairs.
 */
module AetCurves {
  import opened Float32
  import opened Wrappers
  import opened AetGraph

  /** `aet_fcurve`: `keys_count` and the `keys` pointer. */
  datatype RawFCurve = RawFCurve(keysCount: nat, keys: Option<nat>)

  /** The record for a curve that stores no floats. */
  const EmptyRecord := RawFCurve(0, None)

  /** The curves `alloc_fcurve` and `count_fcurve` store as nothing at all. */
  predicate StoresNothing(f: FCurve) {
    |f.keys| == 0 || (|f.keys| == 1 && FEq(f.keys[0].value, Zero))
  }

  /** Floats a stored record of `count` keys occupies, from its first float on. */
  function RecordFloats(count: nat): nat {
    if count == 0 then 0 else if count == 1 then 1 else 3 * count
  }

  /** What `count_fcurve` adds to the float count for one curve. */
  function KeyFloats(f: FCurve): nat {
    if StoresNothing(f) then 0 else RecordFloats(|f.keys|)
  }

  /** A record whose floats, if it has any, lie in an arena of `size` floats. */
  predicate InArena(r: RawFCurve, size: nat) {
    r.keysCount == 0 || (r.keys.Some? && r.keys.value + RecordFloats(r.keysCount) <= size)
  }

  /** The frames of the keys, in order. */
  function Frames(keys: seq<FCurveKey>): (r: seq<F32>)
    ensures |r| == |keys|
    ensures forall i :: 0 <= i < |keys| ==> r[i] == keys[i].frame
  {
    if keys == [] then [] else Frames(keys[..|keys| - 1]) + [keys[|keys| - 1].frame]
  }

  /** The (value, tangent) pairs of the keys, flattened in order. */
  function Pairs(keys: seq<FCurveKey>): (r: seq<F32>)
    ensures |r| == 2 * |keys|
    ensures forall i :: 0 <= i < |keys| ==> r[2 * i] == keys[i].value && r[2 * i + 1] == keys[i].tangent
  {
    if keys == [] then []
    else Pairs(keys[..|keys| - 1]) + [keys[|keys| - 1].value, keys[|keys| - 1].tangent]
  }

  /** The floats `alloc_fcurve` appends for a curve it has to store. */
  function StoredBlock(f: FCurve): seq<F32> {
    if |f.keys| == 1 then [f.keys[0].value] else Frames(f.keys) + Pairs(f.keys)
  }

  /** The block is exactly as long as the counting pass reserved for the curve. */
  lemma StoredBlockSize(f: FCurve)
    requires !StoresNothing(f)
    ensures |StoredBlock(f)| == KeyFloats(f) == RecordFloats(|f.keys|)
  {
  }

  /**
   * `fcurve_eq`: the counts agree, and for one key the stored value equals the key's
   * value, for n >= 2 keys frame i is at offset i, value i at n + 2i and tangent i at
   * n + 2i + 1 (all compared with `f32` equality).
   */
  predicate CurveMatches(f: FCurve, r: RawFCurve, keys: seq<F32>)
    requires InArena(r, |keys|)
  {
    var n := |f.keys|;
    if n != r.keysCount then false
    else if n == 0 then true
    else if n == 1 then FEq(keys[r.keys.value], f.keys[0].value)
    else
      var p := r.keys.value;
      forall i :: 0 <= i < n ==>
        FEq(keys[p + i], f.keys[i].frame) &&
        FEq(keys[p + n + 2 * i], f.keys[i].value) &&
        FEq(keys[p + n + 2 * i + 1], f.keys[i].tangent)
  }

  /**
   * `Into<FCurve> for aet_fcurve`: no keys for count 0; for count 1 the single key
   * {frame 0.0, stored value, tangent 0.0}; otherwise the frames zipped with the pairs.
   */
  function DecodeCurve(r: RawFCurve, keys: seq<F32>): (f: FCurve)
    requires InArena(r, |keys|)
    ensures |f.keys| == r.keysCount
  {
    var n := r.keysCount;
    if n == 0 then FCurve([])
    else if n == 1 then FCurve([FCurveKey(Zero, keys[r.keys.value], Zero)])
    else
      var p := r.keys.value;
      FCurve(seq(n, i requires 0 <= i < n => FCurveKey(keys[p + i], keys[p + n + 2 * i], keys[p + n + 2 * i + 1])))
  }

  /** A stored curve reads back as: the same keys for n >= 2, {0, v, 0} for one key. */
  function Normalized(f: FCurve): FCurve {
    if |f.keys| == 1 then FCurve([FCurveKey(Zero, f.keys[0].value, Zero)]) else f
  }

  /** `keys` holds `f`'s block at `p`. */
  predicate HoldsBlock(keys: seq<F32>, p: nat, f: FCurve) {
    p + |StoredBlock(f)| <= |keys| && keys[p..p + |StoredBlock(f)|] == StoredBlock(f)
  }

  /**
   * Round trip of the storage rule: the record that `alloc_fcurve` builds for a block it
   * appended reads back as the curve itself (one key loses its frame and tangent), and
   * the record of a curve that stores nothing reads back as no keys.
   */
  lemma {:induction false} StoredCurveRoundTrip(f: FCurve, keys: seq<F32>, p: nat)
    requires !StoresNothing(f) && HoldsBlock(keys, p, f)
    ensures InArena(RawFCurve(|f.keys|, Some(p)), |keys|)
    ensures DecodeCurve(RawFCurve(|f.keys|, Some(p)), keys) == Normalized(f)
  {
    var n := |f.keys|;
    var b := StoredBlock(f);
    if n == 1 {
      assert keys[p] == b[0];
    } else {
      var d := DecodeCurve(RawFCurve(n, Some(p)), keys);
      forall i | 0 <= i < n
        ensures d.keys[i] == f.keys[i]
      {
        assert keys[p + i] == b[i];
        assert keys[p + n + 2 * i] == b[n + 2 * i] == Pairs(f.keys)[2 * i];
        assert keys[p + n + 2 * i + 1] == b[n + 2 * i + 1] == Pairs(f.keys)[2 * i + 1];
      }
      assert d.keys == f.keys;
    }
  }

  lemma EmptyRecordDecodesEmpty(keys: seq<F32>)
    ensures DecodeCurve(EmptyRecord, keys) == FCurve([])
  {
  }

  /** No key holds a NaN, so every float of the curve equals itself. */
  predicate NaNFree(f: FCurve) {
    forall i :: 0 <= i < |f.keys| ==>
      !IsNaN(f.keys[i].frame) && !IsNaN(f.keys[i].value) && !IsNaN(f.keys[i].tangent)
  }

  /**
   * A block just stored for a NaN-free curve is found again by `fcurve_eq`; a curve with
   * a NaN never is, so it is never deduplicated.
   */
  lemma {:induction false} StoredBlockMatches(f: FCurve, keys: seq<F32>, p: nat)
    requires !StoresNothing(f) && HoldsBlock(keys, p, f)
    ensures InArena(RawFCurve(|f.keys|, Some(p)), |keys|)
    ensures CurveMatches(f, RawFCurve(|f.keys|, Some(p)), keys) <==>
      (if |f.keys| == 1 then !IsNaN(f.keys[0].value) else NaNFree(f))
  {
    StoredCurveRoundTrip(f, keys, p);
    var n := |f.keys|;
    var b := StoredBlock(f);
    if n == 1 {
      assert keys[p] == b[0];
    } else {
      forall i | 0 <= i < n
        ensures keys[p + i] == f.keys[i].frame
        ensures keys[p + n + 2 * i] == f.keys[i].value
        ensures keys[p + n + 2 * i + 1] == f.keys[i].tangent
      {
        assert keys[p + i] == b[i];
        assert keys[p + n + 2 * i] == b[n + 2 * i] == Pairs(f.keys)[2 * i];
        assert keys[p + n + 2 * i + 1] == b[n + 2 * i + 1] == Pairs(f.keys)[2 * i + 1];
      }
    }
  }

  /**
   * Deduplication is sound only up to `f32` equality: when `fcurve_eq` accepts a stored
   * record, what that record reads back as equals the curve key by key (for one key, the
   * value), which still lets a -0.0 be replaced by a +0.0.
   */
  lemma MatchDecodesEqual(f: FCurve, r: RawFCurve, keys: seq<F32>)
    requires InArena(r, |keys|) && CurveMatches(f, r, keys)
    ensures |f.keys| == 1 ==> FEq(DecodeCurve(r, keys).keys[0].value, f.keys[0].value)
    ensures |f.keys| != 1 ==> CurveEq(DecodeCurve(r, keys), f)
  {
    var d := DecodeCurve(r, keys);
    if |f.keys| >= 2 {
      forall i | 0 <= i < |f.keys|
        ensures KeyEq(d.keys[i], f.keys[i])
      {
        FEqSymmetric(keys[r.keys.value + i], f.keys[i].frame);
      }
    }
  }

  /**
   * The branches of `FCurve::interpolate` that do not depend on the frame: 0.0 for no
   * keys and the only key's value for one key; None where the frame decides.
   */
  function ShortValue(f: FCurve): Option<F32> {
    if |f.keys| == 0 then Some(Zero)
    else if |f.keys| == 1 then Some(f.keys[0].value)
    else None
  }

  /**
   * Dropping a single zero-valued key, and dropping the frame and tangent of any single
   * key, leaves the interpolated value unchanged (up to the sign of zero).
   */
  lemma ShortCurveStorageKeepsValue(f: FCurve, keys: seq<F32>, p: nat)
    requires |f.keys| <= 1
    requires !StoresNothing(f) ==> HoldsBlock(keys, p, f)
    ensures var r := if StoresNothing(f) then EmptyRecord else RawFCurve(|f.keys|, Some(p));
      InArena(r, |keys|) &&
      ShortValue(DecodeCurve(r, keys)).Some? &&
      ((|f.keys| == 1 && IsNaN(f.keys[0].value)) || FEq(ShortValue(DecodeCurve(r, keys)).value, ShortValue(f).value))
  {
    if !StoresNothing(f) {
      StoredCurveRoundTrip(f, keys, p);
    }
  }

  /**
   * The dedup scan of `alloc_fcurve`: the index of the first record of `registry`, from
   * `from` on, that `fcurve_eq` accepts.
   */
  function FirstMatch(f: FCurve, registry: seq<RawFCurve>, keys: seq<F32>, from: nat): (m: Option<nat>)
    requires forall j :: 0 <= j < |registry| ==> InArena(registry[j], |keys|)
    ensures m.Some? ==> from <= m.value < |registry| && CurveMatches(f, registry[m.value], keys)
    ensures m.Some? ==> forall j :: from <= j < m.value ==> !CurveMatches(f, registry[j], keys)
    ensures m.None? ==> forall j :: from <= j < |registry| ==> !CurveMatches(f, registry[j], keys)
    decreases |registry| - from
  {
    if from >= |registry| then None
    else if CurveMatches(f, registry[from], keys) then Some(from)
    else FirstMatch(f, registry, keys, from + 1)
  }

  /** The float arena together with the registry of stored curves `alloc_fcurve` scans. */
  datatype CurveStore = CurveStore(registry: seq<RawFCurve>, keys: seq<F32>)

  predicate StoreOk(s: CurveStore) {
    forall j :: 0 <= j < |s.registry| ==> InArena(s.registry[j], |s.keys|)
  }

  /**
   * What `alloc_fcurve` returns and leaves behind. The store only grows, and by no more
   * floats than the counting pass reserved for the curve.
   */
  function AllocCurve(f: FCurve, s: CurveStore): (res: (RawFCurve, CurveStore))
    requires StoreOk(s)
  {
    if StoresNothing(f) then (EmptyRecord, s)
    else
      match FirstMatch(f, s.registry, s.keys, 0)
      case Some(i) => (RawFCurve(|f.keys|, s.registry[i].keys), s)
      case None =>
        var r := RawFCurve(|f.keys|, Some(|s.keys|));
        (r, CurveStore(s.registry + [r], s.keys + StoredBlock(f)))
  }

  /** The store only grows, and by no more floats than the counting pass reserved. */
  lemma AllocCurveBounds(f: FCurve, s: CurveStore)
    requires StoreOk(s)
    ensures var (r, t) := AllocCurve(f, s);
      StoreOk(t) && InArena(r, |t.keys|) &&
      s.keys <= t.keys && s.registry <= t.registry &&
      |t.keys| <= |s.keys| + KeyFloats(f)
  {
    if !StoresNothing(f) && FirstMatch(f, s.registry, s.keys, 0).None? {
      StoredBlockSize(f);
      var t := AllocCurve(f, s).1;
      forall j | 0 <= j < |t.registry|
        ensures InArena(t.registry[j], |t.keys|)
      {
        if j < |s.registry| {
          assert t.registry[j] == s.registry[j];
        }
      }
    }
  }

  /**
   * On a dedup miss the curve's block is appended to the arena and the new record reads
   * back as the curve itself (one key keeping only its value).
   */
  lemma AllocCurveMissReadsBack(f: FCurve, s: CurveStore)
    requires StoreOk(s) && !StoresNothing(f) && FirstMatch(f, s.registry, s.keys, 0).None?
    ensures var (r, t) := AllocCurve(f, s);
      t.keys == s.keys + StoredBlock(f) && t.registry == s.registry + [r] &&
      DecodeCurve(r, t.keys) == Normalized(f)
  {
    var t := AllocCurve(f, s).1;
    assert t.keys[|s.keys|..|s.keys| + |StoredBlock(f)|] == StoredBlock(f);
    StoredCurveRoundTrip(f, t.keys, |s.keys|);
  }

  /**
   * On a dedup hit nothing is stored, and the returned record reads back as a curve
   * `f32`-equal to the argument (for one key, its value).
   */
  lemma AllocCurveHitReadsBack(f: FCurve, s: CurveStore)
    requires StoreOk(s) && !StoresNothing(f) && FirstMatch(f, s.registry, s.keys, 0).Some?
    ensures var (r, t) := AllocCurve(f, s);
      t == s && InArena(r, |s.keys|) &&
      (|f.keys| == 1 ==> FEq(DecodeCurve(r, s.keys).keys[0].value, f.keys[0].value)) &&
      (|f.keys| != 1 ==> CurveEq(DecodeCurve(r, s.keys), f))
  {
    var i := FirstMatch(f, s.registry, s.keys, 0).value;
    MatchDecodesEqual(f, s.registry[i], s.keys);
  }

  /** Two floats are the same bits, or equal as `f32`. */
  predicate SameFloat(x: F32, y: F32) {
    x == y || FEq(x, y)
  }

  /**
   * How a decoded curve `d` gives back the curve `f` that was stored: as no keys when `f`
   * stores nothing; for one key, as {0.0, v, 0.0} where v is the key's value; for more
   * keys, key by key. Floats agree up to `f32` equality.
   */
  predicate Recovers(d: FCurve, f: FCurve) {
    if StoresNothing(f) then d == FCurve([])
    else if |f.keys| == 1 then
      |d.keys| == 1 && d.keys[0].frame == Zero && d.keys[0].tangent == Zero &&
      SameFloat(d.keys[0].value, f.keys[0].value)
    else
      |d.keys| == |f.keys| &&
      forall i :: 0 <= i < |f.keys| ==>
        SameFloat(d.keys[i].frame, f.keys[i].frame) && SameFloat(d.keys[i].value, f.keys[i].value) &&
        SameFloat(d.keys[i].tangent, f.keys[i].tangent)
  }

  /** A stored record reads back as the curve it was allocated for. */
  predicate ReadsBack(f: FCurve, r: RawFCurve, keys: seq<F32>) {
    InArena(r, |keys|) && Recovers(DecodeCurve(r, keys), f)
  }

  /** Whatever `alloc_fcurve` returns reads back as the curve it was given. */
  lemma AllocCurveReadsBack(f: FCurve, s: CurveStore)
    requires StoreOk(s)
    ensures ReadsBack(f, AllocCurve(f, s).0, AllocCurve(f, s).1.keys)
  {
    if StoresNothing(f) {
    } else if FirstMatch(f, s.registry, s.keys, 0).None? {
      MissReadsBack(f, s);
    } else {
      HitReadsBack(f, s);
    }
  }

  lemma MissReadsBack(f: FCurve, s: CurveStore)
    requires StoreOk(s) && !StoresNothing(f) && FirstMatch(f, s.registry, s.keys, 0).None?
    ensures ReadsBack(f, AllocCurve(f, s).0, AllocCurve(f, s).1.keys)
  {
    AllocCurveBounds(f, s);
    AllocCurveMissReadsBack(f, s);
  }

  lemma HitReadsBack(f: FCurve, s: CurveStore)
    requires StoreOk(s) && !StoresNothing(f) && FirstMatch(f, s.registry, s.keys, 0).Some?
    ensures ReadsBack(f, AllocCurve(f, s).0, AllocCurve(f, s).1.keys)
  {
    AllocCurveHitReadsBack(f, s);
    var r := AllocCurve(f, s).0;
    var d := DecodeCurve(r, s.keys);
    if |f.keys| != 1 {
      assert forall i :: 0 <= i < |f.keys| ==> KeyEq(d.keys[i], f.keys[i]);
    }
  }

  /** A record reads back the same from any arena that extends the one it lies in. */
  lemma ReadsBackGrows(f: FCurve, r: RawFCurve, keys: seq<F32>, more: seq<F32>)
    requires ReadsBack(f, r, keys) && keys <= more
    ensures ReadsBack(f, r, more)
  {
    var d, e := DecodeCurve(r, keys), DecodeCurve(r, more);
    if r.keysCount >= 2 {
      forall i | 0 <= i < r.keysCount
        ensures e.keys[i] == d.keys[i]
      {
        var p, n := r.keys.value, r.keysCount;
        assert more[p + i] == keys[p + i];
        assert more[p + n + 2 * i] == keys[p + n + 2 * i];
        assert more[p + n + 2 * i + 1] == keys[p + n + 2 * i + 1];
      }
    } else if r.keysCount == 1 {
      assert more[r.keys.value] == keys[r.keys.value];
    }
    assert e.keys == d.keys;
  }

  /** `fcurve_eq` gives the same verdict on any arena that extends the one the record lies in. */
  lemma CurveMatchesGrows(f: FCurve, r: RawFCurve, keys: seq<F32>, more: seq<F32>)
    requires InArena(r, |keys|) && CurveMatches(f, r, keys) && keys <= more
    ensures InArena(r, |more|) && CurveMatches(f, r, more)
  {
    var n := |f.keys|;
    if n == 1 {
      assert more[r.keys.value] == keys[r.keys.value];
    } else if n >= 2 {
      var p := r.keys.value;
      forall i | 0 <= i < n
        ensures more[p + i] == keys[p + i]
        ensures more[p + n + 2 * i] == keys[p + n + 2 * i]
        ensures more[p + n + 2 * i + 1] == keys[p + n + 2 * i + 1]
      {
      }
    }
  }

  /** Each record of a run reads back as the curve at the same position. */
  predicate RunReadsBack(fs: seq<FCurve>, rs: seq<RawFCurve>, keys: seq<F32>) {
    |fs| == |rs| && forall k :: 0 <= k < |fs| ==> ReadsBack(fs[k], rs[k], keys)
  }

  lemma RunReadsBackGrows(fs: seq<FCurve>, rs: seq<RawFCurve>, keys: seq<F32>, more: seq<F32>)
    requires RunReadsBack(fs, rs, keys) && keys <= more
    ensures RunReadsBack(fs, rs, more)
  {
    forall k | 0 <= k < |fs|
      ensures ReadsBack(fs[k], rs[k], more)
    {
      ReadsBackGrows(fs[k], rs[k], keys, more);
    }
  }

  /** What the counting pass reserves for a run of curves. */
  function SeqFloats(fs: seq<FCurve>): nat {
    if fs == [] then 0 else SeqFloats(fs[..|fs| - 1]) + KeyFloats(fs[|fs| - 1])
  }

  lemma SeqFloatsStep(fs: seq<FCurve>, k: nat)
    requires k < |fs|
    ensures SeqFloats(fs[..k + 1]) == SeqFloats(fs[..k]) + KeyFloats(fs[k])
  {
    assert fs[..k + 1][..k] == fs[..k];
  }

  /** `alloc_fcurve` applied to a run of curves in order, threading the store. */
  function AllocRun(fs: seq<FCurve>, s: CurveStore): (res: (seq<RawFCurve>, CurveStore))
    requires StoreOk(s)
    ensures StoreOk(res.1)
  {
    if fs == [] then ([], s)
    else
      var (rs, t) := AllocRun(fs[..|fs| - 1], s);
      AllocCurveBounds(fs[|fs| - 1], t);
      var (r, u) := AllocCurve(fs[|fs| - 1], t);
      (rs + [r], u)
  }

  /**
   * A run of allocations returns one record per curve, each of which reads back as its
   * curve from the final arena; the store only grows, and by at most what the counting
   * pass reserved for the run.
   */
  lemma {:induction false} AllocRunReadsBack(fs: seq<FCurve>, s: CurveStore)
    requires StoreOk(s)
    ensures var (rs, t) := AllocRun(fs, s);
      s.keys <= t.keys && s.registry <= t.registry &&
      |t.keys| <= |s.keys| + SeqFloats(fs) && RunReadsBack(fs, rs, t.keys)
  {
    if fs != [] {
      var init, f := fs[..|fs| - 1], fs[|fs| - 1];
      AllocRunReadsBack(init, s);
      var (rs, t) := AllocRun(init, s);
      AllocCurveBounds(f, t);
      AllocCurveReadsBack(f, t);
      var (r, u) := AllocCurve(f, t);
      assert AllocRun(fs, s) == (rs + [r], u);
      forall k | 0 <= k < |fs|
        ensures ReadsBack(fs[k], (rs + [r])[k], u.keys)
      {
        if k < |init| {
          assert fs[k] == init[k];
          ReadsBackGrows(init[k], rs[k], t.keys, u.keys);
        }
      }
    }
  }
}
