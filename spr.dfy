/**
 * The sprite-set operations of `src/spr.rs` over the bridge record: the argument guards
 * of `set_txp` and `add_spr`, and the sprite iterator.
 */
module Spr {
  import opened Ints
  import opened Wrappers
  import opened TxpBridge
  import opened SprBridge

  /**
   * The loop of `set_txp` that turns every name into a `CString`, giving up at the first
   * name holding a NUL: the names unchanged, or None when any holds a NUL.
   */
  method ToCStrings(names: seq<string>) returns (r: Option<seq<string>>)
    ensures r.None? <==> exists i :: 0 <= i < |names| && HasNul(names[i])
    ensures r.Some? ==> r.value == names
  {
    var vec := [];
    for i := 0 to |names|
      invariant vec == names[..i]
      invariant forall j :: 0 <= j < i ==> !HasNul(names[j])
    {
      if HasNul(names[i]) {
        return None;
      }
      vec := vec + [names[i]];
    }
    return Some(vec);
  }

  /** The arguments `set_txp` passes on: one name per texture, no name holding a NUL. */
  predicate SetTxpAccepts(textures: nat, names: seq<string>) {
    |names| == textures && forall i :: 0 <= i < |names| ==> !HasNul(names[i])
  }

  /**
   * `Set::set_txp`: when the guard holds, the sprite set holds a copy of the txp set and exactly
   * the given names, in order; otherwise nothing changes.
   */
  method SetTxp(target: SprSet, txp: TxpSet, names: seq<string>)
    requires target.Valid() && |txp.textures| < 0x8000_0000
    modifies target
    ensures target.Valid()
    ensures SetTxpAccepts(|txp.textures|, names) ==>
      target.txp == Some(txp.textures) && target.numOfTexture as int == |txp.textures| && target.TexNames() == names
    ensures !SetTxpAccepts(|txp.textures|, names) ==>
      target.txp == old(target.txp) && target.texname == old(target.texname) && target.numOfTexture == old(target.numOfTexture)
    ensures target.sprinfo == old(target.sprinfo) && target.sprname == old(target.sprname) && target.sprdata == old(target.sprdata)
    ensures target.numOfSprite == old(target.numOfSprite) && target.ready == old(target.ready)
  {
    if |names| != |txp.textures| {
      return;
    }
    var cnames := ToCStrings(names);
    if cnames.None? {
      return;
    }
    var _ := target.SetTxp(txp, cnames.value);
    assert target.TexNames() == names;
  }

  /** `Set::add_spr`: appends the sprite unless its name holds a NUL, in which case nothing changes. */
  method AddSpr(target: SprSet, info: SprInfo, data: SpriteData, name: string)
    requires target.Valid() && target.numOfSprite < 0x7FFF_FFFF
    modifies target
    ensures target.Valid()
    ensures HasNul(name) ==>
      target.numOfSprite == old(target.numOfSprite) && target.sprinfo == old(target.sprinfo) &&
      target.sprname == old(target.sprname) && target.sprdata == old(target.sprdata)
    ensures !HasNul(name) ==>
      target.numOfSprite == old(target.numOfSprite) + 1 && target.Infos() == old(target.Infos()) + [info] &&
      target.Names() == old(target.Names()) + [name] && target.Datas() == old(target.Datas()) + [data]
    ensures target.txp == old(target.txp) && target.texname == old(target.texname) && target.ready == old(target.ready)
  {
    if HasNul(name) {
      return;
    }
    target.AddSpr(info, name, data);
  }

  /** `InfoIterator`: walks the sprite entries from index 0 to the count read at creation. */
  class InfoIterator {
    const target: SprSet
    const len: i32
    var index: i32

    predicate Valid()
      reads this, target, target.sprinfo, target.sprname, target.sprdata, target.texname
    {
      target.Valid() && len == target.numOfSprite && 0 <= index <= len
    }

    /** `Set::sprites`: `len` is the sprite count. */
    constructor (s: SprSet)
      requires s.Valid()
      ensures target == s && index == 0 && Valid()
    {
      target := s;
      len := s.numOfSprite;
      index := 0;
    }

    /**
     * `InfoIterator::next`: the name, info and data at `index`, advancing by one, or None
     * once `index` reaches `len`.
     */
    method Next() returns (r: Option<(string, SprInfo, SpriteData)>)
      requires Valid()
      modifies this
      ensures Valid()
      ensures old(index) == len <==> r.None?
      ensures r.Some? ==>
        index == old(index) + 1 &&
        r.value == (target.Names()[old(index)], target.Infos()[old(index)], target.Datas()[old(index)])
      ensures r.None? ==> index == old(index)
    {
      if index == len {
        return None;
      }
      var info := target.GetSprinfo(index);
      var name := target.GetSprname(index);
      var data := target.GetSprdata(index);
      index := index + 1;
      return Some((name, info, data));
    }
  }

  /** Draining `Set::sprites`: every entry once, in index order. */
  method CollectSprites(target: SprSet) returns (items: seq<(string, SprInfo, SpriteData)>)
    requires target.Valid()
    ensures |items| == target.numOfSprite as int
    ensures forall i :: 0 <= i < |items| ==> items[i] == (target.Names()[i], target.Infos()[i], target.Datas()[i])
  {
    var it := new InfoIterator(target);
    items := [];
    while true
      invariant it.Valid() && it.target == target
      invariant |items| == it.index as int
      invariant forall i :: 0 <= i < |items| ==> items[i] == (target.Names()[i], target.Infos()[i], target.Datas()[i])
      decreases it.len - it.index
    {
      var r := it.Next();
      if r.None? {
        break;
      }
      items := items + [r.value];
    }
  }
}
