/** Copying one Go map into another, entry by entry. */
module Maps {

  /**
   * `for k, v := range src { dst[k] = v }`: the entries of `src` are written over `dst`
   * one at a time, in no particular order; a key of `src` wins over the same key of `dst`.
   */
  method Overlay<K, V>(dst: map<K, V>, src: map<K, V>) returns (r: map<K, V>)
    ensures r == dst + src
    ensures r.Keys == dst.Keys + src.Keys
    ensures forall k :: k in src ==> r[k] == src[k]
    ensures forall k :: k in dst && k !in src ==> r[k] == dst[k]
  {
    r := dst;
    var todo := src.Keys;
    while todo != {}
      invariant todo <= src.Keys
      invariant r.Keys == dst.Keys + (src.Keys - todo)
      invariant forall k :: k in src && k !in todo ==> r[k] == src[k]
      invariant forall k :: k in dst && (k !in src || k in todo) ==> r[k] == dst[k]
      decreases todo
    {
      var k :| k in todo;
      r := r[k := src[k]];
      todo := todo - {k};
    }
  }

  /** Overlaying maps one after another does not depend on how the overlays are grouped. */
  lemma UnionAssociative<K, V>(x: map<K, V>, y: map<K, V>, z: map<K, V>)
    ensures (x + y) + z == x + (y + z)
  {
    assert forall k :: k in (x + y) + z <==> k in x + (y + z);
  }
}
