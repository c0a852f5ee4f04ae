/** `Array.prototype.map` on JSON arrays. The callback may throw; the first
    throw abandons the whole map. */
module ArrayMap {
  import opened Wrappers

  /** Applies `f` to every element in order, keeping length and order, or
      fails when `f` fails on some element. */
  function MapOrFail<A, B>(f: A -> Option<B>, s: seq<A>): (r: Option<seq<B>>)
    ensures r.None? <==> exists i :: 0 <= i < |s| && f(s[i]).None?
    ensures r.Some? ==> |r.value| == |s|
    ensures r.Some? ==> forall i :: 0 <= i < |s| ==> f(s[i]) == Some(r.value[i])
  {
    if |s| == 0 then Some([])
    else
      match f(s[0])
      case None => None
      case Some(first) =>
        match MapOrFail(f, s[1..])
        case None => None
        case Some(rest) => Some([first] + rest)
  }

  /** Mapping a concatenation maps each part: an element's image depends on
      that element alone, and the whole fails exactly when a part does. */
  lemma {:induction false} MapOrFailDistributes<A, B>(f: A -> Option<B>, a: seq<A>, b: seq<A>)
    ensures MapOrFail(f, a + b) ==
      if MapOrFail(f, a).Some? && MapOrFail(f, b).Some?
      then Some(MapOrFail(f, a).value + MapOrFail(f, b).value)
      else None
    decreases |a|
  {
    if |a| == 0 {
      assert a + b == b;
      var rb := MapOrFail(f, b);
      if rb.Some? {
        assert [] + rb.value == rb.value;
      }
    } else {
      assert (a + b)[0] == a[0];
      assert (a + b)[1..] == a[1..] + b;
      MapOrFailDistributes(f, a[1..], b);
      var rest, rb := MapOrFail(f, a[1..]), MapOrFail(f, b);
      if f(a[0]).Some? && rest.Some? && rb.Some? {
        var x := f(a[0]).value;
        assert [x] + (rest.value + rb.value) == ([x] + rest.value) + rb.value;
      }
    }
  }
}
