/** A Python dict from time to a list of values, keeping insertion order, as
    filled by `reshaped[t].append(v)` and `all_tensors.setdefault(t, []).extend(vs)`. */
module Groups {

  datatype Groups<V> = Groups(order: seq<real>, at: map<real, seq<V>>)

  /** The keys listed once each, and exactly the keys of the map. */
  ghost predicate Valid<V>(g: Groups<V>)
  {
    (forall i, j :: 0 <= i < j < |g.order| ==> g.order[i] != g.order[j]) &&
    (forall t :: t in g.at <==> t in g.order)
  }

  function Empty<V>(): (g: Groups<V>)
    ensures Valid(g)
  {
    Groups([], map[])
  }

  /** The list stored under `t`, or [] when `t` is not a key. */
  function Get<V>(g: Groups<V>, t: real): seq<V>
  {
    if t in g.at then g.at[t] else []
  }

  /** `g.setdefault(t, []).extend(vs)`. */
  function Extend<V>(g: Groups<V>, t: real, vs: seq<V>): (h: Groups<V>)
    requires Valid(g)
    ensures Valid(h)
  {
    if t in g.at then Groups(g.order, g.at[t := g.at[t] + vs])
    else Groups(g.order + [t], g.at[t := vs])
  }

  /** Extending appends to the list under `t` only, and lists `t` last when
      it is new. */
  lemma ExtendGet<V>(g: Groups<V>, t: real, vs: seq<V>, u: real)
    requires Valid(g)
    ensures Get(Extend(g, t, vs), u) == if u == t then Get(g, t) + vs else Get(g, u)
    ensures Extend(g, t, vs).order == if t in g.at then g.order else g.order + [t]
  {
  }

  /** Groups built from (key, value) pairs, appending each value under its key. */
  function FromPairs<V>(ps: seq<(real, V)>): (g: Groups<V>)
    ensures Valid(g)
  {
    if ps == [] then Empty() else Extend(FromPairs(ps[..|ps| - 1]), ps[|ps| - 1].0, [ps[|ps| - 1].1])
  }

  lemma {:induction false} FromPairsSnoc<V>(ps: seq<(real, V)>, t: real, v: V)
    ensures FromPairs(ps + [(t, v)]) == Extend(FromPairs(ps), t, [v])
  {
    assert (ps + [(t, v)])[..|ps|] == ps;
  }

  /** Reference: the values paired with `t`, in order. */
  function ValuesAt<V>(ps: seq<(real, V)>, t: real): seq<V>
  {
    if ps == [] then []
    else ValuesAt(ps[..|ps| - 1], t) + (if ps[|ps| - 1].0 == t then [ps[|ps| - 1].1] else [])
  }

  /** Reference: the distinct keys, in order of first appearance. */
  function FirstAppearances<V>(ps: seq<(real, V)>): seq<real>
  {
    if ps == [] then []
    else
      var seen := FirstAppearances(ps[..|ps| - 1]);
      if ps[|ps| - 1].0 in seen then seen else seen + [ps[|ps| - 1].0]
  }

  /** Each key lists its values in pair order, and the keys appear in order of
      their first occurrence. */
  lemma {:induction false} FromPairsContents<V>(ps: seq<(real, V)>)
    ensures FromPairs(ps).order == FirstAppearances(ps)
    ensures forall t :: Get(FromPairs(ps), t) == ValuesAt(ps, t)
  {
    if ps != [] {
      FromPairsContents(ps[..|ps| - 1]);
    }
  }

  /** Extending by every group of `h`, in `h`'s key order. */
  function MergeKeys<V>(g: Groups<V>, h: Groups<V>, keys: seq<real>): (m: Groups<V>)
    requires Valid(g)
    requires forall t :: t in keys ==> t in h.at
    ensures Valid(m)
  {
    if keys == [] then g
    else Extend(MergeKeys(g, h, keys[..|keys| - 1]), keys[|keys| - 1], h.at[keys[|keys| - 1]])
  }

  /** `for t, vs in h.items(): g.setdefault(t, []).extend(vs)`. */
  function Merge<V>(g: Groups<V>, h: Groups<V>): (m: Groups<V>)
    requires Valid(g) && Valid(h)
    ensures Valid(m)
  {
    MergeKeys(g, h, h.order)
  }

  lemma {:induction false} MergeKeysGet<V>(g: Groups<V>, h: Groups<V>, keys: seq<real>, t: real)
    requires Valid(g)
    requires forall u :: u in keys ==> u in h.at
    requires forall i, j :: 0 <= i < j < |keys| ==> keys[i] != keys[j]
    ensures Get(MergeKeys(g, h, keys), t) == Get(g, t) + (if t in keys then h.at[t] else [])
  {
    if keys != [] {
      var init := keys[..|keys| - 1];
      MergeKeysGet(g, h, init, t);
      assert t in keys <==> t in init || t == keys[|keys| - 1];
      if t == keys[|keys| - 1] {
        assert t !in init;
      }
    }
  }

  /** Merging appends, under every key, the later list after the earlier one. */
  lemma {:induction false} MergeGet<V>(g: Groups<V>, h: Groups<V>, t: real)
    requires Valid(g) && Valid(h)
    ensures Get(Merge(g, h), t) == Get(g, t) + Get(h, t)
  {
    MergeKeysGet(g, h, h.order, t);
  }

  /** The loop `for t, vs in h.items(): g.setdefault(t, []).extend(vs)`. */
  method ExtendAll<V>(g: Groups<V>, h: Groups<V>) returns (m: Groups<V>)
    requires Valid(g) && Valid(h)
    ensures m == Merge(g, h)
  {
    m := g;
    var j := 0;
    while j < |h.order|
      invariant 0 <= j <= |h.order|
      invariant m == MergeKeys(g, h, h.order[..j])
    {
      var t := h.order[j];
      assert h.order[..j + 1][..j] == h.order[..j];
      m := Extend(m, t, h.at[t]);
      j := j + 1;
    }
    assert h.order[..j] == h.order;
  }
}
