/**
 * Python dictionaries as the chart code uses them: an insertion-ordered map
 * (`d[k] = v` keeps an existing key's position and appends a new one), plus
 * the group-by specification that the accumulating loops are proved against.
 */
module PyDict {

  /** A dict: its keys in insertion order and its entries. */
  datatype Dict<K(==), V> = Dict(order: seq<K>, entries: map<K, V>) {

    /** Each key appears once in `order`, and `order` lists exactly the keys. */
    ghost predicate Valid() {
      && (forall i, j | 0 <= i < j < |order| :: order[i] != order[j])
      && (forall k | k in entries :: k in order)
      && (forall i | 0 <= i < |order| :: order[i] in entries)
    }

    /** `d.get(k, default)`. */
    function GetOr(k: K, default: V): (v: V)
      ensures k in entries ==> v == entries[k]
      ensures k !in entries ==> v == default
    {
      if k in entries then entries[k] else default
    }

    /** `d[k] = v`: a new key goes to the end, an existing one stays put. */
    function Put(k: K, v: V): (d: Dict<K, V>)
      requires Valid()
      ensures d.Valid()
      ensures d.entries == entries[k := v]
      ensures d.order == if k in entries then order else order + [k]
    {
      if k in entries then Dict(order, entries[k := v]) else Dict(order + [k], entries[k := v])
    }

    /** `list(d.items())`: the pairs in insertion order. */
    function Items(): (s: seq<(K, V)>)
      requires Valid()
      ensures |s| == |order|
      ensures forall i | 0 <= i < |s| :: s[i] == (order[i], entries[order[i]])
      ensures forall i, j | 0 <= i < j < |s| :: s[i].0 != s[j].0
      ensures forall k | k in entries :: exists i | 0 <= i < |s| :: s[i].0 == k
      ensures forall i | 0 <= i < |s| :: s[i].0 in entries
    {
      seq(|order|, i requires 0 <= i < |order| => (order[i], entries[order[i]]))
    }
  }

  function EmptyDict<K(==), V>(): (d: Dict<K, V>)
    ensures d.Valid() && d.order == [] && d.entries == map[]
  {
    Dict([], map[])
  }

  /** The distinct keys of a sequence of (key, value) contributions, in the
      order each key was first seen. */
  function Keys<K(==), V>(s: seq<(K, V)>): seq<K> {
    if s == [] then []
    else
      var ks := Keys(s[..|s| - 1]);
      if s[|s| - 1].0 in ks then ks else ks + [s[|s| - 1].0]
  }

  /** The values contributed under key `k`, in contribution order. */
  function Group<K(==), V>(s: seq<(K, V)>, k: K): seq<V> {
    if s == [] then []
    else Group(s[..|s| - 1], k) + (if s[|s| - 1].0 == k then [s[|s| - 1].1] else [])
  }

  /** Keys are listed once each, and a key is listed exactly when something
      was contributed under it. */
  lemma {:induction false} KeysDistinct<K, V>(s: seq<(K, V)>)
    ensures forall i, j | 0 <= i < j < |Keys(s)| :: Keys(s)[i] != Keys(s)[j]
    ensures forall k :: k in Keys(s) <==> Group(s, k) != []
  {
    if s != [] {
      KeysDistinct(s[..|s| - 1]);
    }
  }

  /** A key is listed exactly when some contribution carries it. */
  lemma {:induction false} KeysMembership<K, V>(s: seq<(K, V)>, k: K)
    ensures k in Keys(s) <==> exists i | 0 <= i < |s| :: s[i].0 == k
  {
    if s != [] {
      var p := s[..|s| - 1];
      KeysMembership(p, k);
      if exists i | 0 <= i < |p| :: p[i].0 == k {
        var i :| 0 <= i < |p| && p[i].0 == k;
        assert s[i].0 == k;
      }
      if exists i | 0 <= i < |s| :: s[i].0 == k {
        var i :| 0 <= i < |s| && s[i].0 == k;
        if i < |p| { assert p[i].0 == k; }
      }
    }
  }

  /** First-encounter order: the keys seen in any prefix of the contributions
      are a prefix of all the keys, so a key first seen earlier is listed
      earlier. */
  lemma {:induction false} KeysPrefix<K, V>(s: seq<(K, V)>, n: nat)
    requires n <= |s|
    ensures Keys(s[..n]) <= Keys(s)
  {
    if n < |s| {
      var p := s[..|s| - 1];
      assert p[..n] == s[..n];
      KeysPrefix(p, n);
    } else {
      assert s[..n] == s;
    }
  }

  /** One more contribution lists a new key at the end and leaves a known
      key's position alone. */
  lemma KeysSnoc<K, V>(s: seq<(K, V)>, k: K, v: V)
    ensures Keys(s + [(k, v)]) == if k in Keys(s) then Keys(s) else Keys(s) + [k]
  {
    assert (s + [(k, v)])[..|s|] == s;
  }

  /** One more contribution extends its own key's group... */
  lemma GroupSnocSame<K, V>(s: seq<(K, V)>, k: K, v: V)
    ensures Group(s + [(k, v)], k) == Group(s, k) + [v]
  {
    assert (s + [(k, v)])[..|s|] == s;
  }

  /** ...and leaves every other key's group alone. */
  lemma GroupSnocOther<K, V>(s: seq<(K, V)>, k: K, v: V, k': K)
    requires k' != k
    ensures Group(s + [(k, v)], k') == Group(s, k')
  {
    assert (s + [(k, v)])[..|s|] == s;
    assert Group(s, k') + [] == Group(s, k');
  }
}
