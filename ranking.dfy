/**
 * `sorted(qty.items(), key=lambda x: x[1], reverse=True)[:20]`
 * (paladium_desktop.py:198): a stable sort of (name, total) pairs by
 * descending total, then the first twenty.
 */
module Ranking {

  /** Totals never increase along the sequence. */
  predicate NonIncreasing<T>(s: seq<(T, int)>) {
    forall i, j | 0 <= i < j < |s| :: s[i].1 >= s[j].1
  }

  /** The entries whose total is `v`, in their order in `s`. */
  function WithTotal<T>(s: seq<(T, int)>, v: int): seq<(T, int)> {
    if s == [] then []
    else (if s[0].1 == v then [s[0]] else []) + WithTotal(s[1..], v)
  }

  /** Put `x` in front of the first entry whose total is not larger, so that
      `x` stays ahead of the equal totals that came after it in the input. */
  function Insert<T>(x: (T, int), t: seq<(T, int)>): seq<(T, int)> {
    if t == [] || t[0].1 <= x.1 then [x] + t
    else [t[0]] + Insert(x, t[1..])
  }

  /** A stable sort by descending total. */
  function SortDesc<T>(s: seq<(T, int)>): seq<(T, int)> {
    if s == [] then [] else Insert(s[0], SortDesc(s[1..]))
  }

  lemma {:induction false} InsertElements<T>(x: (T, int), t: seq<(T, int)>)
    ensures multiset(Insert(x, t)) == multiset{x} + multiset(t)
    ensures |Insert(x, t)| == |t| + 1
  {
    if t != [] && t[0].1 > x.1 {
      InsertElements(x, t[1..]);
      assert t == [t[0]] + t[1..];
    }
  }

  /** Inserting keeps the order non-increasing, and the result starts either
      with the new entry or with the old first entry. */
  lemma {:induction false} InsertSorted<T>(x: (T, int), t: seq<(T, int)>)
    requires NonIncreasing(t)
    ensures NonIncreasing(Insert(x, t))
    ensures Insert(x, t) != [] && (Insert(x, t)[0] == x || (t != [] && Insert(x, t)[0] == t[0]))
  {
    if t == [] || t[0].1 <= x.1 {
      ConsNonIncreasing(x, t);
    } else {
      NonIncreasingTail(t);
      InsertSorted(x, t[1..]);
      var u := Insert(x, t[1..]);
      assert u[0] == x || u[0] == t[1];
      ConsNonIncreasing(t[0], u);
    }
  }

  lemma ConsNonIncreasing<T>(a: (T, int), u: seq<(T, int)>)
    requires NonIncreasing(u) && (u == [] || a.1 >= u[0].1)
    ensures NonIncreasing([a] + u)
  {
    var r := [a] + u;
    forall i, j | 0 <= i < j < |r| ensures r[i].1 >= r[j].1 {
      assert r[j] == u[j - 1];
      if i > 0 { assert r[i] == u[i - 1]; }
    }
  }

  lemma NonIncreasingTail<T>(t: seq<(T, int)>)
    requires NonIncreasing(t) && t != []
    ensures NonIncreasing(t[1..])
  {
    forall i, j | 0 <= i < j < |t| - 1 ensures t[1..][i].1 >= t[1..][j].1 {
      assert t[1..][i] == t[i + 1] && t[1..][j] == t[j + 1];
    }
  }

  lemma {:induction false} InsertStable<T>(x: (T, int), t: seq<(T, int)>, v: int)
    requires NonIncreasing(t)
    ensures WithTotal(Insert(x, t), v) == WithTotal([x] + t, v)
  {
    if t != [] && t[0].1 > x.1 {
      var t' := t[1..];
      NonIncreasingTail(t);
      InsertStable(x, t', v);
      assert ([t[0]] + Insert(x, t'))[1..] == Insert(x, t');
      assert ([x] + t)[1..] == t && ([x] + t')[1..] == t' && ([t[0]] + t')[1..] == t';
    }
  }

  /** The sort orders by descending total, is a permutation of its input,
      and is stable: the entries sharing any one total keep their input
      order. */
  lemma {:induction false} SortDescCorrect<T>(s: seq<(T, int)>)
    ensures NonIncreasing(SortDesc(s))
    ensures multiset(SortDesc(s)) == multiset(s)
    ensures forall v :: WithTotal(SortDesc(s), v) == WithTotal(s, v)
  {
    if s != [] {
      var rest := SortDesc(s[1..]);
      assert SortDesc(s) == Insert(s[0], rest);
      SortDescCorrect(s[1..]);
      assert NonIncreasing(SortDesc(s)) by {
        InsertSorted(s[0], rest);
      }
      assert multiset(SortDesc(s)) == multiset(s) by {
        InsertElements(s[0], rest);
        assert s == [s[0]] + s[1..];
      }
      forall v ensures WithTotal(SortDesc(s), v) == WithTotal(s, v) {
        InsertStable(s[0], rest, v);
        WithTotalCons([s[0]] + rest, v);
        WithTotalCons(s, v);
        assert ([s[0]] + rest)[1..] == rest;
      }
    }
  }

  /** `sorted(...)[:n]`. */
  function Top<T>(s: seq<(T, int)>, n: nat): seq<(T, int)> {
    var sorted := SortDesc(s);
    if |sorted| <= n then sorted else sorted[..n]
  }

  lemma {:induction false} SortDescLength<T>(s: seq<(T, int)>)
    ensures |SortDesc(s)| == |s|
  {
    if s != [] {
      SortDescLength(s[1..]);
      InsertElements(s[0], SortDesc(s[1..]));
    }
  }

  /** The top `n` holds at most `n` entries, taken from the input, in
      non-increasing order of total with ties in input order, and every entry
      left out has a total no larger than any entry kept. */
  lemma TopCorrect<T>(s: seq<(T, int)>, n: nat)
    ensures |Top(s, n)| == if |s| < n then |s| else n
    ensures NonIncreasing(Top(s, n))
    ensures multiset(Top(s, n)) <= multiset(s)
    ensures forall v :: WithTotal(Top(s, n), v) <= WithTotal(s, v)
    ensures forall y | y in multiset(s) - multiset(Top(s, n)) ::
              forall i | 0 <= i < |Top(s, n)| :: y.1 <= Top(s, n)[i].1
  {
    var sorted := SortDesc(s);
    SortDescCorrect(s);
    SortDescLength(s);
    var top := Top(s, n);
    var rest := sorted[|top|..];
    assert sorted == top + rest;
    TopSplit(top, rest);
    forall v ensures WithTotal(top, v) <= WithTotal(s, v) {
      WithTotalConcat(top, rest, v);
    }
  }

  /** In a non-increasing `top + rest`, whatever `rest` holds is no larger
      than anything in `top`. */
  lemma TopSplit<T>(top: seq<(T, int)>, rest: seq<(T, int)>)
    requires NonIncreasing(top + rest)
    ensures NonIncreasing(top)
    ensures multiset(top) <= multiset(top + rest)
    ensures forall y | y in multiset(top + rest) - multiset(top) ::
              forall i | 0 <= i < |top| :: y.1 <= top[i].1
  {
    var all := top + rest;
    assert multiset(all) == multiset(top) + multiset(rest);
    forall i, j | 0 <= i < j < |top| ensures top[i].1 >= top[j].1 {
      assert all[i] == top[i] && all[j] == top[j];
    }
    forall y | y in multiset(all) - multiset(top)
      ensures forall i | 0 <= i < |top| :: y.1 <= top[i].1
    {
      assert y in multiset(rest);
      var j :| 0 <= j < |rest| && rest[j] == y;
      assert all[|top| + j] == y;
      forall i | 0 <= i < |top| ensures y.1 <= top[i].1 {
        assert all[i] == top[i];
      }
    }
  }

  lemma {:induction false} WithTotalConcat<T>(a: seq<(T, int)>, b: seq<(T, int)>, v: int)
    ensures WithTotal(a + b, v) == WithTotal(a, v) + WithTotal(b, v)
  {
    if a == [] {
      assert a + b == b;
    } else {
      var h := if a[0].1 == v then [a[0]] else [];
      var x, y := WithTotal(a[1..], v), WithTotal(b, v);
      assert WithTotal(a + b, v) == h + (x + y) by {
        var ab := a + b;
        assert ab[0] == a[0] && ab[1..] == a[1..] + b;
        WithTotalCons(ab, v);
        WithTotalConcat(a[1..], b, v);
      }
      assert WithTotal(a, v) == h + x by {
        WithTotalCons(a, v);
      }
      assert h + (x + y) == (h + x) + y;
    }
  }

  lemma WithTotalCons<T>(a: seq<(T, int)>, v: int)
    requires a != []
    ensures WithTotal(a, v) == (if a[0].1 == v then [a[0]] else []) + WithTotal(a[1..], v)
  {
  }
}
