/**
 * `avg` and `med` from the chart code (paladium_desktop.py:208-212), over
 * exact reals: the mean of an empty list is 0, and the median is the middle
 * of the ascending sort, or the average of the two middle values when the
 * length is even.
 */
module Stats {

  function Sum(s: seq<real>): real {
    if s == [] then 0.0 else s[0] + Sum(s[1..])
  }

  /** `avg(lst)`. */
  function Mean(s: seq<real>): real {
    if s == [] then 0.0 else Sum(s) / (|s| as real)
  }

  function Min(s: seq<real>): (m: real)
    requires s != []
    ensures m in s && forall i | 0 <= i < |s| :: m <= s[i]
  {
    if |s| == 1 then s[0]
    else
      var m := Min(s[1..]);
      assert forall i | 1 <= i < |s| :: s[i] == s[1..][i - 1];
      if s[0] <= m then s[0] else m
  }

  function Max(s: seq<real>): (m: real)
    requires s != []
    ensures m in s && forall i | 0 <= i < |s| :: s[i] <= m
  {
    if |s| == 1 then s[0]
    else
      var m := Max(s[1..]);
      assert forall i | 1 <= i < |s| :: s[i] == s[1..][i - 1];
      if s[0] >= m then s[0] else m
  }

  predicate Ascending(s: seq<real>) {
    forall i, j | 0 <= i < j < |s| :: s[i] <= s[j]
  }

  function InsertAsc(x: real, t: seq<real>): seq<real> {
    if t == [] || x <= t[0] then [x] + t else [t[0]] + InsertAsc(x, t[1..])
  }

  /** `sorted(lst)`. */
  function SortAsc(s: seq<real>): seq<real> {
    if s == [] then [] else InsertAsc(s[0], SortAsc(s[1..]))
  }

  lemma {:induction false} InsertAscElements(x: real, t: seq<real>)
    ensures multiset(InsertAsc(x, t)) == multiset{x} + multiset(t)
    ensures |InsertAsc(x, t)| == |t| + 1
  {
    if t != [] && x > t[0] {
      InsertAscElements(x, t[1..]);
      assert t == [t[0]] + t[1..];
    }
  }

  /** Inserting keeps the list ascending, and the result starts either with
      the new value or with the old first element. */
  lemma {:induction false} InsertAscSorted(x: real, t: seq<real>)
    requires Ascending(t)
    ensures Ascending(InsertAsc(x, t))
    ensures InsertAsc(x, t) != [] && (InsertAsc(x, t)[0] == x || (t != [] && InsertAsc(x, t)[0] == t[0]))
  {
    if t == [] || x <= t[0] {
      ConsAscending(x, t);
    } else {
      AscendingTail(t);
      InsertAscSorted(x, t[1..]);
      var u := InsertAsc(x, t[1..]);
      assert u[0] == x || u[0] == t[1];
      ConsAscending(t[0], u);
    }
  }

  lemma ConsAscending(a: real, u: seq<real>)
    requires Ascending(u) && (u == [] || a <= u[0])
    ensures Ascending([a] + u)
  {
    var r := [a] + u;
    forall i, j | 0 <= i < j < |r| ensures r[i] <= r[j] {
      assert r[j] == u[j - 1];
      if i > 0 { assert r[i] == u[i - 1]; }
    }
  }

  /** `sorted` returns an ascending permutation of its input. */
  lemma {:induction false} SortAscCorrect(s: seq<real>)
    ensures Ascending(SortAsc(s))
    ensures multiset(SortAsc(s)) == multiset(s)
    ensures |SortAsc(s)| == |s|
  {
    if s != [] {
      SortAscCorrect(s[1..]);
      InsertAscSorted(s[0], SortAsc(s[1..]));
      InsertAscElements(s[0], SortAsc(s[1..]));
      assert s == [s[0]] + s[1..];
    }
  }

  /** `med(lst)`. */
  function Median(s: seq<real>): real {
    if s == [] then 0.0
    else
      var t := SortAsc(s);
      var m := |s| / 2;
      SortAscCorrect(s);
      if |s| % 2 == 1 then t[m] else (t[m - 1] + t[m]) / 2.0
  }

  lemma {:induction false} SumBounds(s: seq<real>, lo: real, hi: real)
    requires forall i | 0 <= i < |s| :: lo <= s[i] <= hi
    ensures (|s| as real) * lo <= Sum(s) <= (|s| as real) * hi
  {
    if s != [] {
      assert forall i | 0 <= i < |s| - 1 :: s[1..][i] == s[i + 1];
      SumBounds(s[1..], lo, hi);
    }
  }

  /** The mean of a non-empty list lies between its least and greatest
      element. */
  lemma MeanBetween(s: seq<real>)
    requires s != []
    ensures Min(s) <= Mean(s) <= Max(s)
  {
    MeanBounds(s, Min(s), Max(s));
  }

  lemma MeanBounds(s: seq<real>, lo: real, hi: real)
    requires s != []
    requires forall i | 0 <= i < |s| :: lo <= s[i] <= hi
    ensures lo <= Mean(s) <= hi
  {
    SumBounds(s, lo, hi);
    QuotientBetween(Sum(s), |s| as real, lo, hi);
  }

  lemma QuotientBetween(total: real, n: real, lo: real, hi: real)
    requires n > 0.0 && n * lo <= total <= n * hi
    ensures lo <= total / n <= hi
  {
  }

  /** The median of a non-empty list lies between its least and greatest
      element. */
  lemma MedianBetween(s: seq<real>)
    requires s != []
    ensures Min(s) <= Median(s) <= Max(s)
  {
    var t := SortAsc(s);
    SortAscCorrect(s);
    forall i | 0 <= i < |t| ensures Min(s) <= t[i] <= Max(s) {
      assert t[i] in multiset(s);
    }
  }

  lemma FirstIsLeast(a: seq<real>, x: real)
    requires Ascending(a) && x in multiset(a)
    ensures a[0] <= x
  {
    var i :| 0 <= i < |a| && a[i] == x;
  }

  lemma AscendingTail(a: seq<real>)
    requires Ascending(a) && a != []
    ensures Ascending(a[1..])
  {
    forall i, j | 0 <= i < j < |a| - 1 ensures a[1..][i] <= a[1..][j] {
      assert a[1..][i] == a[i + 1] && a[1..][j] == a[j + 1];
    }
  }

  /** There is only one ascending arrangement of a multiset of values. */
  lemma {:induction false} AscendingUnique(a: seq<real>, b: seq<real>)
    requires Ascending(a) && Ascending(b) && multiset(a) == multiset(b)
    ensures a == b
  {
    if a != [] {
      assert |b| == |a| by { assert |multiset(a)| == |multiset(b)|; }
      assert a[0] == b[0] by {
        FirstIsLeast(a, b[0]);
        FirstIsLeast(b, a[0]);
      }
      assert multiset(a) == multiset{a[0]} + multiset(a[1..]) by { assert a == [a[0]] + a[1..]; }
      assert multiset(b) == multiset{b[0]} + multiset(b[1..]) by { assert b == [b[0]] + b[1..]; }
      forall y ensures multiset(a[1..])[y] == multiset(b[1..])[y] {
        assert multiset(a)[y] == multiset(b)[y];
      }
      assert multiset(a[1..]) == multiset(b[1..]);
      AscendingTail(a);
      AscendingTail(b);
      AscendingUnique(a[1..], b[1..]);
    }
  }

  /** The median depends only on which prices were collected, not on the
      order they were collected in. */
  lemma MedianOrderFree(a: seq<real>, b: seq<real>)
    requires multiset(a) == multiset(b)
    ensures Median(a) == Median(b)
  {
    SortAscCorrect(a);
    SortAscCorrect(b);
    AscendingUnique(SortAsc(a), SortAsc(b));
    assert |a| == |b| by { assert |multiset(a)| == |multiset(b)|; }
  }

  /** The three worked cases of `med`. */
  lemma MedianExamples()
    ensures Median([10.0]) == 10.0
    ensures Median([10.0, 20.0]) == 15.0
    ensures Median([5.0, 1.0, 3.0]) == 3.0
  {
    assert SortAsc([20.0]) == [20.0];
    assert SortAsc([10.0, 20.0]) == [10.0, 20.0];
    assert SortAsc([3.0]) == [3.0];
    assert SortAsc([1.0, 3.0]) == [1.0, 3.0] by { assert [1.0, 3.0][1..] == [3.0]; }
    assert SortAsc([5.0, 1.0, 3.0]) == InsertAsc(5.0, [1.0, 3.0]);
    assert InsertAsc(5.0, [1.0, 3.0]) == [1.0, 3.0, 5.0] by { assert [1.0, 3.0][1..] == [3.0]; }
  }
}
