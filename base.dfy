/** Small generic helpers shared by every page of the point-of-sale model:
    optional values and results, sums over sequences, order-preserving
    filters, and the integer operators JavaScript uses where Dafny's differ. */
module Base {

  datatype Option<+T> = None | Some(value: T)

  datatype Result<+R, +E> = Success(value: R) | Failure(error: E)

  /** JavaScript's `n || d` on a number: a zero is replaced by the default. */
  function OrDefault(n: int, d: int): (r: int)
    ensures n != 0 ==> r == n
    ensures n == 0 ==> r == d
  {
    if n == 0 then d else n
  }

  /** Sum of `f` over a sequence, accumulated left to right like `reduce`. */
  function Sum<T>(s: seq<T>, f: T -> real): real
  {
    if s == [] then 0.0 else Sum(s[..|s| - 1], f) + f(s[|s| - 1])
  }

  lemma {:induction false} SumAppend<T>(s: seq<T>, t: seq<T>, f: T -> real)
    ensures Sum(s + t, f) == Sum(s, f) + Sum(t, f)
  {
    if t == [] {
      assert s + t == s;
    } else {
      assert (s + t)[..|s + t| - 1] == s + t[..|t| - 1];
      SumAppend(s, t[..|t| - 1], f);
    }
  }

  lemma {:induction false} SumNonNegative<T>(s: seq<T>, f: T -> real)
    requires forall k :: 0 <= k < |s| ==> f(s[k]) >= 0.0
    ensures Sum(s, f) >= 0.0
  {
    if s != [] {
      SumNonNegative(s[..|s| - 1], f);
    }
  }

  lemma {:induction false} SumMonotone<T>(s: seq<T>, f: T -> real, g: T -> real)
    requires forall k :: 0 <= k < |s| ==> f(s[k]) <= g(s[k])
    ensures Sum(s, f) <= Sum(s, g)
  {
    if s != [] {
      SumMonotone(s[..|s| - 1], f, g);
    }
  }

  /** Sums of two functions that agree on every element are equal. */
  lemma {:induction false} SumCongruent<T>(s: seq<T>, f: T -> real, g: T -> real)
    requires forall k :: 0 <= k < |s| ==> f(s[k]) == g(s[k])
    ensures Sum(s, f) == Sum(s, g)
  {
    if s != [] {
      SumCongruent(s[..|s| - 1], f, g);
    }
  }

  lemma {:induction false} SumLinear<T>(s: seq<T>, f: T -> real, g: T -> real, h: T -> real)
    requires forall k :: 0 <= k < |s| ==> h(s[k]) == f(s[k]) + g(s[k])
    ensures Sum(s, h) == Sum(s, f) + Sum(s, g)
  {
    if s != [] {
      SumLinear(s[..|s| - 1], f, g, h);
    }
  }

  /** Replacing one element changes the sum by the difference. */
  lemma {:induction false} SumUpdate<T>(s: seq<T>, k: int, x: T, f: T -> real)
    requires 0 <= k < |s|
    ensures Sum(s[k := x], f) == Sum(s, f) - f(s[k]) + f(x)
  {
    if k < |s| - 1 {
      assert s[k := x][..|s| - 1] == s[..|s| - 1][k := x];
      SumUpdate(s[..|s| - 1], k, x, f);
    } else {
      assert s[k := x][..|s| - 1] == s[..|s| - 1];
    }
  }

  /** Deleting one element lowers the sum by that element's term. */
  lemma SumRemoveAt<T>(s: seq<T>, k: int, f: T -> real)
    requires 0 <= k < |s|
    ensures Sum(s[..k] + s[k + 1..], f) == Sum(s, f) - f(s[k])
  {
    assert s == s[..k] + [s[k]] + s[k + 1..];
    SumAppend(s[..k] + [s[k]], s[k + 1..], f);
    SumAppend(s[..k], [s[k]], f);
    SumAppend(s[..k], s[k + 1..], f);
  }

  /** `filter(Boolean)` after a `map` that returns null for dropped elements. */
  function Somes<T>(s: seq<Option<T>>): (r: seq<T>)
    ensures |r| <= |s|
  {
    if s == [] then []
    else if s[|s| - 1].Some? then Somes(s[..|s| - 1]) + [s[|s| - 1].value]
    else Somes(s[..|s| - 1])
  }

  /** When every slot holds `Some(t[j])`, nothing is dropped. */
  lemma {:induction false} SomesAll<T>(s: seq<Option<T>>, t: seq<T>)
    requires |s| == |t| && forall j :: 0 <= j < |s| ==> s[j] == Some(t[j])
    ensures Somes(s) == t
  {
    if s != [] {
      SomesAll(s[..|s| - 1], t[..|t| - 1]);
    }
  }

  /** When every slot but `k` holds `Some(t[j])`, slot `k` alone decides:
      it is dropped or it replaces `t[k]` in place. */
  lemma {:induction false} SomesExceptAt<T>(s: seq<Option<T>>, t: seq<T>, k: int)
    requires |s| == |t| && 0 <= k < |s|
    requires forall j :: 0 <= j < |s| && j != k ==> s[j] == Some(t[j])
    ensures s[k].None? ==> Somes(s) == t[..k] + t[k + 1..]
    ensures s[k].Some? ==> Somes(s) == t[k := s[k].value]
  {
    var n := |s| - 1;
    if k == n {
      SomesAll(s[..n], t[..n]);
      assert t[..k] + t[k + 1..] == t[..n];
      if s[k].Some? {
        assert t[..n] + [s[k].value] == t[k := s[k].value];
      }
    } else {
      SomesExceptAt(s[..n], t[..n], k);
      assert t[..k] + t[k + 1..] == (t[..n][..k] + t[..n][k + 1..]) + [t[n]];
      if s[k].Some? {
        assert t[k := s[k].value] == t[..n][k := s[k].value] + [t[n]];
      }
    }
  }

  /** `s` is obtained from `t` by deleting elements, keeping the order. */
  predicate IsSubsequence<T(==)>(s: seq<T>, t: seq<T>)
    decreases |t|
  {
    if s == [] then true
    else if t == [] then false
    else if s[|s| - 1] == t[|t| - 1] then IsSubsequence(s[..|s| - 1], t[..|t| - 1])
    else IsSubsequence(s, t[..|t| - 1])
  }

  /** Array `filter`: the elements satisfying `p`, in their original order. */
  function Filter<T(==,!new)>(s: seq<T>, p: T -> bool): (r: seq<T>)
    ensures |r| <= |s|
    ensures forall x :: x in r <==> x in s && p(x)
  {
    if s == [] then []
    else
      var init := Filter(s[..|s| - 1], p);
      assert forall x :: x in s <==> x in s[..|s| - 1] || x == s[|s| - 1];
      if p(s[|s| - 1]) then init + [s[|s| - 1]] else init
  }

  lemma {:induction false} FilterIsSubsequence<T(!new)>(s: seq<T>, p: T -> bool)
    ensures IsSubsequence(Filter(s, p), s)
    decreases |s|
  {
    if s != [] {
      var init := s[..|s| - 1];
      FilterIsSubsequence(init, p);
      if p(s[|s| - 1]) {
        var r := Filter(s, p);
        assert r[..|r| - 1] == Filter(init, p);
      } else {
        SubsequenceOfPrefix(Filter(init, p), init, s);
      }
    }
  }

  /** Being a subsequence of a prefix of `t` carries over to `t` itself. */
  lemma {:induction false} SubsequenceOfPrefix<T>(s: seq<T>, init: seq<T>, t: seq<T>)
    requires t != [] && init == t[..|t| - 1]
    requires IsSubsequence(s, init)
    ensures IsSubsequence(s, t)
    decreases |t|, 1
  {
    if s != [] && s[|s| - 1] == t[|t| - 1] {
      SubsequenceWeaken(s, init);
    }
  }

  /** Dropping the last element of `s` keeps it a subsequence. */
  lemma {:induction false} SubsequenceWeaken<T>(s: seq<T>, t: seq<T>)
    requires s != [] && IsSubsequence(s, t)
    ensures IsSubsequence(s[..|s| - 1], t)
    decreases |t|, 2
  {
    if t != [] {
      var tInit := t[..|t| - 1];
      if s[|s| - 1] != t[|t| - 1] {
        SubsequenceWeaken(s, tInit);
      }
      SubsequenceOfPrefix(s[..|s| - 1], tInit, t);
    }
  }

  /** A filter whose predicate holds everywhere keeps everything. */
  lemma {:induction false} FilterAll<T(!new)>(s: seq<T>, p: T -> bool)
    requires forall k :: 0 <= k < |s| ==> p(s[k])
    ensures Filter(s, p) == s
  {
    if s != [] {
      FilterAll(s[..|s| - 1], p);
      assert s[..|s| - 1] + [s[|s| - 1]] == s;
    }
  }

  /** Filtering a sequence extended by one element. */
  lemma FilterSnoc<T(!new)>(s: seq<T>, x: T, p: T -> bool)
    ensures Filter(s + [x], p) == if p(x) then Filter(s, p) + [x] else Filter(s, p)
  {
    assert (s + [x])[..|s + [x]| - 1] == s;
  }

  /** Sum of the kept elements plus sum of the dropped ones is the whole sum. */
  lemma {:induction false} SumFilterSplit<T(!new)>(s: seq<T>, p: T -> bool, q: T -> bool, f: T -> real)
    requires forall x :: q(x) == !p(x)
    ensures Sum(Filter(s, p), f) + Sum(Filter(s, q), f) == Sum(s, f)
  {
    if s != [] {
      var init := s[..|s| - 1];
      var last := s[|s| - 1];
      SumFilterSplit(init, p, q, f);
      if p(last) {
        SumAppend(Filter(init, p), [last], f);
      } else {
        SumAppend(Filter(init, q), [last], f);
      }
    }
  }

  /** The kept and the dropped elements together are as many as the whole. */
  lemma {:induction false} FilterLengthSplit<T(!new)>(s: seq<T>, p: T -> bool, q: T -> bool)
    requires forall x :: q(x) == !p(x)
    ensures |Filter(s, p)| + |Filter(s, q)| == |s|
  {
    if s != [] {
      FilterLengthSplit(s[..|s| - 1], p, q);
    }
  }

  /** Math.ceil(q / p) for a positive divisor; Dafny's `/` floors when p > 0. */
  function CeilDiv(q: int, p: int): (r: int)
    requires p > 0
    ensures (r - 1) * p < q <= r * p
  {
    if q % p == 0 then q / p else q / p + 1
  }

  /** JavaScript's `%`: the remainder takes the sign of the dividend. */
  function JsRem(q: int, p: int): (r: int)
    requires p > 0
    ensures q >= 0 ==> 0 <= r < p
    ensures q < 0 ==> -p < r <= 0
  {
    if q >= 0 then q % p else -((-q) % p)
  }

  function Max(a: real, b: real): (r: real)
    ensures r >= a && r >= b && (r == a || r == b)
  {
    if a >= b then a else b
  }

  function Abs(x: real): (r: real)
    ensures r >= 0.0 && (r == x || r == -x)
  {
    if x >= 0.0 then x else -x
  }

  function IntAbs(x: int): (r: int)
    ensures r >= 0 && (r == x || r == -x)
  {
    if x >= 0 then x else -x
  }
}
