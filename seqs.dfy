/**
 * The array operations the application builds its lists with: `filter`,
 * `find` and `map`, with the facts the rest of the model needs about them
 * (membership, order, multiplicity).
 */
module Seqs {
  import opened Wrappers

  /** `s.filter(f)`: the elements satisfying `f`, in their original order. */
  function Filter<T(==)>(s: seq<T>, f: T -> bool): (r: seq<T>)
    ensures |r| <= |s|
    ensures forall i :: 0 <= i < |r| ==> f(r[i]) && r[i] in s
    ensures forall i :: 0 <= i < |s| && f(s[i]) ==> s[i] in r
  {
    if s == [] then []
    else if f(s[0]) then [s[0]] + Filter(s[1..], f)
    else Filter(s[1..], f)
  }

  /** Filtering keeps everything exactly when everything satisfies the test. */
  lemma {:induction false} FilterKeepsAll<T>(s: seq<T>, f: T -> bool)
    ensures Filter(s, f) == s <==> forall i :: 0 <= i < |s| ==> f(s[i])
  {
    if s != [] {
      FilterKeepsAll(s[1..], f);
      if !f(s[0]) {
        assert |Filter(s, f)| <= |s[1..]|;
      } else {
        assert forall i :: 1 <= i < |s| ==> s[i] == s[1..][i - 1];
      }
    }
  }

  /** Filtering keeps nothing exactly when nothing satisfies the test. */
  lemma {:induction false} FilterKeepsNone<T>(s: seq<T>, f: T -> bool)
    ensures Filter(s, f) == [] <==> forall i :: 0 <= i < |s| ==> !f(s[i])
  {
    if s != [] {
      FilterKeepsNone(s[1..], f);
      assert forall i :: 1 <= i < |s| ==> s[i] == s[1..][i - 1];
    }
  }

  /** Filtering by `f` and then by `g` is filtering by both at once. */
  lemma {:induction false} FilterFilter<T>(s: seq<T>, f: T -> bool, g: T -> bool, fg: T -> bool)
    requires forall x :: fg(x) == (f(x) && g(x))
    ensures Filter(Filter(s, f), g) == Filter(s, fg)
  {
    if s != [] {
      FilterFilter(s[1..], f, g, fg);
      if f(s[0]) {
        assert Filter(s, f) == [s[0]] + Filter(s[1..], f);
        assert ([s[0]] + Filter(s[1..], f))[1..] == Filter(s[1..], f);
      }
    }
  }

  /** What a test keeps and what it drops together make up the whole list. */
  lemma {:induction false} FilterPartition<T>(s: seq<T>, f: T -> bool, notF: T -> bool)
    requires forall x :: notF(x) == !f(x)
    ensures multiset(Filter(s, f)) + multiset(Filter(s, notF)) == multiset(s)
  {
    if s != [] {
      var a, b := Filter(s[1..], f), Filter(s[1..], notF);
      FilterPartition(s[1..], f, notF);
      assert multiset(s) == multiset([s[0]]) + multiset(s[1..]) by {
        assert s == [s[0]] + s[1..];
      }
      if f(s[0]) {
        assert multiset(Filter(s, f)) == multiset([s[0]]) + multiset(a) by {
          assert Filter(s, f) == [s[0]] + a;
        }
        assert Filter(s, notF) == b by {
          assert !notF(s[0]);
        }
        AddOneLeft(multiset([s[0]]), multiset(a), multiset(b), multiset(s[1..]));
      } else {
        assert Filter(s, f) == a;
        assert multiset(Filter(s, notF)) == multiset([s[0]]) + multiset(b) by {
          assert notF(s[0]);
          assert Filter(s, notF) == [s[0]] + b;
        }
        AddOneRight(multiset([s[0]]), multiset(a), multiset(b), multiset(s[1..]));
      }
    }
  }

  lemma AddOneLeft<T>(x: multiset<T>, a: multiset<T>, b: multiset<T>, c: multiset<T>)
    requires a + b == c
    ensures (x + a) + b == x + c
  {
  }

  lemma AddOneRight<T>(x: multiset<T>, a: multiset<T>, b: multiset<T>, c: multiset<T>)
    requires a + b == c
    ensures a + (x + b) == x + c
  {
  }

  /** `xs` is `ys` with some elements left out, the rest in the same order. */
  predicate IsSubsequence<T(==)>(xs: seq<T>, ys: seq<T>)
    decreases |ys|
  {
    if xs == [] then true
    else if ys == [] then false
    else if xs[0] == ys[0] then IsSubsequence(xs[1..], ys[1..])
    else IsSubsequence(xs, ys[1..])
  }

  lemma {:induction false} SubsequenceConsRight<T>(xs: seq<T>, y: T, ys: seq<T>)
    requires IsSubsequence(xs, ys)
    ensures IsSubsequence(xs, [y] + ys)
    decreases |xs| + |ys|, 1
  {
    if xs != [] && xs[0] == y {
      SubsequenceDropHead(xs, ys);
      assert ([y] + ys)[1..] == ys;
    } else if xs != [] {
      assert ([y] + ys)[1..] == ys;
    }
  }

  lemma {:induction false} SubsequenceDropHead<T>(xs: seq<T>, ys: seq<T>)
    requires xs != [] && IsSubsequence(xs, ys)
    ensures IsSubsequence(xs[1..], ys)
    decreases |xs| + |ys|, 0
  {
    if xs[0] == ys[0] {
      SubsequenceConsRight(xs[1..], ys[0], ys[1..]);
      assert [ys[0]] + ys[1..] == ys;
    } else {
      SubsequenceDropHead(xs, ys[1..]);
      SubsequenceConsRight(xs[1..], ys[0], ys[1..]);
      assert [ys[0]] + ys[1..] == ys;
    }
  }

  /** A filter keeps the relative order of what it keeps. */
  lemma {:induction false} FilterIsSubsequence<T>(s: seq<T>, f: T -> bool)
    ensures IsSubsequence(Filter(s, f), s)
  {
    if s != [] {
      FilterIsSubsequence(s[1..], f);
      if f(s[0]) {
        assert ([s[0]] + Filter(s[1..], f))[1..] == Filter(s[1..], f);
      } else {
        SubsequenceConsRight(Filter(s[1..], f), s[0], s[1..]);
        assert [s[0]] + s[1..] == s;
      }
    }
  }

  /** `s.find(f)`: the first element satisfying `f`, if any. */
  function Find<T>(s: seq<T>, f: T -> bool): (r: Option<T>)
    ensures r.Some? <==> exists i :: 0 <= i < |s| && f(s[i])
    ensures r.Some? ==> exists i :: 0 <= i < |s| && s[i] == r.value && f(s[i])
                                    && forall j :: 0 <= j < i ==> !f(s[j])
  {
    if s == [] then None
    else if f(s[0]) then Some(s[0])
    else
      var r := Find(s[1..], f);
      assert forall i :: 1 <= i < |s| ==> s[i] == s[1..][i - 1];
      if r.Some? then
        assert exists i :: 0 <= i < |s| && f(s[i]) by {
          var k :| 0 <= k < |s[1..]| && s[1..][k] == r.value && f(s[1..][k]);
          assert s[k + 1] == s[1..][k];
        }
        assert exists i :: 0 <= i < |s| && s[i] == r.value && f(s[i]) && forall j :: 0 <= j < i ==> !f(s[j]) by {
          var k :| 0 <= k < |s[1..]| && s[1..][k] == r.value && f(s[1..][k])
                   && forall j :: 0 <= j < k ==> !f(s[1..][j]);
          assert s[k + 1] == s[1..][k];
          assert forall j :: 1 <= j < k + 1 ==> s[j] == s[1..][j - 1];
        }
        r
      else r
  }

  /** Filtering distributes over concatenation. */
  lemma {:induction false} FilterAppend<T>(a: seq<T>, b: seq<T>, f: T -> bool)
    ensures Filter(a + b, f) == Filter(a, f) + Filter(b, f)
  {
    if a != [] {
      FilterAppend(a[1..], b, f);
      assert (a + b)[0] == a[0];
      assert (a + b)[1..] == a[1..] + b;
      if f(a[0]) {
        assert Filter(a + b, f) == [a[0]] + (Filter(a[1..], f) + Filter(b, f));
      }
    } else {
      assert a + b == b;
    }
  }

  /**
   * The element at position `k` of a filtered list is the element of the
   * input that has exactly `k` kept elements before it.
   */
  lemma {:induction false} FilterIndex<T>(s: seq<T>, f: T -> bool, k: nat)
    requires k < |Filter(s, f)|
    ensures exists i :: 0 <= i < |s| && f(s[i]) && Filter(s, f)[k] == s[i] && |Filter(s[..i], f)| == k
    decreases |s|, 1
  {
    var rest := Filter(s[1..], f);
    if f(s[0]) {
      assert Filter(s, f) == [s[0]] + rest;
      if k == 0 {
        assert s[..0] == [];
        assert Filter(s[..0], f) == [];
      } else {
        var i' := FilterIndexStep(s, f, k - 1);
        assert Filter(s[..i' + 1], f) == [s[0]] + Filter(s[1..][..i'], f);
        assert Filter(s, f)[k] == rest[k - 1];
      }
    } else {
      assert Filter(s, f) == rest;
      var i' := FilterIndexStep(s, f, k);
      assert Filter(s[..i' + 1], f) == Filter(s[1..][..i'], f);
    }
  }

  /** The induction step of FilterIndex: the position found in the tail, one further on. */
  lemma {:induction false} FilterIndexStep<T>(s: seq<T>, f: T -> bool, k: nat) returns (i': nat)
    requires s != [] && k < |Filter(s[1..], f)|
    ensures i' < |s| - 1 && f(s[i' + 1]) && Filter(s[1..], f)[k] == s[i' + 1]
    ensures |Filter(s[1..][..i'], f)| == k
    ensures s[..i' + 1][0] == s[0] && s[..i' + 1][1..] == s[1..][..i']
    decreases |s|, 0
  {
    FilterIndex(s[1..], f, k);
    i' :| 0 <= i' < |s[1..]| && f(s[1..][i']) && Filter(s[1..], f)[k] == s[1..][i']
          && |Filter(s[1..][..i'], f)| == k;
    assert s[..i' + 1][1..] == s[1..][..i'];
  }

  /** An element of either part is an element of the concatenation. */
  lemma ConcatMember<T>(a: seq<T>, b: seq<T>, x: T)
    requires x in a || x in b
    ensures x in a + b
  {
  }

  /** A property of every element of both parts holds of every element of the concatenation. */
  lemma ConcatAll<T>(a: seq<T>, b: seq<T>, f: T -> bool)
    requires forall i :: 0 <= i < |a| ==> f(a[i])
    requires forall i :: 0 <= i < |b| ==> f(b[i])
    ensures forall i :: 0 <= i < |a + b| ==> f((a + b)[i])
  {
  }

  /** The positions of a concatenation before `|a|` come from `a`, the rest from `b`. */
  lemma ConcatParts<T>(a: seq<T>, b: seq<T>, f: T -> bool, g: T -> bool)
    requires forall i :: 0 <= i < |a| ==> f(a[i])
    requires forall i :: 0 <= i < |b| ==> g(b[i])
    ensures forall i :: 0 <= i < |a| ==> f((a + b)[i])
    ensures forall i :: |a| <= i < |a + b| ==> g((a + b)[i])
  {
  }

  /** `s.indexOf(x)`: the first index holding `x`, or -1 when there is none. */
  function IndexOf<T(==)>(s: seq<T>, x: T): (r: int)
    ensures -1 <= r < |s|
    ensures r == -1 <==> x !in s
    ensures r >= 0 ==> s[r] == x && forall j :: 0 <= j < r ==> s[j] != x
  {
    if s == [] then -1
    else if s[0] == x then 0
    else
      var k := IndexOf(s[1..], x);
      assert forall j :: 1 <= j < |s| ==> s[j] == s[1..][j - 1];
      if k == -1 then -1 else k + 1
  }
}
