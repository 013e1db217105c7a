/** Sequence helpers shared by the server and client modules: the array
    operations (`filter`, `find`, `reduce`, "push when found") that the
    TypeScript code uses, each defined once with its contract. */
module Common {

  datatype Option<T> = None | Some(value: T)

  function Min(a: int, b: int): int { if a <= b then a else b }

  /** `xs || []`: a list that may still be loading reads as empty. */
  function OrEmpty<T>(xs: Option<seq<T>>): seq<T>
  {
    if xs.Some? then xs.value else []
  }

  /** `Array.prototype.filter`: the elements satisfying `p`, in order.
      Defined from the back, as a loop that pushes onto a result builds it. */
  function Filter<T>(s: seq<T>, p: T -> bool): (r: seq<T>)
    ensures |r| <= |s|
  {
    if s == [] then [] else Filter(s[..|s| - 1], p) + (if p(s[|s| - 1]) then [s[|s| - 1]] else [])
  }

  /** A filter keeps exactly the elements that satisfy the predicate. */
  lemma {:induction false} FilterMembers<T>(s: seq<T>, p: T -> bool)
    ensures forall i :: 0 <= i < |Filter(s, p)| ==> Filter(s, p)[i] in s && p(Filter(s, p)[i])
    ensures forall i :: 0 <= i < |s| && p(s[i]) ==> s[i] in Filter(s, p)
  {
    if s != [] {
      var init := s[..|s| - 1];
      assert s == init + [s[|s| - 1]];
      FilterMembers(init, p);
    }
  }

  /** "Look each element up; push the result when the lookup succeeds." */
  function FilterMap<A, B>(s: seq<A>, f: A -> Option<B>): (r: seq<B>)
    ensures |r| <= |s|
  {
    if s == [] then [] else FilterMap(s[..|s| - 1], f) + (match f(s[|s| - 1]) case Some(y) => [y] case None => [])
  }

  /** One more element looked up at the end adds at most its own result. */
  lemma FilterMapSnoc<A, B>(s: seq<A>, x: A, f: A -> Option<B>)
    ensures FilterMap(s + [x], f) == FilterMap(s, f) + (match f(x) case Some(y) => [y] case None => [])
  {
    assert (s + [x])[..|s|] == s;
  }

  /** Every result of a `FilterMap` is the lookup of some element. */
  lemma {:induction false} FilterMapFound<A, B>(s: seq<A>, f: A -> Option<B>)
    ensures forall i :: 0 <= i < |FilterMap(s, f)| ==>
      exists j :: 0 <= j < |s| && f(s[j]) == Some(FilterMap(s, f)[i])
  {
    if s != [] {
      var init := s[..|s| - 1];
      var last := s[|s| - 1];
      assert s == init + [last];
      FilterMapFound(init, f);
      var r0 := FilterMap(init, f);
      var r := FilterMap(s, f);
      forall i | 0 <= i < |r|
        ensures exists j :: 0 <= j < |s| && f(s[j]) == Some(r[i])
      {
        if i < |r0| {
          assert r[i] == r0[i];
          var j :| 0 <= j < |init| && f(init[j]) == Some(r0[i]);
          assert s[j] == init[j];
        } else {
          assert f(s[|s| - 1]) == Some(r[i]);
        }
      }
      assert forall i :: 0 <= i < |r| ==> exists j :: 0 <= j < |s| && f(s[j]) == Some(r[i]);
    } else {
      assert FilterMap(s, f) == [];
    }
  }

  /** `Array.prototype.map`. */
  function MapSeq<A, B>(s: seq<A>, f: A -> B): (r: seq<B>)
    ensures |r| == |s| && forall i :: 0 <= i < |s| ==> r[i] == f(s[i])
  {
    seq(|s|, i requires 0 <= i < |s| => f(s[i]))
  }

  /** `Array.prototype.find`, and a query that keeps its first row. */
  function FirstWhere<T>(s: seq<T>, p: T -> bool): Option<T>
  {
    if s == [] then None
    else if p(s[0]) then Some(s[0])
    else FirstWhere(s[1..], p)
  }

  /** `FirstWhere` finds nothing exactly when no element satisfies `p`, and
      otherwise the first element that does. */
  lemma {:induction false} FirstWhereSpec<T>(s: seq<T>, p: T -> bool)
    ensures FirstWhere(s, p).None? <==> forall i :: 0 <= i < |s| ==> !p(s[i])
    ensures FirstWhere(s, p).Some? ==>
      exists i :: 0 <= i < |s| && s[i] == FirstWhere(s, p).value && p(s[i]) && forall j :: 0 <= j < i ==> !p(s[j])
  {
    if s != [] && !p(s[0]) {
      FirstWhereSpec(s[1..], p);
      var r := FirstWhere(s[1..], p);
      if r.Some? {
        var i :| 0 <= i < |s[1..]| && s[1..][i] == r.value && p(s[1..][i]) && forall j :: 0 <= j < i ==> !p(s[1..][j]);
        assert forall j :: 0 <= j < i + 1 ==> !p(s[j]) by {
          forall j | 0 <= j < i + 1 ensures !p(s[j]) {
            if j > 0 { assert s[j] == s[1..][j - 1]; }
          }
        }
        assert s[i + 1] == r.value;
      } else {
        forall i | 0 <= i < |s| ensures !p(s[i]) {
          if i > 0 { assert s[i] == s[1..][i - 1]; }
        }
      }
    } else if s != [] {
      assert p(s[0]);
    }
  }

  /** Searching a mapped sequence, when the map does not change what the
      search looks at, finds the image of what searching the original finds. */
  lemma {:induction false} FirstWhereOfMap<A, B>(s: seq<A>, g: A -> B, p: B -> bool, q: A -> bool)
    requires forall x :: p(g(x)) == q(x)
    ensures FirstWhere(MapSeq(s, g), p) == match FirstWhere(s, q) case None => None case Some(x) => Some(g(x))
  {
    if s != [] {
      assert MapSeq(s, g)[1..] == MapSeq(s[1..], g);
      FirstWhereOfMap(s[1..], g, p, q);
    }
  }

  /** `reduce((sum, x) => sum + f(x), 0)`. */
  function SumOf<T>(s: seq<T>, f: T -> real): real
  {
    if s == [] then 0.0 else SumOf(s[..|s| - 1], f) + f(s[|s| - 1])
  }

  /** `a` is `b` with some elements deleted: an order-preserving subsequence. */
  ghost predicate SubsequenceOf<T>(a: seq<T>, b: seq<T>)
  {
    if a == [] then true
    else if b == [] then false
    else
      SubsequenceOf(a, b[..|b| - 1])
      || (a[|a| - 1] == b[|b| - 1] && SubsequenceOf(a[..|a| - 1], b[..|b| - 1]))
  }

  lemma {:induction false} FilterIsSubsequence<T>(s: seq<T>, p: T -> bool)
    ensures SubsequenceOf(Filter(s, p), s)
  {
    if s != [] {
      var init := s[..|s| - 1];
      FilterIsSubsequence(init, p);
      var f := Filter(init, p);
      if p(s[|s| - 1]) {
        assert Filter(s, p) == f + [s[|s| - 1]];
        assert (f + [s[|s| - 1]])[..|f|] == f;
      } else {
        assert Filter(s, p) == f;
      }
    }
  }

  /** Filtering distributes over concatenation. */
  lemma {:induction false} FilterAppend<T>(a: seq<T>, b: seq<T>, p: T -> bool)
    ensures Filter(a + b, p) == Filter(a, p) + Filter(b, p)
  {
    if b == [] {
      assert a + b == a;
    } else {
      var init := b[..|b| - 1];
      assert (a + b)[..|a + b| - 1] == a + init;
      FilterAppend(a, init, p);
    }
  }

  /** Two filters in a row are one filter by the conjunction. */
  lemma {:induction false} FilterFilter<T>(s: seq<T>, p: T -> bool, q: T -> bool, both: T -> bool)
    requires forall x :: both(x) == (p(x) && q(x))
    ensures Filter(Filter(s, p), q) == Filter(s, both)
  {
    if s != [] {
      var init := s[..|s| - 1];
      var last := s[|s| - 1];
      assert s == init + [last];
      FilterFilter(init, p, q, both);
      assert Filter(s, both) == Filter(init, both) + (if both(last) then [last] else []);
      var f := Filter(init, p);
      if p(last) {
        assert Filter(s, p) == f + [last];
        assert (f + [last])[..|f|] == f;
        assert Filter(f + [last], q) == Filter(f, q) + (if q(last) then [last] else []);
      } else {
        assert Filter(s, p) == f;
      }
    }
  }

  /** Filtering with a predicate that holds everywhere keeps everything. */
  lemma {:induction false} FilterKeepsAll<T>(s: seq<T>, p: T -> bool)
    requires forall x :: x in s ==> p(x)
    ensures Filter(s, p) == s
  {
    if s != [] {
      var init := s[..|s| - 1];
      assert s == init + [s[|s| - 1]];
      FilterKeepsAll(init, p);
    }
  }

  /** Filtering depends only on the values of the predicate on the elements. */
  lemma {:induction false} FilterExtensional<T>(s: seq<T>, p: T -> bool, q: T -> bool)
    requires forall x :: x in s ==> p(x) == q(x)
    ensures Filter(s, p) == Filter(s, q)
  {
    if s != [] {
      var init := s[..|s| - 1];
      assert s == init + [s[|s| - 1]];
      FilterExtensional(init, p, q);
    }
  }

  lemma {:induction false} FilterMapExtensional<A, B>(s: seq<A>, f: A -> Option<B>, g: A -> Option<B>)
    requires forall x :: x in s ==> f(x) == g(x)
    ensures FilterMap(s, f) == FilterMap(s, g)
  {
    if s != [] {
      var init := s[..|s| - 1];
      assert s == init + [s[|s| - 1]];
      FilterMapExtensional(init, f, g);
    }
  }

  /** When every found value names the element it was found for, the
      results of `FilterMap`, read back through that name, are exactly the
      elements whose lookup succeeds, in their original order. */
  lemma {:induction false} FilterMapKeys<A, B>(s: seq<A>, f: A -> Option<B>, key: B -> A, found: A -> bool)
    requires forall x :: found(x) == f(x).Some?
    requires forall x :: f(x).Some? ==> key(f(x).value) == x
    ensures MapSeq(FilterMap(s, f), key) == Filter(s, found)
  {
    if s != [] {
      var init := s[..|s| - 1];
      var last := s[|s| - 1];
      assert s == init + [last];
      FilterMapKeys(init, f, key, found);
      var r0 := FilterMap(init, f);
      if f(last).Some? {
        assert FilterMap(s, f) == r0 + [f(last).value];
        assert MapSeq(r0 + [f(last).value], key) == MapSeq(r0, key) + [key(f(last).value)];
      } else {
        assert FilterMap(s, f) == r0;
      }
    }
  }

  lemma {:induction false} SumOfAppend<T>(a: seq<T>, b: seq<T>, f: T -> real)
    ensures SumOf(a + b, f) == SumOf(a, f) + SumOf(b, f)
  {
    if b == [] {
      assert a + b == a;
    } else {
      var init := b[..|b| - 1];
      assert (a + b)[..|a + b| - 1] == a + init;
      SumOfAppend(a, init, f);
    }
  }

  lemma {:induction false} SumOfNonNegative<T>(s: seq<T>, f: T -> real)
    requires forall x :: x in s ==> f(x) >= 0.0
    ensures SumOf(s, f) >= 0.0
  {
    if s != [] {
      assert forall x :: x in s[..|s| - 1] ==> x in s;
      SumOfNonNegative(s[..|s| - 1], f);
    }
  }

  lemma {:induction false} SumOfExtensional<T>(s: seq<T>, f: T -> real, g: T -> real)
    requires forall x :: x in s ==> f(x) == g(x)
    ensures SumOf(s, f) == SumOf(s, g)
  {
    if s != [] {
      assert forall x :: x in s[..|s| - 1] ==> x in s;
      SumOfExtensional(s[..|s| - 1], f, g);
    }
  }
}
