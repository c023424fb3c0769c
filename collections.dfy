/** Sequence helpers shared by the money and tax components. */
module Collections {

  /** The elements of `s` that satisfy `p`, in their original order
      (Ruby's `find_all` / `select`). Defined from the end so that a loop
      that appends the kept elements one by one is easy to relate to it. */
  function Filter<T>(s: seq<T>, p: T -> bool): (r: seq<T>)
    ensures |r| <= |s|
  {
    if |s| == 0 then []
    else
      var init := Filter(s[..|s| - 1], p);
      var last := s[|s| - 1];
      if p(last) then init + [last] else init
  }

  /** The filter keeps exactly the elements that satisfy the predicate, each
      as often as it occurs in `s`, and no other element. */
  lemma {:induction false} FilterKeeps<T(!new)>(s: seq<T>, p: T -> bool)
    ensures forall x :: x in Filter(s, p) <==> x in s && p(x)
    ensures forall x :: multiset(Filter(s, p))[x] == if p(x) then multiset(s)[x] else 0
  {
    if |s| > 0 {
      var init, last := s[..|s| - 1], s[|s| - 1];
      FilterKeeps(init, p);
      assert s == init + [last];
    }
  }

  /** Filtering with a predicate that every element meets keeps everything. */
  lemma {:induction false} FilterAll<T(!new)>(s: seq<T>, p: T -> bool)
    requires forall x :: x in s ==> p(x)
    ensures Filter(s, p) == s
  {
    if |s| > 0 {
      var init, last := s[..|s| - 1], s[|s| - 1];
      assert s == init + [last];
      FilterAll(init, p);
      assert p(last);
      calc {
        Filter(s, p);
        Filter(init, p) + [last];
        init + [last];
        s;
      }
    }
  }

  /** Filtering with a predicate that no element meets keeps nothing. */
  lemma {:induction false} FilterNone<T(!new)>(s: seq<T>, p: T -> bool)
    requires forall x :: x in s ==> !p(x)
    ensures Filter(s, p) == []
  {
    if |s| > 0 {
      var init, last := s[..|s| - 1], s[|s| - 1];
      assert s == init + [last];
      FilterNone(init, p);
      assert !p(last);
    }
  }

  /** Two filters whose predicates never hold together select disjoint parts
      of `s`: together they never hold more copies of an element than `s`,
      and exactly as many when every element meets one of the two. */
  lemma DisjointFilters<T(!new)>(s: seq<T>, p: T -> bool, q: T -> bool)
    requires forall x :: x in s ==> !(p(x) && q(x))
    ensures multiset(Filter(s, p)) + multiset(Filter(s, q)) <= multiset(s)
    ensures (forall x :: x in s ==> p(x) || q(x)) ==>
              multiset(Filter(s, p)) + multiset(Filter(s, q)) == multiset(s)
    ensures forall x :: !(x in Filter(s, p) && x in Filter(s, q))
  {
    FilterKeeps(s, p);
    FilterKeeps(s, q);
    var a, b := multiset(Filter(s, p)), multiset(Filter(s, q));
    forall x ensures (a + b)[x] <= multiset(s)[x] {
      if x in s { assert !(p(x) && q(x)); }
    }
    if forall x :: x in s ==> p(x) || q(x) {
      forall x ensures (a + b)[x] == multiset(s)[x] {
        if x in s { assert p(x) || q(x); }
      }
      assert a + b == multiset(s);
    }
  }
}
