/** Picking the elements of a sequence that have a certain form: the `switch` that files records into lists. */
module Selection {
  import opened Prelude
  import opened Order

  function Select<A, T>(f: A -> Option<T>, s: seq<A>): seq<T> {
    if s == [] then []
    else
      var n := |s| - 1;
      Select(f, s[..n]) + Chosen(f, s[n])
  }

  lemma SelectAppend<A, T>(f: A -> Option<T>, s: seq<A>, d: A)
    ensures Select(f, s + [d]) == Select(f, s) + Chosen(f, d)
  {
    assert (s + [d])[..|s|] == s;
  }

  lemma {:induction false} SelectConcat<A, T>(f: A -> Option<T>, a: seq<A>, b: seq<A>)
    ensures Select(f, a + b) == Select(f, a) + Select(f, b)
    decreases |b|
  {
    if b == [] {
      assert a + b == a;
    } else {
      var n := |b| - 1;
      assert a + b == (a + b[..n]) + [b[n]];
      SelectAppend(f, a + b[..n], b[n]);
      SelectConcat(f, a, b[..n]);
    }
  }

  lemma {:induction false} SelectMapped<B(!new), A, T>(f: A -> Option<T>, g: B -> A, s: seq<B>)
    ensures (forall x :: f(g(x)) == None) ==> Select(f, Map(g, s)) == []
    decreases |s|
  {
    if s != [] {
      var n := |s| - 1;
      SelectMapped(f, g, s[..n]);
      assert Map(g, s)[..n] == Map(g, s[..n]);
    }
  }

  lemma {:induction false} SelectInverse<A, T(!new)>(f: A -> Option<T>, g: T -> A, s: seq<T>)
    requires forall x :: f(g(x)) == Some(x)
    ensures Select(f, Map(g, s)) == s
    decreases |s|
  {
    if s != [] {
      var n := |s| - 1;
      SelectInverse(f, g, s[..n]);
      assert Map(g, s)[..n] == Map(g, s[..n]);
    }
  }

  function Chosen<A, T>(f: A -> Option<T>, d: A): seq<T> {
    match f(d)
    case Some(x) => [x]
    case None => []
  }

  lemma MiddleOut<T>(x: seq<T>, y: seq<T>, z: seq<T>)
    ensures multiset(x + y + z) == multiset(x + z) + multiset(y)
  {
  }

  lemma SelectThree<A, T>(f: A -> Option<T>, a: seq<A>, d: A, b: seq<A>)
    ensures Select(f, a + [d] + b) == Select(f, a) + Chosen(f, d) + Select(f, b)
  {
    SelectConcat(f, a + [d], b);
    SelectAppend(f, a, d);
  }

  lemma SelectMiddleOut<A, T>(f: A -> Option<T>, a: seq<A>, d: A, b: seq<A>)
    ensures multiset(Select(f, a + [d] + b)) == multiset(Select(f, a + b)) + multiset(Chosen(f, d))
  {
    SelectThree(f, a, d, b);
    SelectConcat(f, a, b);
    MiddleOut(Select(f, a), Chosen(f, d), Select(f, b));
  }

  lemma {:induction false} SelectPermutation<A, T>(f: A -> Option<T>, s: seq<A>, t: seq<A>)
    requires multiset(s) == multiset(t)
    ensures multiset(Select(f, s)) == multiset(Select(f, t))
    decreases |s|
  {
    if s == [] {
      assert |multiset(t)| == 0;
    } else {
      var n := |s| - 1;
      var a, b := SplitAtLast(s, t);
      SelectPermutation(f, s[..n], a + b);
      SelectMiddleOut(f, a, s[n], b);
      MiddleOut(Select(f, s[..n]), Chosen(f, s[n]), []);
      assert Select(f, s[..n]) + Chosen(f, s[n]) + [] == Select(f, s) && Select(f, s[..n]) + [] == Select(f, s[..n]);
    }
  }

  lemma {:induction false} SelectedFrom<A(!new), T>(f: A -> Option<T>, s: seq<A>, x: T)
    requires x in Select(f, s)
    ensures exists d :: d in s && f(d) == Some(x)
    decreases |s|
  {
    var n := |s| - 1;
    if f(s[n]) == Some(x) {
      assert s[n] in s;
    } else {
      SelectedFrom(f, s[..n], x);
    }
  }

  lemma {:induction false} SelectHas<A(!new), T>(f: A -> Option<T>, s: seq<A>, d: A)
    requires d in s && f(d).Some?
    ensures f(d).value in Select(f, s)
    decreases |s|
  {
    var n := |s| - 1;
    if d != s[n] {
      assert d in s[..n];
      SelectHas(f, s[..n], d);
    }
  }

  /** Sorting what is picked forgets the order it came in. */
  lemma SortsAgree<A, T(!new)>(less: (T, T) -> bool, f: A -> Option<T>, s: seq<A>, t: seq<A>)
    requires StrictWeak(less) && Comparable(less, Select(f, s)) && multiset(s) == multiset(t)
    ensures Sort(less, Select(f, s)) == Sort(less, Select(f, t))
  {
    SelectPermutation(f, s, t);
    SortForgetsOrder(less, Select(f, s), Select(f, t));
  }
}
