/** Wrappers shared by every module: an optional value and a checked result. */
module Prelude {
  datatype Option<+T> = None | Some(value: T)

  /** A throwing Swift call or a Rust `Result`. */
  datatype Result<+T, +E> = Ok(value: T) | Err(error: E) {
    predicate IsFailure() {
      Err?
    }
    function PropagateFailure<U>(): Result<U, E>
      requires Err?
    {
      Err(error)
    }
    function Extract(): T
      requires Ok?
    {
      value
    }
  }

  /** One octet of a payload. */
  type Byte = b: int | 0 <= b < 256

  /** The elements of a sequence, without order or multiplicity. */
  function Elements<T>(s: seq<T>): set<T> {
    set x | x in s
  }

  ghost predicate Distinct<T>(s: seq<T>) {
    forall i, j :: 0 <= i < j < |s| ==> s[i] != s[j]
  }

  function Map<A, B>(f: A -> B, s: seq<A>): (r: seq<B>)
    ensures |r| == |s| && forall i :: 0 <= i < |s| ==> r[i] == f(s[i])
  {
    seq(|s|, i requires 0 <= i < |s| => f(s[i]))
  }

  lemma MapAppend<A, B>(f: A -> B, s: seq<A>, x: A)
    ensures Map(f, s + [x]) == Map(f, s) + [f(x)]
  {
  }

  function Without<T>(s: seq<T>, i: nat): seq<T>
    requires i < |s|
  {
    s[..i] + s[i + 1..]
  }

  lemma WithoutOne<T>(s: seq<T>, i: nat)
    requires i < |s|
    ensures multiset(s) == multiset(Without(s, i)) + multiset{s[i]}
  {
    assert s == s[..i] + [s[i]] + s[i + 1..];
  }

  lemma MapWithout<A, B>(f: A -> B, s: seq<A>, i: nat)
    requires i < |s|
    ensures multiset(Map(f, s)) == multiset(Map(f, Without(s, i))) + multiset{f(s[i])}
  {
    WithoutOne(Map(f, s), i);
    assert Without(Map(f, s), i) == Map(f, Without(s, i));
  }

  /** Where the last element of `s` stands in a permutation of `s`, and that the rests are permutations. */
  lemma FindLast<T>(s: seq<T>, t: seq<T>) returns (i: nat)
    requires s != [] && multiset(s) == multiset(t)
    ensures i < |t| && t[i] == s[|s| - 1]
    ensures multiset(s[..|s| - 1]) == multiset(Without(t, i))
  {
    var n := |s| - 1;
    assert s[n] in multiset(s);
    i :| 0 <= i < |t| && t[i] == s[n];
    WithoutOne(t, i);
    assert s == s[..n] + [s[n]];
    assert multiset(s[..n]) == multiset(s) - multiset{s[n]} && multiset(Without(t, i)) == multiset(t) - multiset{s[n]};
  }

  lemma SplitAtLast<T>(s: seq<T>, t: seq<T>) returns (a: seq<T>, b: seq<T>)
    requires s != [] && multiset(s) == multiset(t)
    ensures t == a + [s[|s| - 1]] + b && multiset(s[..|s| - 1]) == multiset(a + b)
  {
    var i := FindLast(s, t);
    a, b := t[..i], t[i + 1..];
  }

  /** Mapping keeps permutations. */
  lemma {:induction false} MapPermutation<A, B>(f: A -> B, s: seq<A>, t: seq<A>)
    requires multiset(s) == multiset(t)
    ensures multiset(Map(f, s)) == multiset(Map(f, t))
    decreases |s|
  {
    if s == [] {
      assert |multiset(t)| == 0;
    } else {
      var n := |s| - 1;
      var i := FindLast(s, t);
      MapPermutation(f, s[..n], Without(t, i));
      MapWithout(f, t, i);
      MapAppend(f, s[..n], s[n]);
      assert s == s[..n] + [s[n]];
    }
  }

  lemma {:induction false} DistinctCounts<T>(s: seq<T>)
    ensures Distinct(s) <==> forall x :: multiset(s)[x] <= 1
    decreases |s|
  {
    if s != [] {
      var n := |s| - 1;
      var init := s[..n];
      DistinctCounts(init);
      assert s == init + [s[n]];
      if Distinct(s) {
        assert s[n] !in init;
      } else if Distinct(init) {
        assert s[n] in init;
        assert multiset(s)[s[n]] > 1;
      } else {
        var x :| multiset(init)[x] > 1;
        assert multiset(s)[x] > 1;
      }
    }
  }

  /** Having no repetition is a property of the multiset. */
  lemma DistinctPermutation<T>(s: seq<T>, t: seq<T>)
    requires multiset(s) == multiset(t) && Distinct(s)
    ensures Distinct(t)
  {
    DistinctCounts(s);
    DistinctCounts(t);
  }

  lemma SameElementsDistinct<T(!new)>(s: seq<T>, t: seq<T>)
    requires Distinct(s) && Distinct(t) && (forall x :: x in s <==> x in t)
    ensures multiset(s) == multiset(t)
  {
    DistinctCounts(s);
    DistinctCounts(t);
    forall x ensures multiset(s)[x] == multiset(t)[x] {
      assert x in s <==> x in multiset(s);
      assert x in t <==> x in multiset(t);
    }
  }

  /** No two elements share a key. */
  ghost predicate DistinctBy<A, K>(key: A -> K, s: seq<A>) {
    Distinct(Map(key, s))
  }

  lemma SameKey<A, K>(key: A -> K, s: seq<A>, a: A, b: A)
    requires DistinctBy(key, s) && a in s && b in s && key(a) == key(b)
    ensures a == b
  {
    var i :| 0 <= i < |s| && s[i] == a;
    var j :| 0 <= j < |s| && s[j] == b;
    assert Map(key, s)[i] == Map(key, s)[j];
  }
}
