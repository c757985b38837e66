/**
 Catalog policy as ordinary rules (crates/floria-agent/src/managed_rules.rs:10-118), the rule engine
 that evaluates them (crates/floria-core/src/rules.rs:159-205) and the live replacement that decides
 whether a refresh changes anything (crates/floria-agent/src/agent.rs:184-205).
 */
module ManagedRules {
  import opened Prelude
  import opened Order
  import opened Text
  import opened Policy

  // ----- items and their levels -----

  datatype Object = Secret(secretID: string) | Surface(surfaceID: string,
    itemID: string) | SshResource(resourceID: string)

  datatype Item = Item(target: Object, enforcement: Enforcement)

  function Rank(e: Enforcement): nat {
    match e
    case Allow => 0
    case Prompt => 1
    case TouchId => 2
    case Deny => 3
  }

  /** Denying is at least as strict as anything, anything as allowing, and a fingerprint as a click. */
  predicate AtLeast(a: Enforcement, b: Enforcement) {
    a == Deny || b == Allow || a == b || (a == TouchId && b == Prompt)
  }

  function Stricter(left: Enforcement, right: Enforcement): (r: Enforcement)
    ensures AtLeast(r, left) && AtLeast(r, right) && (r == left || r == right)
  {
    if Rank(left) >= Rank(right) then left else right
  }

  /** The strictest level given to an object, if any item names it. */
  function Level(items: seq<Item>, o: Object): Option<Enforcement> {
    if items == [] then None
    else
      var n := |items| - 1;
      var before := Level(items[..n], o);
      if items[n].target != o then before
      else if before.None? then Some(items[n].enforcement)
      else Some(Stricter(before.value, items[n].enforcement))
  }

  /** `Level` is what its name says: attained, and an upper bound. */
  lemma {:induction false} LevelIsStrictest(items: seq<Item>, o: Object)
    ensures Level(items, o).None? <==> forall x :: x in items ==> x.target != o
    ensures Level(items, o).Some? ==>
      && Item(o, Level(items, o).value) in items
      && forall x :: x in items && x.target == o ==> AtLeast(Level(items, o).value, x.enforcement)
    decreases |items|
  {
    if items != [] {
      var n := |items| - 1;
      LevelIsStrictest(items[..n], o);
      assert forall x :: x in items <==> x in items[..n] || x == items[n];
      assert items[n] == Item(items[n].target, items[n].enforcement);
    }
  }

  lemma AtLeastEachOther(a: Enforcement, b: Enforcement)
    requires AtLeast(a, b) && AtLeast(b, a)
    ensures a == b
  {
  }

  /** Levels depend only on which items occur: neither order nor repetition matters. */
  lemma LevelBySet(items: seq<Item>, other: seq<Item>, o: Object)
    requires Elements(items) == Elements(other)
    ensures Level(items, o) == Level(other, o)
  {
    LevelIsStrictest(items, o);
    LevelIsStrictest(other, o);
    assert forall x :: x in items <==> x in Elements(items);
    assert forall x :: x in other <==> x in Elements(other);
    if Level(items, o).Some? && Level(other, o).Some? {
      AtLeastEachOther(Level(items, o).value, Level(other, o).value);
    }
  }

  // ----- normalisation -----

  function ObjectRank(o: Object): nat {
    match o
    case Secret(_) => 0
    case Surface(_, _) => 1
    case SshResource(_) => 2
  }

  predicate ObjectLess(a: Object, b: Object) {
    if ObjectRank(a) != ObjectRank(b) then ObjectRank(a) < ObjectRank(b)
    else match a
      case Secret(id) => b.Secret? && LexLess(id, b.secretID)
      case Surface(id, item) => b.Surface?
        && (LexLess(id, b.surfaceID) || (id == b.surfaceID && LexLess(item, b.itemID)))
      case SshResource(id) => b.SshResource? && LexLess(id, b.resourceID)
  }

  /** The derived order: secrets, then surfaces, then ssh resources, each by its ids. */
  lemma ObjectOrder(a: Object, b: Object)
    ensures ObjectLess(a, b) <==> match a
      case Secret(id) => !b.Secret? || LexLess(id, b.secretID)
      case Surface(id, item) => b.SshResource?
        || (b.Surface? && (LexLess(id, b.surfaceID) || (id == b.surfaceID && LexLess(item, b.itemID))))
      case SshResource(id) => b.SshResource? && LexLess(id, b.resourceID)
  {
  }

  predicate ItemLess(a: Item, b: Item) {
    ObjectLess(a.target, b.target)
  }

  lemma ObjectTotal(a: Object, b: Object)
    ensures ObjectLess(a, b) || ObjectLess(b, a) || a == b
    ensures !(ObjectLess(a, b) && ObjectLess(b, a))
  {
    match (a, b)
    case (Secret(x), Secret(y)) => LexTotal(x, y);
    case (Surface(x, i), Surface(y, j)) =>
      LexTotal(x, y);
      LexTotal(i, j);
      LexTotal(x, x);
    case (SshResource(x), SshResource(y)) => LexTotal(x, y);
    case _ =>
  }

  lemma ObjectTransitive(a: Object, b: Object, c: Object)
    requires ObjectLess(a, b) && ObjectLess(b, c)
    ensures ObjectLess(a, c)
  {
    match (a, b, c)
    case (Secret(x), Secret(y), Secret(z)) => LexTransitive(x, y, z);
    case (Surface(x, i), Surface(y, j), Surface(z, k)) =>
      if LexLess(x, y) && LexLess(y, z) {
        LexTransitive(x, y, z);
      } else if x == y && y == z {
        LexTotal(x, x);
        LexTransitive(i, j, k);
      }
    case (SshResource(x), SshResource(y), SshResource(z)) => LexTransitive(x, y, z);
    case _ =>
  }

  lemma ItemOrder()
    ensures StrictWeak(ItemLess)
  {
    forall x ensures !ItemLess(x, x) {
      ObjectTotal(x.target, x.target);
    }
    forall x, y, z | ItemLess(x, y) && ItemLess(y, z) ensures ItemLess(x, z) {
      ObjectTransitive(x.target, y.target, z.target);
    }
    forall x, y, z | ItemLess(x, z) ensures ItemLess(x, y) || ItemLess(y, z) {
      ObjectTotal(x.target, y.target);
      if ItemLess(y, x) {
        ObjectTransitive(y.target, x.target, z.target);
      }
    }
  }

  /** Neighbours with one object become one item of the stricter level. */
  function Push(merged: seq<Item>, x: Item): seq<Item> {
    var n := |merged| - 1;
    if n >= 0 && merged[n].target == x.target
      then merged[..n] + [Item(x.target, Stricter(merged[n].enforcement, x.enforcement))]
    else merged + [x]
  }

  function Merge(items: seq<Item>): seq<Item> {
    if items == [] then [] else Push(Merge(items[..|items| - 1]), items[|items| - 1])
  }

  function Normalize(items: seq<Item>): seq<Item> {
    Merge(Sort(ItemLess, items))
  }

  /** `normalize_managed_policy`: sort, then one pass that merges into the last item. */
  method NormalizeManagedPolicy(items: seq<Item>) returns (normalized: seq<Item>)
    ensures normalized == Normalize(items)
  {
    var sorted := Sort(ItemLess, items);
    normalized := [];
    for i := 0 to |sorted|
      invariant normalized == Merge(sorted[..i])
    {
      MergeNext(sorted, i);
      var item := sorted[i];
      var n := |normalized| - 1;
      if n >= 0 && normalized[n].target == item.target {
        UpdateLast(normalized, Item(item.target, Stricter(normalized[n].enforcement, item.enforcement)));
        normalized := normalized[n := Item(item.target, Stricter(normalized[n].enforcement, item.enforcement))];
      } else {
        normalized := normalized + [item];
      }
    }
    assert sorted[..|sorted|] == sorted;
  }

  lemma MergeNext(items: seq<Item>, i: nat)
    requires i < |items|
    ensures Merge(items[..i + 1]) == Push(Merge(items[..i]), items[i])
  {
    assert items[..i + 1][..i] == items[..i];
  }

  lemma UpdateLast(s: seq<Item>, x: Item)
    requires s != []
    ensures s[|s| - 1 := x] == s[..|s| - 1] + [x]
  {
  }

  ghost predicate StrictlySorted(items: seq<Item>) {
    forall i, j :: 0 <= i < j < |items| ==> ObjectLess(items[i].target, items[j].target)
  }

  /** Every object of `a` is at most every object of `b`. */
  ghost predicate NotAfter(items: seq<Item>, x: Item) {
    forall y :: y in items ==> !ObjectLess(x.target, y.target)
  }

  lemma PushSorted(merged: seq<Item>, x: Item)
    requires StrictlySorted(merged) && NotAfter(merged, x)
    ensures StrictlySorted(Push(merged, x))
  {
    var n := |merged| - 1;
    if n >= 0 && merged[n].target != x.target {
      assert merged[n] in merged;
      ObjectTotal(merged[n].target, x.target);
      forall i | 0 <= i < n ensures ObjectLess(merged[i].target, x.target) {
        ObjectTransitive(merged[i].target, merged[n].target, x.target);
      }
    }
  }

  lemma {:induction false} LevelAppend(items: seq<Item>, x: Item, o: Object)
    ensures Level(items + [x], o)
         == if x.target != o then Level(items, o)
            else if Level(items, o).None? then Some(x.enforcement)
              else Some(Stricter(Level(items, o).value, x.enforcement))
  {
    assert (items + [x])[..|items|] == items;
  }

  lemma PushLevel(merged: seq<Item>, x: Item, o: Object)
    requires StrictlySorted(merged) && NotAfter(merged, x)
    ensures Level(Push(merged, x), o) == Level(merged + [x], o)
  {
    var n := |merged| - 1;
    LevelAppend(merged, x, o);
    if n >= 0 && merged[n].target == x.target {
      var init, last := merged[..n], merged[n];
      assert merged == init + [last];
      LevelAppend(init, last, o);
      LevelAppend(init, Item(x.target, Stricter(last.enforcement, x.enforcement)), o);
      LevelIsStrictest(init, o);
      if o == x.target {
        forall y | y in init ensures y.target != o {
          var i :| 0 <= i < |init| && init[i] == y;
          assert ObjectLess(merged[i].target, merged[n].target);
          ObjectTotal(o, o);
        }
      }
    }
  }

  lemma {:induction false} MergeObjects(items: seq<Item>, x: Item)
    requires NotAfter(items, x)
    ensures NotAfter(Merge(items), x)
    decreases |items|
  {
    if items != [] {
      var n := |items| - 1;
      assert items[n] in items;
      MergeObjects(items[..n], x);
    }
  }

  /** Merging a sorted list gives a strictly sorted one with the same levels. */
  lemma {:induction false} MergeMeaning(items: seq<Item>)
    requires Sorted(ItemLess, items)
    ensures StrictlySorted(Merge(items)) && forall o :: Level(Merge(items), o) == Level(items, o)
    decreases |items|
  {
    if items != [] {
      var n := |items| - 1;
      var init, last := items[..n], items[n];
      assert items == init + [last];
      MergeMeaning(init);
      assert NotAfter(init, last);
      MergeObjects(init, last);
      PushSorted(Merge(init), last);
      forall o ensures Level(Merge(items), o) == Level(items, o) {
        PushLevel(Merge(init), last, o);
        LevelAppend(Merge(init), last, o);
        LevelAppend(init, last, o);
      }
    }
  }

  ghost predicate SameLevels(items: seq<Item>, other: seq<Item>) {
    forall o :: Level(items, o) == Level(other, o)
  }

  lemma NormalizeMeaning(items: seq<Item>)
    ensures StrictlySorted(Normalize(items)) && SameLevels(Normalize(items), items)
  {
    ItemOrder();
    SortSorts(ItemLess, items);
    MergeMeaning(Sort(ItemLess, items));
    MembersByMultiset(Sort(ItemLess, items), items);
    forall o ensures Level(Normalize(items), o) == Level(items, o) {
      LevelBySet(Sort(ItemLess, items), items, o);
    }
  }

  lemma StrictMember(items: seq<Item>, x: Item)
    requires StrictlySorted(items)
    ensures x in items <==> Level(items, x.target) == Some(x.enforcement)
  {
    LevelIsStrictest(items, x.target);
    assert x == Item(x.target, x.enforcement);
    if x in items {
      var y := Item(x.target, Level(items, x.target).value);
      var i :| 0 <= i < |items| && items[i] == x;
      var j :| 0 <= j < |items| && items[j] == y;
      ObjectTotal(x.target, x.target);
      assert i == j;
    }
  }

  lemma StrictFacts(items: seq<Item>)
    requires StrictlySorted(items)
    ensures Distinct(items) && Sorted(ItemLess, items) && Comparable(ItemLess, items)
  {
    forall i, j | 0 <= i < j < |items| ensures items[i] != items[j] && !ItemLess(items[j], items[i]) {
      ObjectTotal(items[i].target, items[j].target);
    }
    forall x, y | x in items && y in items && x != y ensures ItemLess(x, y) || ItemLess(y, x) {
      var i :| 0 <= i < |items| && items[i] == x;
      var j :| 0 <= j < |items| && items[j] == y;
      assert i < j || j < i;
    }
  }

  /** A strictly sorted list is determined by its levels. */
  lemma StrictUnique(items: seq<Item>, other: seq<Item>)
    requires StrictlySorted(items) && StrictlySorted(other) && SameLevels(items, other)
    ensures items == other
  {
    StrictFacts(items);
    StrictFacts(other);
    forall x ensures x in items <==> x in other {
      StrictMember(items, x);
      StrictMember(other, x);
      assert Level(items, x.target) == Level(other, x.target);
    }
    SameElementsDistinct(items, other);
    SortedUnique(ItemLess, items, other);
  }

  /** Normalisation is canonical: two lists normalise to the same list exactly when they
    agree on every object's strictest level. */
  lemma NormalizeIsCanonical(items: seq<Item>, other: seq<Item>)
    ensures Normalize(items) == Normalize(other) <==> SameLevels(items, other)
  {
    NormalizeMeaning(items);
    NormalizeMeaning(other);
    if SameLevels(items, other) {
      forall o ensures Level(Normalize(items), o) == Level(Normalize(other), o) {
        assert Level(Normalize(items), o) == Level(items, o) && Level(Normalize(other), o) == Level(other, o);
      }
      StrictUnique(Normalize(items), Normalize(other));
    } else {
      var o :| Level(items, o) != Level(other, o);
      assert Level(Normalize(items), o) == Level(items, o) && Level(Normalize(other), o) == Level(other, o);
    }
  }

  /** Hence it is idempotent and blind to order and repetition. */
  lemma NormalizeIsStable(items: seq<Item>, other: seq<Item>)
    requires Elements(items) == Elements(other)
    ensures Normalize(items) == Normalize(other) && Normalize(Normalize(items)) == Normalize(items)
  {
    forall o ensures Level(items, o) == Level(other, o) {
      LevelBySet(items, other, o);
    }
    NormalizeIsCanonical(items, other);
    NormalizeMeaning(items);
    NormalizeIsCanonical(Normalize(items), items);
  }
}
