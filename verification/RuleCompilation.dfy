/**
 Compiling normalised catalog items to rules (managed_rules.rs:41-106) preserves policy: first match
 over the compiled rules is the direct reading of the items.
 */
module RuleCompilation {
  import opened Prelude
  import opened Order
  import opened Text
  import opened Policy
  import opened ManagedRules
  import Agent

  // ----- the rule engine -----

  /** Who reads: the identity facets that base rules look at. */
  datatype Reader = Reader(identity: string, repo: Option<string>)

  datatype Request = Request(path: string, operation: Operation, resource: Option<string>, reader: Reader)

  /** A rule, with its subject, path,
    object and operation matchers as one predicate; a disabled rule matches nothing. */
  datatype Rule = Rule(priority: int, enforcement: Enforcement, matches: Request -> bool)

  const RESOURCE_PRIORITY := -0x8000_0000 + 3
  const ITEM_PRIORITY := -0x8000_0000 + 2

  predicate HigherFirst(a: Rule, b: Rule) {
    a.priority > b.priority
  }

  /** A rule set: descending priority, insertion order among equals. */
  function RuleSet(rules: seq<Rule>): seq<Rule> {
    Sort(HigherFirst, rules)
  }

  /** The first matching rule decides; none at all denies. */
  function Decide(rules: seq<Rule>, req: Request): Enforcement {
    if rules == [] then Deny
    else if rules[0].matches(req) then rules[0].enforcement
    else Decide(rules[1..], req)
  }

  function Matching(rules: seq<Rule>, req: Request): seq<Rule> {
    if rules == [] then []
    else (if rules[0].matches(req) then [rules[0]] else []) + Matching(rules[1..], req)
  }

  lemma {:induction false} DecideMatching(rules: seq<Rule>, req: Request)
    ensures Decide(rules, req) == if Matching(rules, req) == [] then Deny else Matching(rules, req)[0].enforcement
  {
    if rules != [] {
      DecideMatching(rules[1..], req);
    }
  }

  lemma {:induction false} MatchingMembers(rules: seq<Rule>, req: Request)
    ensures forall r :: r in Matching(rules, req) <==> r in rules && r.matches(req)
  {
    if rules != [] {
      MatchingMembers(rules[1..], req);
      assert forall r :: r in rules <==> r == rules[0] || r in rules[1..];
    }
  }

  lemma {:induction false} MatchingConcat(a: seq<Rule>, b: seq<Rule>, req: Request)
    ensures Matching(a + b, req) == Matching(a, req) + Matching(b, req)
  {
    if a == [] {
      assert a + b == b;
    } else {
      assert (a + b)[0] == a[0] && (a + b)[1..] == a[1..] + b;
      MatchingConcat(a[1..], b, req);
    }
  }

  lemma HigherFirstOrder()
    ensures StrictWeak(HigherFirst)
  {
  }

  lemma SortedTail(s: seq<Rule>)
    requires s != [] && Sorted(HigherFirst, s)
    ensures Sorted(HigherFirst, s[1..]) && forall r :: r in s[1..] ==> r.priority <= s[0].priority
  {
    forall r | r in s[1..] ensures r.priority <= s[0].priority {
      var i :| 0 <= i < |s[1..]| && s[1..][i] == r;
      assert !HigherFirst(s[i + 1], s[0]);
    }
  }

  /** A rule that outranks a list, or ties with it, is inserted in front. */
  lemma InsertFront(x: Rule, s: seq<Rule>)
    requires forall r :: r in s ==> r.priority <= x.priority
    ensures Insert(HigherFirst, x, s) == [x] + s
  {
    if s != [] {
      assert s[0] in s;
    }
  }

  lemma InsertBehind(x: Rule, first: Rule, rest: seq<Rule>)
    requires HigherFirst(first, x)
    ensures Insert(HigherFirst, x, [first] + rest) == [first] + Insert(HigherFirst, x, rest)
  {
    assert ([first] + rest)[1..] == rest;
  }

  lemma MatchingCons(first: Rule, rest: seq<Rule>, req: Request)
    ensures Matching([first] + rest, req) == (if first.matches(req) then [first] else []) + Matching(rest, req)
  {
    assert ([first] + rest)[1..] == rest;
  }

  ghost predicate InsertCommutes(x: Rule, s: seq<Rule>, req: Request) {
    Matching(Insert(HigherFirst, x, s), req) == if x.matches(req) then Insert(HigherFirst, x, Matching(s, req))
      else Matching(s, req)
  }

  lemma InsertCommutesInFront(x: Rule, s: seq<Rule>, req: Request)
    requires forall r :: r in s ==> r.priority <= x.priority
    ensures InsertCommutes(x, s, req)
  {
    InsertFront(x, s);
    MatchingCons(x, s, req);
    MatchingMembers(s, req);
    InsertFront(x, Matching(s, req));
  }

  lemma InsertCommutesBehind(x: Rule, first: Rule, rest: seq<Rule>, req: Request)
    requires HigherFirst(first, x) && InsertCommutes(x, rest, req)
    ensures InsertCommutes(x, [first] + rest, req)
  {
    var inserted, matching := Insert(HigherFirst, x, rest), Matching(rest, req);
    InsertBehind(x, first, rest);
    MatchingCons(first, rest, req);
    MatchingCons(first, inserted, req);
    InsertBehind(x, first, matching);
    Heads(first, req, matching, Matching(inserted, req));
  }

  lemma Heads(first: Rule, req: Request, a: seq<Rule>, b: seq<Rule>)
    ensures !first.matches(req) ==>
      (if first.matches(req) then [first] else []) + a == a && (if first.matches(req) then [first] else []) + b == b
  {
  }

  lemma {:induction false} NoneMatch(rules: seq<Rule>, req: Request)
    requires forall r :: r in rules ==> !r.matches(req)
    ensures Matching(rules, req) == []
  {
    if rules != [] {
      assert rules[0] in rules && forall r :: r in rules[1..] ==> r in rules;
      NoneMatch(rules[1..], req);
    }
  }

  lemma {:induction false} MatchingInsert(x: Rule, s: seq<Rule>, req: Request)
    requires Sorted(HigherFirst, s)
    ensures InsertCommutes(x, s, req)
  {
    if s == [] || !HigherFirst(s[0], x) {
      if s != [] {
        SortedTail(s);
        assert forall r :: r in s <==> r == s[0] || r in s[1..];
      }
      InsertCommutesInFront(x, s, req);
    } else {
      SortedTail(s);
      MatchingInsert(x, s[1..], req);
      assert s == [s[0]] + s[1..];
      InsertCommutesBehind(x, s[0], s[1..], req);
    }
  }

  /** Sorting is stable, so it commutes with dropping the rules that do not match. */
  lemma {:induction false} MatchingSorted(rules: seq<Rule>, req: Request)
    ensures Matching(RuleSet(rules), req) == RuleSet(Matching(rules, req))
  {
    if rules != [] {
      MatchingSorted(rules[1..], req);
      HigherFirstOrder();
      SortSorts(HigherFirst, rules[1..]);
      MatchingInsert(rules[0], RuleSet(rules[1..]), req);
      if rules[0].matches(req) {
        var m := Matching(rules, req);
        assert m[0] == rules[0] && m[1..] == Matching(rules[1..], req);
      } else {
        assert Matching(rules, req) == Matching(rules[1..], req);
      }
    }
  }

  /** Rules that do not match a request play no part in deciding it. */
  lemma UnmatchedRulesDoNotCount(base: seq<Rule>, added: seq<Rule>, req: Request)
    requires forall r :: r in added ==> !r.matches(req)
    ensures Decide(RuleSet(base + added), req) == Decide(RuleSet(base), req)
  {
    NoneMatch(added, req);
    MatchingConcat(base, added, req);
    assert Matching(base, req) + [] == Matching(base, req);
    MatchingSorted(base + added, req);
    MatchingSorted(base, req);
    DecideMatching(RuleSet(base + added), req);
    DecideMatching(RuleSet(base), req);
  }

  /** When the matching rules of the highest priority agree, they decide. */
  lemma TopDecides(rules: seq<Rule>, req: Request, top: Rule)
    requires top in rules && top.matches(req)
    requires forall r :: r in rules && r.matches(req) ==>
      r.priority < top.priority || (r.priority == top.priority && r.enforcement == top.enforcement)
    ensures Decide(RuleSet(rules), req) == top.enforcement
  {
    MatchingSorted(rules, req);
    DecideMatching(RuleSet(rules), req);
    MatchingMembers(rules, req);
    var m := Matching(rules, req);
    var sorted := RuleSet(m);
    HigherFirstOrder();
    SortSorts(HigherFirst, m);
    MembersByMultiset(sorted, m);
    assert top in sorted && sorted[0] in m;
    var i :| 0 <= i < |sorted| && sorted[i] == top;
    assert i == 0 || !HigherFirst(sorted[i], sorted[0]);
  }

  // ----- paths -----

  const SECRETS := "secrets/"
  const SURFACES := "surfaces/"
  const ITEMS := "items/"

  predicate NoSlash(s: string) {
    forall i :: 0 <= i < |s| ==> s[i] != '/'
  }

  /** Ids that are plain path segments: no separator and nothing a glob would interpret. */
  predicate PlainId(s: string) {
    NoSlash(s) && forall i :: 0 <= i < |s| ==> s[i] !in {'*', '?', '[', ']', '{', '}', '\\', '!', ','}
  }

  /** The part before the first separator, if there is one. */
  function FirstSegment(s: string): (r: Option<string>)
    ensures r.Some? ==> NoSlash(r.value) && HasPrefix(s, r.value + "/")
  {
    if s == [] then None
    else if s[0] == '/' then Some("")
    else
      match FirstSegment(s[1..])
      case None => None
      case Some(rest) =>
        assert s == [s[0]] + s[1..];
        Some([s[0]] + rest)
  }

  lemma {:induction false} SegmentUnique(s: string, id: string)
    requires NoSlash(id) && HasPrefix(s, id + "/")
    ensures FirstSegment(s) == Some(id)
  {
    assert (id + "/")[|id|] == '/' && s[|id|] == '/';
    if id == [] {
    } else {
      assert s[0] == (id + "/")[0] == id[0];
      assert (id + "/")[1..] == id[1..] + "/";
      assert s[1..][..|id|] == s[..|id| + 1][1..];
      SegmentUnique(s[1..], id[1..]);
      assert id == [id[0]] + id[1..];
    }
  }

  /** Where a path lies. */
  datatype Place = InSecrets(secretID: string) | InSurfaces(surfaceID: string) | InItem(itemID: string) | Elsewhere

  function PlaceOf(path: string): Place {
    if HasPrefix(path, SECRETS) then InSecrets(path[|SECRETS|..])
    else if HasPrefix(path, SURFACES) then InSurfaces(path[|SURFACES|..])
    else if HasPrefix(path, ITEMS) then
      match FirstSegment(path[|ITEMS|..]) case Some(id) => InItem(id) case None => Elsewhere
    else Elsewhere
  }

  lemma PrefixSplit(path: string, prefix: string, rest: string)
    ensures path == prefix + rest <==> HasPrefix(path, prefix) && path[|prefix|..] == rest
  {
    if HasPrefix(path, prefix) {
      assert path == path[..|prefix|] + path[|prefix|..];
    }
    if path == prefix + rest {
      assert path[..|prefix|] == prefix && path[|prefix|..] == rest;
    }
  }

  lemma PrefixesExclude(path: string)
    ensures !(HasPrefix(path, SECRETS) && HasPrefix(path, SURFACES))
      && !(HasPrefix(path, SECRETS) && HasPrefix(path, ITEMS))
    ensures !(HasPrefix(path, SURFACES) && HasPrefix(path, ITEMS))
  {
    if |path| >= 2 {
      assert HasPrefix(path, SECRETS) ==> path[0] == SECRETS[0] && path[1] == SECRETS[1];
      assert HasPrefix(path, SURFACES) ==> path[0] == SURFACES[0] && path[1] == SURFACES[1];
      assert HasPrefix(path, ITEMS) ==> path[0] == ITEMS[0] && path[1] == ITEMS[1];
    }
  }

  lemma SecretPlace(path: string, id: string)
    ensures path == SECRETS + id <==> PlaceOf(path) == InSecrets(id)
  {
    PrefixSplit(path, SECRETS, id);
  }

  lemma SurfacePlace(path: string, id: string)
    ensures path == SURFACES + id <==> PlaceOf(path) == InSurfaces(id)
    ensures HasPrefix(path, SURFACES) <==> PlaceOf(path).InSurfaces?
  {
    PrefixSplit(path, SURFACES, id);
    PrefixesExclude(path);
  }

  lemma ItemPlace(path: string, id: string)
    requires NoSlash(id)
    ensures HasPrefix(path, ITEMS + id + "/") <==> PlaceOf(path) == InItem(id)
  {
    PrefixesExclude(path);
    var n := |ITEMS|;
    var full := ITEMS + (id + "/");
    assert full == ITEMS + id + "/";
    if HasPrefix(path, full) {
      assert path[..n] == path[..|full|][..n] == ITEMS;
      assert path[n..][..|id| + 1] == path[..|full|][n..] == id + "/";
      SegmentUnique(path[n..], id);
    }
    if PlaceOf(path) == InItem(id) {
      assert path[..|full|] == path[..n] + path[n..][..|id| + 1];
    }
  }

  // ----- compilation -----

  function ItemIdOf(o: Object): Option<string> {
    match o
    case Secret(id) => Some(id)
    case Surface(_, itemID) => Some(itemID)
    case SshResource(_) => None
  }

  /** The strictest level among the items whose object satisfies `p`. */
  function LevelWhere(items: seq<Item>, p: Object -> bool): Option<Enforcement> {
    if items == [] then None
    else
      var n := |items| - 1;
      var before := LevelWhere(items[..n], p);
      if !p(items[n].target) then before
      else if before.None? then Some(items[n].enforcement)
      else Some(Stricter(before.value, items[n].enforcement))
  }

  lemma {:induction false} LevelWhereIsStrictest(items: seq<Item>, p: Object -> bool)
    ensures LevelWhere(items, p).None? <==> forall x :: x in items ==> !p(x.target)
    ensures LevelWhere(items, p).Some? ==>
      && (exists x :: x in items && p(x.target) && x.enforcement == LevelWhere(items, p).value)
      && forall x :: x in items && p(x.target) ==> AtLeast(LevelWhere(items, p).value, x.enforcement)
    decreases |items|
  {
    if items != [] {
      var n := |items| - 1;
      LevelWhereIsStrictest(items[..n], p);
      assert forall x :: x in items <==> x in items[..n] || x == items[n];
    }
  }

  /** The strictest level of everything published under one stable item id. */
  function ItemLevel(items: seq<Item>, id: string): Option<Enforcement> {
    LevelWhere(items, o => ItemIdOf(o) == Some(id))
  }

  function SurfaceLevel(items: seq<Item>, id: string): Option<Enforcement> {
    LevelWhere(items, (o: Object) => o.Surface? && o.surfaceID == id)
  }

  function RuleFor(item: Item): Rule {
    match item.target
    case Secret(id) => Rule(ITEM_PRIORITY, item.enforcement, (r: Request) => r.operation != Sign
      && r.path == SECRETS + id)
    case Surface(id, _) => Rule(ITEM_PRIORITY, item.enforcement, (r: Request) => r.path == SURFACES + id)
    case SshResource(id) =>
      Rule(RESOURCE_PRIORITY, item.enforcement, (r: Request) => r.operation == Sign && HasPrefix(r.path, SURFACES)
        && r.resource == Some(id))
  }

  function ItemRule(id: string, e: Enforcement): Rule {
    Rule(ITEM_PRIORITY, e, (r: Request) => HasPrefix(r.path, ITEMS + id + "/"))
  }

  function ItemRuleOf(items: seq<Item>, id: string): Rule {
    ItemRule(id, match ItemLevel(items, id) case Some(e) => e case None => Deny)
  }

  ghost predicate ListsItemIds(ids: seq<string>, items: seq<Item>) {
    Sorted(LexLess, ids) && Distinct(ids) && forall id :: id in ids <==> ItemLevel(items, id).Some?
  }

  /** One rule per item, then one rule per item id in ascending order. */
  ghost predicate Compiled(rules: seq<Rule>, items: seq<Item>, ids: seq<string>) {
    ListsItemIds(ids, items) && rules == Map(RuleFor, items) + Map(id => ItemRuleOf(items, id), ids)
  }

  // ----- the direct reading -----

  function AtItem(level: Option<Enforcement>): Option<(int, Enforcement)> {
    match level
    case Some(e) => Some((ITEM_PRIORITY, e))
    case None => None
  }

  /** What the items themselves say about a request, and with which priority. */
  function Direct(items: seq<Item>, req: Request): Option<(int, Enforcement)> {
    var place := PlaceOf(req.path);
    if place.InSurfaces? && req.operation == Sign && req.resource.Some?
      && Level(items, SshResource(req.resource.value)).Some?
    then Some((RESOURCE_PRIORITY, Level(items, SshResource(req.resource.value)).value))
    else match place
      case InSecrets(id) => if req.operation == Sign then None else AtItem(Level(items, Secret(id)))
      case InSurfaces(id) => AtItem(SurfaceLevel(items, id))
      case InItem(id) => AtItem(ItemLevel(items, id))
      case Elsewhere => None
  }

  ghost predicate PlainIds(items: seq<Item>) {
    forall x :: x in items && ItemIdOf(x.target).Some? ==> PlainId(ItemIdOf(x.target).value)
  }

  ghost predicate OneItemPerSurface(items: seq<Item>) {
    forall x, y ::
      && x in items && y in items && x.target.Surface? && y.target.Surface?
      && x.target.surfaceID == y.target.surfaceID ==>
        x.target == y.target
  }

  /** The rule concurs with the direct reading: it is outranked by it or says the same. */
  ghost predicate Concurs(r: Rule, direct: Option<(int, Enforcement)>) {
    direct.Some? && (r.priority < direct.value.0 || (r.priority == direct.value.0 && r.enforcement == direct.value.1))
  }

  lemma OneLevelEach(items: seq<Item>, x: Item)
    requires StrictlySorted(items) && x in items
    ensures Level(items, x.target) == Some(x.enforcement)
  {
    StrictMember(items, x);
  }

  lemma SurfaceHasOwnLevel(items: seq<Item>, x: Item)
    requires StrictlySorted(items) && OneItemPerSurface(items) && x in items && x.target.Surface?
    ensures SurfaceLevel(items, x.target.surfaceID) == Some(x.enforcement)
  {
    var p := (o: Object) => o.Surface? && o.surfaceID == x.target.surfaceID;
    LevelWhereIsStrictest(items, p);
    assert LevelWhere(items, p) == SurfaceLevel(items, x.target.surfaceID);
    var y :| y in items && p(y.target) && y.enforcement == LevelWhere(items, p).value;
    OneLevelEach(items, x);
    OneLevelEach(items, y);
  }

  lemma RuleForConcurs(items: seq<Item>, x: Item, req: Request)
    requires StrictlySorted(items) && OneItemPerSurface(items) && x in items && RuleFor(x).matches(req)
    ensures Concurs(RuleFor(x), Direct(items, req))
  {
    OneLevelEach(items, x);
    match x.target
    case Secret(id) => SecretPlace(req.path, id);
    case Surface(id, _) =>
      SurfacePlace(req.path, id);
      SurfaceHasOwnLevel(items, x);
    case SshResource(id) => SurfacePlace(req.path, "");
  }

  lemma ItemIdIsPlain(items: seq<Item>, id: string)
    requires PlainIds(items) && ItemLevel(items, id).Some?
    ensures PlainId(id)
  {
    LevelWhereIsStrictest(items, o => ItemIdOf(o) == Some(id));
  }

  lemma ItemRuleConcurs(items: seq<Item>, id: string, req: Request)
    requires PlainIds(items) && ItemLevel(items, id).Some? && ItemRuleOf(items, id).matches(req)
    ensures Concurs(ItemRuleOf(items, id), Direct(items, req))
  {
    ItemIdIsPlain(items, id);
    ItemPlace(req.path, id);
  }

  lemma CompiledMember(rules: seq<Rule>, items: seq<Item>, ids: seq<string>, r: Rule)
    requires Compiled(rules, items, ids)
    ensures r in rules <==> (exists x ::
      x in items && r == RuleFor(x)) || (exists id :: id in ids && r == ItemRuleOf(items, id))
  {
    if r in rules {
      MemberIsCompiled(rules, items, ids, r);
    }
    if x :| x in items && r == RuleFor(x) {
      var i :| 0 <= i < |items| && items[i] == x;
      assert rules[i] == r;
    }
    if id :| id in ids && r == ItemRuleOf(items, id) {
      ItemIsMember(rules, items, ids, id);
    }
  }

  lemma MemberIsCompiled(rules: seq<Rule>, items: seq<Item>, ids: seq<string>, r: Rule)
    requires Compiled(rules, items, ids) && r in rules
    ensures (exists x :: x in items && r == RuleFor(x)) || (exists id :: id in ids && r == ItemRuleOf(items, id))
  {
    var i :| 0 <= i < |rules| && rules[i] == r;
    if i < |items| {
      assert items[i] in items && r == RuleFor(items[i]);
    } else {
      assert ids[i - |items|] in ids && r == ItemRuleOf(items, ids[i - |items|]);
    }
  }

  lemma ItemIsMember(rules: seq<Rule>, items: seq<Item>, ids: seq<string>, id: string)
    requires Compiled(rules, items, ids) && id in ids
    ensures ItemRuleOf(items, id) in rules
  {
    var f := id => ItemRuleOf(items, id);
    var i :| 0 <= i < |ids| && ids[i] == id;
    assert rules[|items| + i] == Map(f, ids)[i];
  }

  /** Every compiled rule that matches a request concurs with the direct reading. */
  lemma CompiledConcurs(rules: seq<Rule>, items: seq<Item>, ids: seq<string>, req: Request, r: Rule)
    requires StrictlySorted(items) && PlainIds(items) && OneItemPerSurface(items) && Compiled(rules, items, ids)
    requires r in rules && r.matches(req)
    ensures Concurs(r, Direct(items, req))
  {
    CompiledMember(rules, items, ids, r);
    if x :| x in items && r == RuleFor(x) {
      RuleForConcurs(items, x, req);
    } else {
      var id :| id in ids && r == ItemRuleOf(items, id);
      ItemRuleConcurs(items, id, req);
    }
  }

  /** The direct reading is carried by a compiled rule. */
  lemma DirectHasRule(rules: seq<Rule>, items: seq<Item>, ids: seq<string>, req: Request) returns (top: Rule)
    requires PlainIds(items) && Compiled(rules, items, ids) && Direct(items, req).Some?
    ensures top in rules && top.matches(req) && (top.priority, top.enforcement) == Direct(items, req).value
  {
    var place := PlaceOf(req.path);
    if Direct(items, req).value.0 == RESOURCE_PRIORITY {
      var id := req.resource.value;
      SurfacePlace(req.path, "");
      LevelIsStrictest(items, SshResource(id));
      top := RuleFor(Item(SshResource(id), Level(items, SshResource(id)).value));
    } else if place.InSecrets? {
      SecretPlace(req.path, place.secretID);
      LevelIsStrictest(items, Secret(place.secretID));
      top := RuleFor(Item(Secret(place.secretID), Level(items, Secret(place.secretID)).value));
    } else if place.InSurfaces? {
      var p := (o: Object) => o.Surface? && o.surfaceID == place.surfaceID;
      SurfacePlace(req.path, place.surfaceID);
      LevelWhereIsStrictest(items, p);
      assert LevelWhere(items, p) == SurfaceLevel(items, place.surfaceID);
      var x :| x in items && p(x.target) && x.enforcement == LevelWhere(items, p).value;
      top := RuleFor(x);
    } else {
      ItemIdIsPlain(items, place.itemID);
      ItemPlace(req.path, place.itemID);
      top := ItemRuleOf(items, place.itemID);
      assert place.itemID in ids;
    }
    CompiledMember(rules, items, ids, top);
  }

  /**
   Compilation preserves policy. Where the items say something, first match over base and compiled
   rules gives exactly that, unless a base rule of the same or a higher priority matches; where they
   say nothing, the compiled rules change nothing.
   */
  lemma CompilationPreservesPolicy(base: seq<Rule>, rules: seq<Rule>, items: seq<Item>, ids: seq<string>, req: Request)
    requires StrictlySorted(items) && PlainIds(items) && OneItemPerSurface(items) && Compiled(rules, items, ids)
    ensures match Direct(items, req)
      case Some((priority, e)) =>
        (forall b :: b in base && b.matches(req) ==> b.priority < priority) ==> Decide(RuleSet(base + rules), req) == e
      case None => Decide(RuleSet(base + rules), req) == Decide(RuleSet(base), req)
  {
    if Direct(items, req).None? {
      forall r | r in rules ensures !r.matches(req) {
        if r.matches(req) {
          CompiledConcurs(rules, items, ids, req, r);
        }
      }
      UnmatchedRulesDoNotCount(base, rules, req);
    } else if forall b :: b in base && b.matches(req) ==> b.priority < Direct(items, req).value.0 {
      var top := DirectHasRule(rules, items, ids, req);
      forall r | r in base + rules && r.matches(req)
        ensures r.priority < top.priority || (r.priority == top.priority && r.enforcement == top.enforcement)
      {
        if r in rules {
          CompiledConcurs(rules, items, ids, req, r);
        }
      }
      TopDecides(base + rules, req, top);
    }
  }

  // ----- what the catalog decides -----

  /** `e` is the level of an item whose object satisfies `p`, and no such item is stricter. */
  ghost predicate Strictest(items: seq<Item>, p: Object -> bool, e: Enforcement) {
    && (exists x :: x in items && p(x.target) && x.enforcement == e)
    && forall x :: x in items && p(x.target) ==> AtLeast(e, x.enforcement)
  }

  ghost predicate Named(items: seq<Item>, p: Object -> bool) {
    exists x :: x in items && p(x.target)
  }

  ghost predicate Outranked(base: seq<Rule>, req: Request, priority: int) {
    forall b :: b in base && b.matches(req) ==> b.priority < priority
  }

  function ByKey(req: Request): Object -> bool {
    (o: Object) => o.SshResource? && req.resource == Some(o.resourceID)
  }

  function BySecret(req: Request): Object -> bool {
    (o: Object) => o.Secret? && req.path == "secrets/" + o.secretID
  }

  function BySurface(req: Request): Object -> bool {
    (o: Object) => o.Surface? && req.path == "surfaces/" + o.surfaceID
  }

  function ByItem(req: Request): Object -> bool {
    (o: Object) => (o.Secret? && HasPrefix(req.path, "items/" + o.secretID + "/"))
                || (o.Surface? && HasPrefix(req.path, "items/" + o.itemID + "/"))
  }

  /**
   The decision, read off the catalog's items as they come: a signature under surfaces/ goes by its
   resource, and anything else by the secret, the surface or the item id that the path spells out, at
   the strictest level any item gives it. A signature never goes by a secret.
   */
  ghost predicate DecidedBy(base: seq<Rule>, items: seq<Item>, req: Request, e: Enforcement) {
    if req.operation == Sign && HasPrefix(req.path, "surfaces/") && Named(items, ByKey(req)) then
      Outranked(base, req, -2147483645) ==> Strictest(items, ByKey(req), e)
    else if req.operation != Sign && Named(items, BySecret(req)) then
      Outranked(base, req, -2147483646) ==> Strictest(items, BySecret(req), e)
    else if Named(items, BySurface(req)) then
      Outranked(base, req, -2147483646) ==> Strictest(items, BySurface(req), e)
    else if Named(items, ByItem(req)) then
      Outranked(base, req, -2147483646) ==> Strictest(items, ByItem(req), e)
    else e == Decide(RuleSet(base), req)
  }

  lemma NormalizedWithin(items: seq<Item>, x: Item)
    requires x in Normalize(items)
    ensures x in items
  {
    NormalizeMeaning(items);
    StrictMember(Normalize(items), x);
    assert Level(Normalize(items), x.target) == Level(items, x.target);
    LevelIsStrictest(items, x.target);
  }

  /** Normalisation keeps, of the items of an object, one that is at least as strict as all of them. */
  lemma Represented(items: seq<Item>, x: Item) returns (y: Item)
    requires x in items
    ensures y in Normalize(items) && y.target == x.target && AtLeast(y.enforcement, x.enforcement)
  {
    NormalizeMeaning(items);
    LevelIsStrictest(items, x.target);
    y := Item(x.target, Level(items, x.target).value);
    StrictMember(Normalize(items), y);
    assert Level(Normalize(items), x.target) == Level(items, x.target);
  }

  lemma NormalizedStrictest(items: seq<Item>, p: Object -> bool, e: Enforcement)
    ensures Named(Normalize(items), p) <==> Named(items, p)
    ensures Strictest(Normalize(items), p, e) ==> Strictest(items, p, e)
  {
    if x :| x in items && p(x.target) {
      var y := Represented(items, x);
    }
    if x :| x in Normalize(items) && p(x.target) {
      NormalizedWithin(items, x);
    }
    if Strictest(Normalize(items), p, e) {
      var z :| z in Normalize(items) && p(z.target) && z.enforcement == e;
      NormalizedWithin(items, z);
      forall x | x in items && p(x.target) ensures AtLeast(e, x.enforcement) {
        var y := Represented(items, x);
      }
    }
  }

  lemma NormalizedShape(items: seq<Item>)
    requires PlainIds(items) && OneItemPerSurface(items)
    ensures StrictlySorted(Normalize(items)) && PlainIds(Normalize(items)) && OneItemPerSurface(Normalize(items))
  {
    NormalizeMeaning(items);
    forall x | x in Normalize(items) ensures x in items {
      NormalizedWithin(items, x);
    }
  }

  lemma LevelWhereMeans(items: seq<Item>, p: Object -> bool)
    ensures LevelWhere(items, p).Some? <==> Named(items, p)
    ensures LevelWhere(items, p).Some? ==> Strictest(items, p, LevelWhere(items, p).value)
  {
    LevelWhereIsStrictest(items, p);
  }

  lemma LevelMeans(items: seq<Item>, o: Object, p: Object -> bool)
    requires forall a :: p(a) <==> a == o
    ensures Level(items, o).Some? <==> Named(items, p)
    ensures Level(items, o).Some? ==> Strictest(items, p, Level(items, o).value)
  {
    LevelIsStrictest(items, o);
  }

  /** A level of the direct reading, with the objects it is taken from. */
  ghost predicate Taken(items: seq<Item>, level: Option<Enforcement>, p: Object -> bool) {
    (level.Some? <==> Named(items, p)) && (level.Some? ==> Strictest(items, p, level.value))
  }

  lemma TakenAlike(items: seq<Item>, level: Option<Enforcement>, p: Object -> bool, q: Object -> bool)
    requires Taken(items, level, p) && forall x :: x in items ==> (p(x.target) <==> q(x.target))
    ensures Taken(items, level, q)
  {
  }

  lemma SecretTaken(items: seq<Item>, req: Request, id: string)
    requires PlaceOf(req.path) == InSecrets(id)
    ensures Taken(items, Level(items, Secret(id)), BySecret(req))
    ensures !Named(items, BySurface(req)) && !Named(items, ByItem(req)) && !HasPrefix(req.path, "surfaces/")
  {
    PathsApart(req.path);
    forall o ensures BySecret(req)(o) <==> o == Secret(id) {
      if o.Secret? {
        SecretPlace(req.path, o.secretID);
      }
    }
    LevelMeans(items, Secret(id), BySecret(req));
    SecretPlace(req.path, id);
    SurfacePlace(req.path, "");
  }

  /** A path lies under at most one of the three directories. */
  lemma PathsApart(path: string)
    ensures forall a, b :: path == "secrets/" + a ==> path != "surfaces/" + b
    ensures forall a, b :: path == "secrets/" + a || path == "surfaces/" + a ==> !HasPrefix(path, "items/" + b + "/")
  {
    PrefixesExclude(path);
    forall a ensures path == "secrets/" + a ==> HasPrefix(path, SECRETS) {
      PrefixSplit(path, SECRETS, a);
    }
    forall a ensures path == "surfaces/" + a ==> HasPrefix(path, SURFACES) {
      PrefixSplit(path, SURFACES, a);
    }
    forall b ensures HasPrefix(path, "items/" + b + "/") ==> HasPrefix(path, ITEMS) {
      if HasPrefix(path, "items/" + b + "/") {
        assert path[..6] == path[..|"items/" + b + "/"|][..6] == ITEMS;
      }
    }
  }

  lemma SurfaceTaken(items: seq<Item>, req: Request, id: string)
    requires PlaceOf(req.path) == InSurfaces(id)
    ensures Taken(items, SurfaceLevel(items, id), BySurface(req))
    ensures !Named(items, BySecret(req)) && !Named(items, ByItem(req)) && HasPrefix(req.path, "surfaces/")
  {
    PathsApart(req.path);
    SurfacePlace(req.path, id);
    var p := (o: Object) => o.Surface? && o.surfaceID == id;
    LevelWhereMeans(items, p);
    assert SurfaceLevel(items, id) == LevelWhere(items, p);
    forall x | x in items ensures p(x.target) <==> BySurface(req)(x.target) {
      if x.target.Surface? {
        SurfacePlace(req.path, x.target.surfaceID);
      }
    }
    TakenAlike(items, SurfaceLevel(items, id), p, BySurface(req));
  }

  lemma ItemTaken(items: seq<Item>, req: Request, id: string)
    requires PlaceOf(req.path) == InItem(id) && PlainIds(items)
    ensures Taken(items, ItemLevel(items, id), ByItem(req))
    ensures !Named(items, BySecret(req)) && !Named(items, BySurface(req)) && !HasPrefix(req.path, "surfaces/")
  {
    PrefixesExclude(req.path);
    SurfacePlace(req.path, "");
    forall o ensures !BySecret(req)(o) && !BySurface(req)(o) {
      if o.Secret? {
        SecretPlace(req.path, o.secretID);
      } else if o.Surface? {
        SurfacePlace(req.path, o.surfaceID);
      }
    }
    var p := o => ItemIdOf(o) == Some(id);
    LevelWhereMeans(items, p);
    assert ItemLevel(items, id) == LevelWhere(items, p);
    forall x | x in items ensures p(x.target) <==> ByItem(req)(x.target) {
      if ItemIdOf(x.target).Some? {
        ItemPlace(req.path, ItemIdOf(x.target).value);
      }
    }
    TakenAlike(items, ItemLevel(items, id), p, ByItem(req));
  }

  lemma NothingTaken(items: seq<Item>, req: Request)
    requires PlaceOf(req.path) == Elsewhere && PlainIds(items)
    ensures !HasPrefix(req.path, "surfaces/")
    ensures !Named(items, BySecret(req)) && !Named(items, BySurface(req)) && !Named(items, ByItem(req))
  {
    SurfacePlace(req.path, "");
    forall x | x in items
      ensures !BySecret(req)(x.target) && !BySurface(req)(x.target) && !ByItem(req)(x.target)
    {
      if ItemIdOf(x.target).Some? {
        ItemPlace(req.path, ItemIdOf(x.target).value);
      }
      if x.target.Secret? {
        SecretPlace(req.path, x.target.secretID);
      } else if x.target.Surface? {
        SurfacePlace(req.path, x.target.surfaceID);
      }
    }
  }

  lemma KeyTaken(items: seq<Item>, req: Request)
    ensures req.resource.Some? ==> Taken(items, Level(items, SshResource(req.resource.value)), ByKey(req))
    ensures req.resource.None? ==> !Named(items, ByKey(req))
  {
    if req.resource.Some? {
      LevelMeans(items, SshResource(req.resource.value), ByKey(req));
    }
  }

  /** The compiled rules of the normalised catalog decide as the catalog's own items say. */
  lemma CatalogDecides(base: seq<Rule>, rules: seq<Rule>, items: seq<Item>, ids: seq<string>, req: Request)
    requires PlainIds(items) && OneItemPerSurface(items) && Compiled(rules, Normalize(items), ids)
    ensures DecidedBy(base, items, req, Decide(RuleSet(base + rules), req))
  {
    var normal, e := Normalize(items), Decide(RuleSet(base + rules), req);
    NormalizedShape(items);
    CompilationPreservesPolicy(base, rules, normal, ids, req);
    NormalDecides(base, normal, req, e);
    NormalizedStrictest(items, ByKey(req), e);
    NormalizedStrictest(items, BySecret(req), e);
    NormalizedStrictest(items, BySurface(req), e);
    NormalizedStrictest(items, ByItem(req), e);
  }

  lemma NormalDecides(base: seq<Rule>, items: seq<Item>, req: Request, e: Enforcement)
    requires PlainIds(items)
    requires Direct(items, req).Some? && Outranked(base, req, Direct(items, req).value.0) ==>
      e == Direct(items, req).value.1
    requires Direct(items, req).None? ==> e == Decide(RuleSet(base), req)
    ensures DecidedBy(base, items, req, e)
  {
    KeyTaken(items, req);
    match PlaceOf(req.path)
    case InSecrets(id) => SecretTaken(items, req, id);
    case InSurfaces(id) => SurfaceTaken(items, req, id);
    case InItem(id) => ItemTaken(items, req, id);
    case Elsewhere => NothingTaken(items, req);
  }

  // ----- the loops -----

  lemma LevelWhereAppend(items: seq<Item>, i: nat, p: Object -> bool)
    requires i < |items|
    ensures LevelWhere(items[..i + 1], p)
         == if !p(items[i].target) then LevelWhere(items[..i], p)
            else if LevelWhere(items[..i], p).None? then Some(items[i].enforcement)
            else Some(Stricter(LevelWhere(items[..i], p).value, items[i].enforcement))
  {
    assert items[..i + 1][..i] == items[..i];
  }

  /** The levels gathered so far, by item id. */
  ghost predicate Gathered(levels: map<string, Enforcement>, items: seq<Item>) {
    forall id :: (id in levels <==> ItemLevel(items, id).Some?)
      && (id in levels ==> ItemLevel(items, id) == Some(levels[id]))
  }

  lemma GatherNext(levels: map<string, Enforcement>, items: seq<Item>, i: nat)
    requires i < |items| && Gathered(levels, items[..i])
    ensures ItemIdOf(items[i].target).None? ==> Gathered(levels, items[..i + 1])
    ensures ItemIdOf(items[i].target).Some? ==>
      var id, e := ItemIdOf(items[i].target).value, items[i].enforcement;
      Gathered(levels[id := if id in levels then Stricter(levels[id], e) else e], items[..i + 1])
  {
    forall id ensures ItemLevel(items[..i + 1], id)
      == if ItemIdOf(items[i].target) != Some(id) then ItemLevel(items[..i], id)
         else if ItemLevel(items[..i], id).None? then Some(items[i].enforcement)
         else Some(Stricter(ItemLevel(items[..i], id).value, items[i].enforcement))
    {
      LevelWhereAppend(items, i, o => ItemIdOf(o) == Some(id));
    }
  }

  /** The keys of a B-tree map, in order. */
  method SortedKeys(m: map<string, Enforcement>) returns (ids: seq<string>)
    ensures Sorted(LexLess, ids) && Distinct(ids) && forall id :: id in ids <==> id in m
  {
    var keys: seq<string> := [];
    var pending := m.Keys;
    while pending != {}
      invariant pending <= m.Keys && Distinct(keys) && forall id :: id in keys <==> id in m && id !in pending
      decreases pending
    {
      var id :| id in pending;
      keys, pending := keys + [id], pending - {id};
    }
    LexIsStrictWeak();
    SortSorts(LexLess, keys);
    ids := Sort(LexLess, keys);
    DistinctPermutation(keys, ids);
    MembersByMultiset(keys, ids);
  }

  /** `managed_rules`. */
  method CompileManagedRules(items: seq<Item>) returns (rules: seq<Rule>, ghost ids: seq<string>)
    ensures Compiled(rules, items, ids)
  {
    rules := [];
    var levels: map<string, Enforcement> := map[];
    for i := 0 to |items|
      invariant rules == Map(RuleFor, items[..i]) && Gathered(levels, items[..i])
    {
      assert items[..i + 1] == items[..i] + [items[i]];
      MapAppend(RuleFor, items[..i], items[i]);
      GatherNext(levels, items, i);
      rules := rules + [RuleFor(items[i])];
      var id, e := ItemIdOf(items[i].target), items[i].enforcement;
      if id.Some? {
        levels := levels[id.value := if id.value in levels then Stricter(levels[id.value], e) else e];
      }
    }
    assert items[..|items|] == items;
    var keys := SortedKeys(levels);
    ids := keys;
    var itemRules := PushItemRules(items, levels, keys);
    rules := rules + itemRules;
  }

  method PushItemRules(ghost items: seq<Item>, levels: map<string, Enforcement>, ids: seq<string>)
      returns (rules: seq<Rule>)
    requires Gathered(levels, items) && forall id :: id in ids ==> id in levels
    ensures rules == Map(id => ItemRuleOf(items, id), ids)
  {
    rules := [];
    ghost var f := id => ItemRuleOf(items, id);
    for i := 0 to |ids|
      invariant rules == Map(f, ids[..i])
    {
      assert ids[i] in ids && ids[..i + 1] == ids[..i] + [ids[i]];
      MapAppend(f, ids[..i], ids[i]);
      rules := rules + [ItemRule(ids[i], levels[ids[i]])];
    }
    assert ids[..|ids|] == ids;
  }

  // ----- live replacement -----

  /** A refresh equals the installed items exactly when no object's strictest level changes. */
  lemma RefreshMeaning(items: seq<Item>, current: Option<seq<Item>>)
    requires current.Some? ==> Normalize(current.value) == current.value
    ensures Normalize(Normalize(items)) == Normalize(items)
    ensures current.Some? ==> (Normalize(items) == current.value <==> SameLevels(items, current.value))
  {
    NormalizeIsStable(items, items);
    if current.Some? {
      NormalizeIsCanonical(items, current.value);
    }
  }

  class LivePolicy {
    const base: seq<Rule>
    var rules: seq<Rule>
    var managed: Option<seq<Item>>
    var grants: map<Agent.GrantKey, Agent.Grant>
    var generation: nat
    ghost var compiled: seq<Rule>
    ghost var itemIDs: seq<string>

    /** The rules in force are the base rules with the compiled rules of the installed items. */
    ghost predicate Valid()
      reads this
    {
      managed.Some? ==>
        && Normalize(managed.value) == managed.value
        && Compiled(compiled, managed.value, itemIDs) && rules == RuleSet(base + compiled)
    }

    constructor (base: seq<Rule>, grants: map<Agent.GrantKey, Agent.Grant>)
      ensures Valid() && this.base == base && rules == base && managed == None && this.grants == grants
        && generation == 0
    {
      this.base, rules, managed, this.grants, generation := base, base, None, grants, 0;
    }

    /**
     `replace_managed_policy`. After the first install a refresh leaves rules, grants and generation
     alone exactly when every object keeps its strictest level.
     */
    method ReplaceManagedPolicy(items: seq<Item>)
      requires Valid()
      modifies this
      ensures Valid() && managed == Some(Normalize(items))
      ensures old(managed).None? ==> grants == old(grants) && generation == old(generation)
      ensures old(managed).Some? && SameLevels(items, old(managed).value) ==>
        rules == old(rules) && managed == old(managed) && grants == old(grants) && generation == old(generation)
      ensures old(managed).Some? && !SameLevels(items, old(managed).value) ==>
        managed != old(managed) && grants == map[] && generation == old(generation) + 1
      ensures PlainIds(items) && OneItemPerSurface(items) ==>
        forall req :: DecidedBy(base, items, req, Decide(rules, req))
    {
      var normalized := NormalizeManagedPolicy(items);
      RefreshMeaning(items, managed);
      if managed != Some(normalized) {
        Install(normalized);
      }
      InForce(items);
    }

    /** The rules in force decide as the installed items say. */
    lemma InForce(items: seq<Item>)
      requires Valid() && managed == Some(Normalize(items))
      ensures PlainIds(items) && OneItemPerSurface(items) ==>
        forall req :: DecidedBy(base, items, req, Decide(rules, req))
    {
      if PlainIds(items) && OneItemPerSurface(items) {
        forall req ensures DecidedBy(base, items, req, Decide(rules, req)) {
          CatalogDecides(base, compiled, items, itemIDs, req);
        }
      }
    }

    method Install(normalized: seq<Item>)
      requires Normalize(normalized) == normalized
      modifies this
      ensures Valid() && managed == Some(normalized)
      ensures if old(managed).None? then grants == old(grants) && generation == old(generation)
              else grants == map[] && generation == old(generation) + 1
    {
      var initialInstall := managed.None?;
      var added, ids := CompileManagedRules(normalized);
      compiled, itemIDs := added, ids;
      rules, managed := RuleSet(base + added), Some(normalized);
      if !initialInstall {
        generation := generation + 1;
        grants := map[];
      }
    }
  }
}
