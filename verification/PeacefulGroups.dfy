/**
 The groups of joins and dispersions, found by union-find over the territories
 they touch, and proved to be the connected groups a departure is adjudicated on.
 */
module PeacefulGroups {
  import opened SortedIds
  import opened Turn
  import opened Groups
  import opened FactReads

  type Root = TerritoryId -> TerritoryId
  type Height = TerritoryId -> nat

  /** A territory leads to its root, through parents ever nearer to it. */
  ghost predicate Rooted(parent: map<TerritoryId, TerritoryId>, root: Root, height: Height, t: TerritoryId)
  {
    && root(root(t)) == root(t)
    && (root(t) == t <==> t !in parent || parent[t] == t)
    && (t in parent ==> root(parent[t]) == root(t) && (parent[t] != t ==> height(parent[t]) < height(t)))
    && (root(t) == t <==> height(t) == 0)
  }

  ghost predicate IsForest(parent: map<TerritoryId, TerritoryId>, root: Root, height: Height)
  {
    forall t :: Rooted(parent, root, height, t)
  }

  /** Two trees become one: the territories under `other` go under `top`. */
  ghost function Joined(root: Root, top: TerritoryId, other: TerritoryId): Root
  {
    (t: TerritoryId) => if root(t) == other then top else root(t)
  }

  ghost function Raised(root: Root, height: Height, other: TerritoryId): Height
  {
    (t: TerritoryId) => if root(t) == other then height(t) + 1 else height(t)
  }

  lemma ShortenedForest(parent: map<TerritoryId, TerritoryId>, root: Root, height: Height, t: TerritoryId)
    requires IsForest(parent, root, height)
    ensures IsForest(parent[t := root(t)], root, height)
  {
    assert Rooted(parent, root, height, t) && Rooted(parent, root, height, root(t));
    var shorter := parent[t := root(t)];
    forall u ensures Rooted(shorter, root, height, u) {
      assert Rooted(parent, root, height, u);
    }
  }

  lemma JoinedForest(parent: map<TerritoryId, TerritoryId>, root: Root, height: Height, top: TerritoryId, other: TerritoryId)
    requires IsForest(parent, root, height) && root(top) == top && root(other) == other && top != other
    ensures IsForest(parent[other := top], Joined(root, top, other), Raised(root, height, other))
  {
    assert Rooted(parent, root, height, top) && Rooted(parent, root, height, other);
    var grown, merged, raised := parent[other := top], Joined(root, top, other), Raised(root, height, other);
    forall u ensures Rooted(grown, merged, raised, u) {
      assert Rooted(parent, root, height, u) && Rooted(parent, root, height, root(u));
      if u in parent { assert Rooted(parent, root, height, parent[u]); }
    }
  }

  /** A forest of territories; each tree is one group. */
  class Forest {
    var parent: map<TerritoryId, TerritoryId>
    ghost var root: Root
    ghost var height: Height

    ghost predicate Valid()
      reads this
    {
      IsForest(parent, root, height)
    }

    constructor ()
      ensures Valid() && forall t: TerritoryId :: root(t) == t
    {
      parent := map[];
      root := (t: TerritoryId) => t;
      height := (t: TerritoryId) => 0;
    }

    /** The root of a territory; paths are shortened on the way. */
    method Find(t: TerritoryId) returns (r: TerritoryId)
      requires Valid()
      modifies this`parent
      ensures Valid() && r == root(t)
      decreases height(t)
    {
      assert Rooted(parent, root, height, t);
      ShortenedForest(parent, root, height, t);
      if t !in parent || parent[t] == t {
        parent := parent[t := t];
        return t;
      }
      r := Find(parent[t]);
      ShortenedForest(parent, root, height, t);
      parent := parent[t := r];
    }

    /** Puts the origin of an order and its destinations in one tree. */
    method Union(source: TerritoryId, targets: seq<TerritoryId>, ghost c: Context)
      requires Valid() && Respects(c, root) && forall i :: 0 <= i < |targets| ==> Together(c, source, targets[i])
      modifies this
      ensures Valid() && Respects(c, root) && Coarser(old(root), root)
      ensures forall i :: 0 <= i < |targets| ==> root(targets[i]) == root(source)
    {
      var top := Find(source);
      var i := 0;
      while i < |targets|
        invariant i <= |targets| && Valid() && root(source) == top && Respects(c, root) && Coarser(old(root), root)
        invariant forall j :: 0 <= j < i ==> root(targets[j]) == top
      {
        Link(source, targets[i], top, c);
        i := i + 1;
      }
    }

    method Link(source: TerritoryId, target: TerritoryId, top: TerritoryId, ghost c: Context)
      requires Valid() && Respects(c, root) && Together(c, source, target) && root(source) == top
      modifies this
      ensures Valid() && Respects(c, root) && Coarser(old(root), root)
      ensures root(source) == top == root(target)
    {
      var other := Find(target);
      if other == top { return; }
      assert Rooted(parent, root, height, source) && Rooted(parent, root, height, target);
      JoinedForest(parent, root, height, top, other);
      JoinedRespects(c, root, source, target);
      parent := parent[other := top];
      height := Raised(root, height, other);
      root := Joined(root, top, other);
    }
  }

  // ---------- what the trees are

  /** No group of orders separates the two territories. */
  ghost predicate Together(c: Context, t: TerritoryId, u: TerritoryId)
  {
    forall s: set<TerritoryId> :: IsClosed(c, s) ==> (t in s <==> u in s)
  }

  /** Territories of one tree are never separated. */
  ghost predicate Respects(c: Context, root: Root)
  {
    forall t, u :: root(t) == root(u) ==> Together(c, t, u)
  }

  ghost predicate Coarser(before: Root, after: Root)
  {
    forall t, u :: before(t) == before(u) ==> after(t) == after(u)
  }

  lemma JoinedRespects(c: Context, root: Root, source: TerritoryId, target: TerritoryId)
    requires Respects(c, root) && Together(c, source, target)
    ensures Respects(c, Joined(root, root(source), root(target)))
  {
    var top, other := root(source), root(target);
    var after := Joined(root, top, other);
    forall t, u | after(t) == after(u) ensures Together(c, t, u) {
      assert root(t) == other ==> Together(c, t, target);
      assert root(u) == other ==> Together(c, u, target);
      assert root(t) == top ==> Together(c, t, source);
      assert root(u) == top ==> Together(c, u, source);
      forall s: set<TerritoryId> | IsClosed(c, s) ensures t in s <==> u in s {
      }
    }
  }

  /** Where an army's join or dispersion leaves from. */
  function Origin(c: Context, a: ArmyId): TerritoryId
    requires IsPeaceful(c, a)
  {
    if a in c.joins then c.joins[a].source else c.disperses[a].source
  }

  lemma OrderTogether(c: Context, a: ArmyId, t: TerritoryId)
    requires OneOrderEach(c) && IsPeaceful(c, a) && t in Touched(c, a)
    ensures Together(c, Origin(c, a), t)
  {
    assert Origin(c, a) in Touched(c, a);
  }

  /** Every place the army's order touches is in the tree of its origin. */
  ghost predicate Linked(c: Context, root: Root, a: ArmyId)
    requires IsPeaceful(c, a)
  {
    forall t :: t in Touched(c, a) ==> root(t) == root(Origin(c, a))
  }

  ghost predicate AllLinked(c: Context, root: Root, seen: set<ArmyId>)
  {
    forall a :: a in seen ==> IsPeaceful(c, a) && Linked(c, root, a)
  }

  lemma StaysLinked(c: Context, before: Root, after: Root, seen: set<ArmyId>, a: ArmyId)
    requires AllLinked(c, before, seen) && Coarser(before, after) && IsPeaceful(c, a) && Linked(c, after, a)
    ensures AllLinked(c, after, seen + {a})
  {
    forall b | b in seen ensures IsPeaceful(c, b) && Linked(c, after, b) {
      assert Linked(c, before, b);
    }
  }

  lemma SameTreeSameGroup(c: Context, root: Root, a: ArmyId, b: ArmyId)
    requires OneOrderEach(c) && IsPeaceful(c, a) && IsPeaceful(c, b) && Respects(c, root) && root(Origin(c, a)) == root(Origin(c, b))
    ensures Origin(c, b) in GroupTerritories(c, a)
  {
    assert Together(c, Origin(c, a), Origin(c, b));
    assert Origin(c, a) in Touched(c, a);
    assert IsClosed(c, GroupTerritories(c, a)) && Origin(c, a) in GroupTerritories(c, a);
  }

  lemma SameGroupSameTree(c: Context, root: Root, a: ArmyId, b: ArmyId)
    requires OneOrderEach(c) && IsPeaceful(c, a) && IsPeaceful(c, b) && AllLinked(c, root, c.joins.Keys + c.disperses.Keys)
    requires Origin(c, b) in GroupTerritories(c, a)
    ensures root(Origin(c, a)) == root(Origin(c, b))
  {
    TreeClosed(c, root, a);
    ClosureLeast(c, Touched(c, a), TreeOf(c, root, a));
  }

  lemma GroupBySource(c: Context, a: ArmyId, b: ArmyId)
    requires OneOrderEach(c)
    ensures b in GroupArmies(c, a) <==> IsPeaceful(c, b) && Origin(c, b) in GroupTerritories(c, a)
  {
  }

  /** Two orders are in one tree exactly when they are in one group. */
  lemma TreesAreGroups(c: Context, root: Root, a: ArmyId, b: ArmyId)
    requires OneOrderEach(c) && IsPeaceful(c, a) && IsPeaceful(c, b) && Respects(c, root)
    requires AllLinked(c, root, c.joins.Keys + c.disperses.Keys)
    ensures root(Origin(c, a)) == root(Origin(c, b)) <==> b in GroupArmies(c, a)
  {
    GroupBySource(c, a, b);
    if root(Origin(c, a)) == root(Origin(c, b)) { SameTreeSameGroup(c, root, a, b); }
    if Origin(c, b) in GroupTerritories(c, a) { SameGroupSameTree(c, root, a, b); }
  }

  ghost function TreeOf(c: Context, root: Root, a: ArmyId): set<TerritoryId>
    requires IsPeaceful(c, a)
  {
    set t | t in AllTouched(c) && root(t) == root(Origin(c, a))
  }

  lemma TreeClosed(c: Context, root: Root, a: ArmyId)
    requires OneOrderEach(c) && IsPeaceful(c, a) && AllLinked(c, root, c.joins.Keys + c.disperses.Keys)
    ensures IsClosed(c, TreeOf(c, root, a)) && Touched(c, a) <= TreeOf(c, root, a)
  {
    forall x | IsPeaceful(c, x) ensures Touched(c, x) <= TreeOf(c, root, a) || Touched(c, x) !! TreeOf(c, root, a) {
      assert Linked(c, root, x);
      forall t | t in Touched(c, x) ensures t in AllTouched(c) {
      }
    }
    assert Linked(c, root, a);
  }

  // ---------- peacefulGroups

  function Destinations(c: Context, a: ArmyId): seq<TerritoryId>
    requires IsPeaceful(c, a)
  {
    if a in c.joins then [c.joins[a].target] else c.disperses[a].targets
  }

  lemma DestinationsTogether(c: Context, a: ArmyId)
    requires OneOrderEach(c) && IsPeaceful(c, a)
    ensures forall i :: 0 <= i < |Destinations(c, a)| ==> Together(c, Origin(c, a), Destinations(c, a)[i])
  {
    forall i | 0 <= i < |Destinations(c, a)| ensures Together(c, Origin(c, a), Destinations(c, a)[i]) {
      OrderTogether(c, a, Destinations(c, a)[i]);
    }
  }

  lemma DestinationsLinked(c: Context, root: Root, a: ArmyId)
    requires IsPeaceful(c, a) && forall i :: 0 <= i < |Destinations(c, a)| ==> root(Destinations(c, a)[i]) == root(Origin(c, a))
    ensures Linked(c, root, a)
  {
    forall t | t in Touched(c, a) ensures root(t) == root(Origin(c, a)) {
      if t != Origin(c, a) {
        assert t in Destinations(c, a);
      }
    }
  }

  method LinkOrder(c: Context, forest: Forest, a: ArmyId, ghost seen: set<ArmyId>)
    requires OneOrderEach(c) && IsPeaceful(c, a) && forest.Valid() && Respects(c, forest.root) && AllLinked(c, forest.root, seen)
    modifies forest
    ensures forest.Valid() && Respects(c, forest.root) && AllLinked(c, forest.root, seen + {a})
  {
    ghost var before := forest.root;
    DestinationsTogether(c, a);
    forest.Union(Origin(c, a), Destinations(c, a), c);
    DestinationsLinked(c, forest.root, a);
    StaysLinked(c, before, forest.root, seen, a);
  }

  method LinkOrders(c: Context, forest: Forest, orders: set<ArmyId>, ghost seen: set<ArmyId>)
    requires OneOrderEach(c) && (forall a :: a in orders ==> IsPeaceful(c, a))
    requires forest.Valid() && Respects(c, forest.root) && AllLinked(c, forest.root, seen)
    modifies forest
    ensures forest.Valid() && Respects(c, forest.root) && AllLinked(c, forest.root, seen + orders)
  {
    var order := Sorted(orders);
    VisitedAll(orders);
    var i := 0;
    assert seen + {} == seen;
    while i < |order|
      invariant i <= |order| && forest.Valid() && Respects(c, forest.root) && AllLinked(c, forest.root, seen + Visited(order, i))
    {
      VisitNext(order, i);
      LinkOrder(c, forest, order[i], seen + Visited(order, i));
      assert seen + Visited(order, i) + {order[i]} == seen + Visited(order, i + 1);
      i := i + 1;
    }
  }

  /** The orders seen, under the root of their origin. */
  ghost predicate Gathered(c: Context, root: Root, seen: set<ArmyId>, byRoot: map<TerritoryId, set<ArmyId>>)
  {
    && (forall a :: a in seen ==> IsPeaceful(c, a) && root(Origin(c, a)) in byRoot)
    && forall r, a :: r in byRoot ==> (a in byRoot[r] <==> a in seen && IsPeaceful(c, a) && root(Origin(c, a)) == r)
  }

  method Gather(c: Context, forest: Forest, order: seq<ArmyId>) returns (byRoot: map<TerritoryId, set<ArmyId>>)
    requires forest.Valid() && Ascending(order) && forall a :: a in order ==> IsPeaceful(c, a)
    modifies forest`parent
    ensures forest.Valid() && Gathered(c, forest.root, Visited(order, |order|), byRoot)
  {
    byRoot := map[];
    var i := 0;
    while i < |order|
      invariant i <= |order| && forest.Valid() && Gathered(c, forest.root, Visited(order, i), byRoot)
    {
      var a := order[i];
      VisitNext(order, i);
      var r := forest.Find(Origin(c, a));
      byRoot := byRoot[r := (if r in byRoot then byRoot[r] else {}) + {a}];
      i := i + 1;
    }
  }

  lemma GatheredAt(c: Context, root: Root, byRoot: map<TerritoryId, set<ArmyId>>, all: set<ArmyId>, a: ArmyId, b: ArmyId)
    requires Gathered(c, root, all, byRoot) && a in all && IsPeaceful(c, a)
    ensures root(Origin(c, a)) in byRoot
    ensures b in byRoot[root(Origin(c, a))] <==> b in all && IsPeaceful(c, b) && root(Origin(c, b)) == root(Origin(c, a))
  {
  }

  lemma GatheredGroup(c: Context, root: Root, byRoot: map<TerritoryId, set<ArmyId>>, a: ArmyId, b: ArmyId)
    requires OneOrderEach(c) && IsPeaceful(c, a) && Respects(c, root) && AllLinked(c, root, c.joins.Keys + c.disperses.Keys)
    requires Gathered(c, root, c.joins.Keys + c.disperses.Keys, byRoot)
    ensures root(Origin(c, a)) in byRoot && (b in byRoot[root(Origin(c, a))] <==> b in GroupArmies(c, a))
  {
    GatheredAt(c, root, byRoot, c.joins.Keys + c.disperses.Keys, a, b);
    GroupBySource(c, a, b);
    if IsPeaceful(c, b) { TreesAreGroups(c, root, a, b); }
  }

  /** Under each root, the group of the orders that leave from its tree. */
  ghost predicate GroupsByRoot(c: Context, root: Root, byRoot: map<TerritoryId, set<ArmyId>>)
  {
    forall a :: IsPeaceful(c, a) ==> root(Origin(c, a)) in byRoot && byRoot[root(Origin(c, a))] == GroupArmies(c, a)
  }

  ghost predicate Reads(c: Context, root: Root, byRoot: map<TerritoryId, set<ArmyId>>, group: ArmyId -> set<ArmyId>, a: ArmyId)
  {
    IsPeaceful(c, a) ==> root(Origin(c, a)) in byRoot && byRoot[root(Origin(c, a))] == group(a)
  }

  method ReadGroup(c: Context, forest: Forest, byRoot: map<TerritoryId, set<ArmyId>>, ghost group: ArmyId -> set<ArmyId>, a: ArmyId)
    returns (g: set<ArmyId>)
    requires forest.Valid() && IsPeaceful(c, a) && Reads(c, forest.root, byRoot, group, a)
    modifies forest`parent
    ensures forest.Valid() && g == group(a)
  {
    var r := forest.Find(Origin(c, a));
    g := byRoot[r];
  }

  method ReadGroups(c: Context, forest: Forest, byRoot: map<TerritoryId, set<ArmyId>>, ghost group: ArmyId -> set<ArmyId>, order: seq<ArmyId>)
    returns (groups: map<ArmyId, set<ArmyId>>)
    requires forest.Valid() && forall a :: Reads(c, forest.root, byRoot, group, a)
    requires Ascending(order) && forall a :: a in order ==> IsPeaceful(c, a)
    modifies forest`parent
    ensures groups.Keys == Visited(order, |order|) && forall a :: a in groups ==> groups[a] == group(a)
  {
    groups := map[];
    var i := 0;
    while i < |order|
      invariant i <= |order| && forest.Valid() && groups.Keys == Visited(order, i)
      invariant forall a :: a in groups ==> groups[a] == group(a)
    {
      VisitNext(order, i);
      var g := ReadGroup(c, forest, byRoot, group, order[i]);
      groups := groups[order[i] := g];
      i := i + 1;
    }
  }

  lemma AllGathered(c: Context, root: Root, byRoot: map<TerritoryId, set<ArmyId>>)
    requires OneOrderEach(c) && Respects(c, root) && AllLinked(c, root, c.joins.Keys + c.disperses.Keys)
    requires Gathered(c, root, c.joins.Keys + c.disperses.Keys, byRoot)
    ensures GroupsByRoot(c, root, byRoot)
  {
    forall a | IsPeaceful(c, a) ensures root(Origin(c, a)) in byRoot && byRoot[root(Origin(c, a))] == GroupArmies(c, a) {
      GatheredGroup(c, root, byRoot, a, a);
      forall b ensures b in byRoot[root(Origin(c, a))] <==> b in GroupArmies(c, a) {
        GatheredGroup(c, root, byRoot, a, b);
      }
    }
  }

  /** Every army with its group: the orders linked to its own by a chain of overlapping ones. */
  method FindGroups(c: Context) returns (groups: map<ArmyId, set<ArmyId>>)
    requires OneOrderEach(c)
    ensures groups.Keys == c.joins.Keys + c.disperses.Keys
    ensures forall a :: a in groups ==> groups[a] == GroupArmies(c, a)
  {
    var forest := new Forest();
    LinkOrders(c, forest, c.joins.Keys, {});
    assert {} + c.joins.Keys == c.joins.Keys;
    LinkOrders(c, forest, c.disperses.Keys, c.joins.Keys);
    VisitedAll(c.joins.Keys + c.disperses.Keys);
    var byRoot := Gather(c, forest, Sorted(c.joins.Keys + c.disperses.Keys));
    AllGathered(c, forest.root, byRoot);
    ghost var group := (a: ArmyId) => GroupArmies(c, a);
    forall a ensures Reads(c, forest.root, byRoot, group, a) {
    }
    groups := ReadGroups(c, forest, byRoot, group, Sorted(c.joins.Keys + c.disperses.Keys));
  }
}
