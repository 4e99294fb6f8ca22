/**
 Groups of joins and dispersions whose origins or destinations overlap. A
 departure is adjudicated on its group only.
 */
module Groups {
  import opened Turn

  /** The territories a peaceful order touches. */
  function Touched(c: Context, a: ArmyId): set<TerritoryId>
  {
    if a in c.joins then {c.joins[a].source, c.joins[a].target}
    else if a in c.disperses then {c.disperses[a].source} + (set t | t in c.disperses[a].targets)
    else {}
  }

  function AllTouched(c: Context): set<TerritoryId>
  {
    set a, t | a in c.joins.Keys + c.disperses.Keys && t in Touched(c, a) :: t
  }

  /** s with every territory that shares an order with it. */
  function Grow(c: Context, s: set<TerritoryId>): set<TerritoryId>
  {
    s + (set a, t | a in c.joins.Keys + c.disperses.Keys && Touched(c, a) * s != {} && t in Touched(c, a) :: t)
  }

  /** No order crosses the border of s. */
  ghost predicate IsClosed(c: Context, s: set<TerritoryId>)
  {
    forall a :: IsPeaceful(c, a) ==> Touched(c, a) <= s || Touched(c, a) !! s
  }

  /** The territories linked to s by a chain of overlapping orders. */
  function Closure(c: Context, s: set<TerritoryId>): (r: set<TerritoryId>)
    ensures s <= r && IsClosed(c, r) && r <= s + AllTouched(c)
    decreases AllTouched(c) - s
  {
    var next := Grow(c, s);
    if next == s then
      assert forall a :: IsPeaceful(c, a) && Touched(c, a) * s != {} ==> Touched(c, a) <= next;
      s
    else
      assert s < next && next <= s + AllTouched(c);
      assert AllTouched(c) - next < AllTouched(c) - s by {
        var t :| t in next && t !in s;
        assert t in AllTouched(c) - s && t !in AllTouched(c) - next;
      }
      Closure(c, next)
  }

  /** The closure is the least closed set that contains s. */
  lemma {:induction false} ClosureLeast(c: Context, s: set<TerritoryId>, r: set<TerritoryId>)
    requires s <= r && IsClosed(c, r)
    ensures Closure(c, s) <= r
    decreases AllTouched(c) - s
  {
    var next := Grow(c, s);
    if next != s {
      forall t | t in next ensures t in r {
        if t !in s {
          var a :| a in c.joins.Keys + c.disperses.Keys && Touched(c, a) * s != {} && t in Touched(c, a);
          var u :| u in Touched(c, a) * s;
          assert u in Touched(c, a) && u in r && IsPeaceful(c, a);
        }
      }
      assert AllTouched(c) - next < AllTouched(c) - s by {
        var t :| t in next && t !in s;
        assert t in AllTouched(c) - s && t !in AllTouched(c) - next;
      }
      ClosureLeast(c, next, r);
    }
  }

  /** The territories of the group of an army's order. */
  function GroupTerritories(c: Context, a: ArmyId): set<TerritoryId>
  {
    Closure(c, Touched(c, a))
  }

  /** The context restricted to the orders lying in s: peacefulScratch. */
  function Restricted(c: Context, s: set<TerritoryId>): Context
  {
    c.(joins := map a | a in c.joins && c.joins[a].source in s :: c.joins[a],
       disperses := map a | a in c.disperses && c.disperses[a].source in s :: c.disperses[a])
  }

  function Scratch(c: Context, a: ArmyId): Context
  {
    Restricted(c, GroupTerritories(c, a))
  }

  /** The armies of a group. */
  function GroupArmies(c: Context, a: ArmyId): set<ArmyId>
  {
    Scratch(c, a).joins.Keys + Scratch(c, a).disperses.Keys
  }
}
