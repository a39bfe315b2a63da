/**
 * Dish administration (`DishServiceImpl`): creating a dish with its
 * flavours, deleting dishes that are off sale and in no setmeal, replacing a
 * dish and its flavours, and putting a dish on or off sale.
 */
module Dishes {
  import opened Domain
  import opened Seqs
  import opened Store

  /** `DishDTO`: the row to write, its id on update, and the flavours (possibly null). */
  datatype DishDto = DishDto(id: Id, dish: Dish, flavors: Option<seq<DishFlavor>>)

  /** The given flavours, each pointed at dish `id`. */
  function WithDishId(fs: seq<DishFlavor>, id: Id): (r: seq<DishFlavor>)
    ensures |r| == |fs|
    ensures forall j :: 0 <= j < |r| ==> r[j].dishId == id && r[j].(dishId := fs[j].dishId) == fs[j]
  {
    seq(|fs|, j requires 0 <= j < |fs| => fs[j].(dishId := id))
  }

  /**
   * The first guard of `deleteBatch`, over the ids in the order given: the
   * first id with no dish throws, the first dish on sale refuses the delete.
   */
  function DeleteGuard(dishes: map<Id, Dish>, ids: seq<Id>): (r: Outcome)
    ensures r == Pass <==> forall k :: k in ids ==> k in dishes && dishes[k].status != ENABLE
    ensures r == Pass || r == Fail(NullReference) || r == Fail(DishOnSale)
  {
    if ids == [] then Pass
    else
      var k := ids[0];
      assert k in ids;
      if k !in dishes then Fail(NullReference)
      else if dishes[k].status == ENABLE then Fail(DishOnSale)
      else
        var r := DeleteGuard(dishes, ids[1..]);
        assert forall x :: x in ids ==> x == k || x in ids[1..];
        r
  }

  /** The status change of `startOrStrop`; a missing id touches no row. */
  function SetDishStatus(dishes: map<Id, Dish>, id: Id, status: int): (r: map<Id, Dish>)
    ensures r.Keys == dishes.Keys
    ensures forall k :: k in dishes && k != id ==> r[k] == dishes[k]
    ensures id in dishes ==> r[id].status == status && r[id].(status := dishes[id].status) == dishes[id]
  {
    if id in dishes then dishes[id := dishes[id].(status := status)] else dishes
  }

  /**
   * Deleting a dish's flavours and inserting new ones makes the new ones
   * exactly its flavours, and leaves every other dish's flavours as they were.
   */
  lemma ReplaceFlavors(flavors: seq<DishFlavor>, id: Id, fs: seq<DishFlavor>)
    ensures FlavorsOf(DeleteFlavorsByDishId(flavors, id) + WithDishId(fs, id), id) == WithDishId(fs, id)
    ensures forall d :: d != id ==>
      FlavorsOf(DeleteFlavorsByDishId(flavors, id) + WithDishId(fs, id), d) == FlavorsOf(flavors, d)
  {
    var kept := DeleteFlavorsByDishId(flavors, id);
    var added := WithDishId(fs, id);
    var mine := (f: DishFlavor) => f.dishId == id;
    FilterAppend(mine, kept, added);
    FilterNone(mine, kept);
    FilterAll(mine, added);
    forall d | d != id
      ensures FlavorsOf(kept + added, d) == FlavorsOf(flavors, d)
    {
      var theirs := (f: DishFlavor) => f.dishId == d;
      FilterAppend(theirs, kept, added);
      FilterFilter(theirs, (f: DishFlavor) => f.dishId != id, theirs, flavors);
      FilterNone(theirs, added);
    }
  }

  /**
   * After a batch delete the deleted dishes have no flavours left, and every
   * other dish keeps all of its own.
   */
  lemma DeletedDishesFlavorless(flavors: seq<DishFlavor>, ids: seq<Id>)
    ensures forall k :: k in ids ==> FlavorsOf(DeleteFlavorsByDishIds(flavors, ids), k) == []
    ensures forall k :: k !in ids ==> FlavorsOf(DeleteFlavorsByDishIds(flavors, ids), k) == FlavorsOf(flavors, k)
  {
    var kept := DeleteFlavorsByDishIds(flavors, ids);
    forall k | k in ids
      ensures FlavorsOf(kept, k) == []
    {
      FilterNone((f: DishFlavor) => f.dishId == k, kept);
    }
    forall k | k !in ids
      ensures FlavorsOf(kept, k) == FlavorsOf(flavors, k)
    {
      var theirs := (f: DishFlavor) => f.dishId == k;
      FilterFilter(theirs, (f: DishFlavor) => f.dishId !in ids, theirs, flavors);
    }
  }

  /**
   * When no setmeal links any of the dishes, deleting them with their
   * flavours keeps every link and every flavour pointing at an existing dish,
   * and every on-sale setmeal complete.
   */
  lemma DeleteBatchKeepsIntegrity(setmeals: map<Id, Setmeal>, dishes: map<Id, Dish>, flavors: seq<DishFlavor>,
                                  links: seq<SetmealDish>, ids: seq<Id>)
    requires SetmealIdsByDishIds(links, ids) == []
    ensures LinksIntact(setmeals, dishes, links) ==> LinksIntact(setmeals, DeleteByIds(dishes, ids), links)
    ensures OnSaleComplete(setmeals, dishes, links) ==> OnSaleComplete(setmeals, DeleteByIds(dishes, ids), links)
    ensures FlavorsIntact(dishes, flavors) ==> FlavorsIntact(DeleteByIds(dishes, ids), DeleteFlavorsByDishIds(flavors, ids))
  {
    var kept := DeleteFlavorsByDishIds(flavors, ids);
    forall i | 0 <= i < |kept|
      ensures kept[i] in flavors && kept[i].dishId !in ids
    {
      assert kept[i] in kept;
    }
    if FlavorsIntact(dishes, flavors) {
      forall i | 0 <= i < |kept|
        ensures kept[i].dishId in DeleteByIds(dishes, ids)
      {
        var j :| 0 <= j < |flavors| && flavors[j] == kept[i];
      }
    }
  }

  /** Putting a dish on sale, or changing it to any status other than stopped, keeps every on-sale setmeal complete. */
  lemma StartKeepsOnSaleComplete(setmeals: map<Id, Setmeal>, dishes: map<Id, Dish>, links: seq<SetmealDish>,
                                 id: Id, status: int)
    requires status != DISABLE
    ensures OnSaleComplete(setmeals, dishes, links) ==> OnSaleComplete(setmeals, SetDishStatus(dishes, id, status), links)
  {
  }

  /**
   * Stopping a dish is not guarded: stopping a dish of an on-sale setmeal
   * leaves that setmeal on sale with a stopped dish.
   */
  lemma StopBreaksOnSaleComplete(setmeal: Setmeal, dish: Dish, link: SetmealDish)
    requires setmeal.status == ENABLE && dish.status == ENABLE
    ensures var setmeals := map[link.setmealId := setmeal];
      var dishes := map[link.dishId := dish];
      && OnSaleComplete(setmeals, dishes, [link])
      && !OnSaleComplete(setmeals, SetDishStatus(dishes, link.dishId, DISABLE), [link])
  {
    var setmeals := map[link.setmealId := setmeal];
    var dishes := map[link.dishId := dish];
    var stopped := SetDishStatus(dishes, link.dishId, DISABLE);
    assert [link][0] == link;
    assert stopped[link.dishId].status == DISABLE;
    assert !(link.dishId in stopped && stopped[link.dishId].status != DISABLE);
  }

  /**
   * A new dish's flavours: with every flavour belonging to an existing dish,
   * the flavours inserted under a fresh id are exactly that dish's flavours,
   * and every flavour still belongs to an existing dish.
   */
  lemma {:induction false} NewDishFlavors(dishes: map<Id, Dish>, flavors: seq<DishFlavor>, id: Id, dish: Dish,
                                          fs: seq<DishFlavor>)
    requires id !in dishes
    requires FlavorsIntact(dishes, flavors)
    ensures FlavorsIntact(dishes[id := dish], flavors + WithDishId(fs, id))
    ensures FlavorsOf(flavors + WithDishId(fs, id), id) == WithDishId(fs, id)
  {
    var added := WithDishId(fs, id);
    var mine := (f: DishFlavor) => f.dishId == id;
    FilterAppend(mine, flavors, added);
    forall f | f in flavors ensures !mine(f) {
      var i :| 0 <= i < |flavors| && flavors[i] == f;
    }
    FilterNone(mine, flavors);
    FilterAll(mine, added);
  }

  /** `DishServiceImpl` over the store. */
  class DishService {
    const db: Db

    constructor (db: Db)
      ensures this.db == db
    {
      this.db := db;
    }

    /**
     * `save`: insert the dish under a fresh id and, when the list is neither
     * null nor empty, its flavours pointed at that id. With every flavour
     * belonging to an existing dish, the new dish's flavours are exactly the
     * ones given.
     */
    method Save(dto: DishDto)
      requires db.Valid()
      modifies db`dishes, db`nextDishId, db`flavors
      ensures db.Valid()
      ensures var id := old(db.nextDishId);
        var added := WithDishId(OrEmpty(dto.flavors), id);
        && id !in old(db.dishes)
        && db.dishes == old(db.dishes)[id := dto.dish]
        && db.nextDishId == id + 1
        && db.flavors == old(db.flavors) + added
        && (FlavorsIntact(old(db.dishes), old(db.flavors)) ==>
              FlavorsIntact(db.dishes, db.flavors) && FlavorsOf(db.flavors, id) == added)
    {
      var dishId := db.nextDishId;
      if FlavorsIntact(db.dishes, db.flavors) {
        NewDishFlavors(db.dishes, db.flavors, dishId, dto.dish, OrEmpty(dto.flavors));
      }
      db.dishes := db.dishes[dishId := dto.dish];
      db.nextDishId := db.nextDishId + 1;
      var dishFlavors := dto.flavors;
      if dishFlavors != None && dishFlavors.value != [] {
        var fs := Rekey(dishFlavors.value, dishId);
        db.flavors := db.flavors + fs;
      } else {
        assert WithDishId(OrEmpty(dishFlavors), dishId) == [];
        assert db.flavors + [] == db.flavors;
      }
    }

    /** The loop that points every given flavour at dish `id`. */
    method Rekey(flavors: seq<DishFlavor>, id: Id) returns (fs: seq<DishFlavor>)
      ensures fs == WithDishId(flavors, id)
    {
      fs := [];
      for i := 0 to |flavors|
        invariant fs == WithDishId(flavors[..i], id)
      {
        fs := fs + [flavors[i].(dishId := id)];
      }
      assert flavors[..|flavors|] == flavors;
    }

    /** The first guard loop of `deleteBatch`: look up every dish in turn; it changes nothing. */
    method CheckDeletable(ids: seq<Id>) returns (r: Outcome)
      ensures r == DeleteGuard(db.dishes, ids)
    {
      for i := 0 to |ids|
        invariant DeleteGuard(db.dishes, ids) == DeleteGuard(db.dishes, ids[i..])
      {
        assert ids[i..][1..] == ids[i + 1..];
        if ids[i] !in db.dishes {
          return Fail(NullReference);
        }
        var dish := db.dishes[ids[i]];
        if dish.status == ENABLE {
          return Fail(DishOnSale);
        }
      }
      assert ids[|ids|..] == [];
      r := Pass;
    }

    /**
     * `deleteBatch`: every id must name a dish that is not on sale, and no
     * setmeal may link any of them; then the dishes and their flavours are
     * deleted.
     */
    method DeleteBatch(ids: seq<Id>) returns (r: Outcome)
      requires db.Valid()
      modifies db`dishes, db`flavors
      ensures db.Valid()
      ensures r == (var g := DeleteGuard(old(db.dishes), ids);
                    if g != Pass then g
                    else if SetmealIdsByDishIds(db.links, ids) != [] then Fail(DishBeRelatedBySetmeal)
                    else Pass)
      ensures r != Pass ==> unchanged(db)
      ensures r == Pass ==>
        && db.dishes == DeleteByIds(old(db.dishes), ids)
        && db.flavors == DeleteFlavorsByDishIds(old(db.flavors), ids)
        && (forall k :: k in ids ==> FlavorsOf(db.flavors, k) == [])
        && (forall k :: k !in ids ==> FlavorsOf(db.flavors, k) == FlavorsOf(old(db.flavors), k))
    {
      var g := CheckDeletable(ids);
      if g != Pass {
        return g;
      }

      var setmealIds := SetmealIdsByDishIds(db.links, ids);
      if setmealIds != [] {
        return Fail(DishBeRelatedBySetmeal);
      }

      DeletedDishesFlavorless(db.flavors, ids);
      db.dishes := DeleteByIds(db.dishes, ids);
      db.flavors := DeleteFlavorsByDishIds(db.flavors, ids);
      r := Pass;
    }

    /**
     * `update`: write the dish row, then replace its flavours. The method
     * runs in a transaction, so a null flavour list throws and leaves the
     * store as it was.
     */
    method Update(dto: DishDto) returns (r: Outcome)
      requires db.Valid()
      modifies db`dishes, db`flavors
      ensures db.Valid()
      ensures dto.flavors.None? ==> r == Fail(NullReference) && unchanged(db)
      ensures dto.flavors.Some? ==>
        && r == Pass
        && db.dishes == (if dto.id in old(db.dishes) then old(db.dishes)[dto.id := dto.dish] else old(db.dishes))
        && db.flavors == DeleteFlavorsByDishId(old(db.flavors), dto.id) + WithDishId(dto.flavors.value, dto.id)
        && FlavorsOf(db.flavors, dto.id) == WithDishId(dto.flavors.value, dto.id)
        && (forall d :: d != dto.id ==> FlavorsOf(db.flavors, d) == FlavorsOf(old(db.flavors), d))
    {
      var rollback := db.dishes;
      if dto.id in db.dishes {
        db.dishes := db.dishes[dto.id := dto.dish];
      }
      var flavors := dto.flavors;
      if flavors.None? {
        db.dishes := rollback;
        return Fail(NullReference);
      }
      var fs := Rekey(flavors.value, dto.id);
      ReplaceFlavors(db.flavors, dto.id, flavors.value);
      db.flavors := DeleteFlavorsByDishId(db.flavors, dto.id);
      if fs != [] {
        db.flavors := db.flavors + fs;
      } else {
        assert db.flavors + fs == db.flavors;
      }
      r := Pass;
    }

    /** `startOrStrop`: set the dish's status, unconditionally; a missing id changes nothing. */
    method StartOrStrop(status: int, id: Id)
      requires db.Valid()
      modifies db`dishes
      ensures db.Valid()
      ensures db.dishes == SetDishStatus(old(db.dishes), id, status)
      ensures status != DISABLE && OnSaleComplete(db.setmeals, old(db.dishes), db.links) ==>
        OnSaleComplete(db.setmeals, db.dishes, db.links)
    {
      if status != DISABLE {
        StartKeepsOnSaleComplete(db.setmeals, db.dishes, db.links, id, status);
      }
      db.dishes := SetDishStatus(db.dishes, id, status);
    }
  }
}
