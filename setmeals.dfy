/**
 * Setmeal administration (`SetmealServiceImpl`): creating a setmeal with its
 * dish links, deleting setmeals that are off sale, replacing a setmeal and
 * its links, and putting a setmeal on or off sale.
 */
module Setmeals {
  import opened Domain
  import opened Seqs
  import opened Store

  /** `SetmealDTO`: the row to write, its id on update, and the dish links (possibly null). */
  datatype SetmealDto = SetmealDto(id: Id, setmeal: Setmeal, setmealDishes: Option<seq<SetmealDish>>)

  /** The given links, each pointed at setmeal `id`. */
  function WithSetmealId(ls: seq<SetmealDish>, id: Id): (r: seq<SetmealDish>)
    ensures |r| == |ls|
    ensures forall j :: 0 <= j < |r| ==> r[j].setmealId == id && r[j].(setmealId := ls[j].setmealId) == ls[j]
  {
    seq(|ls|, j requires 0 <= j < |ls| => ls[j].(setmealId := id))
  }

  /**
   * The guard of putting a setmeal on sale, over its linked dishes in table
   * order: the first dish that is missing throws, the first stopped dish
   * refuses the change.
   */
  function EnableCheck(dishes: map<Id, Dish>, dishIds: seq<Id>): (r: Outcome)
    ensures r == Pass <==> forall d :: d in dishIds ==> d in dishes && dishes[d].status != DISABLE
    ensures r == Pass || r == Fail(NullReference) || r == Fail(SetmealEnableFailed)
  {
    if dishIds == [] then Pass
    else
      var d := dishIds[0];
      assert d in dishIds;
      if d !in dishes then Fail(NullReference)
      else if dishes[d].status == DISABLE then Fail(SetmealEnableFailed)
      else
        var r := EnableCheck(dishes, dishIds[1..]);
        assert forall x :: x in dishIds ==> x == d || x in dishIds[1..];
        r
  }

  /** The status change of `startOrStop`; a missing id touches no row. */
  function SetStatus(setmeals: map<Id, Setmeal>, id: Id, status: int): (r: map<Id, Setmeal>)
    ensures r.Keys == setmeals.Keys
    ensures forall k :: k in setmeals && k != id ==> r[k] == setmeals[k]
    ensures id in setmeals ==> r[id].status == status && r[id].(status := setmeals[id].status) == setmeals[id]
  {
    if id in setmeals then setmeals[id := setmeals[id].(status := status)] else setmeals
  }

  /**
   * Deleting a setmeal's links and inserting new ones makes the new ones
   * exactly its links, and leaves every other setmeal's links as they were.
   */
  lemma ReplaceLinks(links: seq<SetmealDish>, id: Id, ls: seq<SetmealDish>)
    ensures LinksOf(DeleteLinksBySetmealId(links, id) + WithSetmealId(ls, id), id) == WithSetmealId(ls, id)
    ensures forall s :: s != id ==>
      LinksOf(DeleteLinksBySetmealId(links, id) + WithSetmealId(ls, id), s) == LinksOf(links, s)
  {
    var kept := DeleteLinksBySetmealId(links, id);
    var added := WithSetmealId(ls, id);
    var mine := (l: SetmealDish) => l.setmealId == id;
    FilterAppend(mine, kept, added);
    FilterNone(mine, kept);
    FilterAll(mine, added);
    forall s | s != id
      ensures LinksOf(kept + added, s) == LinksOf(links, s)
    {
      var theirs := (l: SetmealDish) => l.setmealId == s;
      FilterAppend(theirs, kept, added);
      FilterFilter(theirs, (l: SetmealDish) => l.setmealId != id, theirs, links);
      FilterNone(theirs, added);
    }
  }

  /**
   * After a batch delete the deleted setmeals have no links left, and every
   * other setmeal keeps all of its own.
   */
  lemma DeletedSetmealsUnlinked(links: seq<SetmealDish>, ids: seq<Id>)
    ensures forall s :: s in ids ==> LinksOf(DeleteLinksBySetmealIds(links, ids), s) == []
    ensures forall s :: s !in ids ==> LinksOf(DeleteLinksBySetmealIds(links, ids), s) == LinksOf(links, s)
  {
    var kept := DeleteLinksBySetmealIds(links, ids);
    forall s | s in ids
      ensures LinksOf(kept, s) == []
    {
      FilterNone((l: SetmealDish) => l.setmealId == s, kept);
    }
    forall s | s !in ids
      ensures LinksOf(kept, s) == LinksOf(links, s)
    {
      var theirs := (l: SetmealDish) => l.setmealId == s;
      FilterFilter(theirs, (l: SetmealDish) => l.setmealId !in ids, theirs, links);
    }
  }

  /**
   * Inserting a setmeal's links adds them after the links it already has;
   * when every link points at an existing setmeal and the id is new, they
   * are exactly its links.
   */
  lemma {:induction false} FreshSetmealLinks(setmeals: map<Id, Setmeal>, dishes: map<Id, Dish>,
                                             links: seq<SetmealDish>, id: Id, ls: seq<SetmealDish>)
    ensures LinksOf(links + WithSetmealId(ls, id), id) == LinksOf(links, id) + WithSetmealId(ls, id)
    ensures id !in setmeals && LinksIntact(setmeals, dishes, links) ==>
      LinksOf(links + WithSetmealId(ls, id), id) == WithSetmealId(ls, id)
  {
    var mine := (l: SetmealDish) => l.setmealId == id;
    FilterAppend(mine, links, WithSetmealId(ls, id));
    FilterAll(mine, WithSetmealId(ls, id));
    if id !in setmeals && LinksIntact(setmeals, dishes, links) {
      forall l | l in links ensures !mine(l) {
        var i :| 0 <= i < |links| && links[i] == l;
      }
      FilterNone(mine, links);
    }
  }

  /** Deleting off-sale setmeals together with their links keeps every link pointing at an existing setmeal. */
  lemma DeleteBatchKeepsIntegrity(setmeals: map<Id, Setmeal>, dishes: map<Id, Dish>, links: seq<SetmealDish>, ids: seq<Id>)
    ensures LinksIntact(setmeals, dishes, links) ==>
      LinksIntact(DeleteByIds(setmeals, ids), dishes, DeleteLinksBySetmealIds(links, ids))
    ensures OnSaleComplete(setmeals, dishes, links) ==>
      OnSaleComplete(DeleteByIds(setmeals, ids), dishes, DeleteLinksBySetmealIds(links, ids))
  {
    var kept := DeleteLinksBySetmealIds(links, ids);
    forall i | 0 <= i < |kept|
      ensures kept[i] in links && kept[i].setmealId !in ids
    {
      assert kept[i] in kept;
    }
  }

  /** `SetmealServiceImpl` over the store. */
  class SetmealService {
    const db: Db

    constructor (db: Db)
      ensures this.db == db
    {
      this.db := db;
    }

    /**
     * `save`: insert the setmeal under a fresh id and, when the list is
     * neither null nor empty, its links pointed at that id.
     */
    method Save(dto: SetmealDto)
      requires db.Valid()
      modifies db`setmeals, db`nextSetmealId, db`links
      ensures db.Valid()
      ensures var id := old(db.nextSetmealId);
        var added := WithSetmealId(OrEmpty(dto.setmealDishes), id);
        && id !in old(db.setmeals)
        && db.setmeals == old(db.setmeals)[id := dto.setmeal]
        && db.nextSetmealId == id + 1
        && db.links == old(db.links) + added
        && LinksOf(db.links, id) == LinksOf(old(db.links), id) + added
        && (LinksIntact(old(db.setmeals), db.dishes, old(db.links)) ==> LinksOf(db.links, id) == added)
    {
      var id := db.nextSetmealId;
      FreshSetmealLinks(db.setmeals, db.dishes, db.links, id, OrEmpty(dto.setmealDishes));
      db.setmeals := db.setmeals[id := dto.setmeal];
      db.nextSetmealId := db.nextSetmealId + 1;
      var setmealDishes := dto.setmealDishes;
      if setmealDishes != None && setmealDishes.value != [] {
        var ls := Rekey(setmealDishes.value, id);
        db.links := db.links + ls;
      } else {
        assert WithSetmealId(OrEmpty(setmealDishes), id) == [];
        assert db.links + [] == db.links;
      }
    }

    /** The loop that points every given link at setmeal `id`. */
    method Rekey(setmealDishes: seq<SetmealDish>, id: Id) returns (ls: seq<SetmealDish>)
      ensures ls == WithSetmealId(setmealDishes, id)
    {
      ls := [];
      for i := 0 to |setmealDishes|
        invariant ls == WithSetmealId(setmealDishes[..i], id)
      {
        ls := ls + [setmealDishes[i].(setmealId := id)];
      }
      assert setmealDishes[..|setmealDishes|] == setmealDishes;
    }

    /**
     * `deleteBatch`: refused when any of the ids is a setmeal on sale;
     * otherwise the setmeals and all their links are deleted.
     */
    method DeleteBatch(ids: seq<Id>) returns (r: Outcome)
      requires db.Valid()
      modifies db`setmeals, db`links
      ensures db.Valid()
      ensures r == Pass <==> forall k :: k in ids ==> k !in old(db.setmeals) || old(db.setmeals)[k].status != ENABLE
      ensures r != Pass ==> r == Fail(SetmealOnSale) && unchanged(db)
      ensures r == Pass ==>
        && db.setmeals == DeleteByIds(old(db.setmeals), ids)
        && db.links == DeleteLinksBySetmealIds(old(db.links), ids)
        && (forall s :: s in ids ==> LinksOf(db.links, s) == [])
        && (forall s :: s !in ids ==> LinksOf(db.links, s) == LinksOf(old(db.links), s))
    {
      var setmealStartIds := OnSaleSetmealIds(db.setmeals, ids);
      if setmealStartIds == [] {
        DeletedSetmealsUnlinked(db.links, ids);
        var kept := DeleteByIds(db.setmeals, ids);
        assert forall k :: k in kept ==> k < db.nextSetmealId;
        db.setmeals := kept;
        db.links := DeleteLinksBySetmealIds(db.links, ids);
        r := Pass;
      } else {
        r := Fail(SetmealOnSale);
      }
    }

    /**
     * `update`: write the setmeal row, delete its links, then insert the new
     * ones. The method runs outside a transaction, so a null link list throws
     * after the row is written and the old links are gone.
     */
    method Update(dto: SetmealDto) returns (r: Outcome)
      requires db.Valid()
      modifies db`setmeals, db`links
      ensures db.Valid()
      ensures r == (if dto.setmealDishes.None? then Fail(NullReference) else Pass)
      ensures db.setmeals == (if dto.id in old(db.setmeals) then old(db.setmeals)[dto.id := dto.setmeal] else old(db.setmeals))
      ensures var added := if dto.setmealDishes.Some? then WithSetmealId(dto.setmealDishes.value, dto.id) else [];
        && db.links == DeleteLinksBySetmealId(old(db.links), dto.id) + added
        && LinksOf(db.links, dto.id) == added
        && (forall s :: s != dto.id ==> LinksOf(db.links, s) == LinksOf(old(db.links), s))
    {
      if dto.id in db.setmeals {
        db.setmeals := db.setmeals[dto.id := dto.setmeal];
      }
      var setmealDishes := dto.setmealDishes;
      ReplaceLinks(db.links, dto.id, if setmealDishes.Some? then setmealDishes.value else []);
      db.links := DeleteLinksBySetmealId(db.links, dto.id);
      if setmealDishes.None? {
        assert db.links + [] == db.links;
        return Fail(NullReference);
      }
      if setmealDishes.value != [] {
        var ls := Rekey(setmealDishes.value, dto.id);
        db.links := db.links + ls;
      } else {
        assert db.links + [] == db.links;
      }
      r := Pass;
    }

    /** The guard loop of `startOrStop`: look up every linked dish in turn; it changes nothing. */
    method CheckEnable(dishIds: seq<Id>) returns (r: Outcome)
      ensures r == EnableCheck(db.dishes, dishIds)
    {
      for i := 0 to |dishIds|
        invariant EnableCheck(db.dishes, dishIds) == EnableCheck(db.dishes, dishIds[i..])
      {
        assert dishIds[i..][1..] == dishIds[i + 1..];
        if dishIds[i] !in db.dishes {
          return Fail(NullReference);
        }
        if db.dishes[dishIds[i]].status == DISABLE {
          return Fail(SetmealEnableFailed);
        }
      }
      assert dishIds[|dishIds|..] == [];
      r := Pass;
    }

    /**
     * `startOrStop`: before putting a setmeal on sale, every linked dish must
     * exist and not be stopped; stopping is never refused. On-sale setmeals
     * keep containing only dishes that are not stopped.
     */
    method StartOrStop(status: int, id: Id) returns (r: Outcome)
      requires db.Valid()
      modifies db`setmeals
      ensures db.Valid()
      ensures r == (if status == ENABLE then EnableCheck(db.dishes, DishIdsBySetmealId(db.links, id)) else Pass)
      ensures r != Pass ==> unchanged(db)
      ensures r == Pass ==> db.setmeals == SetStatus(old(db.setmeals), id, status)
      ensures OnSaleComplete(old(db.setmeals), db.dishes, db.links) ==> OnSaleComplete(db.setmeals, db.dishes, db.links)
    {
      if status == ENABLE {
        var dishIds := DishIdsBySetmealId(db.links, id);
        var g := CheckEnable(dishIds);
        if g != Pass {
          return g;
        }
      }
      db.setmeals := SetStatus(db.setmeals, id, status);
      r := Pass;
      forall i | 0 <= i < |db.links| && db.links[i].setmealId == id && id in db.setmeals && status == ENABLE
        ensures db.links[i].dishId in db.dishes && db.dishes[db.links[i].dishId].status != DISABLE
      {
        assert db.links[i].dishId in DishIdsBySetmealId(db.links, id);
      }
    }
  }
}
