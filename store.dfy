/**
 * The relational store behind the services, held in memory: one field per
 * table, and the queries of the mapper interfaces as functions over those
 * tables. The SQL of most mapper methods is not part of this model; the
 * meaning each function gives its query is stated beside it.
 */
module Store {
  import opened Domain
  import opened Seqs

  // ---------------------------------------------------------------- cart

  /**
   * `shoppingCartMapper.list(example)`: the rows of the example's user that
   * agree with it on each of dishId, setmealId and dishFlavor the example
   * sets; a field the example leaves null does not constrain the row.
   */
  predicate Matches(e: CartEntry, q: CartQuery)
    ensures Matches(e, q) ==> e.userId == q.userId
    ensures q.dishId.None? && q.setmealId.None? && q.dishFlavor.None? ==> (Matches(e, q) <==> e.userId == q.userId)
    ensures q.dishId.Some? && Matches(e, q) ==> e.dishId == q.dishId
  {
    e.userId == q.userId
    && (q.dishId.Some? ==> e.dishId == q.dishId)
    && (q.setmealId.Some? ==> e.setmealId == q.setmealId)
    && (q.dishFlavor.Some? ==> e.dishFlavor == q.dishFlavor)
  }

  /** The rows `shoppingCartMapper.list` returns, in table order. */
  function ListCart(cart: seq<CartEntry>, q: CartQuery): seq<CartEntry>
  {
    Filter((e: CartEntry) => Matches(e, q), cart)
  }

  /** The example object that selects a whole user's cart. */
  function UserQuery(userId: Id): CartQuery
  {
    CartQuery(userId, None, None, None)
  }

  /** A user's cart as `shoppingCartMapper.list` returns it for `UserQuery`. */
  function OfUser(cart: seq<CartEntry>, userId: Id): seq<CartEntry>
  {
    ListCart(cart, UserQuery(userId))
  }

  /** `shoppingCartMapper.updateNumberById`. */
  function UpdateNumberById(cart: seq<CartEntry>, id: Id, number: int): (r: seq<CartEntry>)
    ensures |r| == |cart|
  {
    seq(|cart|, i requires 0 <= i < |cart| => if cart[i].id == id then cart[i].(number := number) else cart[i])
  }

  /** `shoppingCartMapper.deleteById`. */
  function DeleteById(cart: seq<CartEntry>, id: Id): seq<CartEntry>
  {
    Filter((e: CartEntry) => e.id != id, cart)
  }

  /** `shoppingCartMapper.deleteByUserId`. */
  function DeleteByUserId(cart: seq<CartEntry>, userId: Id): seq<CartEntry>
  {
    Filter((e: CartEntry) => e.userId != userId, cart)
  }

  /**
   * Cart rows have distinct ids below the next auto-increment value, and
   * every row holds at least one unit.
   */
  predicate CartValid(cart: seq<CartEntry>, nextId: Id)
  {
    (forall i :: 0 <= i < |cart| ==> cart[i].id < nextId && cart[i].number >= 1)
    && DistinctIds(cart)
  }

  /** No two cart rows share a primary key. */
  predicate DistinctIds(cart: seq<CartEntry>)
  {
    forall i, j :: 0 <= i < j < |cart| ==> cart[i].id != cart[j].id
  }

  // -------------------------------------------------------------- orders

  /**
   * The non-null fields of a partially filled `Orders` object handed to
   * `orderMapper.update`; the update writes exactly those columns.
   */
  datatype OrderPatch = OrderPatch(
    status: Option<int>,
    payStatus: Option<int>,
    cancelReason: Option<string>,
    rejectionReason: Option<string>,
    cancelTime: Option<Time>)

  /** A freshly built `Orders` object with only its id set. */
  const NoChange: OrderPatch := OrderPatch(None, None, None, None, None)

  /** The order row after an update with patch `p`: the columns `p` sets take its values, every other column is kept. */
  function Patched(o: Order, p: OrderPatch): (r: Order)
    ensures p == NoChange ==> r == o
    ensures r.(status := o.status, payStatus := o.payStatus, cancelReason := o.cancelReason,
               rejectionReason := o.rejectionReason, cancelTime := o.cancelTime) == o
    ensures (p.status.Some? ==> r.status == p.status.value) && (p.status.None? ==> r.status == o.status)
    ensures (p.payStatus.Some? ==> r.payStatus == p.payStatus.value) && (p.payStatus.None? ==> r.payStatus == o.payStatus)
    ensures (p.cancelReason.Some? ==> r.cancelReason == p.cancelReason) && (p.cancelReason.None? ==> r.cancelReason == o.cancelReason)
    ensures (p.rejectionReason.Some? ==> r.rejectionReason == p.rejectionReason)
            && (p.rejectionReason.None? ==> r.rejectionReason == o.rejectionReason)
    ensures (p.cancelTime.Some? ==> r.cancelTime == p.cancelTime) && (p.cancelTime.None? ==> r.cancelTime == o.cancelTime)
  {
    o.(status := if p.status.Some? then p.status.value else o.status,
       payStatus := if p.payStatus.Some? then p.payStatus.value else o.payStatus,
       cancelReason := if p.cancelReason.Some? then p.cancelReason else o.cancelReason,
       rejectionReason := if p.rejectionReason.Some? then p.rejectionReason else o.rejectionReason,
       cancelTime := if p.cancelTime.Some? then p.cancelTime else o.cancelTime)
  }

  /** `orderMapper.update`: an update of a missing id touches no row. */
  function UpdateOrder(orders: map<Id, Order>, id: Id, p: OrderPatch): (r: map<Id, Order>)
    ensures r.Keys == orders.Keys
    ensures forall k :: k in orders && k != id ==> r[k] == orders[k]
    ensures id in orders ==> r[id] == Patched(orders[id], p)
  {
    if id in orders then orders[id := Patched(orders[id], p)] else orders
  }

  /** `orderMapper.countStatus`. */
  function CountStatus(orders: map<Id, Order>, status: int): (r: nat)
    ensures r <= |orders|
  {
    var s := set id | id in orders && orders[id].status == status;
    SubsetSize(s, orders.Keys);
    |s|
  }

  lemma SubsetSize(x: set<Id>, y: set<Id>)
    requires x <= y
    ensures |x| <= |y|
  {
    assert y == x + (y - x);
  }

  /** `orderDetailMapper.getByOrderId`, in table order. */
  function DetailsByOrderId(details: seq<OrderDetail>, orderId: Id): seq<OrderDetail>
  {
    Filter((d: OrderDetail) => d.orderId == orderId, details)
  }

  /** Order keys are below the next auto-increment value; statuses and pay statuses are in range. */
  predicate OrdersValid(orders: map<Id, Order>, nextId: Id)
  {
    forall id :: id in orders ==>
      id < nextId
      && PENDING_PAYMENT <= orders[id].status <= CANCELLED
      && UN_PAID <= orders[id].payStatus <= REFUND
  }

  /** Every line item belongs to an order id already handed out and holds at least one unit. */
  predicate DetailsValid(details: seq<OrderDetail>, nextOrderId: Id)
  {
    forall i :: 0 <= i < |details| ==> details[i].orderId < nextOrderId && details[i].number >= 1
  }

  // ----------------------------------------------------------- catalogue

  /** `dishMapper.deleteByIds` and `setmealMapper.deleteBatch`: the rows whose key is listed go, the others stay as they are. */
  function DeleteByIds<V>(rows: map<Id, V>, ids: seq<Id>): (r: map<Id, V>)
    ensures forall k :: k in r <==> k in rows && k !in ids
    ensures forall k :: k in r ==> r[k] == rows[k]
  {
    map k | k in rows && k !in ids :: rows[k]
  }

  /** The flavours of one dish (`dishFlavorMapper.getFlavorsByDishId`). */
  function FlavorsOf(flavors: seq<DishFlavor>, dishId: Id): seq<DishFlavor>
  {
    Filter((f: DishFlavor) => f.dishId == dishId, flavors)
  }

  /** `dishFlavorMapper.deleteByDishIds`. */
  function DeleteFlavorsByDishIds(flavors: seq<DishFlavor>, ids: seq<Id>): seq<DishFlavor>
  {
    Filter((f: DishFlavor) => f.dishId !in ids, flavors)
  }

  /** `dishFlavorMapper.deleteByDishId`. */
  function DeleteFlavorsByDishId(flavors: seq<DishFlavor>, dishId: Id): seq<DishFlavor>
  {
    Filter((f: DishFlavor) => f.dishId != dishId, flavors)
  }

  /**
   * `setmealDishMapper.getSetmealIdsByDishIds`: the setmeal id of every link
   * whose dish is among `ids`.
   */
  function SetmealIdsByDishIds(links: seq<SetmealDish>, ids: seq<Id>): (r: seq<Id>)
    ensures r == [] <==> forall i :: 0 <= i < |links| ==> links[i].dishId !in ids
  {
    if links == [] then []
    else (if links[0].dishId in ids then [links[0].setmealId] else []) + SetmealIdsByDishIds(links[1..], ids)
  }

  /** `setmealDishMapper.getDishIdsBySetmealId`, in table order. */
  function DishIdsBySetmealId(links: seq<SetmealDish>, setmealId: Id): (r: seq<Id>)
    ensures forall d :: d in r <==> exists i :: 0 <= i < |links| && links[i].setmealId == setmealId && links[i].dishId == d
  {
    if links == [] then []
    else
      var rest := DishIdsBySetmealId(links[1..], setmealId);
      assert forall i :: 0 < i < |links| ==> links[i] == links[1..][i - 1];
      (if links[0].setmealId == setmealId then [links[0].dishId] else []) + rest
  }

  /** The links of one setmeal (`setmealDishMapper.getBySetmealId`). */
  function LinksOf(links: seq<SetmealDish>, setmealId: Id): seq<SetmealDish>
  {
    Filter((l: SetmealDish) => l.setmealId == setmealId, links)
  }

  /**
   * `setmealMapper.getStatusByIds`: those of `ids` that name a setmeal on
   * sale, in the order given.
   */
  function OnSaleSetmealIds(setmeals: map<Id, Setmeal>, ids: seq<Id>): (r: seq<Id>)
    ensures forall i :: 0 <= i < |r| ==> r[i] in ids && r[i] in setmeals && setmeals[r[i]].status == ENABLE
    ensures r == [] <==> forall k :: k in ids ==> k !in setmeals || setmeals[k].status != ENABLE
  {
    var onSale := (k: Id) => k in setmeals && setmeals[k].status == ENABLE;
    var r := Filter(onSale, ids);
    assert forall i :: 0 <= i < |r| ==> r[i] in r;
    assert r == [] ==> forall k :: k in ids ==> !onSale(k) by {
      if r == [] {
        forall k | k in ids ensures !onSale(k) {
          assert k !in r;
        }
      }
    }
    assert r != [] ==> r[0] in r;
    assert r == [] ==> forall k :: k in ids ==> k !in setmeals || setmeals[k].status != ENABLE;
    assert (forall k :: k in ids ==> k !in setmeals || setmeals[k].status != ENABLE) ==> r == [];
    r
  }

  /** `setmealDishMapper.deleteBatch`. */
  function DeleteLinksBySetmealIds(links: seq<SetmealDish>, ids: seq<Id>): seq<SetmealDish>
  {
    Filter((l: SetmealDish) => l.setmealId !in ids, links)
  }

  /** `setmealDishMapper.deleteBySetmealId`. */
  function DeleteLinksBySetmealId(links: seq<SetmealDish>, setmealId: Id): seq<SetmealDish>
  {
    Filter((l: SetmealDish) => l.setmealId != setmealId, links)
  }

  /** Every setmeal link names an existing setmeal and an existing dish. */
  predicate LinksIntact(setmeals: map<Id, Setmeal>, dishes: map<Id, Dish>, links: seq<SetmealDish>)
  {
    forall i :: 0 <= i < |links| ==> links[i].setmealId in setmeals && links[i].dishId in dishes
  }

  /** Every flavour belongs to an existing dish. */
  predicate FlavorsIntact(dishes: map<Id, Dish>, flavors: seq<DishFlavor>)
  {
    forall i :: 0 <= i < |flavors| ==> flavors[i].dishId in dishes
  }

  /** A setmeal on sale only contains dishes that exist and are not stopped. */
  predicate OnSaleComplete(setmeals: map<Id, Setmeal>, dishes: map<Id, Dish>, links: seq<SetmealDish>)
  {
    forall i :: 0 <= i < |links| && links[i].setmealId in setmeals && setmeals[links[i].setmealId].status == ENABLE ==>
      links[i].dishId in dishes && dishes[links[i].dishId].status != DISABLE
  }

  // --------------------------------------------------------------- store

  /**
   * The store's invariant over its tables: order and line-item rows as
   * OrdersValid and DetailsValid say, a well-formed cart, and every dish and
   * setmeal key below its auto-increment value.
   */
  predicate TablesValid(orders: map<Id, Order>, nextOrderId: Id, details: seq<OrderDetail>,
                        cart: seq<CartEntry>, nextCartId: Id, dishes: map<Id, Dish>, nextDishId: Id,
                        setmeals: map<Id, Setmeal>, nextSetmealId: Id)
  {
    OrdersValid(orders, nextOrderId)
    && DetailsValid(details, nextOrderId)
    && CartValid(cart, nextCartId)
    && (forall k :: k in dishes ==> k < nextDishId)
    && (forall k :: k in setmeals ==> k < nextSetmealId)
  }

  /** All tables of the backend, updated in place by the services. */
  class Db {
    var orders: map<Id, Order>
    var nextOrderId: Id
    var details: seq<OrderDetail>
    var addressBooks: map<Id, AddressBook>
    var cart: seq<CartEntry>
    var nextCartId: Id
    var dishes: map<Id, Dish>
    var nextDishId: Id
    var flavors: seq<DishFlavor>
    var setmeals: map<Id, Setmeal>
    var nextSetmealId: Id
    var links: seq<SetmealDish>
    /** Ids of the orders a refund was issued for, in call order (the payment call is a stub). */
    ghost var refunds: seq<Id>

    ghost predicate Valid()
      reads this
    {
      TablesValid(orders, nextOrderId, details, cart, nextCartId, dishes, nextDishId, setmeals, nextSetmealId)
    }

    /** An empty store over a given, externally maintained address book. */
    constructor (addressBooks: map<Id, AddressBook>)
      ensures Valid()
      ensures this.addressBooks == addressBooks
      ensures orders == map[] && details == [] && cart == [] && refunds == []
      ensures dishes == map[] && flavors == [] && setmeals == map[] && links == []
    {
      this.addressBooks := addressBooks;
      orders, nextOrderId, details := map[], 1, [];
      cart, nextCartId := [], 1;
      dishes, nextDishId, flavors := map[], 1, [];
      setmeals, nextSetmealId, links := map[], 1, [];
      refunds := [];
    }
  }
}
