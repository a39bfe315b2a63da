/**
 * The order lifecycle (`OrderServiceImpl`): submitting an order from the
 * cart, the customer's cancel and reorder, and the admin's confirm, reject,
 * cancel, deliver and complete, plus the status statistics and the dish
 * summary of the admin listing.
 *
 * Status moves are written as the partial `Orders` objects the source hands
 * to `orderMapper.update` (Store.OrderPatch); each method is proved to change
 * exactly the fields its patch sets, on exactly the order it names.
 */
module Orders {
  import opened Domain
  import opened Seqs
  import opened Store
  import Cart
  import DishSummary

  /** `OrdersSubmitDTO`, reduced to the fields this model copies into the order. */
  datatype OrdersSubmitDto = OrdersSubmitDto(addressBookId: Id, amount: int, remark: string)

  /** `OrderSubmitVO`. */
  datatype OrderSubmitVo = OrderSubmitVo(id: Id, orderNumber: string, orderAmount: int, orderTime: Time)

  /** `OrderStatisticsVO`. */
  datatype OrderStatistics = OrderStatistics(toBeConfirmed: nat, confirmed: nat, deliveryInProgress: nat)

  /**
   * The forward moves of the order lifecycle: payment, acceptance,
   * dispatch, completion, and cancellation before dispatch.
   */
  predicate Advances(from: int, to: int)
  {
    (from == PENDING_PAYMENT && (to == TO_BE_CONFIRMED || to == CANCELLED))
    || (from == TO_BE_CONFIRMED && (to == CONFIRMED || to == CANCELLED))
    || (from == CONFIRMED && (to == DELIVERY_IN_PROGRESS || to == CANCELLED))
    || (from == DELIVERY_IN_PROGRESS && to == COMPLETED)
  }

  /** Every refunded order is a cancelled one. */
  predicate RefundsSettled(orders: map<Id, Order>)
  {
    forall id :: id in orders && orders[id].payStatus == REFUND ==> orders[id].status == CANCELLED
  }

  /**
   * `o2` differs from `o` at most in the lifecycle columns an update patch
   * may write; everything captured at submission is kept.
   */
  predicate KeepsSnapshot(o: Order, o2: Order)
  {
    o2.(status := o.status, payStatus := o.payStatus, cancelReason := o.cancelReason,
        rejectionReason := o.rejectionReason, cancelTime := o.cancelTime) == o
  }

  /** The order row `submitOrder` inserts. */
  function PlacedOrder(userId: Id, dto: OrdersSubmitDto, book: AddressBook, number: string, now: Time): (o: Order)
    ensures o.userId == userId && o.number == number && o.orderTime == now
    ensures o.status == PENDING_PAYMENT && o.payStatus == UN_PAID
    ensures o.cancelReason.None? && o.rejectionReason.None? && o.cancelTime.None?
    ensures o.consignee == book.consignee && o.phone == book.phone && o.address == book.text
    ensures o.amount == dto.amount && o.addressBookId == dto.addressBookId && o.remark == dto.remark
  {
    Order(userId, number, PENDING_PAYMENT, UN_PAID, dto.amount, dto.addressBookId, dto.remark,
          book.text, book.consignee, book.phone, now, None, None, None)
  }

  /** The line item copied from one cart row. */
  function LineOf(e: CartEntry, orderId: Id): OrderDetail
  {
    OrderDetail(orderId, e.name, e.image, e.dishId, e.setmealId, e.dishFlavor, e.number, e.amount)
  }

  /** The line items of a new order, one per cart row, in cart order. */
  function OrderLines(entries: seq<CartEntry>, orderId: Id): (r: seq<OrderDetail>)
    ensures |r| == |entries|
    ensures forall j :: 0 <= j < |r| ==> r[j].orderId == orderId
    ensures forall j :: 0 <= j < |r| ==>
      && r[j].name == entries[j].name && r[j].dishId == entries[j].dishId && r[j].setmealId == entries[j].setmealId
      && r[j].dishFlavor == entries[j].dishFlavor && r[j].number == entries[j].number && r[j].amount == entries[j].amount
  {
    seq(|entries|, j requires 0 <= j < |entries| => LineOf(entries[j], orderId))
  }

  /** The cart row `repetition` builds from one line item. */
  function ReorderedEntry(d: OrderDetail, userId: Id, id: Id, now: Time): CartEntry
  {
    CartEntry(id, userId, d.name, d.image, d.dishId, d.setmealId, d.dishFlavor, d.number, d.amount, now)
  }

  /** The cart rows `repetition` inserts, with consecutive fresh ids from `firstId`. */
  function Reordered(ds: seq<OrderDetail>, userId: Id, firstId: Id, now: Time): (r: seq<CartEntry>)
    ensures |r| == |ds|
    ensures forall j :: 0 <= j < |r| ==> r[j].userId == userId && r[j].createTime == now && firstId <= r[j].id < firstId + |ds|
    ensures forall i, j :: 0 <= i < j < |r| ==> r[i].id < r[j].id
    ensures forall j :: 0 <= j < |r| ==>
      && r[j].name == ds[j].name && r[j].dishId == ds[j].dishId && r[j].setmealId == ds[j].setmealId
      && r[j].dishFlavor == ds[j].dishFlavor && r[j].number == ds[j].number && r[j].amount == ds[j].amount
  {
    seq(|ds|, j requires 0 <= j < |ds| => ReorderedEntry(ds[j], userId, firstId + j, now))
  }

  // ------------------------------------------------------------ lemmas

  /**
   * Rewriting one order moves it between status counts: it leaves the count
   * of its old status and joins that of its new one.
   */
  lemma CountAfterUpdate(orders: map<Id, Order>, id: Id, o: Order, status: int)
    requires id in orders
    ensures CountStatus(orders[id := o], status)
      == CountStatus(orders, status) - (if orders[id].status == status then 1 else 0) + (if o.status == status then 1 else 0)
  {
    var before := set k | k in orders && orders[k].status == status;
    var m := orders[id := o];
    var after := set k | k in m && m[k].status == status;
    assert after - {id} == before - {id};
    SizeWithout(after, id);
    SizeWithout(before, id);
    assert id in after <==> o.status == status;
    assert id in before <==> orders[id].status == status;
  }

  lemma SizeWithout(s: set<Id>, x: Id)
    ensures |s| == |s - {x}| + (if x in s then 1 else 0)
  {
    if x in s {
      assert s == (s - {x}) + {x};
    } else {
      assert s - {x} == s;
    }
  }

  /** The three counts of the statistics never add up to more than the number of orders. */
  lemma StatisticsWithinOrders(orders: map<Id, Order>)
    ensures CountStatus(orders, TO_BE_CONFIRMED) + CountStatus(orders, CONFIRMED)
            + CountStatus(orders, DELIVERY_IN_PROGRESS) <= |orders|
  {
    var a := set k | k in orders && orders[k].status == TO_BE_CONFIRMED;
    var b := set k | k in orders && orders[k].status == CONFIRMED;
    var c := set k | k in orders && orders[k].status == DELIVERY_IN_PROGRESS;
    assert a !! b && (a + b) !! c;
    DisjointSize(a, b);
    DisjointSize(a + b, c);
    assert a + b + c <= orders.Keys;
    SubsetSize(a + b + c, orders.Keys);
  }

  lemma DisjointSize(x: set<Id>, y: set<Id>)
    requires x !! y
    ensures |x + y| == |x| + |y|
  {
  }

  /**
   * A new order's id is fresh, so `getByOrderId` on it returns exactly the
   * line items just inserted.
   */
  lemma {:induction false} NewOrderLines(details: seq<OrderDetail>, entries: seq<CartEntry>, orderId: Id)
    requires DetailsValid(details, orderId)
    ensures DetailsByOrderId(details + OrderLines(entries, orderId), orderId) == OrderLines(entries, orderId)
  {
    var p := (d: OrderDetail) => d.orderId == orderId;
    var lines := OrderLines(entries, orderId);
    FilterAppend(p, details, lines);
    forall x | x in details ensures !p(x) {
      var i :| 0 <= i < |details| && details[i] == x;
    }
    FilterNone(p, details);
    forall x | x in lines ensures p(x) {
      var i :| 0 <= i < |lines| && lines[i] == x;
    }
    FilterAll(p, lines);
  }

  /** Line items copied from well-formed cart rows under a fresh order id keep the line-item table well formed. */
  lemma NewLinesValid(details: seq<OrderDetail>, entries: seq<CartEntry>, nextCartId: Id, orderId: Id)
    requires DetailsValid(details, orderId) && CartValid(entries, nextCartId)
    ensures DetailsValid(details + OrderLines(entries, orderId), orderId + 1)
  {
    var all := details + OrderLines(entries, orderId);
    forall i | 0 <= i < |all| ensures all[i].orderId < orderId + 1 && all[i].number >= 1 {
      if i >= |details| {
        assert all[i] == LineOf(entries[i - |details|], orderId);
      }
    }
  }

  /** The loop of `submitOrder` that turns the user's cart rows into line items, one per row, in order. */
  method CopyLines(shoppingCartList: seq<CartEntry>, orderId: Id) returns (orderDetailList: seq<OrderDetail>)
    ensures orderDetailList == OrderLines(shoppingCartList, orderId)
  {
    orderDetailList := [];
    for i := 0 to |shoppingCartList|
      invariant |orderDetailList| == i
      invariant forall j :: 0 <= j < i ==> orderDetailList[j] == LineOf(shoppingCartList[j], orderId)
    {
      orderDetailList := orderDetailList + [LineOf(shoppingCartList[i], orderId)];
    }
  }

  /**
   * Reordering an order right after it was submitted puts back the very cart
   * rows it was made from (same items, names, prices and quantities), only
   * with fresh ids and creation time.
   */
  lemma ReorderRestoresCart(details: seq<OrderDetail>, entries: seq<CartEntry>, orderId: Id, userId: Id,
                            firstId: Id, now: Time)
    requires DetailsValid(details, orderId)
    requires forall j :: 0 <= j < |entries| ==> entries[j].userId == userId
    ensures Reordered(DetailsByOrderId(details + OrderLines(entries, orderId), orderId), userId, firstId, now)
      == seq(|entries|, j requires 0 <= j < |entries| => entries[j].(id := firstId + j, createTime := now))
  {
    NewOrderLines(details, entries, orderId);
  }

  /**
   * The confirm and the complete apply no status guard: a refunded,
   * cancelled order can be confirmed or completed again, which leaves a
   * refunded order that is not cancelled.
   */
  lemma UnguardedMovesReopenRefunded(o: Order, id: Id)
    requires o.status == CANCELLED && o.payStatus == REFUND
    ensures RefundsSettled(map[id := o])
    ensures !RefundsSettled(UpdateOrder(map[id := o], id, NoChange.(status := Some(CONFIRMED))))
    ensures !RefundsSettled(UpdateOrder(map[id := o], id, NoChange.(status := Some(COMPLETED))))
    ensures !Advances(CANCELLED, CONFIRMED) && !Advances(CANCELLED, COMPLETED)
  {
    var m := map[id := o];
    assert UpdateOrder(m, id, NoChange.(status := Some(CONFIRMED)))[id].payStatus == REFUND;
    assert UpdateOrder(m, id, NoChange.(status := Some(COMPLETED)))[id].payStatus == REFUND;
  }

  /**
   * The admin cancel applies no status guard either: its patch cancels an
   * order that is out for delivery or already completed, a move the
   * lifecycle does not allow.
   */
  lemma AdminCancelSkipsLifecycle(o: Order, id: Id, p: OrderPatch)
    requires o.status == DELIVERY_IN_PROGRESS || o.status == COMPLETED
    requires p.status == Some(CANCELLED)
    ensures UpdateOrder(map[id := o], id, p)[id].status == CANCELLED
    ensures !Advances(o.status, UpdateOrder(map[id := o], id, p)[id].status)
  {
  }

  // ------------------------------------------------------------- service

  /** `OrderServiceImpl` over the store; `userId` is the request's current user. */
  class OrderService {
    const db: Db

    constructor (db: Db)
      ensures this.db == db
    {
      this.db := db;
    }

    /**
     * `submitOrder`: check the address book entry and the cart, then insert
     * the order and one line item per cart row, and clear the user's cart.
     * `number` is the fresh order number, `now` the current time.
     */
    method SubmitOrder(userId: Id, dto: OrdersSubmitDto, number: string, now: Time) returns (r: Result<OrderSubmitVo>)
      requires db.Valid()
      modifies db`orders, db`nextOrderId, db`details, db`cart
      ensures db.Valid()
      ensures dto.addressBookId !in db.addressBooks ==> r == Err(AddressBookIsNull) && unchanged(db)
      ensures dto.addressBookId in db.addressBooks && OfUser(old(db.cart), userId) == [] ==>
        r == Err(ShoppingCartIsNull) && unchanged(db)
      ensures dto.addressBookId in db.addressBooks && OfUser(old(db.cart), userId) != [] ==>
        var id := old(db.nextOrderId);
        && r == Ok(OrderSubmitVo(id, number, dto.amount, now))
        && id !in old(db.orders)
        && db.orders == old(db.orders)[id := PlacedOrder(userId, dto, db.addressBooks[dto.addressBookId], number, now)]
        && db.nextOrderId == id + 1
        && db.details == old(db.details) + OrderLines(OfUser(old(db.cart), userId), id)
        && DetailsByOrderId(db.details, id) == OrderLines(OfUser(old(db.cart), userId), id)
        && db.cart == DeleteByUserId(old(db.cart), userId)
        && OfUser(db.cart, userId) == []
        && (forall v :: v != userId ==> OfUser(db.cart, v) == OfUser(old(db.cart), v))
    {
      var shoppingCartList := OfUser(db.cart, userId);
      if dto.addressBookId !in db.addressBooks {
        return Err(AddressBookIsNull);
      }
      var addressBook := db.addressBooks[dto.addressBookId];
      if shoppingCartList == [] {
        return Err(ShoppingCartIsNull);
      }

      var id := db.nextOrderId;
      var orders := PlacedOrder(userId, dto, addressBook, number, now);
      db.orders := db.orders[id := orders];
      db.nextOrderId := db.nextOrderId + 1;

      var orderDetailList := CopyLines(shoppingCartList, id);
      Cart.FilterKeepsCartValid((e: CartEntry) => Matches(e, UserQuery(userId)), db.cart, db.nextCartId);
      NewLinesValid(db.details, shoppingCartList, db.nextCartId, id);
      NewOrderLines(db.details, shoppingCartList, id);
      db.details := db.details + orderDetailList;

      Cart.ClearEmptiesOnlyUser(db.cart, userId);
      Cart.FilterKeepsCartValid((e: CartEntry) => e.userId != userId, db.cart, db.nextCartId);
      db.cart := DeleteByUserId(db.cart, userId);

      r := Ok(OrderSubmitVo(id, orders.number, orders.amount, orders.orderTime));
    }

    /**
     * `cancel` by the customer: only before the order is accepted; an order
     * that was waiting for acceptance has been paid and is refunded.
     */
    method Cancel(id: Id, now: Time) returns (r: Outcome)
      requires db.Valid()
      modifies db`orders, db`refunds
      ensures db.Valid()
      ensures id !in old(db.orders) ==> r == Fail(OrderNotFound) && unchanged(db)
      ensures id in old(db.orders) && old(db.orders[id].status) > TO_BE_CONFIRMED ==>
        r == Fail(OrderStatusError) && unchanged(db)
      ensures id in old(db.orders) && old(db.orders[id].status) <= TO_BE_CONFIRMED ==>
        var o := old(db.orders[id]);
        && r == Pass
        && id in db.orders && db.orders == old(db.orders)[id := db.orders[id]]
        && var o2 := db.orders[id];
        && o2.status == CANCELLED && Advances(o.status, o2.status)
        && o2.payStatus == (if o.status == TO_BE_CONFIRMED then REFUND else o.payStatus)
        && o2.cancelReason == Some(USER_CANCEL_REASON) && o2.cancelTime == Some(now)
        && o2.rejectionReason == o.rejectionReason && KeepsSnapshot(o, o2)
        && db.refunds == old(db.refunds) + (if o.status == TO_BE_CONFIRMED then [id] else [])
      ensures RefundsSettled(old(db.orders)) ==> RefundsSettled(db.orders)
    {
      if id !in db.orders {
        return Fail(OrderNotFound);
      }
      var orders := db.orders[id];
      if orders.status > 2 {
        return Fail(OrderStatusError);
      }
      var orders1 := NoChange;
      if orders.status == TO_BE_CONFIRMED {
        db.refunds := db.refunds + [id];
        orders1 := orders1.(payStatus := Some(REFUND));
      }
      orders1 := orders1.(status := Some(CANCELLED), cancelReason := Some(USER_CANCEL_REASON), cancelTime := Some(now));
      db.orders := UpdateOrder(db.orders, id, orders1);
      r := Pass;
    }

    /**
     * `repetition`: copy every line item of the order back into the current
     * user's cart as a new row with a fresh id, created now. The order itself
     * is not looked at, and no row is merged with an existing one.
     */
    method Repetition(userId: Id, id: Id, now: Time)
      requires db.Valid()
      modifies db`cart, db`nextCartId
      ensures db.Valid()
      ensures var ds := DetailsByOrderId(db.details, id);
        && db.cart == old(db.cart) + Reordered(ds, userId, old(db.nextCartId), now)
        && db.nextCartId == old(db.nextCartId) + |ds|
    {
      var orderDetailList := DetailsByOrderId(db.details, id);
      var first := db.nextCartId;
      var shoppingCartList: seq<CartEntry> := [];
      for i := 0 to |orderDetailList|
        invariant |shoppingCartList| == i
        invariant forall j :: 0 <= j < i ==> shoppingCartList[j] == ReorderedEntry(orderDetailList[j], userId, first + j, now)
      {
        shoppingCartList := shoppingCartList + [ReorderedEntry(orderDetailList[i], userId, first + i, now)];
      }
      assert shoppingCartList == Reordered(orderDetailList, userId, first, now);
      assert forall j :: 0 <= j < |orderDetailList| ==> orderDetailList[j] in db.details;
      db.cart := db.cart + shoppingCartList;
      db.nextCartId := db.nextCartId + |shoppingCartList|;
    }

    /** `statistics`: how many orders wait for acceptance, are accepted, and are out for delivery. */
    function Statistics(): (r: OrderStatistics)
      reads db
      ensures r.toBeConfirmed + r.confirmed + r.deliveryInProgress <= |db.orders|
    {
      StatisticsWithinOrders(db.orders);
      OrderStatistics(CountStatus(db.orders, TO_BE_CONFIRMED), CountStatus(db.orders, CONFIRMED),
                      CountStatus(db.orders, DELIVERY_IN_PROGRESS))
    }

    /** `confirm`: mark the order accepted, whatever its status; a missing id changes nothing. */
    method Confirm(id: Id)
      requires db.Valid()
      modifies db`orders
      ensures db.Valid()
      ensures id !in old(db.orders) ==> db.orders == old(db.orders)
      ensures id in old(db.orders) ==> db.orders == old(db.orders)[id := old(db.orders[id]).(status := CONFIRMED)]
    {
      db.orders := UpdateOrder(db.orders, id, NoChange.(status := Some(CONFIRMED)));
    }

    /**
     * `rejection`: only an order waiting for acceptance can be rejected; a
     * paid one is refunded. A null reason leaves the column as it was.
     */
    method Rejection(id: Id, rejectionReason: Option<string>, now: Time) returns (r: Outcome)
      requires db.Valid()
      modifies db`orders, db`refunds
      ensures db.Valid()
      ensures (id !in old(db.orders) || old(db.orders[id].status) != TO_BE_CONFIRMED) ==>
        r == Fail(OrderStatusError) && unchanged(db)
      ensures id in old(db.orders) && old(db.orders[id].status) == TO_BE_CONFIRMED ==>
        var o := old(db.orders[id]);
        && r == Pass
        && id in db.orders && db.orders == old(db.orders)[id := db.orders[id]]
        && var o2 := db.orders[id];
        && o2.status == CANCELLED && Advances(o.status, o2.status)
        && o2.payStatus == (if o.payStatus == PAID then REFUND else o.payStatus)
        && o2.rejectionReason == (if rejectionReason.Some? then rejectionReason else o.rejectionReason)
        && o2.cancelTime == Some(now)
        && o2.cancelReason == o.cancelReason && KeepsSnapshot(o, o2)
        && db.refunds == old(db.refunds) + (if o.payStatus == PAID then [id] else [])
      ensures RefundsSettled(old(db.orders)) ==> RefundsSettled(db.orders)
    {
      var orders := NoChange;
      if id !in db.orders || db.orders[id].status != TO_BE_CONFIRMED {
        return Fail(OrderStatusError);
      }
      var ordersDB := db.orders[id];
      if ordersDB.payStatus == PAID {
        db.refunds := db.refunds + [id];
        orders := orders.(payStatus := Some(REFUND));
      }
      orders := orders.(status := Some(CANCELLED), rejectionReason := rejectionReason, cancelTime := Some(now));
      db.orders := UpdateOrder(db.orders, id, orders);
      r := Pass;
    }

    /**
     * `cancelByAdmin`: cancel any existing order, whatever its status; a paid
     * one is refunded. A null reason leaves the column as it was.
     */
    method CancelByAdmin(id: Id, cancelReason: Option<string>, now: Time) returns (r: Outcome)
      requires db.Valid()
      modifies db`orders, db`refunds
      ensures db.Valid()
      ensures id !in old(db.orders) ==> r == Fail(OrderNotFound) && unchanged(db)
      ensures id in old(db.orders) ==>
        var o := old(db.orders[id]);
        && r == Pass
        && id in db.orders && db.orders == old(db.orders)[id := db.orders[id]]
        && var o2 := db.orders[id];
        && o2.status == CANCELLED
        && o2.payStatus == (if o.payStatus == PAID then REFUND else o.payStatus)
        && o2.cancelReason == (if cancelReason.Some? then cancelReason else o.cancelReason)
        && o2.cancelTime == Some(now)
        && o2.rejectionReason == o.rejectionReason && KeepsSnapshot(o, o2)
        && db.refunds == old(db.refunds) + (if o.payStatus == PAID then [id] else [])
      ensures RefundsSettled(old(db.orders)) ==> RefundsSettled(db.orders)
    {
      var orders := NoChange.(status := Some(CANCELLED), cancelReason := cancelReason, cancelTime := Some(now));
      if id !in db.orders {
        return Fail(OrderNotFound);
      }
      var ordersDB := db.orders[id];
      if ordersDB.payStatus == PAID {
        db.refunds := db.refunds + [id];
        orders := orders.(payStatus := Some(REFUND));
      }
      db.orders := UpdateOrder(db.orders, id, orders);
      r := Pass;
    }

    /**
     * `delivery`: dispatch an accepted order; any other status is left as it
     * is. The source reads the order's status without a null check, so a
     * missing id throws.
     */
    method Delivery(id: Id) returns (r: Outcome)
      requires db.Valid()
      modifies db`orders
      ensures db.Valid()
      ensures id !in old(db.orders) ==> r == Fail(NullReference) && unchanged(db)
      ensures id in old(db.orders) && old(db.orders[id].status) != CONFIRMED ==> r == Pass && unchanged(db)
      ensures id in old(db.orders) && old(db.orders[id].status) == CONFIRMED ==>
        && r == Pass
        && db.orders == old(db.orders)[id := old(db.orders[id]).(status := DELIVERY_IN_PROGRESS)]
        && Advances(CONFIRMED, DELIVERY_IN_PROGRESS)
        && Statistics().toBeConfirmed == old(Statistics()).toBeConfirmed
        && Statistics().confirmed + 1 == old(Statistics()).confirmed
        && Statistics().deliveryInProgress == old(Statistics()).deliveryInProgress + 1
      ensures RefundsSettled(old(db.orders)) ==> RefundsSettled(db.orders)
    {
      if id !in db.orders {
        return Fail(NullReference);
      }
      var ordersDB := db.orders[id];
      if ordersDB.status == CONFIRMED {
        var orders := NoChange.(status := Some(DELIVERY_IN_PROGRESS));
        var o2 := Patched(ordersDB, orders);
        CountAfterUpdate(db.orders, id, o2, TO_BE_CONFIRMED);
        CountAfterUpdate(db.orders, id, o2, CONFIRMED);
        CountAfterUpdate(db.orders, id, o2, DELIVERY_IN_PROGRESS);
        db.orders := UpdateOrder(db.orders, id, orders);
      }
      r := Pass;
    }

    /** `complete`: mark the order completed, whatever its status; a missing id changes nothing. */
    method Complete(id: Id)
      requires db.Valid()
      modifies db`orders
      ensures db.Valid()
      ensures id !in old(db.orders) ==> db.orders == old(db.orders)
      ensures id in old(db.orders) ==> db.orders == old(db.orders)[id := old(db.orders[id]).(status := COMPLETED)]
    {
      db.orders := UpdateOrder(db.orders, id, NoChange.(status := Some(COMPLETED)));
    }

    /**
     * `getOrderDishesById`: the order's line items as `name*number;`, in
     * order; the text gives back every item's name and quantity.
     */
    function GetOrderDishesById(orderId: Id): (r: string)
      reads db
      ensures var ds := DetailsByOrderId(db.details, orderId);
        (forall i :: 0 <= i < |ds| ==> DishSummary.PlainName(ds[i].name)) ==>
          DishSummary.ParseOrderDishes(r) == seq(|ds|, i requires 0 <= i < |ds| => (ds[i].name, ds[i].number))
    {
      var ds := DetailsByOrderId(db.details, orderId);
      if forall i :: 0 <= i < |ds| ==> DishSummary.PlainName(ds[i].name) then
        DishSummary.OrderDishesRoundTrip(ds);
        DishSummary.OrderDishes(ds)
      else
        DishSummary.OrderDishes(ds)
    }
  }
}
