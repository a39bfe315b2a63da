/**
 * Entities, status constants and business errors of the take-out backend.
 * Each row type is a value; the tables that hold them live in Store.Db.
 */
module Domain {

  /** Database primary keys (auto-increment `Long` columns). */
  type Id = int

  /** An opaque timestamp standing for `LocalDateTime.now()`. */
  type Time = int

  /** A column that may be SQL NULL / a Java field that may be null. */
  datatype Option<T> = None | Some(value: T)

  /** The business exceptions a service method may throw. */
  datatype Error =
    | AddressBookIsNull        // AddressBookBusinessException(ADDRESS_BOOK_IS_NULL)
    | ShoppingCartIsNull       // ShoppingCartBusinessException(SHOPPING_CART_IS_NULL)
    | OrderNotFound            // OrderBusinessException(ORDER_NOT_FOUND)
    | OrderStatusError         // OrderBusinessException(ORDER_STATUS_ERROR)
    | SetmealOnSale            // DeletionNotAllowedException(SETMEAL_ON_SALE)
    | DishOnSale               // DeletionNotAllowedException(DISH_ON_SALE)
    | DishBeRelatedBySetmeal   // DeletionNotAllowedException(DISH_BE_RELATED_BY_SETMEAL)
    | SetmealEnableFailed      // SetmealEnableFailedException(SETMEAL_ENABLE_FAILED)
    | NullReference            // a NullPointerException on a row or list the code does not check

  /** Outcome of a service method that returns nothing but may throw. */
  datatype Outcome = Pass | Fail(error: Error)

  /** Outcome of a service method that returns a value or throws. */
  datatype Result<T> = Ok(value: T) | Err(error: Error)

  /** A list argument that may be null, read as empty where the source tests for null first. */
  function OrEmpty<T>(o: Option<seq<T>>): (r: seq<T>)
    ensures o.None? ==> r == []
  {
    if o.Some? then o.value else []
  }

  // Order status (`Orders.status`): 1 pending payment, 2 to be confirmed,
  // 3 confirmed, 4 delivery in progress, 5 completed, 6 cancelled.
  const PENDING_PAYMENT: int := 1
  const TO_BE_CONFIRMED: int := 2
  const CONFIRMED: int := 3
  const DELIVERY_IN_PROGRESS: int := 4
  const COMPLETED: int := 5
  const CANCELLED: int := 6

  // Payment status (`Orders.payStatus`).
  const UN_PAID: int := 0
  const PAID: int := 1
  const REFUND: int := 2

  // Sale status of dishes and setmeals (`StatusConstant`).
  const ENABLE: int := 1
  const DISABLE: int := 0

  /** The cancel reason a customer's own cancellation records ("cancelled by user"). */
  const USER_CANCEL_REASON: string := "用户取消"

  /** A row of the `orders` table (its key is the map key in Store.Db.orders). */
  datatype Order = Order(
    userId: Id,
    number: string,
    status: int,
    payStatus: int,
    amount: int,
    addressBookId: Id,
    remark: string,
    address: string,
    consignee: string,
    phone: string,
    orderTime: Time,
    cancelReason: Option<string>,
    rejectionReason: Option<string>,
    cancelTime: Option<Time>)

  /** A row of the `order_detail` table: one line item of an order. */
  datatype OrderDetail = OrderDetail(
    orderId: Id,
    name: string,
    image: string,
    dishId: Option<Id>,
    setmealId: Option<Id>,
    dishFlavor: Option<string>,
    number: int,
    amount: int)

  /** A row of the `shopping_cart` table. */
  datatype CartEntry = CartEntry(
    id: Id,
    userId: Id,
    name: string,
    image: string,
    dishId: Option<Id>,
    setmealId: Option<Id>,
    dishFlavor: Option<string>,
    number: int,
    amount: int,
    createTime: Time)

  /**
   * What a customer asks to add or remove (`ShoppingCartDTO`), together with
   * the current user: the example object handed to `shoppingCartMapper.list`.
   */
  datatype CartQuery = CartQuery(
    userId: Id,
    dishId: Option<Id>,
    setmealId: Option<Id>,
    dishFlavor: Option<string>)

  /**
   * A row of the `address_book` table, read-only here. `text` stands for the
   * entity's rendered `toString()`, which is what an order stores as its address.
   */
  datatype AddressBook = AddressBook(userId: Id, consignee: string, phone: string, text: string)

  /** A row of the `dish` table. */
  datatype Dish = Dish(
    name: string,
    categoryId: Id,
    price: int,
    image: string,
    description: string,
    status: int)

  /** A row of the `dish_flavor` table. */
  datatype DishFlavor = DishFlavor(dishId: Id, name: string, value: string)

  /** A row of the `setmeal` table. */
  datatype Setmeal = Setmeal(
    categoryId: Id,
    name: string,
    price: int,
    status: int,
    description: string,
    image: string)

  /** A row of the `setmeal_dish` table: one dish linked into a setmeal. */
  datatype SetmealDish = SetmealDish(setmealId: Id, dishId: Id, name: string, price: int, copies: int)
}
