/**
 * The shopping cart (`ShoppingCartServiceImpl`): adding an item merges it
 * into the first matching row or inserts a new row with one unit; removing
 * decrements or deletes the first matching row; clearing and listing work on
 * the current user's rows only.
 *
 * The pure functions AddToCart and SubFromCart give the new cart table in
 * terms of row positions; the service methods below perform the source's
 * steps with the id-based mapper calls and are proved to produce exactly
 * those tables.
 */
module Cart {
  import opened Domain
  import opened Seqs
  import opened Store

  /** `ShoppingCartDTO`: the item a customer adds or removes. */
  datatype ShoppingCartDto = ShoppingCartDto(dishId: Option<Id>, setmealId: Option<Id>, dishFlavor: Option<string>)

  /** The example row the service builds from the DTO and the current user before querying. */
  function Probe(userId: Id, dto: ShoppingCartDto): CartQuery
  {
    CartQuery(userId, dto.dishId, dto.setmealId, dto.dishFlavor)
  }

  /** Name, image and price a new cart row copies from the dish or setmeal. */
  datatype Priced = Priced(name: string, image: string, amount: int)

  /** Position of the row that `list.get(0)` picks, if the query matches any. */
  function FirstMatch(cart: seq<CartEntry>, q: CartQuery): (k: Option<nat>)
    ensures k.Some? ==> k.value < |cart| && Matches(cart[k.value], q)
    ensures k.Some? ==> forall j :: 0 <= j < k.value ==> !Matches(cart[j], q)
    ensures k.None? ==> forall j :: 0 <= j < |cart| ==> !Matches(cart[j], q)
  {
    if cart == [] then None
    else if Matches(cart[0], q) then Some(0)
    else match FirstMatch(cart[1..], q)
      case None => None
      case Some(k) => Some(k + 1)
  }

  /**
   * The catalogue row a new cart row is priced from: the dish when the DTO
   * names one, otherwise the setmeal. None where the source dereferences a
   * null row (an unknown id, or neither id given).
   */
  function Source(q: CartQuery, dishes: map<Id, Dish>, setmeals: map<Id, Setmeal>): (r: Option<Priced>)
    ensures r.Some? <==> if q.dishId.Some? then q.dishId.value in dishes else q.setmealId.Some? && q.setmealId.value in setmeals
    ensures r.Some? && q.dishId.Some? ==>
      var d := dishes[q.dishId.value]; r.value == Priced(d.name, d.image, d.price)
    ensures r.Some? && q.dishId.None? ==>
      var s := setmeals[q.setmealId.value]; r.value == Priced(s.name, s.image, s.price)
  {
    if q.dishId.Some? then
      if q.dishId.value in dishes then
        var d := dishes[q.dishId.value]; Some(Priced(d.name, d.image, d.price))
      else None
    else if q.setmealId.Some? && q.setmealId.value in setmeals then
      var s := setmeals[q.setmealId.value]; Some(Priced(s.name, s.image, s.price))
    else None
  }

  /** The row inserted for an item not yet in the cart: one unit, created now. */
  function NewEntry(id: Id, q: CartQuery, src: Priced, now: Time): CartEntry
  {
    CartEntry(id, q.userId, src.name, src.image, q.dishId, q.setmealId, q.dishFlavor, 1, src.amount, now)
  }

  /** The cart table after `addShoppingCart`, or the error it throws. */
  function AddToCart(cart: seq<CartEntry>, nextId: Id, dishes: map<Id, Dish>, setmeals: map<Id, Setmeal>,
                     q: CartQuery, now: Time): (r: Result<seq<CartEntry>>)
    ensures r.Err? <==> FirstMatch(cart, q).None? && Source(q, dishes, setmeals).None?
    ensures r.Err? ==> r.error == NullReference
    ensures r.Ok? && FirstMatch(cart, q).Some? ==>
      var k := FirstMatch(cart, q).value;
      && |r.value| == |cart| && r.value[k] == cart[k].(number := cart[k].number + 1)
      && forall j :: 0 <= j < |cart| && j != k ==> r.value[j] == cart[j]
    ensures r.Ok? && FirstMatch(cart, q).None? ==>
      && |r.value| == |cart| + 1 && r.value[..|cart|] == cart
      && r.value[|cart|] == NewEntry(nextId, q, Source(q, dishes, setmeals).value, now)
      && r.value[|cart|].id == nextId && r.value[|cart|].number == 1 && Matches(r.value[|cart|], q)
  {
    match FirstMatch(cart, q)
    case Some(k) => Ok(cart[k := cart[k].(number := cart[k].number + 1)])
    case None =>
      match Source(q, dishes, setmeals)
      case None => Err(NullReference)
      case Some(src) => Ok(cart + [NewEntry(nextId, q, src, now)])
  }

  /** The cart table after `subShoppingCart` (which never throws). */
  function SubFromCart(cart: seq<CartEntry>, q: CartQuery): (r: seq<CartEntry>)
    ensures FirstMatch(cart, q).None? ==> r == cart
    ensures FirstMatch(cart, q).Some? && cart[FirstMatch(cart, q).value].number == 1 ==>
      var k := FirstMatch(cart, q).value;
      && |r| == |cart| - 1
      && (forall j :: 0 <= j < k ==> r[j] == cart[j])
      && (forall j :: k <= j < |r| ==> r[j] == cart[j + 1])
    ensures FirstMatch(cart, q).Some? && cart[FirstMatch(cart, q).value].number != 1 ==>
      var k := FirstMatch(cart, q).value;
      && |r| == |cart| && r[k] == cart[k].(number := cart[k].number - 1)
      && forall j :: 0 <= j < |cart| && j != k ==> r[j] == cart[j]
    ensures forall x :: x in r ==> x in cart || Matches(x, q)
  {
    match FirstMatch(cart, q)
    case None => cart
    case Some(k) =>
      if cart[k].number == 1 then cart[..k] + cart[k + 1..]
      else cart[k := cart[k].(number := cart[k].number - 1)]
  }

  /** Units held by some rows: the sum of their `number`s. */
  function Units(es: seq<CartEntry>): int
  {
    if es == [] then 0 else es[0].number + Units(es[1..])
  }

  // ------------------------------------------------------ mapper lemmas

  /** The row `list.get(0)` returns is the row at FirstMatch; the list is empty exactly when nothing matches. */
  lemma {:induction false} FirstMatchIsListHead(cart: seq<CartEntry>, q: CartQuery)
    ensures ListCart(cart, q) == [] <==> FirstMatch(cart, q).None?
    ensures FirstMatch(cart, q).Some? ==> ListCart(cart, q)[0] == cart[FirstMatch(cart, q).value]
  {
    if cart != [] {
      FirstMatchIsListHead(cart[1..], q);
    }
  }

  /** With distinct ids, `updateNumberById` on a row's id rewrites that row only. */
  lemma UpdateNumberByIdAt(cart: seq<CartEntry>, k: nat, number: int)
    requires k < |cart| && DistinctIds(cart)
    ensures UpdateNumberById(cart, cart[k].id, number) == cart[k := cart[k].(number := number)]
  {
  }

  /** With distinct ids, `deleteById` on a row's id removes that row only. */
  lemma {:induction false} DeleteByIdAt(cart: seq<CartEntry>, k: nat)
    requires k < |cart| && DistinctIds(cart)
    ensures DeleteById(cart, cart[k].id) == cart[..k] + cart[k + 1..]
  {
    var id := cart[k].id;
    var rest := cart[1..];
    assert DeleteById(cart, id) == (if cart[0].id != id then [cart[0]] else []) + DeleteById(rest, id);
    if k == 0 {
      assert forall i :: 0 <= i < |rest| ==> rest[i] == cart[i + 1];
      FilterAll((e: CartEntry) => e.id != id, rest);
      assert cart[k + 1..] == rest;
    } else {
      assert DistinctIds(rest) by {
        assert forall i :: 0 <= i < |rest| ==> rest[i] == cart[i + 1];
      }
      assert rest[k - 1] == cart[k];
      DeleteByIdAt(rest, k - 1);
      assert cart[..k] + cart[k + 1..] == [cart[0]] + (rest[..k - 1] + rest[k..]);
    }
  }

  /** The rows after the first of a well-formed table form a well-formed table without the first row's id. */
  lemma TailCartValid(cart: seq<CartEntry>, nextId: Id)
    requires cart != [] && CartValid(cart, nextId)
    ensures CartValid(cart[1..], nextId)
    ensures forall x :: x in cart[1..] ==> x.id != cart[0].id
  {
    var rest := cart[1..];
    assert forall i :: 0 <= i < |rest| ==> rest[i] == cart[i + 1];
    forall x | x in rest ensures x.id != cart[0].id {
      var i :| 0 <= i < |rest| && rest[i] == x;
      assert x == cart[i + 1];
    }
  }

  /** A row with a fresh id put in front of a well-formed table gives a well-formed table. */
  lemma ConsCartValid(x: CartEntry, tail: seq<CartEntry>, nextId: Id)
    requires CartValid(tail, nextId) && x.id < nextId && x.number >= 1
    requires forall y :: y in tail ==> y.id != x.id
    ensures CartValid([x] + tail, nextId)
  {
    var r := [x] + tail;
    forall i | 0 < i < |r| ensures r[i] == tail[i - 1] {
    }
    forall i, j | 0 <= i < j < |r| ensures r[i].id != r[j].id {
      assert tail[j - 1] in tail;
    }
  }

  /** Selecting rows keeps ids distinct, below the bound, and every row non-empty. */
  lemma {:induction false} FilterKeepsCartValid(p: CartEntry -> bool, cart: seq<CartEntry>, nextId: Id)
    requires CartValid(cart, nextId)
    ensures CartValid(Filter(p, cart), nextId)
  {
    if cart != [] {
      TailCartValid(cart, nextId);
      FilterKeepsCartValid(p, cart[1..], nextId);
      if p(cart[0]) {
        ConsCartValid(cart[0], Filter(p, cart[1..]), nextId);
      }
    }
  }

  lemma {:induction false} UnitsAppend(a: seq<CartEntry>, b: seq<CartEntry>)
    ensures Units(a + b) == Units(a) + Units(b)
  {
    if a == [] {
      assert a + b == b;
    } else {
      assert (a + b)[1..] == a[1..] + b;
      UnitsAppend(a[1..], b);
    }
  }

  /** A user's rows of two tables laid end to end. */
  lemma OfUserConcat(a: seq<CartEntry>, b: seq<CartEntry>, u: Id)
    ensures OfUser(a + b, u) == OfUser(a, u) + OfUser(b, u)
  {
    FilterAppend((e: CartEntry) => Matches(e, UserQuery(u)), a, b);
  }

  lemma OfUserSingle(x: CartEntry, u: Id)
    ensures OfUser([x], u) == if x.userId == u then [x] else []
  {
    assert [x][1..] == [];
  }

  /** A user's rows of a table, split around one row. */
  lemma OfUserAround(pre: seq<CartEntry>, x: CartEntry, post: seq<CartEntry>, u: Id)
    ensures OfUser(pre + [x] + post, u) == OfUser(pre, u) + OfUser([x], u) + OfUser(post, u)
    ensures OfUser([x], u) == if x.userId == u then [x] else []
  {
    OfUserConcat(pre + [x], post, u);
    OfUserConcat(pre, [x], u);
    OfUserSingle(x, u);
  }

  lemma Units3(a: seq<CartEntry>, b: seq<CartEntry>, c: seq<CartEntry>)
    ensures Units(a + b + c) == Units(a) + Units(b) + Units(c)
  {
    UnitsAppend(a + b, c);
    UnitsAppend(a, b);
  }

  /** A user's rows and units after one row is rewritten, the owner unchanged. */
  lemma OfUserReplace(cart: seq<CartEntry>, k: nat, e: CartEntry, u: Id)
    requires k < |cart| && e.userId == cart[k].userId
    ensures u != e.userId ==> OfUser(cart[k := e], u) == OfUser(cart, u)
    ensures u == e.userId ==> Units(OfUser(cart[k := e], u)) == Units(OfUser(cart, u)) - cart[k].number + e.number
  {
    var pre, post := cart[..k], cart[k + 1..];
    assert cart == pre + [cart[k]] + post;
    assert cart[k := e] == pre + [e] + post;
    OfUserAround(pre, cart[k], post, u);
    OfUserAround(pre, e, post, u);
    if u == e.userId {
      Units3(OfUser(pre, u), [cart[k]], OfUser(post, u));
      Units3(OfUser(pre, u), [e], OfUser(post, u));
    }
  }

  /** A user's rows and units after one row is removed. */
  lemma OfUserRemove(cart: seq<CartEntry>, k: nat, u: Id)
    requires k < |cart|
    ensures u != cart[k].userId ==> OfUser(cart[..k] + cart[k + 1..], u) == OfUser(cart, u)
    ensures u == cart[k].userId ==> Units(OfUser(cart[..k] + cart[k + 1..], u)) == Units(OfUser(cart, u)) - cart[k].number
  {
    var pre, x, post := cart[..k], cart[k], cart[k + 1..];
    assert cart == pre + [x] + post;
    OfUserAround(pre, x, post, u);
    OfUserConcat(pre, post, u);
    var a, b, c := OfUser(pre, u), OfUser([x], u), OfUser(post, u);
    if u == x.userId {
      Units3(a, b, c);
      UnitsAppend(a, c);
    } else {
      assert a + b + c == a + c;
    }
  }

  /** A user's rows and units after a row is appended. */
  lemma OfUserAppend(cart: seq<CartEntry>, e: CartEntry, u: Id)
    ensures u != e.userId ==> OfUser(cart + [e], u) == OfUser(cart, u)
    ensures u == e.userId ==> Units(OfUser(cart + [e], u)) == Units(OfUser(cart, u)) + e.number
  {
    OfUserConcat(cart, [e], u);
    OfUserSingle(e, u);
    UnitsAppend(OfUser(cart, u), OfUser([e], u));
  }

  // --------------------------------------------------- properties of add

  /**
   * A successful add puts exactly one more unit into the user's cart and
   * leaves every other user's rows as they were.
   */
  lemma AddCountsOneUnit(cart: seq<CartEntry>, nextId: Id, dishes: map<Id, Dish>, setmeals: map<Id, Setmeal>,
                         q: CartQuery, now: Time)
    ensures var r := AddToCart(cart, nextId, dishes, setmeals, q, now);
      r.Ok? ==> Units(OfUser(r.value, q.userId)) == Units(OfUser(cart, q.userId)) + 1
    ensures var r := AddToCart(cart, nextId, dishes, setmeals, q, now);
      r.Ok? ==> forall u :: u != q.userId ==> OfUser(r.value, u) == OfUser(cart, u)
  {
    match FirstMatch(cart, q)
    case Some(k) =>
      var e := cart[k].(number := cart[k].number + 1);
      forall u ensures u != q.userId ==> OfUser(cart[k := e], u) == OfUser(cart, u) {
        OfUserReplace(cart, k, e, u);
      }
      OfUserReplace(cart, k, e, q.userId);
    case None =>
      if Source(q, dishes, setmeals).Some? {
        var e := NewEntry(nextId, q, Source(q, dishes, setmeals).value, now);
        forall u ensures u != q.userId ==> OfUser(cart + [e], u) == OfUser(cart, u) {
          OfUserAppend(cart, e, u);
        }
        OfUserAppend(cart, e, q.userId);
      }
  }

  /** When the list is not empty, the add is `updateNumberById` on the list's head with one more unit. */
  lemma AddMergesIntoListHead(cart: seq<CartEntry>, nextId: Id, dishes: map<Id, Dish>, setmeals: map<Id, Setmeal>,
                              q: CartQuery, now: Time)
    requires DistinctIds(cart) && ListCart(cart, q) != []
    ensures var e := ListCart(cart, q)[0];
      AddToCart(cart, nextId, dishes, setmeals, q, now) == Ok(UpdateNumberById(cart, e.id, e.number + 1))
  {
    FirstMatchIsListHead(cart, q);
    var k := FirstMatch(cart, q).value;
    UpdateNumberByIdAt(cart, k, cart[k].number + 1);
  }

  /** When the list is empty and the item is priced by `src`, the add appends the row built from `src`. */
  lemma AddInsertsNewEntry(cart: seq<CartEntry>, nextId: Id, dishes: map<Id, Dish>, setmeals: map<Id, Setmeal>,
                           q: CartQuery, now: Time, src: Priced)
    requires ListCart(cart, q) == [] && Source(q, dishes, setmeals) == Some(src)
    ensures AddToCart(cart, nextId, dishes, setmeals, q, now) == Ok(cart + [NewEntry(nextId, q, src, now)])
  {
    FirstMatchIsListHead(cart, q);
  }

  /** Add fails only when nothing matches and the named dish or setmeal does not exist. */
  lemma AddFailsOnlyOnMissingSource(cart: seq<CartEntry>, nextId: Id, dishes: map<Id, Dish>, setmeals: map<Id, Setmeal>,
                                    q: CartQuery, now: Time)
    ensures var r := AddToCart(cart, nextId, dishes, setmeals, q, now);
      r.Err? <==> (forall j :: 0 <= j < |cart| ==> !Matches(cart[j], q)) && Source(q, dishes, setmeals).None?
    ensures AddToCart(cart, nextId, dishes, setmeals, q, now).Err? ==> AddToCart(cart, nextId, dishes, setmeals, q, now).error == NullReference
  {
    if FirstMatch(cart, q).Some? {
      var k := FirstMatch(cart, q).value;
      assert Matches(cart[k], q);
    }
  }

  /** A successful add keeps the table well formed; an insert uses up one id. */
  lemma AddKeepsCartValid(cart: seq<CartEntry>, nextId: Id, dishes: map<Id, Dish>, setmeals: map<Id, Setmeal>,
                          q: CartQuery, now: Time)
    requires CartValid(cart, nextId)
    ensures var r := AddToCart(cart, nextId, dishes, setmeals, q, now);
      r.Ok? ==> if FirstMatch(cart, q).Some? then CartValid(r.value, nextId) else CartValid(r.value, nextId + 1)
  {
  }

  /**
   * Adding an item that is not in the cart twice gives one row with two
   * units, not two rows.
   */
  lemma AddTwiceMerges(cart: seq<CartEntry>, nextId: Id, dishes: map<Id, Dish>, setmeals: map<Id, Setmeal>,
                       q: CartQuery, now: Time, later: Time)
    requires FirstMatch(cart, q).None? && Source(q, dishes, setmeals).Some?
    ensures var once := AddToCart(cart, nextId, dishes, setmeals, q, now);
      once.Ok? && AddToCart(once.value, nextId + 1, dishes, setmeals, q, later)
        == Ok(cart + [NewEntry(nextId, q, Source(q, dishes, setmeals).value, now).(number := 2)])
    ensures var once := AddToCart(cart, nextId, dishes, setmeals, q, now);
      once.Ok? && |ListCart(AddToCart(once.value, nextId + 1, dishes, setmeals, q, later).value, q)| == 1
  {
    var e := NewEntry(nextId, q, Source(q, dishes, setmeals).value, now);
    var c1 := cart + [e];
    assert FirstMatch(c1, q) == Some(|cart|) by {
      assert forall j :: 0 <= j < |cart| ==> c1[j] == cart[j];
      FirstMatchAt(c1, q, |cart|);
    }
    var e2 := NewEntry(nextId, q, Source(q, dishes, setmeals).value, now).(number := 2);
    assert c1[|cart|].(number := c1[|cart|].number + 1) == e2;
    assert c1[|cart| := e2] == cart + [e2];
    assert ListCart(cart + [e2], q) == [e2] by {
      var p := (x: CartEntry) => Matches(x, q);
      FilterAppend(p, cart, [e2]);
      FilterNone(p, cart);
      assert [e2][1..] == [];
    }
  }

  /** Removing right after a successful add gives back the cart as it was. */
  lemma SubUndoesAdd(cart: seq<CartEntry>, nextId: Id, dishes: map<Id, Dish>, setmeals: map<Id, Setmeal>,
                     q: CartQuery, now: Time)
    requires CartValid(cart, nextId)
    ensures var r := AddToCart(cart, nextId, dishes, setmeals, q, now);
      r.Ok? ==> SubFromCart(r.value, q) == cart
  {
    match FirstMatch(cart, q)
    case Some(k) =>
      assert AddToCart(cart, nextId, dishes, setmeals, q, now) == Ok(cart[k := cart[k].(number := cart[k].number + 1)]);
      SubUndoesMerge(cart, k, q);
    case None =>
      if Source(q, dishes, setmeals).Some? {
        var e := NewEntry(nextId, q, Source(q, dishes, setmeals).value, now);
        assert AddToCart(cart, nextId, dishes, setmeals, q, now) == Ok(cart + [e]);
        SubUndoesAppend(cart, e, q);
      }
  }

  /** The first row matching a query is the one before which no row matches. */
  lemma {:induction false} FirstMatchAt(cart: seq<CartEntry>, q: CartQuery, k: nat)
    requires k < |cart| && Matches(cart[k], q)
    requires forall j :: 0 <= j < k ==> !Matches(cart[j], q)
    ensures FirstMatch(cart, q) == Some(k)
  {
    if k > 0 {
      FirstMatchAt(cart[1..], q, k - 1);
    }
  }

  /** Rewriting the first matching row with another matching row keeps it the first match. */
  lemma FirstMatchAfterWrite(cart: seq<CartEntry>, q: CartQuery, k: nat, x: CartEntry)
    requires FirstMatch(cart, q) == Some(k) && Matches(x, q)
    ensures FirstMatch(cart[k := x], q) == Some(k)
  {
    var c1 := cart[k := x];
    assert forall j :: 0 <= j < k ==> c1[j] == cart[j];
    FirstMatchAt(c1, q, k);
  }

  /** Removing from a row that holds more than one unit takes one unit off it in place. */
  lemma SubDecrements(cart: seq<CartEntry>, q: CartQuery, k: nat)
    requires FirstMatch(cart, q) == Some(k) && cart[k].number != 1
    ensures SubFromCart(cart, q) == cart[k := cart[k].(number := cart[k].number - 1)]
  {
  }

  lemma SubUndoesMerge(cart: seq<CartEntry>, k: nat, q: CartQuery)
    requires FirstMatch(cart, q) == Some(k) && cart[k].number >= 1
    ensures SubFromCart(cart[k := cart[k].(number := cart[k].number + 1)], q) == cart
  {
    var c1 := cart[k := cart[k].(number := cart[k].number + 1)];
    FirstMatchAfterWrite(cart, q, k, c1[k]);
    SubDecrements(c1, q, k);
    assert c1[k].(number := c1[k].number - 1) == cart[k];
    assert c1[k := cart[k]] == cart;
  }

  lemma SubUndoesAppend(cart: seq<CartEntry>, e: CartEntry, q: CartQuery)
    requires FirstMatch(cart, q).None? && Matches(e, q) && e.number == 1
    ensures SubFromCart(cart + [e], q) == cart
  {
    var c1 := cart + [e];
    FirstMatchAt(c1, q, |cart|);
    assert c1[..|cart|] + c1[|cart| + 1..] == cart;
  }

  // --------------------------------------------------- properties of sub

  /**
   * Removing takes exactly one unit from the current user's cart when a row
   * matches and changes nothing otherwise; other users' rows are untouched.
   */
  lemma SubCountsOneUnit(cart: seq<CartEntry>, q: CartQuery)
    ensures FirstMatch(cart, q).None? ==> SubFromCart(cart, q) == cart
    ensures FirstMatch(cart, q).Some? ==> Units(OfUser(SubFromCart(cart, q), q.userId)) == Units(OfUser(cart, q.userId)) - 1
    ensures forall u :: u != q.userId ==> OfUser(SubFromCart(cart, q), u) == OfUser(cart, u)
  {
    match FirstMatch(cart, q)
    case None =>
    case Some(k) =>
      if cart[k].number == 1 {
        forall u ensures u != q.userId ==> OfUser(cart[..k] + cart[k + 1..], u) == OfUser(cart, u) {
          OfUserRemove(cart, k, u);
        }
        OfUserRemove(cart, k, q.userId);
      } else {
        var e := cart[k].(number := cart[k].number - 1);
        forall u ensures u != q.userId ==> OfUser(cart[k := e], u) == OfUser(cart, u) {
          OfUserReplace(cart, k, e, u);
        }
        OfUserReplace(cart, k, e, q.userId);
      }
  }

  /** Removing keeps every row at one unit or more, and ids distinct. */
  lemma SubKeepsCartValid(cart: seq<CartEntry>, nextId: Id, q: CartQuery)
    requires CartValid(cart, nextId)
    ensures CartValid(SubFromCart(cart, q), nextId)
  {
    match FirstMatch(cart, q)
    case None =>
    case Some(k) =>
      if cart[k].number == 1 {
        var r := cart[..k] + cart[k + 1..];
        forall i, j | 0 <= i < j < |r| ensures r[i].id != r[j].id {
          var i', j' := if i < k then i else i + 1, if j < k then j else j + 1;
          assert r[i] == cart[i'] && r[j] == cart[j'];
        }
      }
  }

  // ------------------------------------------------- properties of clear

  /** Clearing removes every row of the user and no row of anyone else. */
  lemma {:induction false} ClearEmptiesOnlyUser(cart: seq<CartEntry>, u: Id)
    ensures OfUser(DeleteByUserId(cart, u), u) == []
    ensures forall v :: v != u ==> OfUser(DeleteByUserId(cart, u), v) == OfUser(cart, v)
  {
    if cart != [] {
      ClearEmptiesOnlyUser(cart[1..], u);
      var p := (e: CartEntry) => e.userId != u;
      var head := if p(cart[0]) then [cart[0]] else [];
      assert DeleteByUserId(cart, u) == head + DeleteByUserId(cart[1..], u);
      forall v ensures OfUser(DeleteByUserId(cart, u), v) == OfUser(head, v) + OfUser(DeleteByUserId(cart[1..], u), v) {
        OfUserConcat(head, DeleteByUserId(cart[1..], u), v);
      }
    }
  }

  // ------------------------------------------------------------- service

  /** `ShoppingCartServiceImpl` over the store; `userId` is the request's current user. */
  class ShoppingCartService {
    const db: Db

    constructor (db: Db)
      ensures this.db == db
    {
      this.db := db;
    }

    /** `addShoppingCart`: merge into the first matching row, or insert a new one-unit row. */
    method AddShoppingCart(userId: Id, dto: ShoppingCartDto, now: Time) returns (r: Outcome)
      requires db.Valid()
      modifies db`cart, db`nextCartId
      ensures db.Valid()
      ensures var a := AddToCart(old(db.cart), old(db.nextCartId), db.dishes, db.setmeals, Probe(userId, dto), now);
        match a
        case Err(e) => r == Fail(e) && db.cart == old(db.cart) && db.nextCartId == old(db.nextCartId)
        case Ok(c) =>
          (r == Pass && db.cart == c
           && db.nextCartId == old(db.nextCartId) + (if |c| == |old(db.cart)| then 0 else 1))
    {
      var q := Probe(userId, dto);
      ghost var a := AddToCart(db.cart, db.nextCartId, db.dishes, db.setmeals, q, now);
      AddKeepsCartValid(db.cart, db.nextCartId, db.dishes, db.setmeals, q, now);
      var list := ListCart(db.cart, q);
      if list != [] {
        var cart := list[0];
        AddMergesIntoListHead(db.cart, db.nextCartId, db.dishes, db.setmeals, q, now);
        db.cart := UpdateNumberById(db.cart, cart.id, cart.number + 1);
        return Pass;
      }
      FirstMatchIsListHead(db.cart, q);
      var src: Priced;
      if dto.dishId.Some? {
        if dto.dishId.value !in db.dishes {
          return Fail(NullReference);
        }
        var dish := db.dishes[dto.dishId.value];
        src := Priced(dish.name, dish.image, dish.price);
      } else {
        if dto.setmealId.None? || dto.setmealId.value !in db.setmeals {
          return Fail(NullReference);
        }
        var setmeal := db.setmeals[dto.setmealId.value];
        src := Priced(setmeal.name, setmeal.image, setmeal.price);
      }
      var entry := CartEntry(db.nextCartId, userId, src.name, src.image, dto.dishId, dto.setmealId, dto.dishFlavor,
                             1, src.amount, now);
      AddInsertsNewEntry(db.cart, db.nextCartId, db.dishes, db.setmeals, q, now, src);
      db.cart := db.cart + [entry];
      db.nextCartId := db.nextCartId + 1;
      r := Pass;
    }

    /** `showShoppingCart`: exactly the current user's rows. */
    function ShowShoppingCart(userId: Id): (r: seq<CartEntry>)
      reads db
      ensures forall e :: e in r <==> e in db.cart && e.userId == userId
    {
      OfUser(db.cart, userId)
    }

    /** `cleanShoppingCart`: delete the current user's rows. */
    method CleanShoppingCart(userId: Id)
      requires db.Valid()
      modifies db`cart
      ensures db.Valid()
      ensures db.cart == DeleteByUserId(old(db.cart), userId)
      ensures OfUser(db.cart, userId) == []
      ensures forall v :: v != userId ==> OfUser(db.cart, v) == OfUser(old(db.cart), v)
    {
      ClearEmptiesOnlyUser(db.cart, userId);
      FilterKeepsCartValid((e: CartEntry) => e.userId != userId, db.cart, db.nextCartId);
      db.cart := DeleteByUserId(db.cart, userId);
    }

    /** `subShoppingCart`: delete the first matching row if it holds one unit, else take one unit off it. */
    method SubShoppingCart(userId: Id, dto: ShoppingCartDto)
      requires db.Valid()
      modifies db`cart
      ensures db.Valid()
      ensures db.cart == SubFromCart(old(db.cart), Probe(userId, dto))
    {
      var q := Probe(userId, dto);
      var list := ListCart(db.cart, q);
      FirstMatchIsListHead(db.cart, q);
      SubKeepsCartValid(db.cart, db.nextCartId, q);
      if list != [] {
        var shoppingCart := list[0];
        var k := FirstMatch(db.cart, q).value;
        if shoppingCart.number == 1 {
          DeleteByIdAt(db.cart, k);
          db.cart := DeleteById(db.cart, shoppingCart.id);
        } else {
          UpdateNumberByIdAt(db.cart, k, shoppingCart.number - 1);
          db.cart := UpdateNumberById(db.cart, shoppingCart.id, shoppingCart.number - 1);
        }
      }
    }
  }
}
