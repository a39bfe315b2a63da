/**
 * The admin order listing's dish summary (`getOrderDishesById`): every line
 * item of an order rendered as `name*number;`, concatenated in line-item
 * order with no separator. A parser for that text is given beside it, and the
 * rendering is proved to lose nothing as long as no dish name contains `*`
 * or `;`.
 */
module DishSummary {
  import opened Domain

  predicate IsDigit(c: char)
  {
    '0' <= c <= '9'
  }

  predicate AllDigits(s: string)
  {
    forall i :: 0 <= i < |s| ==> IsDigit(s[i])
  }

  function Digit(d: nat): (c: char)
    requires d < 10
    ensures IsDigit(c)
  {
    (48 + d) as char
  }

  /** Decimal digits of a natural number, most significant first, no leading zeros. */
  function NatToString(n: nat): (s: string)
    ensures |s| >= 1 && AllDigits(s)
  {
    if n < 10 then [Digit(n)] else NatToString(n / 10) + [Digit(n % 10)]
  }

  /** The number a string of decimal digits denotes. */
  function DigitsValue(s: string): nat
    requires AllDigits(s)
  {
    if s == [] then 0 else DigitsValue(s[..|s| - 1]) * 10 + (s[|s| - 1] as int - 48)
  }

  lemma {:induction false} NatRoundTrip(n: nat)
    ensures DigitsValue(NatToString(n)) == n
  {
    if n >= 10 {
      NatRoundTrip(n / 10);
      var s := NatToString(n);
      assert s[..|s| - 1] == NatToString(n / 10);
    }
  }

  /** `Integer.toString` of the line item's quantity, as string concatenation renders it. */
  function IntToString(n: int): (s: string)
    ensures ';' !in s && '*' !in s
  {
    if n < 0 then "-" + NatToString(-n) else NatToString(n)
  }

  /** Reads back what IntToString writes; any other text reads as 0. */
  function ParseInt(s: string): int
  {
    if |s| > 0 && s[0] == '-' && AllDigits(s[1..]) then -(DigitsValue(s[1..]) as int)
    else if AllDigits(s) then DigitsValue(s)
    else 0
  }

  lemma IntRoundTrip(n: int)
    ensures ParseInt(IntToString(n)) == n
  {
    var s := IntToString(n);
    if n < 0 {
      assert s[1..] == NatToString(-n);
      NatRoundTrip(-n);
    } else {
      assert IsDigit(s[0]);
      NatRoundTrip(n);
    }
  }

  /** One line item as the summary shows it. */
  function DishLine(d: OrderDetail): (s: string)
    ensures |s| >= |d.name| + 3 && s[..|d.name|] == d.name && s[|d.name|] == '*' && s[|s| - 1] == ';'
    ensures PlainName(d.name) ==> ';' !in s[..|s| - 1]
  {
    var num := IntToString(d.number);
    var s := d.name + "*" + num + ";";
    assert s[..|s| - 1] == d.name + "*" + num;
    assert forall i :: 0 <= i < |s| - 1 ==> s[i] in d.name || s[i] == '*' || s[i] in num;
    s
  }

  /** `String.join("", ...)` over the rendered line items, in order. */
  function OrderDishes(ds: seq<OrderDetail>): (s: string)
    ensures s == [] <==> ds == []
    ensures ds != [] ==> s[|s| - 1] == ';'
  {
    if ds == [] then "" else DishLine(ds[0]) + OrderDishes(ds[1..])
  }

  lemma {:induction false} OrderDishesAppend(a: seq<OrderDetail>, b: seq<OrderDetail>)
    ensures OrderDishes(a + b) == OrderDishes(a) + OrderDishes(b)
  {
    if a == [] {
      assert a + b == b;
    } else {
      assert (a + b)[1..] == a[1..] + b;
      OrderDishesAppend(a[1..], b);
    }
  }

  /** Position of the first `c` in `s`, or `|s|` when there is none. */
  function IndexOf(s: string, c: char): (k: nat)
    ensures k <= |s|
    ensures k < |s| ==> s[k] == c
    ensures forall j :: 0 <= j < k ==> s[j] != c
  {
    if s == [] then 0 else if s[0] == c then 0 else 1 + IndexOf(s[1..], c)
  }

  lemma IndexOfFirst(a: string, c: char, b: string)
    requires c !in a
    ensures IndexOf(a + [c] + b, c) == |a|
  {
    var s := a + [c] + b;
    var k := IndexOf(s, c);
    assert s[|a|] == c;
    assert forall j :: 0 <= j < |a| ==> s[j] == a[j];
  }

  /** A dish name the summary can carry unambiguously. */
  predicate PlainName(name: string)
  {
    ';' !in name && '*' !in name
  }

  /** Splits a summary back into (name, quantity) pairs. */
  function ParseOrderDishes(s: string): seq<(string, int)>
    decreases |s|
  {
    if s == [] then []
    else
      var semi := IndexOf(s, ';');
      var item := s[..semi];
      var star := IndexOf(item, '*');
      var number := if star < |item| then ParseInt(item[star + 1..]) else 0;
      [(item[..star], number)] + (if semi < |s| then ParseOrderDishes(s[semi + 1..]) else [])
  }

  /** Parsing a summary that starts with one rendered item reads that item, then the rest. */
  lemma ParseFirstLine(d: OrderDetail, rest: string)
    requires PlainName(d.name)
    ensures ParseOrderDishes(DishLine(d) + rest) == [(d.name, d.number)] + ParseOrderDishes(rest)
  {
    var num := IntToString(d.number);
    var item := d.name + "*" + num;
    var s := DishLine(d) + rest;
    assert s == item + [';'] + rest;
    assert ';' !in item by {
      assert forall i :: 0 <= i < |item| ==> item[i] in d.name || item[i] == '*' || item[i] in num;
    }
    IndexOfFirst(item, ';', rest);
    assert s[..|item|] == item;
    IndexOfFirst(d.name, '*', num);
    assert item == d.name + ['*'] + num;
    assert item[..|d.name|] == d.name;
    assert item[|d.name| + 1..] == num;
    IntRoundTrip(d.number);
    assert s[|item| + 1..] == rest;
  }

  /** The (name, quantity) pair of every line item, in order. */
  function Items(ds: seq<OrderDetail>): (r: seq<(string, int)>)
    ensures |r| == |ds|
    ensures forall i :: 0 <= i < |ds| ==> r[i] == (ds[i].name, ds[i].number)
  {
    if ds == [] then [] else [(ds[0].name, ds[0].number)] + Items(ds[1..])
  }

  lemma {:induction false} ItemsRoundTrip(ds: seq<OrderDetail>)
    requires forall i :: 0 <= i < |ds| ==> PlainName(ds[i].name)
    ensures ParseOrderDishes(OrderDishes(ds)) == Items(ds)
  {
    if ds != [] {
      ParseFirstLine(ds[0], OrderDishes(ds[1..]));
      ItemsRoundTrip(ds[1..]);
    }
  }

  /**
   * The summary determines the order's items: parsing it gives back every
   * line item's name and quantity, in order.
   */
  lemma OrderDishesRoundTrip(ds: seq<OrderDetail>)
    requires forall i :: 0 <= i < |ds| ==> PlainName(ds[i].name)
    ensures ParseOrderDishes(OrderDishes(ds)) == seq(|ds|, i requires 0 <= i < |ds| => (ds[i].name, ds[i].number))
  {
    ItemsRoundTrip(ds);
  }
}
