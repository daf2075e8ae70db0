/** The cart as a value: an ordered list of line items keyed by name, the
    pure helpers the store uses to look entries up and filter them out, the
    new list each store operation produces, and the cart total. */
module Cart {
  import opened Wrappers

  /** One line of the cart. Prices are whole paise, so a subtotal is exact. */
  datatype Item = Item(name: string, price: int, quantity: int, image: string)

  /** No two entries share a name. */
  predicate NamesUnique(cart: seq<Item>) {
    forall i, j :: 0 <= i < j < |cart| ==> cart[i].name != cart[j].name
  }

  /** The invariant the cart is meant to keep: every price positive, every
      quantity at least 1. */
  predicate WellFormed(cart: seq<Item>) {
    forall i :: 0 <= i < |cart| ==> cart[i].price > 0 && cart[i].quantity >= 1
  }

  /** No entry has a falsy (zero) price or quantity: what rendering demands
      before it totals the cart. */
  predicate Intact(cart: seq<Item>) {
    forall i :: 0 <= i < |cart| ==> cart[i].price != 0 && cart[i].quantity != 0
  }

  /** Index of the first entry called `name`, the entry `find` returns. */
  function FindIndex(cart: seq<Item>, name: string): (r: Option<nat>)
    ensures r.Some? ==> r.value < |cart| && cart[r.value].name == name
    ensures r.Some? ==> forall j :: 0 <= j < r.value ==> cart[j].name != name
    ensures r.None? <==> forall j :: 0 <= j < |cart| ==> cart[j].name != name
  {
    if cart == [] then None
    else if cart[0].name == name then Some(0)
    else
      var rest := FindIndex(cart[1..], name);
      if rest.None? then None else Some(rest.value + 1)
  }

  /** The quantity of the first entry called `name`, 0 when there is none. */
  function QuantityOf(cart: seq<Item>, name: string): int {
    var i := FindIndex(cart, name);
    if i.None? then 0 else cart[i.value].quantity
  }

  /** The number of entries called `name`. */
  function Occurrences(cart: seq<Item>, name: string): nat {
    if cart == [] then 0
    else (if cart[0].name == name then 1 else 0) + Occurrences(cart[1..], name)
  }

  /** The entries whose name differs from `name`, in their original order
      (the `filter` of removeFromCart). */
  function Without(cart: seq<Item>, name: string): (r: seq<Item>)
    ensures forall x :: x in r <==> x in cart && x.name != name
    ensures |r| == |cart| - Occurrences(cart, name)
  {
    if cart == [] then []
    else if cart[0].name == name then Without(cart[1..], name)
    else [cart[0]] + Without(cart[1..], name)
  }

  /** The first entry called `name` with its quantity set to `q`; the cart
      itself when there is no such entry. */
  function WithQuantity(cart: seq<Item>, name: string, q: int): seq<Item> {
    var i := FindIndex(cart, name);
    if i.None? then cart else cart[i.value := cart[i.value].(quantity := q)]
  }

  /** The cart after a successful addToCart: an existing entry gains one
      unit, otherwise a new entry of quantity 1 goes at the end. */
  function Added(cart: seq<Item>, name: string, price: int, image: string): seq<Item> {
    if FindIndex(cart, name).Some? then WithQuantity(cart, name, QuantityOf(cart, name) + 1)
    else cart + [Item(name, price, 1, image)]
  }

  // ---------------------------------------------------------------------
  // Adding

  lemma {:induction false} FindIndexAppend(cart: seq<Item>, x: Item, name: string)
    ensures FindIndex(cart + [x], name) ==
      if FindIndex(cart, name).Some? then FindIndex(cart, name)
      else if x.name == name then Some(|cart|) else None
  {
    if cart != [] {
      assert (cart + [x])[1..] == cart[1..] + [x];
      FindIndexAppend(cart[1..], x, name);
    }
  }

  /** Setting a quantity leaves every name where it was. */
  lemma WithQuantityNames(cart: seq<Item>, name: string, q: int, other: string)
    ensures |WithQuantity(cart, name, q)| == |cart|
    ensures forall k :: 0 <= k < |cart| ==> WithQuantity(cart, name, q)[k].name == cart[k].name
    ensures FindIndex(WithQuantity(cart, name, q), other) == FindIndex(cart, other)
  {
    var r := WithQuantity(cart, name, q);
    assert forall k :: 0 <= k < |cart| ==> r[k].name == cart[k].name;
    FindIndexByNames(r, cart, other);
  }

  /** `find` by name sees only the names. */
  lemma {:induction false} FindIndexByNames(a: seq<Item>, b: seq<Item>, name: string)
    requires |a| == |b| && forall k :: 0 <= k < |a| ==> a[k].name == b[k].name
    ensures FindIndex(a, name) == FindIndex(b, name)
  {
    if a != [] {
      FindIndexByNames(a[1..], b[1..], name);
    }
  }

  /** Adding one unit of `name` raises the quantity recorded for `name` by
      exactly one and leaves the quantity of every other name as it was. */
  lemma QuantityAfterAdd(cart: seq<Item>, name: string, price: int, image: string, other: string)
    ensures QuantityOf(Added(cart, name, price, image), other)
         == QuantityOf(cart, other) + (if other == name then 1 else 0)
  {
    var x := Item(name, price, 1, image);
    if FindIndex(cart, name).Some? {
      WithQuantityNames(cart, name, QuantityOf(cart, name) + 1, other);
    } else {
      FindIndexAppend(cart, x, other);
    }
  }

  /** Adding keeps names unique, and the added name is then in the cart. */
  lemma AddKeepsNamesUnique(cart: seq<Item>, name: string, price: int, image: string)
    requires NamesUnique(cart)
    ensures NamesUnique(Added(cart, name, price, image))
    ensures FindIndex(Added(cart, name, price, image), name).Some?
  {
    var x := Item(name, price, 1, image);
    FindIndexAppend(cart, x, name);
    if FindIndex(cart, name).Some? {
      WithQuantityNames(cart, name, QuantityOf(cart, name) + 1, name);
    }
  }

  /** Adding touches no entry of another name: with `name` filtered out,
      the cart before and after are the same list. */
  lemma {:induction false} AddChangesNothingElse(cart: seq<Item>, name: string, price: int, image: string)
    ensures Without(Added(cart, name, price, image), name) == Without(cart, name)
  {
    var x := Item(name, price, 1, image);
    if FindIndex(cart, name).Some? {
      WithQuantityWithout(cart, name, QuantityOf(cart, name) + 1);
    } else {
      WithoutAppend(cart, x, name);
    }
  }

  /** Filtering keeps the order: filtering a list with one more entry at the
      end gives the filtered list, followed by that entry if it is kept. */
  lemma {:induction false} WithoutAppend(cart: seq<Item>, x: Item, name: string)
    ensures Without(cart + [x], name) == Without(cart, name) + Without([x], name)
  {
    if cart != [] {
      assert (cart + [x])[1..] == cart[1..] + [x];
      WithoutAppend(cart[1..], x, name);
    }
  }

  lemma {:induction false} WithQuantityWithout(cart: seq<Item>, name: string, q: int)
    ensures Without(WithQuantity(cart, name, q), name) == Without(cart, name)
  {
    var r := WithQuantity(cart, name, q);
    if cart != [] && FindIndex(cart, name).Some? {
      if cart[0].name == name {
        assert r[0].name == name && r[1..] == cart[1..];
      } else {
        var f := FindIndex(cart[1..], name);
        assert FindIndex(cart, name) == Some(f.value + 1);
        assert r[0] == cart[0];
        assert r[1..] == WithQuantity(cart[1..], name, q);
        WithQuantityWithout(cart[1..], name, q);
      }
    }
  }

  /** One call of addToCart: product name, price (`None` when it is not a
      number) and image. */
  datatype AddCall = AddCall(name: string, price: Option<int>, image: string)

  /** The arguments addToCart turns away: an empty name, a price that is
      not a number, an empty image. */
  predicate AddRejected(name: string, price: Option<int>, image: string) {
    name == [] || price.None? || image == []
  }

  /** The cart after a sequence of addToCart calls, rejected calls having
      no effect. */
  function AddAll(cart: seq<Item>, calls: seq<AddCall>): seq<Item> {
    if calls == [] then cart
    else
      var c := AddAll(cart, calls[..|calls| - 1]);
      var k := calls[|calls| - 1];
      if AddRejected(k.name, k.price, k.image) then c else Added(c, k.name, k.price.value, k.image)
  }

  /** The number of accepted calls in `calls` that add `name`. */
  function AcceptedAdds(calls: seq<AddCall>, name: string): nat {
    if calls == [] then 0
    else
      var k := calls[|calls| - 1];
      AcceptedAdds(calls[..|calls| - 1], name)
        + (if !AddRejected(k.name, k.price, k.image) && k.name == name then 1 else 0)
  }

  /** After any sequence of addToCart calls, names are still unique and the
      quantity of each name has grown by the number of accepted calls for
      it; from an empty cart, it is exactly that number. */
  lemma {:induction false} AddAllCounts(cart: seq<Item>, calls: seq<AddCall>, name: string)
    ensures QuantityOf(AddAll(cart, calls), name) == QuantityOf(cart, name) + AcceptedAdds(calls, name)
    ensures NamesUnique(cart) ==> NamesUnique(AddAll(cart, calls))
  {
    if calls != [] {
      var init := calls[..|calls| - 1];
      var k := calls[|calls| - 1];
      AddAllCounts(cart, init, name);
      if !AddRejected(k.name, k.price, k.image) {
        var c := AddAll(cart, init);
        QuantityAfterAdd(c, k.name, k.price.value, k.image, name);
        if NamesUnique(cart) {
          AddKeepsNamesUnique(c, k.name, k.price.value, k.image);
        }
      }
    }
  }

  // ---------------------------------------------------------------------
  // Removing and setting a quantity

  /** Removing twice is removing once. */
  lemma {:induction false} WithoutIdempotent(cart: seq<Item>, name: string)
    ensures Without(Without(cart, name), name) == Without(cart, name)
  {
    if cart != [] {
      WithoutIdempotent(cart[1..], name);
    }
  }

  /** Removing a name that is not in the cart changes nothing. */
  lemma {:induction false} WithoutAbsent(cart: seq<Item>, name: string)
    requires FindIndex(cart, name).None?
    ensures Without(cart, name) == cart
  {
    if cart != [] {
      WithoutAbsent(cart[1..], name);
    }
  }

  /** After a removal no entry has that name, and names stay unique. */
  lemma {:induction false} WithoutKeepsNamesUnique(cart: seq<Item>, name: string)
    requires NamesUnique(cart)
    ensures NamesUnique(Without(cart, name))
    ensures FindIndex(Without(cart, name), name).None?
  {
    if cart != [] {
      WithoutKeepsNamesUnique(cart[1..], name);
      var r := Without(cart, name);
      if cart[0].name != name {
        assert r == [cart[0]] + Without(cart[1..], name);
        forall j | 1 <= j < |r| ensures r[0].name != r[j].name {
          assert r[j] in Without(cart[1..], name);
        }
      }
    }
  }

  /** Setting the quantity of an entry that exists: the name now has that
      quantity, the length is the same and names stay unique. */
  lemma SetQuantityEffect(cart: seq<Item>, name: string, q: int)
    requires FindIndex(cart, name).Some?
    ensures QuantityOf(WithQuantity(cart, name, q), name) == q
    ensures |WithQuantity(cart, name, q)| == |cart|
    ensures NamesUnique(cart) ==> NamesUnique(WithQuantity(cart, name, q))
  {
    WithQuantityNames(cart, name, q, name);
  }

  // ---------------------------------------------------------------------
  // Totals

  /** The amount one line adds to the total. */
  function Subtotal(x: Item): int {
    x.price * x.quantity
  }

  /** The sum of the subtotals, accumulated from the first entry on. */
  function Sum(cart: seq<Item>): int {
    if cart == [] then 0 else Sum(cart[..|cart| - 1]) + Subtotal(cart[|cart| - 1])
  }

  /** The total two carts make together is the sum of their totals. */
  lemma {:induction false} SumAppend(a: seq<Item>, b: seq<Item>)
    ensures Sum(a + b) == Sum(a) + Sum(b)
  {
    if b == [] {
      assert a + b == a;
    } else {
      assert (a + b)[..|a + b| - 1] == a + b[..|b| - 1];
      SumAppend(a, b[..|b| - 1]);
    }
  }

  lemma {:induction false} SumFront(cart: seq<Item>)
    requires cart != []
    ensures Sum(cart) == Subtotal(cart[0]) + Sum(cart[1..])
  {
    SumAppend([cart[0]], cart[1..]);
    assert [cart[0]] + cart[1..] == cart;
  }

  /** Setting a quantity replaces one subtotal in the total. */
  lemma {:induction false} SumWithQuantity(cart: seq<Item>, name: string, q: int)
    requires FindIndex(cart, name).Some?
    ensures var x := cart[FindIndex(cart, name).value];
            Sum(WithQuantity(cart, name, q)) == Sum(cart) - Subtotal(x) + Subtotal(x.(quantity := q))
  {
    var r := WithQuantity(cart, name, q);
    SumFront(cart);
    SumFront(r);
    if cart[0].name != name {
      var f := FindIndex(cart[1..], name);
      assert FindIndex(cart, name) == Some(f.value + 1);
      assert r[0] == cart[0];
      assert r[1..] == WithQuantity(cart[1..], name, q);
      SumWithQuantity(cart[1..], name, q);
    } else {
      assert r[0] == cart[0].(quantity := q);
      assert r[1..] == cart[1..];
    }
  }

  lemma OneMoreUnit(x: Item)
    ensures Subtotal(x.(quantity := x.quantity + 1)) == Subtotal(x) + x.price
  {
    assert x.price * (x.quantity + 1) == x.price * x.quantity + x.price;
  }

  /** Adding one unit raises the total by the entry's own price when the name
      is already in the cart, and by the new price otherwise. */
  lemma TotalAfterAdd(cart: seq<Item>, name: string, price: int, image: string)
    ensures Sum(Added(cart, name, price, image))
         == Sum(cart) + (if FindIndex(cart, name).Some? then cart[FindIndex(cart, name).value].price else price)
  {
    var found := FindIndex(cart, name);
    if found.Some? {
      var x := cart[found.value];
      assert Added(cart, name, price, image) == WithQuantity(cart, name, x.quantity + 1);
      SumWithQuantity(cart, name, x.quantity + 1);
      OneMoreUnit(x);
    } else {
      var x := Item(name, price, 1, image);
      assert Added(cart, name, price, image) == cart + [x];
      SumAppend(cart, [x]);
      assert Sum([x]) == price;
    }
  }

  /** With unique names, removing an entry lowers the total by its subtotal. */
  lemma {:induction false} TotalAfterRemove(cart: seq<Item>, name: string)
    requires NamesUnique(cart)
    ensures Sum(Without(cart, name))
         == Sum(cart) - (if FindIndex(cart, name).Some? then Subtotal(cart[FindIndex(cart, name).value]) else 0)
  {
    if cart != [] {
      SumFront(cart);
      TotalAfterRemove(cart[1..], name);
      if cart[0].name == name {
        assert FindIndex(cart[1..], name).None? by {
          forall j | 0 <= j < |cart[1..]| ensures cart[1..][j].name != name {
            assert cart[j + 1].name != cart[0].name;
          }
        }
      } else {
        SumFront(Without(cart, name));
      }
    }
  }

  /** One state change of a session, after argument parsing: an addToCart
      call, a removeFromCart call, or an updateQuantity call whose typed
      quantity parsed to `q`. */
  datatype CartOp =
    | AddOp(call: AddCall)
    | RemoveOp(name: string)
    | SetOp(name: string, q: int)

  /** The cart after one operation; a refused operation leaves it as it was. */
  function Apply(cart: seq<Item>, op: CartOp): seq<Item> {
    match op
    case AddOp(k) =>
      if AddRejected(k.name, k.price, k.image) then cart else Added(cart, k.name, k.price.value, k.image)
    case RemoveOp(n) =>
      if n == [] then cart else Without(cart, n)
    case SetOp(n, q) =>
      if n == [] || FindIndex(cart, n).None? then cart
      else if q >= 1 then WithQuantity(cart, n, q)
      else Without(cart, n)
  }

  /** The cart after a sequence of operations, first to last. */
  function Run(cart: seq<Item>, ops: seq<CartOp>): seq<Item> {
    if ops == [] then cart else Apply(Run(cart, ops[..|ops| - 1]), ops[|ops| - 1])
  }

  /** No add in `ops` offers a price below 1. */
  predicate PositivePrices(ops: seq<CartOp>) {
    forall i :: 0 <= i < |ops| && ops[i].AddOp? && ops[i].call.price.Some? ==> ops[i].call.price.value > 0
  }

  /** From a well-formed cart, any session whose adds all carry positive
      prices keeps it well formed, so it always passes the integrity check
      of both renders: they show a total and never fail. */
  lemma {:induction false} RunKeepsIntact(cart: seq<Item>, ops: seq<CartOp>)
    requires WellFormed(cart)
    requires PositivePrices(ops)
    ensures WellFormed(Run(cart, ops))
    ensures Intact(Run(cart, ops))
  {
    if ops != [] {
      var init := ops[..|ops| - 1];
      var op := ops[|ops| - 1];
      assert PositivePrices(init) by {
        forall i | 0 <= i < |init| && init[i].AddOp? && init[i].call.price.Some?
          ensures init[i].call.price.value > 0
        {
          assert init[i] == ops[i];
        }
      }
      RunKeepsIntact(cart, init);
      var c := Run(cart, init);
      match op
      case AddOp(k) =>
        if !AddRejected(k.name, k.price, k.image) {
          OperationsKeepWellFormed(c, k.name, k.price.value, k.image, 1);
        }
      case RemoveOp(n) =>
        OperationsKeepWellFormed(c, n, 1, [], 1);
      case SetOp(n, q) =>
        OperationsKeepWellFormed(c, n, 1, [], q);
    }
  }

  /** The store operations keep a cart well formed as long as the added price
      is positive and the quantity set is at least 1. A zero price, which the
      argument check of addToCart lets through, makes the cart fail the
      integrity check. */
  lemma OperationsKeepWellFormed(cart: seq<Item>, name: string, price: int, image: string, q: int)
    requires WellFormed(cart)
    ensures price > 0 ==> WellFormed(Added(cart, name, price, image))
    ensures price == 0 && FindIndex(cart, name).None? ==> !Intact(Added(cart, name, price, image))
    ensures q >= 1 ==> WellFormed(WithQuantity(cart, name, q))
    ensures WellFormed(Without(cart, name))
  {
    var r := Without(cart, name);
    forall k | 0 <= k < |r| ensures r[k].price > 0 && r[k].quantity >= 1 {
      assert r[k] in cart;
    }
    if FindIndex(cart, name).None? {
      assert Added(cart, name, price, image)[|cart|].price == price;
    }
  }

  /** What rendering computes for the total: `None` when an entry fails the
      integrity check (rendering then aborts), else the sum of subtotals. */
  method ComputeTotal(cart: seq<Item>) returns (total: Option<int>)
    ensures total.None? <==> !Intact(cart)
    ensures total.Some? ==> total.value == Sum(cart)
  {
    var sum := 0;
    var i := 0;
    while i < |cart|
      invariant 0 <= i <= |cart|
      invariant Intact(cart[..i])
      invariant sum == Sum(cart[..i])
    {
      var x := cart[i];
      if x.price == 0 || x.quantity == 0 {
        return None;
      }
      assert cart[..i + 1][..i] == cart[..i];
      sum := sum + x.price * x.quantity;
      i := i + 1;
    }
    assert cart[..i] == cart;
    return Some(sum);
  }
}
