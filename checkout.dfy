/** The "Place Order" request of the checkout page: read the user's cart with
    current prices, add up the total, then in one transaction insert a `paid`
    order, copy every cart row into order_details with the price read, and
    delete the user's cart lines; any exception rolls all of it back. */
module Checkout {
  import opened Sums
  import opened Db
  import opened CartLines

  /** The detail rows written for order `oid`, one per cart row, in order. */
  function DetailsOf(oid: int, lines: seq<CartLine>): (ds: seq<Detail>)
    ensures |ds| == |lines|
    ensures forall k :: 0 <= k < |ds| ==>
              ds[k] == Detail(oid, lines[k].productId, lines[k].quantity, lines[k].price)
  {
    if lines == [] then []
    else DetailsOf(oid, lines[..|lines| - 1])
         + [Detail(oid, lines[|lines| - 1].productId, lines[|lines| - 1].quantity, lines[|lines| - 1].price)]
  }

  /** The copied rows add up, for their order, to exactly the cart total. */
  lemma {:induction false} DetailsOfTotal(oid: int, lines: seq<CartLine>)
    ensures DetailsTotal(DetailsOf(oid, lines), oid) == LinesTotal(lines)
    decreases |lines|
  {
    if lines != [] {
      var ds := DetailsOf(oid, lines);
      assert ds[..|ds| - 1] == DetailsOf(oid, lines[..|lines| - 1]);
      DetailsOfTotal(oid, lines[..|lines| - 1]);
    }
  }

  /** The scalar subquery of the cart DELETE, which looks up the user's cart
      id: nothing for a user without a cart. With one cart per user there is
      at most one row to return. */
  function UserCart(carts: map<int, int>, user: int): (c: Option<int>)
    requires OneCartPerUser(carts)
    ensures c.Some? <==> HasCart(carts, user)
    ensures c.Some? ==> c.value in carts && carts[c.value] == user
    // the subquery's single row: no other cart belongs to the user
    ensures c.Some? ==> forall c' :: c' in carts && carts[c'] == user ==> c' == c.value
  {
    if HasCart(carts, user) then var c :| c in carts && carts[c] == user; Some(c) else None
  }

  /** The cart DELETE as the page writes it: the lines whose cart id equals
      the subquery's value go; when the subquery finds no cart its value is
      NULL, which equals nothing, and no line goes. */
  function WithoutUserLines(carts: map<int, int>, items: map<int, CartItem>, user: int): map<int, CartItem>
    requires OneCartPerUser(carts)
  {
    var c := UserCart(carts, user);
    if c.None? then items else map i | i in items && items[i].cartId != c.value :: items[i]
  }

  /** The DELETE removes exactly the user's cart lines as the join of
      cart_items with carts selects them (LineIds), including lines whose
      product is gone, which the checkout did not read; every other line is
      kept unchanged. */
  lemma WithoutUserLinesJoin(carts: map<int, int>, items: map<int, CartItem>, user: int)
    requires OneCartPerUser(carts)
    ensures WithoutUserLines(carts, items, user).Keys == items.Keys - LineIds(carts, items, user)
    ensures forall i :: i in WithoutUserLines(carts, items, user) ==> WithoutUserLines(carts, items, user)[i] == items[i]
    ensures LineIds(carts, WithoutUserLines(carts, items, user), user) == {}
  {
    LineIdsOfCart(carts, items, user);
    var r := WithoutUserLines(carts, items, user);
    var c := UserCart(carts, user);
    if c.Some? {
      assert LineIds(carts, items, user) == CartLineIds(items, c.value);
    }
    forall i | i in r
      ensures !InUserCart(carts, r[i], user)
    {
      assert i in items && r[i] == items[i];
    }
  }

  /** With n cart rows the transaction runs n + 3 statements: 0 inserts the
      order, 1..n the detail rows, n + 1 deletes the cart lines, n + 2 commits.
      `failAt` names the one that throws; any other value means none does. */
  predicate Faulted(failAt: int, n: int)
  {
    0 <= failAt <= n + 2
  }

  /** rollBack(): the three tables the transaction writes get their
      pre-transaction contents back. */
  method RollBack(st: Store, orders: map<int, Order>, details: seq<Detail>, items: map<int, CartItem>)
    modifies st`orders, st`orderDetails, st`cartItems
    ensures st.orders == orders && st.orderDetails == details && st.cartItems == items
  {
    st.orders, st.orderDetails, st.cartItems := orders, details, items;
  }

  /** Committing a checkout keeps every order's total equal to the sum of its
      detail rows: the new rows are the only ones carrying the new order id. */
  lemma CommitKeepsTotals(orders: map<int, Order>, details: seq<Detail>, oid: int, user: int, lines: seq<CartLine>)
    requires DetailsOwned(orders, details) && TotalsAgree(orders, details)
    requires oid !in orders
    ensures DetailsOwned(orders[oid := Order(user, LinesTotal(lines), Paid)], details + DetailsOf(oid, lines))
    ensures TotalsAgree(orders[oid := Order(user, LinesTotal(lines), Paid)], details + DetailsOf(oid, lines))
  {
    var orders' := orders[oid := Order(user, LinesTotal(lines), Paid)];
    var added := DetailsOf(oid, lines);
    forall o | o in orders'
      ensures orders'[o].total == DetailsTotal(details + added, o)
    {
      DetailsTotalAppend(details, added, o);
      if o == oid {
        DetailsOfTotal(oid, lines);
        DetailsTotalAbsent(details, oid);
      } else {
        DetailsTotalAbsent(added, o);
      }
    }
  }

  /** The foreach that inserts one detail row per cart row; when the row
      numbered `failAt` would be inserted, that INSERT throws instead. */
  method InsertDetails(st: Store, oid: int, lines: seq<CartLine>, failAt: int) returns (failed: bool)
    modifies st`orderDetails
    ensures failed <==> 1 <= failAt <= |lines|
    ensures failed ==> st.orderDetails == old(st.orderDetails) + DetailsOf(oid, lines[..failAt - 1])
    ensures !failed ==> st.orderDetails == old(st.orderDetails) + DetailsOf(oid, lines)
  {
    failed := false;
    var k := 0;
    while k < |lines| && !failed
      invariant 0 <= k <= |lines|
      invariant st.orderDetails == old(st.orderDetails) + DetailsOf(oid, lines[..k])
      invariant failed ==> failAt == k + 1 && k < |lines|
      invariant !failed ==> !(1 <= failAt <= k)
      decreases |lines| - k, if failed then 0 else 1
    {
      if failAt == k + 1 {
        failed := true;
      } else {
        var d := Detail(oid, lines[k].productId, lines[k].quantity, lines[k].price);
        assert lines[..k + 1][..k] == lines[..k];
        assert DetailsOf(oid, lines[..k + 1]) == DetailsOf(oid, lines[..k]) + [d];
        st.orderDetails := st.orderDetails + [d];
        k := k + 1;
      }
    }
    if !failed {
      assert lines[..k] == lines;
    }
  }

  /** The statements of the try block, up to and including commit(): the
      order INSERT, the detail rows and the cart DELETE, stopping at the one
      numbered `failAt`. On a failure the tables are left half-written, for
      the catch block to roll back. */
  method Writes(st: Store, user: int, lines: seq<CartLine>, total: int, failAt: int) returns (oid: int, failed: bool)
    requires OneCartPerUser(st.carts)
    modifies st`orders, st`orderDetails, st`cartItems, st`nextOrderId
    ensures oid == old(st.nextOrderId)
    ensures failed <==> Faulted(failAt, |lines|)
    // the order INSERT (statement 0) writes the order and draws its id
    ensures st.nextOrderId == oid + (if failAt != 0 then 1 else 0)
    ensures failAt == 0 ==>
              st.orders == old(st.orders) && st.orderDetails == old(st.orderDetails)
              && st.cartItems == old(st.cartItems)
    ensures failAt != 0 ==> st.orders == old(st.orders)[oid := Order(user, total, Paid)]
    // the detail INSERTs (1..n) stop before the one that throws
    ensures 1 <= failAt <= |lines| ==> st.orderDetails == old(st.orderDetails) + DetailsOf(oid, lines[..failAt - 1])
    ensures !(0 <= failAt <= |lines|) ==> st.orderDetails == old(st.orderDetails) + DetailsOf(oid, lines)
    // the cart DELETE (n + 1) runs unless it or an earlier statement throws
    ensures 0 <= failAt <= |lines| + 1 ==> st.cartItems == old(st.cartItems)
    ensures !(0 <= failAt <= |lines| + 1) ==> st.cartItems == WithoutUserLines(st.carts, old(st.cartItems), user)
  {
    oid := st.nextOrderId;
    failed := failAt == 0;
    if !failed {
      st.orders := st.orders[oid := Order(user, total, Paid)];
      st.nextOrderId := oid + 1;
      failed := InsertDetails(st, oid, lines, failAt);
      if !failed {
        if failAt == |lines| + 1 {
          failed := true;
        } else {
          st.cartItems := WithoutUserLines(st.carts, st.cartItems, user);
          failed := failAt == |lines| + 2;   // commit()
        }
      }
    }
  }

  /** The try block of the request: the writes between beginTransaction()
      and commit() for the cart rows already read and their total, and the
      catch block that rolls them back. */
  method CommitOrder(st: Store, user: int, lines: seq<CartLine>, total: int, failAt: int) returns (r: Result<int>)
    requires st.Valid()
    requires total == LinesTotal(lines)
    modifies st`orders, st`orderDetails, st`cartItems, st`nextOrderId
    ensures st.Valid()
    ensures r.Ok? <==> !Faulted(failAt, |lines|)
    ensures !r.Ok? ==> r == Err(StorageFailure)
    ensures !r.Ok? ==>
              st.orders == old(st.orders) && st.orderDetails == old(st.orderDetails)
              && st.cartItems == old(st.cartItems)
              && st.nextOrderId == old(st.nextOrderId) + (if failAt != 0 then 1 else 0)
    ensures r.Ok? ==>
              && r.value == old(st.nextOrderId) && r.value !in old(st.orders)
              && st.nextOrderId == r.value + 1
              && st.orders == old(st.orders)[r.value := Order(user, total, Paid)]
              && st.orderDetails == old(st.orderDetails) + DetailsOf(r.value, lines)
              && st.cartItems == WithoutUserLines(st.carts, old(st.cartItems), user)
  {
    // beginTransaction()
    var orders0, details0, items0 := st.orders, st.orderDetails, st.cartItems;
    assert Issued(orders0.Keys, st.nextOrderId) && DetailsOwned(orders0, details0) && TotalsAgree(orders0, details0);
    WithoutUserLinesJoin(st.carts, items0, user);
    var oid, failed := Writes(st, user, lines, total, failAt);
    if failed {
      // catch: rollBack()
      assert Issued(orders0.Keys, st.nextOrderId);
      RollBack(st, orders0, details0, items0);
      r := Err(StorageFailure);
    } else {
      r := Ok(oid);
      assert OrderTables(st.orders, st.orderDetails, st.nextOrderId) by {
        CommitKeepsTotals(orders0, details0, oid, user, lines);
      }
    }
  }

  /** POST place_order for the logged-in `user`; `lines` are the cart rows the
      page read and showed. */
  method PlaceOrder(st: Store, user: int, failAt: int) returns (r: Result<int>, lines: seq<CartLine>)
    requires st.Valid()
    modifies st`orders, st`orderDetails, st`cartItems, st`nextOrderId
    ensures st.Valid()
    ensures ListsCart(lines, st.carts, old(st.cartItems), st.products, user)
    // an empty cart opens no transaction
    ensures lines == [] <==> JoinedIds(st.carts, old(st.cartItems), st.products, user) == {}
    ensures lines == [] ==> r == Err(EmptyCart)
    ensures lines != [] && Faulted(failAt, |lines|) ==> r == Err(StorageFailure)
    ensures r.Ok? <==> lines != [] && !Faulted(failAt, |lines|)
    // all or nothing: a refused or rolled-back request leaves every table as it was
    ensures !r.Ok? ==>
              st.orders == old(st.orders) && st.orderDetails == old(st.orderDetails)
              && st.cartItems == old(st.cartItems)
    // the AUTO_INCREMENT value taken by a rolled-back insert is not given back
    ensures !r.Ok? ==>
              st.nextOrderId == old(st.nextOrderId) + (if lines != [] && failAt != 0 then 1 else 0)
    // commit: one paid order of the user for the cart total ...
    ensures r.Ok? ==>
              && r.value == old(st.nextOrderId) && r.value !in old(st.orders)
              && st.nextOrderId == r.value + 1
              && st.orders == old(st.orders)[r.value := Order(user, LinesTotal(lines), Paid)]
    // ... which is quantity * current price summed over the joined cart lines ...
    ensures r.Ok? ==>
              LinesTotal(lines) == SumOver(JoinedIds(st.carts, old(st.cartItems), st.products, user),
                                           Amount(old(st.cartItems), st.products))
    // ... one detail row per cart row, at the price read, adding up to the total ...
    ensures r.Ok? ==> st.orderDetails == old(st.orderDetails) + DetailsOf(r.value, lines)
    ensures r.Ok? ==> DetailsTotal(st.orderDetails, r.value) == st.orders[r.value].total
    // ... and the user's cart emptied, orphaned lines included, other carts untouched
    ensures r.Ok? ==> st.cartItems == WithoutUserLines(st.carts, old(st.cartItems), user)
    ensures r.Ok? ==> LineIds(st.carts, st.cartItems, user) == {}
  {
    lines := FetchCart(st, user);
    EmptyListing(lines, st.carts, st.cartItems, st.products, user);
    if |lines| == 0 {
      r := Err(EmptyCart);
      return;
    }
    var total := SumLines(lines);
    ListedTotal(lines, st.carts, st.cartItems, st.products, user);
    WithoutUserLinesJoin(st.carts, st.cartItems, user);
    r := CommitOrder(st, user, lines, total, failAt);
  }

  /** A double submit: the second request finds the cart already emptied by the
      first and creates no order. */
  method PlaceOrderTwice(st: Store, user: int) returns (first: Result<int>, second: Result<int>)
    requires st.Valid()
    modifies st`orders, st`orderDetails, st`cartItems, st`nextOrderId
    ensures st.Valid()
    ensures first.Ok? ==> second == Err(EmptyCart)
    ensures !first.Ok? ==> second == Err(EmptyCart) && first == Err(EmptyCart)
    // exactly one order comes out of the two requests: the first one's
    ensures first.Ok? ==>
              && first.value !in old(st.orders) && first.value in st.orders
              && st.orders == old(st.orders)[first.value := Order(user, st.orders[first.value].total, Paid)]
    ensures !first.Ok? ==>
              st.orders == old(st.orders) && st.orderDetails == old(st.orderDetails)
              && st.cartItems == old(st.cartItems)
  {
    var lines1, lines2;
    first, lines1 := PlaceOrder(st, user, -1);
    second, lines2 := PlaceOrder(st, user, -1);
  }
}
