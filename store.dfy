/** The storefront's relational store: one map per table, keyed by the table's
    AUTO_INCREMENT id (order details are a plain sequence of rows), together
    with the integrity facts every request handler keeps. Prices and totals
    are integer cents. */
module Db {
  import opened Sums

  datatype Option<T> = None | Some(value: T)

  /** Why a request was refused or rolled back. */
  datatype Error =
    | NotOwner          // the cart line is not in the user's cart
    | InvalidQuantity   // a cart quantity that is not positive
    | EmptyCart         // checkout with nothing to buy
    | StorageFailure    // a statement or the commit threw; the transaction was rolled back
    | InvalidInput      // a required form field is missing or malformed
    | InvalidId         // a non-positive row id
    | DuplicateName     // the UNIQUE constraint on category names
    | DuplicateEmail    // the email is already registered
    | CategoryInUse     // products still reference the category

  datatype Result<T> = Ok(value: T) | Err(error: Error)

  /** The five values of `orders.status`. */
  datatype OrderStatus = Pending | Paid | Shipped | Delivered | Cancelled

  datatype CartItem = CartItem(cartId: int, productId: int, quantity: int)
  datatype Product = Product(name: string, categoryId: int, price: int, imageUrl: string)
  datatype Order = Order(userId: int, total: int, status: OrderStatus)
  datatype Detail = Detail(orderId: int, productId: int, quantity: int, priceEach: int)
  datatype User = User(fullName: string, email: string, passwordHash: string)

  /** Every key was handed out by the AUTO_INCREMENT counter `next`, which
      starts at 1. */
  ghost predicate Issued(keys: set<int>, next: int)
  {
    next >= 1 && forall k :: k in keys ==> 0 < k < next
  }

  /** `carts` maps cart_id to user_id; no user owns two carts. */
  ghost predicate OneCartPerUser(carts: map<int, int>)
  {
    forall c, c' :: c in carts && c' in carts && carts[c] == carts[c'] ==> c == c'
  }

  ghost predicate ItemsInCarts(carts: map<int, int>, items: map<int, CartItem>)
  {
    forall i :: i in items ==> items[i].cartId in carts
  }

  /** A product appears at most once in a cart. */
  ghost predicate UniqueLines(items: map<int, CartItem>)
  {
    forall i, j :: i in items && j in items && i != j ==>
      items[i].cartId != items[j].cartId || items[i].productId != items[j].productId
  }

  ghost predicate PositiveQuantities(items: map<int, CartItem>)
  {
    forall i :: i in items ==> items[i].quantity >= 1
  }

  ghost predicate DetailsOwned(orders: map<int, Order>, details: seq<Detail>)
  {
    forall k :: 0 <= k < |details| ==> details[k].orderId in orders
  }

  /** The frozen-price invariant: an order's total is the sum of
      quantity * price_each over its own detail rows. */
  ghost predicate TotalsAgree(orders: map<int, Order>, details: seq<Detail>)
  {
    forall o :: o in orders ==> orders[o].total == DetailsTotal(details, o)
  }

  ghost predicate UniqueEmails(users: map<int, User>)
  {
    forall u, u' :: u in users && u' in users && u != u' ==> users[u].email != users[u'].email
  }

  /** The UNIQUE constraint on category_name. */
  ghost predicate UniqueNames(categories: map<int, string>)
  {
    forall c, c' :: c in categories && c' in categories && c != c' ==> categories[c] != categories[c']
  }

  /** The integrity of carts and cart_items. */
  ghost predicate CartTables(carts: map<int, int>, items: map<int, CartItem>, nextCart: int, nextItem: int)
  {
    && Issued(carts.Keys, nextCart)
    && Issued(items.Keys, nextItem)
    && OneCartPerUser(carts)
    && ItemsInCarts(carts, items)
    && UniqueLines(items)
    && PositiveQuantities(items)
  }

  /** The integrity of orders and order_details. */
  ghost predicate OrderTables(orders: map<int, Order>, details: seq<Detail>, nextOrder: int)
  {
    Issued(orders.Keys, nextOrder) && DetailsOwned(orders, details) && TotalsAgree(orders, details)
  }

  /** The integrity of products and categories. */
  ghost predicate CatalogTables(products: map<int, Product>, categories: map<int, string>,
                                nextProduct: int, nextCategory: int)
  {
    Issued(products.Keys, nextProduct) && Issued(categories.Keys, nextCategory) && UniqueNames(categories)
  }

  /** The integrity of users. */
  ghost predicate UserTable(users: map<int, User>, nextUser: int)
  {
    Issued(users.Keys, nextUser) && UniqueEmails(users)
  }

  class Store {
    var carts: map<int, int>
    var cartItems: map<int, CartItem>
    var products: map<int, Product>
    var categories: map<int, string>
    var orders: map<int, Order>
    var orderDetails: seq<Detail>
    var users: map<int, User>
    // the AUTO_INCREMENT counters, one per table with a generated key
    var nextCartId: int
    var nextCartItemId: int
    var nextProductId: int
    var nextCategoryId: int
    var nextOrderId: int
    var nextUserId: int

    ghost predicate Valid()
      reads this
    {
      && CartTables(carts, cartItems, nextCartId, nextCartItemId)
      && OrderTables(orders, orderDetails, nextOrderId)
      && CatalogTables(products, categories, nextProductId, nextCategoryId)
      && UserTable(users, nextUserId)
    }

    /** A freshly created, empty database. */
    constructor ()
      ensures Valid()
      ensures carts == map[] && cartItems == map[] && products == map[] && categories == map[]
      ensures orders == map[] && orderDetails == [] && users == map[]
    {
      carts, cartItems, products, categories := map[], map[], map[], map[];
      orders, orderDetails, users := map[], [], map[];
      nextCartId, nextCartItemId, nextProductId := 1, 1, 1;
      nextCategoryId, nextOrderId, nextUserId := 1, 1, 1;
    }
  }

  /** The user owns some cart. */
  predicate HasCart(carts: map<int, int>, user: int)
  {
    exists c :: c in carts && carts[c] == user
  }

  /** A cart line passes the join of cart_items with carts restricted to the
      carts of `user`. */
  predicate InUserCart(carts: map<int, int>, item: CartItem, user: int)
  {
    item.cartId in carts && carts[item.cartId] == user
  }

  /** The ids of the user's cart lines as that join selects them, whether or
      not their product still exists. */
  function LineIds(carts: map<int, int>, items: map<int, CartItem>, user: int): set<int>
  {
    set i | i in items && InUserCart(carts, items[i], user)
  }

  /** The ids of the lines of the cart with id `c`. */
  function CartLineIds(items: map<int, CartItem>, c: int): set<int>
  {
    set i | i in items && items[i].cartId == c
  }

  /** With one cart per user, the join selects exactly the lines of the
      user's cart, and nothing for a user without a cart. */
  lemma LineIdsOfCart(carts: map<int, int>, items: map<int, CartItem>, user: int)
    requires OneCartPerUser(carts)
    ensures !HasCart(carts, user) ==> LineIds(carts, items, user) == {}
    ensures forall c :: c in carts && carts[c] == user ==> LineIds(carts, items, user) == CartLineIds(items, c)
  {
    forall c | c in carts && carts[c] == user
      ensures LineIds(carts, items, user) == CartLineIds(items, c)
    {
      forall i | i in LineIds(carts, items, user)
        ensures i in CartLineIds(items, c)
      {
        assert i in items && InUserCart(carts, items[i], user);
        assert carts[items[i].cartId] == carts[c];
      }
      forall i | i in CartLineIds(items, c)
        ensures i in LineIds(carts, items, user)
      {
        assert i in items && items[i].cartId == c;
      }
    }
    if !HasCart(carts, user) {
      forall i | i in items
        ensures !InUserCart(carts, items[i], user)
      {
      }
      assert LineIds(carts, items, user) == {};
    }
  }

  /** Weight of a cart line for SUM(quantity). */
  function Quantity(items: map<int, CartItem>): int -> int
  {
    i => if i in items then items[i].quantity else 0
  }

  /** SUM(ci.quantity) over the user's cart lines. */
  ghost function ItemCount(carts: map<int, int>, items: map<int, CartItem>, user: int): int
  {
    SumOver(LineIds(carts, items, user), Quantity(items))
  }

  /** Contribution of one detail row to the total of order `o`. */
  function DetailAmount(d: Detail, o: int): int
  {
    if d.orderId == o then d.quantity * d.priceEach else 0
  }

  /** Sum of quantity * price_each over the detail rows of order `o`. */
  function DetailsTotal(ds: seq<Detail>, o: int): int
  {
    if ds == [] then 0 else DetailsTotal(ds[..|ds| - 1], o) + DetailAmount(ds[|ds| - 1], o)
  }

  lemma {:induction false} DetailsTotalAppend(a: seq<Detail>, b: seq<Detail>, o: int)
    ensures DetailsTotal(a + b, o) == DetailsTotal(a, o) + DetailsTotal(b, o)
    decreases |b|
  {
    if b != [] {
      assert (a + b)[..|a + b| - 1] == a + b[..|b| - 1];
      DetailsTotalAppend(a, b[..|b| - 1], o);
    } else {
      assert a + b == a;
    }
  }

  /** An order without detail rows has total 0. */
  lemma {:induction false} DetailsTotalAbsent(ds: seq<Detail>, o: int)
    requires forall k :: 0 <= k < |ds| ==> ds[k].orderId != o
    ensures DetailsTotal(ds, o) == 0
    decreases |ds|
  {
    if ds != [] {
      DetailsTotalAbsent(ds[..|ds| - 1], o);
    }
  }

  /** The detail rows left after deleting those of order `o`, in their order. */
  function WithoutOrder(ds: seq<Detail>, o: int): (r: seq<Detail>)
    ensures |r| <= |ds|
    ensures forall d :: d in r <==> d in ds && d.orderId != o
  {
    if ds == [] then []
    else WithoutOrder(ds[..|ds| - 1], o) + (if ds[|ds| - 1].orderId == o then [] else [ds[|ds| - 1]])
  }

  /** Deleting one order's rows zeroes that order's total and keeps every other's. */
  lemma {:induction false} WithoutOrderTotal(ds: seq<Detail>, o: int, o': int)
    ensures DetailsTotal(WithoutOrder(ds, o), o') == if o' == o then 0 else DetailsTotal(ds, o')
    decreases |ds|
  {
    if ds != [] {
      var last := ds[|ds| - 1];
      var rest := WithoutOrder(ds[..|ds| - 1], o);
      var tail := if last.orderId == o then [] else [last];
      WithoutOrderTotal(ds[..|ds| - 1], o, o');
      DetailsTotalAppend(rest, tail, o');
      if tail != [] {
        assert DetailsTotal(tail, o') == DetailAmount(last, o') by {
          assert tail[..0] == [];
        }
      }
    }
  }
}
