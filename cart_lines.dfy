/** The cart query shared by the checkout page and the cart page, and the
    loop that adds up quantity * price over its rows. The query joins the
    cart lines with their carts, keeps the carts of one user, and joins the
    lines with their products, giving each line's id, quantity, product and
    current price. It names no row order, so its rows are modelled as any
    listing of the joined set. */
module CartLines {
  import opened Sums
  import opened Db

  /** One row of the joined query, carrying the product's current price. */
  datatype CartLine = CartLine(itemId: int, productId: int, quantity: int, price: int)

  /** Cart lines of the user whose product row still exists (the inner join). */
  function JoinedIds(carts: map<int, int>, items: map<int, CartItem>,
                     products: map<int, Product>, user: int): set<int>
  {
    set i | i in items && InUserCart(carts, items[i], user) && items[i].productId in products
  }

  /** The joined row for cart line i. */
  function JoinLine(items: map<int, CartItem>, products: map<int, Product>, i: int): CartLine
    requires i in items && items[i].productId in products
  {
    CartLine(i, items[i].productId, items[i].quantity, products[items[i].productId].price)
  }

  /** Weight of a cart line in the cart total: quantity * current price, or
      nothing when the join drops it. */
  function Amount(items: map<int, CartItem>, products: map<int, Product>): int -> int
  {
    i => if i in items && items[i].productId in products
         then items[i].quantity * products[items[i].productId].price else 0
  }

  /** The inner join only drops lines whose product is gone, and those weigh
      nothing in the total: summing over the joined lines is summing over all
      of the user's lines. */
  lemma JoinDropsNothing(carts: map<int, int>, items: map<int, CartItem>, products: map<int, Product>, user: int)
    ensures JoinedIds(carts, items, products, user) <= LineIds(carts, items, user)
    ensures forall i :: i in LineIds(carts, items, user) - JoinedIds(carts, items, products, user) ==>
              items[i].productId !in products
    ensures SumOver(JoinedIds(carts, items, products, user), Amount(items, products))
            == SumOver(LineIds(carts, items, user), Amount(items, products))
  {
    SumOverZeros(JoinedIds(carts, items, products, user), LineIds(carts, items, user), Amount(items, products));
  }

  function ItemIds(lines: seq<CartLine>): set<int>
  {
    if lines == [] then {} else ItemIds(lines[..|lines| - 1]) + {lines[|lines| - 1].itemId}
  }

  /** No cart line is listed twice. */
  ghost predicate Distinct(lines: seq<CartLine>)
  {
    lines == [] || (Distinct(lines[..|lines| - 1]) && lines[|lines| - 1].itemId !in ItemIds(lines[..|lines| - 1]))
  }

  /** `lines` is one possible answer of the cart query for `user`: every joined
      cart line exactly once, each row with the values the join produces. */
  ghost predicate ListsCart(lines: seq<CartLine>, carts: map<int, int>, items: map<int, CartItem>,
                            products: map<int, Product>, user: int)
  {
    && Distinct(lines)
    && ItemIds(lines) == JoinedIds(carts, items, products, user)
    && forall k :: 0 <= k < |lines| ==>
         lines[k].itemId in items && items[lines[k].itemId].productId in products
         && lines[k] == JoinLine(items, products, lines[k].itemId)
  }

  /** Sum of quantity * price over the rows. */
  function LinesTotal(lines: seq<CartLine>): int
  {
    if lines == [] then 0 else LinesTotal(lines[..|lines| - 1]) + lines[|lines| - 1].quantity * lines[|lines| - 1].price
  }

  /** The query is empty exactly when the user has no joined cart line. */
  lemma EmptyListing(lines: seq<CartLine>, carts: map<int, int>, items: map<int, CartItem>,
                     products: map<int, Product>, user: int)
    requires ListsCart(lines, carts, items, products, user)
    ensures lines == [] <==> JoinedIds(carts, items, products, user) == {}
  {
    if lines != [] {
      assert lines[|lines| - 1].itemId in ItemIds(lines);
    }
  }

  /** Whatever order the rows come back in, their total is the sum of
      quantity * price over the joined cart lines. */
  lemma {:induction false} ListedTotal(lines: seq<CartLine>, carts: map<int, int>, items: map<int, CartItem>,
                                       products: map<int, Product>, user: int)
    requires ListsCart(lines, carts, items, products, user)
    ensures LinesTotal(lines) == SumOver(JoinedIds(carts, items, products, user), Amount(items, products))
  {
    PrefixTotal(lines, items, products);
  }

  lemma {:induction false} PrefixTotal(lines: seq<CartLine>, items: map<int, CartItem>, products: map<int, Product>)
    requires Distinct(lines)
    requires forall k :: 0 <= k < |lines| ==>
               lines[k].itemId in items && items[lines[k].itemId].productId in products
               && lines[k] == JoinLine(items, products, lines[k].itemId)
    ensures LinesTotal(lines) == SumOver(ItemIds(lines), Amount(items, products))
    decreases |lines|
  {
    if lines != [] {
      var n := |lines| - 1;
      var init := lines[..n];
      assert forall k :: 0 <= k < |init| ==> init[k] == lines[k];
      PrefixTotal(init, items, products);
      var last := lines[n];
      SumOverRemove(ItemIds(lines), Amount(items, products), last.itemId);
      assert ItemIds(lines) - {last.itemId} == ItemIds(init);
    }
  }

  /** fetchAll() on the cart query: collects the joined rows one at a time. */
  method FetchCart(st: Store, user: int) returns (lines: seq<CartLine>)
    ensures ListsCart(lines, st.carts, st.cartItems, st.products, user)
  {
    var ids := JoinedIds(st.carts, st.cartItems, st.products, user);
    var todo := ids;
    lines := [];
    while todo != {}
      invariant todo <= ids
      invariant forall i :: i in todo ==> i in st.cartItems && st.cartItems[i].productId in st.products
      invariant Distinct(lines)
      invariant ItemIds(lines) == ids - todo
      invariant forall k :: 0 <= k < |lines| ==>
                  lines[k].itemId in st.cartItems && st.cartItems[lines[k].itemId].productId in st.products
                  && lines[k] == JoinLine(st.cartItems, st.products, lines[k].itemId)
      decreases todo
    {
      HasMember(todo);
      var i :| i in todo;
      var line := JoinLine(st.cartItems, st.products, i);
      assert (lines + [line])[..|lines|] == lines;
      lines := lines + [line];
      todo := todo - {i};
    }
  }

  /** The page's foreach: total += quantity * price for every row. */
  method SumLines(lines: seq<CartLine>) returns (total: int)
    ensures total == LinesTotal(lines)
  {
    total := 0;
    var k := 0;
    while k < |lines|
      invariant 0 <= k <= |lines|
      invariant total == LinesTotal(lines[..k])
    {
      assert lines[..k + 1][..k] == lines[..k];
      total := total + lines[k].quantity * lines[k].price;
      k := k + 1;
    }
    assert lines[..k] == lines;
  }
}
