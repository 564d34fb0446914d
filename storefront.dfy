/** The storefront page: the "Add to Cart" POST, which finds or creates the
    user's cart and then raises the product's line by one or inserts it with
    quantity 1; and the cart badge, SUM(quantity) over the user's lines. */
module Storefront {
  import opened Sums
  import opened Db

  /** Which of the two writes the request made, on which cart_items row. */
  datatype AddOutcome = QuantityIncreased(itemId: int, quantity: int) | LineAdded(itemId: int)

  /** Some row of cart `cartId` holds product `productId`. */
  predicate HasLine(items: map<int, CartItem>, cartId: int, productId: int)
  {
    exists i :: i in items && items[i].cartId == cartId && items[i].productId == productId
  }

  /** The count shown in the header, 0 when the SUM is NULL. */
  method CartItemCount(st: Store, user: int) returns (n: int)
    ensures n == ItemCount(st.carts, st.cartItems, user)
    ensures LineIds(st.carts, st.cartItems, user) == {} ==> n == 0
  {
    var ids := LineIds(st.carts, st.cartItems, user);
    var w := Quantity(st.cartItems);
    var todo := ids;
    n := 0;
    while todo != {}
      invariant todo <= ids
      invariant n + SumOver(todo, w) == SumOver(ids, w)
      decreases todo
    {
      HasMember(todo);
      var i :| i in todo;
      SumOverRemove(todo, w, i);
      n := n + st.cartItems[i].quantity;
      todo := todo - {i};
    }
  }

  /** A new line in the user's cart adds its quantity to the count. */
  lemma CountAfterInsert(carts: map<int, int>, items: map<int, CartItem>, user: int, j: int, item: CartItem)
    requires j !in items && InUserCart(carts, item, user)
    ensures ItemCount(carts, items[j := item], user) == ItemCount(carts, items, user) + item.quantity
  {
    var items' := items[j := item];
    assert LineIds(carts, items', user) == LineIds(carts, items, user) + {j};
    SumOverInsert(LineIds(carts, items, user), Quantity(items), Quantity(items'), j);
  }

  /** Raising the quantity of one of the user's lines by one raises the count by one. */
  lemma CountAfterIncrement(carts: map<int, int>, items: map<int, CartItem>, user: int, j: int, item: CartItem)
    requires j in items && InUserCart(carts, items[j], user)
    requires item == items[j].(quantity := items[j].quantity + 1)
    ensures ItemCount(carts, items[j := item], user) == ItemCount(carts, items, user) + 1
  {
    var items' := items[j := item];
    assert LineIds(carts, items', user) == LineIds(carts, items, user);
    SumOverBump(LineIds(carts, items, user), Quantity(items), Quantity(items'), j, 1);
  }

  /** A user without a cart has nothing counted, and a new empty cart changes
      nobody's count. */
  lemma CountOfNewCart(carts: map<int, int>, items: map<int, CartItem>, user: int, c: int)
    requires ItemsInCarts(carts, items) && c !in carts && !HasCart(carts, user)
    ensures LineIds(carts[c := user], items, user) == {}
    ensures ItemCount(carts[c := user], items, user) == 0
  {
    forall i | i in items
      ensures !InUserCart(carts[c := user], items[i], user)
    {
      assert items[i].cartId != c;
    }
    assert LineIds(carts[c := user], items, user) == {};
  }

  /** Inserting a line for a product not yet in the cart keeps the cart invariants. */
  lemma InsertKeepsLines(carts: map<int, int>, items: map<int, CartItem>, j: int, item: CartItem)
    requires ItemsInCarts(carts, items) && UniqueLines(items) && PositiveQuantities(items)
    requires j !in items && item.cartId in carts && item.quantity >= 1
    requires !HasLine(items, item.cartId, item.productId)
    ensures ItemsInCarts(carts, items[j := item]) && UniqueLines(items[j := item])
    ensures PositiveQuantities(items[j := item])
  {
  }

  /** Raising a line's quantity keeps the cart invariants. */
  lemma IncrementKeepsLines(carts: map<int, int>, items: map<int, CartItem>, j: int, item: CartItem)
    requires ItemsInCarts(carts, items) && UniqueLines(items) && PositiveQuantities(items)
    requires j in items && item == items[j].(quantity := items[j].quantity + 1)
    ensures ItemsInCarts(carts, items[j := item]) && UniqueLines(items[j := item])
    ensures PositiveQuantities(items[j := item])
  {
  }

  /** The carts table after the cart step: `cartId` is the user's only cart,
      and it was created, with the next id, only when the user had none. */
  ghost predicate CartChosen(carts0: map<int, int>, next0: int, carts: map<int, int>, next: int,
                             user: int, cartId: int)
  {
    && cartId in carts && carts[cartId] == user
    && (forall c :: c in carts && carts[c] == user ==> c == cartId)
    && (HasCart(carts0, user) ==> carts == carts0 && next == next0)
    && (!HasCart(carts0, user) ==>
          cartId == next0 && cartId !in carts0 && carts == carts0[cartId := user] && next == cartId + 1)
  }

  /** cart_items after the line step: the existing line of the product went
      up by exactly one, or, when there was none, one line with quantity 1
      was inserted under the next id; nothing else changed. */
  ghost predicate LineBumped(items0: map<int, CartItem>, next0: int, items: map<int, CartItem>, next: int,
                             cartId: int, productId: int, outcome: AddOutcome)
  {
    && (outcome.QuantityIncreased? <==> HasLine(items0, cartId, productId))
    && (outcome.QuantityIncreased? ==>
          var j := outcome.itemId;
          && j in items0 && items0[j].cartId == cartId && items0[j].productId == productId
          && outcome.quantity == items0[j].quantity + 1
          && items == items0[j := CartItem(cartId, productId, outcome.quantity)]
          && next == next0)
    && (outcome.LineAdded? ==>
          var j := outcome.itemId;
          j == next0 && j !in items0 && items == items0[j := CartItem(cartId, productId, 1)] && next == j + 1)
  }

  /** Step 1: the user's cart, or a new one when the user has none. */
  method FindOrCreateCart(st: Store, user: int) returns (cartId: int)
    requires st.Valid()
    modifies st`carts, st`nextCartId
    ensures st.Valid()
    ensures CartChosen(old(st.carts), old(st.nextCartId), st.carts, st.nextCartId, user, cartId)
    ensures ItemCount(st.carts, st.cartItems, user) == old(ItemCount(st.carts, st.cartItems, user))
  {
    if HasCart(st.carts, user) {
      cartId :| cartId in st.carts && st.carts[cartId] == user;
    } else {
      cartId := st.nextCartId;
      LineIdsOfCart(st.carts, st.cartItems, user);
      CountOfNewCart(st.carts, st.cartItems, user, cartId);
      st.carts := st.carts[cartId := user];
      st.nextCartId := cartId + 1;
    }
  }

  /** The UPDATE branch: line `j` of the user's cart goes up by one. */
  method IncrementLine(st: Store, user: int, j: int) returns (q: int)
    requires st.Valid()
    requires j in st.cartItems && InUserCart(st.carts, st.cartItems[j], user)
    modifies st`cartItems
    ensures st.Valid()
    ensures q == old(st.cartItems[j].quantity) + 1
    ensures st.cartItems == old(st.cartItems)[j := old(st.cartItems[j]).(quantity := q)]
    ensures ItemCount(st.carts, st.cartItems, user) == old(ItemCount(st.carts, st.cartItems, user)) + 1
  {
    var item := st.cartItems[j].(quantity := st.cartItems[j].quantity + 1);
    CountAfterIncrement(st.carts, st.cartItems, user, j, item);
    IncrementKeepsLines(st.carts, st.cartItems, j, item);
    st.cartItems := st.cartItems[j := item];
    q := item.quantity;
  }

  /** The INSERT branch: a new line with quantity 1 for a product not yet in
      cart `cartId` of the user. */
  method InsertLine(st: Store, user: int, cartId: int, productId: int) returns (j: int)
    requires st.Valid()
    requires cartId in st.carts && st.carts[cartId] == user
    requires !HasLine(st.cartItems, cartId, productId)
    modifies st`cartItems, st`nextCartItemId
    ensures st.Valid()
    ensures j == old(st.nextCartItemId) && j !in old(st.cartItems)
    ensures st.cartItems == old(st.cartItems)[j := CartItem(cartId, productId, 1)]
    ensures st.nextCartItemId == j + 1
    ensures ItemCount(st.carts, st.cartItems, user) == old(ItemCount(st.carts, st.cartItems, user)) + 1
  {
    j := st.nextCartItemId;
    var item := CartItem(cartId, productId, 1);
    ghost var items0 := st.cartItems;
    assert Issued(st.cartItems.Keys, j);
    InsertKeepsLines(st.carts, st.cartItems, j, item);
    st.cartItems := st.cartItems[j := item];
    st.nextCartItemId := j + 1;
    assert ItemCount(st.carts, st.cartItems, user) == ItemCount(st.carts, items0, user) + 1 by {
      CountAfterInsert(st.carts, items0, user, j, item);
    }
  }

  /** Step 2: raise the product's line in cart `cartId` by one, or insert it
      with quantity 1. */
  method AddLine(st: Store, user: int, cartId: int, productId: int) returns (outcome: AddOutcome)
    requires st.Valid()
    requires cartId in st.carts && st.carts[cartId] == user
    modifies st`cartItems, st`nextCartItemId
    ensures st.Valid()
    ensures LineBumped(old(st.cartItems), old(st.nextCartItemId), st.cartItems, st.nextCartItemId,
                       cartId, productId, outcome)
    ensures ItemCount(st.carts, st.cartItems, user) == old(ItemCount(st.carts, st.cartItems, user)) + 1
  {
    if HasLine(st.cartItems, cartId, productId) {
      var j :| j in st.cartItems && st.cartItems[j].cartId == cartId && st.cartItems[j].productId == productId;
      var q := IncrementLine(st, user, j);
      outcome := QuantityIncreased(j, q);
    } else {
      var j := InsertLine(st, user, cartId, productId);
      outcome := LineAdded(j);
    }
  }

  /** POST add_to_cart of `productId` by the logged-in `user`. The product id is
      taken as given: nothing checks that it names a product. */
  method AddToCart(st: Store, user: int, productId: int) returns (cartId: int, outcome: AddOutcome)
    requires st.Valid()
    modifies st`carts, st`nextCartId, st`cartItems, st`nextCartItemId
    ensures st.Valid()
    // the user ends with exactly one cart, created only when there was none
    ensures CartChosen(old(st.carts), old(st.nextCartId), st.carts, st.nextCartId, user, cartId)
    // the product's line goes up by exactly one, or is inserted with quantity 1
    ensures LineBumped(old(st.cartItems), old(st.nextCartItemId), st.cartItems, st.nextCartItemId,
                       cartId, productId, outcome)
    // and the badge count goes up by exactly one
    ensures ItemCount(st.carts, st.cartItems, user) == old(ItemCount(st.carts, st.cartItems, user)) + 1
  {
    cartId := FindOrCreateCart(st, user);
    outcome := AddLine(st, user, cartId, productId);
  }
}
