/** The cart page: the POST that updates the quantity of, or removes, one
    cart line, guarded by a join that checks the line is in the user's cart;
    and the live total shown under the listing. */
module CartPage {
  import opened Sums
  import opened Db
  import opened CartLines

  /** The `action` field of the form; any other value does nothing. */
  datatype CartAction = Update(quantity: int) | Remove | Other

  /** The ownership check: the line exists and its cart belongs to `user`. */
  predicate Owns(carts: map<int, int>, items: map<int, CartItem>, user: int, itemId: int)
  {
    itemId in items && InUserCart(carts, items[itemId], user)
  }

  /** POST action for cart line `itemId` by the logged-in `user`. */
  method ChangeLine(st: Store, user: int, itemId: int, action: CartAction) returns (r: Result<()>)
    requires st.Valid()
    modifies st`cartItems
    ensures st.Valid()
    // a line outside the user's cart is refused, whatever the action
    ensures !Owns(st.carts, old(st.cartItems), user, itemId) ==>
              r == Err(NotOwner) && st.cartItems == old(st.cartItems)
    ensures Owns(st.carts, old(st.cartItems), user, itemId) ==>
              match action
              case Update(q) =>
                if q > 0 then
                  r == Ok(()) && st.cartItems == old(st.cartItems)[itemId := old(st.cartItems)[itemId].(quantity := q)]
                else
                  r == Err(InvalidQuantity) && st.cartItems == old(st.cartItems)
              case Remove => r == Ok(()) && st.cartItems == old(st.cartItems) - {itemId}
              case Other => r == Ok(()) && st.cartItems == old(st.cartItems)
  {
    if Owns(st.carts, st.cartItems, user, itemId) {
      match action {
        case Update(q) =>
          if q > 0 {
            st.cartItems := st.cartItems[itemId := st.cartItems[itemId].(quantity := q)];
            r := Ok(());
          } else {
            r := Err(InvalidQuantity);
          }
        case Remove =>
          st.cartItems := st.cartItems - {itemId};
          r := Ok(());
        case Other =>
          r := Ok(());
      }
    } else {
      r := Err(NotOwner);
    }
  }

  /** Removing a line twice: the second request fails the ownership check and
      leaves the store as the first left it. */
  method RemoveTwice(st: Store, user: int, itemId: int) returns (first: Result<()>, second: Result<()>)
    requires st.Valid()
    modifies st`cartItems
    ensures st.Valid()
    ensures second == Err(NotOwner)
    ensures first.Ok? <==> Owns(st.carts, old(st.cartItems), user, itemId)
    ensures st.cartItems == if first.Ok? then old(st.cartItems) - {itemId} else old(st.cartItems)
  {
    first := ChangeLine(st, user, itemId, Remove);
    second := ChangeLine(st, user, itemId, Remove);
  }

  /** The listing and total shown on the page: quantity * current price summed
      over the user's cart lines whose product still exists. */
  method CartTotal(st: Store, user: int) returns (lines: seq<CartLine>, total: int)
    ensures ListsCart(lines, st.carts, st.cartItems, st.products, user)
    ensures total == SumOver(JoinedIds(st.carts, st.cartItems, st.products, user), Amount(st.cartItems, st.products))
  {
    lines := FetchCart(st, user);
    total := SumLines(lines);
    ListedTotal(lines, st.carts, st.cartItems, st.products, user);
  }
}
