/** The admin product page: add, edit and delete a product. Name and image URL
    are trimmed; the ids arrive through intval and the price, here in cents,
    through floatval. Nothing checks that the category exists. */
module ProductAdmin {
  import opened Db
  import opened Text

  /** The "required fields" test, on the trimmed name: the name must not be
      PHP-empty ("" or "0"), the category id must be positive, and the price
      must not be PHP-empty, which only rejects a zero price, so a negative
      one is accepted. */
  predicate FieldsFilled(name: string, categoryId: int, price: int)
  {
    !Empty(name) && price != 0 && categoryId > 0
  }

  /** The row the form's fields describe. */
  function FormProduct(productName: string, categoryId: int, price: int, imageUrl: string): Product
  {
    Product(Trim(productName), categoryId, price, Trim(imageUrl))
  }

  /** The edit form shows the stored row's values; since a row the form
      wrote is already trimmed, submitting them as shown writes that row back
      unchanged. */
  lemma EditFormResubmit(productName: string, categoryId: int, price: int, imageUrl: string)
    ensures var p := FormProduct(productName, categoryId, price, imageUrl);
            FormProduct(p.name, p.categoryId, p.price, p.imageUrl) == p
  {
    TrimIdempotent(productName);
    TrimIdempotent(imageUrl);
  }

  /** POST add_product. */
  method AddProduct(st: Store, productName: string, categoryId: int, price: int, imageUrl: string)
    returns (r: Result<int>)
    requires st.Valid()
    modifies st`products, st`nextProductId
    ensures st.Valid()
    ensures r.Ok? <==> FieldsFilled(Trim(productName), categoryId, price)
    ensures !r.Ok? ==>
              r == Err(InvalidInput) && st.products == old(st.products)
              && st.nextProductId == old(st.nextProductId)
    ensures r.Ok? ==>
              r.value == old(st.nextProductId) && r.value !in old(st.products)
              && st.products == old(st.products)[r.value := FormProduct(productName, categoryId, price, imageUrl)]
              && st.nextProductId == r.value + 1
  {
    var name := Trim(productName);
    if !FieldsFilled(name, categoryId, price) {
      return Err(InvalidInput);
    }
    var id := st.nextProductId;
    st.products := st.products[id := Product(name, categoryId, price, Trim(imageUrl))];
    st.nextProductId := id + 1;
    r := Ok(id);
  }

  /** POST update_product: every column of the one row is overwritten; an
      unknown id matches no row and still reports success. */
  method UpdateProduct(st: Store, productId: int, productName: string, categoryId: int, price: int, imageUrl: string)
    returns (r: Result<()>)
    requires st.Valid()
    modifies st`products
    ensures st.Valid()
    ensures r.Ok? <==> FieldsFilled(Trim(productName), categoryId, price) && productId > 0
    ensures !r.Ok? ==> r == Err(InvalidInput) && st.products == old(st.products)
    ensures r.Ok? && productId in old(st.products) ==>
              st.products == old(st.products)[productId := FormProduct(productName, categoryId, price, imageUrl)]
    ensures r.Ok? && productId !in old(st.products) ==> st.products == old(st.products)
  {
    var name := Trim(productName);
    if !FieldsFilled(name, categoryId, price) || productId <= 0 {
      return Err(InvalidInput);
    }
    if productId in st.products {
      st.products := st.products[productId := Product(name, categoryId, price, Trim(imageUrl))];
    }
    r := Ok(());
  }

  /** POST delete_product. */
  method DeleteProduct(st: Store, productId: int) returns (r: Result<()>)
    requires st.Valid()
    modifies st`products
    ensures st.Valid()
    ensures r.Ok? <==> productId > 0
    ensures !r.Ok? ==> r == Err(InvalidId) && st.products == old(st.products)
    ensures r.Ok? ==> st.products == old(st.products) - {productId}
  {
    if productId <= 0 {
      return Err(InvalidId);
    }
    st.products := st.products - {productId};
    r := Ok(());
  }

  /** Deleting the product just added gives the catalogue back as it was.
      When the add is refused no delete is sent: `deleted` is None. */
  method AddThenDelete(st: Store, productName: string, categoryId: int, price: int, imageUrl: string)
    returns (added: Result<int>, deleted: Option<Result<()>>)
    requires st.Valid()
    modifies st`products, st`nextProductId
    ensures st.Valid()
    ensures deleted.Some? <==> added.Ok?
    ensures added.Ok? ==> deleted.Some? && deleted.value.Ok? && st.products == old(st.products)
    // a refused add leaves the table alone
    ensures !added.Ok? ==> st.products == old(st.products)
  {
    assert Issued(st.products.Keys, st.nextProductId);
    added := AddProduct(st, productName, categoryId, price, imageUrl);
    deleted := None;
    if added.Ok? {
      ghost var before := old(st.products);
      var r := DeleteProduct(st, added.value);
      deleted := Some(r);
      assert st.products == before;
    }
  }
}
