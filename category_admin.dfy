/** The admin category page: add, delete and rename a category. Names are
    trimmed and must not be PHP-empty; the UNIQUE constraint on
    category_name refuses a name another category holds; a category still
    used by a product is not deleted. `category_id` arrives through intval. */
module CategoryAdmin {
  import opened Db
  import opened Text

  /** The ids of the products filed under category `id`. */
  function ProductsIn(products: map<int, Product>, id: int): set<int>
  {
    set p | p in products && products[p].categoryId == id
  }

  /** The number of products the delete handler's COUNT query finds under the category. */
  function ProductCount(products: map<int, Product>, id: int): nat
  {
    |ProductsIn(products, id)|
  }

  /** The count is positive exactly when some product uses the category. */
  lemma ProductCountPositive(products: map<int, Product>, id: int)
    ensures ProductCount(products, id) > 0 <==> exists p :: p in products && products[p].categoryId == id
  {
    if exists p :: p in products && products[p].categoryId == id {
      var p :| p in products && products[p].categoryId == id;
      assert p in ProductsIn(products, id);
    }
  }

  /** Some category other than `id` is called `name`. */
  predicate NameTaken(categories: map<int, string>, name: string, id: int)
  {
    exists c :: c in categories && c != id && categories[c] == name
  }

  /** POST add_category. A duplicate name makes the INSERT throw, and so
      does any other storage error (`fails`); the page reports every such
      exception as a duplicate name. A duplicate is detected only after the
      row drew its AUTO_INCREMENT value, which is not given back; an INSERT
      failing for another reason draws none. */
  method AddCategory(st: Store, categoryName: string, fails: bool) returns (r: Result<int>)
    requires st.Valid()
    modifies st`categories, st`nextCategoryId
    ensures st.Valid()
    ensures Empty(Trim(categoryName)) ==>
              r == Err(InvalidInput) && st.categories == old(st.categories)
              && st.nextCategoryId == old(st.nextCategoryId)
    ensures !Empty(Trim(categoryName)) && fails ==>
              r == Err(DuplicateName) && st.categories == old(st.categories)
              && st.nextCategoryId == old(st.nextCategoryId)
    ensures !Empty(Trim(categoryName)) && !fails && Trim(categoryName) in old(st.categories).Values ==>
              r == Err(DuplicateName) && st.categories == old(st.categories)
              && st.nextCategoryId == old(st.nextCategoryId) + 1
    ensures r.Ok? <==> !Empty(Trim(categoryName)) && !fails && Trim(categoryName) !in old(st.categories).Values
    ensures r.Ok? ==>
              r.value == old(st.nextCategoryId) && r.value !in old(st.categories)
              && st.categories == old(st.categories)[r.value := Trim(categoryName)]
              && st.nextCategoryId == r.value + 1
  {
    var name := Trim(categoryName);
    if Empty(name) {
      return Err(InvalidInput);
    }
    if fails {
      return Err(DuplicateName);
    }
    var id := st.nextCategoryId;
    st.nextCategoryId := id + 1;
    if name in st.categories.Values {
      return Err(DuplicateName);
    }
    st.categories := st.categories[id := name];
    r := Ok(id);
  }

  /** POST delete_category. `fails` says that the COUNT query or the DELETE
      throws, which changes no row. */
  method DeleteCategory(st: Store, categoryId: int, fails: bool) returns (r: Result<()>)
    requires st.Valid()
    modifies st`categories
    ensures st.Valid()
    ensures categoryId <= 0 ==> r == Err(InvalidId)
    ensures categoryId > 0 && fails ==> r == Err(StorageFailure)
    ensures categoryId > 0 && !fails && (exists p :: p in st.products && st.products[p].categoryId == categoryId) ==>
              r == Err(CategoryInUse)
    ensures !r.Ok? ==> st.categories == old(st.categories)
    ensures r.Ok? <==>
              && categoryId > 0 && !fails
              && forall p :: p in st.products ==> st.products[p].categoryId != categoryId
    ensures r.Ok? ==> st.categories == old(st.categories) - {categoryId}
  {
    if categoryId <= 0 {
      return Err(InvalidId);
    }
    if fails {
      return Err(StorageFailure);
    }
    var count := ProductCount(st.products, categoryId);
    ProductCountPositive(st.products, categoryId);
    if count > 0 {
      return Err(CategoryInUse);
    }
    st.categories := st.categories - {categoryId};
    r := Ok(());
  }

  /** POST update_category. The UPDATE matches no row for an unknown id and
      then reports success; renaming a category to its own name is no clash.
      A clash is the constraint error 23000; `fails` says that the UPDATE
      throws some other error, which changes no row. */
  method UpdateCategory(st: Store, categoryId: int, categoryName: string, fails: bool) returns (r: Result<()>)
    requires st.Valid()
    modifies st`categories
    ensures st.Valid()
    ensures categoryId <= 0 || Empty(Trim(categoryName)) ==> r == Err(InvalidInput)
    ensures categoryId > 0 && !Empty(Trim(categoryName)) && fails ==> r == Err(StorageFailure)
    ensures categoryId > 0 && !Empty(Trim(categoryName)) && !fails && categoryId in old(st.categories)
            && NameTaken(old(st.categories), Trim(categoryName), categoryId) ==>
              r == Err(DuplicateName)
    ensures !r.Ok? ==> st.categories == old(st.categories)
    ensures r.Ok? && categoryId !in old(st.categories) ==> st.categories == old(st.categories)
    ensures r.Ok? && categoryId in old(st.categories) ==>
              st.categories == old(st.categories)[categoryId := Trim(categoryName)]
    ensures r.Ok? <==>
              && categoryId > 0 && !Empty(Trim(categoryName)) && !fails
              && (categoryId !in old(st.categories) || !NameTaken(old(st.categories), Trim(categoryName), categoryId))
  {
    var name := Trim(categoryName);
    if categoryId <= 0 || Empty(name) {
      return Err(InvalidInput);
    }
    if fails {
      return Err(StorageFailure);
    }
    if categoryId !in st.categories {
      return Ok(());
    }
    if NameTaken(st.categories, name, categoryId) {
      return Err(DuplicateName);
    }
    st.categories := st.categories[categoryId := name];
    r := Ok(());
  }
}
