# Storefront request handlers in Dafny

This project models the request handlers of a small PHP storefront: a shop
with per-user carts, a checkout that turns a cart into a paid order, and an
admin back office for orders, categories and products, plus user
registration. Each handler is a sequential update of a relational store.

The store is the class `Db.Store` (`store.dfy`). It holds one map per table,
keyed by the table's AUTO_INCREMENT id:
- carts, cart_items, products, categories, orders and users;
- order_details as a sequence of rows;
- one counter per generated key.

`Store.Valid()` collects the integrity facts every handler keeps:
- every key is below its counter;
- no user owns two carts;
- every cart line's cart exists;
- a product appears at most once in a cart;
- every cart quantity is at least 1;
- every detail row belongs to an existing order;
- **the frozen-price invariant:** every order's total equals the sum of quantity × price_each over its own detail rows;
- e-mails are unique, and category names are unique.

Each page is a module. Each POST handler is a method. It takes the store and the
request's fields as parameters and returns the handler's outcome: a `Result` for most,
a pair of the cart and an `AddOutcome` for adding to the cart, and an
`Option<Result<()>>` for the order delete, whose `None` is a request ignored
outright. It has a `modifies` frame
naming only the tables it writes, and `ensures` clauses stating the new contents
of those tables as functions of the old ones.

The main modules:
- **Sums** (`sums.dfy`): SQL `SUM` over the rows a query selects is `SumOver`, a sum over a finite set of row ids. It does not depend on the order in which rows come back.
- **CartLines** (`cart_lines.dfy`): the cart query has no `ORDER BY`. `ListsCart` therefore calls any duplicate-free listing of the joined rows a correct answer.
- **Checkout** (`checkout.dfy`): a statement that throws is modelled by an explicit `failAt` index. The catch block restores the pre-transaction tables.
- **Text** (`text.dfy`): PHP's `trim` (default character list) and `empty` (`""` and `"0"`).

Prices and totals are integer cents.

## Model

| member | source | states |
|---|---|---|
| Checkout.PlaceOrder | order.php:14-70 | An empty joined cart gives EmptyCart and no write. If any statement throws, orders, order_details and cart_items keep their old contents. On commit: one new `paid` order of the user, whose total is Σ quantity × current price over the joined cart lines; one detail row per listed line at the price read; the order's detail rows add up to its total; the user's cart lines are all gone (orphaned ones included), other carts untouched; the store invariants hold. |
| Checkout.CommitOrder | order.php:37-70 | The transaction for rows already read: success iff no statement throws; on success the order, the appended detail rows and the cleared cart; on failure the three tables as before and the order counter advanced only if the order INSERT ran. |
| Checkout.Writes | order.php:41-59 | The statements run in order up to the one that throws; fails iff some numbered statement throws; without a failure, the order, the detail rows and the cart DELETE are all applied. The counter moves iff the order INSERT ran. |
| Checkout.InsertDetails | order.php:48-51 | The foreach appends one detail row per cart row, stopping at the INSERT that throws, which leaves the rows before it. |
| Checkout.PlaceOrderTwice | order.php:25-57 | A second checkout right after the first finds an empty cart and is refused with EmptyCart. When the first commits, the orders table ends as before plus exactly one new paid order of the user, so the double submit creates one order. When the first is refused, orders, order_details and cart_items are unchanged. |
| Checkout.DetailsOf | order.php:48-51 | One detail row per cart row, in order, with product id, quantity and price copied. |
| Checkout.DetailsOfTotal | order.php:48-51 | The copied rows add up, for the new order, to exactly the cart total. |
| Checkout.CommitKeepsTotals | order.php:43-51 | Adding the order with its detail rows keeps every order's total equal to its details' sum. |
| Checkout.UserCart | order.php:55 | The subquery finds a cart exactly when the user has one; with one cart per user its single row is that cart, and no other cart belongs to the user. |
| Checkout.WithoutUserLines | order.php:54-57 | Defines the cart DELETE as written: the lines of the cart the subquery names go, and none go when it names none. Its meaning is stated by Checkout.WithoutUserLinesJoin. |
| Checkout.WithoutUserLinesJoin | order.php:15-57 | With one cart per user, the DELETE removes exactly the user's cart lines as the join of cart_items with carts selects them (LineIds), including lines whose product is gone, which the checkout did not read; every other row is kept unchanged, and the user is left no cart line. |
| Checkout.RollBack | order.php:64-65 | rollBack() restores the three tables the transaction writes. |
| CartLines.FetchCart | order.php:15-23 | The rows fetched are one listing of the user's cart lines whose product exists, each with the product's current price. |
| CartLines.JoinedIds | order.php:15-21 | Defines the inner join: the user's cart lines whose product row exists. Used by CartLines.ListsCart and the totals. |
| CartLines.JoinDropsNothing | order.php:15-21 | The join keeps a subset of the user's lines, what it drops are lines whose product is gone, and those add nothing to the total. |
| CartLines.EmptyListing | order.php:25-29 | The query is empty iff the user has no joined cart line. |
| CartLines.SumLines | order.php:32-34 | The foreach computes Σ quantity × price over the rows. |
| CartLines.ListedTotal | order.php:32-34 | Whatever the row order, that sum equals the set sum of quantity × current price over the joined lines. |
| CartPage.Owns | cart.php:19-25 | Defines the ownership check: the line exists and its cart belongs to the user. CartPage.ChangeLine refuses with NotOwner exactly when it fails. |
| CartPage.ChangeLine | cart.php:14-43 | A line outside the user's cart: NotOwner, nothing changes. An update with quantity ≤ 0: InvalidQuantity, nothing changes. An update with quantity > 0 sets that line's quantity only. A remove deletes that line only. Any other action does nothing. Quantities stay ≥ 1. |
| CartPage.RemoveTwice | cart.php:25-42 | Removing a line twice leaves the store as one removal does; the second request fails the ownership check. |
| CartPage.CartTotal | cart.php:45-59 | The total shown is Σ quantity × current price over the user's joined cart lines. |
| Storefront.AddToCart | index.php:14-48 | Afterwards the user has exactly one cart, new only if there was none. An existing line for the product goes up by exactly 1; otherwise one new line with quantity 1 is inserted. No other line changes. (cart, product) pairs stay unique. The badge count rises by exactly 1. |
| Storefront.FindOrCreateCart | index.php:18-29 | Returns the user's only cart, creating it with the next id only when the user had none, without changing the count. |
| Storefront.AddLine | index.php:31-47 | Increment-or-insert on the given cart, with the resulting rows and a count one higher. |
| Storefront.IncrementLine | index.php:36-40 | The UPDATE raises exactly that line's quantity by 1, keeps the cart invariants and raises the count by 1. |
| Storefront.InsertLine | index.php:42-45 | The INSERT adds exactly one line (cart, product, 1) under the next id, keeps the cart invariants and raises the count by 1. |
| Storefront.HasLine | index.php:32-36 | Defines the lookup of the product's line in the cart. Storefront.AddLine increments when it holds and inserts otherwise. |
| Storefront.CartItemCount | index.php:50-62 | The badge is SUM(quantity) over the user's cart lines, 0 when there are none. |
| Storefront.CountAfterInsert | index.php:42-45 | A new line in the user's cart adds its quantity to the count. |
| Storefront.CountAfterIncrement | index.php:36-40 | Raising one of the user's lines by 1 raises the count by 1. |
| Storefront.CountOfNewCart | index.php:24-29 | A new cart holds no lines, so the count is 0. |
| Storefront.InsertKeepsLines | index.php:42-45 | Inserting a product not yet in the cart keeps the cart invariants. |
| Storefront.IncrementKeepsLines | index.php:36-40 | Raising a quantity keeps the cart invariants. |
| Db.LineIds | index.php:52-57 | Defines the join of cart_items with carts on the user's carts, which Db.ItemCount sums over. |
| Db.LineIdsOfCart | index.php:52-57 | With one cart per user the join selects exactly the lines of the user's cart, and nothing for a user without a cart. |
| Db.Store.Valid | order.php:41-59 | The integrity facts every handler's contract keeps, listed above, among them the frozen-price invariant the checkout transaction establishes; each handler requires and ensures it. |
| Db.WithoutOrder | admin/order_management.php:44-45 | Deleting an order's detail rows keeps exactly the other rows. |
| Db.WithoutOrderTotal | admin/order_management.php:44-49 | After that delete the order's detail sum is 0 and every other order's is unchanged. |
| OrderAdmin.StatusName | admin/order_management.php:12 | Every status is stored as one of the five accepted names. |
| OrderAdmin.ParseStatus | admin/order_management.php:19 | A status is accepted iff it is one of the five names, and is read back as the status with that name. |
| OrderAdmin.ParseStatusName | admin/order_management.php:12-19 | Every stored name is accepted as its own status. |
| OrderAdmin.Truthy | admin/order_management.php:19-39 | Defines the truthiness test of the validated id: present and not 0. OrderAdmin.DeleteOrder ignores the request exactly when it fails; OrderAdmin.UpdateStatus refuses with InvalidInput when it fails (and also for a status outside the five). |
| OrderAdmin.UpdateStatus | admin/order_management.php:14-33 | A missing, non-integer or zero id, or a status outside the five, is refused with no change. A throwing UPDATE changes nothing. Otherwise only that order's status changes, to any of the five with no transition rule; an unknown id changes nothing and still reports success. |
| OrderAdmin.DeleteKeepsTotals | admin/order_management.php:44-49 | Removing an order with its rows keeps the order invariants. |
| OrderAdmin.DeleteOrder | admin/order_management.php:35-60 | No effect for an id that is not truthy. If any statement throws, both tables are as before. Otherwise the order and exactly its detail rows go, and every other row stays in order. |
| Pagination.CurrentPage | admin/order_management.php:63 | The page is the requested one when it is at least 1, otherwise 1. |
| Pagination.Offset | admin/order_management.php:65 | The offset is a non-negative multiple of 10 addressing page − 1. |
| Pagination.TotalPages | admin/order_management.php:70 | The page count is the ceiling of count / 10: 0 only for no orders, enough pages for all, none empty. |
| Pagination.RowOnOnePage | admin/order_management.php:63-70 | Every order row is on exactly one page, and that page is within the page count. |
| Pagination.PageLinks | admin/order_management.php:429 | At most 5 links, consecutive, within [1, total pages] and within 2 of the page. Every page of that window is listed. The page itself is listed iff it exists. |
| Pagination.NavFor | admin/order_management.php:422-436 | The block shows iff there is more than one page; Previous iff the page is past the first; Next iff it is before the last. On an existing page a shown block offers at least one of the two links, and every link shown leads to an existing page. |
| CategoryAdmin.AddCategory | admin/category.php:13-35 | A trimmed-empty name is refused with no change. A name already present, or any INSERT error, is reported as a duplicate, with no row added. A duplicate uses up the next id; another INSERT error does not. Otherwise exactly one category with the trimmed name is inserted under the next id. Names stay unique. |
| CategoryAdmin.DeleteCategory | admin/category.php:37-70 | An id ≤ 0 is refused. A category any product uses is refused. A storage error changes nothing. Otherwise only that category is removed. |
| CategoryAdmin.UpdateCategory | admin/category.php:72-100 | An id ≤ 0 or a trimmed-empty name is refused. A name another category holds is refused. A storage error changes nothing. An unknown id succeeds without change. Otherwise only that category's name changes. Names stay unique. |
| CategoryAdmin.ProductsIn | admin/category.php:44-47 | Defines the products the delete handler counts: those filed under the category. |
| CategoryAdmin.ProductCount | admin/category.php:44-47 | Defines the COUNT; CategoryAdmin.ProductCountPositive states what a positive count means, and CategoryAdmin.DeleteCategory refuses on it. |
| CategoryAdmin.NameTaken | admin/category.php:79-90 | Defines the clash the UNIQUE constraint reports with error 23000: another category holds the name. CategoryAdmin.UpdateCategory refuses on it. |
| CategoryAdmin.ProductCountPositive | admin/category.php:44-49 | COUNT(*) > 0 iff some product uses the category. |
| ProductAdmin.FieldsFilled | admin/product.php:22-42 | Defines the "required fields" test: a name other than "" and "0", a non-zero price (negative prices pass) and a positive category id. ProductAdmin.AddProduct succeeds exactly when it holds; ProductAdmin.UpdateProduct exactly when it holds and the product id is positive. |
| ProductAdmin.FormProduct | admin/product.php:17-20 | Defines the row the form writes, with trimmed name and image URL. |
| ProductAdmin.EditFormResubmit | admin/product.php:279-303 | Submitting the edit form with the values it shows for a row the form wrote writes that same row back. |
| ProductAdmin.AddProduct | admin/product.php:16-34 | Refused with no change unless the fields are filled. Otherwise exactly one product row from the form is inserted under the next id. |
| ProductAdmin.UpdateProduct | admin/product.php:35-54 | The same test plus product id > 0. Otherwise only the target row is overwritten; an unknown id changes nothing. |
| ProductAdmin.DeleteProduct | admin/product.php:55-71 | An id ≤ 0 is refused; otherwise only that product is removed. |
| ProductAdmin.AddThenDelete | admin/product.php:26-64 | Deleting the product just added succeeds and gives the products table back; a refused add sends no delete and leaves the table unchanged. |
| Registration.InputsValid | auth/register.php:20 | Defines the validation test on the trimmed name and e-mail: no PHP-empty field, matching passwords, an e-mail the validator accepts, and a password of at least 6 characters. Registration.Register refuses with InvalidInput exactly when it fails; an input that passes can still be refused as a registered e-mail. |
| Registration.UsersWithEmail | auth/register.php:24 | Defines the rows of the e-mail lookup; Registration.RowCountMeansTaken states what one row means. |
| Registration.RowCountMeansTaken | auth/register.php:24-28 | With unique e-mails, `rowCount() == 1` iff the e-mail is already registered. |
| Registration.Register | auth/register.php:13-51 | Name and e-mail are trimmed; the password is not. Invalid inputs are refused (an empty field, mismatched passwords, a bad e-mail, or a password under 6 characters). A registered e-mail is refused. No rejection adds a user. Success inserts exactly one user with the trimmed name and e-mail and hash(password). E-mails stay unique. |
| Registration.RegisterTwice | auth/register.php:24-39 | A second registration with the same e-mail is refused and adds no row. |
| Text.LeadingRun | admin/category.php:15 | Measures the leading run of trim characters: every character before it is one, the next is not. |
| Text.TrailingRun | admin/category.php:15 | Measures the trailing run of trim characters: every character after it is one, the previous is not. |
| Text.Trim | admin/category.php:15 | The result is the infix of the input left after removing whitespace-only runs at both ends; it neither starts nor ends with a trim character. |
| Text.Empty | admin/category.php:16 | Defines PHP's `empty` on a string: "" and "0". The product, category and registration checks are built from it. |
| Text.TrimIdempotent | auth/register.php:14-15 | Trimming a trimmed value changes nothing. |

## Left out

- HTML, CSS and JavaScript rendering (including the order-details modal and `get_order_details.php`, which is not part of this model), messages, `number_format`/`date` formatting: handlers return an outcome value instead of text.
- Sessions, login checks and `header()` redirects: the logged-in user id is a parameter.
- `include/config.php` (PDO connection and session start) is I/O and is not part of this model; `admin/dashboard.php` only runs read-only queries (three COUNTs and a recent-users list).
- The SQL engine: tables are maps, joins are set comprehensions, a transaction is all-or-nothing driven by an explicit failure index or flag.
- Concurrency and isolation between requests, including the cart being read outside the checkout transaction: only the sequential double submit is stated.
- Floating point: `floatval` prices and the `+=` total are integer cents.
- `password_hash` and `filter_var(..., FILTER_VALIDATE_EMAIL)` are function parameters with no properties; the salt randomness of the hash is not modelled.
- `FILTER_SANITIZE_STRING` on the status field: the status string is taken as it arrives after sanitising.
- `intval` and `FILTER_VALIDATE_INT` parsing: ids and the cart quantity (cart.php:27) arrive as integers, or as `None` where the validation can fail. Integer columns are unbounded: an INT overflow, for instance of `quantity + 1` when adding to the cart, is not modelled.
- MySQL collation (case- and trailing-space-insensitive comparison of names and e-mails) and foreign-key constraints: comparisons are exact, and deleting a product or an order is not checked against rows that reference it.
- Exceptions from statements outside any `try` block: every statement of the cart, storefront, product and registration pages, and the checkout's cart read before its transaction. With PDO in exception mode such a statement aborts the request, and this is not modelled.
- Registration.RowCountMeansTaken: stated only under unique e-mails, which the store invariant keeps. With two rows for one e-mail, `rowCount() == 1` would let a third registration through.
- Checkout.PlaceOrder: the AUTO_INCREMENT counter of orders is not restored by a rollback (InnoDB behaviour). The model keeps this: `nextOrderId` advances on a rolled-back order INSERT, so order ids can have gaps. Nothing beyond that is stated about the id sequence.
- AUTO_INCREMENT values, one rule throughout: an INSERT that writes its row, or is refused by a duplicate key, uses up its id, even if it is later rolled back. An INSERT that throws for any other reason uses up none. That is why an order INSERT that throws (Checkout.CommitOrder with failAt 0) and a category INSERT failing for a reason other than a duplicate leave the counter alone, while a duplicate category name advances it. InnoDB's actual behaviour for other errors depends on where the statement fails and on its lock mode; this is not modelled.
- Strings are sequences of characters: `strlen` counts bytes, the password length here counts characters.

Behaviour of the code worth knowing:
- Adding a product to the cart does not check that the product exists.
- Removing an already-removed cart line fails the ownership check ("Invalid request") instead of succeeding silently.
- Checkout does not re-check the cart inside the transaction. A line whose product was deleted is left out of the total and of the detail rows, but is still deleted from the cart, and no error is raised.
