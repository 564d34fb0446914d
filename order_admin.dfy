/** The admin order page: the status setter, which only accepts the five
    status names, and the transactional delete of an order with its detail
    rows. `order_id` comes through FILTER_VALIDATE_INT: None stands for a
    missing or non-integer field, and the handlers go on only for a truthy
    id, that is, one that is present and not 0. */
module OrderAdmin {
  import opened Db

  /** The accepted values of the status field, in the page's order. */
  const Statuses: seq<string> := ["pending", "paid", "shipped", "delivered", "cancelled"]

  /** The column value stored for a status. */
  function StatusName(s: OrderStatus): (name: string)
    ensures name in Statuses
  {
    match s
    case Pending => "pending"
    case Paid => "paid"
    case Shipped => "shipped"
    case Delivered => "delivered"
    case Cancelled => "cancelled"
  }

  /** The membership test of the submitted status in the list of five,
      answering which status it names. */
  function ParseStatus(s: string): (r: Option<OrderStatus>)
    ensures r.Some? <==> s in Statuses
    ensures r.Some? ==> StatusName(r.value) == s
  {
    if s == "pending" then Some(Pending)
    else if s == "paid" then Some(Paid)
    else if s == "shipped" then Some(Shipped)
    else if s == "delivered" then Some(Delivered)
    else if s == "cancelled" then Some(Cancelled)
    else None
  }

  /** Every status the page offers is accepted back as itself. */
  lemma ParseStatusName(s: OrderStatus)
    ensures ParseStatus(StatusName(s)) == Some(s)
  {
  }

  /** The handlers' truthiness test of the validated id: present, an
      integer, and not 0; negative ids pass. */
  predicate Truthy(orderId: Option<int>)
  {
    orderId.Some? && orderId.value != 0
  }

  /** POST update_status. The UPDATE of the order's status matches no row
      for an unknown id, which still reports success. There is
      no transition rule: any status may replace any other. `fails` says that
      the UPDATE throws, which changes no row. */
  method UpdateStatus(st: Store, orderId: Option<int>, status: string, fails: bool) returns (r: Result<()>)
    requires st.Valid()
    modifies st`orders
    ensures st.Valid()
    ensures r.Ok? <==> Truthy(orderId) && status in Statuses && !fails
    ensures !(Truthy(orderId) && status in Statuses) ==> r == Err(InvalidInput)
    ensures Truthy(orderId) && status in Statuses && fails ==> r == Err(StorageFailure)
    ensures !r.Ok? ==> st.orders == old(st.orders)
    ensures r.Ok? && orderId.value in old(st.orders) ==>
              var id := orderId.value;
              st.orders == old(st.orders)[id := old(st.orders)[id].(status := ParseStatus(status).value)]
    ensures r.Ok? && orderId.value !in old(st.orders) ==> st.orders == old(st.orders)
  {
    var parsed := ParseStatus(status);
    if !Truthy(orderId) || parsed.None? {
      r := Err(InvalidInput);
      return;
    }
    if fails {
      r := Err(StorageFailure);
      return;
    }
    var id := orderId.value;
    if id in st.orders {
      st.orders := st.orders[id := st.orders[id].(status := parsed.value)];
    }
    r := Ok(());
  }

  /** Deleting one order and its rows keeps the store's order invariants. */
  lemma DeleteKeepsTotals(orders: map<int, Order>, details: seq<Detail>, id: int)
    requires DetailsOwned(orders, details) && TotalsAgree(orders, details)
    ensures DetailsOwned(orders - {id}, WithoutOrder(details, id))
    ensures TotalsAgree(orders - {id}, WithoutOrder(details, id))
  {
    var rest := WithoutOrder(details, id);
    forall k | 0 <= k < |rest|
      ensures rest[k].orderId in orders - {id}
    {
      assert rest[k] in rest;
      assert rest[k] in details;
    }
    forall o | o in orders - {id}
      ensures (orders - {id})[o].total == DetailsTotal(rest, o)
    {
      WithoutOrderTotal(details, id, o);
    }
  }

  /** With the three statements of the transaction numbered 0 (delete the
      detail rows), 1 (delete the order) and 2 (commit), `failAt` names the
      one that throws; any other value means none does. */
  predicate DeleteFaulted(failAt: int)
  {
    0 <= failAt <= 2
  }

  /** POST delete_order. None: the id is not truthy and the request does
      nothing at all; otherwise the outcome of the transaction. */
  method DeleteOrder(st: Store, orderId: Option<int>, failAt: int) returns (r: Option<Result<()>>)
    requires st.Valid()
    modifies st`orders, st`orderDetails
    ensures st.Valid()
    ensures r.None? <==> !Truthy(orderId)
    ensures r.Some? ==> (r.value.Ok? <==> !DeleteFaulted(failAt))
    ensures r.Some? && !r.value.Ok? ==> r.value == Err(StorageFailure)
    // a refused or rolled-back request leaves both tables as they were
    ensures r != Some(Ok(())) ==> st.orders == old(st.orders) && st.orderDetails == old(st.orderDetails)
    // the order goes, with exactly its own detail rows; the others stay, in order
    ensures r == Some(Ok(())) ==>
              && st.orders == old(st.orders) - {orderId.value}
              && st.orderDetails == WithoutOrder(old(st.orderDetails), orderId.value)
  {
    if !Truthy(orderId) {
      return None;
    }
    var id := orderId.value;
    // beginTransaction()
    var orders0, details0 := st.orders, st.orderDetails;
    DeleteKeepsTotals(orders0, details0, id);
    var failed := failAt == 0;
    if !failed {
      st.orderDetails := WithoutOrder(st.orderDetails, id);
      failed := failAt == 1;
      if !failed {
        st.orders := st.orders - {id};
        failed := failAt == 2;   // commit()
      }
    }
    if failed {
      // catch: rollBack()
      st.orders, st.orderDetails := orders0, details0;
      r := Some(Err(StorageFailure));
    } else {
      r := Some(Ok(()));
    }
  }
}
