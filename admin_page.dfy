/**
 * The admin dashboard: the list of all orders with its revenue and pending
 * figures, the status filter, and the in-place status change after the
 * update call succeeds. Totals arrive as decimal strings and are read with
 * `parse` (parseFloat).
 */
module AdminPage {
  import opened Wrappers
  import opened Schema
  import Listing
  import CartContext

  /** An order as the dashboard receives it: the status and the total are strings. */
  datatype AdminOrder = AdminOrder(id: Id, status: string, total: string)

  /** What loadData fetches at once. */
  datatype AdminData = AdminData(orders: seq<AdminOrder>, products: seq<CartContext.ShopProduct>, categories: seq<Category>)

  const HOME_PATH := "/"
  const SHOWN_ORDERS := 10
  const SHOWN_PRODUCTS := 5

  predicate Counted(o: AdminOrder)
  {
    o.status != StatusName(CANCELLED)
  }

  predicate Cancelled(o: AdminOrder)
  {
    o.status == StatusName(CANCELLED)
  }

  predicate Pending(o: AdminOrder)
  {
    o.status == StatusName(PENDING)
  }

  predicate NotPending(o: AdminOrder)
  {
    o.status != StatusName(PENDING)
  }

  /** `reduce((sum, order) => sum + parseFloat(order.total), 0)`. */
  function SumTotals(orders: seq<AdminOrder>, parse: string -> real): real
  {
    if orders == [] then 0.0
    else SumTotals(orders[..|orders| - 1], parse) + parse(orders[|orders| - 1].total)
  }

  /** totalRevenue: the totals of the orders that are not cancelled, summed. */
  function TotalRevenue(orders: seq<AdminOrder>, parse: string -> real): real
  {
    SumTotals(Listing.Filter(orders, Counted), parse)
  }

  /** The totals of the cancelled orders, summed: what totalRevenue leaves out. */
  function CancelledTotal(orders: seq<AdminOrder>, parse: string -> real): real
  {
    SumTotals(Listing.Filter(orders, Cancelled), parse)
  }

  /** One more order adds its total to a filtered sum exactly when it passes the filter. */
  lemma FilteredSumStep(s: seq<AdminOrder>, o: AdminOrder, p: AdminOrder -> bool, parse: string -> real)
    ensures SumTotals(Listing.Filter(s + [o], p), parse) ==
              SumTotals(Listing.Filter(s, p), parse) + (if p(o) then parse(o.total) else 0.0)
  {
    var f := Listing.Filter(s, p);
    assert (s + [o])[..|s|] == s;
    assert Listing.Filter(s + [o], p) == f + (if p(o) then [o] else []);
    if p(o) {
      assert (f + [o])[..|f|] == f;
    } else {
      assert f + [] == f;
    }
  }

  /** One more order adds its total to the revenue exactly when it is not cancelled. */
  lemma RevenueStep(s: seq<AdminOrder>, o: AdminOrder, parse: string -> real)
    ensures TotalRevenue(s + [o], parse) == TotalRevenue(s, parse) + (if Counted(o) then parse(o.total) else 0.0)
  {
    FilteredSumStep(s, o, Counted, parse);
  }

  /** Revenue and the cancelled orders' totals together make up the sum of all totals. */
  lemma {:induction false} RevenuePartition(orders: seq<AdminOrder>, parse: string -> real)
    ensures TotalRevenue(orders, parse) + CancelledTotal(orders, parse) == SumTotals(orders, parse)
  {
    if orders != [] {
      var init := orders[..|orders| - 1];
      var last := orders[|orders| - 1];
      assert init + [last] == orders;
      RevenuePartition(init, parse);
      FilteredSumStep(init, last, Counted, parse);
      FilteredSumStep(init, last, Cancelled, parse);
    }
  }

  /** Revenue is additive over a concatenation of order lists. */
  lemma {:induction false} RevenueAppend(a: seq<AdminOrder>, b: seq<AdminOrder>, parse: string -> real)
    ensures TotalRevenue(a + b, parse) == TotalRevenue(a, parse) + TotalRevenue(b, parse)
    decreases |b|
  {
    if b == [] {
      assert a + b == a;
    } else {
      var init := b[..|b| - 1];
      var last := b[|b| - 1];
      assert a + b == (a + init) + [last];
      assert init + [last] == b;
      RevenueAppend(a, init, parse);
      FilteredSumStep(a + init, last, Counted, parse);
      FilteredSumStep(init, last, Counted, parse);
    }
  }

  /** With no negative total, revenue is not negative. */
  lemma {:induction false} RevenueNonnegative(orders: seq<AdminOrder>, parse: string -> real)
    requires forall i :: 0 <= i < |orders| ==> parse(orders[i].total) >= 0.0
    ensures TotalRevenue(orders, parse) >= 0.0
  {
    if orders != [] {
      var init := orders[..|orders| - 1];
      var last := orders[|orders| - 1];
      assert init + [last] == orders;
      RevenueNonnegative(init, parse);
      RevenueStep(init, last, parse);
    }
  }

  /** pendingOrders: the number of PENDING orders. */
  function PendingCount(orders: seq<AdminOrder>): (r: nat)
    ensures r <= |orders|
  {
    |Listing.Filter(orders, Pending)|
  }

  /** Every order is either counted as pending or not, and never both. */
  lemma {:induction false} PendingPartition(orders: seq<AdminOrder>)
    ensures PendingCount(orders) + |Listing.Filter(orders, NotPending)| == |orders|
  {
    if orders != [] {
      var init := orders[..|orders| - 1];
      PendingPartition(init);
    }
  }

  /** filteredOrders: every order for the empty selection, otherwise exactly the orders with that status. */
  function FilteredOrders(orders: seq<AdminOrder>, selectedStatus: string): (r: seq<AdminOrder>)
    ensures selectedStatus == "" ==> r == orders
    ensures selectedStatus != "" ==> forall o :: o in r <==> o in orders && o.status == selectedStatus
  {
    if selectedStatus != "" then Listing.Filter(orders, (o: AdminOrder) => o.status == selectedStatus) else orders
  }

  /**
   * The filter keeps the listing's order: filtering a listing made of two runs
   * gives the filtered first run followed by the filtered second run.
   */
  lemma FilteredOrdersKeepOrder(a: seq<AdminOrder>, b: seq<AdminOrder>, selectedStatus: string)
    ensures FilteredOrders(a + b, selectedStatus) == FilteredOrders(a, selectedStatus) + FilteredOrders(b, selectedStatus)
  {
    if selectedStatus != "" {
      Listing.FilterAppend(a, b, (o: AdminOrder) => o.status == selectedStatus);
    }
  }

  /** The orders after a status change: the order with that id takes the new status, every other order is kept. */
  function UpdatedOrders(orders: seq<AdminOrder>, orderId: Id, newStatus: string): (r: seq<AdminOrder>)
    ensures |r| == |orders|
    ensures forall i :: 0 <= i < |orders| && orders[i].id == orderId ==> r[i] == orders[i].(status := newStatus)
    ensures forall i :: 0 <= i < |orders| && orders[i].id != orderId ==> r[i] == orders[i]
  {
    if orders == [] then []
    else
      var last := orders[|orders| - 1];
      UpdatedOrders(orders[..|orders| - 1], orderId, newStatus)
        + [if last.id == orderId then last.(status := newStatus) else last]
  }

  /** Applying the same status change twice is applying it once. */
  lemma UpdateIdempotent(orders: seq<AdminOrder>, orderId: Id, newStatus: string)
    ensures UpdatedOrders(UpdatedOrders(orders, orderId, newStatus), orderId, newStatus) ==
              UpdatedOrders(orders, orderId, newStatus)
  {
    var once := UpdatedOrders(orders, orderId, newStatus);
    assert forall i :: 0 <= i < |orders| ==> once[i].id == orders[i].id;
  }

  /** A status change for an id no order has leaves the list as it was. */
  lemma UpdateAbsentUnchanged(orders: seq<AdminOrder>, orderId: Id, newStatus: string)
    requires forall i :: 0 <= i < |orders| ==> orders[i].id != orderId
    ensures UpdatedOrders(orders, orderId, newStatus) == orders
  {
  }

  ghost predicate DistinctIds(orders: seq<AdminOrder>)
  {
    forall i, j :: 0 <= i < j < |orders| ==> orders[i].id != orders[j].id
  }

  /** A status change on a list with one more order changes that order as it changes a single one. */
  lemma UpdatedAppend(s: seq<AdminOrder>, o: AdminOrder, orderId: Id, newStatus: string)
    ensures UpdatedOrders(s + [o], orderId, newStatus) ==
              UpdatedOrders(s, orderId, newStatus) + [if o.id == orderId then o.(status := newStatus) else o]
  {
    assert (s + [o])[..|s|] == s;
  }

  /** Dropping the last order keeps the ids distinct, and the last id is not among the others. */
  lemma DistinctInit(orders: seq<AdminOrder>)
    requires DistinctIds(orders) && orders != []
    ensures DistinctIds(orders[..|orders| - 1])
    ensures forall i :: 0 <= i < |orders| - 1 ==> orders[i].id != orders[|orders| - 1].id
  {
  }

  /** Cancelling the last order, whose id no other order has, takes its total off the revenue. */
  lemma CancelLastRemovesRevenue(init: seq<AdminOrder>, last: AdminOrder, parse: string -> real)
    requires forall i :: 0 <= i < |init| ==> init[i].id != last.id
    requires Counted(last)
    ensures TotalRevenue(UpdatedOrders(init + [last], last.id, StatusName(CANCELLED)), parse) ==
              TotalRevenue(init + [last], parse) - parse(last.total)
  {
    var cancelled := StatusName(CANCELLED);
    UpdatedAppend(init, last, last.id, cancelled);
    UpdateAbsentUnchanged(init, last.id, cancelled);
    RevenueStep(init, last, parse);
    RevenueStep(init, last.(status := cancelled), parse);
  }

  /** Cancelling an order that was counted takes exactly its total off the revenue. */
  lemma {:induction false} CancelRemovesRevenue(orders: seq<AdminOrder>, k: nat, parse: string -> real)
    requires DistinctIds(orders) && k < |orders| && Counted(orders[k])
    ensures TotalRevenue(UpdatedOrders(orders, orders[k].id, StatusName(CANCELLED)), parse) ==
              TotalRevenue(orders, parse) - parse(orders[k].total)
  {
    var init := orders[..|orders| - 1];
    var last := orders[|orders| - 1];
    assert init + [last] == orders;
    DistinctInit(orders);
    if k == |orders| - 1 {
      CancelLastRemovesRevenue(init, last, parse);
    } else {
      var id := orders[k].id;
      var cancelled := StatusName(CANCELLED);
      assert init[k] == orders[k];
      CancelRemovesRevenue(init, k, parse);
      UpdatedAppend(init, last, id, cancelled);
      RevenueStep(init, last, parse);
      RevenueStep(UpdatedOrders(init, id, cancelled), last, parse);
    }
  }

  /** The non-admin guard: a signed-in visitor who is not an admin is sent home. */
  function AdminRedirect(authLoading: bool, isAdmin: bool): (r: Option<string>)
    ensures r.Some? <==> !authLoading && !isAdmin
    ensures r.Some? ==> r.value == HOME_PATH
  {
    if !authLoading && !isAdmin then Some(HOME_PATH) else None
  }

  /** The dashboard's state. */
  class AdminDashboard {
    var orders: seq<AdminOrder>
    var products: seq<CartContext.ShopProduct>
    var categories: seq<Category>
    var loading: bool
    var selectedStatus: string

    constructor ()
      ensures orders == [] && products == [] && categories == [] && loading && selectedStatus == ""
    {
      orders, products, categories := [], [], [];
      loading := true;
      selectedStatus := "";
    }

    /** loadData, given what the three calls together fetched (None when any of them failed). */
    method LoadData(fetched: Option<AdminData>)
      modifies this`orders, this`products, this`categories, this`loading
      ensures fetched.Some? ==>
                orders == fetched.value.orders && products == fetched.value.products
                && categories == fetched.value.categories
      ensures fetched.None? ==>
                orders == old(orders) && products == old(products) && categories == old(categories)
      ensures !loading
    {
      if fetched.Some? {
        orders := fetched.value.orders;
        products := fetched.value.products;
        categories := fetched.value.categories;
      }
      loading := false;
    }

    /** The status filter's change handler. */
    method SelectStatus(status: string)
      modifies this`selectedStatus
      ensures selectedStatus == status
    {
      selectedStatus := status;
    }

    /** handleStatusUpdate, given whether the update call succeeded: only then is the list changed. */
    method HandleStatusUpdate(orderId: Id, newStatus: string, updated: bool)
      modifies this`orders
      ensures updated ==> orders == UpdatedOrders(old(orders), orderId, newStatus)
      ensures !updated ==> orders == old(orders)
    {
      if updated {
        orders := UpdatedOrders(orders, orderId, newStatus);
      }
    }

    /** The rows of the orders table: the first ten of the filtered orders. */
    function ShownOrders(): (r: seq<AdminOrder>)
      reads this
      ensures |r| <= SHOWN_ORDERS
      ensures |r| <= |FilteredOrders(orders, selectedStatus)| && r == FilteredOrders(orders, selectedStatus)[..|r|]
      ensures |FilteredOrders(orders, selectedStatus)| >= SHOWN_ORDERS ==> |r| == SHOWN_ORDERS
    {
      Listing.Page(FilteredOrders(orders, selectedStatus), 0, SHOWN_ORDERS)
    }

    /** The product list: the first five products. */
    function ShownProducts(): (r: seq<CartContext.ShopProduct>)
      reads this
      ensures |r| <= SHOWN_PRODUCTS
      ensures |r| <= |products| && r == products[..|r|]
      ensures |products| >= SHOWN_PRODUCTS ==> |r| == SHOWN_PRODUCTS
    {
      Listing.Page(products, 0, SHOWN_PRODUCTS)
    }
  }
}
