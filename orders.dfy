/** The order list page (src/pages/Orders.jsx): the status filter and its empty state. */
module Orders {
  import opened Wrappers
  import Seqs

  /** The filter value that shows every order. */
  const All: string := "all"

  datatype Order = Order(id: string, orderStatus: string)

  /** filterOrders: every order for "all", otherwise the orders whose status is the filter. */
  function FilterOrders(orders: seq<Order>, filter: string): (r: seq<Order>)
    ensures filter == All ==> r == orders
    ensures |r| <= |orders|
    ensures forall o :: o in r ==> o in orders && (filter == All || o.orderStatus == filter)
  {
    if filter == All then orders else Seqs.Filter((o: Order) => o.orderStatus == filter, orders)
  }

  /** Every order with the chosen status is listed. */
  lemma FilterOrdersComplete(orders: seq<Order>, filter: string, o: Order)
    requires o in orders && o.orderStatus == filter
    ensures o in FilterOrders(orders, filter)
  {
    if filter != All {
      Seqs.FilterKeeps((o: Order) => o.orderStatus == filter, orders, o);
    }
  }

  /** The filter keeps the list's order: filtering a concatenation filters each part. */
  lemma FilterOrdersAppend(a: seq<Order>, b: seq<Order>, filter: string)
    ensures FilterOrders(a + b, filter) == FilterOrders(a, filter) + FilterOrders(b, filter)
  {
    if filter != All {
      Seqs.FilterAppend((o: Order) => o.orderStatus == filter, a, b);
    }
  }

  /** The empty state's description, shown only when the filtered list is empty. */
  function EmptyState(orders: seq<Order>, filter: string): (r: Option<string>)
    ensures r.Some? <==> FilterOrders(orders, filter) == []
    ensures r.Some? && filter == All ==> r.value == "You haven't placed any orders yet. Start shopping!"
    ensures r.Some? && filter != All ==> r.value == "No " + filter + " orders found."
  {
    if FilterOrders(orders, filter) != [] then None
    else if filter == All then Some("You haven't placed any orders yet. Start shopping!")
    else Some("No " + filter + " orders found.")
  }

  /** Under "all" the empty state appears exactly when there are no orders at all. */
  lemma EmptyStateUnderAll(orders: seq<Order>)
    ensures EmptyState(orders, All).Some? <==> orders == []
  {
  }

  /** Under any other filter it appears exactly when no order has that status. */
  lemma EmptyStateUnderStatus(orders: seq<Order>, filter: string)
    requires filter != All
    ensures EmptyState(orders, filter).Some? <==> forall i :: 0 <= i < |orders| ==> orders[i].orderStatus != filter
  {
    if exists i :: 0 <= i < |orders| && orders[i].orderStatus == filter {
      var i :| 0 <= i < |orders| && orders[i].orderStatus == filter;
      FilterOrdersComplete(orders, filter, orders[i]);
    }
  }
}
