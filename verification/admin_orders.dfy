/** The admin order list: the search/status filter, the status badge
    lookup, and the page state changed by loading orders, loading an order's
    items and changing an order's status. Each database answer is a
    parameter of the method that awaits it. */
module AdminOrders {
  import opened Types
  import opened Text
  import opened Seqs

  // ---------------------------------------------------------------- filter

  /** Name and id are compared lower-cased; the phone is compared as typed. */
  predicate MatchesSearch(o: Order, searchTerm: string)
  {
    Includes(ToLower(o.customerName), ToLower(searchTerm))
    || Includes(o.customerPhone, searchTerm)
    || Includes(ToLower(o.id), ToLower(searchTerm))
  }

  /** An empty status filter accepts every order. */
  predicate MatchesStatus(o: Order, statusFilter: string)
  {
    statusFilter == "" || StatusValue(o.status) == statusFilter
  }

  predicate Listed(o: Order, searchTerm: string, statusFilter: string)
  {
    MatchesSearch(o, searchTerm) && MatchesStatus(o, statusFilter)
  }

  /** The orders shown in the table. */
  function FilterOrders(orders: seq<Order>, searchTerm: string, statusFilter: string): (r: seq<Order>)
    ensures IsSubsequence(r, orders)
    ensures forall i :: 0 <= i < |r| ==> Listed(r[i], searchTerm, statusFilter)
    ensures forall i :: 0 <= i < |orders| && Listed(orders[i], searchTerm, statusFilter) ==> orders[i] in r
    ensures forall o :: multiset(r)[o] == if Listed(o, searchTerm, statusFilter) then multiset(orders)[o] else 0
  {
    Filter(o => Listed(o, searchTerm, statusFilter), orders)
  }

  /** With nothing typed and no status chosen, every order is listed, in order. */
  lemma {:induction false} EmptyFiltersKeepAll(orders: seq<Order>)
    ensures FilterOrders(orders, "", "") == orders
  {
    forall i | 0 <= i < |orders|
      ensures Listed(orders[i], "", "")
    {
      assert OccursAt(orders[i].customerPhone, "", 0);
      IncludesIffSubstring(orders[i].customerPhone, "");
    }
    FilterKeepsAll(o => Listed(o, "", ""), orders);
  }

  /** With a status chosen, every listed order has exactly that status; a
      filter string that names no status lists nothing. */
  lemma {:induction false} StatusFilterIsExact(orders: seq<Order>, searchTerm: string, statusFilter: string)
    requires statusFilter != ""
    ensures forall o :: o in FilterOrders(orders, searchTerm, statusFilter) ==> StatusValue(o.status) == statusFilter
    ensures (forall s :: StatusValue(s) != statusFilter) ==> FilterOrders(orders, searchTerm, statusFilter) == []
  {
    var r := FilterOrders(orders, searchTerm, statusFilter);
    if r != [] {
      assert Listed(r[0], searchTerm, statusFilter);
    }
  }

  /** The name and the id match whatever the case of the term; the phone
      only matches the term as typed. */
  lemma {:induction false} SearchCaseSensitivity(o: Order, term: string)
    ensures Includes(ToLower(o.customerName), ToLower(term)) ==> MatchesSearch(o, ToLower(term)) && MatchesSearch(o, term)
    ensures Includes(ToLower(o.id), ToLower(term)) ==> MatchesSearch(o, ToLower(term)) && MatchesSearch(o, term)
  {
    ToLowerIdempotent(term);
  }

  /** An order whose phone holds "5X" is found by "5X" but not by "5x": the
      phone number is not lower-cased. */
  lemma {:induction false} PhoneIsCaseSensitive()
    ensures var o := Order("1", "Al", "5X", "", 0.0, Pending, "", "");
            MatchesSearch(o, "5X") && !MatchesSearch(o, "5x")
  {
    var o := Order("1", "Al", "5X", "", 0.0, Pending, "", "");
    assert ToLower("5x") == "5x";
    assert ToLower("5X") == "5x";
    assert ToLower("Al") == "al";
    assert ToLower("1") == "1";
    assert Includes("5X", "5X");
    assert !Includes("5X", "5x") by {
      assert "5X"[1..] == "X";
      assert "X"[1..] == "";
    }
    assert !Includes("al", "5x") by {
      assert "al"[1..] == "l";
      assert "l"[1..] == "";
    }
    assert !Includes("1", "5x") by {
      assert "1"[1..] == "";
    }
  }

  // ---------------------------------------------------------- status badges

  datatype StatusOption = StatusOption(value: string, caption: string, icon: string, color: string)

  /** The selectable statuses with their badge label (`caption`), icon and colour. */
  const StatusOptions: seq<StatusOption> := [
    StatusOption("pending", "Pending", "Package", "bg-yellow-100 text-yellow-800"),
    StatusOption("processing", "Processing", "Package", "bg-blue-100 text-blue-800"),
    StatusOption("shipped", "Shipped", "Truck", "bg-purple-100 text-purple-800"),
    StatusOption("delivered", "Delivered", "CheckCircle", "bg-green-100 text-green-800"),
    StatusOption("cancelled", "Cancelled", "XCircle", "bg-red-100 text-red-800")
  ]

  /** `Array.prototype.find` on the option values. */
  function FindOption(options: seq<StatusOption>, status: string): (r: Option<StatusOption>)
    ensures r.Some? ==> r.value in options && r.value.value == status
    ensures r.None? <==> forall k :: 0 <= k < |options| ==> options[k].value != status
    ensures r.Some? ==>
      exists k :: 0 <= k < |options| && options[k] == r.value && forall j :: 0 <= j < k ==> options[j].value != status
  {
    if options == [] then None
    else if options[0].value == status then Some(options[0])
    else
      var r := FindOption(options[1..], status);
      assert forall k :: 0 < k < |options| ==> options[k] == options[1..][k - 1];
      if r.Some? then
        ghost var k :| 0 <= k < |options[1..]| && options[1..][k] == r.value
          && forall j :: 0 <= j < k ==> options[1..][j].value != status;
        assert options[k + 1] == r.value;
        r
      else r
  }

  /** The badge for a status string: the option with that value, or the
      "pending" option for any string that is not a known status. */
  function GetStatusConfig(status: string): (c: StatusOption)
    ensures c in StatusOptions
    ensures (exists k :: 0 <= k < |StatusOptions| && StatusOptions[k].value == status) ==> c.value == status
    ensures (forall k :: 0 <= k < |StatusOptions| ==> StatusOptions[k].value != status) ==> c == StatusOptions[0]
  {
    match FindOption(StatusOptions, status)
    case Some(o) => o
    case None => StatusOptions[0]
  }

  /** The statuses in the order the options list them. */
  const StatusOrder: seq<OrderStatus> := [Pending, Processing, Shipped, Delivered, Cancelled]

  /** The k-th option is the one for the k-th status. */
  lemma {:induction false} OptionsFollowStatusOrder()
    ensures |StatusOptions| == |StatusOrder|
    ensures forall k :: 0 <= k < |StatusOptions| ==> StatusOptions[k].value == StatusValue(StatusOrder[k])
  {
  }

  /** Every order status has its own badge: the option listed for it. */
  lemma {:induction false} KnownStatusConfig(s: OrderStatus)
    ensures s in StatusOrder
    ensures GetStatusConfig(StatusValue(s)) == StatusOptions[IndexOf(StatusOrder, s)]
  {
    assert s in StatusOrder by {
      match s
      case Pending => assert StatusOrder[0] == s;
      case Processing => assert StatusOrder[1] == s;
      case Shipped => assert StatusOrder[2] == s;
      case Delivered => assert StatusOrder[3] == s;
      case Cancelled => assert StatusOrder[4] == s;
    }
    var k := IndexOf(StatusOrder, s);
    var c := GetStatusConfig(StatusValue(s));
    ConfigIsListedOption(s, c, k);
  }

  /** The only option carrying a status's value is the one listed for it. */
  lemma {:induction false} ConfigIsListedOption(s: OrderStatus, c: StatusOption, k: nat)
    requires k < |StatusOrder| && StatusOrder[k] == s
    requires c in StatusOptions && c.value == StatusValue(s)
    ensures c == StatusOptions[k]
  {
    OptionsFollowStatusOrder();
    var j :| 0 <= j < |StatusOptions| && StatusOptions[j] == c;
    StatusValueInjective(StatusOrder[j], s);
  }

  /** An unknown status string, such as "completed", is shown as pending. */
  lemma {:induction false} UnknownStatusFallsBackToPending(status: string)
    requires forall s :: StatusValue(s) != status
    ensures GetStatusConfig(status) == StatusOptions[0]
    ensures GetStatusConfig(status).value == "pending"
  {
    OptionsFollowStatusOrder();
  }

  // ------------------------------------------------------------ page state

  /** A list read from the database: the rows on success (none when the
      answer carries no rows), the previous list on error. */
  function Loaded<T>(previous: seq<T>, response: Response<seq<T>>): (r: seq<T>)
    ensures response.error.Some? ==> r == previous
    ensures response.error.None? && response.data.Some? ==> r == response.data.value
    ensures response.error.None? && response.data.None? ==> r == []
  {
    if response.error.Some? then previous
    else if response.data.Some? then response.data.value
    else []
  }

  /** The order on display after `orderId` was given `newStatus`: only an
      order with that id changes, and only in its status. */
  function WithStatus(selected: Option<Order>, orderId: string, newStatus: OrderStatus): (r: Option<Order>)
    ensures r.Some? <==> selected.Some?
    ensures selected.Some? ==> r.value.(status := selected.value.status) == selected.value
    ensures selected.Some? ==> r.value.status == if selected.value.id == orderId then newStatus else selected.value.status
  {
    if selected.Some? && selected.value.id == orderId then Some(selected.value.(status := newStatus))
    else selected
  }

  const UpdateFailedAlert := "Error updating order status. Please try again."

  class OrdersPage {
    var orders: seq<Order>
    var isLoading: bool
    var searchTerm: string
    var statusFilter: string
    var selectedOrder: Option<Order>
    var orderItems: seq<OrderItem>
    var showModal: bool
    /** Messages shown with `alert`, oldest first. */
    var alerts: seq<string>

    constructor ()
      ensures orders == [] && isLoading && searchTerm == "" && statusFilter == ""
      ensures selectedOrder == None && orderItems == [] && !showModal && alerts == []
    {
      orders, isLoading, searchTerm, statusFilter := [], true, "", "";
      selectedOrder, orderItems, showModal, alerts := None, [], false, [];
    }

    /** The rows the table renders. */
    function Visible(): (r: seq<Order>)
      reads this
      ensures IsSubsequence(r, orders)
      ensures forall i :: 0 <= i < |r| ==> Listed(r[i], searchTerm, statusFilter)
      ensures forall i :: 0 <= i < |orders| && Listed(orders[i], searchTerm, statusFilter) ==> orders[i] in r
      ensures forall o :: multiset(r)[o] == if Listed(o, searchTerm, statusFilter) then multiset(orders)[o] else 0
    {
      FilterOrders(orders, searchTerm, statusFilter)
    }

    /** `fetchOrders`: a failed read is only logged and keeps the list. */
    method FetchOrders(response: Response<seq<Order>>)
      modifies this`orders, this`isLoading
      ensures orders == Loaded(old(orders), response)
      ensures !isLoading
    {
      isLoading := true;
      if response.error.Some? {
        // logged only
      } else {
        orders := if response.data.Some? then response.data.value else [];
      }
      isLoading := false;
    }

    /** `fetchOrderItems`: on error the previous items stay on display; they
        are not cleared. */
    method FetchOrderItems(orderId: string, response: Response<seq<OrderItem>>)
      modifies this`orderItems
      ensures orderItems == Loaded(old(orderItems), response)
    {
      if response.error.None? {
        orderItems := if response.data.Some? then response.data.value else [];
      }
    }

    /** `updateOrderStatus`: `updateError` is the answer to the update,
        `refetch` the answer to the reload that follows a success. */
    method UpdateOrderStatus(orderId: string, newStatus: OrderStatus,
                             updateError: Option<DbError>, refetch: Response<seq<Order>>)
      modifies this`orders, this`isLoading, this`selectedOrder, this`alerts
      ensures updateError.Some? ==>
        orders == old(orders) && isLoading == old(isLoading) && selectedOrder == old(selectedOrder)
        && alerts == old(alerts) + [UpdateFailedAlert]
      ensures updateError.None? ==>
        orders == Loaded(old(orders), refetch) && !isLoading
        && selectedOrder == WithStatus(old(selectedOrder), orderId, newStatus)
        && alerts == old(alerts)
    {
      var selected := selectedOrder;
      if updateError.Some? {
        alerts := alerts + [UpdateFailedAlert];
        return;
      }
      FetchOrders(refetch);
      if selected.Some? && selected.value.id == orderId {
        selectedOrder := Some(selected.value.(status := newStatus));
      }
    }

    /** `viewOrderDetails`: select the order, load its items, open the modal. */
    method ViewOrderDetails(order: Order, response: Response<seq<OrderItem>>)
      modifies this`selectedOrder, this`orderItems, this`showModal
      ensures selectedOrder == Some(order) && showModal
      ensures orderItems == Loaded(old(orderItems), response)
    {
      selectedOrder := Some(order);
      FetchOrderItems(order.id, response);
      showModal := true;
    }
  }
}
