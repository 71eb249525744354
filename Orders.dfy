/**
 * The orders page of src/pages/Orders.tsx: the loaded list, the selected
 * order and its two dialogs, a status update of one order, and the
 * paginated table.
 */
module Orders {
  import opened Util
  import opened Http
  import opened Notice

  datatype OrderStatus = Pending | Processing | Completed | Cancelled

  datatype OrderItem = OrderItem(id: string, productId: string, productName: string,
                                 quantity: int, price: real, total: real)

  datatype Order = Order(
    id: string,
    orderNumber: string,
    customerName: string,
    customerEmail: string,
    customerPhone: string,
    status: OrderStatus,
    total: real,
    items: seq<OrderItem>,
    createdAt: string,
    platform: string,
    shippingAddress: Option<string>,
    notes: Option<string>)

  /** The lower-case text of a status, as the backend and the chips spell it. */
  function StatusName(s: OrderStatus): string
  {
    match s
    case Pending => "pending"
    case Processing => "processing"
    case Completed => "completed"
    case Cancelled => "cancelled"
  }

  /** The `statusColors` table. */
  function StatusColor(s: OrderStatus): (c: ChipColor)
    ensures c != DefaultColor
    ensures c == WarningColor <==> s == Pending
    ensures c == InfoColor <==> s == Processing
    ensures c == SuccessColor <==> s == Completed
    ensures c == ErrorColor <==> s == Cancelled
  {
    match s
    case Pending => WarningColor
    case Processing => InfoColor
    case Completed => SuccessColor
    case Cancelled => ErrorColor
  }

  /** The four statuses get four different colours, none of them the default one. */
  lemma StatusColorsDistinct(a: OrderStatus, b: OrderStatus)
    ensures StatusColor(a) == StatusColor(b) <==> a == b
    ensures StatusColor(a) != DefaultColor
  {
  }

  // ---------------------------------------------------------------------
  // handleUpdateStatus: the `orders.map(...)` of a successful update.

  function WithStatus(orders: seq<Order>, id: string, s: OrderStatus): (r: seq<Order>)
    ensures |r| == |orders|
    ensures forall i :: 0 <= i < |orders| ==>
      r[i] == if orders[i].id == id then orders[i].(status := s) else orders[i]
  {
    if orders == [] then []
    else [if orders[0].id == id then orders[0].(status := s) else orders[0]] + WithStatus(orders[1..], id, s)
  }

  /**
   * An update keeps every order in place and changes nothing but the status
   * of the orders carrying the id, which then all have the new status.
   */
  lemma WithStatusOnlyStatus(orders: seq<Order>, id: string, s: OrderStatus, i: nat)
    requires i < |orders|
    ensures WithStatus(orders, id, s)[i].id == orders[i].id
    ensures WithStatus(orders, id, s)[i].(status := orders[i].status) == orders[i]
    ensures WithStatus(orders, id, s)[i].status == if orders[i].id == id then s else orders[i].status
  {
  }

  /** Updating with an id no order has leaves the list as it was. */
  lemma WithStatusAbsent(orders: seq<Order>, id: string, s: OrderStatus)
    requires forall i :: 0 <= i < |orders| ==> orders[i].id != id
    ensures WithStatus(orders, id, s) == orders
  {
  }

  /** Repeating an update changes nothing more. */
  lemma WithStatusIdempotent(orders: seq<Order>, id: string, s: OrderStatus)
    ensures WithStatus(WithStatus(orders, id, s), id, s) == WithStatus(orders, id, s)
  {
  }

  // ---------------------------------------------------------------------
  // The page slice `orders.slice(page * rows, page * rows + rows)`.

  function Min(a: int, b: int): int
  {
    if a <= b then a else b
  }

  /** `Array.prototype.slice(lo, hi)` for non-negative bounds: both are clipped to the length. */
  function Slice<T>(s: seq<T>, lo: nat, hi: nat): (r: seq<T>)
    ensures |r| == if Min(lo, |s|) <= Min(hi, |s|) then Min(hi, |s|) - Min(lo, |s|) else 0
    ensures forall k :: 0 <= k < |r| ==> lo + k < |s| && r[k] == s[lo + k]
  {
    var a, b := Min(lo, |s|), Min(hi, |s|);
    if a <= b then s[a..b] else []
  }

  function PageRows(orders: seq<Order>, page: nat, rows: nat): (r: seq<Order>)
    ensures |r| <= rows
    ensures |r| == if page * rows >= |orders| then 0 else Min(rows, |orders| - page * rows)
    ensures forall k :: 0 <= k < |r| ==> r[k] == orders[page * rows + k]
  {
    Slice(orders, page * rows, page * rows + rows)
  }

  /** With a positive page size, order `i` is the `i % rows`-th row of page `i / rows`. */
  lemma PageRowsCover(orders: seq<Order>, rows: nat, i: nat)
    requires rows > 0 && i < |orders|
    ensures i % rows < |PageRows(orders, i / rows, rows)|
    ensures PageRows(orders, i / rows, rows)[i % rows] == orders[i]
  {
    var p, k := i / rows, i % rows;
    assert p * rows + k == i;
    assert p * rows <= i;
  }

  /** Two rows shown on one page are two different positions of the list, in list order. */
  lemma PageRowsInOrder(orders: seq<Order>, page: nat, rows: nat, j: nat, k: nat)
    requires j < k < |PageRows(orders, page, rows)|
    ensures page * rows + j < page * rows + k < |orders|
    ensures PageRows(orders, page, rows)[j] == orders[page * rows + j]
    ensures PageRows(orders, page, rows)[k] == orders[page * rows + k]
  {
  }

  // ---------------------------------------------------------------------
  // The page.

  class OrdersView {
    var orders: seq<Order>
    var loading: bool
    var selectedOrder: Option<Order>
    var viewModalOpen: bool
    var editModalOpen: bool
    var notification: Option<Notification>
    var page: nat
    var rowsPerPage: nat
    /** Every request the page has issued, oldest first. */
    var requests: seq<Request>

    constructor ()
      ensures orders == [] && loading && selectedOrder == None
      ensures !viewModalOpen && !editModalOpen && notification == None
      ensures page == 0 && rowsPerPage == 10 && requests == []
    {
      orders, loading, selectedOrder := [], true, None;
      viewModalOpen, editModalOpen, notification := false, false, None;
      page, rowsPerPage, requests := 0, 10, [];
    }

    /** loadOrders, with the answer to `GET /api/orders`. */
    method LoadOrders(reply: Reply<seq<Order>>)
      modifies this
      ensures requests == old(requests) + [Request(GET, "/api/orders")]
      ensures reply.Ok? ==> orders == reply.data && notification == old(notification)
      ensures reply.Fail? ==> (orders == old(orders) &&
        notification == Some(Notification(Error, "Failed to load orders: " + ErrorDetail(reply.error))))
      ensures !loading
      ensures selectedOrder == old(selectedOrder) && viewModalOpen == old(viewModalOpen)
      ensures editModalOpen == old(editModalOpen) && page == old(page) && rowsPerPage == old(rowsPerPage)
    {
      requests := requests + [Request(GET, "/api/orders")];
      match reply {
        case Ok(data) =>
          orders := data;
        case Fail(e) =>
          notification := Some(Notification(Error, "Failed to load orders: " + ErrorDetail(e)));
      }
      loading := false;
    }

    /** handleViewOrder */
    method ViewOrder(order: Order)
      modifies this`selectedOrder, this`viewModalOpen
      ensures selectedOrder == Some(order) && viewModalOpen
    {
      selectedOrder := Some(order);
      viewModalOpen := true;
    }

    /** handleEditOrder */
    method EditOrder(order: Order)
      modifies this`selectedOrder, this`editModalOpen
      ensures selectedOrder == Some(order) && editModalOpen
    {
      selectedOrder := Some(order);
      editModalOpen := true;
    }

    /**
     * handleUpdateStatus, with the answer to the PATCH call. The selected
     * order is not refreshed, exactly as in the page.
     */
    method UpdateStatus(orderId: string, newStatus: OrderStatus, reply: Reply<()>)
      modifies this`orders, this`notification, this`requests
      ensures requests == old(requests) + [Request(PATCH, "/api/orders/" + orderId + "/status")]
      ensures reply.Ok? ==> (orders == WithStatus(old(orders), orderId, newStatus) &&
        notification == Some(Notification(Success, "Order status updated successfully")))
      ensures reply.Fail? ==> (orders == old(orders) &&
        notification == Some(Notification(Error, "Failed to update order status: " + ErrorDetail(reply.error))))
    {
      requests := requests + [Request(PATCH, "/api/orders/" + orderId + "/status")];
      match reply
      case Ok(_) =>
        orders := WithStatus(orders, orderId, newStatus);
        notification := Some(Notification(Success, "Order status updated successfully"));
      case Fail(e) =>
        notification := Some(Notification(Error, "Failed to update order status: " + ErrorDetail(e)));
    }

    /**
     * The status select of the edit dialog: it updates the selected order,
     * and does nothing when no order is selected.
     */
    method SelectStatus(newStatus: OrderStatus, reply: Reply<()>)
      modifies this`orders, this`notification, this`requests
      ensures selectedOrder.None? ==>
        (orders == old(orders) && notification == old(notification) && requests == old(requests))
      ensures selectedOrder.Some? ==>
        (requests == old(requests) + [Request(PATCH, "/api/orders/" + selectedOrder.value.id + "/status")])
      ensures selectedOrder.Some? && reply.Ok? ==>
        (orders == WithStatus(old(orders), selectedOrder.value.id, newStatus) &&
         notification == Some(Notification(Success, "Order status updated successfully")))
      ensures selectedOrder.Some? && reply.Fail? ==>
        (orders == old(orders) &&
         notification == Some(Notification(Error, "Failed to update order status: " + ErrorDetail(reply.error))))
    {
      if selectedOrder.Some? {
        UpdateStatus(selectedOrder.value.id, newStatus, reply);
      }
    }

    /** The snackbar's `onClose`. */
    method DismissNotification()
      modifies this`notification
      ensures notification == None
    {
      notification := None;
    }

    /** handleChangePage */
    method ChangePage(newPage: nat)
      modifies this`page
      ensures page == newPage
    {
      page := newPage;
    }

    /** handleChangeRowsPerPage: a new page size always goes back to the first page. */
    method ChangeRowsPerPage(rows: nat)
      modifies this`rowsPerPage, this`page
      ensures rowsPerPage == rows && page == 0
    {
      rowsPerPage := rows;
      page := 0;
    }

    /** The dialogs' `onClose`. */
    method CloseView()
      modifies this`viewModalOpen
      ensures !viewModalOpen
    {
      viewModalOpen := false;
    }

    method CloseEdit()
      modifies this`editModalOpen
      ensures !editModalOpen
    {
      editModalOpen := false;
    }

    /** The table rows on screen: none while loading, else the current page of the list. */
    function VisibleRows(): (r: seq<Order>)
      reads this
      ensures |r| <= rowsPerPage
      ensures loading ==> r == []
      ensures !loading ==> |r| == if page * rowsPerPage >= |orders| then 0 else Min(rowsPerPage, |orders| - page * rowsPerPage)
      ensures !loading ==> forall k :: 0 <= k < |r| ==>
        (page * rowsPerPage + k < |orders| && r[k] == orders[page * rowsPerPage + k])
    {
      if loading then [] else PageRows(orders, page, rowsPerPage)
    }
  }
}
