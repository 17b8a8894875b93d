/** The client's orders state and its reducers. Each reducer updates the
    state in place: the `.pending` and `.rejected` cases shared by every
    request, and one `.fulfilled` case per request. */
module OrdersSlice {
  import opened Common
  import opened ClientList

  /** The payload of `fetchOrders`: the orders and their count. */
  datatype OrdersPayload<T> = OrdersPayload(orders: seq<Doc<T>>, total: int)

  /** The `fetchOrders` thunk's payload: the response list and its length. */
  function FetchOrdersPayload<T>(response: seq<Doc<T>>): (p: OrdersPayload<T>)
    ensures p.orders == response && p.total == |response|
  {
    OrdersPayload(response, |response|)
  }

  class OrdersState<T> {
    var orders: seq<Doc<T>>
    var currentOrder: Option<Doc<T>>
    var loading: bool
    var error: Option<string>
    var total: int
    var page: int
    var limit: int

    /** `total` counts the orders held. */
    ghost predicate Counted()
      reads this
    {
      total == |orders|
    }

    /** The initial state: no orders, no current order, page 1 of 10. */
    constructor ()
      ensures orders == [] && currentOrder.None? && !loading && error.None?
      ensures total == 0 && page == 1 && limit == 10
      ensures Counted()
    {
      orders, currentOrder, loading, error := [], None, false, None;
      total, page, limit := 0, 1, 10;
    }

    /** `clearError`. */
    method ClearError()
      modifies this
      ensures error.None?
      ensures orders == old(orders) && currentOrder == old(currentOrder) && loading == old(loading)
      ensures total == old(total) && page == old(page) && limit == old(limit)
    {
      error := None;
    }

    /** `setPage`. */
    method SetPage(p: int)
      modifies this
      ensures page == p
      ensures orders == old(orders) && currentOrder == old(currentOrder) && loading == old(loading)
      ensures error == old(error) && total == old(total) && limit == old(limit)
    {
      page := p;
    }

    /** `setLimit`. */
    method SetLimit(l: int)
      modifies this
      ensures limit == l
      ensures orders == old(orders) && currentOrder == old(currentOrder) && loading == old(loading)
      ensures error == old(error) && total == old(total) && page == old(page)
    {
      limit := l;
    }

    /** Every `.pending` case: loading, no error, the data untouched. */
    method Pending()
      modifies this
      ensures loading && error.None?
      ensures orders == old(orders) && currentOrder == old(currentOrder)
      ensures total == old(total) && page == old(page) && limit == old(limit)
    {
      loading := true;
      error := None;
    }

    /** Every `.rejected` case: not loading, the error is the payload, the
        data untouched. */
    method Rejected(message: string)
      modifies this
      ensures !loading && error == Some(message)
      ensures orders == old(orders) && currentOrder == old(currentOrder)
      ensures total == old(total) && page == old(page) && limit == old(limit)
    {
      loading := false;
      error := Some(message);
    }

    /** `fetchOrders.fulfilled`: the list and the total come from the payload. */
    method FetchOrdersFulfilled(payload: OrdersPayload<T>)
      modifies this
      ensures !loading && orders == payload.orders && total == payload.total
      ensures currentOrder == old(currentOrder) && error == old(error)
      ensures page == old(page) && limit == old(limit)
      ensures payload == FetchOrdersPayload(payload.orders) ==> Counted()
    {
      loading := false;
      orders := payload.orders;
      total := payload.total;
    }

    /** `fetchOrderById.fulfilled`: the payload becomes the current order. */
    method FetchOrderByIdFulfilled(payload: Doc<T>)
      modifies this
      ensures !loading && currentOrder == Some(payload)
      ensures orders == old(orders) && error == old(error) && total == old(total)
      ensures page == old(page) && limit == old(limit)
    {
      loading := false;
      currentOrder := Some(payload);
    }

    /** `createNewOrder.fulfilled`: the payload is appended and the total
        goes up by one, so a counted state stays counted. */
    method CreateNewOrderFulfilled(payload: Doc<T>)
      modifies this
      ensures !loading && orders == old(orders) + [payload] && total == old(total) + 1
      ensures currentOrder == old(currentOrder) && error == old(error)
      ensures page == old(page) && limit == old(limit)
      ensures old(Counted()) ==> Counted()
    {
      loading := false;
      orders := orders + [payload];
      total := total + 1;
    }

    /** `updateExistingOrder.fulfilled`: the first order with the payload's
        id is replaced and the length is kept; with no such order the list
        stays. The current order is replaced exactly when it has that id. */
    method UpdateExistingOrderFulfilled(payload: Doc<T>)
      modifies this
      ensures !loading && orders == ReplaceFirst(old(orders), payload)
      ensures |orders| == |old(orders)|
      ensures currentOrder == (if old(currentOrder).Some? && old(currentOrder).value.id == payload.id
                               then Some(payload) else old(currentOrder))
      ensures error == old(error) && total == old(total) && page == old(page) && limit == old(limit)
      ensures old(Counted()) ==> Counted()
    {
      loading := false;
      var index := FirstIndexOf(orders, payload.id);
      if index != -1 {
        orders := orders[index := payload];
      }
      if currentOrder.Some? && currentOrder.value.id == payload.id {
        currentOrder := Some(payload);
      }
    }

    /** `deleteExistingOrder.fulfilled`: every order with the id is filtered
        out, the rest keep their order, and the total goes down by one
        whether or not anything matched. A counted state stays counted
        exactly when one order had the id. The current order stays. */
    method DeleteExistingOrderFulfilled(id: string)
      modifies this
      ensures !loading && orders == WithoutId(old(orders), id) && total == old(total) - 1
      ensures currentOrder == old(currentOrder) && error == old(error)
      ensures page == old(page) && limit == old(limit)
      ensures old(Counted()) ==> (Counted() <==> CountId(old(orders), id) == 1)
    {
      WithoutIdLength(orders, id);
      loading := false;
      orders := WithoutId(orders, id);
      total := total - 1;
    }
  }
}
