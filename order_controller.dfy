/** The order handlers: create an order against an available service, list a
    user's or a provider's orders, read one order, update its status, cancel
    it and pay for it. Each handler is one sequential step on the store. */
module OrderController {
  import opened Common
  import opened UserModel
  import opened OrderModel
  import opened ServiceModel
  import opened Store
  import AuthMiddleware

  const ServiceNotFound := "服务不存在"
  const ServiceUnavailable := "该服务目前不可用"
  const OrderNotFound := "订单不存在"
  const NoViewPermission := "您没有权限查看此订单"
  const NoUpdatePermission := "您没有权限更新此订单"
  const NoCancelPermission := "您没有权限取消此订单"
  const NotCancellable := "该订单已开始或已完成，无法取消"
  const CancelledMessage := "订单已取消"
  const NoPayPermission := "您没有权限支付此订单"
  const AlreadyPaidMessage := "该订单已支付"
  const PaidMessage := "支付成功"

  /** The body of `POST /orders`; `scheduledDate` is already a timestamp. */
  datatype OrderRequest = OrderRequest(
    serviceId: Id,
    quantity: int,
    scheduledDate: int,
    address: string,
    phone: string,
    notes: Option<string>,
    paymentMethod: string)

  /** The route's validators, checked before the handler runs: an integer
      quantity of at least 1 and non-empty address, phone and payment method. */
  predicate PassesOrderValidators(req: OrderRequest)
  {
    req.quantity >= 1 && req.address != "" && req.phone != "" && req.paymentMethod != ""
  }

  /** Who may read or cancel an order: its buyer, its provider, or an admin. */
  predicate IsParty(o: Order, c: Caller)
  {
    o.user == c.id || o.provider == c.id || c.role == Admin
  }

  /** Who may update an order's status: its provider or an admin. */
  predicate MayUpdateStatus(o: Order, c: Caller)
  {
    o.provider == c.id || c.role == Admin
  }

  /** Who may pay for an order: its buyer only. */
  predicate MayPay(o: Order, c: Caller)
  {
    o.user == c.id
  }

  /** The asymmetry of the permissions: paying and updating are each open to
      a subset of the parties, and neither the provider nor an admin can pay
      for an order they did not buy. */
  lemma PermissionsNest(o: Order, c: Caller)
    ensures MayPay(o, c) ==> IsParty(o, c)
    ensures MayUpdateStatus(o, c) ==> IsParty(o, c)
    ensures c.id != o.user ==> !MayPay(o, c)
    ensures c.role == Admin ==> IsParty(o, c) && MayUpdateStatus(o, c)
  {
  }

  /** The outcome of `POST /orders` before anything is written. An unknown
      service is 404 and an unavailable one 400. The price is a snapshot,
      price times quantity. A payment method outside the enum, or a negative
      total, fails the schema on save and becomes a 500. */
  function PlaceOrder(services: map<Id, Service>, caller: Caller, req: OrderRequest, now: int)
    : (r: Reply<Order>)
    requires PassesOrderValidators(req)
    ensures req.serviceId !in services ==> r == Err(404, ServiceNotFound)
    ensures req.serviceId in services && services[req.serviceId].status != Available ==>
              r == Err(400, ServiceUnavailable)
    ensures r.Ok? <==>
              && req.serviceId in services
              && services[req.serviceId].status == Available
              && ParsePaymentMethod(req.paymentMethod).Some?
              && services[req.serviceId].price >= 0
    ensures r.Err? && req.serviceId in services && services[req.serviceId].status == Available ==>
              r == Err(500, ServerError)
    ensures r.Ok? ==>
              var s := services[req.serviceId];
              var o := r.value;
              && r.status == 201
              && ValidOrder(o)
              && o.totalPrice == s.price * req.quantity
              && o.service == req.serviceId && o.user == caller.id && o.provider == s.provider
              && o.status == Pending && o.paymentStatus == Unpaid && o.completionDate.None?
              && o.paymentMethod == ParsePaymentMethod(req.paymentMethod).value
              && o.quantity == req.quantity && o.scheduledDate == req.scheduledDate
              && o.address == req.address && o.phone == req.phone && o.notes == req.notes
              && o.createdAt == now
  {
    if req.serviceId !in services then Err(404, ServiceNotFound)
    else
      var service := services[req.serviceId];
      if service.status != Available then Err(400, ServiceUnavailable)
      else
        var paymentMethod := ParsePaymentMethod(req.paymentMethod);
        if paymentMethod.None? then Err(500, ServerError)
        else
          var order := NewOrder(req.serviceId, caller.id, service.provider, service.price * req.quantity,
                                req.quantity, paymentMethod.value, req.scheduledDate, req.address,
                                req.phone, req.notes, now);
          assert service.price >= 0 <==> service.price * req.quantity >= 0 by {
            if service.price < 0 {
              assert service.price * req.quantity <= service.price * 1;
            }
          }
          if !ValidOrder(order) then Err(500, ServerError) else Ok(201, order)
  }

  /** `POST /orders`. Nothing is written unless the order is placed; then it
      is stored under the new id, which is pushed onto the buyer's, the
      provider's (twice onto one list when the buyer is the provider) and
      the service's `orders` lists. */
  method CreateOrder(db: Db, caller: Caller, req: OrderRequest, newId: Id, now: int)
    returns (r: Reply<Order>)
    requires PassesOrderValidators(req)
    requires newId !in db.orders
    modifies db
    ensures r == PlaceOrder(old(db.services), caller, req, now)
    ensures !r.Ok? ==> unchanged(db)
    ensures r.Ok? ==>
              var s := old(db.services[req.serviceId]);
              && db.orders == old(db.orders)[newId := r.value]
              && db.services == old(db.services)[req.serviceId := s.(orders := s.orders + [newId])]
              && db.users == PushOrder(PushOrder(old(db.users), caller.id, newId), s.provider, newId)
              && db.categories == old(db.categories)
    ensures r.Ok? ==>
              var p := old(db.services[req.serviceId]).provider;
              && (caller.id != p && caller.id in old(db.users) ==>
                    db.users[caller.id].orders == old(db.users[caller.id]).orders + [newId])
              && (caller.id != p && p in old(db.users) ==>
                    db.users[p].orders == old(db.users[p]).orders + [newId])
              && (caller.id == p && p in old(db.users) ==>
                    db.users[p].orders == old(db.users[p]).orders + [newId, newId])
    ensures old(db.Valid()) ==> db.Valid()
  {
    r := PlaceOrder(db.services, caller, req, now);
    if !r.Ok? {
      return;
    }
    var order := r.value;
    var service := db.services[req.serviceId];
    var users := PushOrder(PushOrder(db.users, caller.id, newId), service.provider, newId);
    var services := db.services[req.serviceId := service.(orders := service.orders + [newId])];
    var orders := db.orders[newId := order];
    if db.Valid() {
      AddOrderKeepsConsistent(db.users, db.services, db.categories, db.orders, newId, order);
    }
    PushOrderTwice(db.users, caller.id, service.provider, newId);
    db.orders, db.users, db.services := orders, users, services;
  }

  /** `GET /orders/user`: the caller's orders as a buyer. The newest-first
      order the database sorts them in is not modelled. */
  function GetUserOrders(orders: map<Id, Order>, caller: Caller): (r: set<Id>)
    ensures forall k :: k in r <==> k in orders && orders[k].user == caller.id
  {
    set k | k in orders && orders[k].user == caller.id
  }

  /** `GET /orders/provider`: the caller's orders as a provider. */
  function GetProviderOrders(orders: map<Id, Order>, caller: Caller): (r: set<Id>)
    ensures forall k :: k in r <==> k in orders && orders[k].provider == caller.id
  {
    set k | k in orders && orders[k].provider == caller.id
  }

  /** In a consistent store both listings are covered by the user's own
      `orders` back-reference list, so that list is a complete index. */
  lemma ListingsAreIndexed(orders: map<Id, Order>, users: map<Id, User>, services: map<Id, Service>,
                           caller: Caller)
    requires OrdersIndexed(orders, users, services) && caller.id in users
    ensures forall k :: k in GetUserOrders(orders, caller) ==> k in users[caller.id].orders
    ensures forall k :: k in GetProviderOrders(orders, caller) ==> k in users[caller.id].orders
  {
  }

  /** `GET /orders/:id`: 404 for an unknown order, 401 unless the caller is a
      party to it, otherwise the order. */
  method GetOrderById(db: Db, id: Id, caller: Caller) returns (r: Reply<Order>)
    ensures id !in db.orders ==> r == Err(404, OrderNotFound)
    ensures id in db.orders && !IsParty(db.orders[id], caller) ==> r == Err(401, NoViewPermission)
    ensures r.Ok? <==> id in db.orders && IsParty(db.orders[id], caller)
    ensures r.Ok? ==> r == Ok(200, db.orders[id])
  {
    if id !in db.orders {
      return Err(404, OrderNotFound);
    }
    var order := db.orders[id];
    if order.user != caller.id && order.provider != caller.id && caller.role != Admin {
      return Err(401, NoViewPermission);
    }
    r := Ok(200, order);
  }

  /** A hexadecimal digit. */
  function HexDigit(d: nat): (c: char)
    requires d < 16
    ensures c in "0123456789abcdef"
  {
    "0123456789abcdef"[d]
  }

  /** The id's string form, as `req.user.id` gives it: its hexadecimal digits. */
  function IdText(id: Id): (t: string)
    ensures |t| > 0
    ensures forall i :: 0 <= i < |t| ==> t[i] in "0123456789abcdef"
  {
    if id < 16 then [HexDigit(id)] else IdText(id / 16) + [HexDigit(id % 16)]
  }

  /** `toString()` of a reference after `populate`, as `getOrderById` reads
      it. The reference is then the referenced document, whose `toString()`
      is its inspected text `{ _id: ... }`; when no document exists it is
      `null`, and `null.toString()` throws (here `None`). */
  function PopulatedText(users: map<Id, User>, ref: Id): (t: Option<string>)
    ensures t.Some? <==> ref in users
    ensures t.Some? ==> |t.value| > 0 && t.value[0] == '{'
  {
    if ref in users then Some("{ _id: " + IdText(ref) + " }") else None
  }

  /** The inspected text of a populated document is never an id's string form. */
  lemma PopulatedTextIsNoId(users: map<Id, User>, ref: Id, id: Id)
    requires ref in users
    ensures PopulatedText(users, ref).value != IdText(id)
  {
    var t := IdText(id);
    assert t[0] in "0123456789abcdef";
    assert PopulatedText(users, ref).value[0] == '{';
  }

  /** `GET /orders/:id` as written: the comparisons run on the populated
      `user` and `provider`, so they never match the caller's id. A
      reference to a missing user throws inside the `try`: 500. Otherwise only
      an admin reads the order; its buyer and its provider get 401. */
  function GetOrderByIdAsWritten(orders: map<Id, Order>, users: map<Id, User>, id: Id, caller: Caller)
    : (r: Reply<Order>)
    ensures id !in orders ==> r == Err(404, OrderNotFound)
    ensures id in orders && (orders[id].user !in users || orders[id].provider !in users) ==>
              r == Err(500, ServerError)
    ensures id in orders && orders[id].user in users && orders[id].provider in users
            && caller.role != Admin ==>
              r == Err(401, NoViewPermission)
    ensures r.Ok? <==>
              id in orders && orders[id].user in users && orders[id].provider in users
              && caller.role == Admin
    ensures r.Ok? ==> r == Ok(200, orders[id])
  {
    if id !in orders then Err(404, OrderNotFound)
    else
      var order := orders[id];
      var userText := PopulatedText(users, order.user);
      if userText.None? then Err(500, ServerError)
      else
        PopulatedTextIsNoId(users, order.user, caller.id);
        if userText.value == IdText(caller.id) then Ok(200, order)
        else
          var providerText := PopulatedText(users, order.provider);
          if providerText.None? then Err(500, ServerError)
          else
            PopulatedTextIsNoId(users, order.provider, caller.id);
            if providerText.value != IdText(caller.id) && caller.role != Admin
            then Err(401, NoViewPermission)
            else Ok(200, order)
  }

  /** As written, the buyer and the provider of an order are refused the
      order they are a party to, which `GetOrderById` lets them read. */
  lemma PartyDeniedAsWritten(orders: map<Id, Order>, users: map<Id, User>, id: Id, caller: Caller)
    requires id in orders && orders[id].user in users && orders[id].provider in users
    requires orders[id].user == caller.id || orders[id].provider == caller.id
    requires caller.role != Admin
    ensures IsParty(orders[id], caller)
    ensures GetOrderByIdAsWritten(orders, users, id, caller) == Err(401, NoViewPermission)
  {
  }

  /** `PUT /orders/:id/status`, behind `verifyProvider`. Only the order's
      provider or an admin may call it. A supplied status is assigned whatever
      the current one is, terminal states included; supplying "completed"
      stamps `completionDate := now`. A supplied payment status is assigned.
      A string outside its enum, or a loaded order that already fails the
      schema, fails the save: 500, nothing stored. Empty strings count as
      not supplied. */
  method UpdateOrderStatus(db: Db, id: Id, caller: Caller, status: Option<string>,
                           paymentStatus: Option<string>, now: int)
    returns (r: Reply<Order>)
    requires AuthMiddleware.VerifyProvider(caller.role).Pass?
    modifies db
    ensures id !in old(db.orders) ==> r == Err(404, OrderNotFound)
    ensures id in old(db.orders) && !MayUpdateStatus(old(db.orders[id]), caller) ==>
              r == Err(401, NoUpdatePermission)
    ensures r.Ok? <==>
              && id in old(db.orders) && MayUpdateStatus(old(db.orders[id]), caller)
              && (Given(status) ==> ParseStatus(status.value).Some?)
              && (Given(paymentStatus) ==> ParsePaymentStatus(paymentStatus.value).Some?)
              && ValidOrder(old(db.orders[id]))
    ensures id in old(db.orders) && MayUpdateStatus(old(db.orders[id]), caller)
            && !ValidOrder(old(db.orders[id])) ==>
              r == Err(500, ServerError)
    ensures r.Ok? ==>
              var o := old(db.orders[id]);
              var n := r.value;
              && r.status == 200
              && n.status == (if Given(status) then ParseStatus(status.value).value else o.status)
              && n.completionDate == (if Given(status) && status.value == "completed" then Some(now)
                                      else o.completionDate)
              && n.paymentStatus == (if Given(paymentStatus)
                                     then ParsePaymentStatus(paymentStatus.value).value
                                     else o.paymentStatus)
              && n == o.(status := n.status, completionDate := n.completionDate,
                         paymentStatus := n.paymentStatus)
              && db.orders == old(db.orders)[id := n]
    ensures !r.Ok? ==> db.orders == old(db.orders)
    ensures db.users == old(db.users) && db.services == old(db.services)
    ensures db.categories == old(db.categories)
    ensures old(db.Valid()) ==> db.Valid()
  {
    if id !in db.orders {
      return Err(404, OrderNotFound);
    }
    var order := db.orders[id];
    if order.provider != caller.id && caller.role != Admin {
      return Err(401, NoUpdatePermission);
    }
    if Given(status) {
      var parsed := ParseStatus(status.value);
      if parsed.None? {
        return Err(500, ServerError);
      }
      order := order.(status := parsed.value);
      if status.value == "completed" {
        order := order.(completionDate := Some(now));
      }
    }
    if Given(paymentStatus) {
      var parsed := ParsePaymentStatus(paymentStatus.value);
      if parsed.None? {
        return Err(500, ServerError);
      }
      order := order.(paymentStatus := parsed.value);
    }
    if !ValidOrder(order) {
      return Err(500, ServerError);
    }
    db.orders := db.orders[id := order];
    r := Ok(200, order);
  }

  /** `PUT /orders/:id/cancel`. A party to the order may cancel it unless it
      is in progress or completed; cancelling a cancelled order succeeds
      again. Only `status` changes; the save validates the whole order, so
      one that fails the schema gives 500 and is not stored. */
  method CancelOrder(db: Db, id: Id, caller: Caller) returns (r: Reply<string>)
    modifies db
    ensures id !in old(db.orders) ==> r == Err(404, OrderNotFound)
    ensures id in old(db.orders) && !IsParty(old(db.orders[id]), caller) ==>
              r == Err(401, NoCancelPermission)
    ensures id in old(db.orders) && IsParty(old(db.orders[id]), caller)
            && old(db.orders[id]).status in {InProgress, Completed} ==>
              r == Err(400, NotCancellable)
    ensures id in old(db.orders) && IsParty(old(db.orders[id]), caller)
            && old(db.orders[id]).status !in {InProgress, Completed}
            && !ValidOrder(old(db.orders[id])) ==>
              r == Err(500, ServerError)
    ensures r.Ok? <==>
              id in old(db.orders) && IsParty(old(db.orders[id]), caller)
              && old(db.orders[id]).status !in {InProgress, Completed}
              && ValidOrder(old(db.orders[id]))
    ensures r.Ok? ==>
              r == Ok(200, CancelledMessage)
              && db.orders == old(db.orders)[id := old(db.orders[id]).(status := Cancelled)]
    ensures !r.Ok? ==> db.orders == old(db.orders)
    ensures db.users == old(db.users) && db.services == old(db.services)
    ensures db.categories == old(db.categories)
    ensures old(db.Valid()) ==> db.Valid()
  {
    if id !in db.orders {
      return Err(404, OrderNotFound);
    }
    var order := db.orders[id];
    if order.user != caller.id && order.provider != caller.id && caller.role != Admin {
      return Err(401, NoCancelPermission);
    }
    if order.status == InProgress || order.status == Completed {
      return Err(400, NotCancellable);
    }
    order := order.(status := Cancelled);
    if !ValidOrder(order) {
      return Err(500, ServerError);
    }
    db.orders := db.orders[id := order];
    r := Ok(200, CancelledMessage);
  }

  /** The body of a successful payment: a message and the stored order. */
  datatype PaymentReceipt = PaymentReceipt(message: string, order: Order)

  /** `POST /orders/:id/pay`. Only the buyer may pay, and not twice. The
      method is the one supplied, or the old one when none is; a supplied
      method outside the enum, or a loaded order that fails the schema,
      fails the save: 500, nothing stored. Paying
      marks the order paid, records the time and the transaction id, and sets
      the status to confirmed whatever it was, cancelled included. */
  method ProcessPayment(db: Db, id: Id, caller: Caller, paymentMethod: Option<string>,
                        transactionId: Option<string>, now: int)
    returns (r: Reply<PaymentReceipt>)
    modifies db
    ensures id !in old(db.orders) ==> r == Err(404, OrderNotFound)
    ensures id in old(db.orders) && !MayPay(old(db.orders[id]), caller) ==> r == Err(401, NoPayPermission)
    ensures id in old(db.orders) && MayPay(old(db.orders[id]), caller)
            && old(db.orders[id]).paymentStatus == Paid ==>
              r == Err(400, AlreadyPaidMessage)
    ensures r.Ok? <==>
              && id in old(db.orders) && MayPay(old(db.orders[id]), caller)
              && old(db.orders[id]).paymentStatus != Paid
              && (Given(paymentMethod) ==> ParsePaymentMethod(paymentMethod.value).Some?)
              && ValidOrder(old(db.orders[id]))
    ensures id in old(db.orders) && MayPay(old(db.orders[id]), caller)
            && old(db.orders[id]).paymentStatus != Paid
            && !ValidOrder(old(db.orders[id])) ==>
              r == Err(500, ServerError)
    ensures r.Ok? ==>
              var o := old(db.orders[id]);
              var m := if Given(paymentMethod) then ParsePaymentMethod(paymentMethod.value).value
                       else o.paymentMethod;
              && r.status == 200
              && r.value == PaymentReceipt(PaidMessage, o.(paymentMethod := m, paymentStatus := Paid,
                                                           paymentDate := Some(now),
                                                           transactionId := transactionId,
                                                           status := Confirmed))
              && db.orders == old(db.orders)[id := r.value.order]
    ensures !r.Ok? ==> db.orders == old(db.orders)
    ensures db.users == old(db.users) && db.services == old(db.services)
    ensures db.categories == old(db.categories)
    ensures old(db.Valid()) ==> db.Valid()
  {
    if id !in db.orders {
      return Err(404, OrderNotFound);
    }
    var order := db.orders[id];
    if order.user != caller.id {
      return Err(401, NoPayPermission);
    }
    if order.paymentStatus == Paid {
      return Err(400, AlreadyPaidMessage);
    }
    var m := order.paymentMethod;
    if Given(paymentMethod) {
      var parsed := ParsePaymentMethod(paymentMethod.value);
      if parsed.None? {
        return Err(500, ServerError);
      }
      m := parsed.value;
    }
    order := order.(paymentMethod := m);
    order := order.(paymentStatus := Paid);
    order := order.(paymentDate := Some(now));
    order := order.(transactionId := transactionId);
    order := order.(status := Confirmed);
    if !ValidOrder(order) {
      return Err(500, ServerError);
    }
    db.orders := db.orders[id := order];
    r := Ok(200, PaymentReceipt(PaidMessage, order));
  }
}
