/** The Order document: its three enums, its defaults and the bounds its
    schema validates on every save. */
module OrderModel {
  import opened Common

  datatype OrderStatus = Pending | Confirmed | InProgress | Completed | Cancelled
  datatype PaymentStatus = Unpaid | Paid | Refunded
  datatype PaymentMethod = Wechat | Alipay | Card

  /** The string a status is stored as. */
  function StatusName(s: OrderStatus): string
  {
    match s
    case Pending => "pending"
    case Confirmed => "confirmed"
    case InProgress => "in_progress"
    case Completed => "completed"
    case Cancelled => "cancelled"
  }

  /** The schema's enum check on a status string: only the five names pass. */
  function ParseStatus(x: string): (r: Option<OrderStatus>)
    ensures r.Some? ==> StatusName(r.value) == x
    ensures r.None? ==> forall s: OrderStatus :: StatusName(s) != x
  {
    if x == "pending" then Some(Pending)
    else if x == "confirmed" then Some(Confirmed)
    else if x == "in_progress" then Some(InProgress)
    else if x == "completed" then Some(Completed)
    else if x == "cancelled" then Some(Cancelled)
    else None
  }

  lemma StatusRoundTrip(s: OrderStatus)
    ensures ParseStatus(StatusName(s)) == Some(s)
  {
  }

  function PaymentStatusName(p: PaymentStatus): string
  {
    match p
    case Unpaid => "unpaid"
    case Paid => "paid"
    case Refunded => "refunded"
  }

  /** The schema's enum check on a payment-status string. */
  function ParsePaymentStatus(x: string): (r: Option<PaymentStatus>)
    ensures r.Some? ==> PaymentStatusName(r.value) == x
    ensures r.None? ==> forall p: PaymentStatus :: PaymentStatusName(p) != x
  {
    if x == "unpaid" then Some(Unpaid)
    else if x == "paid" then Some(Paid)
    else if x == "refunded" then Some(Refunded)
    else None
  }

  function PaymentMethodName(m: PaymentMethod): string
  {
    match m
    case Wechat => "wechat"
    case Alipay => "alipay"
    case Card => "card"
  }

  /** The schema's enum check on a payment-method string. */
  function ParsePaymentMethod(x: string): (r: Option<PaymentMethod>)
    ensures r.Some? ==> PaymentMethodName(r.value) == x
    ensures r.None? ==> forall m: PaymentMethod :: PaymentMethodName(m) != x
  {
    if x == "wechat" then Some(Wechat)
    else if x == "alipay" then Some(Alipay)
    else if x == "card" then Some(Card)
    else None
  }

  /** An order document. `paymentDate` and `transactionId` are the two fields
      the payment handler records; see `SchemaAsWritten` for the schema that
      lacks them. The `review` reference is never touched by the handlers and
      is not modelled. */
  datatype Order = Order(
    service: Id,
    user: Id,
    provider: Id,
    totalPrice: int,
    quantity: int,
    status: OrderStatus,
    paymentStatus: PaymentStatus,
    paymentMethod: PaymentMethod,
    scheduledDate: int,
    completionDate: Option<int>,
    address: string,
    phone: string,
    notes: Option<string>,
    createdAt: int,
    paymentDate: Option<int>,
    transactionId: Option<string>)

  /** The schema's validators: `totalPrice` at least 0, `quantity` at least 1,
      `address` and `phone` required (a required string must not be empty).
      The enum fields are valid by their types. */
  predicate ValidOrder(o: Order)
  {
    o.totalPrice >= 0 && o.quantity >= 1 && o.address != "" && o.phone != ""
  }

  /** A new document with the schema's defaults filled in. */
  function NewOrder(service: Id, user: Id, provider: Id, totalPrice: int, quantity: int,
                    paymentMethod: PaymentMethod, scheduledDate: int, address: string,
                    phone: string, notes: Option<string>, now: int): (o: Order)
    ensures o.status == Pending && o.paymentStatus == Unpaid
    ensures o.completionDate.None? && o.paymentDate.None? && o.transactionId.None?
    ensures ValidOrder(o) <==> totalPrice >= 0 && quantity >= 1 && address != "" && phone != ""
  {
    Order(service, user, provider, totalPrice, quantity, Pending, Unpaid, paymentMethod,
          scheduledDate, None, address, phone, notes, now, None, None)
  }

  /** What `save()` keeps of a document under the schema as written, which
      declares neither `paymentDate` nor `transactionId`: in its default
      strict mode the document store silently drops fields missing from the
      schema. */
  function SchemaAsWritten(o: Order): (r: Order)
    ensures r.paymentDate.None? && r.transactionId.None?
    ensures r.(paymentDate := o.paymentDate, transactionId := o.transactionId) == o
  {
    o.(paymentDate := None, transactionId := None)
  }

  /** The payment handler's field assignments, with the schema as written,
      leave no payment date on the stored order, whatever `now` was. */
  lemma PaymentDateDroppedAsWritten(o: Order, m: PaymentMethod, now: int, tx: Option<string>)
    ensures var paid := o.(paymentMethod := m, paymentStatus := Paid, paymentDate := Some(now),
                           transactionId := tx, status := Confirmed);
            SchemaAsWritten(paid).paymentDate != paid.paymentDate
  {
  }
}
