/**
 * The two status enumerations of an order (backend/models/Order.js) and their
 * wire names. Mongoose stores them as strings and rejects any string outside the
 * enumeration; the model keeps them as datatypes and parses the strings.
 */
module Statuses {
  import opened Common

  /** The seven values of `orderStatus`. */
  datatype OrderStatus =
    | OrderReceived
    | Prepared
    | OnItsWay
    | Delivered
    | Cancelled
    | PaymentPending
    | PaymentFailed

  /** The five values of `paymentStatus`. */
  datatype PaymentStatus =
    | Pending
    | WaitingPayment
    | Paid
    | Failed
    | Refunded

  function OrderStatusName(s: OrderStatus): string {
    match s
    case OrderReceived => "Order Received"
    case Prepared => "Prepared"
    case OnItsWay => "On Its Way"
    case Delivered => "Delivered"
    case Cancelled => "Cancelled"
    case PaymentPending => "Payment Pending"
    case PaymentFailed => "Payment Failed"
  }

  function PaymentStatusName(s: PaymentStatus): string {
    match s
    case Pending => "pending"
    case WaitingPayment => "waiting_payment"
    case Paid => "paid"
    case Failed => "failed"
    case Refunded => "refunded"
  }

  /** The schema's enum for `orderStatus`, in declaration order. */
  const OrderStatusEnum: seq<string> :=
    ["Order Received", "Prepared", "On Its Way", "Delivered", "Cancelled", "Payment Pending", "Payment Failed"]

  /** The schema's enum for `paymentStatus`, in declaration order. */
  const PaymentStatusEnum: seq<string> :=
    ["pending", "waiting_payment", "paid", "failed", "refunded"]

  /** Defaults the schema applies when a new document leaves the field out. */
  const DefaultOrderStatus: OrderStatus := PaymentPending
  const DefaultPaymentStatus: PaymentStatus := Pending

  /** The enum validator plus the cast: a string becomes a status iff it is an enum member. */
  function ParseOrderStatus(name: string): (r: Option<OrderStatus>)
    ensures r.Some? <==> name in OrderStatusEnum
    ensures r.Some? ==> OrderStatusName(r.value) == name
  {
    if name == "Order Received" then Some(OrderReceived)
    else if name == "Prepared" then Some(Prepared)
    else if name == "On Its Way" then Some(OnItsWay)
    else if name == "Delivered" then Some(Delivered)
    else if name == "Cancelled" then Some(Cancelled)
    else if name == "Payment Pending" then Some(PaymentPending)
    else if name == "Payment Failed" then Some(PaymentFailed)
    else None
  }

  function ParsePaymentStatus(name: string): (r: Option<PaymentStatus>)
    ensures r.Some? <==> name in PaymentStatusEnum
    ensures r.Some? ==> PaymentStatusName(r.value) == name
  {
    if name == "pending" then Some(Pending)
    else if name == "waiting_payment" then Some(WaitingPayment)
    else if name == "paid" then Some(Paid)
    else if name == "failed" then Some(Failed)
    else if name == "refunded" then Some(Refunded)
    else None
  }

  /** Every order status is named by exactly one enum member, and parsing its name gives it back. */
  lemma OrderStatusRoundTrip(s: OrderStatus)
    ensures OrderStatusName(s) in OrderStatusEnum
    ensures ParseOrderStatus(OrderStatusName(s)) == Some(s)
  {
  }

  lemma PaymentStatusRoundTrip(s: PaymentStatus)
    ensures PaymentStatusName(s) in PaymentStatusEnum
    ensures ParsePaymentStatus(PaymentStatusName(s)) == Some(s)
  {
  }

  /** Distinct statuses have distinct names, so the string form loses nothing. */
  lemma OrderStatusNamesInjective(s: OrderStatus, t: OrderStatus)
    ensures OrderStatusName(s) == OrderStatusName(t) <==> s == t
  {
    OrderStatusRoundTrip(s);
    OrderStatusRoundTrip(t);
  }

  lemma PaymentStatusNamesInjective(s: PaymentStatus, t: PaymentStatus)
    ensures PaymentStatusName(s) == PaymentStatusName(t) <==> s == t
  {
    PaymentStatusRoundTrip(s);
    PaymentStatusRoundTrip(t);
  }

  /** The enumerations have exactly seven and five members. */
  lemma EnumSizes()
    ensures |set s: OrderStatus | true :: OrderStatusName(s)| == 7
    ensures |set s: PaymentStatus | true :: PaymentStatusName(s)| == 5
  {
    var names := set s: OrderStatus | true :: OrderStatusName(s);
    assert names == {"Order Received", "Prepared", "On Its Way", "Delivered", "Cancelled", "Payment Pending", "Payment Failed"} by {
      forall n | n in names
        ensures n in {"Order Received", "Prepared", "On Its Way", "Delivered", "Cancelled", "Payment Pending", "Payment Failed"}
      {
        var s :| s in [OrderReceived, Prepared, OnItsWay, Delivered, Cancelled, PaymentPending, PaymentFailed] && OrderStatusName(s) == n;
      }
      assert OrderStatusName(OrderReceived) in names;
      assert OrderStatusName(Prepared) in names;
      assert OrderStatusName(OnItsWay) in names;
      assert OrderStatusName(Delivered) in names;
      assert OrderStatusName(Cancelled) in names;
      assert OrderStatusName(PaymentPending) in names;
      assert OrderStatusName(PaymentFailed) in names;
    }
    var pnames := set s: PaymentStatus | true :: PaymentStatusName(s);
    assert pnames == {"pending", "waiting_payment", "paid", "failed", "refunded"} by {
      assert PaymentStatusName(Pending) in pnames;
      assert PaymentStatusName(WaitingPayment) in pnames;
      assert PaymentStatusName(Paid) in pnames;
      assert PaymentStatusName(Failed) in pnames;
      assert PaymentStatusName(Refunded) in pnames;
    }
  }
}
