/**
 * The order document (backend/models/Order.js): its fields, the schema's
 * defaults, its `required` / `min` / `enum` validators, and the sparse unique
 * index on `paymentTransactionId`. Amounts are integer cents; dates and
 * timestamps are abstract integers.
 */
module OrderModel {
  import opened Common
  import opened Statuses
  import opened Catalog

  type OrderId = string
  type Time = int
  type Date = int

  /** One stored line of an order: the product reference and the name and price captured at order time. */
  datatype LineItem = LineItem(productId: ProductId, name: string, price: int, quantity: int)

  /** A stored order document, `_id` included. */
  datatype Order = Order(
    id: OrderId,
    firstName: string,
    lastName: string,
    telegramId: string,
    address: string,
    items: seq<LineItem>,
    totalAmount: int,
    orderDate: Time,
    orderStatus: OrderStatus,
    paymentTransactionId: Option<string>,
    paymentStatus: PaymentStatus,
    requiredDate: Option<Date>,
    isImmediate: bool)

  /** A line of a document not yet validated: the quantity is whatever JSON value came in. */
  datatype DraftLine = DraftLine(productId: ProductId, name: string, price: int, quantity: JsonNumber)

  /**
   * A new document before `save()`: any field may be undefined, the enum
   * fields are still strings, and `totalAmount` is None when the computation
   * gave NaN.
   */
  datatype OrderDraft = OrderDraft(
    firstName: Option<string>,
    lastName: Option<string>,
    telegramId: Option<string>,
    address: Option<string>,
    items: seq<DraftLine>,
    totalAmount: Option<int>,
    orderDate: Option<Time>,
    orderStatus: Option<string>,
    paymentTransactionId: Option<string>,
    paymentStatus: Option<string>,
    requiredDate: Option<Date>,
    isImmediate: Option<bool>)

  /** The paths a validation error can name; `ItemQuantity(i)` is `items.i.quantity`. */
  datatype OrderField =
    | FirstName
    | LastName
    | TelegramId
    | Address
    | ItemQuantity(index: nat)
    | TotalAmount
    | OrderStatusField
    | PaymentStatusField
    | RequiredDate

  /**
   * How `requiredDate` is required. The schema as written requires it always;
   * `DateRequiredUnlessImmediate` is the corrected rule under which an
   * immediate order needs no date.
   */
  datatype DateRule = DateAlwaysRequired | DateRequiredUnlessImmediate

  /** `min: 1` together with `required: true` on a line's quantity; `required` rejects null as well as undefined. */
  predicate GoodQuantity(q: JsonNumber) {
    q.Num? && q.n >= 1
  }

  /** The `isImmediate` a draft will carry once the default (true) is applied. */
  function ImmediateOf(d: OrderDraft): bool {
    if d.isImmediate.Some? then d.isImmediate.value else true
  }

  predicate DateSatisfied(requiredDate: Option<Date>, immediate: bool, rule: DateRule) {
    requiredDate.Some? || (rule == DateRequiredUnlessImmediate && immediate)
  }

  /** Whether the draft fails the validator attached to path `f`. */
  predicate Violates(d: OrderDraft, f: OrderField, rule: DateRule) {
    match f
    case FirstName => !PresentString(d.firstName)
    case LastName => !PresentString(d.lastName)
    case TelegramId => !PresentString(d.telegramId)
    case Address => !PresentString(d.address)
    case ItemQuantity(i) => i < |d.items| && !GoodQuantity(d.items[i].quantity)
    case TotalAmount => d.totalAmount.None?
    case OrderStatusField => d.orderStatus.Some? && ParseOrderStatus(d.orderStatus.value).None?
    case PaymentStatusField => d.paymentStatus.Some? && ParsePaymentStatus(d.paymentStatus.value).None?
    case RequiredDate => !DateSatisfied(d.requiredDate, ImmediateOf(d), rule)
  }

  function BadQuantities(items: seq<DraftLine>): (fs: set<OrderField>)
    ensures forall f :: f in fs <==> f.ItemQuantity? && f.index < |items| && !GoodQuantity(items[f.index].quantity)
  {
    set i: nat | i < |items| && !GoodQuantity(items[i].quantity) :: ItemQuantity(i)
  }

  /** The paths other than the per-line quantities. */
  const ScalarFields: set<OrderField> :=
    {FirstName, LastName, TelegramId, Address, TotalAmount, OrderStatusField, PaymentStatusField, RequiredDate}

  /** Every path whose validator fails; mongoose reports them all together. */
  function ValidationErrors(d: OrderDraft, rule: DateRule): set<OrderField> {
    (set f | f in ScalarFields && Violates(d, f, rule)) + BadQuantities(d.items)
  }

  /** The reported paths are exactly the violated ones. */
  lemma ValidationErrorsExact(d: OrderDraft, rule: DateRule)
    ensures forall f :: f in ValidationErrors(d, rule) <==> Violates(d, f, rule)
  {
    forall f
      ensures f in ValidationErrors(d, rule) <==> Violates(d, f, rule)
    {
      if !f.ItemQuantity? {
        assert f in ScalarFields;
      }
    }
  }

  /** The schema's constraints, stated on a stored order. */
  predicate ValidOrder(o: Order, rule: DateRule) {
    && o.firstName != ""
    && o.lastName != ""
    && o.telegramId != ""
    && o.address != ""
    && (forall i :: 0 <= i < |o.items| ==> o.items[i].quantity >= 1)
    && DateSatisfied(o.requiredDate, o.isImmediate, rule)
  }

  function StoredLine(l: DraftLine): LineItem
    requires l.quantity.Num?
  {
    LineItem(l.productId, l.name, l.price, l.quantity.n)
  }

  /**
   * `save()` of a new document: apply the defaults (`orderDate` = now,
   * `orderStatus` = Payment Pending, `paymentStatus` = pending,
   * `isImmediate` = true), then run every validator.
   */
  function Validate(d: OrderDraft, id: OrderId, now: Time, rule: DateRule): (r: Result<Order, set<OrderField>>)
    ensures r.Ok? <==> forall f :: !Violates(d, f, rule)
    ensures r.Err? ==> r.error != {} && forall f :: f in r.error <==> Violates(d, f, rule)
    ensures r.Ok? ==> ValidOrder(r.value, rule)
    ensures r.Ok? ==> && r.value.id == id
                      && Some(r.value.firstName) == d.firstName
                      && Some(r.value.lastName) == d.lastName
                      && Some(r.value.telegramId) == d.telegramId
                      && Some(r.value.address) == d.address
                      && Some(r.value.totalAmount) == d.totalAmount
                      && r.value.paymentTransactionId == d.paymentTransactionId
                      && r.value.requiredDate == d.requiredDate
    ensures r.Ok? ==> |r.value.items| == |d.items|
                      && forall i :: 0 <= i < |d.items| ==>
                           && r.value.items[i].productId == d.items[i].productId
                           && r.value.items[i].name == d.items[i].name
                           && r.value.items[i].price == d.items[i].price
                           && Num(r.value.items[i].quantity) == d.items[i].quantity
    ensures r.Ok? ==> r.value.orderDate == (if d.orderDate.Some? then d.orderDate.value else now)
    ensures r.Ok? ==> (d.orderStatus.None? ==> r.value.orderStatus == DefaultOrderStatus)
                      && (d.orderStatus.Some? ==> OrderStatusName(r.value.orderStatus) == d.orderStatus.value)
    ensures r.Ok? ==> (d.paymentStatus.None? ==> r.value.paymentStatus == DefaultPaymentStatus)
                      && (d.paymentStatus.Some? ==> PaymentStatusName(r.value.paymentStatus) == d.paymentStatus.value)
    ensures r.Ok? ==> (d.isImmediate.None? ==> r.value.isImmediate)
                      && (d.isImmediate.Some? ==> r.value.isImmediate == d.isImmediate.value)
  {
    ValidationErrorsExact(d, rule);
    var errs := ValidationErrors(d, rule);
    if errs != {} then
      Err(errs)
    else
      assert forall i :: 0 <= i < |d.items| ==> GoodQuantity(d.items[i].quantity) by {
        forall i | 0 <= i < |d.items|
          ensures GoodQuantity(d.items[i].quantity)
        {
          assert !Violates(d, ItemQuantity(i), rule);
        }
      }
      assert !Violates(d, FirstName, rule) && !Violates(d, LastName, rule);
      assert !Violates(d, TelegramId, rule) && !Violates(d, Address, rule);
      assert !Violates(d, TotalAmount, rule) && !Violates(d, RequiredDate, rule);
      assert !Violates(d, OrderStatusField, rule) && !Violates(d, PaymentStatusField, rule);
      var items := seq(|d.items|, i requires 0 <= i < |d.items| => StoredLine(d.items[i]));
      var status := if d.orderStatus.Some? then ParseOrderStatus(d.orderStatus.value).value else DefaultOrderStatus;
      var payment := if d.paymentStatus.Some? then ParsePaymentStatus(d.paymentStatus.value).value else DefaultPaymentStatus;
      Ok(Order(
        id, d.firstName.value, d.lastName.value, d.telegramId.value, d.address.value,
        items, d.totalAmount.value,
        if d.orderDate.Some? then d.orderDate.value else now,
        status, d.paymentTransactionId, payment, d.requiredDate, ImmediateOf(d)))
  }

  /** A stored order seen as a document again, every field set. */
  function ToDraft(o: Order): OrderDraft {
    OrderDraft(
      Some(o.firstName), Some(o.lastName), Some(o.telegramId), Some(o.address),
      seq(|o.items|, i requires 0 <= i < |o.items| =>
        DraftLine(o.items[i].productId, o.items[i].name, o.items[i].price, Num(o.items[i].quantity))),
      Some(o.totalAmount), Some(o.orderDate),
      Some(OrderStatusName(o.orderStatus)), o.paymentTransactionId, Some(PaymentStatusName(o.paymentStatus)),
      o.requiredDate, Some(o.isImmediate))
  }

  /** A valid order re-validates to itself: `save()` on an unchanged valid document succeeds and loses nothing. */
  lemma ValidateToDraftRoundTrip(o: Order, now: Time, rule: DateRule)
    requires ValidOrder(o, rule)
    ensures Validate(ToDraft(o), o.id, now, rule) == Ok(o)
  {
    var d := ToDraft(o);
    forall f
      ensures !Violates(d, f, rule)
    {
      if f.ItemQuantity? && f.index < |d.items| {
        assert d.items[f.index].quantity == Num(o.items[f.index].quantity);
      }
      OrderStatusRoundTrip(o.orderStatus);
      PaymentStatusRoundTrip(o.paymentStatus);
    }
    var r := Validate(d, o.id, now, rule);
    OrderStatusNamesInjective(r.value.orderStatus, o.orderStatus);
    PaymentStatusNamesInjective(r.value.paymentStatus, o.paymentStatus);
    assert r.value.items == o.items;
  }

  /** The draft forgets nothing: distinct orders give distinct drafts (up to the id). */
  lemma ToDraftInjective(o1: Order, o2: Order)
    requires o1.id == o2.id
    requires ToDraft(o1) == ToDraft(o2)
    ensures o1 == o2
  {
    OrderStatusNamesInjective(o1.orderStatus, o2.orderStatus);
    PaymentStatusNamesInjective(o1.paymentStatus, o2.paymentStatus);
    assert |o1.items| == |ToDraft(o1).items| == |o2.items|;
    forall i | 0 <= i < |o1.items|
      ensures o1.items[i] == o2.items[i]
    {
      assert ToDraft(o1).items[i] == ToDraft(o2).items[i];
    }
  }

  /** The schema as written accepts fewer orders than the corrected date rule. */
  lemma StrictRuleImpliesRelaxed(o: Order)
    requires ValidOrder(o, DateAlwaysRequired)
    ensures ValidOrder(o, DateRequiredUnlessImmediate)
  {
  }

  /** Sum of price times quantity over stored lines. */
  function LinesTotal(items: seq<LineItem>): int {
    if |items| == 0 then 0 else items[0].price * items[0].quantity + LinesTotal(items[1..])
  }

  type OrderStore = map<OrderId, Order>

  /** The sparse unique index: a present `paymentTransactionId` is held by at most one order. */
  predicate UniqueTransactionIds(store: OrderStore) {
    forall a, b :: a in store && b in store && a != b && store[a].paymentTransactionId.Some?
      ==> store[a].paymentTransactionId != store[b].paymentTransactionId
  }

  datatype SaveError = DuplicateOrderId(id: OrderId) | DuplicateTransactionId(tx: string)

  /** Inserting a new document: the unique indexes on `_id` and `paymentTransactionId` are enforced. */
  function SaveNew(store: OrderStore, o: Order): (r: Result<OrderStore, SaveError>)
    ensures r.Ok? <==>
              && o.id !in store
              && (|| o.paymentTransactionId.None?
                  || forall k :: k in store ==> store[k].paymentTransactionId != o.paymentTransactionId)
    ensures r.Ok? ==> r.value == store[o.id := o]
  {
    if o.id in store then Err(DuplicateOrderId(o.id))
    else if o.paymentTransactionId.Some? && exists k :: k in store && store[k].paymentTransactionId == o.paymentTransactionId then
      Err(DuplicateTransactionId(o.paymentTransactionId.value))
    else Ok(store[o.id := o])
  }

  /** Every successful insert keeps the transaction ids unique, however many orders lack one. */
  lemma SaveNewKeepsTransactionIdsUnique(store: OrderStore, o: Order)
    requires UniqueTransactionIds(store)
    requires SaveNew(store, o).Ok?
    ensures UniqueTransactionIds(SaveNew(store, o).value)
  {
    var s' := SaveNew(store, o).value;
    forall a, b | a in s' && b in s' && a != b && s'[a].paymentTransactionId.Some?
      ensures s'[a].paymentTransactionId != s'[b].paymentTransactionId
    {
      if a == o.id {
        assert b in store;
      } else if b == o.id {
        assert a in store;
      }
    }
  }
}
