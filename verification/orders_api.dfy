/**
 * The order routes of backend/index.js, each reduced to the decision it makes
 * on an abstract store: `POST /orders`, `GET /orders/:id`,
 * `PUT /orders/:id/status` and `PUT /orders/:id/cancel`. Every operation
 * returns the new store together with the response it sends.
 */
module OrdersApi {
  import opened Common
  import opened Statuses
  import opened Catalog
  import opened OrderModel

  /** The failures the routes report. */
  datatype ApiError =
    | EmptyItems                              // "Order must contain items."
    | ProductNotFound(id: ProductId)          // thrown by the catalog lookup
    | ValidationFailed(fields: set<OrderField>)  // thrown by save()
    | DuplicateKey(cause: SaveError)          // thrown by save()
    | InvalidStatus                           // "Invalid order status."
    | OrderNotFound                           // "Order not found."
    | NotCancellable                          // "Order can only be cancelled if ..."

  /** The HTTP status each failure is sent with. */
  function HttpStatus(e: ApiError): (code: int)
    ensures code in {400, 403, 404, 500}
    ensures code == 400 <==> e.EmptyItems? || e.InvalidStatus?
    ensures code == 404 <==> e.OrderNotFound?
    ensures code == 403 <==> e.NotCancellable?
  {
    match e
    case EmptyItems => 400
    case InvalidStatus => 400
    case OrderNotFound => 404
    case NotCancellable => 403
    case ProductNotFound(_) => 500
    case ValidationFailed(_) => 500
    case DuplicateKey(_) => 500
  }

  /** The store after a request, and the response: an order or a failure. */
  datatype Reply = Reply(store: OrderStore, result: Result<Order, ApiError>)

  /** One entry of the request's `items`; the client's name and price ride along unused. */
  datatype RequestItem = RequestItem(productId: ProductId, quantity: JsonNumber, name: Option<string>, price: Option<int>)

  /** The body of `POST /orders`; every field may be absent. */
  datatype OrderRequest = OrderRequest(
    firstName: Option<string>,
    lastName: Option<string>,
    telegramId: Option<string>,
    address: Option<string>,
    items: Option<seq<RequestItem>>,
    totalAmount: Option<int>,
    requiredDate: Option<Date>,
    isImmediate: Option<bool>)

  predicate HasItems(req: OrderRequest) {
    req.items.Some? && |req.items.value| > 0
  }

  predicate AllInCatalog(catalog: ProductCatalog, items: seq<RequestItem>) {
    forall i :: 0 <= i < |items| ==> items[i].productId in catalog
  }

  /** The line the server builds for a request item: name and price from the catalog, quantity from the request. */
  function CatalogLine(catalog: ProductCatalog, item: RequestItem): DraftLine
    requires item.productId in catalog
  {
    DraftLine(item.productId, catalog[item.productId].name, catalog[item.productId].price, item.quantity)
  }

  /**
   * The catalog lookup of every item. Any missing product aborts the whole
   * creation; which missing id the source reports depends on lookup timing,
   * so the contract only promises that it is one of them.
   */
  function LookupLines(catalog: ProductCatalog, items: seq<RequestItem>): (r: Result<seq<DraftLine>, ProductId>)
    ensures r.Ok? <==> AllInCatalog(catalog, items)
    ensures r.Err? ==> r.error !in catalog && exists i :: 0 <= i < |items| && items[i].productId == r.error
    ensures r.Ok? ==> |r.value| == |items|
                      && forall i :: 0 <= i < |items| ==> r.value[i] == CatalogLine(catalog, items[i])
  {
    if |items| == 0 then Ok([])
    else if items[0].productId !in catalog then Err(items[0].productId)
    else
      match LookupLines(catalog, items[1..])
      case Err(p) => Err(p)
      case Ok(rest) => Ok([CatalogLine(catalog, items[0])] + rest)
  }

  /**
   * The server-side `reduce` over the built lines; None stands for NaN, the
   * value JavaScript gives once a quantity is undefined. A null quantity
   * multiplies as 0 and leaves the total a number.
   */
  function DraftTotal(lines: seq<DraftLine>): (t: Option<int>)
    ensures t.Some? <==> forall i :: 0 <= i < |lines| ==> !lines[i].quantity.Undefined?
  {
    if |lines| == 0 then Some(0)
    else
      var rest := DraftTotal(lines[1..]);
      if !lines[0].quantity.Undefined? && rest.Some? then Some(lines[0].price * NumericValue(lines[0].quantity) + rest.value)
      else None
  }

  /** The number a defined JSON quantity contributes to a product: null counts as 0. */
  function NumericValue(q: JsonNumber): int
    requires !q.Undefined?
  {
    if q.Null? then 0 else q.n
  }

  /** Independent reference for the amount due: catalog price times requested quantity, summed. */
  function CatalogTotal(catalog: ProductCatalog, items: seq<RequestItem>): int
    requires AllInCatalog(catalog, items)
    requires forall i :: 0 <= i < |items| ==> !items[i].quantity.Undefined?
  {
    if |items| == 0 then 0
    else catalog[items[0].productId].price * NumericValue(items[0].quantity) + CatalogTotal(catalog, items[1..])
  }

  lemma {:induction false} DraftTotalIsCatalogTotal(catalog: ProductCatalog, items: seq<RequestItem>)
    requires AllInCatalog(catalog, items)
    requires forall i :: 0 <= i < |items| ==> !items[i].quantity.Undefined?
    ensures DraftTotal(LookupLines(catalog, items).value) == Some(CatalogTotal(catalog, items))
  {
    if |items| > 0 {
      var lines := LookupLines(catalog, items).value;
      DraftTotalIsCatalogTotal(catalog, items[1..]);
      assert lines[1..] == LookupLines(catalog, items[1..]).value;
    }
  }

  /** Stored lines that copy draft lines sum to the draft's total. */
  lemma {:induction false} LinesTotalOfDraft(items: seq<LineItem>, lines: seq<DraftLine>)
    requires |items| == |lines|
    requires forall i :: 0 <= i < |items| ==>
               items[i].price == lines[i].price && Num(items[i].quantity) == lines[i].quantity
    ensures DraftTotal(lines) == Some(LinesTotal(items))
  {
    if |items| > 0 {
      LinesTotalOfDraft(items[1..], lines[1..]);
    }
  }

  /** The document `POST /orders` hands to the model. `forwardDelivery` false is the code as written. */
  function NewOrderDraft(req: OrderRequest, lines: seq<DraftLine>, forwardDelivery: bool): (d: OrderDraft)
    ensures d.firstName == req.firstName && d.lastName == req.lastName
    ensures d.telegramId == req.telegramId && d.address == req.address
    ensures d.items == lines
    ensures d.totalAmount.Some? <==> forall i :: 0 <= i < |lines| ==> !lines[i].quantity.Undefined?
    ensures d.orderDate.None? && d.orderStatus.None? && d.paymentTransactionId.None? && d.paymentStatus.None?
    ensures forwardDelivery ==> d.requiredDate == req.requiredDate && d.isImmediate == req.isImmediate
    ensures !forwardDelivery ==> Violates(d, RequiredDate, DateAlwaysRequired)
  {
    OrderDraft(
      req.firstName, req.lastName, req.telegramId, req.address,
      lines, DraftTotal(lines),
      None, None, None, None,
      if forwardDelivery then req.requiredDate else None,
      if forwardDelivery then req.isImmediate else None)
  }

  /** The creation handler, parameterised by what it forwards and by the schema's date rule. */
  function Create(store: OrderStore, catalog: ProductCatalog, req: OrderRequest, newId: OrderId, now: Time,
                  forwardDelivery: bool, rule: DateRule): (r: Reply)
    ensures r.result.Err? ==> r.store == store
    ensures !HasItems(req) ==> r.result == Err(EmptyItems)
    ensures HasItems(req) && !AllInCatalog(catalog, req.items.value) ==> r.result.Err? && r.result.error.ProductNotFound?
    ensures r.result.Ok? ==>
              && HasItems(req) && AllInCatalog(catalog, req.items.value)
              && newId !in store
              && r.store == store[newId := r.result.value]
              && r.result.value.id == newId
              && Some(r.result.value.firstName) == req.firstName
              && Some(r.result.value.lastName) == req.lastName
              && Some(r.result.value.telegramId) == req.telegramId
              && Some(r.result.value.address) == req.address
              && ValidOrder(r.result.value, rule)
  {
    if !HasItems(req) then Reply(store, Err(EmptyItems))
    else
      match LookupLines(catalog, req.items.value)
      case Err(p) => Reply(store, Err(ProductNotFound(p)))
      case Ok(lines) =>
        match Validate(NewOrderDraft(req, lines, forwardDelivery), newId, now, rule)
        case Err(fields) => Reply(store, Err(ValidationFailed(fields)))
        case Ok(o) =>
          match SaveNew(store, o)
          case Err(e) => Reply(store, Err(DuplicateKey(e)))
          case Ok(store') => Reply(store', Ok(o))
  }

  /**
   * `POST /orders` as written: `requiredDate` is never passed to the model,
   * whose schema requires it, so no request ever creates an order.
   */
  function CreateOrder(store: OrderStore, catalog: ProductCatalog, req: OrderRequest, newId: OrderId, now: Time): (r: Reply)
    ensures r.store == store && r.result.Err?
    ensures !HasItems(req) ==> r.result.error == EmptyItems
    ensures HasItems(req) && !AllInCatalog(catalog, req.items.value) ==>
              r.result.error.ProductNotFound? && r.result.error.id !in catalog
    ensures HasItems(req) && AllInCatalog(catalog, req.items.value) ==>
              r.result.error.ValidationFailed? && RequiredDate in r.result.error.fields
  {
    var r := Create(store, catalog, req, newId, now, false, DateAlwaysRequired);
    if HasItems(req) && AllInCatalog(catalog, req.items.value) then
      var d := NewOrderDraft(req, LookupLines(catalog, req.items.value).value, false);
      assert Violates(d, RequiredDate, DateAlwaysRequired);
      r
    else r
  }

  /** Whether `req` satisfies every constraint the corrected creation checks. */
  predicate Acceptable(catalog: ProductCatalog, req: OrderRequest) {
    && HasItems(req)
    && AllInCatalog(catalog, req.items.value)
    && PresentString(req.firstName)
    && PresentString(req.lastName)
    && PresentString(req.telegramId)
    && PresentString(req.address)
    && (forall i :: 0 <= i < |req.items.value| ==> GoodQuantity(req.items.value[i].quantity))
    && DateSatisfied(req.requiredDate, if req.isImmediate.Some? then req.isImmediate.value else true,
                     DateRequiredUnlessImmediate)
  }

  /**
   * `POST /orders` corrected: the delivery fields are forwarded, and the date
   * is required only for orders that are not immediate.
   */
  function CreateOrderFixed(store: OrderStore, catalog: ProductCatalog, req: OrderRequest, newId: OrderId, now: Time): (r: Reply)
    ensures r.result.Err? ==> r.store == store
    ensures !HasItems(req) ==> r.result == Err(EmptyItems)
    ensures HasItems(req) && !AllInCatalog(catalog, req.items.value) ==>
              r.result.Err? && r.result.error.ProductNotFound? && r.result.error.id !in catalog
    ensures r.result.Ok? ==>
              var o := r.result.value;
              && HasItems(req) && AllInCatalog(catalog, req.items.value)
              && r.store == store[newId := o]
              && newId !in store
              && o.id == newId
              && Some(o.firstName) == req.firstName
              && Some(o.lastName) == req.lastName
              && Some(o.telegramId) == req.telegramId
              && Some(o.address) == req.address
              && |o.items| == |req.items.value|
              && (forall i :: 0 <= i < |o.items| ==>
                    var item := req.items.value[i];
                    && o.items[i].productId == item.productId
                    && o.items[i].name == catalog[item.productId].name
                    && o.items[i].price == catalog[item.productId].price
                    && Num(o.items[i].quantity) == item.quantity)
              && o.totalAmount == LinesTotal(o.items)
              && o.orderStatus == PaymentPending
              && o.paymentStatus == Pending
              && o.paymentTransactionId.None?
              && o.orderDate == now
              && o.requiredDate == req.requiredDate
              && o.isImmediate == (if req.isImmediate.Some? then req.isImmediate.value else true)
              && ValidOrder(o, DateRequiredUnlessImmediate)
  {
    var r := Create(store, catalog, req, newId, now, true, DateRequiredUnlessImmediate);
    if r.result.Ok? then
      var lines := LookupLines(catalog, req.items.value).value;
      LinesTotalOfDraft(r.result.value.items, lines);
      r
    else r
  }

  /** The corrected creation succeeds exactly on acceptable requests with a fresh id. */
  lemma CreateOrderFixedSucceedsIff(store: OrderStore, catalog: ProductCatalog, req: OrderRequest, newId: OrderId, now: Time)
    ensures CreateOrderFixed(store, catalog, req, newId, now).result.Ok? <==> Acceptable(catalog, req) && newId !in store
  {
    if HasItems(req) && AllInCatalog(catalog, req.items.value) {
      var lines := LookupLines(catalog, req.items.value).value;
      var d := NewOrderDraft(req, lines, true);
      if Acceptable(catalog, req) {
        forall f
          ensures !Violates(d, f, DateRequiredUnlessImmediate)
        {
          if f.ItemQuantity? && f.index < |lines| {
            assert lines[f.index].quantity == req.items.value[f.index].quantity;
          }
        }
      } else {
        if !(forall i :: 0 <= i < |req.items.value| ==> GoodQuantity(req.items.value[i].quantity)) {
          var i :| 0 <= i < |req.items.value| && !GoodQuantity(req.items.value[i].quantity);
          assert Violates(d, ItemQuantity(i), DateRequiredUnlessImmediate);
        } else {
          assert Violates(d, FirstName, DateRequiredUnlessImmediate) || Violates(d, LastName, DateRequiredUnlessImmediate)
              || Violates(d, TelegramId, DateRequiredUnlessImmediate) || Violates(d, Address, DateRequiredUnlessImmediate)
              || Violates(d, RequiredDate, DateRequiredUnlessImmediate);
        }
      }
    }
  }

  /**
   * A null quantity is reported on its own line only: it multiplies as 0, so
   * the total stays a number and is not among the failures.
   */
  lemma NullQuantityFailsOnlyItsLine(store: OrderStore, catalog: ProductCatalog, req: OrderRequest,
                                     newId: OrderId, now: Time, i: nat)
    requires HasItems(req) && AllInCatalog(catalog, req.items.value)
    requires forall j :: 0 <= j < |req.items.value| ==> !req.items.value[j].quantity.Undefined?
    requires i < |req.items.value| && req.items.value[i].quantity.Null?
    ensures var r := CreateOrderFixed(store, catalog, req, newId, now);
            && r.store == store
            && r.result.Err? && r.result.error.ValidationFailed?
            && ItemQuantity(i) in r.result.error.fields
            && TotalAmount !in r.result.error.fields
  {
    var lines := LookupLines(catalog, req.items.value).value;
    var d := NewOrderDraft(req, lines, true);
    assert lines[i].quantity == req.items.value[i].quantity;
    assert Violates(d, ItemQuantity(i), DateRequiredUnlessImmediate);
    assert forall j :: 0 <= j < |lines| ==> lines[j].quantity == req.items.value[j].quantity;
    assert !Violates(d, TotalAmount, DateRequiredUnlessImmediate);
  }

  /** The amount stored is the catalog's amount, whatever the client computed. */
  lemma CreatedTotalIsCatalogTotal(store: OrderStore, catalog: ProductCatalog, req: OrderRequest, newId: OrderId, now: Time)
    requires CreateOrderFixed(store, catalog, req, newId, now).result.Ok?
    ensures forall i :: 0 <= i < |req.items.value| ==> req.items.value[i].quantity.Num?
    ensures CreateOrderFixed(store, catalog, req, newId, now).result.value.totalAmount == CatalogTotal(catalog, req.items.value)
  {
    var o := CreateOrderFixed(store, catalog, req, newId, now).result.value;
    assert forall i :: 0 <= i < |req.items.value| ==> req.items.value[i].quantity.Num? by {
      forall i | 0 <= i < |req.items.value|
        ensures req.items.value[i].quantity.Num?
      {
        assert Num(o.items[i].quantity) == req.items.value[i].quantity;
      }
    }
    var lines := LookupLines(catalog, req.items.value).value;
    DraftTotalIsCatalogTotal(catalog, req.items.value);
    LinesTotalOfDraft(o.items, lines);
  }

  /** Two requests that differ only in what the server ignores: the client's total and item names and prices. */
  predicate SameOrderContent(req: OrderRequest, req': OrderRequest) {
    && req.firstName == req'.firstName
    && req.lastName == req'.lastName
    && req.telegramId == req'.telegramId
    && req.address == req'.address
    && req.requiredDate == req'.requiredDate
    && req.isImmediate == req'.isImmediate
    && req.items.Some? == req'.items.Some?
    && (req.items.Some? ==>
          && |req.items.value| == |req'.items.value|
          && forall i :: 0 <= i < |req.items.value| ==>
               && req.items.value[i].productId == req'.items.value[i].productId
               && req.items.value[i].quantity == req'.items.value[i].quantity)
  }

  lemma {:induction false} LookupIgnoresClientFields(catalog: ProductCatalog, items: seq<RequestItem>, items': seq<RequestItem>)
    requires |items| == |items'|
    requires forall i :: 0 <= i < |items| ==>
               items[i].productId == items'[i].productId && items[i].quantity == items'[i].quantity
    ensures LookupLines(catalog, items) == LookupLines(catalog, items')
  {
    if |items| > 0 {
      LookupIgnoresClientFields(catalog, items[1..], items'[1..]);
    }
  }

  /** The client-sent total, names and prices have no effect on the outcome. */
  lemma CreationIgnoresClientPricing(store: OrderStore, catalog: ProductCatalog, req: OrderRequest, req': OrderRequest,
                                     newId: OrderId, now: Time)
    requires SameOrderContent(req, req')
    ensures CreateOrderFixed(store, catalog, req, newId, now) == CreateOrderFixed(store, catalog, req', newId, now)
    ensures CreateOrder(store, catalog, req, newId, now) == CreateOrder(store, catalog, req', newId, now)
  {
    if req.items.Some? {
      LookupIgnoresClientFields(catalog, req.items.value, req'.items.value);
    }
  }

  /** `GET /orders/:id`. */
  function GetOrder(store: OrderStore, id: OrderId): (r: Result<Order, ApiError>)
    ensures r.Ok? <==> id in store
    ensures r.Ok? ==> r.value == store[id]
    ensures r.Err? ==> r.error == OrderNotFound
  {
    if id in store then Ok(store[id]) else Err(OrderNotFound)
  }

  /** The literal list `PUT /orders/:id/status` checks the requested status against. */
  const AdminStatusNames: seq<string> := ["Order Received", "Prepared", "On Its Way", "Delivered", "Cancelled"]

  /**
   * `PUT /orders/:id/status`: the status string is checked first, then the
   * order is looked up and only its `orderStatus` is overwritten. The current
   * status is not consulted.
   */
  function SetStatus(store: OrderStore, id: OrderId, status: Option<string>): (r: Reply)
    ensures r.result.Err? ==> r.store == store
    ensures status.None? || status.value !in AdminStatusNames ==> r.result == Err(InvalidStatus)
    ensures status.Some? && status.value in AdminStatusNames && id !in store ==> r.result == Err(OrderNotFound)
    ensures status.Some? && status.value in AdminStatusNames && id in store ==> r.result.Ok?
    ensures r.result.Ok? ==>
              && id in store
              && status.Some? && OrderStatusName(r.result.value.orderStatus) == status.value
              && r.result.value == store[id].(orderStatus := r.result.value.orderStatus)
              && r.store == store[id := r.result.value]
  {
    if status.None? || status.value !in AdminStatusNames then Reply(store, Err(InvalidStatus))
    else if id !in store then Reply(store, Err(OrderNotFound))
    else
      var o := store[id].(orderStatus := ParseOrderStatus(status.value).value);
      Reply(store[id := o], Ok(o))
  }

  /** The statuses an administrator can set: every status except the two payment states. */
  predicate AdminSettable(s: OrderStatus) {
    s != PaymentPending && s != PaymentFailed
  }

  /** Set-status succeeds exactly for an existing order and the name of a settable status, whatever the current status. */
  lemma SetStatusSucceedsIff(store: OrderStore, id: OrderId, status: Option<string>)
    ensures SetStatus(store, id, status).result.Ok? <==>
              id in store && status.Some? && exists s :: AdminSettable(s) && OrderStatusName(s) == status.value
    ensures SetStatus(store, id, status).result.Ok? ==> AdminSettable(SetStatus(store, id, status).result.value.orderStatus)
  {
    if status.Some? && (exists s :: AdminSettable(s) && OrderStatusName(s) == status.value) {
      var s :| AdminSettable(s) && OrderStatusName(s) == status.value;
      assert status.value in AdminStatusNames by {
        match s
        case OrderReceived =>
        case Prepared =>
        case OnItsWay =>
        case Delivered =>
        case Cancelled =>
      }
    }
    if SetStatus(store, id, status).result.Ok? {
      var s := SetStatus(store, id, status).result.value.orderStatus;
      assert OrderStatusName(s) in AdminStatusNames;
    }
  }

  /** `PUT /orders/:id/cancel`: only an order in Order Received is cancelled; nothing but its status changes. */
  function CancelOrder(store: OrderStore, id: OrderId): (r: Reply)
    ensures r.result.Err? ==> r.store == store
    ensures id !in store ==> r.result == Err(OrderNotFound)
    ensures id in store && store[id].orderStatus != OrderReceived ==> r.result == Err(NotCancellable)
    ensures r.result.Ok? <==> id in store && store[id].orderStatus == OrderReceived
    ensures r.result.Ok? ==>
              && r.result.value == store[id].(orderStatus := Cancelled)
              && r.store == store[id := r.result.value]
  {
    if id !in store then Reply(store, Err(OrderNotFound))
    else if store[id].orderStatus != OrderReceived then Reply(store, Err(NotCancellable))
    else
      var o := store[id].(orderStatus := Cancelled);
      Reply(store[id := o], Ok(o))
  }

  /** A second cancellation is refused and changes nothing. */
  lemma CancelTwiceRefused(store: OrderStore, id: OrderId)
    requires CancelOrder(store, id).result.Ok?
    ensures var s1 := CancelOrder(store, id).store;
            CancelOrder(s1, id) == Reply(s1, Err(NotCancellable))
  {
  }

  /** Invariant of every reachable store. */
  predicate StoreInvariant(store: OrderStore) {
    && (forall k :: k in store ==>
          && store[k].id == k
          && ValidOrder(store[k], DateRequiredUnlessImmediate)
          && store[k].totalAmount == LinesTotal(store[k].items))
    && UniqueTransactionIds(store)
  }

  /** No modelled route writes the payment fields: they keep their creation values. */
  predicate PaymentUntouched(store: OrderStore) {
    forall k :: k in store ==> store[k].paymentStatus == Pending && store[k].paymentTransactionId.None?
  }

  /** The requests the backend serves that can change the store. */
  datatype Op =
    | CreateOp(req: OrderRequest, newId: OrderId, now: Time)
    | SetStatusOp(id: OrderId, status: Option<string>)
    | CancelOp(id: OrderId)

  function Apply(store: OrderStore, catalog: ProductCatalog, op: Op): Reply {
    match op
    case CreateOp(req, newId, now) => CreateOrderFixed(store, catalog, req, newId, now)
    case SetStatusOp(id, status) => SetStatus(store, id, status)
    case CancelOp(id) => CancelOrder(store, id)
  }

  function Run(store: OrderStore, catalog: ProductCatalog, ops: seq<Op>): OrderStore
    decreases |ops|
  {
    if |ops| == 0 then store else Run(Apply(store, catalog, ops[0]).store, catalog, ops[1..])
  }

  lemma ApplyPreservesInvariant(store: OrderStore, catalog: ProductCatalog, op: Op)
    requires StoreInvariant(store) && PaymentUntouched(store)
    ensures StoreInvariant(Apply(store, catalog, op).store)
    ensures PaymentUntouched(Apply(store, catalog, op).store)
  {
    var r := Apply(store, catalog, op);
    if r.result.Ok? {
      var o := r.result.value;
      assert r.store == store[o.id := o];
    }
  }

  /** Every sequence of requests keeps the store invariant and leaves the payment fields untouched. */
  lemma {:induction false} RunPreservesInvariant(store: OrderStore, catalog: ProductCatalog, ops: seq<Op>)
    requires StoreInvariant(store) && PaymentUntouched(store)
    ensures StoreInvariant(Run(store, catalog, ops))
    ensures PaymentUntouched(Run(store, catalog, ops))
    decreases |ops|
  {
    if |ops| > 0 {
      ApplyPreservesInvariant(store, catalog, ops[0]);
      RunPreservesInvariant(Apply(store, catalog, ops[0]).store, catalog, ops[1..]);
    }
  }

  /** Only the administrator's set-status moves an order out of Payment Pending. */
  lemma OnlyAdminLeavesPaymentPending(store: OrderStore, catalog: ProductCatalog, op: Op, id: OrderId)
    requires id in store && store[id].orderStatus == PaymentPending
    requires !(op.SetStatusOp? && op.id == id)
    ensures id in Apply(store, catalog, op).store
    ensures Apply(store, catalog, op).store[id] == store[id]
  {
  }
}
