/**
 * End-to-end properties that cross the client and the backend, the two
 * discrepancies between the order route, the order schema and the checkout
 * screen, and a worked example with the shop's two bouquets.
 */
module Scenarios {
  import opened Common
  import opened Statuses
  import opened Catalog
  import opened OrderModel
  import opened OrdersApi
  import opened Cart
  import opened Checkout

  /** Every payload the checkout screen sends for an immediate delivery carries no date. */
  lemma ImmediateCheckoutHasNoDate(form: CheckoutForm, cart: seq<CartItem>)
    requires form.option == Immediate
    ensures Submit(form, cart).request.Some?
    ensures Submit(form, cart).request.value.requiredDate.None?
    ensures Submit(form, cart).request.value.isImmediate
  {
  }

  /**
   * Forwarding the delivery fields is not enough under the schema as written:
   * an immediate order from the checkout screen still fails validation on
   * `requiredDate`.
   */
  lemma StrictSchemaRejectsImmediateCheckout(store: OrderStore, catalog: ProductCatalog, form: CheckoutForm,
                                             cart: seq<CartItem>, newId: OrderId, now: Time)
    requires form.option == Immediate
    requires |cart| > 0
    requires forall i :: 0 <= i < |cart| ==> cart[i].id in catalog
    ensures var req := ToOrderRequest(Submit(form, cart).request.value);
            var r := Create(store, catalog, req, newId, now, true, DateAlwaysRequired);
            && r.store == store
            && r.result.Err? && r.result.error.ValidationFailed?
            && RequiredDate in r.result.error.fields
  {
    var details := Submit(form, cart).request.value;
    var req := ToOrderRequest(details);
    assert AllInCatalog(catalog, req.items.value);
    var lines := LookupLines(catalog, req.items.value).value;
    assert Violates(NewOrderDraft(req, lines, true), RequiredDate, DateAlwaysRequired);
  }

  /** The customer filled in every field and the cart holds catalog products in positive quantities. */
  predicate ReadyToOrder(catalog: ProductCatalog, form: CheckoutForm, cart: seq<CartItem>) {
    && form.firstName != "" && form.lastName != "" && form.telegramId != "" && form.address != ""
    && |cart| > 0
    && (forall i :: 0 <= i < |cart| ==> cart[i].id in catalog && cart[i].quantity >= 1)
  }

  /**
   * With the corrected route, whatever the screen sends for a ready cart is
   * stored, as long as the request is sent at all and the id is fresh.
   */
  lemma CheckoutOrderAccepted(store: OrderStore, catalog: ProductCatalog, form: CheckoutForm,
                              cart: seq<CartItem>, newId: OrderId, now: Time)
    requires ReadyToOrder(catalog, form, cart)
    requires Submit(form, cart).request.Some?
    requires newId !in store
    ensures CreateOrderFixed(store, catalog, ToOrderRequest(Submit(form, cart).request.value), newId, now).result.Ok?
  {
    var req := ToOrderRequest(Submit(form, cart).request.value);
    assert Acceptable(catalog, req);
    CreateOrderFixedSucceedsIff(store, catalog, req, newId, now);
  }

  /** The cart's prices agree with the catalog's. */
  predicate PricesCurrent(catalog: ProductCatalog, cart: seq<CartItem>)
    requires forall i :: 0 <= i < |cart| ==> cart[i].id in catalog
  {
    forall i :: 0 <= i < |cart| ==> cart[i].price == catalog[cart[i].id].price
  }

  lemma {:induction false} CatalogTotalOfCurrentCart(catalog: ProductCatalog, cart: seq<CartItem>)
    requires forall i :: 0 <= i < |cart| ==> cart[i].id in catalog
    requires PricesCurrent(catalog, cart)
    ensures CatalogTotal(catalog, RequestItems(PayloadItems(cart))) == CartTotal(cart)
  {
    if |cart| > 0 {
      CatalogTotalOfCurrentCart(catalog, cart[1..]);
      assert RequestItems(PayloadItems(cart))[1..] == RequestItems(PayloadItems(cart[1..]));
    }
  }

  /**
   * The amount the server stores is the catalog's; it equals the total the
   * screen showed exactly when the cart's prices are current.
   */
  lemma StoredTotalMatchesScreenWhenPricesCurrent(store: OrderStore, catalog: ProductCatalog, form: CheckoutForm,
                                                  cart: seq<CartItem>, newId: OrderId, now: Time)
    requires ReadyToOrder(catalog, form, cart)
    requires PricesCurrent(catalog, cart)
    requires Submit(form, cart).request.Some?
    requires newId !in store
    ensures var details := Submit(form, cart).request.value;
            var r := CreateOrderFixed(store, catalog, ToOrderRequest(details), newId, now);
            && r.result.Ok?
            && r.result.value.totalAmount == details.totalAmount == CartTotal(cart)
  {
    var details := Submit(form, cart).request.value;
    var req := ToOrderRequest(details);
    CheckoutOrderAccepted(store, catalog, form, cart, newId, now);
    CreatedTotalIsCatalogTotal(store, catalog, req, newId, now);
    CatalogTotalOfCurrentCart(catalog, cart);
    PayloadTotalIsCartTotal(cart);
  }

  /** The two bouquets the shop seeds its catalog with, priced in cents. */
  const Rose: Product := Product("Rose Bouquet", 4500, "/rose.png")
  const Sunflower: Product := Product("Sunflower Bouquet", 3500, "/sunflower.png")
  const Shop: ProductCatalog := map["rose" := Rose, "sunflower" := Sunflower]

  /** One rose bouquet and two sunflower bouquets, for immediate delivery. */
  const ExampleRequest: OrderRequest := OrderRequest(
    Some("Ada"), Some("Lim"), Some("@ada"), Some("1 Orchard Road"),
    Some([RequestItem("rose", Num(1), Some("Rose Bouquet"), Some(4500)),
          RequestItem("sunflower", Num(2), Some("Sunflower Bouquet"), Some(3500))]),
    Some(11500), None, Some(true))

  /**
   * The example through the route as written and as corrected, then through
   * the status routes: created in Payment Pending, not cancellable there,
   * cancellable once the administrator moves it to Order Received, and the
   * payment status never changes.
   */
  lemma ExampleLifecycle()
    ensures CreateOrder(map[], Shop, ExampleRequest, "o1", 100).result.Err?
    ensures var created := CreateOrderFixed(map[], Shop, ExampleRequest, "o1", 100);
            && created.result.Ok?
            && created.result.value.totalAmount == 11500
            && created.result.value.orderStatus == PaymentPending
            && created.result.value.paymentStatus == Pending
            && CancelOrder(created.store, "o1") == Reply(created.store, Err(NotCancellable))
            && SetStatus(created.store, "o1", Some("Payment Failed")) == Reply(created.store, Err(InvalidStatus))
            && var received := SetStatus(created.store, "o1", Some("Order Received"));
               && received.result.Ok?
               && var cancelled := CancelOrder(received.store, "o1");
                  && cancelled.result.Ok?
                  && cancelled.result.value.orderStatus == Cancelled
                  && cancelled.result.value.paymentStatus == Pending
                  && SetStatus(cancelled.store, "o1", Some("Prepared")).result.Ok?
  {
    var req := ExampleRequest;
    assert Acceptable(Shop, req);
    CreateOrderFixedSucceedsIff(map[], Shop, req, "o1", 100);
    CreatedTotalIsCatalogTotal(map[], Shop, req, "o1", 100);
    var items := req.items.value;
    assert Shop["rose"].price == 4500 && Shop["sunflower"].price == 3500;
    assert CatalogTotal(Shop, items[1..][1..]) == 0 by {
      assert items[1..][1..] == [];
    }
    assert CatalogTotal(Shop, items[1..]) == 7000;
    assert CatalogTotal(Shop, items) == 11500;
  }
}
