/**
 * The checkout screen (frontend/src/components/Checkout.jsx): the delivery
 * date choice, the order payload it builds from the cart, and the screen's own
 * payment-progress state. The HTTP calls and the browser redirect are I/O; the
 * model takes their outcome as an input.
 */
module Checkout {
  import opened Common
  import opened Catalog
  import opened Cart
  import opened OrderModel
  import OrdersApi

  datatype DeliveryOption = Immediate | Later

  /** The screen's `paymentStatus` state (unrelated to the order's `paymentStatus`). */
  datatype ScreenState = InputDetails | Processing | Redirecting | PaidScreen | FailedScreen

  /** The screen's form state. */
  datatype CheckoutForm = CheckoutForm(
    firstName: string,
    lastName: string,
    telegramId: string,
    address: string,
    option: DeliveryOption,
    requiredDate: Option<Date>,
    dateError: string,
    screen: ScreenState)

  const InitialForm: CheckoutForm := CheckoutForm("", "", "", "", Immediate, None, "", InputDetails)

  const DateErrorMessage: string := "Please select a required delivery date."

  /** One entry of the payload's `items`. */
  datatype PayloadItem = PayloadItem(productId: ProductId, quantity: int, name: string, price: int)

  /** `orderDetails`, the body posted to create the order. */
  datatype OrderDetails = OrderDetails(
    firstName: string,
    lastName: string,
    telegramId: string,
    address: string,
    items: seq<PayloadItem>,
    totalAmount: int,
    requiredDate: Option<Date>,
    isImmediate: bool)

  function ToPayloadItem(item: CartItem): PayloadItem {
    PayloadItem(item.id, item.quantity, item.name, item.price)
  }

  function PayloadItems(cart: seq<CartItem>): (items: seq<PayloadItem>)
    ensures |items| == |cart|
    ensures forall i :: 0 <= i < |cart| ==> items[i] == ToPayloadItem(cart[i])
  {
    seq(|cart|, i requires 0 <= i < |cart| => ToPayloadItem(cart[i]))
  }

  /** Price times quantity over payload lines. */
  function PayloadTotal(items: seq<PayloadItem>): int {
    if |items| == 0 then 0 else items[0].price * items[0].quantity + PayloadTotal(items[1..])
  }

  /** The posted `totalAmount` is the sum over the posted lines. */
  lemma {:induction false} PayloadTotalIsCartTotal(cart: seq<CartItem>)
    ensures PayloadTotal(PayloadItems(cart)) == CartTotal(cart)
  {
    if |cart| > 0 {
      PayloadTotalIsCartTotal(cart[1..]);
      assert PayloadItems(cart)[1..] == PayloadItems(cart[1..]);
    }
  }

  /** The outcome of pressing the pay button: the new form and the payload, if one is sent. */
  datatype SubmitStep = SubmitStep(form: CheckoutForm, request: Option<OrderDetails>)

  predicate MissingLaterDate(form: CheckoutForm) {
    form.option == Later && form.requiredDate.None?
  }

  /**
   * `handlePlaceOrderAndInitiatePayment` up to the first request: a later
   * delivery without a date sends nothing and returns to the form with an
   * error; otherwise the payload is built from the cart and the screen
   * shows processing.
   */
  function Submit(form: CheckoutForm, cart: seq<CartItem>): (r: SubmitStep)
    ensures MissingLaterDate(form) <==> r.request.None?
    ensures MissingLaterDate(form) ==>
              r.form == form.(dateError := DateErrorMessage, screen := InputDetails)
    ensures !MissingLaterDate(form) ==>
              && r.form == form.(dateError := "", screen := Processing)
              && r.request.value.isImmediate == (form.option == Immediate)
              && (form.option == Immediate ==> r.request.value.requiredDate.None?)
              && (form.option == Later ==> r.request.value.requiredDate == form.requiredDate)
              && r.request.value.totalAmount == PayloadTotal(r.request.value.items)
              && |r.request.value.items| == |cart|
              && (forall i :: 0 <= i < |cart| ==>
                    && r.request.value.items[i].productId == cart[i].id
                    && r.request.value.items[i].quantity == cart[i].quantity
                    && r.request.value.items[i].name == cart[i].name
                    && r.request.value.items[i].price == cart[i].price)
              && r.request.value.firstName == form.firstName
              && r.request.value.lastName == form.lastName
              && r.request.value.telegramId == form.telegramId
              && r.request.value.address == form.address
  {
    if MissingLaterDate(form) then
      SubmitStep(form.(dateError := DateErrorMessage, screen := InputDetails), None)
    else
      var date := if form.option == Later then form.requiredDate else None;
      PayloadTotalIsCartTotal(cart);
      var details := OrderDetails(
        form.firstName, form.lastName, form.telegramId, form.address,
        PayloadItems(cart), CartTotal(cart), date, form.option == Immediate);
      SubmitStep(form.(dateError := "", screen := Processing), Some(details))
  }

  /** What the two requests came back with. */
  datatype SessionOutcome = SessionResponse(url: Option<string>) | RequestFailed

  /**
   * The end of the submit handler. The screen passes through redirecting and
   * follows the URL only when it is truthy, so a missing or empty URL ends on
   * the failed screen, as does any failed request.
   */
  function FinishSubmit(form: CheckoutForm, outcome: SessionOutcome): (f: CheckoutForm)
    ensures f.screen == Redirecting <==> outcome.SessionResponse? && outcome.url.Some? && outcome.url.value != ""
    ensures f.screen != Redirecting ==> f.screen == FailedScreen
    ensures f == form.(screen := f.screen)
  {
    match outcome
    case SessionResponse(Some(u)) => if u != "" then form.(screen := Redirecting) else form.(screen := FailedScreen)
    case SessionResponse(None) => form.(screen := FailedScreen)
    case RequestFailed => form.(screen := FailedScreen)
  }

  /** The retry button, shown only on the failed screen. */
  function Retry(form: CheckoutForm): CheckoutForm {
    if form.screen == FailedScreen then form.(screen := InputDetails) else form
  }

  /** Retrying brings the form back with everything typed kept, so the next submit sends the same request. */
  lemma RetryResubmits(form: CheckoutForm, cart: seq<CartItem>)
    requires form.screen == FailedScreen
    ensures Retry(form).screen == InputDetails
    ensures Submit(Retry(form), cart) == Submit(form, cart)
  {
  }

  /** The 'Immediate' radio button: clears the date and its error, and nothing else changes. */
  function ChooseImmediate(form: CheckoutForm): (f: CheckoutForm)
    ensures f.option == Immediate && f.requiredDate.None? && f.dateError == ""
    ensures f.(option := form.option, requiredDate := form.requiredDate, dateError := form.dateError) == form
  {
    form.(option := Immediate, requiredDate := None, dateError := "")
  }

  /** The 'Later' radio button: only the option changes. */
  function ChooseLater(form: CheckoutForm): CheckoutForm {
    form.(option := Later)
  }

  /**
   * Switching to 'Immediate' drops a picked date and switching back does not
   * restore it, so a later delivery then needs a new date before it is sent.
   */
  lemma LaterAfterImmediateNeedsDate(form: CheckoutForm, cart: seq<CartItem>)
    ensures Submit(ChooseLater(ChooseImmediate(form)), cart).request.None?
    ensures Submit(ChooseLater(ChooseImmediate(form)), cart).form.dateError == DateErrorMessage
  {
  }

  /** The date picker: stores the date it reports (none when cleared) and clears the error; nothing else changes. */
  function PickDate(form: CheckoutForm, d: Option<Date>): (f: CheckoutForm)
    ensures f.requiredDate == d && f.dateError == ""
    ensures f.(requiredDate := form.requiredDate, dateError := form.dateError) == form
  {
    form.(requiredDate := d, dateError := "")
  }

  /** A date picked for a later delivery always lets the next submit through. */
  lemma PickedDateSubmits(form: CheckoutForm, d: Date, cart: seq<CartItem>)
    ensures Submit(PickDate(ChooseLater(form), Some(d)), cart).request.Some?
    ensures Submit(PickDate(ChooseLater(form), Some(d)), cart).request.value.requiredDate == Some(d)
    ensures !Submit(PickDate(ChooseLater(form), Some(d)), cart).request.value.isImmediate
  {
  }

  /** A cleared date for a later delivery blocks the next submit with the date error. */
  lemma ClearedDateBlocksLater(form: CheckoutForm, cart: seq<CartItem>)
    ensures Submit(PickDate(ChooseLater(form), None), cart).request.None?
    ensures Submit(PickDate(ChooseLater(form), None), cart).form.dateError == DateErrorMessage
  {
  }

  /** The four text inputs of the form. */
  datatype DetailField = FirstNameInput | LastNameInput | TelegramIdInput | AddressInput

  /** The customer details, in form order. */
  function Details(form: CheckoutForm): seq<string> {
    [form.firstName, form.lastName, form.telegramId, form.address]
  }

  function DetailIndex(field: DetailField): (k: nat)
    ensures k < 4
  {
    match field
    case FirstNameInput => 0
    case LastNameInput => 1
    case TelegramIdInput => 2
    case AddressInput => 3
  }

  /** Typing into one input: that detail takes the typed value and the rest of the form is kept. */
  function Edit(form: CheckoutForm, field: DetailField, value: string): (f: CheckoutForm)
    ensures Details(f) == Details(form)[DetailIndex(field) := value]
    ensures f.option == form.option && f.requiredDate == form.requiredDate
    ensures f.dateError == form.dateError && f.screen == form.screen
  {
    match field
    case FirstNameInput => form.(firstName := value)
    case LastNameInput => form.(lastName := value)
    case TelegramIdInput => form.(telegramId := value)
    case AddressInput => form.(address := value)
  }

  /** The request carries the detail as last typed, and typing never decides whether a request is sent. */
  lemma EditedDetailIsSent(form: CheckoutForm, cart: seq<CartItem>, field: DetailField, value: string)
    ensures Submit(Edit(form, field, value), cart).request.Some? == Submit(form, cart).request.Some?
    ensures Submit(Edit(form, field, value), cart).request.Some? ==>
              var d := Submit(Edit(form, field, value), cart).request.value;
              [d.firstName, d.lastName, d.telegramId, d.address][DetailIndex(field)] == value
  {
  }

  datatype UiEvent =
    | SubmitEvent
    | ResponseEvent(outcome: SessionOutcome)
    | RetryEvent
    | ImmediateEvent
    | LaterEvent
    | DateEvent(d: Option<Date>)
    | EditEvent(field: DetailField, value: string)

  /**
   * Whether the page offers an event: the form and its inputs exist only on
   * input_details, the date picker only while 'later' is chosen, the answer
   * arrives while processing, and the retry button is shown only on the
   * failed screen.
   */
  predicate Offered(form: CheckoutForm, ev: UiEvent) {
    match ev
    case ResponseEvent(_) => form.screen == Processing
    case RetryEvent => form.screen == FailedScreen
    case DateEvent(_) => form.screen == InputDetails && form.option == Later
    case _ => form.screen == InputDetails
  }

  /** One event; an event the current screen does not offer changes nothing. */
  function Step(form: CheckoutForm, cart: seq<CartItem>, ev: UiEvent): (f: CheckoutForm)
    ensures !Offered(form, ev) ==> f == form
    ensures form.screen != PaidScreen ==> f.screen != PaidScreen
    ensures !ev.EditEvent? ==> Details(f) == Details(form)
  {
    if !Offered(form, ev) then form
    else
      match ev
      case SubmitEvent => Submit(form, cart).form
      case ResponseEvent(outcome) => FinishSubmit(form, outcome)
      case RetryEvent => Retry(form)
      case ImmediateEvent => ChooseImmediate(form)
      case LaterEvent => ChooseLater(form)
      case DateEvent(d) => PickDate(form, d)
      case EditEvent(field, value) => Edit(form, field, value)
  }

  /** A run of events; without typing, the customer details stay as they were. */
  function Steps(form: CheckoutForm, cart: seq<CartItem>, evs: seq<UiEvent>): (f: CheckoutForm)
    ensures (forall i :: 0 <= i < |evs| ==> !evs[i].EditEvent?) ==> Details(f) == Details(form)
    decreases |evs|
  {
    if |evs| == 0 then form else Steps(Step(form, cart, evs[0]), cart, evs[1..])
  }

  /** The 'paid' screen is rendered but nothing on this screen ever enters it. */
  lemma {:induction false} PaidScreenUnreachable(form: CheckoutForm, cart: seq<CartItem>, evs: seq<UiEvent>)
    requires form.screen != PaidScreen
    ensures Steps(form, cart, evs).screen != PaidScreen
    decreases |evs|
  {
    if |evs| > 0 {
      PaidScreenUnreachable(Step(form, cart, evs[0]), cart, evs[1..]);
    }
  }

  /** The screen's own consistency: while 'immediate' is chosen no date is held. */
  predicate DateOnlyWhenLater(form: CheckoutForm) {
    form.option == Immediate ==> form.requiredDate.None?
  }

  /**
   * Starting from a consistent form (the initial one is), no run of events
   * yields an 'immediate' form holding a date: the immediate button clears it
   * and the picker exists only while 'later' is chosen.
   */
  lemma {:induction false} DateOnlyWhenLaterInvariant(form: CheckoutForm, cart: seq<CartItem>, evs: seq<UiEvent>)
    requires DateOnlyWhenLater(form)
    ensures DateOnlyWhenLater(Steps(form, cart, evs))
    decreases |evs|
  {
    if |evs| > 0 {
      DateOnlyWhenLaterInvariant(Step(form, cart, evs[0]), cart, evs[1..]);
    }
  }

  /** The server's view of payload lines: every field present. */
  function RequestItems(items: seq<PayloadItem>): (r: seq<OrdersApi.RequestItem>)
    ensures |r| == |items|
    ensures forall i :: 0 <= i < |items| ==>
              && r[i].productId == items[i].productId
              && r[i].quantity == Num(items[i].quantity)
              && r[i].name == Some(items[i].name)
              && r[i].price == Some(items[i].price)
  {
    seq(|items|, i requires 0 <= i < |items| =>
      OrdersApi.RequestItem(items[i].productId, Num(items[i].quantity), Some(items[i].name), Some(items[i].price)))
  }

  /** The JSON body as the server reads it: every field present, client names and prices included. */
  function ToOrderRequest(d: OrderDetails): (req: OrdersApi.OrderRequest)
    ensures req.firstName == Some(d.firstName) && req.lastName == Some(d.lastName)
    ensures req.telegramId == Some(d.telegramId) && req.address == Some(d.address)
    ensures req.items == Some(RequestItems(d.items))
    ensures req.totalAmount == Some(d.totalAmount)
    ensures req.requiredDate == d.requiredDate && req.isImmediate == Some(d.isImmediate)
  {
    OrdersApi.OrderRequest(
      Some(d.firstName), Some(d.lastName), Some(d.telegramId), Some(d.address),
      Some(RequestItems(d.items)), Some(d.totalAmount), d.requiredDate, Some(d.isImmediate))
  }
}
