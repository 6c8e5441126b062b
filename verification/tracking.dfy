/**
 * Order tracking on the home page (frontend/src/components/Home.jsx): the
 * empty-id guard, the handling of the lookup's response, the client-side
 * cancel guard and the status badge.
 */
module Tracking {
  import opened Common
  import opened Statuses
  import opened OrderModel
  import OrdersApi

  /** The tracking part of the page: the typed id, the order on display, the error line. */
  datatype TrackView = TrackView(input: OrderId, tracked: Option<Order>, error: string)

  const EnterIdMessage: string := "Please enter an Order ID."
  const NotFoundMessage: string := "Order not found. Please check the ID."
  const TrackFailedMessage: string := "Failed to track order. Please try again."

  /** The page after the Track button, and the id looked up, if any. */
  datatype TrackStart = TrackStart(view: TrackView, lookup: Option<OrderId>)

  /** `handleTrackOrder` up to the request: previous results are cleared; an empty id stops here. */
  function StartTrack(view: TrackView): (r: TrackStart)
    ensures r.view.tracked.None? && r.view.input == view.input
    ensures r.lookup.None? <==> view.input == ""
    ensures view.input == "" ==> r.view.error == EnterIdMessage
    ensures view.input != "" ==> r.lookup == Some(view.input) && r.view.error == ""
  {
    if view.input == "" then TrackStart(view.(tracked := None, error := EnterIdMessage), None)
    else TrackStart(view.(tracked := None, error := ""), Some(view.input))
  }

  /** What the lookup came back with. */
  datatype LookupResult = Found(order: Order) | NotFoundResponse | OtherFailure

  /** The response handling: show the order, or the message for a 404, or the generic one. */
  function FinishTrack(view: TrackView, res: LookupResult): (v: TrackView)
    ensures v.input == view.input
    ensures res.Found? ==> v.tracked == Some(res.order) && v.error == view.error
    ensures res.NotFoundResponse? ==> v.tracked == view.tracked && v.error == NotFoundMessage
    ensures res.OtherFailure? ==> v.tracked == view.tracked && v.error == TrackFailedMessage
  {
    match res
    case Found(o) => view.(tracked := Some(o))
    case NotFoundResponse => view.(error := NotFoundMessage)
    case OtherFailure => view.(error := TrackFailedMessage)
  }

  /** The backend's answer to `GET /orders/:id` as the page sees it. */
  function Lookup(store: OrderStore, id: OrderId): (res: LookupResult)
    ensures res.Found? <==> id in store
    ensures res.Found? ==> res.order == store[id]
    ensures !res.OtherFailure?
  {
    match OrdersApi.GetOrder(store, id)
    case Ok(o) => Found(o)
    case Err(_) => NotFoundResponse
  }

  /** A full Track click against a store. */
  function Track(store: OrderStore, view: TrackView): (v: TrackView)
    ensures view.input == "" ==> v.tracked.None? && v.error == EnterIdMessage
    ensures view.input != "" && view.input in store ==> v.tracked == Some(store[view.input]) && v.error == ""
    ensures view.input != "" && view.input !in store ==> v.tracked.None? && v.error == NotFoundMessage
  {
    var start := StartTrack(view);
    match start.lookup
    case None => start.view
    case Some(id) => FinishTrack(start.view, Lookup(store, id))
  }

  /** The Cancel Order button is rendered only for an order in Order Received. */
  predicate ShowCancelButton(o: Order) {
    o.orderStatus == OrderReceived
  }

  /** `handleCancelOrder`: the id sent to `PUT /orders/:id/cancel`, if the guard and the confirmation let it through. */
  function CancelRequest(view: TrackView, confirmed: bool): (r: Option<OrderId>)
    ensures r.Some? <==> view.tracked.Some? && ShowCancelButton(view.tracked.value) && confirmed
    ensures r.Some? ==> r.value == view.tracked.value.id
  {
    if view.tracked.None? || view.tracked.value.orderStatus != OrderReceived then None
    else if confirmed then Some(view.tracked.value.id)
    else None
  }

  /**
   * Tracking then cancelling: the page sends a cancellation exactly when the
   * backend will accept it (and the user confirms), so the client never sends
   * one the backend refuses.
   */
  lemma TrackThenCancelMatchesBackend(store: OrderStore, input: OrderId, confirmed: bool)
    requires OrdersApi.StoreInvariant(store)
    ensures var v := Track(store, TrackView(input, None, ""));
            && (CancelRequest(v, confirmed).Some? <==>
                  input != "" && confirmed && OrdersApi.CancelOrder(store, input).result.Ok?)
            && (CancelRequest(v, confirmed).Some? ==> CancelRequest(v, confirmed).value == input)
  {
  }

  /** The badge next to the status: Delivered green, Cancelled red, everything else blue. */
  function HomeBadge(s: OrderStatus): (c: string)
    ensures c == "bg-success" <==> s == Delivered
    ensures c == "bg-danger" <==> s == Cancelled
    ensures c != "bg-success" && c != "bg-danger" ==> c == "bg-info"
  {
    if s == Delivered then "bg-success" else if s == Cancelled then "bg-danger" else "bg-info"
  }
}
