/**
 * The administrator dashboard (frontend/src/components/Admin.jsx): the status
 * options it offers, the rule that disables the selector for finished orders,
 * the confirmation before a change, and the status badge.
 */
module AdminPanel {
  import opened Common
  import opened Statuses
  import opened OrderModel
  import OrdersApi
  import Tracking

  /** `orderStatuses`, the selector's options, in order. */
  const StatusOptions: seq<OrderStatus> := [OrderReceived, Prepared, OnItsWay, Delivered, Cancelled]

  function OptionNames(options: seq<OrderStatus>): (names: seq<string>)
    ensures |names| == |options|
    ensures forall i :: 0 <= i < |options| ==> names[i] == OrderStatusName(options[i])
  {
    seq(|options|, i requires 0 <= i < |options| => OrderStatusName(options[i]))
  }

  /** The dashboard offers exactly the statuses, in the same order, that the status route accepts. */
  lemma OptionsMatchBackend()
    ensures OptionNames(StatusOptions) == OrdersApi.AdminStatusNames
    ensures forall s :: s in StatusOptions <==> OrdersApi.AdminSettable(s)
  {
  }

  /** The selector is disabled for an order in a final status. */
  predicate SelectorDisabled(s: OrderStatus) {
    s == Cancelled || s == Delivered
  }

  /** The request `handleStatusChange` sends: the order id and the chosen status's name. */
  datatype StatusChange = StatusChange(id: OrderId, status: string)

  /**
   * Choosing an option in an order's selector: a disabled selector fires
   * nothing, re-choosing the status already selected is no change and fires
   * nothing, and the request goes out only after the administrator confirms.
   */
  function StatusChangeRequest(o: Order, choice: OrderStatus, confirmed: bool): (r: Option<StatusChange>)
    requires choice in StatusOptions
    ensures r.Some? <==> !SelectorDisabled(o.orderStatus) && choice != o.orderStatus && confirmed
    ensures r.Some? ==> r.value == StatusChange(o.id, OrderStatusName(choice))
  {
    if SelectorDisabled(o.orderStatus) || choice == o.orderStatus || !confirmed then None
    else Some(StatusChange(o.id, OrderStatusName(choice)))
  }

  /** Every request the dashboard sends for a listed order succeeds and sets exactly the chosen status. */
  lemma DashboardRequestsSucceed(store: OrderStore, k: OrderId, choice: OrderStatus, confirmed: bool)
    requires OrdersApi.StoreInvariant(store) && k in store
    requires choice in StatusOptions
    requires StatusChangeRequest(store[k], choice, confirmed).Some?
    ensures var req := StatusChangeRequest(store[k], choice, confirmed).value;
            var r := OrdersApi.SetStatus(store, req.id, Some(req.status));
            && r.result.Ok?
            && r.result.value == store[k].(orderStatus := choice)
  {
    var req := StatusChangeRequest(store[k], choice, confirmed).value;
    OptionsMatchBackend();
    var r := OrdersApi.SetStatus(store, req.id, Some(req.status));
    assert OrderStatusName(choice) in OptionNames(StatusOptions);
    OrderStatusNamesInjective(r.result.value.orderStatus, choice);
  }

  /** The final-status rule lives only in the dashboard: the route still changes a delivered or cancelled order. */
  lemma FinalStatusGuardIsClientSide(store: OrderStore, id: OrderId, choice: OrderStatus)
    requires id in store && SelectorDisabled(store[id].orderStatus)
    requires choice in StatusOptions
    ensures StatusChangeRequest(store[id], choice, true).None?
    ensures OrdersApi.SetStatus(store, id, Some(OrderStatusName(choice))).result.Ok?
  {
    OptionsMatchBackend();
    assert OrderStatusName(choice) in OptionNames(StatusOptions);
  }

  /** The dashboard's badge classes. */
  function AdminBadge(s: OrderStatus): (c: string)
    ensures s == Delivered <==> c == "bg-success"
    ensures s == Cancelled <==> c == "bg-danger"
    ensures s == OnItsWay <==> c == "bg-primary"
    ensures s == Prepared <==> c == "bg-warning text-dark"
    ensures s !in {Delivered, Cancelled, OnItsWay, Prepared} <==> c == "bg-info"
  {
    if s == Delivered then "bg-success"
    else if s == Cancelled then "bg-danger"
    else if s == OnItsWay then "bg-primary"
    else if s == Prepared then "bg-warning text-dark"
    else "bg-info"
  }

  /** The home page and the dashboard colour a status alike except for the two in-progress states. */
  lemma BadgesAgreeExceptInProgress(s: OrderStatus)
    ensures Tracking.HomeBadge(s) == AdminBadge(s) <==> s != OnItsWay && s != Prepared
  {
  }
}
