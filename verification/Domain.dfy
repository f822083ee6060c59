/** Statuses, payments and event envelopes shared by the services. */
module Domain {
  /** A UUID; 0 is uuid.Nil. */
  type Id = nat
  const NIL: Id := 0

  datatype OrderStatus =
    | WaitingDeposit | WaitingPurchase | Purchased | InTransitToForeignWarehouse
    | ArrivedForeignWarehouse | Packed | InTransitToDomesticWarehouse | ArrivedDomesticWarehouse
    | WaitingRemainingPayment | ReadyForDomesticDelivery | OutForDelivery | Delivered | Cancelled

  function Successors(from: OrderStatus): set<OrderStatus> {
    match from
    case WaitingDeposit => {WaitingPurchase}
    case WaitingPurchase => {Purchased, ArrivedForeignWarehouse}
    case Purchased => {InTransitToForeignWarehouse}
    case InTransitToForeignWarehouse => {ArrivedForeignWarehouse}
    case ArrivedForeignWarehouse => {Packed}
    case Packed => {InTransitToDomesticWarehouse}
    case InTransitToDomesticWarehouse => {ArrivedDomesticWarehouse}
    case ArrivedDomesticWarehouse => {WaitingRemainingPayment}
    case WaitingRemainingPayment => {ReadyForDomesticDelivery}
    case ReadyForDomesticDelivery => {OutForDelivery}
    case OutForDelivery => {Delivered}
    case Delivered => {}
    case Cancelled => {}
  }

  predicate CanTransition(from: OrderStatus, to: OrderStatus) {
    if to == Cancelled then from != Cancelled && from != Delivered else to in Successors(from)
  }

  /** Position on the longest delivery path; every permitted transition raises it. */
  function Rank(status: OrderStatus): nat {
    match status
    case WaitingDeposit => 0
    case WaitingPurchase => 1
    case Purchased => 2
    case InTransitToForeignWarehouse => 3
    case ArrivedForeignWarehouse => 4
    case Packed => 5
    case InTransitToDomesticWarehouse => 6
    case ArrivedDomesticWarehouse => 7
    case WaitingRemainingPayment => 8
    case ReadyForDomesticDelivery => 9
    case OutForDelivery => 10
    case Delivered => 11
    case Cancelled => 12
  }

  datatype PaymentKind = Deposit | RemainingBalance | Refund
  datatype PaymentStatus = Pending | Succeeded | PaymentFailed | PaymentCancelled | Refunded

  predicate CanSettle(from: PaymentStatus) { from == Pending }

  /** The event type names the Kafka topic as well. */
  datatype EventType =
    | OrderCreatedV1 | DepositSucceededV1 | RemainingBalanceSucceededV1
    | OrderStatusChangedV1 | PackageReceivedV1 | OtherType

  datatype Producer = OrderService | PaymentService | WarehouseService | OtherProducer

  datatype EventData =
    | PaymentData(paymentId: Id, payOrderId: Id, amount: int, currency: string)
    | PackageData(packageId: Id, packOrderId: Id, tracking: string, warehouse: string,
                  weight: real, length: real, width: real, height: real)
    | StatusData(statusOrderId: Id, previous: OrderStatus, current: OrderStatus)
    | CreatedData(createdOrderId: Id, quotationId: Id, total: int, deposit: int, status: OrderStatus)
    | Undecodable

  /** occurredAt is in nanoseconds; 0 is the zero time. */
  datatype Envelope = Envelope(eventId: Id, eventType: EventType, aggregateId: Id, producer: Producer,
                               occurredAt: int, data: EventData)

  /** The status an event type moves its order into. */
  function Target(t: EventType): OrderStatus {
    match t
    case PackageReceivedV1 => ArrivedForeignWarehouse
    case RemainingBalanceSucceededV1 => ReadyForDomesticDelivery
    case _ => WaitingPurchase
  }

  predicate HasId(rows: seq<Envelope>, id: Id) {
    exists i :: 0 <= i < |rows| && rows[i].eventId == id
  }

  /** The statement of a transaction that breaks, if any. A lost reply means that COMMIT took
      effect although the caller is told it failed. */
  datatype Fault = NoFault | AtStatement(index: nat) | LostReply

  // ------------------------------------------------------------------ paths in the status graph

  /** Consecutive statuses are permitted transitions. */
  predicate IsPath(path: seq<OrderStatus>) {
    forall i :: 0 < i < |path| ==> CanTransition(path[i - 1], path[i])
  }

  lemma {:induction false} TransitionRaisesRank(from: OrderStatus, to: OrderStatus)
    requires CanTransition(from, to)
    ensures Rank(from) < Rank(to)
  {
  }

  lemma {:induction false} PathRises(path: seq<OrderStatus>, i: nat, j: nat)
    requires IsPath(path) && i < j < |path|
    ensures Rank(path[i]) + (j - i) <= Rank(path[j])
    decreases j
  {
    TransitionRaisesRank(path[j - 1], path[j]);
    if i == j - 1 {
    } else {
      PathRises(path, i, j - 1);
    }
  }

  /** A path never repeats a status, so a timeline has at most thirteen entries, and at most
      twelve while it is not cancelled. */
  lemma {:induction false} PathIsSimple(path: seq<OrderStatus>)
    requires IsPath(path)
    ensures forall i, j :: 0 <= i < j < |path| ==> path[i] != path[j]
    ensures |path| <= 13
    ensures |path| > 0 && path[|path| - 1] != Cancelled ==> |path| <= 12
  {
    forall i, j | 0 <= i < j < |path| ensures path[i] != path[j] { PathRises(path, i, j); }
    if |path| > 1 { PathRises(path, 0, |path| - 1); }
  }

  lemma {:induction false} PathExtends(path: seq<OrderStatus>, to: OrderStatus)
    requires IsPath(path) && |path| > 0 && CanTransition(path[|path| - 1], to)
    ensures IsPath(path + [to])
  {
  }

  /** The order of all stages on the way to delivery. */
  const ROUTE: seq<OrderStatus> :=
    [WaitingDeposit, WaitingPurchase, Purchased, InTransitToForeignWarehouse, ArrivedForeignWarehouse, Packed,
     InTransitToDomesticWarehouse, ArrivedDomesticWarehouse, WaitingRemainingPayment, ReadyForDomesticDelivery,
     OutForDelivery, Delivered]

  /** The route of an order whose package arrives before anyone recorded its purchase. */
  const SHORT_ROUTE: seq<OrderStatus> := ROUTE[..2] + ROUTE[4..]

  /** A transition goes to the next stage of the route, or from the wait for the purchase to the arrival at
      the foreign warehouse, or cancels an order that is neither delivered nor cancelled. */
  lemma {:induction false} TransitionsMean(from: OrderStatus, to: OrderStatus)
    ensures CanTransition(from, to) <==>
            || (exists i :: 0 < i < |ROUTE| && ROUTE[i - 1] == from && ROUTE[i] == to)
            || (from == WaitingPurchase && to == ArrivedForeignWarehouse)
            || (to == Cancelled && from != Delivered && from != Cancelled)
  {
    forall i | 0 < i < |ROUTE| ensures CanTransition(ROUTE[i - 1], ROUTE[i]) { RouteStep(i); }
    if CanTransition(from, to) && to != Cancelled {
      NextStage(from, to);
      if Rank(to) == Rank(from) + 1 { StageAt(to); }
    }
  }

  lemma {:induction false} StageAt(status: OrderStatus)
    requires status != Cancelled
    ensures Rank(status) < |ROUTE| && ROUTE[Rank(status)] == status
  {
  }

  /** Every transition but a cancellation goes one stage on, or skips the purchase. */
  lemma {:induction false} NextStage(from: OrderStatus, to: OrderStatus)
    requires CanTransition(from, to) && to != Cancelled
    ensures Rank(to) == Rank(from) + 1 || (from == WaitingPurchase && to == ArrivedForeignWarehouse)
    ensures from != Cancelled && Rank(from) < |ROUTE| && ROUTE[Rank(from)] == from
  {
  }

  lemma {:induction false} FromHere(stages: seq<OrderStatus>, k: nat)
    requires k < |stages|
    ensures stages[k..] == [stages[k]] + stages[k + 1..]
  {
  }

  lemma {:induction false} RestOfRoute(path: seq<OrderStatus>)
    requires |path| > 0 && IsPath(path) && path[|path| - 1] == Delivered
    ensures path[0] != Cancelled
    ensures path == ROUTE[Rank(path[0])..]
            || (path[0] == WaitingPurchase && path == [WaitingPurchase] + ROUTE[4..])
            || (path[0] == WaitingDeposit && path == [WaitingDeposit, WaitingPurchase] + ROUTE[4..])
  {
    if |path| == 1 {
      assert ROUTE[11..] == [Delivered];
    } else {
      RestOfRoute(path[1..]);
      var from := path[0];
      assert path == [from] + path[1..];
      NextStage(from, path[1]);
      hide CanTransition;
      FromHere(ROUTE, Rank(from));
    }
  }

  /** There are exactly two ways from a new order to a delivered one: every stage in turn, or all but
      the purchase and the first transit. No way avoids either payment. */
  lemma {:induction false} TwoRoutesToDelivery(path: seq<OrderStatus>)
    ensures |path| > 0 && IsPath(path) && path[0] == WaitingDeposit && path[|path| - 1] == Delivered
       <==> path == ROUTE || path == SHORT_ROUTE
  {
    assert SHORT_ROUTE == [WaitingDeposit, WaitingPurchase] + ROUTE[4..];
    assert ROUTE[0..] == ROUTE;
    if |path| > 0 && IsPath(path) && path[0] == WaitingDeposit && path[|path| - 1] == Delivered {
      RestOfRoute(path);
    }
    RoutesArePaths();
  }

  lemma {:induction false} RoutesArePaths()
    ensures IsPath(ROUTE) && IsPath(SHORT_ROUTE)
    ensures SHORT_ROUTE[0] == WaitingDeposit && SHORT_ROUTE[|SHORT_ROUTE| - 1] == Delivered
  {
    assert SHORT_ROUTE[0] == ROUTE[0] && SHORT_ROUTE[1] == ROUTE[1] && SHORT_ROUTE[2] == ROUTE[4];
    forall i | 2 < i < |SHORT_ROUTE| ensures CanTransition(SHORT_ROUTE[i - 1], SHORT_ROUTE[i]) {
      assert SHORT_ROUTE[i] == ROUTE[i + 2] && SHORT_ROUTE[i - 1] == ROUTE[i + 1];
      RouteStep(i + 2);
    }
    forall i | 0 < i < |ROUTE| ensures CanTransition(ROUTE[i - 1], ROUTE[i]) { RouteStep(i); }
  }

  lemma {:induction false} RouteStep(i: nat)
    requires 0 < i < |ROUTE|
    ensures CanTransition(ROUTE[i - 1], ROUTE[i])
  {
  }
}
