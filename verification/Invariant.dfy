/** What every reachable state of the protocol satisfies. */
module Invariant {
  import opened Domain
  import opened Text
  import opened OrderStore
  import opened Protocol
  import PS = PaymentStore
  import QS = QuotationStore
  import WS = WarehouseStore
  import Pricing

  // ------------------------------------------------------------------ quotations and orders

  ghost predicate QuotesOk(quotes: map<Id, QS.Quotation>) {
    forall q :: q in quotes ==>
      && Pricing.SHIPPING_FEE_VND <= quotes[q].total <= MAX_INT64 && quotes[q].quantity > 0
      && (quotes[q].status == QS.PendingConfirmation || quotes[q].status == QS.Confirmed)
      && (quotes[q].status == QS.Confirmed <==> quotes[q].confirmedOrder.Some?)
  }

  /** An order, stored or about to be, belongs to the quotation confirmed for it. */
  ghost predicate OrderOk(quotes: map<Id, QS.Quotation>, o: Id, order: Order) {
    && o == OrderIdOf(order.quotationId)
    && order.quotationId in quotes
    && quotes[order.quotationId].confirmedOrder == Some(o)
    && quotes[order.quotationId].status == QS.Confirmed
    && order.total == quotes[order.quotationId].total
    && order.deposit == Pricing.Deposit(order.total)
    && order.remaining == order.total - order.deposit
    && order.deposit > 0 && order.remaining > 0
  }

  ghost predicate OrdersOk(quotes: map<Id, QS.Quotation>, orders: map<Id, Order>) {
    forall o :: o in orders ==> OrderOk(quotes, o, orders[o])
  }

  ghost predicate OrderIntentsOk(quotes: map<Id, QS.Quotation>, pending: set<(Id, Order)>) {
    forall i :: i in pending ==> OrderOk(quotes, i.0, i.1) && i.1.status == WaitingDeposit
  }

  ghost predicate TimelineOk(status: OrderStatus, path: seq<OrderStatus>) {
    && |path| > 0 && path[0] == WaitingDeposit && path[|path| - 1] == status
    && IsPath(path) && status != Cancelled
  }

  ghost predicate TimelinesOk(db: OrderDb) {
    && db.timeline.Keys == db.orders.Keys
    && forall o :: o in db.orders ==> TimelineOk(db.orders[o].status, TimelineOf(db, o))
  }

  // ------------------------------------------------------------------ payments

  /** A payment, stored or about to be, asks for the amount its order has stored. */
  ghost predicate PaymentOk(orders: map<Id, Order>, p: PS.Payment) {
    && p.kind != Refund && p.currency == "VND" && p.amount > 0
    && p.orderId != NIL && p.orderId in orders
    && p.amount == AmountDue(orders[p.orderId], p.kind)
    && (p.kind == RemainingBalance ==> Rank(orders[p.orderId].status) >= Rank(WaitingRemainingPayment))
  }

  ghost predicate PaymentsOk(orders: map<Id, Order>, payments: map<Id, PS.Payment>) {
    forall id :: id in payments ==>
      id != NIL && PaymentOk(orders, payments[id])
        && (payments[id].status == Pending || payments[id].status == Succeeded)
  }

  ghost predicate SlotsUnique(payments: map<Id, PS.Payment>) {
    forall a, b ::
      a in payments && b in payments && payments[a].orderId == payments[b].orderId
        && payments[a].kind == payments[b].kind
      ==> a == b
  }

  ghost predicate PaymentIntentsOk(orders: map<Id, Order>, pending: set<PS.Payment>) {
    forall p :: p in pending ==> PaymentOk(orders, p) && p.status == Pending
  }

  /** A payment read earlier still describes its row, except perhaps for the status. */
  ghost predicate SettlementsOk(payments: map<Id, PS.Payment>, pending: set<(Id, PS.Payment)>) {
    forall i :: i in pending ==> i.0 in payments && payments[i.0] == i.1.(status := payments[i.0].status)
  }

  ghost predicate CallbacksOk(pay: PS.PaymentDb) {
    forall c :: c in pay.callbacks ==>
      pay.callbacks[c] in pay.payments && pay.payments[pay.callbacks[c]].status == Succeeded
  }

  /** An outbox row is exactly the success event of the succeeded payment it names. */
  ghost predicate PaymentRowOk(payments: map<Id, PS.Payment>, r: Envelope) {
    && r.eventId != NIL && r.data.PaymentData?
    && r.data.paymentId in payments
    && payments[r.data.paymentId].status == Succeeded
    && r == PS.SuccessRow(r.data.paymentId, payments[r.data.paymentId], r.eventId, r.occurredAt)
  }

  ghost predicate HasRowFor(rows: seq<Envelope>, id: Id) {
    exists i :: 0 <= i < |rows| && rows[i].data.PaymentData? && rows[i].data.paymentId == id
  }

  ghost predicate PaymentRowsOk(pay: PS.PaymentDb) {
    && (forall i :: 0 <= i < |pay.outbox| ==> PaymentRowOk(pay.payments, pay.outbox[i]))
    && (forall i, j :: 0 <= i < j < |pay.outbox| ==> pay.outbox[i].data.paymentId != pay.outbox[j].data.paymentId)
    && (forall id :: id in pay.payments && pay.payments[id].status == Succeeded ==> HasRowFor(pay.outbox, id))
  }

  ghost predicate UniqueIds(rows: seq<Envelope>) {
    forall i, j :: 0 <= i < j < |rows| ==> rows[i].eventId != rows[j].eventId
  }

  ghost predicate DisjointIds(a: seq<Envelope>, b: seq<Envelope>) {
    forall i, j :: 0 <= i < |a| && 0 <= j < |b| ==> a[i].eventId != b[j].eventId
  }

  // ------------------------------------------------------------------ packages

  /** A package, stored or about to be, was accepted for an order whose deposit had been paid. */
  ghost predicate PackageOk(orders: map<Id, Order>, p: WS.Package) {
    && p.orderId != NIL && p.orderId in orders && Rank(orders[p.orderId].status) >= Rank(WaitingPurchase)
    && WS.ValidPackage(p)
  }

  ghost predicate PackagesOk(orders: map<Id, Order>, packages: map<Id, WS.Package>) {
    forall id :: id in packages ==>
      id != NIL && PackageOk(orders, packages[id])
  }

  ghost predicate PackageIntentsOk(orders: map<Id, Order>, pending: set<WS.Package>) {
    forall p :: p in pending ==> PackageOk(orders, p)
  }

  ghost predicate PackageRowOk(packages: map<Id, WS.Package>, r: Envelope) {
    && r.eventId != NIL && r.occurredAt != 0 && r.data.PackageData? && r.data.packageId in packages
    && r == WS.ReceivedRow(r.data.packageId, packages[r.data.packageId], r.eventId, r.occurredAt)
  }

  ghost predicate PackageRowsOk(wh: WS.WarehouseDb) {
    forall i :: 0 <= i < |wh.outbox| ==> PackageRowOk(wh.packages, wh.outbox[i])
  }

  // ------------------------------------------------------------------ events and orders

  /** Some event of this type for this order has been processed. */
  ghost predicate HasHappened(rows: seq<Envelope>, processed: map<Id, EventType>, o: Id, t: EventType) {
    exists i :: 0 <= i < |rows| && rows[i].eventType == t && rows[i].aggregateId == o && rows[i].eventId in processed
  }

  /** An order has reached an event type's target exactly when such an event was processed. */
  ghost predicate MilestoneOk(orders: map<Id, Order>, processed: map<Id, EventType>, rows: seq<Envelope>,
                              t: EventType) {
    forall o :: o in orders ==> (HasHappened(rows, processed, o, t) <==> Rank(orders[o].status) >= Rank(Target(t)))
  }

  ghost predicate ProcessedOk(processed: map<Id, EventType>, a: seq<Envelope>, b: seq<Envelope>) {
    forall id :: id in processed ==> HasId(a, id) || HasId(b, id)
  }

  // ------------------------------------------------------------------ Kafka

  /** A record of a topic is one the consumers skip, or an outbox row of that type. */
  ghost predicate RecordOk(s: State, topic: EventType, r: Record) {
    || (Decode(topic, r) == Skip)
    || (r.Message? && r.envelope.eventType == topic
        && (r.envelope in s.pay.outbox || r.envelope in s.wh.outbox || r.envelope in s.ord.outbox))
  }

  ghost predicate RecordsOk(s: State) {
    && (forall p :: p in s.bus.logs ==> p.number < PartitionsOf(p.topic))
    && (forall p, i :: p in s.bus.logs && 0 <= i < |s.bus.logs[p]| ==> RecordOk(s, p.topic, s.bus.logs[p][i]))
  }

  /** The row's payload is a record of its topic. */
  ghost predicate OnTopic(bus: Bus, r: Envelope) {
    exists n :: 0 <= n < PartitionsOf(r.eventType) && Message(r) in Log(bus, Partition(r.eventType, n))
  }

  ghost predicate MarkedOk(s: State) {
    forall m :: m in s.marked ==>
      exists i :: 0 <= i < |Rows(s, m.0)| && Rows(s, m.0)[i].eventId == m.1 && OnTopic(s.bus, Rows(s, m.0)[i])
  }

  ghost predicate LogsOk(s: State) { RecordsOk(s) && MarkedOk(s) }

  /** A record is behind the consumer for good: skipped by design, or its event processed. */
  predicate Done(processed: map<Id, EventType>, topic: EventType, r: Record) {
    match Decode(topic, r)
    case Skip => true
    case Retry => false
    case Run(cmd) => cmd.eventId in processed
  }

  ghost predicate DoneBelow(processed: map<Id, EventType>, p: Partition, log: seq<Record>, offset: nat) {
    offset <= |log| && forall i :: 0 <= i < offset ==> Done(processed, p.topic, log[i])
  }

  ghost predicate OffsetsOk(processed: map<Id, EventType>, bus: Bus) {
    && (forall p :: p in bus.committed && Consumed(p.topic) ==> DoneBelow(processed, p, Log(bus, p), bus.committed[p]))
    && (forall c :: c in bus.cursors && Consumed(c.partition.topic) ==>
          DoneBelow(processed, c.partition, Log(bus, c.partition), bus.cursors[c]))
  }

  ghost predicate OrderRowsOk(rows: seq<Envelope>) {
    && UniqueIds(rows)
    && forall i :: 0 <= i < |rows| ==> rows[i].eventType == OrderStatusChangedV1 || rows[i].eventType == OrderCreatedV1
  }

  ghost predicate PaymentTablesOk(orders: map<Id, Order>, pay: PS.PaymentDb, pending: set<(Id, PS.Payment)>) {
    && PaymentsOk(orders, pay.payments) && SlotsUnique(pay.payments) && SettlementsOk(pay.payments, pending)
    && CallbacksOk(pay) && PaymentRowsOk(pay)
  }

  ghost predicate PackageTablesOk(orders: map<Id, Order>, wh: WS.WarehouseDb, pending: set<WS.Package>) {
    PackagesOk(orders, wh.packages) && PackageIntentsOk(orders, pending) && PackageRowsOk(wh)
  }

  /** Everything that reads outbox rows together with processed_events. */
  ghost predicate EventsOk(ord: OrderDb, pay: seq<Envelope>, wh: seq<Envelope>) {
    && UniqueIds(pay) && UniqueIds(wh) && DisjointIds(pay, wh) && ProcessedOk(ord.processed, pay, wh)
    && MilestoneOk(ord.orders, ord.processed, pay, DepositSucceededV1)
    && MilestoneOk(ord.orders, ord.processed, pay, RemainingBalanceSucceededV1)
    && MilestoneOk(ord.orders, ord.processed, wh, PackageReceivedV1)
  }

  ghost predicate Inv(s: State) {
    && QuotesOk(s.quotes)
    && OrdersOk(s.quotes, s.ord.orders)
    && OrderIntentsOk(s.quotes, s.flight.orders)
    && TimelinesOk(s.ord)
    && PaymentTablesOk(s.ord.orders, s.pay, s.flight.settlements)
    && PaymentIntentsOk(s.ord.orders, s.flight.payments)
    && PackageTablesOk(s.ord.orders, s.wh, s.flight.packages)
    && EventsOk(s.ord, s.pay.outbox, s.wh.outbox)
    && OrderRowsOk(s.ord.outbox)
    && LogsOk(s)
    && OffsetsOk(s.ord.processed, s.bus)
  }

  // ------------------------------------------------------------------ quotation steps

  /** Quotations keep their terms, and a confirmation is final. */
  ghost predicate QuotesGrow(a: map<Id, QS.Quotation>, b: map<Id, QS.Quotation>) {
    forall q :: q in a ==> q in b && b[q].total == a[q].total && (a[q].status == QS.Confirmed ==> b[q] == a[q])
  }

  lemma {:induction false} QuotesGrowKeeps(a: map<Id, QS.Quotation>, b: map<Id, QS.Quotation>,
                                           orders: map<Id, Order>, pending: set<(Id, Order)>)
    requires QuotesGrow(a, b) && OrdersOk(a, orders) && OrderIntentsOk(a, pending)
    ensures OrdersOk(b, orders) && OrderIntentsOk(b, pending)
  {
  }

  lemma {:induction false} CreateQuotationOk(quotes: map<Id, QS.Quotation>, id: Id, customer: string,
                                             price: int, quantity: int, rate: int, now: int)
    requires QuotesOk(quotes)
    ensures var quotes' := QS.CreateQuotation(quotes, id, customer, price, quantity, rate, now);
            QuotesOk(quotes') && QuotesGrow(quotes, quotes')
  {
    if Pricing.Quote(price, quantity, rate).Some? {
      Pricing.QuoteRounding(price, quantity, rate);
    }
  }

  lemma {:induction false} ConfirmQuotationOk(quotes: map<Id, QS.Quotation>, id: Id, order: Id, now: int)
    requires QuotesOk(quotes)
    ensures var r := QS.ConfirmQuotation(quotes, id, order, now);
            && QuotesOk(r.0) && QuotesGrow(quotes, r.0)
            && (r.1.None? ==> id in r.0 && r.0[id].status == QS.Confirmed && r.0[id].confirmedOrder == Some(order)
                              && id in quotes && r.0[id].total == quotes[id].total)
  {
  }

  lemma {:induction false} NewOrderOk(quotes: map<Id, QS.Quotation>, q: Id, customer: string, address: string)
    requires QuotesOk(quotes) && q in quotes && quotes[q].confirmedOrder == Some(OrderIdOf(q))
    ensures OrderOk(quotes, OrderIdOf(q), NewOrder(customer, q, address, quotes[q].total))
  {
  }

  // ------------------------------------------------------------------ order steps

  /** Orders keep their terms and their statuses only advance. */
  ghost predicate OrdersGrow(a: map<Id, Order>, b: map<Id, Order>) {
    forall o :: o in a ==> o in b && Rank(a[o].status) <= Rank(b[o].status) && b[o] == a[o].(status := b[o].status)
  }

  lemma {:induction false} OrdersGrowPayments(a: map<Id, Order>, b: map<Id, Order>, pay: PS.PaymentDb,
                                              readings: set<(Id, PS.Payment)>, pending: set<PS.Payment>)
    requires OrdersGrow(a, b) && PaymentTablesOk(a, pay, readings) && PaymentIntentsOk(a, pending)
    ensures PaymentTablesOk(b, pay, readings) && PaymentIntentsOk(b, pending)
  {
  }

  lemma {:induction false} OrdersGrowPackages(a: map<Id, Order>, b: map<Id, Order>, wh: WS.WarehouseDb,
                                              pending: set<WS.Package>)
    requires OrdersGrow(a, b) && PackageTablesOk(a, wh, pending)
    ensures PackageTablesOk(b, wh, pending)
  {
  }

  lemma {:induction false} MoveTimelinesOk(db: OrderDb, o: Id, to: OrderStatus)
    requires TimelinesOk(db) && o in db.orders && CanTransition(db.orders[o].status, to) && to != Cancelled
    ensures TimelinesOk(MoveOrder(db, o, to))
  {
    hide CanTransition, IsPath;
    var db' := MoveOrder(db, o, to);
    assert TimelineOk(db.orders[o].status, TimelineOf(db, o));
    PathExtends(TimelineOf(db, o), to);
    forall x | x in db'.orders ensures TimelineOk(db'.orders[x].status, TimelineOf(db', x)) {
      if x != o { assert TimelineOk(db.orders[x].status, TimelineOf(db, x)); }
    }
  }

  lemma {:induction false} MoveOrderOk(quotes: map<Id, QS.Quotation>, db: OrderDb, o: Id, to: OrderStatus)
    requires OrdersOk(quotes, db.orders) && TimelinesOk(db)
    requires o in db.orders && CanTransition(db.orders[o].status, to) && to != Cancelled
    ensures var db' := MoveOrder(db, o, to);
            OrdersOk(quotes, db'.orders) && TimelinesOk(db') && OrdersGrow(db.orders, db'.orders)
  {
    hide TimelinesOk, CanTransition, Rank, Pricing.Deposit;
    TransitionRaisesRank(db.orders[o].status, to);
    MoveTimelinesOk(db, o, to);
  }

  lemma {:induction false} CreateOrderOk(quotes: map<Id, QS.Quotation>, db: OrderDb, o: Id, order: Order, row: Envelope)
    requires OrdersOk(quotes, db.orders) && TimelinesOk(db) && OrderOk(quotes, o, order)
             && order.status == WaitingDeposit
    ensures var db' := CreateOrder(db, o, order, row).0;
            && OrdersOk(quotes, db'.orders) && TimelinesOk(db') && OrdersGrow(db.orders, db'.orders)
  {
    hide OrderOk;
    var db' := CreateOrder(db, o, order, row).0;
    if db' != db {
      assert TimelineOf(db, o) == [];
      forall x | x in db'.orders ensures TimelineOk(db'.orders[x].status, TimelineOf(db', x)) {
        if x != o { assert TimelineOk(db.orders[x].status, TimelineOf(db, x)); }
      }
    }
  }

  // ------------------------------------------------------------------ milestones

  /** A new row changes no history while its event is not processed. */
  lemma {:induction false} HappenedAppend(rows: seq<Envelope>, r: Envelope, processed: map<Id, EventType>, o: Id,
                                          t: EventType)
    requires r.eventId !in processed
    ensures HasHappened(rows + [r], processed, o, t) == HasHappened(rows, processed, o, t)
  {
    if HasHappened(rows, processed, o, t) {
      var i :| 0 <= i < |rows| && rows[i].eventType == t && rows[i].aggregateId == o && rows[i].eventId in processed;
      assert (rows + [r])[i] == rows[i];
    }
  }

  lemma {:induction false} MilestoneAppend(orders: map<Id, Order>, processed: map<Id, EventType>, rows: seq<Envelope>,
                                           r: Envelope, t: EventType)
    requires MilestoneOk(orders, processed, rows, t) && r.eventId !in processed
    ensures MilestoneOk(orders, processed, rows + [r], t)
  {
    forall o | o in orders
      ensures HasHappened(rows + [r], processed, o, t) <==> Rank(orders[o].status) >= Rank(Target(t)) {
      HappenedAppend(rows, r, processed, o, t);
    }
  }

  /** Moving an order to the target of the row's type, and recording the event, keeps the
      milestones of every type read off these rows. */
  lemma {:induction false} MilestoneApply(orders: map<Id, Order>, processed: map<Id, EventType>, rows: seq<Envelope>,
                                          k: nat, to: OrderStatus, t: EventType)
    requires MilestoneOk(orders, processed, rows, t) && UniqueIds(rows) && k < |rows|
    requires rows[k].aggregateId in orders && to == Target(rows[k].eventType)
    requires CanTransition(orders[rows[k].aggregateId].status, to)
    requires t == DepositSucceededV1 || t == RemainingBalanceSucceededV1 || t == PackageReceivedV1
    requires rows[k].eventType in {DepositSucceededV1, RemainingBalanceSucceededV1, PackageReceivedV1}
    ensures var o := rows[k].aggregateId;
            MilestoneOk(orders[o := orders[o].(status := to)], processed[rows[k].eventId := rows[k].eventType], rows, t)
  {
  }

  lemma {:induction false} MilestoneApplyElsewhere(orders: map<Id, Order>, processed: map<Id, EventType>,
                                                   rows: seq<Envelope>,
                                                   e: Envelope, to: OrderStatus, t: EventType)
    requires MilestoneOk(orders, processed, rows, t) && !HasId(rows, e.eventId)
    requires e.aggregateId in orders && to == Target(e.eventType) && CanTransition(orders[e.aggregateId].status, to)
    requires t != e.eventType
    requires t == DepositSucceededV1 || t == RemainingBalanceSucceededV1 || t == PackageReceivedV1
    requires e.eventType in {DepositSucceededV1, RemainingBalanceSucceededV1, PackageReceivedV1}
    ensures var o := e.aggregateId;
            MilestoneOk(orders[o := orders[o].(status := to)], processed[e.eventId := e.eventType], rows, t)
  {
  }

  /** An operator's move crosses no milestone. */
  lemma {:induction false} MilestoneOperator(db: OrderDb, rows: seq<Envelope>, o: Id, to: OrderStatus, t: EventType)
    requires MilestoneOk(db.orders, db.processed, rows, t) && OperatorMay(db, o, to)
    requires t == DepositSucceededV1 || t == RemainingBalanceSucceededV1 || t == PackageReceivedV1
    ensures MilestoneOk(db.orders[o := db.orders[o].(status := to)], db.processed, rows, t)
  {
  }
}
