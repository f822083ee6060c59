/** The order service's tables, its transactions as functions on them, and the repository that
    runs those transactions statement by statement. */
module OrderStore {
  import opened Domain
  import opened Text
  import Pricing

  datatype Order = Order(customer: string, quotationId: Id, address: string,
                         total: int, deposit: int, remaining: int, status: OrderStatus)

  /** orders, tracking_events per order in insertion order, processed_events and outbox_events. */
  datatype OrderDb = OrderDb(orders: map<Id, Order>, timeline: map<Id, seq<OrderStatus>>,
                             processed: map<Id, EventType>, outbox: seq<Envelope>)

  datatype Error = OrderNotFound | QuotationConflict | InvalidInput | InvalidTransition | StorageFailure
  datatype Outcome = Applied | Duplicate | Failed(error: Error)

  // ------------------------------------------------------------------ handlers

  /** What a Handle* method asks the repository to do; previous is the status it announces. */
  datatype StatusCommand = StatusCommand(eventId: Id, eventType: EventType, orderId: Id, amount: int,
                                         previous: OrderStatus, target: OrderStatus)

  predicate PaymentContract(e: Envelope) {
    && e.producer == PaymentService && e.eventId != NIL && e.aggregateId != NIL
    && e.data.PaymentData? && e.data.payOrderId != NIL && e.data.paymentId != NIL
    && e.data.amount > 0 && e.data.currency == "VND" && e.data.payOrderId == e.aggregateId
  }

  predicate PackageContract(e: Envelope) {
    && e.eventType == PackageReceivedV1
    && e.producer == WarehouseService && e.eventId != NIL && e.aggregateId != NIL && e.occurredAt != 0
    && e.data.PackageData? && e.data.packageId != NIL && e.data.packOrderId != NIL
    && e.data.packOrderId == e.aggregateId
    && TrimSpace(e.data.tracking) != "" && TrimSpace(e.data.warehouse) != ""
    && e.data.weight > 0.0 && e.data.length > 0.0 && e.data.width > 0.0 && e.data.height > 0.0
  }

  function HandleDepositSucceeded(e: Envelope): Option<StatusCommand> {
    if e.eventType != DepositSucceededV1 || !PaymentContract(e) then None
    else Some(StatusCommand(e.eventId, e.eventType, e.data.payOrderId, e.data.amount, WaitingDeposit, WaitingPurchase))
  }

  function HandleRemainingBalanceSucceeded(e: Envelope): Option<StatusCommand> {
    if e.eventType != RemainingBalanceSucceededV1 || !PaymentContract(e) then None
    else Some(StatusCommand(e.eventId, e.eventType, e.data.payOrderId, e.data.amount,
                            WaitingRemainingPayment, ReadyForDomesticDelivery))
  }

  function HandlePackageReceived(e: Envelope): Option<StatusCommand> {
    if !PackageContract(e) then None
    else Some(StatusCommand(e.eventId, e.eventType, e.data.packOrderId, 0, WaitingPurchase, ArrivedForeignWarehouse))
  }

  function StatusRow(cmd: StatusCommand, rowId: Id, now: int): Envelope {
    Envelope(rowId, OrderStatusChangedV1, cmd.orderId, OrderService, now,
             StatusData(cmd.orderId, cmd.previous, cmd.target))
  }

  // ------------------------------------------------------------------ transactions as functions

  function ExpectedAmount(order: Order, target: OrderStatus): int {
    if target == ReadyForDomesticDelivery then order.remaining else order.deposit
  }

  /** Why the transaction gives up between the row lock and its writes, if it does. */
  function Refusal(db: OrderDb, cmd: StatusCommand): Option<Error> {
    if cmd.orderId !in db.orders then Some(OrderNotFound)
    else
      var order := db.orders[cmd.orderId];
      if cmd.amount > 0 && cmd.amount != ExpectedAmount(order, cmd.target) then Some(InvalidInput)
      else if !CanTransition(order.status, cmd.target) then Some(InvalidTransition)
      else None
  }

  function TimelineOf(db: OrderDb, orderId: Id): seq<OrderStatus> {
    if orderId in db.timeline then db.timeline[orderId] else []
  }

  function MoveOrder(db: OrderDb, orderId: Id, to: OrderStatus): OrderDb
    requires orderId in db.orders
  {
    db.(orders := db.orders[orderId := db.orders[orderId].(status := to)],
        timeline := db.timeline[orderId := TimelineOf(db, orderId) + [to]])
  }

  /** The transaction from SELECT ... FOR UPDATE on: the primary keys of processed_events and
      outbox_events still stand between the guards and the commit. */
  function ApplyLocked(db: OrderDb, cmd: StatusCommand, row: Envelope): (OrderDb, Outcome) {
    match Refusal(db, cmd)
    case Some(error) => (db, Failed(error))
    case None =>
      if cmd.eventId in db.processed || HasId(db.outbox, row.eventId) then (db, Failed(StorageFailure))
      else
        var moved := MoveOrder(db, cmd.orderId, cmd.target);
        (moved.(processed := db.processed[cmd.eventId := cmd.eventType], outbox := db.outbox + [row]), Applied)
  }

  function ProcessEvent(db: OrderDb, cmd: StatusCommand, row: Envelope): (OrderDb, Outcome) {
    if cmd.eventId in db.processed then (db, Duplicate) else ApplyLocked(db, cmd, row)
  }

  predicate QuotationTaken(orders: map<Id, Order>, quotationId: Id) {
    exists o :: o in orders && orders[o].quotationId == quotationId
  }

  function NewOrder(customer: string, quotationId: Id, address: string, total: int): Order {
    var deposit := Pricing.Deposit(total);
    Order(customer, quotationId, address, total, deposit, total - deposit, WaitingDeposit)
  }

  function CreatedRow(orderId: Id, order: Order, rowId: Id, now: int): Envelope {
    Envelope(rowId, OrderCreatedV1, orderId, OrderService, now,
             CreatedData(orderId, order.quotationId, order.total, order.deposit, order.status))
  }

  function CreateOrder(db: OrderDb, orderId: Id, order: Order, row: Envelope): (OrderDb, Outcome) {
    if orderId in db.orders then
      if db.orders[orderId].quotationId == order.quotationId then (db, Duplicate)
      else (db, Failed(QuotationConflict))
    else if QuotationTaken(db.orders, order.quotationId) then (db, Failed(QuotationConflict))
    else if order.total <= 0 || order.deposit < 0 || order.remaining < 0 || HasId(db.outbox, row.eventId) then
      (db, Failed(StorageFailure))
    else
      (OrderDb(db.orders[orderId := order],
               db.timeline[orderId := TimelineOf(db, orderId) + [order.status]],
               db.processed, db.outbox + [row]), Applied)
  }

  // ------------------------------------------------------------------ the repository

  class OrderRepository {
    var orders: map<Id, Order>
    var timeline: map<Id, seq<OrderStatus>>
    var processed: map<Id, EventType>
    var outbox: seq<Envelope>

    constructor ()
      ensures Db() == OrderDb(map[], map[], map[], [])
    {
      orders, timeline, processed, outbox := map[], map[], map[], [];
    }

    function Db(): OrderDb
      reads this
    {
      OrderDb(orders, timeline, processed, outbox)
    }

    method Rollback(snapshot: OrderDb)
      modifies this
      ensures Db() == snapshot
    {
      orders, timeline, processed, outbox :=
        snapshot.orders, snapshot.timeline, snapshot.processed, snapshot.outbox;
    }

    /** processStatusEvent. Whatever statement fails, the tables end as they began; if only the reply
        to COMMIT is lost they end as the whole transaction leaves them; neither reports success. */
    method ProcessStatusEvent(cmd: StatusCommand, row: Envelope, fault: Fault) returns (r: Outcome)
      modifies this
      ensures fault == NoFault ==> (Db(), r) == ProcessEvent(old(Db()), cmd, row)
      ensures fault == LostReply ==> Db() == ProcessEvent(old(Db()), cmd, row).0 && r.Failed?
      ensures r != Failed(StorageFailure) ==> (Db(), r) == ProcessEvent(old(Db()), cmd, row)
      ensures fault.AtStatement? ==> Db() == old(Db()) && r.Failed?
      ensures fault == NoFault ==> (r.Duplicate? <==> cmd.eventId in old(processed))
      ensures fault == NoFault ==>
                (r.Applied? <==> cmd.eventId !in old(processed) && !HasId(old(outbox), row.eventId)
                                 && cmd.orderId in old(orders)
                                 && var order := old(orders)[cmd.orderId];
                                    && CanTransition(order.status, cmd.target)
                                    && (cmd.amount > 0 && cmd.target == ReadyForDomesticDelivery ==>
                                          cmd.amount == order.remaining)
                                    && (cmd.amount > 0 && cmd.target != ReadyForDomesticDelivery ==>
                                          cmd.amount == order.deposit))
      ensures r.Applied? ==>
                cmd.orderId in old(orders)
                && orders == old(orders)[cmd.orderId := old(orders)[cmd.orderId].(status := cmd.target)]
                && timeline == old(timeline)[cmd.orderId := old(TimelineOf(Db(), cmd.orderId)) + [cmd.target]]
                && processed == old(processed)[cmd.eventId := cmd.eventType] && outbox == old(outbox) + [row]
      ensures !r.Applied? && fault != LostReply ==> Db() == old(Db())
    {
      var begin := Db();
      if fault == AtStatement(0) { return Failed(StorageFailure); }
      if cmd.eventId in processed {
        if fault.NoFault? { return Duplicate; } else { return Failed(StorageFailure); }
      }
      if fault == AtStatement(1) { return Failed(StorageFailure); }
      if cmd.orderId !in orders { return Failed(OrderNotFound); }
      var order := orders[cmd.orderId];
      var storedAmount := order.deposit;
      if cmd.target == ReadyForDomesticDelivery { storedAmount := order.remaining; }
      if cmd.amount > 0 && cmd.amount != storedAmount { return Failed(InvalidInput); }
      if !CanTransition(order.status, cmd.target) { return Failed(InvalidTransition); }
      orders := orders[cmd.orderId := order.(status := cmd.target)];
      if fault == AtStatement(2) { Rollback(begin); return Failed(StorageFailure); }
      timeline := timeline[cmd.orderId := TimelineOf(Db(), cmd.orderId) + [cmd.target]];
      if fault == AtStatement(3) || cmd.eventId in processed { Rollback(begin); return Failed(StorageFailure); }
      processed := processed[cmd.eventId := cmd.eventType];
      if fault == AtStatement(4) || HasId(outbox, row.eventId) { Rollback(begin); return Failed(StorageFailure); }
      outbox := outbox + [row];
      if fault.AtStatement? { Rollback(begin); return Failed(StorageFailure); }
      if fault == LostReply { return Failed(StorageFailure); }
      return Applied;
    }

    /** Create: an order that is already there is left alone. */
    method Create(orderId: Id, order: Order, row: Envelope, fault: Fault) returns (r: Outcome)
      modifies this
      ensures fault == NoFault ==> (Db(), r) == CreateOrder(old(Db()), orderId, order, row)
      ensures fault == LostReply ==> Db() == CreateOrder(old(Db()), orderId, order, row).0 && r.Failed?
      ensures fault.AtStatement? ==> Db() == old(Db()) && r.Failed?
      ensures fault == NoFault ==>
                (r.Duplicate? <==> orderId in old(orders) && old(orders)[orderId].quotationId == order.quotationId)
      ensures fault == NoFault ==>
                (r == Failed(QuotationConflict) <==>
                   if orderId in old(orders) then old(orders)[orderId].quotationId != order.quotationId
                   else exists o :: o in old(orders) && old(orders)[o].quotationId == order.quotationId)
      ensures r.Applied? ==>
                orderId !in old(orders) && orders == old(orders)[orderId := order]
                && timeline == old(timeline)[orderId := old(TimelineOf(Db(), orderId)) + [order.status]]
                && processed == old(processed) && outbox == old(outbox) + [row]
      ensures !r.Applied? && fault != LostReply ==> Db() == old(Db())
    {
      var begin := Db();
      if fault == AtStatement(0) { return Failed(StorageFailure); }
      if orderId in orders {
        if orders[orderId].quotationId != order.quotationId { return Failed(QuotationConflict); }
        if fault.NoFault? { return Duplicate; } else { return Failed(StorageFailure); }
      }
      if fault == AtStatement(1) { return Failed(StorageFailure); }
      if QuotationTaken(orders, order.quotationId) { return Failed(QuotationConflict); }
      if order.total <= 0 || order.deposit < 0 || order.remaining < 0 { return Failed(StorageFailure); }
      orders := orders[orderId := order];
      if fault == AtStatement(2) { Rollback(begin); return Failed(StorageFailure); }
      timeline := timeline[orderId := TimelineOf(Db(), orderId) + [order.status]];
      if fault == AtStatement(3) || HasId(outbox, row.eventId) { Rollback(begin); return Failed(StorageFailure); }
      outbox := outbox + [row];
      if fault.AtStatement? { Rollback(begin); return Failed(StorageFailure); }
      if fault == LostReply { return Failed(StorageFailure); }
      return Applied;
    }
  }

  // ------------------------------------------------------------------ repeated attempts

  /** One attempt at a transaction: the outbox row drawn for it and what goes wrong. */
  datatype Try<T> = Try(value: T, row: Envelope, fault: Fault)

  /** The tables after attempts at one status transaction. By the contract of ProcessStatusEvent a
      broken statement leaves them alone, while a lost reply does not. */
  function Retried(db: OrderDb, tries: seq<Try<StatusCommand>>): OrderDb {
    if tries == [] then db
    else
      var before, t := Retried(db, tries[..|tries| - 1]), tries[|tries| - 1];
      if t.fault.AtStatement? then before else ProcessEvent(before, t.value, t.row).0
  }

  function Recreated(db: OrderDb, orderId: Id, tries: seq<Try<Order>>): OrderDb {
    if tries == [] then db
    else
      var before, t := Recreated(db, orderId, tries[..|tries| - 1]), tries[|tries| - 1];
      if t.fault.AtStatement? then before else CreateOrder(before, orderId, t.value, t.row).0
  }

  /** Would this attempt take effect on the tables as they were at first? */
  predicate Effective(db: OrderDb, t: Try<StatusCommand>) {
    !t.fault.AtStatement? && ProcessEvent(db, t.value, t.row).1.Applied?
  }

  predicate Creates(db: OrderDb, orderId: Id, t: Try<Order>) {
    !t.fault.AtStatement? && CreateOrder(db, orderId, t.value, t.row).1.Applied?
  }

  /** However often an event is handled, with whatever faults and lost replies, the tables end as one
      transaction leaves them, that of the first attempt that could take effect, or as they began. Any
      further attempt is then a duplicate. */
  lemma {:induction false} RetriesActOnce(db: OrderDb, tries: seq<Try<StatusCommand>>, k: nat)
    requires forall i :: 0 <= i < |tries| ==> tries[i].value.eventId == tries[0].value.eventId
    requires k <= |tries| && forall i :: 0 <= i < k ==> !Effective(db, tries[i])
    requires k < |tries| ==> Effective(db, tries[k])
    ensures Retried(db, tries) == if k == |tries| then db else ProcessEvent(db, tries[k].value, tries[k].row).0
    ensures k < |tries| ==>
              forall row :: ProcessEvent(Retried(db, tries), tries[k].value, row) == (Retried(db, tries), Duplicate)
    decreases |tries|
  {
    if tries == [] {
    } else if k == |tries| {
      RetriesActOnce(db, tries[..k - 1], k - 1);
    } else {
      RetriesActOnce(db, tries[..|tries| - 1], k);
    }
  }

  /** The same for creating an order, with any rebuilt values for its quotation. */
  lemma {:induction false} CreateRetriesActOnce(db: OrderDb, orderId: Id, tries: seq<Try<Order>>, k: nat)
    requires forall i :: 0 <= i < |tries| ==> tries[i].value.quotationId == tries[0].value.quotationId
    requires k <= |tries| && forall i :: 0 <= i < k ==> !Creates(db, orderId, tries[i])
    requires k < |tries| ==> Creates(db, orderId, tries[k])
    ensures Recreated(db, orderId, tries)
         == if k == |tries| then db else CreateOrder(db, orderId, tries[k].value, tries[k].row).0
    ensures k < |tries| ==>
              forall order: Order, row :: order.quotationId == tries[k].value.quotationId ==>
                CreateOrder(Recreated(db, orderId, tries), orderId, order, row)
                == (Recreated(db, orderId, tries), Duplicate)
    decreases |tries|
  {
    if tries == [] {
    } else if k == |tries| {
      CreateRetriesActOnce(db, orderId, tries[..k - 1], k - 1);
    } else {
      CreateRetriesActOnce(db, orderId, tries[..|tries| - 1], k);
    }
  }
}
