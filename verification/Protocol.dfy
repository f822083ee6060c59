/** The five services, their databases, the Kafka logs and the consumers as one step system.
    Every action is total: where the code would refuse, fail or roll back, the state stays. */
module Protocol {
  import opened Domain
  import opened Text
  import opened OrderStore
  import PS = PaymentStore
  import QS = QuotationStore
  import WS = WarehouseStore

  // ------------------------------------------------------------------ Kafka

  datatype Partition = Partition(topic: EventType, number: nat)

  /** Partitions of each topic; the producer picks one by the record's key. */
  function PartitionsOf(topic: EventType): nat { if topic == PackageReceivedV1 then 1 else 3 }

  /** A record's value either decodes to an envelope or it does not. */
  datatype Record = Malformed | Message(envelope: Envelope)

  /** A consumer of the order service's groups. */
  datatype Cursor = Cursor(worker: nat, partition: Partition)

  /** Append-only logs, committed offsets, and each consumer's next record to deliver. */
  datatype Bus = Bus(logs: map<Partition, seq<Record>>, committed: map<Partition, nat>, cursors: map<Cursor, nat>)

  function Log(bus: Bus, p: Partition): seq<Record> {
    if p in bus.logs then bus.logs[p] else []
  }

  function CommittedAt(bus: Bus, p: Partition): nat {
    if p in bus.committed then bus.committed[p] else 0
  }

  function PositionOf(bus: Bus, c: Cursor): nat {
    if c in bus.cursors then bus.cursors[c] else 0
  }

  /** What the consumers do with a record: skip it, retry it until something changes, or run a
      status transaction. The warehouse consumer skips an invalid contract, the payment consumer
      retries it; the payment consumer goes by the envelope's type, not by the topic. */
  datatype Handling = Skip | Retry | Run(cmd: StatusCommand)

  function OrRetry(cmd: Option<StatusCommand>): Handling {
    if cmd.Some? then Run(cmd.value) else Retry
  }

  function Decode(topic: EventType, r: Record): Handling {
    match r
    case Malformed => Skip
    case Message(e) =>
      if topic == PackageReceivedV1 then
        var cmd := HandlePackageReceived(e);
        if cmd.Some? then Run(cmd.value) else Skip
      else if e.eventType == DepositSucceededV1 then OrRetry(HandleDepositSucceeded(e))
      else if e.eventType == RemainingBalanceSucceededV1 then OrRetry(HandleRemainingBalanceSucceeded(e))
      else Skip
  }

  predicate Consumed(topic: EventType) {
    topic == DepositSucceededV1 || topic == RemainingBalanceSucceededV1 || topic == PackageReceivedV1
  }

  // ------------------------------------------------------------------ calls in flight

  /** What a call remembers between two database accesses. A call may stop for good after the
      first of them, or make the second at any later time and any number of times. */
  datatype InFlight = InFlight(
    orders: set<(Id, Order)>,          // order Create, after the quotation was confirmed
    payments: set<PS.Payment>,         // createPayment, after the order summary was read
    settlements: set<(Id, PS.Payment)>,// callback or mark-succeeded, after the payment was read
    packages: set<WS.Package>,         // ReceivePackage, after the order summary was read
    checked: set<(nat, Id)>)           // a consumer that found an event not processed yet

  datatype State = State(quotes: map<Id, QS.Quotation>, ord: OrderDb, pay: PS.PaymentDb, wh: WS.WarehouseDb,
                         marked: set<(Box, Id)>, bus: Bus, flight: InFlight)

  const INIT: State := State(map[], OrderDb(map[], map[], map[], []), PS.PaymentDb(map[], map[], []),
                             WS.WarehouseDb(map[], []), {}, Bus(map[], map[], map[]),
                             InFlight({}, {}, {}, {}, {}))

  /** uuid.NewSHA1 of the quotation: deterministic, injective, never nil. */
  function OrderIdOf(quotationId: Id): Id { quotationId + 1 }

  datatype Box = OrderBox | PaymentBox | WarehouseBox

  function Rows(s: State, box: Box): seq<Envelope> {
    match box
    case OrderBox => s.ord.outbox
    case PaymentBox => s.pay.outbox
    case WarehouseBox => s.wh.outbox
  }

  /** A UUID nobody has drawn before. */
  predicate Fresh(s: State, id: Id) {
    id != NIL && !HasId(s.ord.outbox, id) && !HasId(s.pay.outbox, id) && !HasId(s.wh.outbox, id)
  }

  // ------------------------------------------------------------------ actions

  datatype Action =
    | CreateQuotation(quote: Id, customer: string, price: int, quantity: int, rate: int, now: int)
    | ConfirmForeign(quote: Id, order: Id, now: int)
    | BeginOrder(quote: Id, customer: string, address: string, now: int)
    | InsertOrder(pendingOrder: (Id, Order), row: Id, now: int)
    | ReadSummary(order: Id, kind: PaymentKind, reference: string)
    | InsertPayment(pendingPayment: PS.Payment, payment: Id)
    | ReadPaymentForCallback(payment: Id, amount: int)
    | ReadPaymentToMark(payment: Id)
    | Callback(settlement: (Id, PS.Payment), callback: string, row: Id, now: int)
    | MarkSucceeded(settlement: (Id, PS.Payment), row: Id, now: int)
    | ReadWarehouseSummary(package: WS.Package)
    | InsertPackage(pendingPackage: WS.Package, packageId: Id, row: Id, now: int)
    | Publish(box: Box, index: nat, number: nat)
    | MarkPublished(box: Box, index: nat, number: nat)
    | ForeignRecord(partition: Partition, record: Record)
    | Restart(cursor: Cursor)
    | Check(cursor: Cursor)
    | Apply(cursor: Cursor, row: Id, now: int)
    | Commit(cursor: Cursor)
    | Operator(order: Id, to: OrderStatus)

  function Exec(s: State, a: Action): State {
    match a
    case CreateQuotation(q, customer, price, quantity, rate, now) =>
      s.(quotes := QS.CreateQuotation(s.quotes, q, customer, price, quantity, rate, now))
    case ConfirmForeign(q, o, now) => s.(quotes := QS.ConfirmQuotation(s.quotes, q, o, now).0)
    case BeginOrder(q, customer, address, now) => ExecBeginOrder(s, q, customer, address, now)
    case InsertOrder(pending, row, now) =>
      if pending in s.flight.orders && Fresh(s, row)
      then s.(ord := OrderStore.CreateOrder(s.ord, pending.0, pending.1, CreatedRow(pending.0, pending.1, row, now)).0)
      else s
    case ReadSummary(o, kind, reference) => ExecReadSummary(s, o, kind, reference)
    case InsertPayment(pending, id) =>
      if pending in s.flight.payments && id != NIL then s.(pay := PS.CreatePayment(s.pay, id, pending).0) else s
    case ReadPaymentForCallback(id, amount) => ExecReadForCallback(s, id, amount)
    case ReadPaymentToMark(id) =>
      if id in s.pay.payments && PS.CanReadToMark(s.pay.payments[id]) then NoteSettlement(s, id) else s
    case Callback(settlement, callback, row, now) =>
      if settlement in s.flight.settlements && callback != "" && Fresh(s, row)
      then
        var r := PS.SuccessRow(settlement.0, settlement.1, row, now);
        s.(pay := PS.SucceedCallback(s.pay, settlement.0, callback, r).0)
      else s
    case MarkSucceeded(settlement, row, now) =>
      if settlement in s.flight.settlements && Fresh(s, row)
      then s.(pay := PS.Succeed(s.pay, settlement.0, PS.SuccessRow(settlement.0, settlement.1, row, now)).0)
      else s
    case ReadWarehouseSummary(p) =>
      if WS.ValidPackage(p) && !WS.TrackingTaken(s.wh.packages, p.tracking)
         && p.orderId in s.ord.orders && s.ord.orders[p.orderId].status == WaitingPurchase
      then s.(flight := s.flight.(packages := s.flight.packages + {p}))
      else s
    case InsertPackage(p, id, row, now) =>
      if p in s.flight.packages && id != NIL && now != 0 && Fresh(s, row)
      then s.(wh := WS.StorePackage(s.wh, id, p, WS.ReceivedRow(id, p, row, now)).0)
      else s
    case Publish(box, i, number) =>
      if i < |Rows(s, box)| && number < PartitionsOf(Rows(s, box)[i].eventType)
      then s.(bus := Append(s.bus, Partition(Rows(s, box)[i].eventType, number), Message(Rows(s, box)[i])))
      else s
    case MarkPublished(box, i, number) =>
      if i < |Rows(s, box)| && number < PartitionsOf(Rows(s, box)[i].eventType)
         && Message(Rows(s, box)[i]) in Log(s.bus, Partition(Rows(s, box)[i].eventType, number))
      then s.(marked := s.marked + {(box, Rows(s, box)[i].eventId)})
      else s
    case ForeignRecord(p, record) =>
      if p.number < PartitionsOf(p.topic) && Decode(p.topic, record) == Skip
      then s.(bus := Append(s.bus, p, record))
      else s
    case Restart(c) => s.(bus := s.bus.(cursors := s.bus.cursors[c := CommittedAt(s.bus, c.partition)]))
    case Check(c) => ExecCheck(s, c)
    case Apply(c, row, now) => ExecApply(s, c, row, now)
    case Commit(c) => s.(bus := s.bus.(committed := s.bus.committed[c.partition := PositionOf(s.bus, c)]))
    case Operator(o, to) => if OperatorMay(s.ord, o, to) then s.(ord := MoveOrder(s.ord, o, to)) else s
  }

  /** Order Create up to and including the confirmation of its quotation. */
  function ExecBeginOrder(s: State, q: Id, customer: string, address: string, now: int): State {
    if q !in s.quotes || TrimSpace(address) == "" then s
    else
      var quote := s.quotes[q];
      if customer != "" && quote.customer != customer then s
      else if (quote.status != QS.PendingConfirmation && quote.status != QS.Confirmed) || quote.quantity <= 0
        || quote.total <= 0 then s
      else
        var (quotes', error) := QS.ConfirmQuotation(s.quotes, q, OrderIdOf(q), now);
        if error.Some? then s
        else
          var order := NewOrder(if customer == "" then quote.customer else customer, q, TrimSpace(address),
            quote.total);
          s.(quotes := quotes', flight := s.flight.(orders := s.flight.orders + {(OrderIdOf(q), order)}))
  }

  function ExpectedStatus(kind: PaymentKind): OrderStatus {
    if kind == RemainingBalance then WaitingRemainingPayment else WaitingDeposit
  }

  function AmountDue(order: Order, kind: PaymentKind): int {
    if kind == RemainingBalance then order.remaining else order.deposit
  }

  /** createPayment up to the insert. */
  function ExecReadSummary(s: State, o: Id, kind: PaymentKind, reference: string): State {
    if kind == Refund || PS.SlotTaken(s.pay.payments, o, kind) || o !in s.ord.orders then s
    else
      var order := s.ord.orders[o];
      if AmountDue(order, kind) <= 0 || order.status != ExpectedStatus(kind) then s
      else
        var payment := PS.Payment(o, kind, AmountDue(order, kind), "VND", Pending, reference);
        s.(flight := s.flight.(payments := s.flight.payments + {payment}))
  }

  function NoteSettlement(s: State, id: Id): State
    requires id in s.pay.payments
  {
    s.(flight := s.flight.(settlements := s.flight.settlements + {(id, s.pay.payments[id])}))
  }

  /** ProcessSePayWebhook up to the transaction. References are unique and not empty, so looking a
      payment up by reference comes to naming it. */
  function ExecReadForCallback(s: State, id: Id, amount: int): State {
    if id !in s.pay.payments then s
    else
      var p := s.pay.payments[id];
      if p.reference == "" || amount <= 0 || p.amount != amount || p.currency != "VND" || p.kind == Refund then s
      else NoteSettlement(s, id)
  }

  function Append(bus: Bus, p: Partition, r: Record): Bus {
    bus.(logs := bus.logs[p := Log(bus, p) + [r]])
  }

  function Advance(bus: Bus, c: Cursor): Bus {
    bus.(cursors := bus.cursors[c := PositionOf(bus, c) + 1])
  }

  function Current(bus: Bus, c: Cursor): Option<Record> {
    var log := Log(bus, c.partition);
    if PositionOf(bus, c) < |log| then Some(log[PositionOf(bus, c)]) else None
  }

  /** The first half of handling a record: skipping it, or the SELECT EXISTS on processed_events. */
  function ExecCheck(s: State, c: Cursor): State {
    var record := Current(s.bus, c);
    if record.None? || !Consumed(c.partition.topic) then s
    else
      match Decode(c.partition.topic, record.value)
      case Skip => s.(bus := Advance(s.bus, c))
      case Retry => s
      case Run(cmd) =>
        if cmd.eventId in s.ord.processed then s.(bus := Advance(s.bus, c))
        else s.(flight := s.flight.(checked := s.flight.checked + {(c.worker, cmd.eventId)}))
  }

  /** The status command the record at a cursor asks for. */
  function CommandAt(s: State, c: Cursor): Option<StatusCommand> {
    var record := Current(s.bus, c);
    if record.Some? && Consumed(c.partition.topic) && Decode(c.partition.topic, record.value).Run?
    then Some(Decode(c.partition.topic, record.value).cmd) else None
  }

  predicate MayApply(s: State, c: Cursor, row: Id) {
    CommandAt(s, c).Some? && (c.worker, CommandAt(s, c).value.eventId) in s.flight.checked && Fresh(s, row)
  }

  /** The second half: the locked part of the transaction. It may run long after the check, so it
      may meet an event that another consumer has processed since; then it rolls back. */
  function ExecApply(s: State, c: Cursor, row: Id, now: int): State {
    if !MayApply(s, c, row) then s
    else
      var cmd := CommandAt(s, c).value;
      var (db, outcome) := ApplyLocked(s.ord, cmd, StatusRow(cmd, row, now));
      if outcome.Applied? then s.(ord := db, bus := Advance(s.bus, c)) else s
  }

  /** The operator's moves: along the graph, but never out of a payment wait and never into a
      status that an event announces. */
  predicate OperatorStep(from: OrderStatus, to: OrderStatus) {
    && CanTransition(from, to) && from != WaitingDeposit && from != WaitingRemainingPayment
    && to != ArrivedForeignWarehouse && to != ReadyForDomesticDelivery && to != Cancelled
  }

  predicate OperatorMay(db: OrderDb, o: Id, to: OrderStatus) {
    o in db.orders && OperatorStep(db.orders[o].status, to)
  }

  function RunAll(s: State, actions: seq<Action>): State {
    if actions == [] then s else Exec(RunAll(s, actions[..|actions| - 1]), actions[|actions| - 1])
  }
}
