/** Every action preserves the invariant, so every run satisfies it. */
module Preservation {
  import opened Domain
  import opened Text
  import opened OrderStore
  import opened Protocol
  import opened Invariant
  import PS = PaymentStore
  import QS = QuotationStore
  import WS = WarehouseStore

  // ------------------------------------------------------------------ payment steps

  lemma {:induction false} CreatePaymentOk(orders: map<Id, Order>, pay: PS.PaymentDb, pending: set<(Id, PS.Payment)>,
                                           id: Id, p: PS.Payment)
    requires PaymentTablesOk(orders, pay, pending) && PaymentOk(orders, p) && p.status == Pending && id != NIL
    ensures PaymentTablesOk(orders, PS.CreatePayment(pay, id, p).0, pending)
  {
    var pay' := PS.CreatePayment(pay, id, p).0;
    if pay' != pay {
      hide PaymentsOk, SlotsUnique, SettlementsOk, CallbacksOk, PaymentRowsOk;
      PaymentsWith(orders, pay.payments, id, p);
      SlotsWith(pay.payments, id, p);
      ReadingsWith(pay, pending, id, p);
      RowsKeepWithPayment(pay, id, p);
    }
  }

  lemma {:induction false} PaymentsWith(orders: map<Id, Order>, payments: map<Id, PS.Payment>, id: Id, p: PS.Payment)
    requires PaymentsOk(orders, payments) && PaymentOk(orders, p) && p.status == Pending && id != NIL
    ensures PaymentsOk(orders, payments[id := p])
  {
    hide PaymentOk;
  }

  lemma {:induction false} SlotsWith(payments: map<Id, PS.Payment>, id: Id, p: PS.Payment)
    requires SlotsUnique(payments) && id !in payments && p.kind != Refund && !PS.SlotTaken(payments, p.orderId, p.kind)
    ensures SlotsUnique(payments[id := p])
  {
  }

  lemma {:induction false} ReadingsWith(pay: PS.PaymentDb, pending: set<(Id, PS.Payment)>, id: Id, p: PS.Payment)
    requires SettlementsOk(pay.payments, pending) && CallbacksOk(pay) && id !in pay.payments
    ensures var pay' := pay.(payments := pay.payments[id := p]);
            SettlementsOk(pay'.payments, pending) && CallbacksOk(pay')
  {
  }

  /** A pending payment has no row and needs none. */
  lemma {:induction false} RowsKeepWithPayment(pay: PS.PaymentDb, id: Id, p: PS.Payment)
    requires PaymentRowsOk(pay) && id !in pay.payments && p.status == Pending
    ensures PaymentRowsOk(pay.(payments := pay.payments[id := p]))
  {
    forall i | 0 <= i < |pay.outbox| ensures PaymentRowOk(pay.payments[id := p], pay.outbox[i]) {
      assert PaymentRowOk(pay.payments, pay.outbox[i]);
    }
  }

  /** Settling a pending payment adds its one success row. */
  lemma {:induction false} SettleOk(orders: map<Id, Order>, pay: PS.PaymentDb, pending: set<(Id, PS.Payment)>,
                                    id: Id, p: PS.Payment, eventId: Id, now: int)
    requires PaymentTablesOk(orders, pay, pending) && (id, p) in pending && eventId != NIL
    ensures PaymentTablesOk(orders, PS.Settle(pay, id, PS.SuccessRow(id, p, eventId, now)).0, pending)
  {
    hide PaymentsOk, SlotsUnique, PaymentRowsOk;
    var row := PS.SuccessRow(id, p, eventId, now);
    if PS.Settle(pay, id, row).1.Applied? {
      assert (id, p).0 == id && (id, p).1 == p;
      SettledRows(pay, id, eventId, now);
      PendingKeeps(orders, pay, id);
      CallbacksKeep(pay, id);
    }
  }

  lemma {:induction false} CallbacksKeep(pay: PS.PaymentDb, id: Id)
    requires CallbacksOk(pay) && id in pay.payments
    ensures CallbacksOk(pay.(payments := pay.payments[id := pay.payments[id].(status := Succeeded)]))
  {
  }

  /** The rows of the payment table after one more payment succeeded. */
  lemma {:induction false} SettledRows(pay: PS.PaymentDb, id: Id, eventId: Id, now: int)
    requires PaymentRowsOk(pay) && id in pay.payments && pay.payments[id].status != Succeeded && eventId != NIL
    ensures PaymentRowsOk(pay.(payments := pay.payments[id := pay.payments[id].(status := Succeeded)],
                               outbox := pay.outbox + [PS.SuccessRow(id, pay.payments[id], eventId, now)]))
  {
    NoRowYet(pay, id);
    var payments', row := pay.payments[id := pay.payments[id].(status := Succeeded)],
      PS.SuccessRow(id, pay.payments[id], eventId, now);
    var outbox' := pay.outbox + [row];
    forall i | 0 <= i < |outbox'| ensures PaymentRowOk(payments', outbox'[i]) {
      if i < |pay.outbox| { assert PaymentRowOk(pay.payments, pay.outbox[i]); }
    }
    forall x | x in payments' && payments'[x].status == Succeeded ensures HasRowFor(outbox', x) {
      if x == id {
        assert outbox'[|pay.outbox|] == row;
      } else {
        RowForStays(pay.outbox, row, x);
      }
    }
  }

  lemma {:induction false} RowForStays(rows: seq<Envelope>, r: Envelope, id: Id)
    requires HasRowFor(rows, id)
    ensures HasRowFor(rows + [r], id)
  {
    var i :| 0 <= i < |rows| && rows[i].data.PaymentData? && rows[i].data.paymentId == id;
    assert (rows + [r])[i] == rows[i];
  }

  lemma {:induction false} NoRowYet(pay: PS.PaymentDb, id: Id)
    requires PaymentRowsOk(pay) && id in pay.payments && pay.payments[id].status != Succeeded
    ensures forall i :: 0 <= i < |pay.outbox| ==> pay.outbox[i].data.PaymentData? && pay.outbox[i].data.paymentId != id
  {
  }

  lemma {:induction false} PendingKeeps(orders: map<Id, Order>, pay: PS.PaymentDb, id: Id)
    requires PaymentsOk(orders, pay.payments) && SlotsUnique(pay.payments) && id in pay.payments
    ensures var payments' := pay.payments[id := pay.payments[id].(status := Succeeded)];
            PaymentsOk(orders, payments') && SlotsUnique(payments')
  {
  }

  lemma {:induction false} NoteCallbackOk(orders: map<Id, Order>, pay: PS.PaymentDb, pending: set<(Id, PS.Payment)>,
                                          id: Id, callback: string)
    requires PaymentTablesOk(orders, pay, pending) && id in pay.payments && pay.payments[id].status == Succeeded
    ensures PaymentTablesOk(orders, pay.(callbacks := pay.callbacks[callback := id]), pending)
  {
  }

  lemma {:induction false} CallbackOk(orders: map<Id, Order>, pay: PS.PaymentDb, pending: set<(Id, PS.Payment)>,
                                      id: Id, p: PS.Payment, callback: string, eventId: Id, now: int)
    requires PaymentTablesOk(orders, pay, pending) && (id, p) in pending && eventId != NIL
    ensures PaymentTablesOk(orders, PS.SucceedCallback(pay, id, callback, PS.SuccessRow(id, p, eventId, now)).0,
              pending)
  {
    hide PaymentTablesOk;
    var row := PS.SuccessRow(id, p, eventId, now);
    var pay' := PS.SucceedCallback(pay, id, callback, row).0;
    if pay' != pay {
      SettleOk(orders, pay, pending, id, p, eventId, now);
      if pay.payments[id].status == Succeeded {
        NoteCallbackOk(orders, pay, pending, id, callback);
      } else {
        var settled := PS.Settle(pay, id, row).0;
        assert pay' == settled.(callbacks := settled.callbacks[callback := id]);
        NoteCallbackOk(orders, settled, pending, id, callback);
      }
    }
  }

  // ------------------------------------------------------------------ outbox growth

  ghost predicate Extends(a: seq<Envelope>, b: seq<Envelope>) {
    |a| <= |b| && forall i :: 0 <= i < |a| ==> b[i] == a[i]
  }

  lemma {:induction false} LogsOkGrow(s: State, s': State)
    requires LogsOk(s) && s'.bus.logs == s.bus.logs && s'.marked == s.marked
    requires Extends(s.pay.outbox, s'.pay.outbox) && Extends(s.wh.outbox, s'.wh.outbox)
             && Extends(s.ord.outbox, s'.ord.outbox)
    ensures LogsOk(s')
  {
    RecordsOkGrow(s, s');
    MarkedOkGrow(s, s');
  }

  lemma {:induction false} RecordsOkGrow(s: State, s': State)
    requires RecordsOk(s) && s'.bus.logs == s.bus.logs
    requires Extends(s.pay.outbox, s'.pay.outbox) && Extends(s.wh.outbox, s'.wh.outbox)
             && Extends(s.ord.outbox, s'.ord.outbox)
    ensures RecordsOk(s')
  {
  }

  lemma {:induction false} OnTopicGrow(a: Bus, b: Bus, r: Envelope)
    requires OnTopic(a, r)
    requires forall p ::
               |Log(a, p)| <= |Log(b, p)| && forall i :: 0 <= i < |Log(a, p)| ==> Log(b, p)[i] == Log(a, p)[i]
    ensures OnTopic(b, r)
  {
  }

  lemma {:induction false} MarkedOkGrow(s: State, s': State)
    requires MarkedOk(s) && s'.marked == s.marked
    requires Extends(s.pay.outbox, s'.pay.outbox) && Extends(s.wh.outbox, s'.wh.outbox)
             && Extends(s.ord.outbox, s'.ord.outbox)
    requires forall p ::
               |Log(s.bus, p)| <= |Log(s'.bus, p)|
               && forall i :: 0 <= i < |Log(s.bus, p)| ==> Log(s'.bus, p)[i] == Log(s.bus, p)[i]
    ensures MarkedOk(s')
  {
    forall m | m in s'.marked
      ensures exists i ::
                0 <= i < |Rows(s', m.0)| && Rows(s', m.0)[i].eventId == m.1 && OnTopic(s'.bus, Rows(s', m.0)[i])
    {
      var i :| 0 <= i < |Rows(s, m.0)| && Rows(s, m.0)[i].eventId == m.1 && OnTopic(s.bus, Rows(s, m.0)[i]);
      assert Rows(s', m.0)[i] == Rows(s, m.0)[i];
      OnTopicGrow(s.bus, s'.bus, Rows(s, m.0)[i]);
    }
  }

  lemma {:induction false} RecordOkGrow(s: State, s': State, topic: EventType, r: Record)
    requires RecordOk(s, topic, r)
    requires Extends(s.pay.outbox, s'.pay.outbox) && Extends(s.wh.outbox, s'.wh.outbox)
             && Extends(s.ord.outbox, s'.ord.outbox)
    ensures RecordOk(s', topic, r)
  {
  }

  lemma {:induction false} UniqueAppend(rows: seq<Envelope>, r: Envelope)
    requires UniqueIds(rows) && !HasId(rows, r.eventId)
    ensures UniqueIds(rows + [r])
  {
  }

  lemma {:induction false} ProcessedAppend(processed: map<Id, EventType>, a: seq<Envelope>, b: seq<Envelope>,
                                           a': seq<Envelope>, b': seq<Envelope>)
    requires ProcessedOk(processed, a, b) && Extends(a, a') && Extends(b, b')
    ensures ProcessedOk(processed, a', b')
  {
  }

  lemma {:induction false} EventsPaymentRow(ord: OrderDb, pay: seq<Envelope>, wh: seq<Envelope>, r: Envelope)
    requires EventsOk(ord, pay, wh) && !HasId(pay, r.eventId) && !HasId(wh, r.eventId)
    ensures EventsOk(ord, pay + [r], wh)
  {
    UniqueAppend(pay, r);
    ProcessedAppend(ord.processed, pay, wh, pay + [r], wh);
    MilestoneAppend(ord.orders, ord.processed, pay, r, DepositSucceededV1);
    MilestoneAppend(ord.orders, ord.processed, pay, r, RemainingBalanceSucceededV1);
  }

  lemma {:induction false} EventsPackageRow(ord: OrderDb, pay: seq<Envelope>, wh: seq<Envelope>, r: Envelope)
    requires EventsOk(ord, pay, wh) && !HasId(pay, r.eventId) && !HasId(wh, r.eventId)
    ensures EventsOk(ord, pay, wh + [r])
  {
    UniqueAppend(wh, r);
    ProcessedAppend(ord.processed, pay, wh, pay, wh + [r]);
    MilestoneAppend(ord.orders, ord.processed, wh, r, PackageReceivedV1);
  }

  // ------------------------------------------------------------------ package steps

  lemma {:induction false} StorePackageOk(orders: map<Id, Order>, wh: WS.WarehouseDb, pending: set<WS.Package>,
                                          id: Id, p: WS.Package, eventId: Id, now: int)
    requires PackageTablesOk(orders, wh, pending) && p in pending && id != NIL && eventId != NIL && now != 0
    ensures PackageTablesOk(orders, WS.StorePackage(wh, id, p, WS.ReceivedRow(id, p, eventId, now)).0, pending)
  {
  }

  // ------------------------------------------------------------------ consumer steps

  /** A payment row meets the payment contract, so it decodes to its own status command. */
  lemma {:induction false} PaymentRowDecodes(orders: map<Id, Order>, pay: PS.PaymentDb, k: nat)
    requires PaymentsOk(orders, pay.payments) && PaymentRowsOk(pay) && k < |pay.outbox|
    ensures var e := pay.outbox[k];
            && (e.eventType == DepositSucceededV1 || e.eventType == RemainingBalanceSucceededV1)
            && e.aggregateId in orders && e.aggregateId == e.data.payOrderId
            && Decode(e.eventType, Message(e)).Run?
            && var cmd := Decode(e.eventType, Message(e)).cmd;
               cmd.eventId == e.eventId && cmd.eventType == e.eventType && cmd.orderId == e.aggregateId
               && cmd.target == Target(e.eventType) && cmd.amount == e.data.amount && cmd.amount > 0
  {
  }

  lemma {:induction false} PackageRowDecodes(orders: map<Id, Order>, wh: WS.WarehouseDb, k: nat)
    requires PackagesOk(orders, wh.packages) && PackageRowsOk(wh) && k < |wh.outbox|
    ensures var e := wh.outbox[k];
            && e.eventType == PackageReceivedV1 && e.aggregateId in orders
            && Rank(orders[e.aggregateId].status) >= Rank(WaitingPurchase)
            && Decode(e.eventType, Message(e)).Run?
            && var cmd := Decode(e.eventType, Message(e)).cmd;
               cmd.eventId == e.eventId && cmd.eventType == e.eventType && cmd.orderId == e.aggregateId
               && cmd.target == Target(e.eventType) && cmd.amount == 0
  {
  }

  /** A record that asks for a status transaction is a row of the payment or warehouse outbox. */
  lemma {:induction false} RunComesFromRow(s: State, c: Cursor)
    requires LogsOk(s) && OrderRowsOk(s.ord.outbox)
    requires Current(s.bus, c).Some? && Decode(c.partition.topic, Current(s.bus, c).value) != Skip
    ensures var r := Current(s.bus, c).value;
            r.Message? && r.envelope.eventType == c.partition.topic
            && (r.envelope in s.pay.outbox || r.envelope in s.wh.outbox)
  {
  }

  lemma {:induction false} RunComesFromInv(s: State, c: Cursor)
    requires Inv(s) && Current(s.bus, c).Some? && Decode(c.partition.topic, Current(s.bus, c).value).Run?
    ensures var r := Current(s.bus, c).value;
            r.Message? && r.envelope.eventType == c.partition.topic
            && (r.envelope in s.pay.outbox || r.envelope in s.wh.outbox)
  {
    hide Decode, QuotesOk, OrdersOk, OrderIntentsOk, TimelinesOk, PaymentTablesOk, PaymentIntentsOk, PackageTablesOk,
      EventsOk, OffsetsOk;
    RunComesFromRow(s, c);
  }

  /** The locked transaction on a row of one outbox keeps all the event bookkeeping. */
  lemma {:induction false} EventsApplyPayment(ord: OrderDb, pay: seq<Envelope>, wh: seq<Envelope>, k: nat)
    requires EventsOk(ord, pay, wh) && k < |pay|
    requires pay[k].eventType == DepositSucceededV1 || pay[k].eventType == RemainingBalanceSucceededV1
    requires pay[k].aggregateId in ord.orders
    requires CanTransition(ord.orders[pay[k].aggregateId].status, Target(pay[k].eventType))
    ensures var moved := MoveOrder(ord, pay[k].aggregateId, Target(pay[k].eventType));
            EventsOk(moved.(processed := ord.processed[pay[k].eventId := pay[k].eventType]), pay, wh)
  {
    assert HasId(pay, pay[k].eventId);
    assert !HasId(wh, pay[k].eventId);
    MilestoneApply(ord.orders, ord.processed, pay, k, Target(pay[k].eventType), DepositSucceededV1);
    MilestoneApply(ord.orders, ord.processed, pay, k, Target(pay[k].eventType), RemainingBalanceSucceededV1);
    MilestoneApplyElsewhere(ord.orders, ord.processed, wh, pay[k], Target(pay[k].eventType), PackageReceivedV1);
  }

  lemma {:induction false} EventsApplyPackage(ord: OrderDb, pay: seq<Envelope>, wh: seq<Envelope>, k: nat)
    requires EventsOk(ord, pay, wh) && k < |wh|
    requires wh[k].eventType == PackageReceivedV1 && wh[k].aggregateId in ord.orders
    requires CanTransition(ord.orders[wh[k].aggregateId].status, ArrivedForeignWarehouse)
    ensures var moved := MoveOrder(ord, wh[k].aggregateId, ArrivedForeignWarehouse);
            EventsOk(moved.(processed := ord.processed[wh[k].eventId := PackageReceivedV1]), pay, wh)
  {
    assert HasId(wh, wh[k].eventId);
    assert !HasId(pay, wh[k].eventId);
    MilestoneApply(ord.orders, ord.processed, wh, k, ArrivedForeignWarehouse, PackageReceivedV1);
    MilestoneApplyElsewhere(ord.orders, ord.processed, pay, wh[k], ArrivedForeignWarehouse, DepositSucceededV1);
    MilestoneApplyElsewhere(ord.orders, ord.processed, pay, wh[k], ArrivedForeignWarehouse,
      RemainingBalanceSucceededV1);
  }

  lemma {:induction false} EventsOperator(ord: OrderDb, pay: seq<Envelope>, wh: seq<Envelope>, o: Id, to: OrderStatus)
    requires EventsOk(ord, pay, wh) && OperatorMay(ord, o, to)
    ensures EventsOk(MoveOrder(ord, o, to), pay, wh)
  {
    MilestoneOperator(ord, pay, o, to, DepositSucceededV1);
    MilestoneOperator(ord, pay, o, to, RemainingBalanceSucceededV1);
    MilestoneOperator(ord, wh, o, to, PackageReceivedV1);
  }

  /** Every row names an order that exists. */
  ghost predicate RowsHaveOrder(orders: map<Id, Order>, rows: seq<Envelope>) {
    forall i :: 0 <= i < |rows| ==> rows[i].aggregateId in orders
  }

  lemma {:induction false} AllRowsHaveOrder(orders: map<Id, Order>, pay: PS.PaymentDb, readings: set<(Id, PS.Payment)>,
                                            wh: WS.WarehouseDb, pending: set<WS.Package>)
    requires PaymentTablesOk(orders, pay, readings) && PackageTablesOk(orders, wh, pending)
    ensures RowsHaveOrder(orders, pay.outbox) && RowsHaveOrder(orders, wh.outbox)
  {
  }

  /** A new order has no history: no event names it before it exists. */
  lemma {:induction false} EventsCreate(ord: OrderDb, o: Id, order: Order, row: Envelope, pay: seq<Envelope>,
                                        wh: seq<Envelope>)
    requires EventsOk(ord, pay, wh) && order.status == WaitingDeposit
    requires RowsHaveOrder(ord.orders, pay) && RowsHaveOrder(ord.orders, wh)
    ensures EventsOk(CreateOrder(ord, o, order, row).0, pay, wh)
  {
    var ord' := CreateOrder(ord, o, order, row).0;
    if ord' != ord {
      MilestoneNewOrder(ord, o, order, pay, DepositSucceededV1);
      MilestoneNewOrder(ord, o, order, pay, RemainingBalanceSucceededV1);
      MilestoneNewOrder(ord, o, order, wh, PackageReceivedV1);
    }
  }

  lemma {:induction false} MilestoneNewOrder(ord: OrderDb, o: Id, order: Order, rows: seq<Envelope>, t: EventType)
    requires MilestoneOk(ord.orders, ord.processed, rows, t) && RowsHaveOrder(ord.orders, rows)
    requires o !in ord.orders && order.status == WaitingDeposit && Rank(Target(t)) > 0
    ensures MilestoneOk(ord.orders[o := order], ord.processed, rows, t)
  {
  }

  // ------------------------------------------------------------------ offsets

  ghost predicate BusGrows(a: Bus, b: Bus) {
    && a.committed == b.committed && a.cursors == b.cursors
    && forall p :: |Log(a, p)| <= |Log(b, p)| && forall i :: 0 <= i < |Log(a, p)| ==> Log(b, p)[i] == Log(a, p)[i]
  }

  lemma {:induction false} OffsetsGrow(processed: map<Id, EventType>, processed': map<Id, EventType>, a: Bus, b: Bus)
    requires OffsetsOk(processed, a) && processed.Keys <= processed'.Keys && BusGrows(a, b)
    ensures OffsetsOk(processed', b)
  {
  }

  lemma {:induction false} AppendGrows(bus: Bus, p: Partition, r: Record)
    ensures BusGrows(bus, Append(bus, p, r))
  {
  }

  /** The offset a cursor without an entry starts from has nothing below it. */
  lemma {:induction false} PositionDone(processed: map<Id, EventType>, bus: Bus, c: Cursor)
    requires OffsetsOk(processed, bus) && Consumed(c.partition.topic)
    ensures DoneBelow(processed, c.partition, Log(bus, c.partition), PositionOf(bus, c))
    ensures DoneBelow(processed, c.partition, Log(bus, c.partition), CommittedAt(bus, c.partition))
  {
  }

  lemma {:induction false} AdvanceOk(processed: map<Id, EventType>, bus: Bus, c: Cursor)
    requires OffsetsOk(processed, bus) && Consumed(c.partition.topic) && Current(bus, c).Some?
    requires Done(processed, c.partition.topic, Current(bus, c).value)
    ensures OffsetsOk(processed, Advance(bus, c))
  {
  }

  /** Going back to the committed offset, and committing the position, leave nothing undone below. */
  lemma {:induction false} RestartOk(processed: map<Id, EventType>, bus: Bus, c: Cursor)
    requires OffsetsOk(processed, bus)
    ensures OffsetsOk(processed, bus.(cursors := bus.cursors[c := CommittedAt(bus, c.partition)]))
    ensures OffsetsOk(processed, bus.(committed := bus.committed[c.partition := PositionOf(bus, c)]))
  {
    if Consumed(c.partition.topic) { PositionDone(processed, bus, c); }
    hide DoneBelow;
    MovedTo(processed, bus, c, CommittedAt(bus, c.partition));
    CommittedTo(processed, bus, c.partition, PositionOf(bus, c));
  }

  lemma {:induction false} MovedTo(processed: map<Id, EventType>, bus: Bus, c: Cursor, offset: nat)
    requires OffsetsOk(processed, bus)
    requires Consumed(c.partition.topic) ==> DoneBelow(processed, c.partition, Log(bus, c.partition), offset)
    ensures OffsetsOk(processed, bus.(cursors := bus.cursors[c := offset]))
  {
    hide DoneBelow;
    assert forall p :: Log(bus.(cursors := bus.cursors[c := offset]), p) == Log(bus, p);
  }

  lemma {:induction false} CommittedTo(processed: map<Id, EventType>, bus: Bus, p: Partition, offset: nat)
    requires OffsetsOk(processed, bus)
    requires Consumed(p.topic) ==> DoneBelow(processed, p, Log(bus, p), offset)
    ensures OffsetsOk(processed, bus.(committed := bus.committed[p := offset]))
  {
    hide DoneBelow;
    assert forall q :: Log(bus.(committed := bus.committed[p := offset]), q) == Log(bus, q);
  }

  // ------------------------------------------------------------------ the invariant is inductive

  lemma {:induction false} InitOk()
    ensures Inv(INIT)
  {
  }

  /** A step that changes only quotations and the orders being placed. */
  lemma {:induction false} QuotationStep(s: State, quotes': map<Id, QS.Quotation>)
    requires Inv(s) && QuotesOk(quotes') && QuotesGrow(s.quotes, quotes')
    ensures Inv(s.(quotes := quotes'))
  {
    QuotesGrowKeeps(s.quotes, quotes', s.ord.orders, s.flight.orders);
    LogsOkGrow(s, s.(quotes := quotes'));
  }

  lemma {:induction false} CreateQuotationStep(s: State, q: Id, customer: string, price: int, quantity: int, rate: int,
                                               now: int)
    requires Inv(s)
    ensures Inv(s.(quotes := QS.CreateQuotation(s.quotes, q, customer, price, quantity, rate, now)))
  {
    CreateQuotationOk(s.quotes, q, customer, price, quantity, rate, now);
    QuotationStep(s, QS.CreateQuotation(s.quotes, q, customer, price, quantity, rate, now));
  }

  lemma {:induction false} ConfirmQuotationStep(s: State, q: Id, o: Id, now: int)
    requires Inv(s)
    ensures Inv(s.(quotes := QS.ConfirmQuotation(s.quotes, q, o, now).0))
  {
    ConfirmQuotationOk(s.quotes, q, o, now);
    QuotationStep(s, QS.ConfirmQuotation(s.quotes, q, o, now).0);
  }

  lemma {:induction false} BeginOrderStep(s: State, q: Id, customer: string, address: string, now: int)
    requires Inv(s)
    ensures Inv(ExecBeginOrder(s, q, customer, address, now))
  {
    var s' := ExecBeginOrder(s, q, customer, address, now);
    if s' != s {
      var (quotes', error) := QS.ConfirmQuotation(s.quotes, q, OrderIdOf(q), now);
      ConfirmQuotationOk(s.quotes, q, OrderIdOf(q), now);
      QuotationStep(s, quotes');
      NewOrderOk(quotes', q, if customer == "" then s.quotes[q].customer else customer, TrimSpace(address));
      LogsOkGrow(s.(quotes := quotes'), s');
    }
  }

  /** A step that changes only the order tables. */
  lemma {:induction false} OrderTablesStep(s: State, ord': OrderDb)
    requires Inv(s) && OrdersOk(s.quotes, ord'.orders) && TimelinesOk(ord') && OrdersGrow(s.ord.orders, ord'.orders)
    requires EventsOk(ord', s.pay.outbox, s.wh.outbox)
    requires OrderRowsOk(ord'.outbox) && Extends(s.ord.outbox, ord'.outbox)
    requires s.ord.processed.Keys <= ord'.processed.Keys
    ensures Inv(s.(ord := ord'))
  {
    hide QuotesOk, OrdersOk, OrderIntentsOk, TimelinesOk, PaymentTablesOk, PaymentIntentsOk, PackageTablesOk, EventsOk,
      OrderRowsOk, LogsOk, OffsetsOk;
    OrdersGrowPayments(s.ord.orders, ord'.orders, s.pay, s.flight.settlements, s.flight.payments);
    OrdersGrowPackages(s.ord.orders, ord'.orders, s.wh, s.flight.packages);
    OffsetsGrow(s.ord.processed, ord'.processed, s.bus, s.bus);
    LogsOkGrow(s, s.(ord := ord'));
  }

  lemma {:induction false} CreateOrderShape(db: OrderDb, o: Id, order: Order, row: Envelope)
    requires OrderRowsOk(db.outbox) && row.eventType == OrderCreatedV1
    ensures var db' := CreateOrder(db, o, order, row).0;
            OrderRowsOk(db'.outbox) && Extends(db.outbox, db'.outbox) && db'.processed == db.processed
  {
  }

  lemma {:induction false} InsertOrderStep(s: State, pending: (Id, Order), row: Id, now: int)
    requires Inv(s) && pending in s.flight.orders && Fresh(s, row)
    ensures Inv(s.(ord := CreateOrder(s.ord, pending.0, pending.1, CreatedRow(pending.0, pending.1, row, now)).0))
  {
    var r := CreatedRow(pending.0, pending.1, row, now);
    CreateOrderOk(s.quotes, s.ord, pending.0, pending.1, r);
    CreateOrderShape(s.ord, pending.0, pending.1, r);
    AllRowsHaveOrder(s.ord.orders, s.pay, s.flight.settlements, s.wh, s.flight.packages);
    EventsCreate(s.ord, pending.0, pending.1, r, s.pay.outbox, s.wh.outbox);
    OrderTablesStep(s, CreateOrder(s.ord, pending.0, pending.1, r).0);
  }

  lemma {:induction false} ReadSummaryStep(s: State, o: Id, kind: PaymentKind, reference: string)
    requires Inv(s)
    ensures Inv(ExecReadSummary(s, o, kind, reference))
  {
    hide QuotesOk, OrderIntentsOk, TimelinesOk, PaymentTablesOk, PackageTablesOk, EventsOk, OrderRowsOk, LogsOk,
      OffsetsOk;
    var s' := ExecReadSummary(s, o, kind, reference);
    if s' != s {
      assert OrderOk(s.quotes, o, s.ord.orders[o]);
      LogsOkGrow(s, s');
    }
  }

  lemma {:induction false} ReadPaymentStep(s: State, id: Id)
    requires Inv(s) && id in s.pay.payments
    ensures Inv(NoteSettlement(s, id))
  {
    hide QuotesOk, OrdersOk, OrderIntentsOk, TimelinesOk, PaymentIntentsOk, PackageTablesOk, EventsOk, OrderRowsOk,
      LogsOk, OffsetsOk;
    LogsOkGrow(s, NoteSettlement(s, id));
  }

  lemma {:induction false} InsertPaymentStep(s: State, pending: PS.Payment, id: Id)
    requires Inv(s) && pending in s.flight.payments && id != NIL
    ensures Inv(s.(pay := PS.CreatePayment(s.pay, id, pending).0))
  {
    hide QuotesOk, OrdersOk, OrderIntentsOk, TimelinesOk, PaymentTablesOk, PackageTablesOk, EventsOk, OrderRowsOk,
      LogsOk, OffsetsOk;
    CreatePaymentOk(s.ord.orders, s.pay, s.flight.settlements, id, pending);
    LogsOkGrow(s, s.(pay := PS.CreatePayment(s.pay, id, pending).0));
  }

  /** A step after which the payment outbox is as before or has one new, fresh row. */
  lemma {:induction false} SettlementStep(s: State, pay': PS.PaymentDb, r: Envelope)
    requires Inv(s) && Fresh(s, r.eventId) && PaymentTablesOk(s.ord.orders, pay', s.flight.settlements)
    requires pay'.outbox == s.pay.outbox || pay'.outbox == s.pay.outbox + [r]
    ensures Inv(s.(pay := pay'))
  {
    EventsPaymentRow(s.ord, s.pay.outbox, s.wh.outbox, r);
    LogsOkGrow(s, s.(pay := pay'));
  }

  lemma {:induction false} InsertPackageStep(s: State, p: WS.Package, id: Id, row: Id, now: int)
    requires Inv(s) && p in s.flight.packages && id != NIL && now != 0 && Fresh(s, row)
    ensures Inv(s.(wh := WS.StorePackage(s.wh, id, p, WS.ReceivedRow(id, p, row, now)).0))
  {
    hide QuotesOk, OrdersOk, OrderIntentsOk, TimelinesOk, PaymentTablesOk, PaymentIntentsOk, PackageTablesOk, EventsOk,
      OrderRowsOk, LogsOk, OffsetsOk;
    var r := WS.ReceivedRow(id, p, row, now);
    var wh' := WS.StorePackage(s.wh, id, p, r).0;
    StorePackageOk(s.ord.orders, s.wh, s.flight.packages, id, p, row, now);
    EventsPackageRow(s.ord, s.pay.outbox, s.wh.outbox, r);
    LogsOkGrow(s, s.(wh := wh'));
  }

  lemma {:induction false} AppendStep(s: State, p: Partition, r: Record)
    requires Inv(s) && RecordOk(s, p.topic, r) && p.number < PartitionsOf(p.topic)
    ensures Inv(s.(bus := Append(s.bus, p, r)))
  {
    var s' := s.(bus := Append(s.bus, p, r));
    AppendGrows(s.bus, p, r);
    MarkedOkGrow(s, s');
    OffsetsGrow(s.ord.processed, s.ord.processed, s.bus, s'.bus);
    forall q, i | q in s'.bus.logs && 0 <= i < |s'.bus.logs[q]| ensures RecordOk(s', q.topic, s'.bus.logs[q][i]) {
      if q in s.bus.logs && i < |s.bus.logs[q]| {
        RecordOkGrow(s, s', q.topic, s.bus.logs[q][i]);
      } else {
        RecordOkGrow(s, s', p.topic, r);
      }
    }
  }

  lemma {:induction false} PublishStep(s: State, box: Box, i: nat, number: nat)
    requires Inv(s) && i < |Rows(s, box)| && number < PartitionsOf(Rows(s, box)[i].eventType)
    ensures Inv(s.(bus := Append(s.bus, Partition(Rows(s, box)[i].eventType, number), Message(Rows(s, box)[i]))))
  {
    AppendStep(s, Partition(Rows(s, box)[i].eventType, number), Message(Rows(s, box)[i]));
  }

  lemma {:induction false} CursorStep(s: State, bus': Bus)
    requires Inv(s) && bus'.logs == s.bus.logs && OffsetsOk(s.ord.processed, bus')
    ensures Inv(s.(bus := bus'))
  {
    LogsOkGrow(s, s.(bus := bus'));
  }

  lemma {:induction false} CheckStep(s: State, c: Cursor)
    requires Inv(s)
    ensures Inv(ExecCheck(s, c))
  {
    hide QuotesOk, OrdersOk, OrderIntentsOk, TimelinesOk, PaymentTablesOk, PaymentIntentsOk, PackageTablesOk, EventsOk,
      OrderRowsOk, LogsOk, OffsetsOk;
    var s' := ExecCheck(s, c);
    if s' != s {
      if s'.bus != s.bus {
        AdvanceOk(s.ord.processed, s.bus, c);
        CursorStep(s, Advance(s.bus, c));
      } else {
        LogsOkGrow(s, s');
      }
    }
  }

  /** The tables an applied command leaves. */
  function AppliedDb(db: OrderDb, cmd: StatusCommand, row: Envelope): OrderDb
    requires cmd.orderId in db.orders
  {
    MoveOrder(db, cmd.orderId, cmd.target).(processed := db.processed[cmd.eventId := cmd.eventType],
      outbox := db.outbox + [row])
  }

  lemma {:induction false} AppliedShape(db: OrderDb, cmd: StatusCommand, row: Envelope)
    ensures !ApplyLocked(db, cmd, row).1.Applied? ==> ApplyLocked(db, cmd, row).0 == db
    ensures ApplyLocked(db, cmd, row).1.Applied? ==>
              && cmd.orderId in db.orders && CanTransition(db.orders[cmd.orderId].status, cmd.target)
              && !HasId(db.outbox, row.eventId) && ApplyLocked(db, cmd, row).0 == AppliedDb(db, cmd, row)
  {
  }

  lemma {:induction false} AppliedTables(quotes: map<Id, QS.Quotation>, db: OrderDb, cmd: StatusCommand, row: Envelope)
    requires OrdersOk(quotes, db.orders) && TimelinesOk(db) && OrderRowsOk(db.outbox)
             && row.eventType == OrderStatusChangedV1
    requires !HasId(db.outbox, row.eventId)
    requires cmd.orderId in db.orders && CanTransition(db.orders[cmd.orderId].status, cmd.target)
             && cmd.target != Cancelled
    ensures var db' := AppliedDb(db, cmd, row);
            && OrdersOk(quotes, db'.orders) && TimelinesOk(db') && OrdersGrow(db.orders, db'.orders)
            && OrderRowsOk(db'.outbox) && Extends(db.outbox, db'.outbox) && db.processed.Keys <= db'.processed.Keys
  {
    hide OrdersOk, OrdersGrow, TimelinesOk;
    MoveOrderOk(quotes, db, cmd.orderId, cmd.target);
    TimelinesFrame(MoveOrder(db, cmd.orderId, cmd.target), AppliedDb(db, cmd, row));
    UniqueAppend(db.outbox, row);
  }

  lemma {:induction false} TimelinesFrame(a: OrderDb, b: OrderDb)
    requires TimelinesOk(a) && b.orders == a.orders && b.timeline == a.timeline
    ensures TimelinesOk(b)
  {
  }

  lemma {:induction false} EventsFrame(a: OrderDb, b: OrderDb, pay: seq<Envelope>, wh: seq<Envelope>)
    requires EventsOk(a, pay, wh) && b.orders == a.orders && b.processed == a.processed
    ensures EventsOk(b, pay, wh)
  {
  }

  /** The locked transaction, on a command whose row sits in an outbox, keeps the invariant. */
  lemma {:induction false} ApplyLockedOk(s: State, e: Envelope, cmd: StatusCommand, row: Envelope)
    requires Inv(s) && (e in s.pay.outbox || e in s.wh.outbox) && row.eventType == OrderStatusChangedV1
    requires Decode(e.eventType, Message(e)) == Run(cmd)
    ensures Inv(s.(ord := ApplyLocked(s.ord, cmd, row).0))
  {
    hide QuotesOk, OrdersOk, OrderIntentsOk, TimelinesOk, PaymentTablesOk, PaymentIntentsOk, PackageTablesOk, EventsOk,
      OrderRowsOk, LogsOk, OffsetsOk;
    AppliedShape(s.ord, cmd, row);
    if ApplyLocked(s.ord, cmd, row).1.Applied? {
      CommandOfRow(s, e, cmd);
      AppliedTables(s.quotes, s.ord, cmd, row);
      EventsApply(s, e);
      var moved := MoveOrder(s.ord, e.aggregateId, Target(e.eventType));
      var noted := moved.(processed := s.ord.processed[e.eventId := e.eventType]);
      EventsFrame(noted, AppliedDb(s.ord, cmd, row), s.pay.outbox, s.wh.outbox);
      OrderTablesStep(s, AppliedDb(s.ord, cmd, row));
    } else {
      assert s.(ord := ApplyLocked(s.ord, cmd, row).0) == s;
    }
  }

  lemma {:induction false} CommandOfRow(s: State, e: Envelope, cmd: StatusCommand)
    requires Inv(s) && (e in s.pay.outbox || e in s.wh.outbox) && Decode(e.eventType, Message(e)) == Run(cmd)
    ensures cmd.eventId == e.eventId && cmd.eventType == e.eventType && cmd.orderId == e.aggregateId
    ensures cmd.target == Target(e.eventType) && e.aggregateId in s.ord.orders
    ensures e.eventType in {DepositSucceededV1, RemainingBalanceSucceededV1, PackageReceivedV1}
  {
    hide QuotesOk, OrdersOk, OrderIntentsOk, TimelinesOk, PaymentIntentsOk, EventsOk, OrderRowsOk, LogsOk, OffsetsOk;
    if e in s.pay.outbox {
      var k :| 0 <= k < |s.pay.outbox| && s.pay.outbox[k] == e;
      PaymentRowDecodes(s.ord.orders, s.pay, k);
    } else {
      var k :| 0 <= k < |s.wh.outbox| && s.wh.outbox[k] == e;
      PackageRowDecodes(s.ord.orders, s.wh, k);
    }
  }

  lemma {:induction false} EventsApply(s: State, e: Envelope)
    requires Inv(s) && (e in s.pay.outbox || e in s.wh.outbox)
    requires e.aggregateId in s.ord.orders && CanTransition(s.ord.orders[e.aggregateId].status, Target(e.eventType))
    ensures var moved := MoveOrder(s.ord, e.aggregateId, Target(e.eventType));
            EventsOk(moved.(processed := s.ord.processed[e.eventId := e.eventType]), s.pay.outbox, s.wh.outbox)
  {
    hide QuotesOk, OrdersOk, OrderIntentsOk, TimelinesOk, PaymentIntentsOk, EventsOk, OrderRowsOk, LogsOk, OffsetsOk;
    if e in s.pay.outbox {
      var k :| 0 <= k < |s.pay.outbox| && s.pay.outbox[k] == e;
      PaymentRowDecodes(s.ord.orders, s.pay, k);
      EventsApplyPayment(s.ord, s.pay.outbox, s.wh.outbox, k);
    } else {
      var k :| 0 <= k < |s.wh.outbox| && s.wh.outbox[k] == e;
      PackageRowDecodes(s.ord.orders, s.wh, k);
      EventsApplyPackage(s.ord, s.pay.outbox, s.wh.outbox, k);
    }
  }

  lemma {:induction false} ApplyStep(s: State, c: Cursor, row: Id, now: int)
    requires Inv(s)
    ensures Inv(ExecApply(s, c, row, now))
  {
    hide QuotesOk, OrdersOk, OrderIntentsOk, TimelinesOk, PaymentTablesOk, PaymentIntentsOk, PackageTablesOk, EventsOk,
      OrderRowsOk, LogsOk, OffsetsOk;
    var s' := ExecApply(s, c, row, now);
    if s' != s {
      RunComesFromRow(s, c);
      var cmd := Decode(c.partition.topic, Current(s.bus, c).value).cmd;
      var r := StatusRow(cmd, row, now);
      ApplyLockedOk(s, Current(s.bus, c).value.envelope, cmd, r);
      var moved := s.(ord := ApplyLocked(s.ord, cmd, r).0);
      AdvanceOk(moved.ord.processed, s.bus, c);
      CursorStep(moved, Advance(s.bus, c));
    }
  }

  lemma {:induction false} OperatorStep(s: State, o: Id, to: OrderStatus)
    requires Inv(s) && OperatorMay(s.ord, o, to)
    ensures Inv(s.(ord := MoveOrder(s.ord, o, to)))
  {
    MoveOrderOk(s.quotes, s.ord, o, to);
    EventsOperator(s.ord, s.pay.outbox, s.wh.outbox, o, to);
    OrderTablesStep(s, MoveOrder(s.ord, o, to));
  }

  lemma {:induction false} CallbackStep(s: State, settlement: (Id, PS.Payment), callback: string, row: Id, now: int)
    requires Inv(s) && settlement in s.flight.settlements && Fresh(s, row)
    ensures var r := PS.SuccessRow(settlement.0, settlement.1, row, now);
            Inv(s.(pay := PS.SucceedCallback(s.pay, settlement.0, callback, r).0))
  {
    hide QuotesOk, OrdersOk, OrderIntentsOk, TimelinesOk, PaymentTablesOk, PaymentIntentsOk, PackageTablesOk, EventsOk,
      OrderRowsOk, LogsOk, OffsetsOk;
    var r := PS.SuccessRow(settlement.0, settlement.1, row, now);
    assert settlement == (settlement.0, settlement.1);
    CallbackOk(s.ord.orders, s.pay, s.flight.settlements, settlement.0, settlement.1, callback, row, now);
    SettlementStep(s, PS.SucceedCallback(s.pay, settlement.0, callback, r).0, r);
  }

  lemma {:induction false} MarkSucceededStep(s: State, settlement: (Id, PS.Payment), row: Id, now: int)
    requires Inv(s) && settlement in s.flight.settlements && Fresh(s, row)
    ensures var r := PS.SuccessRow(settlement.0, settlement.1, row, now);
            Inv(s.(pay := PS.Succeed(s.pay, settlement.0, r).0))
  {
    hide QuotesOk, OrdersOk, OrderIntentsOk, TimelinesOk, PaymentIntentsOk, PackageTablesOk, EventsOk, OrderRowsOk,
      LogsOk, OffsetsOk;
    var r := PS.SuccessRow(settlement.0, settlement.1, row, now);
    assert settlement == (settlement.0, settlement.1);
    assert settlement.0 in s.pay.payments;
    SettleOk(s.ord.orders, s.pay, s.flight.settlements, settlement.0, settlement.1, row, now);
    SettlementStep(s, PS.Succeed(s.pay, settlement.0, r).0, r);
  }

  /** The three actions that write the order tables, and what they write. */
  lemma {:induction false} OrderWrites(s: State, a: Action)
    ensures match a
            case InsertOrder(pending, row, now) =>
              || Exec(s, a).ord == s.ord
              || (pending in s.flight.orders && Fresh(s, row) && pending.0 !in s.ord.orders
                  && Exec(s, a).ord
                       == CreateOrder(s.ord, pending.0, pending.1, CreatedRow(pending.0, pending.1, row, now)).0)
            case Apply(c, row, now) =>
              || Exec(s, a).ord == s.ord
              || (MayApply(s, c, row)
                  && var cmd := CommandAt(s, c).value;
                     && ApplyLocked(s.ord, cmd, StatusRow(cmd, row, now)).1.Applied?
                     && Exec(s, a).ord == ApplyLocked(s.ord, cmd, StatusRow(cmd, row, now)).0)
            case Operator(o, to) =>
              Exec(s, a).ord == s.ord || (OperatorMay(s.ord, o, to) && Exec(s, a).ord == MoveOrder(s.ord, o, to))
            case _ => Exec(s, a).ord == s.ord
  {
  }

  predicate IsSettlement(a: Action) {
    a.ReadPaymentForCallback? || a.ReadPaymentToMark? || a.Callback? || a.MarkSucceeded?
  }

  predicate IsBusAction(a: Action) {
    a.Publish? || a.MarkPublished? || a.ForeignRecord? || a.Restart? || a.Check? || a.Apply? || a.Commit?
  }

  lemma {:induction false} SettlementKeepsInv(s: State, a: Action)
    requires Inv(s) && IsSettlement(a)
    ensures Inv(Exec(s, a))
  {
    hide Inv;
    match a
    case ReadPaymentForCallback(id, amount) => if id in s.pay.payments { ReadPaymentStep(s, id); }
    case ReadPaymentToMark(id) => if id in s.pay.payments { ReadPaymentStep(s, id); }
    case Callback(settlement, callback, row, now) =>
      if settlement in s.flight.settlements && Fresh(s, row) { CallbackStep(s, settlement, callback, row, now); }
    case MarkSucceeded(settlement, row, now) =>
      if settlement in s.flight.settlements && Fresh(s, row) { MarkSucceededStep(s, settlement, row, now); }
  }

  lemma {:induction false} OffsetStep(s: State, c: Cursor)
    requires Inv(s)
    ensures Inv(Exec(s, Restart(c))) && Inv(Exec(s, Commit(c)))
  {
    hide QuotesOk, OrdersOk, OrderIntentsOk, TimelinesOk, PaymentTablesOk, PaymentIntentsOk, PackageTablesOk, EventsOk,
      OrderRowsOk, LogsOk, OffsetsOk;
    RestartOk(s.ord.processed, s.bus, c);
    CursorStep(s, Exec(s, Restart(c)).bus);
    CursorStep(s, Exec(s, Commit(c)).bus);
  }

  lemma {:induction false} MarkStep(s: State, box: Box, i: nat, number: nat)
    requires Inv(s)
    ensures Inv(Exec(s, MarkPublished(box, i, number)))
  {
    hide QuotesOk, OrdersOk, OrderIntentsOk, TimelinesOk, PaymentTablesOk, PaymentIntentsOk, PackageTablesOk, EventsOk,
      OrderRowsOk, OffsetsOk, RecordsOk;
    var s' := Exec(s, MarkPublished(box, i, number));
    if s' != s {
      RecordsOkGrow(s, s');
      assert OnTopic(s.bus, Rows(s, box)[i]);
      forall m | m in s'.marked
        ensures exists k ::
                  0 <= k < |Rows(s', m.0)| && Rows(s', m.0)[k].eventId == m.1 && OnTopic(s'.bus, Rows(s', m.0)[k])
      {
        assert Rows(s', m.0) == Rows(s, m.0);
        if m in s.marked {
          var k :| 0 <= k < |Rows(s, m.0)| && Rows(s, m.0)[k].eventId == m.1 && OnTopic(s.bus, Rows(s, m.0)[k]);
          assert OnTopic(s'.bus, Rows(s', m.0)[k]);
        } else {
          assert OnTopic(s'.bus, Rows(s', m.0)[i]);
        }
      }
    }
  }

  lemma {:induction false} BusKeepsInv(s: State, a: Action)
    requires Inv(s) && IsBusAction(a)
    ensures Inv(Exec(s, a))
  {
    hide Inv;
    match a
    case Publish(box, i, number) =>
      if i < |Rows(s, box)| && number < PartitionsOf(Rows(s, box)[i].eventType) { PublishStep(s, box, i, number); }
    case MarkPublished(box, i, number) => MarkStep(s, box, i, number);
    case ForeignRecord(p, r) =>
      if p.number < PartitionsOf(p.topic) && Decode(p.topic, r) == Skip { AppendStep(s, p, r); }
    case Restart(c) => OffsetStep(s, c);
    case Check(c) => CheckStep(s, c);
    case Apply(c, row, now) => ApplyStep(s, c, row, now);
    case Commit(c) => OffsetStep(s, c);
  }

  /** Every action preserves the invariant. */
  lemma {:induction false} ExecKeepsInv(s: State, a: Action)
    requires Inv(s)
    ensures Inv(Exec(s, a))
  {
    hide Inv;
    if IsSettlement(a) {
      SettlementKeepsInv(s, a);
    } else if IsBusAction(a) {
      BusKeepsInv(s, a);
    } else {
      match a
      case CreateQuotation(q, customer, price, quantity, rate, now) =>
        CreateQuotationStep(s, q, customer, price, quantity, rate, now);
      case ConfirmForeign(q, o, now) => ConfirmQuotationStep(s, q, o, now);
      case BeginOrder(q, customer, address, now) => BeginOrderStep(s, q, customer, address, now);
      case InsertOrder(pending, row, now) =>
        if pending in s.flight.orders && Fresh(s, row) { InsertOrderStep(s, pending, row, now); }
      case ReadSummary(o, kind, reference) => ReadSummaryStep(s, o, kind, reference);
      case InsertPayment(pending, id) =>
        if pending in s.flight.payments && id != NIL { InsertPaymentStep(s, pending, id); }
      case ReadWarehouseSummary(p) => ReadWarehouseStep(s, p);
      case InsertPackage(p, id, row, now) =>
        if p in s.flight.packages && id != NIL && now != 0 && Fresh(s, row) { InsertPackageStep(s, p, id, row, now); }
      case Operator(o, to) => if OperatorMay(s.ord, o, to) { OperatorStep(s, o, to); }
      case _ =>
    }
  }

  lemma {:induction false} ReadWarehouseStep(s: State, p: WS.Package)
    requires Inv(s)
    ensures Inv(Exec(s, ReadWarehouseSummary(p)))
  {
    hide QuotesOk, OrdersOk, OrderIntentsOk, TimelinesOk, PaymentTablesOk, PaymentIntentsOk, EventsOk, OrderRowsOk,
      LogsOk, OffsetsOk;
    NonNilOrders(s);
    LogsOkGrow(s, Exec(s, ReadWarehouseSummary(p)));
  }

  lemma {:induction false} NonNilOrders(s: State)
    requires OrdersOk(s.quotes, s.ord.orders)
    ensures NIL !in s.ord.orders
  {
  }

  /** The invariant holds after every run of the system, whatever the interleaving, the crashes
      between two accesses, the republications, the redeliveries and the restarts. */
  lemma {:induction false} EveryRunIsOk(actions: seq<Action>)
    ensures Inv(RunAll(INIT, actions))
  {
    if actions == [] {
      InitOk();
    } else {
      EveryRunIsOk(actions[..|actions| - 1]);
      ExecKeepsInv(RunAll(INIT, actions[..|actions| - 1]), actions[|actions| - 1]);
    }
  }
}
