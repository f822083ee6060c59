/** What the order service makes of events: it accepts exactly the rows the other services can write,
    and a row takes exactly the effect that its type announces. */
module Events {
  import opened Domain
  import opened Text
  import opened OrderStore
  import opened Protocol
  import opened Invariant
  import opened Preservation
  import opened Guarantees
  import Drain
  import PS = PaymentStore
  import WS = WarehouseStore

  // ------------------------------------------------------------------ accepted events

  /** The event is the success row of a payment of this kind in VND. */
  predicate Pays(e: Envelope, kind: PaymentKind, id: Id, p: PS.Payment) {
    && p.kind == kind && p.amount > 0 && p.currency == "VND" && id != NIL && p.orderId != NIL && e.eventId != NIL
    && e == PS.SuccessRow(id, p, e.eventId, e.occurredAt)
  }

  lemma {:induction false} DepositAccepted(e: Envelope)
    ensures HandleDepositSucceeded(e).Some? <==> exists id, p :: Pays(e, Deposit, id, p)
    ensures HandleDepositSucceeded(e).Some? ==>
              HandleDepositSucceeded(e).value
              == StatusCommand(e.eventId, DepositSucceededV1, e.aggregateId, e.data.amount, WaitingDeposit,
                               WaitingPurchase)
  {
    if HandleDepositSucceeded(e).Some? {
      assert Pays(e, Deposit, e.data.paymentId,
                  PS.Payment(e.aggregateId, Deposit, e.data.amount, "VND", Succeeded, ""));
    }
  }

  lemma {:induction false} BalanceAccepted(e: Envelope)
    ensures HandleRemainingBalanceSucceeded(e).Some? <==> exists id, p :: Pays(e, RemainingBalance, id, p)
    ensures HandleRemainingBalanceSucceeded(e).Some? ==>
              HandleRemainingBalanceSucceeded(e).value
              == StatusCommand(e.eventId, RemainingBalanceSucceededV1, e.aggregateId, e.data.amount,
                               WaitingRemainingPayment, ReadyForDomesticDelivery)
  {
    if HandleRemainingBalanceSucceeded(e).Some? {
      assert Pays(e, RemainingBalance, e.data.paymentId,
                  PS.Payment(e.aggregateId, RemainingBalance, e.data.amount, "VND", Succeeded, ""));
    }
  }

  /** The event is the row of a package with positive measurements and names that are not blank. */
  predicate Tells(e: Envelope, id: Id, p: WS.Package) {
    && id != NIL && p.orderId != NIL && e.eventId != NIL && e.occurredAt != 0
    && TrimSpace(p.tracking) != "" && TrimSpace(p.warehouse) != ""
    && p.weight > 0.0 && p.length > 0.0 && p.width > 0.0 && p.height > 0.0
    && e == WS.ReceivedRow(id, p, e.eventId, e.occurredAt)
  }

  lemma {:induction false} PackageAccepted(e: Envelope)
    ensures HandlePackageReceived(e).Some? <==> exists id, p :: Tells(e, id, p)
    ensures HandlePackageReceived(e).Some? ==>
              HandlePackageReceived(e).value
              == StatusCommand(e.eventId, PackageReceivedV1, e.aggregateId, 0, WaitingPurchase, ArrivedForeignWarehouse)
  {
    if HandlePackageReceived(e).Some? {
      var d := e.data;
      assert Tells(e, d.packageId, WS.Package(e.aggregateId, d.tracking, d.warehouse, d.weight, d.length, d.width,
                                              d.height));
    }
  }

  /** A payment event over another amount than the order has stored leaves every table alone. */
  lemma {:induction false} WrongAmountRefused(db: OrderDb, e: Envelope, cmd: StatusCommand, row: Envelope)
    requires cmd.eventId !in db.processed && cmd.orderId in db.orders
    requires (HandleDepositSucceeded(e) == Some(cmd) && e.data.amount != db.orders[cmd.orderId].deposit)
             || (HandleRemainingBalanceSucceeded(e) == Some(cmd) && e.data.amount != db.orders[cmd.orderId].remaining)
    ensures ProcessEvent(db, cmd, row) == (db, Failed(InvalidInput))
  {
  }

  // ------------------------------------------------------------------ effects

  /** The status an event type leaves, as its handler tells it, and the one it enters. */
  function Told(t: EventType): (OrderStatus, OrderStatus) {
    match t
    case DepositSucceededV1 => (WaitingDeposit, WaitingPurchase)
    case RemainingBalanceSucceededV1 => (WaitingRemainingPayment, ReadyForDomesticDelivery)
    case _ => (WaitingPurchase, ArrivedForeignWarehouse)
  }

  /** The order tables after an event took effect. */
  function Effected(db: OrderDb, e: Envelope, row: Id, now: int): OrderDb
    requires e.aggregateId in db.orders && e.aggregateId in db.timeline
  {
    var o, to := e.aggregateId, Told(e.eventType).1;
    OrderDb(db.orders[o := db.orders[o].(status := to)], db.timeline[o := db.timeline[o] + [to]],
            db.processed[e.eventId := e.eventType],
            db.outbox + [Envelope(row, OrderStatusChangedV1, o, OrderService, now,
                           StatusData(o, Told(e.eventType).0, to))])
  }

  lemma {:induction false} CommandOfEvent(s: State, e: Envelope)
    requires Inv(s) && (e in s.pay.outbox || e in s.wh.outbox)
    ensures Consumed(e.eventType) && e.aggregateId in s.ord.orders && e.aggregateId in s.ord.timeline
    ensures Decode(e.eventType, Message(e)).Run?
    ensures var cmd := Decode(e.eventType, Message(e)).cmd;
            cmd == StatusCommand(e.eventId, e.eventType, e.aggregateId,
                     if e.eventType == PackageReceivedV1 then 0 else e.data.amount, Told(e.eventType).0,
                     Told(e.eventType).1)
  {
    hide Decode, QuotesOk, OrdersOk, OrderIntentsOk, PaymentIntentsOk, EventsOk, OrderRowsOk, LogsOk, OffsetsOk;
    if e in s.pay.outbox {
      var k :| 0 <= k < |s.pay.outbox| && s.pay.outbox[k] == e;
      PaymentRowDecodes(s.ord.orders, s.pay, k);
    } else {
      var k :| 0 <= k < |s.wh.outbox| && s.wh.outbox[k] == e;
      PackageRowDecodes(s.ord.orders, s.wh, k);
    }
    HasTimeline(s, e.aggregateId);
    hide Inv;
    CommandFields(e);
  }

  lemma {:induction false} HasTimeline(s: State, o: Id)
    requires Inv(s) && o in s.ord.orders
    ensures o in s.ord.timeline
  {
    hide QuotesOk, OrdersOk, OrderIntentsOk, PaymentTablesOk, PaymentIntentsOk, PackageTablesOk, EventsOk, OrderRowsOk,
      LogsOk, OffsetsOk;
  }

  lemma {:induction false} CommandFields(e: Envelope)
    requires Consumed(e.eventType) && Decode(e.eventType, Message(e)).Run?
    ensures Decode(e.eventType, Message(e)).cmd
         == StatusCommand(e.eventId, e.eventType, e.aggregateId,
              if e.eventType == PackageReceivedV1 then 0 else e.data.amount, Told(e.eventType).0,
              Told(e.eventType).1)
  {
    hide TrimSpace;
  }

  lemma {:induction false} NotRefused(s: State, e: Envelope)
    requires Inv(s) && (e in s.pay.outbox || e in s.wh.outbox) && e.eventId !in s.ord.processed
    requires e.eventType == PackageReceivedV1 ==>
               e.aggregateId in s.ord.orders
               && s.ord.orders[e.aggregateId].status in {WaitingPurchase, InTransitToForeignWarehouse}
    ensures Decode(e.eventType, Message(e)).Run? && Refusal(s.ord, Decode(e.eventType, Message(e)).cmd).None?
  {
    hide Inv, Decode;
    CommandOfEvent(s, e);
    if e.eventType != PackageReceivedV1 {
      PaymentRowOf(s, e);
      var k :| 0 <= k < |s.pay.outbox| && s.pay.outbox[k] == e;
      PaymentRowReady(s, k);
    }
  }

  lemma {:induction false} PaymentRowOf(s: State, e: Envelope)
    requires Inv(s) && (e in s.pay.outbox || e in s.wh.outbox) && e.eventType != PackageReceivedV1
    ensures e in s.pay.outbox
  {
    hide QuotesOk, OrdersOk, OrderIntentsOk, TimelinesOk, PaymentTablesOk, PaymentIntentsOk, EventsOk, OrderRowsOk,
      LogsOk, OffsetsOk, Decode;
    forall k | 0 <= k < |s.wh.outbox| ensures s.wh.outbox[k].eventType == PackageReceivedV1 {
      PackageRowDecodes(s.ord.orders, s.wh, k);
    }
  }

  /** In every reachable state, a check and a transaction on a stored event that is not processed yet
      move its order into the status announced, add one timeline entry and one status_changed row,
      record the event and take the consumer one record further; nothing else changes. A payment event
      never finds anything in its way, a package event needs its order where packages can arrive. */
  lemma {:induction false} EventTakesEffect(s: State, c: Cursor, e: Envelope, row: Id, now: int)
    requires Inv(s) && (e in s.pay.outbox || e in s.wh.outbox) && e.eventId !in s.ord.processed && Fresh(s, row)
    requires Current(s.bus, c) == Some(Message(e)) && c.partition.topic == e.eventType
    requires e.eventType == PackageReceivedV1 ==>
               e.aggregateId in s.ord.orders
               && s.ord.orders[e.aggregateId].status in {WaitingPurchase, InTransitToForeignWarehouse}
    ensures e.aggregateId in s.ord.orders && e.aggregateId in s.ord.timeline
    ensures var s' := Exec(Exec(s, Check(c)), Apply(c, row, now));
            && s'.ord == Effected(s.ord, e, row, now) && s'.pay == s.pay && s'.wh == s.wh
            && s'.bus == s.bus.(cursors := s.bus.cursors[c := PositionOf(s.bus, c) + 1])
  {
    hide Inv, Decode, Refusal, Fresh;
    CommandOfEvent(s, e);
    NotRefused(s, e);
    var cmd := Decode(e.eventType, Message(e)).cmd;
    var noted := Exec(s, Check(c));
    assert noted == s.(flight := s.flight.(checked := s.flight.checked + {(c.worker, cmd.eventId)}));
    Drain.StillFresh(s, noted, row);
    Drain.ApplyProgress(noted, c, cmd, row, now);
  }
}
