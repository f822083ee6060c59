/** What a caller may rely on after any run of the protocol. */
module Guarantees {
  import opened Domain
  import opened Text
  import opened OrderStore
  import opened Protocol
  import opened Invariant
  import opened Preservation
  import PS = PaymentStore
  import QS = QuotationStore
  import Pricing

  // ------------------------------------------------------------------ no poisoned payment event

  /** The consumer gets past the record: it skips it, finds its event processed, or every guard of
      handler and transaction lets it through. */
  predicate Ready(db: OrderDb, topic: EventType, r: Record) {
    match Decode(topic, r)
    case Skip => true
    case Retry => false
    case Run(cmd) => cmd.eventId in db.processed || Refusal(db, cmd).None?
  }

  /** Two success rows for one order and one type are one row. */
  lemma {:induction false} OneRowPerSlot(s: State, i: nat, j: nat)
    requires Inv(s) && i < |s.pay.outbox| && j < |s.pay.outbox|
    requires s.pay.outbox[i].eventType == s.pay.outbox[j].eventType
             && s.pay.outbox[i].aggregateId == s.pay.outbox[j].aggregateId
    ensures i == j
  {
    assert PaymentRowOk(s.pay.payments, s.pay.outbox[i]);
    assert PaymentRowOk(s.pay.payments, s.pay.outbox[j]);
    assert PaymentOk(s.ord.orders, s.pay.payments[s.pay.outbox[i].data.paymentId]);
    assert PaymentOk(s.ord.orders, s.pay.payments[s.pay.outbox[j].data.paymentId]);
  }

  lemma {:induction false} NotHappenedYet(s: State, k: nat)
    requires Inv(s) && k < |s.pay.outbox| && s.pay.outbox[k].eventId !in s.ord.processed
    ensures !HasHappened(s.pay.outbox, s.ord.processed, s.pay.outbox[k].aggregateId, s.pay.outbox[k].eventType)
  {
    var e := s.pay.outbox[k];
    if HasHappened(s.pay.outbox, s.ord.processed, e.aggregateId, e.eventType) {
      var i :| 0 <= i < |s.pay.outbox| && s.pay.outbox[i].eventType == e.eventType
               && s.pay.outbox[i].aggregateId == e.aggregateId && s.pay.outbox[i].eventId in s.ord.processed;
      OneRowPerSlot(s, i, k);
    }
  }

  /** The order of an unprocessed payment row is in the very status that payment waits for. */
  lemma {:induction false} RowFindsStatus(s: State, k: nat)
    requires Inv(s) && k < |s.pay.outbox| && s.pay.outbox[k].eventId !in s.ord.processed
    ensures var e := s.pay.outbox[k];
            e.aggregateId in s.ord.orders && CanTransition(s.ord.orders[e.aggregateId].status, Target(e.eventType))
  {
    hide QuotesOk, OrdersOk, OrderIntentsOk, TimelinesOk, PaymentIntentsOk, PackageTablesOk, LogsOk, OffsetsOk,
      HasHappened;
    var e := s.pay.outbox[k];
    PaymentRowDecodes(s.ord.orders, s.pay, k);
    assert PaymentRowOk(s.pay.payments, e);
    assert PaymentOk(s.ord.orders, s.pay.payments[e.data.paymentId]);
    NotHappenedYet(s, k);
  }

  lemma {:induction false} RowFindsAmount(s: State, k: nat)
    requires Inv(s) && k < |s.pay.outbox|
    ensures var e := s.pay.outbox[k];
            e.aggregateId in s.ord.orders && e.data.PaymentData?
            && e.data.amount == ExpectedAmount(s.ord.orders[e.aggregateId], Target(e.eventType))
  {
    hide QuotesOk, OrdersOk, OrderIntentsOk, TimelinesOk, PaymentIntentsOk, PackageTablesOk, LogsOk, OffsetsOk,
      EventsOk;
    var e := s.pay.outbox[k];
    assert PaymentRowOk(s.pay.payments, e);
    assert PaymentOk(s.ord.orders, s.pay.payments[e.data.paymentId]);
  }

  /** An unprocessed payment row finds its order waiting for exactly that amount. */
  lemma {:induction false} PaymentRowReady(s: State, k: nat)
    requires Inv(s) && k < |s.pay.outbox|
    ensures Ready(s.ord, s.pay.outbox[k].eventType, Message(s.pay.outbox[k]))
  {
    PaymentRowDecodes(s.ord.orders, s.pay, k);
    RowFindsAmount(s, k);
    if s.pay.outbox[k].eventId !in s.ord.processed { RowFindsStatus(s, k); }
  }

  /** In every reachable state every record of a payment topic is ready, so the consumer's retry
      loop never spins on it. */
  lemma {:induction false} NoPoisonedPayment(actions: seq<Action>, p: Partition, i: nat)
    requires p.topic == DepositSucceededV1 || p.topic == RemainingBalanceSucceededV1
    requires i < |Log(RunAll(INIT, actions).bus, p)|
    ensures var s := RunAll(INIT, actions); Ready(s.ord, p.topic, Log(s.bus, p)[i])
  {
    EveryRunIsOk(actions);
    RecordReady(RunAll(INIT, actions), p, i);
  }

  lemma {:induction false} RecordReady(s: State, p: Partition, i: nat)
    requires Inv(s) && i < |Log(s.bus, p)|
    requires p.topic == DepositSucceededV1 || p.topic == RemainingBalanceSucceededV1
    ensures Ready(s.ord, p.topic, Log(s.bus, p)[i])
  {
    var r := Log(s.bus, p)[i];
    RecordSource(s, p, i);
    hide Inv, Decode, Refusal;
    if Decode(p.topic, r) != Skip {
      var k :| 0 <= k < |s.pay.outbox| && s.pay.outbox[k] == r.envelope;
      PaymentRowReady(s, k);
    }
  }

  /** What is not skipped on a payment topic is a row of the payment outbox. */
  lemma {:induction false} RecordSource(s: State, p: Partition, i: nat)
    requires Inv(s) && i < |Log(s.bus, p)|
    requires p.topic == DepositSucceededV1 || p.topic == RemainingBalanceSucceededV1
    ensures var r := Log(s.bus, p)[i];
            Decode(p.topic, r) == Skip || (r.Message? && r.envelope in s.pay.outbox && r.envelope.eventType == p.topic)
  {
    hide Decode, QuotesOk, OrdersOk, OrderIntentsOk, TimelinesOk, PaymentTablesOk, PaymentIntentsOk, EventsOk,
      OffsetsOk, MarkedOk;
    assert RecordOk(s, p.topic, Log(s.bus, p)[i]);
    forall k | 0 <= k < |s.wh.outbox| ensures s.wh.outbox[k].eventType == PackageReceivedV1 {
      PackageRowDecodes(s.ord.orders, s.wh, k);
    }
  }

  // ------------------------------------------------------------------ paid in full

  predicate Paid(payments: map<Id, PS.Payment>, id: Id, o: Id, kind: PaymentKind) {
    id in payments && payments[id].orderId == o && payments[id].kind == kind && payments[id].status == Succeeded
  }

  /** Exactly one succeeded payment of this kind, over this amount. */
  ghost predicate PaidOnce(payments: map<Id, PS.Payment>, o: Id, kind: PaymentKind, amount: int) {
    exists id :: Paid(payments, id, o, kind) && payments[id].amount == amount
                 && forall x :: Paid(payments, x, o, kind) ==> x == id
  }

  lemma {:induction false} HappenedIsPaid(s: State, o: Id, kind: PaymentKind)
    requires Inv(s) && o in s.ord.orders && kind != Refund
    requires HasHappened(s.pay.outbox, s.ord.processed, o, PS.SuccessType(kind))
    ensures PaidOnce(s.pay.payments, o, kind, AmountDue(s.ord.orders[o], kind))
  {
    hide QuotesOk, OrdersOk, OrderIntentsOk, TimelinesOk, PaymentIntentsOk, PackageTablesOk, LogsOk, OffsetsOk,
      EventsOk;
    var i :| 0 <= i < |s.pay.outbox| && s.pay.outbox[i].eventType == PS.SuccessType(kind)
             && s.pay.outbox[i].aggregateId == o && s.pay.outbox[i].eventId in s.ord.processed;
    var e := s.pay.outbox[i];
    assert PaymentRowOk(s.pay.payments, e);
    assert PaymentOk(s.ord.orders, s.pay.payments[e.data.paymentId]);
    assert Paid(s.pay.payments, e.data.paymentId, o, kind);
  }

  /** An order beyond the deposit has exactly one succeeded deposit, of its deposit amount; an
      order ready for domestic delivery or further also has exactly one succeeded balance, and the
      two amounts make up its total. */
  lemma {:induction false} PaidInFull(actions: seq<Action>, o: Id)
    requires o in RunAll(INIT, actions).ord.orders
    ensures var s := RunAll(INIT, actions); var order := s.ord.orders[o];
            && (order.status != WaitingDeposit ==> PaidOnce(s.pay.payments, o, Deposit, order.deposit))
            && (Rank(order.status) >= Rank(ReadyForDomesticDelivery) ==>
                  PaidOnce(s.pay.payments, o, RemainingBalance, order.remaining)
                    && order.deposit + order.remaining == order.total)
  {
    hide Inv, RunAll, PaidOnce;
    EveryRunIsOk(actions);
    var s := RunAll(INIT, actions);
    if s.ord.orders[o].status != WaitingDeposit { DepositIsPaid(s, o); }
    if Rank(s.ord.orders[o].status) >= Rank(ReadyForDomesticDelivery) { BalanceIsPaid(s, o); }
  }

  lemma {:induction false} DepositIsPaid(s: State, o: Id)
    requires Inv(s) && o in s.ord.orders && s.ord.orders[o].status != WaitingDeposit
    ensures PaidOnce(s.pay.payments, o, Deposit, s.ord.orders[o].deposit)
  {
    hide Inv, PaidOnce, HasHappened;
    HappenedOf(s, o, Deposit);
    HappenedIsPaid(s, o, Deposit);
  }

  lemma {:induction false} BalanceIsPaid(s: State, o: Id)
    requires Inv(s) && o in s.ord.orders && Rank(s.ord.orders[o].status) >= Rank(ReadyForDomesticDelivery)
    ensures PaidOnce(s.pay.payments, o, RemainingBalance, s.ord.orders[o].remaining)
    ensures s.ord.orders[o].deposit + s.ord.orders[o].remaining == s.ord.orders[o].total
  {
    hide Inv, PaidOnce, HasHappened;
    HappenedOf(s, o, RemainingBalance);
    PartsOfTotal(s, o);
    HappenedIsPaid(s, o, RemainingBalance);
  }

  lemma {:induction false} PartsOfTotal(s: State, o: Id)
    requires Inv(s) && o in s.ord.orders
    ensures s.ord.orders[o].deposit + s.ord.orders[o].remaining == s.ord.orders[o].total
  {
    hide QuotesOk, OrderIntentsOk, TimelinesOk, PaymentTablesOk, PaymentIntentsOk, PackageTablesOk, EventsOk,
      OrderRowsOk, LogsOk, OffsetsOk;
    assert OrderOk(s.quotes, o, s.ord.orders[o]);
  }

  /** An order at or beyond a payment's target has had that payment's event. */
  lemma {:induction false} HappenedOf(s: State, o: Id, kind: PaymentKind)
    requires Inv(s) && o in s.ord.orders && kind != Refund
    requires Rank(s.ord.orders[o].status) >= Rank(Target(PS.SuccessType(kind)))
    ensures HasHappened(s.pay.outbox, s.ord.processed, o, PS.SuccessType(kind))
  {
    hide QuotesOk, OrdersOk, OrderIntentsOk, TimelinesOk, PaymentTablesOk, PaymentIntentsOk, PackageTablesOk,
      OrderRowsOk, LogsOk, OffsetsOk, UniqueIds, DisjointIds, ProcessedOk, HasHappened;
  }

  lemma {:induction false} ArrivedHasRow(s: State, o: Id)
    requires Inv(s) && o in s.ord.orders && Rank(s.ord.orders[o].status) >= Rank(ArrivedForeignWarehouse)
    ensures exists id :: id in s.wh.packages && s.wh.packages[id].orderId == o
  {
    hide QuotesOk, OrdersOk, OrderIntentsOk, TimelinesOk, PaymentTablesOk, PaymentIntentsOk, LogsOk, OffsetsOk,
      OrderRowsOk, PackagesOk, PackageIntentsOk;
    var i :| 0 <= i < |s.wh.outbox| && s.wh.outbox[i].eventType == PackageReceivedV1
             && s.wh.outbox[i].aggregateId == o && s.wh.outbox[i].eventId in s.ord.processed;
    assert PackageRowOk(s.wh.packages, s.wh.outbox[i]);
  }

  /** An order that reached the foreign warehouse has a stored package. */
  lemma {:induction false} ArrivedHasPackage(actions: seq<Action>, o: Id)
    requires o in RunAll(INIT, actions).ord.orders
    requires Rank(RunAll(INIT, actions).ord.orders[o].status) >= Rank(ArrivedForeignWarehouse)
    ensures exists id :: id in RunAll(INIT, actions).wh.packages && RunAll(INIT, actions).wh.packages[id].orderId == o
  {
    EveryRunIsOk(actions);
    ArrivedHasRow(RunAll(INIT, actions), o);
  }

  /** createPayment's amount guard never refuses a stored order. */
  lemma {:induction false} AmountGuardPasses(actions: seq<Action>, o: Id, kind: PaymentKind)
    requires o in RunAll(INIT, actions).ord.orders
    ensures AmountDue(RunAll(INIT, actions).ord.orders[o], kind) > 0
  {
    EveryRunIsOk(actions);
    var s := RunAll(INIT, actions);
    assert OrderOk(s.quotes, o, s.ord.orders[o]);
  }

  // ------------------------------------------------------------------ no loss below the commit point

  /** Below a committed offset every record was skipped by design or has its event processed,
      whatever restarts, rewinds and failed commits went before. */
  lemma {:induction false} NothingLostBelowCommit(actions: seq<Action>, p: Partition, i: nat)
    requires p.topic in {DepositSucceededV1, RemainingBalanceSucceededV1, PackageReceivedV1}
    requires p in RunAll(INIT, actions).bus.committed && i < RunAll(INIT, actions).bus.committed[p]
    ensures var s := RunAll(INIT, actions);
            i < |Log(s.bus, p)| && Done(s.ord.processed, p.topic, Log(s.bus, p)[i])
  {
    EveryRunIsOk(actions);
  }

  /** A consumer that starts again, the same one or another, goes on where the last commit of its
      partition left off, and at the beginning if there was none. */
  lemma {:induction false} RestartResumes(s: State, c: Cursor, d: Cursor)
    requires c.partition == d.partition
    ensures PositionOf(Exec(Exec(s, Commit(c)), Restart(d)).bus, d) == PositionOf(s.bus, c)
    ensures d.partition !in s.bus.committed ==> PositionOf(Exec(s, Restart(d)).bus, d) == 0
    ensures var s' := Exec(Exec(s, Commit(c)), Restart(d));
            s'.ord == s.ord && s'.pay == s.pay && s'.wh == s.wh && s'.bus.logs == s.bus.logs && s'.flight == s.flight
  {
  }

  /** The order service's consumers read three topics and no others. */
  lemma {:induction false} OtherTopicsLeftAlone(s: State, c: Cursor, row: Id, now: int)
    requires c.partition.topic !in {DepositSucceededV1, RemainingBalanceSucceededV1, PackageReceivedV1}
    ensures Exec(s, Check(c)) == s && Exec(s, Apply(c, row, now)) == s
  {
  }

  /** A row marked published has its payload in the log of its topic. */
  lemma {:induction false} MarkedIsPublished(actions: seq<Action>, box: Box, i: nat)
    requires i < |Rows(RunAll(INIT, actions), box)|
             && (box, Rows(RunAll(INIT, actions), box)[i].eventId) in RunAll(INIT, actions).marked
    ensures OnTopic(RunAll(INIT, actions).bus, Rows(RunAll(INIT, actions), box)[i])
  {
    EveryRunIsOk(actions);
    MarkedOnTopic(RunAll(INIT, actions), box, i);
  }

  lemma {:induction false} MarkedOnTopic(s: State, box: Box, i: nat)
    requires Inv(s) && i < |Rows(s, box)| && (box, Rows(s, box)[i].eventId) in s.marked
    ensures OnTopic(s.bus, Rows(s, box)[i])
  {
    hide QuotesOk, OrdersOk, OrderIntentsOk, TimelinesOk, PaymentTablesOk, PaymentIntentsOk, PackageTablesOk, RecordsOk,
      OffsetsOk, MilestoneOk, ProcessedOk, DisjointIds, OnTopic;
    var m := (box, Rows(s, box)[i].eventId);
    var k :| 0 <= k < |Rows(s, m.0)| && Rows(s, m.0)[k].eventId == m.1 && OnTopic(s.bus, Rows(s, m.0)[k]);
    assert UniqueIds(Rows(s, box));
  }

  // ------------------------------------------------------------------ conservation of payment events

  /** The success rows of one payment. */
  function RowsFor(rows: seq<Envelope>, id: Id): seq<Envelope> {
    if rows == [] then []
    else
      var e := rows[|rows| - 1];
      RowsFor(rows[..|rows| - 1], id) + if e.data.PaymentData? && e.data.paymentId == id then [e] else []
  }

  lemma {:induction false} NoRowsFor(rows: seq<Envelope>, id: Id)
    requires forall i :: 0 <= i < |rows| ==> !(rows[i].data.PaymentData? && rows[i].data.paymentId == id)
    ensures RowsFor(rows, id) == []
  {
    if rows == [] {
    } else {
      NoRowsFor(rows[..|rows| - 1], id);
    }
  }

  lemma {:induction false} OneRowFor(rows: seq<Envelope>, id: Id, k: nat)
    requires k < |rows| && rows[k].data.PaymentData? && rows[k].data.paymentId == id
    requires forall i :: 0 <= i < |rows| && i != k ==> !(rows[i].data.PaymentData? && rows[i].data.paymentId == id)
    ensures RowsFor(rows, id) == [rows[k]]
  {
    if k == |rows| - 1 { NoRowsFor(rows[..k], id); } else { OneRowFor(rows[..|rows| - 1], id, k); }
  }

  /** Whatever callbacks arrive, replayed, renumbered or aimed elsewhere, a succeeded payment has
      exactly one success row, carrying its own order, amount and type, and a pending one none. */
  lemma {:induction false} OneSuccessRow(actions: seq<Action>, id: Id)
    requires id in RunAll(INIT, actions).pay.payments
    ensures var pay := RunAll(INIT, actions).pay; var p := pay.payments[id]; var rows := RowsFor(pay.outbox, id);
            if p.status == Succeeded
            then |rows| == 1
                 && rows[0].eventType == (if p.kind == Deposit then DepositSucceededV1 else RemainingBalanceSucceededV1)
                 && rows[0].aggregateId == p.orderId && rows[0].producer == PaymentService
                 && rows[0].data == PaymentData(id, p.orderId, p.amount, p.currency)
            else p.status == Pending && rows == []
  {
    EveryRunIsOk(actions);
    var s := RunAll(INIT, actions);
    if s.pay.payments[id].status == Succeeded {
      assert HasRowFor(s.pay.outbox, id);
      var k :| 0 <= k < |s.pay.outbox| && s.pay.outbox[k].data.PaymentData? && s.pay.outbox[k].data.paymentId == id;
      OneRowFor(s.pay.outbox, id, k);
      assert PaymentRowOk(s.pay.payments, s.pay.outbox[k]);
    } else {
      NoRowYet(s.pay, id);
      NoRowsFor(s.pay.outbox, id);
    }
  }

  /** A recorded callback stays bound to its payment, and a payment only ever changes by settling. */
  lemma {:induction false} PaymentsOnlySettle(s: State, actions: seq<Action>, callback: string, id: Id)
    ensures callback in s.pay.callbacks ==>
              callback in RunAll(s, actions).pay.callbacks
              && RunAll(s, actions).pay.callbacks[callback] == s.pay.callbacks[callback]
    ensures id in s.pay.payments ==>
              var p, p' := s.pay.payments[id], RunAll(s, actions).pay.payments;
              id in p' && p'[id] == p.(status := p'[id].status)
              && (p'[id].status == p.status || (p.status == Pending && p'[id].status == Succeeded))
  {
    if actions == [] {
    } else {
      PaymentsOnlySettle(s, actions[..|actions| - 1], callback, id);
      SettleOrKeep(RunAll(s, actions[..|actions| - 1]), actions[|actions| - 1], callback, id);
    }
  }

  lemma {:induction false} SettleOrKeep(s: State, a: Action, callback: string, id: Id)
    ensures callback in s.pay.callbacks ==>
              callback in Exec(s, a).pay.callbacks && Exec(s, a).pay.callbacks[callback] == s.pay.callbacks[callback]
    ensures id in s.pay.payments ==>
              var p, p' := s.pay.payments[id], Exec(s, a).pay.payments;
              id in p' && p'[id] == p.(status := p'[id].status)
              && (p'[id].status == p.status || (p.status == Pending && p'[id].status == Succeeded))
  {
  }

  // ------------------------------------------------------------------ quotations and orders

  /** A stored order's quotation is confirmed for it, over the same total, and no two orders share
      a quotation. */
  lemma {:induction false} QuotationAgreement(actions: seq<Action>, o: Id)
    requires o in RunAll(INIT, actions).ord.orders
    ensures var s := RunAll(INIT, actions); var order := s.ord.orders[o];
            && order.quotationId in s.quotes
            && s.quotes[order.quotationId].status == QS.Confirmed
            && s.quotes[order.quotationId].confirmedOrder == Some(o)
            && s.quotes[order.quotationId].total == order.total
            && forall x :: x in s.ord.orders && s.ord.orders[x].quotationId == order.quotationId ==> x == o
  {
    EveryRunIsOk(actions);
    var s := RunAll(INIT, actions);
    assert OrderOk(s.quotes, o, s.ord.orders[o]);
    forall x | x in s.ord.orders ensures OrderOk(s.quotes, x, s.ord.orders[x]) { }
  }

  /** What order creation stores for a quotation. */
  function OrderFor(quote: QS.Quotation, q: Id, address: string): Order {
    var deposit := 70 * quote.total / 100;
    Order(quote.customer, q, TrimSpace(address), quote.total, deposit, quote.total - deposit, WaitingDeposit)
  }

  /** Order creation, run to the end from any reachable state and in particular from one where an
      earlier attempt died between confirming the quotation and inserting the order. With an address,
      for the quotation's own customer, within thirty minutes of the quotation and while that is
      unconfirmed or confirmed for this very order, the quotation ends up confirmed for it and the order
      stored with its deposit of 70%, one timeline entry and one order.created row, or is untouched if
      it was there. In every other case the attempt changes nothing at all. */
  lemma {:induction false} RetryOrder(s: State, q: Id, customer: string, address: string, row: Id, now: int)
    requires Inv(s) && Fresh(s, row)
    ensures var o := OrderIdOf(q);
            var begun := Exec(s, BeginOrder(q, customer, address, now));
            if q in s.quotes && TrimSpace(address) != "" && (customer == "" || customer == s.quotes[q].customer)
               && now - s.quotes[q].createdAt <= 1_800_000_000_000
               && (s.quotes[q].confirmedOrder == None || s.quotes[q].confirmedOrder == Some(o))
            then
              var quote := s.quotes[q];
              var order := OrderFor(quote, q, address);
              var done := Exec(begun, InsertOrder((o, order), row, now));
              && done.quotes == s.quotes[q := quote.(status := QS.Confirmed, confirmedOrder := Some(o))]
              && (if o in s.ord.orders then done.ord == s.ord
                  else done.ord == OrderDb(s.ord.orders[o := order], s.ord.timeline[o := [WaitingDeposit]],
                                           s.ord.processed, s.ord.outbox
                                           + [Envelope(row, OrderCreatedV1, o, OrderService, now,
                                                CreatedData(o, q, order.total, order.deposit, WaitingDeposit))]))
            else begun == s
  {
    hide Inv, NewOrder, CreateOrder, OrderFor;
    if q in s.quotes && Orderable(s.quotes[q], q, customer, address, now) {
      RetryBegins(s, q, customer, address, now);
      RetryInserts(s, q, address, row, now);
    } else {
      RetryRefused(s, q, customer, address, now);
    }
  }

  predicate Orderable(quote: QS.Quotation, q: Id, customer: string, address: string, now: int) {
    && TrimSpace(address) != "" && (customer == "" || customer == quote.customer)
    && now - quote.createdAt <= 1_800_000_000_000
    && (quote.confirmedOrder == None || quote.confirmedOrder == Some(OrderIdOf(q)))
  }

  lemma {:induction false} RetryRefused(s: State, q: Id, customer: string, address: string, now: int)
    requires Inv(s) && (q in s.quotes ==> !Orderable(s.quotes[q], q, customer, address, now))
    ensures Exec(s, BeginOrder(q, customer, address, now)) == s
  {
    hide OrdersOk, OrderIntentsOk, TimelinesOk, PaymentTablesOk, PaymentIntentsOk, PackageTablesOk, EventsOk,
      OrderRowsOk, LogsOk, OffsetsOk, NewOrder, TrimSpace;
  }

  /** The call gets past the confirmation and carries the order it will insert. */
  lemma {:induction false} RetryBegins(s: State, q: Id, customer: string, address: string, now: int)
    requires Inv(s) && q in s.quotes && Orderable(s.quotes[q], q, customer, address, now)
    ensures var begun := Exec(s, BeginOrder(q, customer, address, now));
            && begun.ord == s.ord && begun.pay == s.pay && begun.wh == s.wh
            && begun.quotes == s.quotes[q := s.quotes[q].(status := QS.Confirmed,
                                                          confirmedOrder := Some(OrderIdOf(q)))]
            && (OrderIdOf(q), OrderFor(s.quotes[q], q, address)) in begun.flight.orders
  {
    hide OrdersOk, OrderIntentsOk, TimelinesOk, PaymentTablesOk, PaymentIntentsOk, PackageTablesOk, EventsOk,
      OrderRowsOk, LogsOk, OffsetsOk, TrimSpace;
    Pricing.DepositSplit(s.quotes[q].total);
    hide Pricing.Deposit;
  }

  /** The insert finds the order there, or finds nothing in its way. */
  lemma {:induction false} RetryInserts(s: State, q: Id, address: string, row: Id, now: int)
    requires Inv(s) && q in s.quotes && Fresh(s, row)
    ensures var o := OrderIdOf(q);
            var order := OrderFor(s.quotes[q], q, address);
            var db := CreateOrder(s.ord, o, order, CreatedRow(o, order, row, now)).0;
            if o in s.ord.orders then db == s.ord
            else db == OrderDb(s.ord.orders[o := order], s.ord.timeline[o := [WaitingDeposit]], s.ord.processed,
                               s.ord.outbox + [Envelope(row, OrderCreatedV1, o, OrderService, now,
                                                 CreatedData(o, q, order.total, order.deposit, WaitingDeposit))])
  {
    hide PaymentTablesOk, PaymentIntentsOk, PackageTablesOk, EventsOk, LogsOk, OffsetsOk, OrderIntentsOk, OrderRowsOk,
      Pricing.Deposit, TrimSpace;
    var o := OrderIdOf(q);
    if o in s.ord.orders {
      assert OrderOk(s.quotes, o, s.ord.orders[o]);
    } else {
      assert o !in s.ord.timeline;
      assert forall x :: x in s.ord.orders ==> OrderOk(s.quotes, x, s.ord.orders[x]);
      assert TimelineOf(s.ord, o) + [WaitingDeposit] == [WaitingDeposit];
    }
  }
}
