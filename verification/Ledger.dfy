/** The atomic ledger the whole protocol refines: what a customer would see if payments, packages
    and orders lived in one place and every event took effect at once and only once. */
module Ledger {
  import opened Domain
  import opened OrderStore
  import opened Protocol
  import opened Invariant
  import opened Preservation
  import PS = PaymentStore
  import WS = WarehouseStore
  import Pricing

  /** The event types that move orders. */
  const EFFECTS: set<EventType> := {DepositSucceededV1, RemainingBalanceSucceededV1, PackageReceivedV1}

  /** settled: the causes that are on record; applied: those the order has taken. */
  datatype Account = Account(total: int, deposit: int, status: OrderStatus, settled: set<EventType>,
    applied: set<EventType>)

  type Accounts = map<Id, Account>

  // ------------------------------------------------------------------ the ledger's own steps

  predicate Open(l: Accounts, l': Accounts, o: Id) {
    && o !in l && o in l' && l'[o].status == WaitingDeposit && l'[o].settled == {} && l'[o].applied == {}
    && 0 < l'[o].deposit < l'[o].total && l'[o].deposit == Pricing.Deposit(l'[o].total)
    && l' == l[o := l'[o]]
  }

  predicate Settle(l: Accounts, l': Accounts, o: Id, t: EventType) {
    && o in l && t in EFFECTS && t !in l[o].settled
    && l' == l[o := l[o].(settled := l[o].settled + {t})]
  }

  /** An effect needs its cause on record, happens to an order that has not had it, follows the
      status graph, and changes nothing else. */
  predicate Effect(l: Accounts, l': Accounts, o: Id, t: EventType) {
    && o in l && t in EFFECTS && t in l[o].settled && t !in l[o].applied && CanTransition(l[o].status, Target(t))
    && l' == l[o := l[o].(status := Target(t), applied := l[o].applied + {t})]
  }

  /** What happens between the effects: along the graph, but never into a status an effect announces
      and never a cancellation. */
  predicate Move(l: Accounts, l': Accounts, o: Id) {
    && o in l && o in l' && CanTransition(l[o].status, l'[o].status)
    && l'[o].status != Cancelled && (forall t :: t in EFFECTS ==> l'[o].status != Target(t))
    && l' == l[o := l[o].(status := l'[o].status)]
  }

  ghost predicate Next(l: Accounts, l': Accounts) {
    || l' == l
    || (exists o :: Open(l, l', o))
    || (exists o, t :: Settle(l, l', o, t))
    || (exists o, t :: Effect(l, l', o, t))
    || (exists o :: Move(l, l', o))
  }

  // ------------------------------------------------------------------ abstraction

  ghost predicate IsSettled(pay: PS.PaymentDb, wh: WS.WarehouseDb, o: Id, t: EventType) {
    if t == PackageReceivedV1 then exists id :: id in wh.packages && wh.packages[id].orderId == o
    else exists id :: id in pay.payments && pay.payments[id].orderId == o && PS.SuccessType(pay.payments[id].kind) == t
                      && pay.payments[id].status == Succeeded
  }

  ghost predicate IsApplied(ord: OrderDb, pay: PS.PaymentDb, wh: WS.WarehouseDb, o: Id, t: EventType) {
    HasHappened(if t == PackageReceivedV1 then wh.outbox else pay.outbox, ord.processed, o, t)
  }

  ghost function SettledSet(pay: PS.PaymentDb, wh: WS.WarehouseDb, o: Id): set<EventType> {
    set t | t in EFFECTS && IsSettled(pay, wh, o, t)
  }

  ghost function AppliedSet(ord: OrderDb, pay: PS.PaymentDb, wh: WS.WarehouseDb, o: Id): set<EventType> {
    set t | t in EFFECTS && IsApplied(ord, pay, wh, o, t)
  }

  ghost function Abs(ord: OrderDb, pay: PS.PaymentDb, wh: WS.WarehouseDb): Accounts {
    map o | o in ord.orders :: Account(ord.orders[o].total, ord.orders[o].deposit, ord.orders[o].status,
                                       SettledSet(pay, wh, o), AppliedSet(ord, pay, wh, o))
  }

  ghost function LedgerOf(s: State): Accounts { Abs(s.ord, s.pay, s.wh) }

  // ------------------------------------------------------------------ the invariant read as a ledger

  /** The effects an order of this status has taken. */
  ghost function Reached(status: OrderStatus): set<EventType> {
    set t | t in EFFECTS && Rank(status) >= Rank(Target(t))
  }

  function AccountOf(order: Order, settled: set<EventType>, applied: set<EventType>): Account {
    Account(order.total, order.deposit, order.status, settled, applied)
  }

  /** The ledger with applied effects read off the statuses. */
  ghost function View(orders: map<Id, Order>, pay: PS.PaymentDb, wh: WS.WarehouseDb): Accounts {
    map o | o in orders :: AccountOf(orders[o], SettledSet(pay, wh, o), Reached(orders[o].status))
  }

  lemma {:induction false} AppliedIsReached(s: State, o: Id)
    requires Inv(s) && o in s.ord.orders
    ensures AppliedSet(s.ord, s.pay, s.wh, o) == Reached(s.ord.orders[o].status)
  {
    hide QuotesOk, OrdersOk, OrderIntentsOk, TimelinesOk, PaymentTablesOk, PaymentIntentsOk, PackageTablesOk, LogsOk,
      OffsetsOk, HasHappened;
    forall t | t in EFFECTS ensures t in AppliedSet(s.ord, s.pay, s.wh, o) <==> t in Reached(s.ord.orders[o].status) {
    }
  }

  lemma {:induction false} LedgerIsView(s: State)
    requires Inv(s)
    ensures LedgerOf(s) == View(s.ord.orders, s.pay, s.wh)
  {
    hide Inv, SettledSet, AppliedSet, Reached;
    forall o | o in s.ord.orders ensures AppliedSet(s.ord, s.pay, s.wh, o) == Reached(s.ord.orders[o].status) {
      AppliedIsReached(s, o);
    }
  }

  /** Entering an effect's target takes that effect and no other; an operator's move takes none. */
  lemma {:induction false} ReachedStep(from: OrderStatus, t: EventType)
    requires t in EFFECTS && CanTransition(from, Target(t))
    ensures t !in Reached(from) && Reached(Target(t)) == Reached(from) + {t}
  {
  }

  lemma {:induction false} ReachedMove(db: OrderDb, o: Id, to: OrderStatus)
    requires OperatorMay(db, o, to)
    ensures Reached(to) == Reached(db.orders[o].status)
  {
  }

  /** An event a consumer applies has its cause on record. */
  lemma {:induction false} RowIsSettled(s: State, e: Envelope)
    requires Inv(s) && (e in s.pay.outbox || e in s.wh.outbox)
    ensures e.eventType in EFFECTS && IsSettled(s.pay, s.wh, e.aggregateId, e.eventType)
  {
    hide QuotesOk, OrdersOk, OrderIntentsOk, TimelinesOk, PaymentIntentsOk, EventsOk, LogsOk, OffsetsOk,
      PaymentTablesOk, PackageTablesOk, OrderRowsOk, IsSettled;
    if e in s.pay.outbox {
      PaymentRowIsSettled(s.ord.orders, s.pay, s.wh, s.flight.settlements, e);
    } else {
      PackageRowIsSettled(s.ord.orders, s.pay, s.wh, s.flight.packages, e);
    }
  }

  lemma {:induction false} PaymentRowIsSettled(orders: map<Id, Order>, pay: PS.PaymentDb, wh: WS.WarehouseDb,
                                               readings: set<(Id, PS.Payment)>, e: Envelope)
    requires PaymentTablesOk(orders, pay, readings) && e in pay.outbox
    ensures e.eventType in EFFECTS && IsSettled(pay, wh, e.aggregateId, e.eventType)
  {
    hide SlotsUnique, SettlementsOk, CallbacksOk;
    assert PaymentRowOk(pay.payments, e);
    assert e.data.paymentId in pay.payments && PaymentOk(orders, pay.payments[e.data.paymentId]);
  }

  lemma {:induction false} PackageRowIsSettled(orders: map<Id, Order>, pay: PS.PaymentDb, wh: WS.WarehouseDb,
                                               pending: set<WS.Package>, e: Envelope)
    requires PackageTablesOk(orders, wh, pending) && e in wh.outbox
    ensures e.eventType in EFFECTS && IsSettled(pay, wh, e.aggregateId, e.eventType)
  {
    hide WS.ValidPackage;
    assert PackageRowOk(wh.packages, e);
    assert e.data.packageId in wh.packages;
  }

  // ------------------------------------------------------------------ refinement, step by step

  lemma {:induction false} NextSame(l: Accounts)
    ensures Next(l, l)
  {
  }

  lemma {:induction false} ViewUpdate(orders: map<Id, Order>, pay: PS.PaymentDb, wh: WS.WarehouseDb, o: Id,
                                      order: Order)
    ensures View(orders[o := order], pay, wh)
         == View(orders, pay, wh)[o := AccountOf(order, SettledSet(pay, wh, o), Reached(order.status))]
  {
  }

  lemma {:induction false} ViewEffect(orders: map<Id, Order>, pay: PS.PaymentDb, wh: WS.WarehouseDb, o: Id,
                                      t: EventType)
    requires o in orders && t in EFFECTS && IsSettled(pay, wh, o, t) && CanTransition(orders[o].status, Target(t))
    ensures Next(View(orders, pay, wh), View(orders[o := orders[o].(status := Target(t))], pay, wh))
  {
    hide IsSettled, Reached, CanTransition;
    ViewUpdate(orders, pay, wh, o, orders[o].(status := Target(t)));
    ReachedStep(orders[o].status, t);
    assert Effect(View(orders, pay, wh), View(orders[o := orders[o].(status := Target(t))], pay, wh), o, t);
  }

  lemma {:induction false} ViewMove(db: OrderDb, pay: PS.PaymentDb, wh: WS.WarehouseDb, o: Id, to: OrderStatus)
    requires OperatorMay(db, o, to)
    ensures Next(View(db.orders, pay, wh), View(db.orders[o := db.orders[o].(status := to)], pay, wh))
  {
    hide Reached, SettledSet;
    ViewUpdate(db.orders, pay, wh, o, db.orders[o].(status := to));
    ReachedMove(db, o, to);
    assert Move(View(db.orders, pay, wh), View(db.orders[o := db.orders[o].(status := to)], pay, wh), o);
  }

  lemma {:induction false} ViewOpen(orders: map<Id, Order>, pay: PS.PaymentDb, wh: WS.WarehouseDb, o: Id, order: Order)
    requires o !in orders && order.status == WaitingDeposit && SettledSet(pay, wh, o) == {}
    requires 0 < order.deposit < order.total && order.deposit == Pricing.Deposit(order.total)
    ensures Next(View(orders, pay, wh), View(orders[o := order], pay, wh))
  {
    assert Reached(WaitingDeposit) == {};
    hide SettledSet, Reached, Pricing.Deposit;
    ViewUpdate(orders, pay, wh, o, order);
    assert Open(View(orders, pay, wh), View(orders[o := order], pay, wh), o);
  }

  /** Recording one cause changes the settled set of one order. */
  lemma {:induction false} ViewSettle(orders: map<Id, Order>, pay: PS.PaymentDb, pay': PS.PaymentDb,
                                      wh: WS.WarehouseDb, wh': WS.WarehouseDb, o: Id, t: EventType)
    requires o in orders && t in EFFECTS
    requires forall x :: SettledSet(pay', wh', x) == if x == o then SettledSet(pay, wh, x) + {t}
             else SettledSet(pay, wh, x)
    ensures Next(View(orders, pay, wh), View(orders, pay', wh'))
  {
    hide SettledSet, Reached;
    var l, l' := View(orders, pay, wh), View(orders, pay', wh');
    if t in SettledSet(pay, wh, o) {
      assert SettledSet(pay, wh, o) + {t} == SettledSet(pay, wh, o);
      assert l' == l;
    } else {
      assert l' == l[o := l[o].(settled := l[o].settled + {t})];
      assert Settle(l, l', o, t);
    }
  }

  lemma {:induction false} NothingSettled(s: State, o: Id)
    requires Inv(s) && o !in s.ord.orders
    ensures SettledSet(s.pay, s.wh, o) == {}
  {
  }

  /** The payment with this ID settles. */
  lemma {:induction false} SettledByPayment(pay: PS.PaymentDb, pay': PS.PaymentDb, wh: WS.WarehouseDb, id: Id, o: Id)
    requires id in pay.payments && pay'.payments == pay.payments[id := pay.payments[id].(status := Succeeded)]
    requires pay.payments[id].kind != Refund
    ensures SettledSet(pay', wh, o) ==
            SettledSet(pay, wh, o) + if pay.payments[id].orderId == o then {PS.SuccessType(pay.payments[id].kind)}
              else {}
  {
    forall t | t in EFFECTS && t != PackageReceivedV1
      ensures IsSettled(pay', wh, o, t) <==>
              (IsSettled(pay, wh, o, t)
                || (pay.payments[id].orderId == o && PS.SuccessType(pay.payments[id].kind) == t))
    {
      assert id in pay'.payments;
      if IsSettled(pay, wh, o, t) {
        var x :| x in pay.payments && pay.payments[x].orderId == o && PS.SuccessType(pay.payments[x].kind) == t
          && pay.payments[x].status == Succeeded;
        assert x in pay'.payments;
      }
    }
  }

  /** No payment changes its status. */
  lemma {:induction false} SettledByNobody(pay: PS.PaymentDb, pay': PS.PaymentDb, wh: WS.WarehouseDb, o: Id)
    requires forall x :: x in pay.payments ==> x in pay'.payments && pay'.payments[x] == pay.payments[x]
    requires forall x :: x in pay'.payments && x !in pay.payments ==> pay'.payments[x].status == Pending
    ensures SettledSet(pay', wh, o) == SettledSet(pay, wh, o)
  {
  }

  lemma {:induction false} ViewSame(orders: map<Id, Order>, pay: PS.PaymentDb, pay': PS.PaymentDb, wh: WS.WarehouseDb)
    requires forall x :: x in pay.payments ==> x in pay'.payments && pay'.payments[x] == pay.payments[x]
    requires forall x :: x in pay'.payments && x !in pay.payments ==> pay'.payments[x].status == Pending
    ensures Next(View(orders, pay, wh), View(orders, pay', wh))
  {
    hide SettledSet, Reached, Next;
    forall x ensures SettledSet(pay', wh, x) == SettledSet(pay, wh, x) { SettledByNobody(pay, pay', wh, x); }
    NextSame(View(orders, pay, wh));
    assert View(orders, pay', wh) == View(orders, pay, wh);
  }

  lemma {:induction false} SettledByPackage(pay: PS.PaymentDb, wh: WS.WarehouseDb, wh': WS.WarehouseDb, id: Id,
                                            p: WS.Package, o: Id)
    requires id !in wh.packages && wh'.packages == wh.packages[id := p]
    ensures SettledSet(pay, wh', o) == if o == p.orderId then SettledSet(pay, wh, o) + {PackageReceivedV1}
            else SettledSet(pay, wh, o)
  {
    assert IsSettled(pay, wh', o, PackageReceivedV1)
      <==> (IsSettled(pay, wh, o, PackageReceivedV1) || p.orderId == o) by {
      if IsSettled(pay, wh, o, PackageReceivedV1) {
        var x :| x in wh.packages && wh.packages[x].orderId == o;
        assert x in wh'.packages && wh'.packages[x].orderId == o;
      }
      assert id in wh'.packages;
    }
    forall t | t in EFFECTS && t != PackageReceivedV1 ensures IsSettled(pay, wh', o, t) == IsSettled(pay, wh, o, t) { }
  }

  /** A settlement transaction, by callback or by marking, as the ledger sees it. */
  lemma {:induction false} PaymentStep(s: State, pay': PS.PaymentDb, id: Id)
    requires Inv(s) && id in s.pay.payments
    requires pay'.payments == s.pay.payments
             || pay'.payments == s.pay.payments[id := s.pay.payments[id].(status := Succeeded)]
    ensures Next(View(s.ord.orders, s.pay, s.wh), View(s.ord.orders, pay', s.wh))
  {
    hide Inv, SettledSet, View, Next;
    PaymentBelongs(s, id);
    var o, t := s.pay.payments[id].orderId, PS.SuccessType(s.pay.payments[id].kind);
    if pay'.payments == s.pay.payments {
      ViewSame(s.ord.orders, s.pay, pay', s.wh);
    } else {
      forall x ensures SettledSet(pay', s.wh, x) == if x == o then SettledSet(s.pay, s.wh, x) + {t}
        else SettledSet(s.pay, s.wh, x) {
        SettledByPayment(s.pay, pay', s.wh, id, x);
      }
      ViewSettle(s.ord.orders, s.pay, pay', s.wh, s.wh, o, t);
    }
  }

  lemma {:induction false} PaymentBelongs(s: State, id: Id)
    requires Inv(s) && id in s.pay.payments
    ensures s.pay.payments[id].orderId in s.ord.orders && s.pay.payments[id].kind != Refund
    ensures PS.SuccessType(s.pay.payments[id].kind) in EFFECTS
  {
    assert PaymentOk(s.ord.orders, s.pay.payments[id]);
  }

  lemma {:induction false} InsertShape(pay: PS.PaymentDb, id: Id, pending: PS.Payment)
    requires pending.status == Pending
    ensures var pay' := PS.CreatePayment(pay, id, pending).0;
            && (forall x :: x in pay.payments ==> x in pay'.payments && pay'.payments[x] == pay.payments[x])
            && (forall x :: x in pay'.payments && x !in pay.payments ==> pay'.payments[x].status == Pending)
  {
  }

  lemma {:induction false} InsertPaymentNext(s: State, pending: PS.Payment, id: Id)
    requires Inv(s) && pending in s.flight.payments
    ensures Next(View(s.ord.orders, s.pay, s.wh), View(s.ord.orders, PS.CreatePayment(s.pay, id, pending).0, s.wh))
  {
    hide Inv, View, Next, PS.CreatePayment;
    PendingIntent(s, pending);
    InsertShape(s.pay, id, pending);
    ViewSame(s.ord.orders, s.pay, PS.CreatePayment(s.pay, id, pending).0, s.wh);
  }

  lemma {:induction false} PendingIntent(s: State, pending: PS.Payment)
    requires Inv(s) && pending in s.flight.payments
    ensures pending.status == Pending
  {
  }

  lemma {:induction false} StoreShape(wh: WS.WarehouseDb, id: Id, p: WS.Package, r: Envelope)
    ensures var wh' := WS.StorePackage(wh, id, p, r).0;
            wh' == wh || (id !in wh.packages && wh'.packages == wh.packages[id := p])
  {
  }

  lemma {:induction false} InsertPackageNext(s: State, p: WS.Package, id: Id, r: Envelope)
    requires Inv(s) && p in s.flight.packages
    ensures Next(View(s.ord.orders, s.pay, s.wh), View(s.ord.orders, s.pay, WS.StorePackage(s.wh, id, p, r).0))
  {
    assert PackageIntentsOk(s.ord.orders, s.flight.packages);
    hide Inv, SettledSet, View, Next, WS.StorePackage;
    StoreShape(s.wh, id, p, r);
    var wh' := WS.StorePackage(s.wh, id, p, r).0;
    NextSame(View(s.ord.orders, s.pay, s.wh));
    if wh' != s.wh {
      forall x ensures SettledSet(s.pay, wh', x)
                    == if x == p.orderId then SettledSet(s.pay, s.wh, x) + {PackageReceivedV1}
                      else SettledSet(s.pay, s.wh, x) {
        SettledByPackage(s.pay, s.wh, wh', id, p, x);
      }
      ViewSettle(s.ord.orders, s.pay, s.pay, s.wh, wh', p.orderId, PackageReceivedV1);
    }
  }

  lemma {:induction false} InsertOrderNext(s: State, pending: (Id, Order), r: Envelope)
    requires Inv(s) && pending in s.flight.orders
    ensures Next(View(s.ord.orders, s.pay, s.wh),
              View(CreateOrder(s.ord, pending.0, pending.1, r).0.orders, s.pay, s.wh))
  {
    assert OrderIntentsOk(s.quotes, s.flight.orders);
    if pending.0 !in s.ord.orders { NothingSettled(s, pending.0); }
    hide Inv, SettledSet, View, Next;
    NextSame(View(s.ord.orders, s.pay, s.wh));
    if CreateOrder(s.ord, pending.0, pending.1, r).0 != s.ord {
      ViewOpen(s.ord.orders, s.pay, s.wh, pending.0, pending.1);
    }
  }

  lemma {:induction false} ApplyNext(s: State, c: Cursor, row: Id, now: int)
    requires Inv(s)
    ensures Next(View(s.ord.orders, s.pay, s.wh), View(Exec(s, Apply(c, row, now)).ord.orders, s.pay, s.wh))
  {
    hide Inv, View, Next, Exec;
    OrderWrites(s, Apply(c, row, now));
    NextSame(View(s.ord.orders, s.pay, s.wh));
    if Exec(s, Apply(c, row, now)).ord != s.ord {
      var cmd := CommandAt(s, c).value;
      var e := Current(s.bus, c).value.envelope;
      RunComesFromInv(s, c);
      RowIsSettled(s, e);
      CommandOfRow(s, e, cmd);
      AppliedShape(s.ord, cmd, StatusRow(cmd, row, now));
      ViewEffect(s.ord.orders, s.pay, s.wh, e.aggregateId, e.eventType);
    }
  }

  // ------------------------------------------------------------------ refinement of whole runs

  /** Only a settlement, a payment insert and a package insert touch what the ledger reads besides
      the orders. */
  lemma {:induction false} SettlementShape(pay: PS.PaymentDb, id: Id, callback: string, r: Envelope)
    ensures var pay' := PS.SucceedCallback(pay, id, callback, r).0;
            pay' == pay || (id in pay.payments && (pay'.payments == pay.payments
                                                   || pay'.payments
                                                        == pay.payments[id := pay.payments[id].(status := Succeeded)]))
    ensures var pay' := PS.Succeed(pay, id, r).0;
            pay' == pay || (id in pay.payments
              && pay'.payments == pay.payments[id := pay.payments[id].(status := Succeeded)])
  {
  }

  lemma {:induction false} SettlementNext(s: State, a: Action)
    requires Inv(s) && (a.Callback? || a.MarkSucceeded?)
    ensures Exec(s, a).ord == s.ord && Exec(s, a).wh == s.wh
    ensures Next(View(s.ord.orders, s.pay, s.wh), View(s.ord.orders, Exec(s, a).pay, s.wh))
  {
    hide Inv, View, Next, PS.SucceedCallback, PS.Succeed;
    var id, p := a.settlement.0, a.settlement.1;
    SettlementShape(s.pay, id, if a.Callback? then a.callback else "", PS.SuccessRow(id, p, a.row, a.now));
    NextSame(View(s.ord.orders, s.pay, s.wh));
    if id in s.pay.payments { PaymentStep(s, Exec(s, a).pay, id); }
  }

  predicate IsWrite(a: Action) {
    a.InsertOrder? || a.InsertPayment? || a.Callback? || a.MarkSucceeded? || a.InsertPackage? || a.Apply? || a.Operator?
  }

  lemma {:induction false} OthersWriteNothing(s: State, a: Action)
    requires !IsWrite(a)
    ensures Exec(s, a).ord == s.ord && Exec(s, a).pay == s.pay && Exec(s, a).wh == s.wh
  {
  }

  lemma {:induction false} ApplyWritesOrders(s: State, c: Cursor, row: Id, now: int)
    ensures Exec(s, Apply(c, row, now)).pay == s.pay && Exec(s, Apply(c, row, now)).wh == s.wh
  {
  }

  lemma {:induction false} ViewNext(s: State, a: Action)
    requires Inv(s)
    ensures var s' := Exec(s, a);
            Next(View(s.ord.orders, s.pay, s.wh), View(s'.ord.orders, s'.pay, s'.wh))
  {
    hide Inv, View, Next, PS.SucceedCallback, PS.Succeed, PS.CreatePayment, WS.StorePackage, CreateOrder,
      ExecBeginOrder, ExecReadSummary, ExecReadForCallback, ExecCheck, ExecApply;
    NextSame(View(s.ord.orders, s.pay, s.wh));
    match a
    case InsertOrder(pending, row, now) =>
      if pending in s.flight.orders { InsertOrderNext(s, pending, CreatedRow(pending.0, pending.1, row, now)); }
    case InsertPayment(pending, id) =>
      if pending in s.flight.payments { InsertPaymentNext(s, pending, id); }
    case Callback(_, _, _, _) => SettlementNext(s, a);
    case MarkSucceeded(_, _, _) => SettlementNext(s, a);
    case InsertPackage(p, id, row, now) =>
      if p in s.flight.packages { InsertPackageNext(s, p, id, WS.ReceivedRow(id, p, row, now)); }
    case Apply(c, row, now) =>
      ApplyWritesOrders(s, c, row, now);
      ApplyNext(s, c, row, now);
    case Operator(o, to) => if OperatorMay(s.ord, o, to) { ViewMove(s.ord, s.pay, s.wh, o, to); }
    case _ => OthersWriteNothing(s, a);
  }

  /** Every action of the protocol is a step of the ledger, or no step at all. */
  lemma {:induction false} RefineStep(s: State, a: Action)
    requires Inv(s)
    ensures Next(LedgerOf(s), LedgerOf(Exec(s, a)))
  {
    hide Inv, Next, Exec;
    ExecKeepsInv(s, a);
    LedgerIsView(s);
    LedgerIsView(Exec(s, a));
    ViewNext(s, a);
  }

  /** The ledger after the first n actions of a run. */
  ghost function After(actions: seq<Action>, n: nat): Accounts
    requires n <= |actions|
  {
    LedgerOf(RunAll(INIT, actions[..n]))
  }

  /** A sequence of ledgers that starts empty and goes by the ledger's own steps. */
  ghost predicate IsLedgerRun(ls: seq<Accounts>) {
    |ls| > 0 && ls[0] == map[] && forall n :: 0 < n < |ls| ==> Next(ls[n - 1], ls[n])
  }

  ghost function Trace(actions: seq<Action>): seq<Accounts> {
    seq(|actions| + 1, n requires 0 <= n <= |actions| => After(actions, n))
  }

  lemma {:induction false} LedgerStepAt(actions: seq<Action>, n: nat)
    requires n < |actions|
    ensures Next(After(actions, n), After(actions, n + 1))
  {
    hide Inv, Next, Exec;
    EveryRunIsOk(actions[..n]);
    RefineStep(RunAll(INIT, actions[..n]), actions[n]);
    assert actions[..n + 1][..n] == actions[..n];
  }

  /** Every run of the protocol, seen through the abstraction, is a run of the ledger. */
  lemma {:induction false} RunRefinesLedger(actions: seq<Action>)
    ensures IsLedgerRun(Trace(actions))
  {
    assert After(actions, 0) == map[] by { assert actions[..0] == []; }
    hide Next, After;
    forall n | 0 < n <= |actions| ensures Next(After(actions, n - 1), After(actions, n)) {
      LedgerStepAt(actions, n - 1);
    }
  }

  // ------------------------------------------------------------------ what the ledger alone promises

  /** A ledger step enters the status an event announces only as that event's effect. */
  lemma {:induction false} EnteredByEffect(l: Accounts, l': Accounts, o: Id, t: EventType)
    requires Next(l, l') && o in l && o in l' && t in EFFECTS
    requires l[o].status != Target(t) && l'[o].status == Target(t)
    ensures Effect(l, l', o, t)
  {
    if x, u :| Effect(l, l', x, u) {
      assert x == o;
      OneTypePerTarget(t, u);
    }
  }

  lemma {:induction false} OneTypePerTarget(t: EventType, u: EventType)
    requires t in EFFECTS && u in EFFECTS && Target(t) == Target(u)
    ensures t == u
  {
  }

  /** What the ledger's steps keep of an account: it has taken exactly the effects up to its status,
      each with its cause on record, and it owes the two parts of its total. */
  ghost predicate AccountOk(a: Account) {
    && a.applied == Reached(a.status) && a.applied <= a.settled && a.status != Cancelled
    && 0 < a.deposit < a.total && a.deposit == Pricing.Deposit(a.total)
  }

  ghost predicate AccountsOk(l: Accounts) {
    forall o :: o in l ==> AccountOk(l[o])
  }

  lemma {:induction false} NextKeepsAccounts(l: Accounts, l': Accounts)
    requires Next(l, l') && AccountsOk(l)
    ensures AccountsOk(l')
  {
    hide Reached, CanTransition, Pricing.Deposit;
    if o :| Open(l, l', o) {
      ReachedNothing();
    } else if o, t :| Effect(l, l', o, t) {
      ReachedStep(l[o].status, t);
      assert Target(t) != Cancelled;
    } else if o :| Move(l, l', o) {
      ReachedKept(l[o].status, l'[o].status);
    }
  }

  lemma {:induction false} ReachedNothing()
    ensures Reached(WaitingDeposit) == {}
  {
  }

  lemma {:induction false} ReachedKept(from: OrderStatus, to: OrderStatus)
    requires CanTransition(from, to) && to != Cancelled && forall t :: t in EFFECTS ==> to != Target(t)
    ensures Reached(to) == Reached(from)
  {
    assert to != Target(DepositSucceededV1) && to != Target(PackageReceivedV1);
    assert to != Target(RemainingBalanceSucceededV1);
    assert forall t :: t in EFFECTS ==> (t in Reached(to) <==> t in Reached(from));
  }

  /** In every run of the ledger, whoever makes it: no order is past its deposit, at the foreign
      warehouse or ready for delivery without the payment or package that takes it there, and none is
      cancelled. */
  lemma {:induction false} LedgerIsSafe(ls: seq<Accounts>, o: Id)
    requires IsLedgerRun(ls) && o in ls[|ls| - 1]
    ensures var a := ls[|ls| - 1][o];
            && AccountOk(a)
            && (a.status != WaitingDeposit ==> DepositSucceededV1 in a.settled)
            && (Rank(a.status) >= Rank(ArrivedForeignWarehouse) ==> PackageReceivedV1 in a.settled)
            && (Rank(a.status) >= Rank(ReadyForDomesticDelivery) ==> RemainingBalanceSucceededV1 in a.settled)
  {
    hide Next;
    AccountsStay(ls);
    var a := ls[|ls| - 1][o];
    assert Reached(a.status) <= a.settled;
    assert DepositSucceededV1 in EFFECTS && PackageReceivedV1 in EFFECTS && RemainingBalanceSucceededV1 in EFFECTS;
  }

  lemma {:induction false} AccountsStay(ls: seq<Accounts>)
    requires IsLedgerRun(ls)
    ensures AccountsOk(ls[|ls| - 1])
  {
    hide Next, AccountOk;
    if |ls| == 1 {
    } else {
      AccountsStay(ls[..|ls| - 1]);
      NextKeepsAccounts(ls[|ls| - 2], ls[|ls| - 1]);
    }
  }

  // ------------------------------------------------------------------ exactly once in effect

  /** Action n of a run gives order o the effect t. */
  ghost predicate TakesEffect(actions: seq<Action>, n: nat, o: Id, t: EventType)
    requires n < |actions|
  {
    && o in After(actions, n + 1) && t in After(actions, n + 1)[o].applied
    && (o !in After(actions, n) || t !in After(actions, n)[o].applied)
  }

  lemma {:induction false} AppliedStays(actions: seq<Action>, m: nat, n: nat, o: Id, t: EventType)
    requires m <= n <= |actions| && o in After(actions, m) && t in After(actions, m)[o].applied
    ensures o in After(actions, n) && t in After(actions, n)[o].applied
  {
    hide LedgerOf;
    if m == n {
    } else {
      AppliedStays(actions, m, n - 1, o, t);
      LedgerStepAt(actions, n - 1);
    }
  }

  /** In any run an order takes an effect at most once; when it does, the cause is already on
      record, the order was there, and its status moves along the graph to the effect's target. */
  lemma {:induction false} ExactlyOnceInEffect(actions: seq<Action>, o: Id, t: EventType, i: nat)
    requires i < |actions| && TakesEffect(actions, i, o, t)
    ensures forall j :: 0 <= j < |actions| && j != i ==> !TakesEffect(actions, j, o, t)
    ensures o in After(actions, i) && t in After(actions, i)[o].settled
    ensures CanTransition(After(actions, i)[o].status, Target(t)) && After(actions, i + 1)[o].status == Target(t)
  {
    hide LedgerOf;
    forall j | 0 <= j < |actions| && j != i ensures !TakesEffect(actions, j, o, t) {
      if i < j { AppliedStays(actions, i + 1, j, o, t); }
      else if TakesEffect(actions, j, o, t) { AppliedStays(actions, j + 1, i, o, t); }
    }
    LedgerStepAt(actions, i);
  }

  /** The same of a run of the protocol: an event's status is only ever entered by taking its effect. */
  lemma {:induction false} EntryTakesEffect(actions: seq<Action>, n: nat, o: Id, t: EventType)
    requires n < |actions| && t in EFFECTS
    requires o in After(actions, n) && o in After(actions, n + 1)
    requires After(actions, n)[o].status != Target(t) && After(actions, n + 1)[o].status == Target(t)
    ensures TakesEffect(actions, n, o, t)
  {
    hide After, Next;
    LedgerStepAt(actions, n);
    EnteredByEffect(After(actions, n), After(actions, n + 1), o, t);
  }
}
