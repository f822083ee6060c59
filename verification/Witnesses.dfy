/** Runs that reach the situations the other results are about: a package announced from the wrong
    status, a package event that can never be processed, and an order delivered and paid in full. */
module Witnesses {
  import opened Domain
  import opened Text
  import opened OrderStore
  import opened Protocol
  import opened PackageRetries
  import opened Drain
  import Preservation
  import PS = PaymentStore
  import QS = QuotationStore
  import WS = WarehouseStore
  import Pricing

  // ------------------------------------------------------------------ an order

  const QUOTE: QS.Quotation := QS.Quotation("customer", 1, 146_250, QS.PendingConfirmation, None, 0)
  const CONFIRMED: QS.Quotation := QUOTE.(status := QS.Confirmed, confirmedOrder := Some(2))
  const ORDER: Order := Order("customer", 1, "address", 146_250, 102_375, 43_875, WaitingDeposit)
  const PLACING: seq<Action> :=
    [CreateQuotation(1, "customer", 1_000_000, 1, 25_000, 0), BeginOrder(1, "", "address", 0),
      InsertOrder((2, ORDER), 11, 0)]

  const QUOTED: State := INIT.(quotes := map[1 := QUOTE])
  const BEGUN: State := INIT.(quotes := map[1 := CONFIRMED], flight := INIT.flight.(orders := {(2, ORDER)}))
  const PLACED: OrderDb := OrderDb(map[2 := ORDER], map[2 := [WaitingDeposit]], map[], [CreatedRow(2, ORDER, 11, 0)])

  lemma {:induction false} QuotationMade()
    ensures Exec(INIT, PLACING[0]) == QUOTED
  {
    assert Pricing.Quote(1_000_000, 1, 25_000) == Some(Pricing.Amounts(25_000, 1_250, 146_250));
  }

  lemma {:induction false} OrderBegun()
    ensures Exec(QUOTED, PLACING[1]) == BEGUN
  {
    TrimSpaceKeeps("address");
    hide TrimSpace;
    assert NewOrder("customer", 1, "address", 146_250) == ORDER;
    assert map[1 := QUOTE][1 := CONFIRMED] == map[1 := CONFIRMED];
    assert QS.ConfirmQuotation(QUOTED.quotes, 1, 2, 0) == (map[1 := CONFIRMED], None);
  }

  lemma {:induction false} OrderInserted()
    ensures Exec(BEGUN, PLACING[2]) == BEGUN.(ord := PLACED)
  {
    assert Fresh(BEGUN, 11);
    assert !QuotationTaken(INIT.ord.orders, 1) && TimelineOf(INIT.ord, 2) == [];
    assert CreateOrder(INIT.ord, 2, ORDER, CreatedRow(2, ORDER, 11, 0)) == (PLACED, Applied) by {
      assert INIT.ord.orders[2 := ORDER] == PLACED.orders;
      assert TimelineOf(INIT.ord, 2) + [WaitingDeposit] == [WaitingDeposit];
      assert INIT.ord.timeline[2 := [WaitingDeposit]] == PLACED.timeline;
      assert INIT.ord.outbox + [CreatedRow(2, ORDER, 11, 0)] == PLACED.outbox;
    }
  }

  /** Quotation, confirmation and order: one order waiting for its deposit, and nothing else. */
  lemma {:induction false} OrderPlaced()
    ensures RunAll(INIT, PLACING) == BEGUN.(ord := PLACED)
  {
    hide Exec, RunAll;
    QuotationMade();
    OrderBegun();
    OrderInserted();
    RunTriple(INIT, PLACING[0], PLACING[1], PLACING[2]);
  }

  // ------------------------------------------------------------------ a payment

  /** What a payment round needs: the order waits for it, its slot, names and identifiers are unused,
      and no earlier event of its type is in the way. */
  ghost predicate PaymentDue(s: State, o: Id, kind: PaymentKind, reference: string, id: Id, e: Id, row: Id) {
    && kind != Refund && o in s.ord.orders && s.ord.orders[o].status == ExpectedStatus(kind)
    && AmountDue(s.ord.orders[o], kind) > 0 && o != NIL
    && !PS.SlotTaken(s.pay.payments, o, kind) && !PS.ReferenceTaken(s.pay.payments, reference)
    && id !in s.pay.payments && id != NIL && Fresh(s, e) && Fresh(s, row) && e != row && e !in s.ord.processed
    && Log(s.bus, Partition(PS.SuccessType(kind), 0)) == []
    && PositionOf(s.bus, Cursor(0, Partition(PS.SuccessType(kind), 0))) == 0
  }

  function PaymentFor(s: State, o: Id, kind: PaymentKind, reference: string): PS.Payment
    requires o in s.ord.orders
  {
    PS.Payment(o, kind, AmountDue(s.ord.orders[o], kind), "VND", Pending, reference)
  }

  function PaymentCommand(s: State, o: Id, kind: PaymentKind, e: Id): StatusCommand
    requires o in s.ord.orders
  {
    var t := PS.SuccessType(kind);
    StatusCommand(e, t, o, AmountDue(s.ord.orders[o], kind), ExpectedStatus(kind), Target(t))
  }

  /** Reading, inserting and settling a payment. */
  lemma {:induction false} PaymentSettled(s: State, o: Id, kind: PaymentKind, reference: string, id: Id, e: Id, row: Id)
    returns (actions: seq<Action>)
    requires PaymentDue(s, o, kind, reference, id, e, row)
    ensures var s' := RunAll(s, actions); var p := PaymentFor(s, o, kind, reference);
            && s'.ord == s.ord && s'.wh == s.wh && s'.bus == s.bus
            && s'.pay.payments == s.pay.payments[id := p.(status := Succeeded)]
            && s'.pay.outbox == s.pay.outbox + [PS.SuccessRow(id, p, e, 0)]
  {
    hide RunAll, HasId;
    var p := PaymentFor(s, o, kind, reference);
    var create := [ReadSummary(o, kind, reference), InsertPayment(p, id)];
    var settle := [ReadPaymentToMark(id), MarkSucceeded((id, p), e, 0)];
    actions := create + settle;
    RunTwice(s, create, settle);
    RunPair(s, ReadSummary(o, kind, reference), InsertPayment(p, id));
    var read := Exec(s, ReadSummary(o, kind, reference));
    assert read == s.(flight := s.flight.(payments := s.flight.payments + {p}));
    var inserted := Exec(read, InsertPayment(p, id));
    assert inserted == read.(pay := s.pay.(payments := s.pay.payments[id := p]));
    RunPair(inserted, ReadPaymentToMark(id), MarkSucceeded((id, p), e, 0));
    var noted := Exec(inserted, ReadPaymentToMark(id));
    assert noted == inserted.(flight := read.flight.(settlements := read.flight.settlements + {(id, p)}));
    assert noted.pay.payments[id := p.(status := Succeeded)] == s.pay.payments[id := p.(status := Succeeded)];
  }

  /** Publishing and consuming its event. */
  lemma {:induction false} EventApplied(s: State, c: Cursor, box: Box, i: nat, cmd: StatusCommand, row: Id)
    returns (actions: seq<Action>)
    requires i < |Rows(s, box)| && c.partition == Partition(Rows(s, box)[i].eventType, 0) && Consumed(c.partition.topic)
    requires Decode(c.partition.topic, Message(Rows(s, box)[i])) == Run(cmd)
    requires Refusal(s.ord, cmd).None? && cmd.eventId !in s.ord.processed && Fresh(s, row)
    requires PositionOf(s.bus, c) == |Log(s.bus, c.partition)|
    ensures var s' := RunAll(s, actions);
            && s'.ord == Preservation.AppliedDb(s.ord, cmd, StatusRow(cmd, row, 0)) && s'.pay == s.pay && s'.wh == s.wh
            && s'.bus == Advance(Append(s.bus, c.partition, Message(Rows(s, box)[i])), c)
  {
    hide RunAll, Decode, Refusal, Fresh;
    actions := [Publish(box, i, 0), Check(c), Apply(c, row, 0)];
    RunTriple(s, Publish(box, i, 0), Check(c), Apply(c, row, 0));
    var published := Exec(s, Publish(box, i, 0));
    assert published == s.(bus := Append(s.bus, c.partition, Message(Rows(s, box)[i])));
    StillFresh(s, published, row);
    ReadyApplied(published, c, cmd, row);
  }

  lemma {:induction false} ReadyApplied(s: State, c: Cursor, cmd: StatusCommand, row: Id)
    requires Current(s.bus, c).Some? && Consumed(c.partition.topic)
    requires Decode(c.partition.topic, Current(s.bus, c).value) == Run(cmd)
    requires Refusal(s.ord, cmd).None? && cmd.eventId !in s.ord.processed && Fresh(s, row)
    ensures var s' := Exec(Exec(s, Check(c)), Apply(c, row, 0));
            && s'.ord == Preservation.AppliedDb(s.ord, cmd, StatusRow(cmd, row, 0)) && s'.pay == s.pay && s'.wh == s.wh
            && s'.bus == Advance(s.bus, c)
  {
    hide Decode, Refusal, Fresh;
    var noted := Exec(s, Check(c));
    assert noted == s.(flight := s.flight.(checked := s.flight.checked + {(c.worker, cmd.eventId)}));
    StillFresh(s, noted, row);
    ApplyProgress(noted, c, cmd, row, 0);
  }

  /** A whole payment round: the event takes the order into the status it announces. */
  lemma {:induction false} PaymentRound(s: State, o: Id, kind: PaymentKind, reference: string, id: Id, e: Id, row: Id)
    returns (actions: seq<Action>)
    requires PaymentDue(s, o, kind, reference, id, e, row)
    ensures var s' := RunAll(s, actions); var p := PaymentFor(s, o, kind, reference);
            var cmd := PaymentCommand(s, o, kind, e); var r := PS.SuccessRow(id, p, e, 0);
            && s'.ord == Preservation.AppliedDb(s.ord, cmd, StatusRow(cmd, row, 0)) && s'.wh == s.wh
            && s'.pay.payments == s.pay.payments[id := p.(status := Succeeded)] && s'.pay.outbox == s.pay.outbox + [r]
            && s'.bus == Advance(Append(s.bus, Partition(PS.SuccessType(kind), 0), Message(r)),
                 Cursor(0, Partition(PS.SuccessType(kind), 0)))
  {
    hide RunAll;
    var p, cmd := PaymentFor(s, o, kind, reference), PaymentCommand(s, o, kind, e);
    var settle := PaymentSettled(s, o, kind, reference, id, e, row);
    var settled := RunAll(s, settle);
    var r := PS.SuccessRow(id, p, e, 0);
    assert settled.pay.outbox[|s.pay.outbox|] == r;
    AppendedFresh(s, settled, r, row);
    RowCommand(s, o, kind, reference, id, e);
    hide PaymentDue, Fresh, Decode, Refusal;
    var apply := EventApplied(settled, Cursor(0, Partition(PS.SuccessType(kind), 0)), PaymentBox, |s.pay.outbox|, cmd,
      row);
    actions := settle + apply;
    RunTwice(s, settle, apply);
  }

  lemma {:induction false} AppendedFresh(s: State, s': State, r: Envelope, row: Id)
    requires Fresh(s, row) && r.eventId != row && s'.ord == s.ord && s'.wh == s.wh
             && s'.pay.outbox == s.pay.outbox + [r]
    ensures Fresh(s', row)
  {
  }

  lemma {:induction false} RowCommand(s: State, o: Id, kind: PaymentKind, reference: string, id: Id, e: Id)
    requires kind != Refund && o in s.ord.orders && o != NIL && s.ord.orders[o].status == ExpectedStatus(kind)
    requires AmountDue(s.ord.orders[o], kind) > 0 && id != NIL && e != NIL
    ensures var r := PS.SuccessRow(id, PaymentFor(s, o, kind, reference), e, 0);
            var cmd := PaymentCommand(s, o, kind, e);
            && r.eventId == e && r.eventType == PS.SuccessType(kind) && Consumed(r.eventType)
            && Decode(r.eventType, Message(r)) == Run(cmd) && Refusal(s.ord, cmd).None?
  {
  }

  // ------------------------------------------------------------------ a package

  lemma {:induction false} PackageStored(s: State, p: WS.Package, id: Id, e: Id) returns (actions: seq<Action>)
    requires WS.ValidPackage(p) && !WS.TrackingTaken(s.wh.packages, p.tracking)
    requires p.orderId in s.ord.orders && s.ord.orders[p.orderId].status == WaitingPurchase
    requires id != NIL && id !in s.wh.packages && Fresh(s, e)
    ensures var s' := RunAll(s, actions);
            && s'.ord == s.ord && s'.pay == s.pay && s'.bus == s.bus
            && s'.wh == WS.WarehouseDb(s.wh.packages[id := p], s.wh.outbox + [WS.ReceivedRow(id, p, e, 1)])
  {
    hide RunAll, WS.ValidPackage, WS.TrackingTaken, HasId;
    actions := [ReadWarehouseSummary(p), InsertPackage(p, id, e, 1)];
    RunPair(s, ReadWarehouseSummary(p), InsertPackage(p, id, e, 1));
    var read := Exec(s, ReadWarehouseSummary(p));
    assert read == s.(flight := s.flight.(packages := s.flight.packages + {p}));
  }

  lemma {:induction false} OperatorMoves(s: State, o: Id, to: OrderStatus)
    requires OperatorMay(s.ord, o, to)
    ensures Exec(s, Operator(o, to)) == s.(ord := MoveOrder(s.ord, o, to))
  {
  }

  lemma {:induction false} Moved(s: State, o: Id, a: OrderStatus, b: OrderStatus)
    requires OperatorMay(s.ord, o, a) && OperatorMay(MoveOrder(s.ord, o, a), o, b)
    ensures RunAll(s, [Operator(o, a), Operator(o, b)]) == s.(ord := MoveOrder(MoveOrder(s.ord, o, a), o, b))
  {
    hide RunAll, Exec, OperatorMay;
    RunPair(s, Operator(o, a), Operator(o, b));
    OperatorMoves(s, o, a);
    OperatorMoves(Exec(s, Operator(o, a)), o, b);
  }

  // ------------------------------------------------------------------ one run

  function At(status: OrderStatus): Order { ORDER.(status := status) }

  const PAYMENT: PS.Payment := PS.Payment(2, Deposit, 102_375, "VND", Pending, "first")
  const DEPOSIT: StatusCommand := StatusCommand(12, DepositSucceededV1, 2, 102_375, WaitingDeposit, WaitingPurchase)
  const BALANCES: Partition := Partition(RemainingBalanceSucceededV1, 0)
  const PARCEL: WS.Package := WS.Package(2, "A", "W", 1.0, 1.0, 1.0, 1.0)
  const SECOND: WS.Package := WS.Package(2, "B", "W", 1.0, 1.0, 1.0, 1.0)
  const ARRIVAL: StatusCommand := StatusCommand(14, PackageReceivedV1, 2, 0, WaitingPurchase, ArrivedForeignWarehouse)

  /** The order is paid for and waits for its purchase. */
  ghost predicate DepositTaken(s: State) {
    && s.ord.orders == map[2 := At(WaitingPurchase)] && TimelineOf(s.ord, 2) == [WaitingDeposit, WaitingPurchase]
    && s.ord.processed == map[12 := DepositSucceededV1]
    && s.ord.outbox == [CreatedRow(2, ORDER, 11, 0), StatusRow(DEPOSIT, 13, 0)]
    && s.pay.payments == map[5 := PAYMENT.(status := Succeeded)] && s.pay.outbox == [PS.SuccessRow(5, PAYMENT, 12, 0)]
    && Log(s.bus, PACKAGES) == [] && Log(s.bus, BALANCES) == []
    && PositionOf(s.bus, Cursor(1, PACKAGES)) == 0 && PositionOf(s.bus, Cursor(0, BALANCES)) == 0
  }

  lemma {:induction false} DepositPaid() returns (actions: seq<Action>)
    ensures DepositTaken(RunAll(INIT, actions)) && RunAll(INIT, actions).wh == INIT.wh
  {
    hide RunAll;
    OrderPlaced();
    var s := RunAll(INIT, PLACING);
    assert PaymentDue(s, 2, Deposit, "first", 5, 12, 13);
    assert PaymentFor(s, 2, Deposit, "first") == PAYMENT && PaymentCommand(s, 2, Deposit, 12) == DEPOSIT;
    hide PaymentDue, PaymentFor, PaymentCommand;
    var round := PaymentRound(s, 2, Deposit, "first", 5, 12, 13);
    actions := PLACING + round;
    RunTwice(INIT, PLACING, round);
    var s' := RunAll(INIT, actions);
    assert s'.ord.orders == map[2 := At(WaitingPurchase)];
    assert s'.ord.processed == map[12 := DepositSucceededV1];
    assert s'.pay.payments == map[5 := PAYMENT.(status := Succeeded)];
  }

  const STORED: WS.WarehouseDb :=
    WS.WarehouseDb(map[7 := PARCEL, 8 := SECOND], [WS.ReceivedRow(7, PARCEL, 14, 1), WS.ReceivedRow(8, SECOND, 15, 1)])

  lemma {:induction false} Parcels()
    ensures WS.ValidPackage(PARCEL) && WS.ValidPackage(SECOND)
  {
    TrimSpaceKeeps("A");
    TrimSpaceKeeps("B");
    TrimSpaceKeeps("W");
  }

  /** Two packages are received for the one order while it waits. */
  lemma {:induction false} TwoPackages(s: State) returns (actions: seq<Action>)
    requires DepositTaken(s) && s.wh == INIT.wh
    ensures DepositTaken(RunAll(s, actions)) && RunAll(s, actions).wh == STORED
  {
    hide RunAll;
    Parcels();
    var first := PackageStored(s, PARCEL, 7, 14);
    var s1 := RunAll(s, first);
    assert s1.wh.packages == map[7 := PARCEL] && !WS.TrackingTaken(s1.wh.packages, "B");
    var second := PackageStored(s1, SECOND, 8, 15);
    actions := first + second;
    RunTwice(s, first, second);
    assert map[7 := PARCEL][8 := SECOND] == STORED.packages;
  }

  const IN_TRANSIT: seq<OrderStatus> := [WaitingDeposit, WaitingPurchase, Purchased, InTransitToForeignWarehouse]

  /** The purchased order is on its way to the foreign warehouse. */
  ghost predicate Shipped(s: State) {
    && s.ord.orders == map[2 := At(InTransitToForeignWarehouse)] && TimelineOf(s.ord, 2) == IN_TRANSIT
    && s.ord.processed == map[12 := DepositSucceededV1]
    && s.ord.outbox == [CreatedRow(2, ORDER, 11, 0), StatusRow(DEPOSIT, 13, 0)]
    && s.pay.payments == map[5 := PAYMENT.(status := Succeeded)] && s.pay.outbox == [PS.SuccessRow(5, PAYMENT, 12, 0)]
    && s.wh == STORED && Log(s.bus, PACKAGES) == [] && Log(s.bus, BALANCES) == []
    && PositionOf(s.bus, Cursor(1, PACKAGES)) == 0 && PositionOf(s.bus, Cursor(0, BALANCES)) == 0
  }

  lemma {:induction false} OrderShipped(s: State) returns (actions: seq<Action>)
    requires DepositTaken(s) && s.wh == STORED
    ensures Shipped(RunAll(s, actions))
  {
    hide RunAll;
    actions := [Operator(2, Purchased), Operator(2, InTransitToForeignWarehouse)];
    Moved(s, 2, Purchased, InTransitToForeignWarehouse);
    assert s.ord.orders[2 := At(Purchased)][2 := At(InTransitToForeignWarehouse)]
      == map[2 := At(InTransitToForeignWarehouse)];
  }

  /** The first package has arrived; the event of the second is the next record. */
  ghost predicate Arrived(s: State) {
    && s.ord.orders == map[2 := At(ArrivedForeignWarehouse)]
    && TimelineOf(s.ord, 2) == IN_TRANSIT + [ArrivedForeignWarehouse]
    && s.ord.processed == map[12 := DepositSucceededV1, 14 := PackageReceivedV1]
    && s.ord.outbox == [CreatedRow(2, ORDER, 11, 0), StatusRow(DEPOSIT, 13, 0), StatusRow(ARRIVAL, 16, 0)]
    && s.pay.payments == map[5 := PAYMENT.(status := Succeeded)] && s.pay.outbox == [PS.SuccessRow(5, PAYMENT, 12, 0)]
    && s.wh == STORED && Log(s.bus, PACKAGES) == [Message(STORED.outbox[0]), Message(STORED.outbox[1])]
    && PositionOf(s.bus, Cursor(1, PACKAGES)) == 1
    && Log(s.bus, BALANCES) == [] && PositionOf(s.bus, Cursor(0, BALANCES)) == 0
  }

  lemma {:induction false} ParcelDecodes()
    ensures Decode(PackageReceivedV1, Message(STORED.outbox[0])) == Run(ARRIVAL)
  {
    Parcels();
    hide TrimSpace;
  }

  lemma {:induction false} ArrivalDb(db: OrderDb)
    requires db.orders == map[2 := At(InTransitToForeignWarehouse)] && TimelineOf(db, 2) == IN_TRANSIT
    requires db.processed == map[12 := DepositSucceededV1]
    ensures Refusal(db, ARRIVAL).None?
    ensures var db' := Preservation.AppliedDb(db, ARRIVAL, StatusRow(ARRIVAL, 16, 0));
            && db'.orders == map[2 := At(ArrivedForeignWarehouse)]
            && TimelineOf(db', 2) == IN_TRANSIT + [ArrivedForeignWarehouse]
            && db'.processed == map[12 := DepositSucceededV1, 14 := PackageReceivedV1]
            && db'.outbox == db.outbox + [StatusRow(ARRIVAL, 16, 0)]
  {
  }

  lemma {:induction false} FirstArrived(s: State) returns (actions: seq<Action>)
    requires Shipped(s)
    ensures var s' := RunAll(s, actions);
            && s'.ord == Preservation.AppliedDb(s.ord, ARRIVAL, StatusRow(ARRIVAL, 16, 0)) && s'.pay == s.pay
            && s'.wh == s.wh
            && s'.bus == Advance(Append(s.bus, PACKAGES, Message(STORED.outbox[0])), Cursor(1, PACKAGES))
  {
    ParcelDecodes();
    ArrivalDb(s.ord);
    hide RunAll, Decode, Refusal;
    assert Fresh(s, 16);
    hide Fresh;
    actions := EventApplied(s, Cursor(1, PACKAGES), WarehouseBox, 0, ARRIVAL, 16);
  }

  lemma {:induction false} PackageArrived(s: State) returns (actions: seq<Action>)
    requires Shipped(s)
    ensures Arrived(RunAll(s, actions))
  {
    hide RunAll, Preservation.AppliedDb;
    var apply := FirstArrived(s);
    ArrivalDb(s.ord);
    actions := apply + [Publish(WarehouseBox, 1, 0)];
    RunTwice(s, apply, [Publish(WarehouseBox, 1, 0)]);
    RunOne(RunAll(s, apply), Publish(WarehouseBox, 1, 0));
    hide Refusal;
    assert Rows(RunAll(s, apply), WarehouseBox)[1] == STORED.outbox[1];
  }

  lemma {:induction false} ArrivalReached() returns (actions: seq<Action>)
    ensures Arrived(RunAll(INIT, actions))
  {
    hide RunAll, DepositTaken, Shipped, Arrived;
    var a := DepositPaid();
    var b := TwoPackages(RunAll(INIT, a));
    var c := OrderShipped(RunAll(RunAll(INIT, a), b));
    var d := PackageArrived(RunAll(RunAll(RunAll(INIT, a), b), c));
    RunTwice(INIT, a, b);
    RunTwice(INIT, a + b, c);
    RunTwice(INIT, a + b + c, d);
    actions := a + b + c + d;
  }

  /** A run in which an order goes from IN_TRANSIT_TO_FOREIGN_WAREHOUSE to ARRIVED_FOREIGN_WAREHOUSE
      and the status_changed row of that step says it came from WAITING_PURCHASE. */
  lemma {:induction false} WrongPreviousStatus() returns (actions: seq<Action>)
    ensures var db := RunAll(INIT, actions).ord;
            && TimelineOf(db, 2) == IN_TRANSIT + [ArrivedForeignWarehouse]
            && db.outbox != []
            && var row := db.outbox[|db.outbox| - 1];
               row.eventType == OrderStatusChangedV1
                 && row.data == StatusData(2, WaitingPurchase, ArrivedForeignWarehouse)
  {
    actions := ArrivalReached();
  }

  /** A run after which a package event is overtaken and is the record at its consumer's position, so
      no continuation gets past it. */
  lemma {:induction false} OvertakenIsReached() returns (actions: seq<Action>, e: Envelope)
    ensures var s := RunAll(INIT, actions);
            && Overtaken(s, e) && Current(s.bus, Cursor(1, PACKAGES)) == Some(Message(e))
            && forall later :: !Passes(s, Cursor(1, PACKAGES), later)
  {
    actions := ArrivalReached();
    var s := RunAll(INIT, actions);
    e := STORED.outbox[1];
    assert Overtaken(s, e) by { assert s.wh.outbox[1] == e; }
    Preservation.EveryRunIsOk(actions);
    hide RunAll, Arrived, Overtaken;
    forall later ensures !Passes(s, Cursor(1, PACKAGES), later) {
      StuckAtOvertaken(s, later, Cursor(1, PACKAGES), 1, e);
    }
  }

  // ------------------------------------------------------------------ to the customer's door

  ghost predicate OrderIs(s: State, status: OrderStatus) {
    2 in s.ord.orders && s.ord.orders[2] == At(status)
  }

  /** What the balance payment needs besides the order's status. */
  ghost predicate BalanceOpen(s: State) {
    && s.pay.payments.Keys == {5} && s.pay.payments[5] == PAYMENT.(status := Succeeded) && 17 !in s.ord.processed
    && Fresh(s, 17) && Fresh(s, 18) && Log(s.bus, BALANCES) == [] && PositionOf(s.bus, Cursor(0, BALANCES)) == 0
  }

  lemma {:induction false} ArrivedIsOpen(s: State)
    requires Arrived(s)
    ensures BalanceOpen(s) && OrderIs(s, ArrivedForeignWarehouse)
  {
  }

  lemma {:induction false} MovedOn(s: State, from: OrderStatus, to: OrderStatus)
    requires BalanceOpen(s) && OrderIs(s, from) && OperatorStep(from, to)
    ensures var s' := Exec(s, Operator(2, to)); BalanceOpen(s') && OrderIs(s', to)
  {
    hide CanTransition, Fresh, Exec;
    OperatorMoves(s, 2, to);
    StillFresh(s, Exec(s, Operator(2, to)), 17);
    StillFresh(s, Exec(s, Operator(2, to)), 18);
  }

  lemma {:induction false} ToTheBalance(s: State) returns (actions: seq<Action>)
    requires BalanceOpen(s) && OrderIs(s, ArrivedForeignWarehouse)
    ensures BalanceOpen(RunAll(s, actions)) && OrderIs(RunAll(s, actions), WaitingRemainingPayment)
  {
    hide RunAll, BalanceOpen, OrderIs, Exec;
    var s1 := Exec(s, Operator(2, Packed));
    var s2 := Exec(s1, Operator(2, InTransitToDomesticWarehouse));
    var s3 := Exec(s2, Operator(2, ArrivedDomesticWarehouse));
    MovedOn(s, ArrivedForeignWarehouse, Packed);
    MovedOn(s1, Packed, InTransitToDomesticWarehouse);
    MovedOn(s2, InTransitToDomesticWarehouse, ArrivedDomesticWarehouse);
    MovedOn(s3, ArrivedDomesticWarehouse, WaitingRemainingPayment);
    var out := [Operator(2, Packed), Operator(2, InTransitToDomesticWarehouse)];
    var home := [Operator(2, ArrivedDomesticWarehouse), Operator(2, WaitingRemainingPayment)];
    RunPair(s, out[0], out[1]);
    RunPair(s2, home[0], home[1]);
    RunTwice(s, out, home);
    actions := out + home;
  }

  lemma {:induction false} BalancePaid(s: State) returns (actions: seq<Action>)
    requires BalanceOpen(s) && OrderIs(s, WaitingRemainingPayment)
    ensures OrderIs(RunAll(s, actions), ReadyForDomesticDelivery)
  {
    BalanceDue(s);
    hide RunAll, PaymentDue, BalanceOpen, Preservation.AppliedDb, PS.SuccessRow, StatusRow, Advance, Append, PaymentFor;
    actions := PaymentRound(s, 2, RemainingBalance, "second", 6, 17, 18);
    var cmd := PaymentCommand(s, 2, RemainingBalance, 17);
    AppliedOrders(s.ord, cmd, StatusRow(cmd, 18, 0));
  }

  lemma {:induction false} AppliedOrders(db: OrderDb, cmd: StatusCommand, row: Envelope)
    requires cmd.orderId in db.orders
    ensures Preservation.AppliedDb(db, cmd, row).orders
            == db.orders[cmd.orderId := db.orders[cmd.orderId].(status := cmd.target)]
  {
  }

  lemma {:induction false} BalanceDue(s: State)
    requires BalanceOpen(s) && OrderIs(s, WaitingRemainingPayment)
    ensures PaymentDue(s, 2, RemainingBalance, "second", 6, 17, 18)
  {
    hide Fresh;
    assert !PS.SlotTaken(s.pay.payments, 2, RemainingBalance) && !PS.ReferenceTaken(s.pay.payments, "second");
  }

  /** A run that delivers an order. */
  lemma {:induction false} DeliveryIsReached() returns (actions: seq<Action>)
    ensures OrderIs(RunAll(INIT, actions), Delivered)
  {
    hide RunAll;
    var a := ArrivalReached();
    var s := RunAll(INIT, a);
    ArrivedIsOpen(s);
    hide BalanceOpen;
    var b := ToTheBalance(s);
    var s1 := RunAll(s, b);
    var c := BalancePaid(s1);
    var s2 := RunAll(s1, c);
    var d := [Operator(2, OutForDelivery), Operator(2, Delivered)];
    Moved(s2, 2, OutForDelivery, Delivered);
    RunTwice(INIT, a, b);
    RunTwice(INIT, a + b, c);
    RunTwice(INIT, a + b + c, d);
    actions := a + b + c + d;
  }
}
