/** The order outbox as a record of what happened: one order.created row per order, and one
    order.status_changed row per timeline edge. */
module Announcements {
  import opened Domain
  import opened OrderStore
  import opened Protocol
  import opened Invariant
  import opened Preservation

  // ------------------------------------------------------------------ reading the outbox

  function CreatedRows(rows: seq<Envelope>, o: Id): seq<Envelope> {
    if rows == [] then []
    else
      var e := rows[|rows| - 1];
      CreatedRows(rows[..|rows| - 1], o) + if e.eventType == OrderCreatedV1 && e.aggregateId == o then [e] else []
  }

  /** The status changes announced for an order, oldest first. */
  function Announced(rows: seq<Envelope>, o: Id): seq<(OrderStatus, OrderStatus)> {
    if rows == [] then []
    else
      var e := rows[|rows| - 1];
      Announced(rows[..|rows| - 1], o)
      + if e.eventType == OrderStatusChangedV1 && e.data.StatusData? && e.aggregateId == o
        then [(e.data.previous, e.data.current)] else []
  }

  /** The edges of a path, first to last. */
  function Edges(path: seq<OrderStatus>): seq<(OrderStatus, OrderStatus)> {
    if |path| < 2 then []
    else Edges(path[..|path| - 1]) + [(path[|path| - 2], path[|path| - 1])]
  }

  /** The statuses an event announces. */
  predicate ByEvent(to: OrderStatus) {
    to == WaitingPurchase || to == ArrivedForeignWarehouse || to == ReadyForDomesticDelivery
  }

  /** The status an event handler names as the previous one of an order in this status. */
  function ToldAs(from: OrderStatus): OrderStatus {
    if from == InTransitToForeignWarehouse then WaitingPurchase else from
  }

  /** The edges of a path that events take, with their first ends as the handlers tell them. */
  function EventEdges(path: seq<OrderStatus>): seq<(OrderStatus, OrderStatus)> {
    if |path| < 2 then []
    else
      EventEdges(path[..|path| - 1])
      + if ByEvent(path[|path| - 1]) then [(ToldAs(path[|path| - 2]), path[|path| - 1])] else []
  }

  lemma {:induction false} ReadAppended(rows: seq<Envelope>, e: Envelope, o: Id)
    ensures CreatedRows(rows + [e], o) ==
            CreatedRows(rows, o) + if e.eventType == OrderCreatedV1 && e.aggregateId == o then [e] else []
    ensures Announced(rows + [e], o) ==
            Announced(rows, o) + if e.eventType == OrderStatusChangedV1 && e.data.StatusData? && e.aggregateId == o
                                 then [(e.data.previous, e.data.current)] else []
  {
  }

  lemma {:induction false} EdgesExtended(path: seq<OrderStatus>, to: OrderStatus)
    requires |path| > 0
    ensures EventEdges(path + [to]) == EventEdges(path) + if ByEvent(to) then [(ToldAs(path[|path| - 1]), to)] else []
  {
  }

  // ------------------------------------------------------------------ order.created

  /** One order.created row with the order's terms as they are now, or none if there is no order. */
  ghost predicate CreatedOnce(db: OrderDb, o: Id) {
    var rows := CreatedRows(db.outbox, o);
    if o in db.orders
    then |rows| == 1 && rows[0].producer == OrderService
      && rows[0].data
         == CreatedData(o, db.orders[o].quotationId, db.orders[o].total, db.orders[o].deposit, WaitingDeposit)
    else rows == []
  }

  lemma {:induction false} CreatedCreate(db: OrderDb, x: Id, order: Order, row: Id, now: int, o: Id)
    requires CreatedOnce(db, o) && order.status == WaitingDeposit
    ensures CreatedOnce(CreateOrder(db, x, order, CreatedRow(x, order, row, now)).0, o)
  {
    hide CreatedRows, QuotationTaken, HasId, TimelineOf;
    ReadAppended(db.outbox, CreatedRow(x, order, row, now), o);
  }

  lemma {:induction false} CreatedApply(db: OrderDb, cmd: StatusCommand, row: Id, now: int, o: Id)
    requires CreatedOnce(db, o)
    ensures CreatedOnce(ApplyLocked(db, cmd, StatusRow(cmd, row, now)).0, o)
  {
    ReadAppended(db.outbox, StatusRow(cmd, row, now), o);
  }

  /** Every stored order was announced by exactly one order.created row, naming its quotation, total
      and deposit and WAITING_DEPOSIT; since this holds after every run, none of them ever changes. No
      other order was announced. */
  lemma {:induction false} OneCreatedRow(actions: seq<Action>, o: Id)
    ensures CreatedOnce(RunAll(INIT, actions).ord, o)
  {
    if actions == [] {
    } else {
      hide Exec, Inv, CreatedOnce;
      var before, a := actions[..|actions| - 1], actions[|actions| - 1];
      OneCreatedRow(before, o);
      var s := RunAll(INIT, before);
      EveryRunIsOk(before);
      OrderWrites(s, a);
      match a
      case InsertOrder(pending, row, now) =>
        if pending in s.flight.orders {
          IntentWaits(s, pending);
          CreatedCreate(s.ord, pending.0, pending.1, row, now, o);
        }
      case Apply(c, row, now) =>
        if MayApply(s, c, row) { CreatedApply(s.ord, CommandAt(s, c).value, row, now, o); }
      case Operator(x, to) => if OperatorMay(s.ord, x, to) { CreatedMove(s.ord, x, to, o); }
      case _ =>
    }
  }

  lemma {:induction false} CreatedMove(db: OrderDb, x: Id, to: OrderStatus, o: Id)
    requires CreatedOnce(db, o) && x in db.orders
    ensures CreatedOnce(MoveOrder(db, x, to), o)
  {
  }

  lemma {:induction false} IntentWaits(s: State, pending: (Id, Order))
    requires Inv(s) && pending in s.flight.orders
    ensures pending.1.status == WaitingDeposit
  {
  }

  // ------------------------------------------------------------------ order.status_changed

  /** The row a handler prepares names the order's true status except in one case: a package that
      arrives while the order is already in transit is announced as coming from WAITING_PURCHASE. */
  lemma {:induction false} AnnouncedPreviousIsTrue(db: OrderDb, topic: EventType, r: Record, row: Id, now: int)
    requires Consumed(topic) && Decode(topic, r).Run?
    requires ApplyLocked(db, Decode(topic, r).cmd, StatusRow(Decode(topic, r).cmd, row, now)).1.Applied?
    ensures var cmd := Decode(topic, r).cmd;
            cmd.orderId in db.orders
            && var status := db.orders[cmd.orderId].status;
               cmd.previous == status
               <==> !(cmd.target == ArrivedForeignWarehouse && status == InTransitToForeignWarehouse)
  {
  }

  /** Without an operator, orders only rest where events leave them. */
  predicate EventDriven(status: OrderStatus) {
    status == WaitingDeposit || status == WaitingPurchase || status == ArrivedForeignWarehouse
  }

  ghost predicate AnnouncedOk(db: OrderDb, o: Id) {
    var path := TimelineOf(db, o);
    if o in db.orders
    then |path| > 0 && path[|path| - 1] == db.orders[o].status && Announced(db.outbox, o) == EventEdges(path)
    else path == [] && Announced(db.outbox, o) == []
  }

  lemma {:induction false} AnnouncedCreate(db: OrderDb, x: Id, order: Order, row: Id, now: int, o: Id)
    requires AnnouncedOk(db, o) && order.status == WaitingDeposit
    ensures AnnouncedOk(CreateOrder(db, x, order, CreatedRow(x, order, row, now)).0, o)
  {
  }

  lemma {:induction false} AnnouncedApply(db: OrderDb, topic: EventType, r: Record, row: Id, now: int, o: Id)
    requires AnnouncedOk(db, o) && Consumed(topic) && Decode(topic, r).Run?
    ensures AnnouncedOk(ApplyLocked(db, Decode(topic, r).cmd, StatusRow(Decode(topic, r).cmd, row, now)).0, o)
  {
    var cmd := Decode(topic, r).cmd;
    var e := StatusRow(cmd, row, now);
    AppliedShape(db, cmd, e);
    if ApplyLocked(db, cmd, e).1.Applied? {
      DecodedEdge(topic, r, db.orders[cmd.orderId].status);
      hide ApplyLocked, Decode, AnnouncedOk, AppliedDb;
      if cmd.orderId == o {
        AnnouncedHere(db, cmd, row, now);
      } else {
        AnnouncedElsewhere(db, cmd, row, now, o);
      }
    }
  }

  lemma {:induction false} AnnouncedHere(db: OrderDb, cmd: StatusCommand, row: Id, now: int)
    requires cmd.orderId in db.orders && AnnouncedOk(db, cmd.orderId)
    requires cmd.previous == ToldAs(db.orders[cmd.orderId].status) && ByEvent(cmd.target)
    ensures AnnouncedOk(AppliedDb(db, cmd, StatusRow(cmd, row, now)), cmd.orderId)
  {
    hide Announced, EventEdges;
    var o := cmd.orderId;
    ReadAppended(db.outbox, StatusRow(cmd, row, now), o);
    EdgesExtended(TimelineOf(db, o), cmd.target);
  }

  /** An operator's move announces nothing and is no edge of an event. */
  lemma {:induction false} AnnouncedMove(db: OrderDb, x: Id, to: OrderStatus, o: Id)
    requires AnnouncedOk(db, o) && OperatorMay(db, x, to)
    ensures AnnouncedOk(MoveOrder(db, x, to), o)
  {
    hide Announced, EventEdges;
    if x == o { EdgesExtended(TimelineOf(db, o), to); }
  }

  lemma {:induction false} AnnouncedElsewhere(db: OrderDb, cmd: StatusCommand, row: Id, now: int, o: Id)
    requires cmd.orderId in db.orders && AnnouncedOk(db, o) && o != cmd.orderId
    ensures AnnouncedOk(AppliedDb(db, cmd, StatusRow(cmd, row, now)), o)
  {
    hide Announced, EventEdges;
    ReadAppended(db.outbox, StatusRow(cmd, row, now), o);
  }

  /** What a command announces of an order that can take it. */
  lemma {:induction false} DecodedEdge(topic: EventType, r: Record, status: OrderStatus)
    requires Consumed(topic) && Decode(topic, r).Run? && CanTransition(status, Decode(topic, r).cmd.target)
    ensures ByEvent(Decode(topic, r).cmd.target) && Decode(topic, r).cmd.previous == ToldAs(status)
  {
  }

  lemma {:induction false} AnnouncedRun(actions: seq<Action>, o: Id)
    ensures AnnouncedOk(RunAll(INIT, actions).ord, o)
  {
    if actions == [] {
      assert TimelineOf(INIT.ord, o) == [];
    } else {
      hide Exec, AnnouncedOk, Inv;
      var before, a := actions[..|actions| - 1], actions[|actions| - 1];
      AnnouncedRun(before, o);
      EveryRunIsOk(before);
      AnnouncedStep(RunAll(INIT, before), a, o);
    }
  }

  lemma {:induction false} AnnouncedStep(s: State, a: Action, o: Id)
    requires Inv(s) && AnnouncedOk(s.ord, o)
    ensures AnnouncedOk(Exec(s, a).ord, o)
  {
    hide Exec, AnnouncedOk;
    OrderWrites(s, a);
    match a
    case InsertOrder(pending, row, now) =>
      if pending in s.flight.orders { AnnouncedCreate(s.ord, pending.0, pending.1, row, now, o); }
    case Apply(c, row, now) =>
      if Exec(s, a).ord != s.ord {
        AnnouncedApply(s.ord, c.partition.topic, Current(s.bus, c).value, row, now, o);
      }
    case Operator(x, to) => if OperatorMay(s.ord, x, to) { AnnouncedMove(s.ord, x, to, o); }
    case _ =>
  }

  // ------------------------------------------------------------------ runs without an operator

  predicate OperatorFree(actions: seq<Action>) {
    forall i :: 0 <= i < |actions| ==> !actions[i].Operator?
  }

  /** Every entry of the order's timeline was left by an event. */
  ghost predicate OnlyEvents(db: OrderDb, o: Id) {
    var path := TimelineOf(db, o);
    && (forall i :: 0 <= i < |path| ==> EventDriven(path[i]))
    && (if o in db.orders then |path| > 0 && path[|path| - 1] == db.orders[o].status else path == [])
  }

  lemma {:induction false} OnlyEventsRun(actions: seq<Action>, o: Id)
    requires OperatorFree(actions)
    ensures OnlyEvents(RunAll(INIT, actions).ord, o)
  {
    if actions == [] {
    } else {
      hide Exec, Inv, OnlyEvents;
      var before, a := actions[..|actions| - 1], actions[|actions| - 1];
      OnlyEventsRun(before, o);
      EveryRunIsOk(before);
      OnlyEventsStep(RunAll(INIT, before), a, o);
    }
  }

  lemma {:induction false} OnlyEventsStep(s: State, a: Action, o: Id)
    requires Inv(s) && OnlyEvents(s.ord, o) && !a.Operator?
    ensures OnlyEvents(Exec(s, a).ord, o)
  {
    hide Exec, Inv, OnlyEvents;
    OrderWrites(s, a);
    match a
    case InsertOrder(pending, row, now) =>
      if Exec(s, a).ord != s.ord {
        IntentWaits(s, pending);
        OnlyEventsCreate(s.ord, pending.0, pending.1, CreatedRow(pending.0, pending.1, row, now), o);
      }
    case Apply(c, row, now) =>
      if Exec(s, a).ord != s.ord {
        OnlyEventsApply(s.ord, c.partition.topic, Current(s.bus, c).value, row, now, o);
      }
    case _ =>
  }

  lemma {:induction false} OnlyEventsCreate(db: OrderDb, x: Id, order: Order, row: Envelope, o: Id)
    requires OnlyEvents(db, o) && order.status == WaitingDeposit
    ensures OnlyEvents(CreateOrder(db, x, order, row).0, o)
  {
  }

  lemma {:induction false} OnlyEventsApply(db: OrderDb, topic: EventType, r: Record, row: Id, now: int, o: Id)
    requires OnlyEvents(db, o) && Consumed(topic) && Decode(topic, r).Run?
    ensures OnlyEvents(ApplyLocked(db, Decode(topic, r).cmd, StatusRow(Decode(topic, r).cmd, row, now)).0, o)
  {
    hide Decode, ApplyLocked, CanTransition;
    var cmd := Decode(topic, r).cmd;
    AppliedShape(db, cmd, StatusRow(cmd, row, now));
    if ApplyLocked(db, cmd, StatusRow(cmd, row, now)).1.Applied? && cmd.orderId == o {
      DecodedEdge(topic, r, db.orders[o].status);
      EventAfterEvent(db.orders[o].status, cmd.target);
    }
  }

  lemma {:induction false} EventAfterEvent(from: OrderStatus, to: OrderStatus)
    requires EventDriven(from) && ByEvent(to) && CanTransition(from, to)
    ensures EventDriven(to)
  {
  }

  lemma {:induction false} AllEdges(path: seq<OrderStatus>)
    requires IsPath(path) && forall i :: 0 <= i < |path| ==> EventDriven(path[i])
    ensures EventEdges(path) == Edges(path)
  {
    if |path| < 2 {
    } else {
      AllEdges(path[..|path| - 1]);
    }
  }

  // ------------------------------------------------------------------ the timeline

  /** After any run an order's timeline is a path of permitted transitions from WAITING_DEPOSIT to
      the stored status, without repetition and with at most twelve entries. The outbox holds exactly
      one status_changed row per edge of it that an event took, in order and naming its end points,
      except that an order that was in transit to the foreign warehouse is said to have waited for its
      purchase. Without operator moves these are all its edges. */
  lemma {:induction false} TimelineIsAnnouncedPath(actions: seq<Action>, o: Id)
    requires o in RunAll(INIT, actions).ord.orders
    ensures var db := RunAll(INIT, actions).ord; var path := TimelineOf(db, o);
            && |path| > 0 && path[0] == WaitingDeposit && path[|path| - 1] == db.orders[o].status
            && IsPath(path) && |path| <= 12
            && (forall i, j :: 0 <= i < j < |path| ==> path[i] != path[j])
            && Announced(db.outbox, o) == EventEdges(path)
            && (OperatorFree(actions) ==> Announced(db.outbox, o) == Edges(path))
  {
    EveryRunIsOk(actions);
    var db := RunAll(INIT, actions).ord;
    assert TimelineOk(db.orders[o].status, TimelineOf(db, o));
    PathIsSimple(TimelineOf(db, o));
    AnnouncedRun(actions, o);
    if OperatorFree(actions) {
      OnlyEventsRun(actions, o);
      AllEdges(TimelineOf(db, o));
    }
  }
}
