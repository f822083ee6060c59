/** When the warehouse consumer's retry loop gets past a package event, and when it never will: each
    order takes one package arrival, while any number of packages can be received for it. */
module PackageRetries {
  import opened Domain
  import opened Text
  import opened OrderStore
  import opened Protocol
  import opened Invariant
  import opened Preservation
  import opened Guarantees
  import Drain

  /** A package event that has not been processed and whose order is past the arrival already. */
  predicate Overtaken(s: State, e: Envelope) {
    && e in s.wh.outbox && e.eventId !in s.ord.processed
    && e.aggregateId in s.ord.orders && Rank(s.ord.orders[e.aggregateId].status) >= Rank(ArrivedForeignWarehouse)
  }

  /** In every reachable state the consumer gets past a package row exactly when its event is
      processed or its order waits for the purchase or is on its way to the foreign warehouse. */
  lemma {:induction false} PackageReadyIff(s: State, k: nat)
    requires Inv(s) && k < |s.wh.outbox|
    ensures var e := s.wh.outbox[k];
            && e.aggregateId in s.ord.orders
            && (Ready(s.ord, PackageReceivedV1, Message(e)) <==>
                || e.eventId in s.ord.processed
                || s.ord.orders[e.aggregateId].status == WaitingPurchase
                || s.ord.orders[e.aggregateId].status == InTransitToForeignWarehouse)
  {
    hide QuotesOk, OrdersOk, OrderIntentsOk, TimelinesOk, PaymentTablesOk, PaymentIntentsOk, EventsOk, OrderRowsOk,
      LogsOk, OffsetsOk, Decode, CanTransition;
    PackageRowDecodes(s.ord.orders, s.wh, k);
    var e := s.wh.outbox[k];
    ArrivesFrom(s.ord.orders[e.aggregateId].status);
    assert Decode(PackageReceivedV1, Message(e)).Run?;
  }

  lemma {:induction false} ArrivesFrom(status: OrderStatus)
    ensures CanTransition(status, ArrivedForeignWarehouse) <==>
            status == WaitingPurchase || status == InTransitToForeignWarehouse
  {
  }

  /** Events with one ID are one event. */
  lemma {:induction false} SameEvent(s: State, a: Envelope, b: Envelope)
    requires Inv(s) && (a in s.pay.outbox || a in s.wh.outbox) && b in s.wh.outbox && a.eventId == b.eventId
    ensures a == b
  {
    hide QuotesOk, OrdersOk, OrderIntentsOk, TimelinesOk, PaymentTablesOk, PaymentIntentsOk, PackageTablesOk,
      OrderRowsOk, LogsOk, OffsetsOk;
    var j :| 0 <= j < |s.wh.outbox| && s.wh.outbox[j] == b;
    if a in s.wh.outbox {
      var i :| 0 <= i < |s.wh.outbox| && s.wh.outbox[i] == a;
    }
  }

  lemma {:induction false} RowDecodes(s: State, e: Envelope)
    requires Inv(s) && e in s.wh.outbox
    ensures e.eventType == PackageReceivedV1 && e.aggregateId in s.ord.orders
    ensures Rank(s.ord.orders[e.aggregateId].status) >= Rank(WaitingPurchase)
    ensures Decode(PackageReceivedV1, Message(e)).Run?
    ensures var cmd := Decode(PackageReceivedV1, Message(e)).cmd;
            cmd.eventId == e.eventId && cmd.orderId == e.aggregateId && cmd.target == ArrivedForeignWarehouse
              && cmd.amount == 0
  {
    hide QuotesOk, OrdersOk, OrderIntentsOk, TimelinesOk, PaymentTablesOk, PaymentIntentsOk, EventsOk, OrderRowsOk,
      LogsOk, OffsetsOk, Decode;
    var k :| 0 <= k < |s.wh.outbox| && s.wh.outbox[k] == e;
    PackageRowDecodes(s.ord.orders, s.wh, k);
  }

  lemma {:induction false} OvertakenByApply(s: State, c: Cursor, row: Id, now: int, e: Envelope)
    requires Inv(s) && Overtaken(s, e)
    ensures var ord' := Exec(s, Apply(c, row, now)).ord;
            e.eventId !in ord'.processed && e.aggregateId in ord'.orders
            && Rank(ord'.orders[e.aggregateId].status) >= Rank(ArrivedForeignWarehouse)
  {
    hide Inv, Decode, ApplyLocked, Exec;
    OrderWrites(s, Apply(c, row, now));
    if Exec(s, Apply(c, row, now)).ord != s.ord {
      var r := Current(s.bus, c).value;
      var cmd := CommandAt(s, c).value;
      RunComesFromInv(s, c);
      CommandOfRow(s, r.envelope, cmd);
      AppliedShape(s.ord, cmd, StatusRow(cmd, row, now));
      TransitionRaisesRank(s.ord.orders[cmd.orderId].status, cmd.target);
      if cmd.eventId == e.eventId {
        SameEvent(s, r.envelope, e);
        RowDecodes(s, e);
        assert false;
      }
    }
  }

  lemma {:induction false} PackagesStay(s: State, a: Action)
    ensures Extends(s.wh.outbox, Exec(s, a).wh.outbox)
  {
  }

  lemma {:induction false} OvertakenStays(s: State, a: Action, e: Envelope)
    requires Inv(s) && Overtaken(s, e)
    ensures Overtaken(Exec(s, a), e)
  {
    hide Inv, Exec;
    PackagesStay(s, a);
    OrderWrites(s, a);
    match a
    case Apply(c, row, now) => OvertakenByApply(s, c, row, now, e);
    case Operator(o, to) => if OperatorMay(s.ord, o, to) { TransitionRaisesRank(s.ord.orders[o].status, to); }
    case _ =>
  }

  /** Once another package of its order has arrived, a package event is never processed, whatever
      happens from then on: the consumer retries it for ever. */
  lemma {:induction false} OvertakenForever(s: State, actions: seq<Action>, e: Envelope)
    requires Inv(s) && Overtaken(s, e)
    ensures Overtaken(RunAll(s, actions), e)
    ensures !Ready(RunAll(s, actions).ord, PackageReceivedV1, Message(e))
    decreases |actions|
  {
    hide Inv, Exec, Overtaken, Ready;
    if actions == [] {
      OvertakenNotReady(s, e);
    } else {
      var before := RunAll(s, actions[..|actions| - 1]);
      OvertakenForever(s, actions[..|actions| - 1], e);
      Drain.RunKeepsInv(s, actions[..|actions| - 1]);
      OvertakenStays(before, actions[|actions| - 1], e);
      ExecKeepsInv(before, actions[|actions| - 1]);
      OvertakenNotReady(Exec(before, actions[|actions| - 1]), e);
    }
  }

  lemma {:induction false} OvertakenNotReady(s: State, e: Envelope)
    requires Inv(s) && Overtaken(s, e)
    ensures !Ready(s.ord, PackageReceivedV1, Message(e))
  {
    hide Inv, Ready;
    var k :| 0 <= k < |s.wh.outbox| && s.wh.outbox[k] == e;
    PackageReadyIff(s, k);
  }

  /** The first arrival of an order overtakes every other unprocessed package event of that order. */
  lemma {:induction false} ArrivalOvertakes(s: State, c: Cursor, row: Id, now: int, e: Envelope)
    requires Inv(s) && e in s.wh.outbox && e.eventId !in s.ord.processed
    requires Current(s.bus, c).Some? && Current(s.bus, c).value.Message? && c.partition.topic == PackageReceivedV1
    requires Current(s.bus, c).value.envelope.aggregateId == e.aggregateId
             && Current(s.bus, c).value.envelope.eventId != e.eventId
    requires Exec(s, Apply(c, row, now)).ord != s.ord
    ensures Overtaken(Exec(s, Apply(c, row, now)), e)
  {
    hide Inv, Decode, ApplyLocked, Exec;
    PackagesStay(s, Apply(c, row, now));
    OrderWrites(s, Apply(c, row, now));
    var r := Current(s.bus, c).value;
    var cmd := CommandAt(s, c).value;
    RunComesFromInv(s, c);
    CommandOfRow(s, r.envelope, cmd);
    AppliedShape(s.ord, cmd, StatusRow(cmd, row, now));
  }

  // ------------------------------------------------------------------ the consumer's position

  lemma {:induction false} LogGrows(s: State, a: Action, p: Partition)
    ensures Log(s.bus, p) <= Log(Exec(s, a).bus, p)
  {
  }

  lemma {:induction false} LogsStay(s: State, actions: seq<Action>, p: Partition)
    ensures Log(s.bus, p) <= Log(RunAll(s, actions).bus, p)
  {
    hide Exec;
    if actions == [] {
    } else {
      LogsStay(s, actions[..|actions| - 1], p);
      LogGrows(RunAll(s, actions[..|actions| - 1]), actions[|actions| - 1], p);
    }
  }

  /** No consumer is past an overtaken event, and no offset beyond it is committed. */
  lemma {:induction false} NotPast(s: State, c: Cursor, i: nat, e: Envelope)
    requires Inv(s) && Overtaken(s, e) && c.partition.topic == PackageReceivedV1
    requires i < |Log(s.bus, c.partition)| && Log(s.bus, c.partition)[i] == Message(e)
    ensures PositionOf(s.bus, c) <= i && CommittedAt(s.bus, c.partition) <= i
  {
    RowDecodes(s, e);
    hide Decode, QuotesOk, OrdersOk, OrderIntentsOk, TimelinesOk, PaymentTablesOk, PaymentIntentsOk, PackageTablesOk,
      EventsOk, OrderRowsOk, LogsOk, OffsetsOk;
    PositionDone(s.ord.processed, s.bus, c);
    assert !Done(s.ord.processed, PackageReceivedV1, Message(e));
  }

  /** Once an overtaken event is record i of its log, every consumer of that log stays at or before
      it and nothing beyond it is ever committed. */
  lemma {:induction false} StuckAtOvertaken(s: State, actions: seq<Action>, c: Cursor, i: nat, e: Envelope)
    requires Inv(s) && Overtaken(s, e) && c.partition.topic == PackageReceivedV1
    requires i < |Log(s.bus, c.partition)| && Log(s.bus, c.partition)[i] == Message(e)
    ensures var s' := RunAll(s, actions);
            PositionOf(s'.bus, c) <= i && CommittedAt(s'.bus, c.partition) <= i
  {
    hide Inv, Overtaken, RunAll;
    OvertakenForever(s, actions, e);
    Drain.RunKeepsInv(s, actions);
    LogsStay(s, actions, c.partition);
    NotPast(RunAll(s, actions), c, i, e);
  }

  // ------------------------------------------------------------------ the whole topic

  /** The package topic has one partition. */
  const PACKAGES: Partition := Partition(PackageReceivedV1, 0)

  /** A package event is processed in s' only if it was in s or is a record of the log of s up to i. */
  ghost predicate OnlyUpTo(s: State, s': State, i: nat)
    requires i < |Log(s.bus, PACKAGES)|
  {
    forall x :: x in s'.wh.outbox && x.eventId in s'.ord.processed ==>
      x.eventId in s.ord.processed || Message(x) in Log(s.bus, PACKAGES)[..i + 1]
  }

  /** One overtaken event stops package handling for every order: a package event of any order, stored
      by now or later, that is not a record up to the overtaken one is never processed. */
  lemma {:induction false} TopicStops(s: State, actions: seq<Action>, i: nat, e: Envelope)
    requires Inv(s) && Overtaken(s, e) && i < |Log(s.bus, PACKAGES)| && Log(s.bus, PACKAGES)[i] == Message(e)
    ensures OnlyUpTo(s, RunAll(s, actions), i)
  {
    hide Inv, Exec, Overtaken;
    if actions == [] {
    } else {
      var init, a := actions[..|actions| - 1], actions[|actions| - 1];
      var before := RunAll(s, init);
      TopicStops(s, init, i, e);
      OvertakenForever(s, init, e);
      Drain.RunKeepsInv(s, init);
      LogsStay(s, init, PACKAGES);
      forall x | x in Exec(before, a).wh.outbox && x.eventId in Exec(before, a).ord.processed
        ensures x.eventId in s.ord.processed || Message(x) in Log(s.bus, PACKAGES)[..i + 1]
      {
        StepStops(before, a, i, e, x);
      }
    }
  }

  /** One step: an event that gets processed is a record up to the overtaken one. */
  lemma {:induction false} StepStops(s: State, a: Action, i: nat, e: Envelope, x: Envelope)
    requires Inv(s) && Overtaken(s, e) && i < |Log(s.bus, PACKAGES)| && Log(s.bus, PACKAGES)[i] == Message(e)
    requires x in Exec(s, a).wh.outbox && x.eventId in Exec(s, a).ord.processed
    ensures (x in s.wh.outbox && x.eventId in s.ord.processed) || Message(x) in Log(s.bus, PACKAGES)[..i + 1]
  {
    hide Inv, Exec, Overtaken;
    if x.eventId in s.ord.processed {
      ProcessedIsStored(s, a, x);
    } else {
      ProcessedBy(s, a, x);
      NotPast(s, a.cursor, i, e);
      assert Log(s.bus, PACKAGES)[..i + 1][PositionOf(s.bus, a.cursor)] == Message(x);
    }
  }

  /** A package event gets processed by a transaction at a consumer whose next record it is. */
  lemma {:induction false} ProcessedBy(s: State, a: Action, x: Envelope)
    requires Inv(s) && x in Exec(s, a).wh.outbox
    requires x.eventId !in s.ord.processed && x.eventId in Exec(s, a).ord.processed
    ensures x in s.wh.outbox && Exec(s, a).ord != s.ord
    ensures a.Apply? && a.cursor.partition == PACKAGES && Current(s.bus, a.cursor) == Some(Message(x))
  {
    hide Inv, Decode, ApplyLocked, Exec, CreateOrder;
    OrderWrites(s, a);
    match a
    case InsertOrder(pending, row, now) =>
      CreateKeepsProcessed(s.ord, pending.0, pending.1, CreatedRow(pending.0, pending.1, row, now));
    case Apply(c, row, now) => AppliedHere(s, c, row, now, x);
    case _ =>
  }

  lemma {:induction false} CreateKeepsProcessed(db: OrderDb, o: Id, order: Order, row: Envelope)
    ensures CreateOrder(db, o, order, row).0.processed == db.processed
  {
  }

  /** A processed event is in some outbox, so a row stored afresh is not it. */
  lemma {:induction false} ProcessedIsStored(s: State, a: Action, x: Envelope)
    requires Inv(s) && x in Exec(s, a).wh.outbox && x.eventId in s.ord.processed
    ensures x in s.wh.outbox
  {
    hide QuotesOk, OrdersOk, OrderIntentsOk, TimelinesOk, PaymentTablesOk, PaymentIntentsOk, PackageTablesOk,
      OrderRowsOk, LogsOk, OffsetsOk, MilestoneOk, UniqueIds, DisjointIds;
    PackageRowsGrow(s, a, x);
  }

  lemma {:induction false} PackageRowsGrow(s: State, a: Action, x: Envelope)
    requires x in Exec(s, a).wh.outbox
    ensures x in s.wh.outbox || Fresh(s, x.eventId)
  {
  }

  lemma {:induction false} AppliedHere(s: State, c: Cursor, row: Id, now: int, x: Envelope)
    requires Inv(s) && x in Exec(s, Apply(c, row, now)).wh.outbox
    requires x.eventId !in s.ord.processed && x.eventId in Exec(s, Apply(c, row, now)).ord.processed
    ensures x in s.wh.outbox && c.partition == PACKAGES && Current(s.bus, c) == Some(Message(x))
  {
    hide Inv, Decode, ApplyLocked;
    assert Exec(s, Apply(c, row, now)).wh == s.wh;
    OrderWrites(s, Apply(c, row, now));
    hide Exec;
    var r := Current(s.bus, c).value;
    var cmd := CommandAt(s, c).value;
    RunComesFromInv(s, c);
    CommandOfRow(s, r.envelope, cmd);
    AppliedShape(s.ord, cmd, StatusRow(cmd, row, now));
    SameEvent(s, r.envelope, x);
    RowDecodes(s, x);
    OnePartition(s, c.partition);
  }

  lemma {:induction false} OnePartition(s: State, p: Partition)
    requires Inv(s) && p.topic == PackageReceivedV1 && Log(s.bus, p) != []
    ensures p == PACKAGES
  {
  }

  // ------------------------------------------------------------------ exactly when

  ghost predicate Passes(s: State, c: Cursor, actions: seq<Action>) {
    PositionOf(RunAll(s, actions).bus, c) > PositionOf(s.bus, c)
  }

  /** Handling a command touches its own order, and nothing if its event was processed. */
  ghost predicate HandledOnly(db: OrderDb, db': OrderDb, cmd: StatusCommand) {
    && db'.processed.Keys == db.processed.Keys + {cmd.eventId} && (cmd.eventId in db.processed ==> db' == db)
    && (forall o :: o in db.orders && o != cmd.orderId ==> o in db'.orders && db'.orders[o] == db.orders[o])
  }

  /** The consumer is one record further, and nothing happened but the handling of that record. */
  ghost predicate PastRecord(s: State, s': State, c: Cursor)
    requires Current(s.bus, c).Some?
  {
    && s'.wh == s.wh && s'.bus.logs == s.bus.logs && PositionOf(s'.bus, c) == PositionOf(s.bus, c) + 1
    && (match Decode(PackageReceivedV1, Current(s.bus, c).value)
        case Run(cmd) => HandledOnly(s.ord, s'.ord, cmd)
        case _ => s'.ord == s.ord)
  }

  /** The record at a warehouse consumer's position is passed in some continuation exactly when it is
      not an overtaken package event. */
  lemma {:induction false} PassedUnlessOvertaken(s: State, c: Cursor)
    requires Inv(s) && c.partition.topic == PackageReceivedV1 && Current(s.bus, c).Some?
    ensures var r := Current(s.bus, c).value;
            (exists actions :: Passes(s, c, actions)) <==> !(r.Message? && Overtaken(s, r.envelope))
  {
    hide Inv, Decode, RunAll, Overtaken;
    var r := Current(s.bus, c).value;
    if r.Message? && Overtaken(s, r.envelope) {
      forall actions ensures !Passes(s, c, actions) {
        StuckAtOvertaken(s, actions, c, PositionOf(s.bus, c), r.envelope);
      }
    } else {
      var actions := WayPast(s, c);
      assert Passes(s, c, actions);
    }
  }

  lemma {:induction false} WayPast(s: State, c: Cursor) returns (actions: seq<Action>)
    requires Inv(s) && c.partition.topic == PackageReceivedV1 && Current(s.bus, c).Some?
    requires var r := Current(s.bus, c).value; !(r.Message? && Overtaken(s, r.envelope))
    ensures PastRecord(s, RunAll(s, actions), c)
  {
    hide Inv, PastRecord, Decode;
    var r := Current(s.bus, c).value;
    if Decode(PackageReceivedV1, r) == Skip {
      actions := [Check(c)];
      SkipPasses(s, c);
    } else {
      NeverRetried(r);
      RunComesFromInv(s, c);
      var e := r.envelope;
      PackageRecord(s, e);
      RowDecodes(s, e);
      var cmd := Decode(PackageReceivedV1, r).cmd;
      ArrivesFrom(s.ord.orders[e.aggregateId].status);
      if e.eventId in s.ord.processed {
        actions := [Check(c)];
        SkipPasses(s, c);
      } else if s.ord.orders[e.aggregateId].status == Purchased {
        actions := ShipAndHandle(s, c, cmd);
      } else {
        EarlierStatuses(s.ord.orders[e.aggregateId].status);
        actions := HandleReady(s, c, cmd);
      }
    }
  }

  lemma {:induction false} NeverRetried(r: Record)
    ensures !Decode(PackageReceivedV1, r).Retry?
  {
  }

  lemma {:induction false} EarlierStatuses(status: OrderStatus)
    requires Rank(WaitingPurchase) <= Rank(status) < Rank(ArrivedForeignWarehouse) && status != Purchased
    ensures status == WaitingPurchase || status == InTransitToForeignWarehouse
  {
  }

  /** A record that is skipped, or whose event is processed, is passed by the next check. */
  lemma {:induction false} SkipPasses(s: State, c: Cursor)
    requires c.partition.topic == PackageReceivedV1 && Current(s.bus, c).Some?
    requires var d := Decode(PackageReceivedV1, Current(s.bus, c).value);
             d == Skip || (d.Run? && d.cmd.eventId in s.ord.processed)
    ensures PastRecord(s, RunAll(s, [Check(c)]), c)
  {
    hide Decode, RunAll;
    Drain.RunOne(s, Check(c));
  }

  /** An order that was only purchased is shipped by the operator first. */
  lemma {:induction false} ShipAndHandle(s: State, c: Cursor, cmd: StatusCommand) returns (actions: seq<Action>)
    requires Current(s.bus, c).Some? && c.partition.topic == PackageReceivedV1
    requires Decode(PackageReceivedV1, Current(s.bus, c).value) == Run(cmd) && cmd.eventId !in s.ord.processed
    requires cmd.orderId in s.ord.orders && s.ord.orders[cmd.orderId].status == Purchased
    requires cmd.amount == 0 && cmd.target == ArrivedForeignWarehouse
    ensures PastRecord(s, RunAll(s, actions), c)
  {
    hide Decode, RunAll;
    var move := Operator(cmd.orderId, InTransitToForeignWarehouse);
    assert Exec(s, move) == s.(ord := MoveOrder(s.ord, cmd.orderId, InTransitToForeignWarehouse));
    var later := HandleReady(Exec(s, move), c, cmd);
    actions := [move] + later;
    Drain.RunTwice(s, [move], later);
    Drain.RunOne(s, move);
  }

  lemma {:induction false} PackageRecord(s: State, e: Envelope)
    requires Inv(s) && (e in s.pay.outbox || e in s.wh.outbox) && e.eventType == PackageReceivedV1
    ensures e in s.wh.outbox
  {
    hide QuotesOk, OrdersOk, OrderIntentsOk, TimelinesOk, PaymentIntentsOk, PackageTablesOk, EventsOk, OrderRowsOk,
      LogsOk, OffsetsOk, Decode;
  }

  /** A package event whose order can take it is handled by a check and a transaction. */
  lemma {:induction false} HandleReady(s: State, c: Cursor, cmd: StatusCommand) returns (actions: seq<Action>)
    requires Current(s.bus, c).Some? && c.partition.topic == PackageReceivedV1
    requires Decode(PackageReceivedV1, Current(s.bus, c).value) == Run(cmd)
    requires Refusal(s.ord, cmd).None? && cmd.eventId !in s.ord.processed
    ensures PastRecord(s, RunAll(s, actions), c)
  {
    hide Decode, Refusal, Fresh, RunAll;
    var row := Drain.Unused(s);
    var noted := Exec(s, Check(c));
    assert noted == s.(flight := s.flight.(checked := s.flight.checked + {(c.worker, cmd.eventId)}));
    actions := [Check(c), Apply(c, row, 0)];
    Drain.RunPair(s, Check(c), Apply(c, row, 0));
    Drain.StillFresh(s, noted, row);
    Drain.ApplyProgress(noted, c, cmd, row, 0);
  }
}
