/** Liveness without faults: polls and consumes bring payments and orders into agreement. */
module Drain {
  import opened Domain
  import opened OrderStore
  import opened Protocol
  import opened Invariant
  import opened Preservation
  import opened Guarantees
  import PS = PaymentStore

  const PAYMENT_PARTITIONS: seq<Partition> :=
    [Partition(DepositSucceededV1, 0), Partition(DepositSucceededV1, 1), Partition(DepositSucceededV1, 2),
     Partition(RemainingBalanceSucceededV1, 0), Partition(RemainingBalanceSucceededV1, 1),
     Partition(RemainingBalanceSucceededV1, 2)]

  predicate PaymentTopic(p: Partition) {
    p.topic == DepositSucceededV1 || p.topic == RemainingBalanceSucceededV1
  }

  // ------------------------------------------------------------------ what is left to do

  /** Payment rows not yet marked published. */
  function Unmarked(rows: seq<Envelope>, marked: set<(Box, Id)>): nat {
    if rows == [] then 0
    else Unmarked(rows[..|rows| - 1], marked) + if (PaymentBox, rows[|rows| - 1].eventId) in marked then 0 else 1
  }

  /** Records a partition's consumer has still to get past; owner assigns the partitions to the
      consumers of the group. */
  function Behind(bus: Bus, owner: Partition -> nat, p: Partition): nat {
    var position := PositionOf(bus, Cursor(owner(p), p));
    if position < |Log(bus, p)| then |Log(bus, p)| - position else 0
  }

  function Lag(bus: Bus, owner: Partition -> nat, parts: seq<Partition>): nat {
    if parts == [] then 0 else Lag(bus, owner, parts[..|parts| - 1]) + Behind(bus, owner, parts[|parts| - 1])
  }

  predicate AllMarked(s: State) {
    forall i :: 0 <= i < |s.pay.outbox| ==> (PaymentBox, s.pay.outbox[i].eventId) in s.marked
  }

  lemma {:induction false} UnmarkedDrops(rows: seq<Envelope>, marked: set<(Box, Id)>, k: nat)
    requires k < |rows| && (PaymentBox, rows[k].eventId) !in marked
    ensures Unmarked(rows, marked + {(PaymentBox, rows[k].eventId)}) < Unmarked(rows, marked)
  {
    var init := rows[..|rows| - 1];
    if k < |rows| - 1 {
      UnmarkedDrops(init, marked, k);
    } else {
      UnmarkedFewer(init, marked, (PaymentBox, rows[k].eventId));
    }
  }

  lemma {:induction false} UnmarkedFewer(rows: seq<Envelope>, marked: set<(Box, Id)>, m: (Box, Id))
    ensures Unmarked(rows, marked + {m}) <= Unmarked(rows, marked)
  {
    if rows == [] {
    } else {
      UnmarkedFewer(rows[..|rows| - 1], marked, m);
    }
  }

  lemma {:induction false} LagCompare(a: Bus, b: Bus, owner: Partition -> nat, parts: seq<Partition>, k: nat)
    requires forall p :: Behind(b, owner, p) <= Behind(a, owner, p)
    ensures Lag(b, owner, parts) <= Lag(a, owner, parts)
    ensures k < |parts| && Behind(b, owner, parts[k]) < Behind(a, owner, parts[k])
            ==> Lag(b, owner, parts) < Lag(a, owner, parts)
  {
    if parts == [] {
    } else {
      LagCompare(a, b, owner, parts[..|parts| - 1], k);
    }
  }

  lemma {:induction false} LagGrows(bus: Bus, owner: Partition -> nat, p: Partition, r: Record, parts: seq<Partition>)
    requires forall i, j :: 0 <= i < j < |parts| ==> parts[i] != parts[j]
    ensures Lag(Append(bus, p, r), owner, parts) <= Lag(bus, owner, parts) + if p in parts then 1 else 0
  {
    if parts == [] {
    } else {
      var init := parts[..|parts| - 1];
      LagGrows(bus, owner, p, r, init);
      assert parts == init + [parts[|parts| - 1]];
    }
  }

  // ------------------------------------------------------------------ single steps make progress

  lemma {:induction false} RunTwice(s: State, a: seq<Action>, b: seq<Action>)
    ensures RunAll(s, a + b) == RunAll(RunAll(s, a), b)
  {
    if b == [] {
      assert a + b == a;
    } else {
      RunTwice(s, a, b[..|b| - 1]);
      assert (a + b)[..|a + b| - 1] == a + b[..|b| - 1];
    }
  }

  lemma {:induction false} RunOne(s: State, a: Action)
    ensures RunAll(s, [a]) == Exec(s, a)
  {
  }

  /** Publishing an unmarked row and marking it leaves one row less to publish. */
  lemma {:induction false} PollProgress(s: State, k: nat, number: nat)
    requires k < |s.pay.outbox| && (PaymentBox, s.pay.outbox[k].eventId) !in s.marked
             && number < PartitionsOf(s.pay.outbox[k].eventType)
    ensures var s' := Exec(Exec(s, Publish(PaymentBox, k, number)), MarkPublished(PaymentBox, k, number));
            && s'.pay == s.pay && s'.ord == s.ord
            && Unmarked(s'.pay.outbox, s'.marked) < Unmarked(s.pay.outbox, s.marked)
            && s'.bus == Append(s.bus, Partition(s.pay.outbox[k].eventType, number), Message(s.pay.outbox[k]))
  {
    UnmarkedDrops(s.pay.outbox, s.marked, k);
    var p := Partition(s.pay.outbox[k].eventType, number);
    var bus' := Append(s.bus, p, Message(s.pay.outbox[k]));
    assert Log(bus', p)[|Log(s.bus, p)|] == Message(s.pay.outbox[k]);
  }

  /** The actions that handle the record at a cursor without a fault. */
  function Consume(s: State, c: Cursor, row: Id, now: int): seq<Action> {
    if Exec(s, Check(c)).bus != s.bus then [Check(c), Commit(c)] else [Check(c), Apply(c, row, now), Commit(c)]
  }

  /** Checking the record at a cursor either gets past it or leaves a note for the transaction. */
  lemma {:induction false} CheckProgress(s: State, c: Cursor)
    requires Inv(s) && PaymentTopic(c.partition) && Current(s.bus, c).Some?
    ensures var s' := Exec(s, Check(c));
            s' == s.(bus := Advance(s.bus, c))
            || (Decode(c.partition.topic, Current(s.bus, c).value).Run?
                && var cmd := Decode(c.partition.topic, Current(s.bus, c).value).cmd;
                   Refusal(s.ord, cmd).None? && cmd.eventId !in s.ord.processed
                   && s' == s.(flight := s.flight.(checked := s.flight.checked + {(c.worker, cmd.eventId)})))
  {
    hide Inv, Refusal;
    RecordReady(s, c.partition, PositionOf(s.bus, c));
  }

  /** The retry loop succeeds at the first attempt that no fault interrupts: handling one record
      moves the cursor past it, commits, and touches neither the payments nor the logs. */
  lemma {:induction false} ConsumeProgress(s: State, c: Cursor, row: Id, now: int)
    requires Inv(s) && PaymentTopic(c.partition) && Current(s.bus, c).Some? && Fresh(s, row)
    ensures var s' := RunAll(s, Consume(s, c, row, now));
            && s'.pay == s.pay && s'.marked == s.marked && s'.bus.logs == s.bus.logs
            && s'.bus.cursors == s.bus.cursors[c := PositionOf(s.bus, c) + 1]
            && s'.bus.committed == s.bus.committed[c.partition := PositionOf(s.bus, c) + 1]
  {
    hide Inv, Refusal, Decode, RunAll, Exec, AppliedDb, Fresh, PaymentTopic;
    CheckProgress(s, c);
    var checked := Exec(s, Check(c));
    assert PositionOf(Advance(s.bus, c), c) != PositionOf(s.bus, c);
    if checked.bus != s.bus {
      RunPair(s, Check(c), Commit(c));
      CommitShape(checked, c);
    } else {
      var cmd := Decode(c.partition.topic, Current(s.bus, c).value).cmd;
      RunTriple(s, Check(c), Apply(c, row, now), Commit(c));
      StillFresh(s, checked, row);
      PaymentTopicsAreConsumed(c.partition);
      ApplyProgress(checked, c, cmd, row, now);
      CommitShape(Exec(checked, Apply(c, row, now)), c);
    }
  }

  lemma {:induction false} PaymentTopicsAreConsumed(p: Partition)
    requires PaymentTopic(p)
    ensures Consumed(p.topic)
  {
  }

  lemma {:induction false} StillFresh(s: State, s': State, id: Id)
    requires Fresh(s, id) && s'.ord.outbox == s.ord.outbox && s'.pay.outbox == s.pay.outbox
             && s'.wh.outbox == s.wh.outbox
    ensures Fresh(s', id)
  {
  }

  lemma {:induction false} CommitShape(s: State, c: Cursor)
    ensures Exec(s, Commit(c)) == s.(bus := s.bus.(committed := s.bus.committed[c.partition := PositionOf(s.bus, c)]))
  {
  }

  lemma {:induction false} ApplyProgress(s: State, c: Cursor, cmd: StatusCommand, row: Id, now: int)
    requires Current(s.bus, c).Some? && Consumed(c.partition.topic)
    requires Decode(c.partition.topic, Current(s.bus, c).value) == Run(cmd)
    requires Refusal(s.ord, cmd).None? && cmd.eventId !in s.ord.processed && (c.worker, cmd.eventId) in s.flight.checked
             && Fresh(s, row)
    ensures Exec(s, Apply(c, row, now))
            == s.(ord := AppliedDb(s.ord, cmd, StatusRow(cmd, row, now)), bus := Advance(s.bus, c))
  {
    hide Decode;
  }

  lemma {:induction false} RunPair(s: State, a: Action, b: Action)
    ensures RunAll(s, [a, b]) == Exec(Exec(s, a), b)
  {
    RunOne(s, a);
    assert [a, b][..1] == [a];
  }

  lemma {:induction false} RunTriple(s: State, a: Action, b: Action, c: Action)
    ensures RunAll(s, [a, b, c]) == Exec(Exec(Exec(s, a), b), c)
  {
    RunPair(s, a, b);
    assert [a, b, c][..2] == [a, b];
  }

  function HighestId(rows: seq<Envelope>): (m: Id)
    ensures forall i :: 0 <= i < |rows| ==> rows[i].eventId <= m
  {
    if rows == [] then 0
    else
      var m := HighestId(rows[..|rows| - 1]);
      if rows[|rows| - 1].eventId > m then rows[|rows| - 1].eventId else m
  }

  /** There is always an identifier nobody has drawn. */
  function Unused(s: State): (id: Id)
    ensures Fresh(s, id)
  {
    1 + HighestId(s.ord.outbox) + HighestId(s.pay.outbox) + HighestId(s.wh.outbox)
  }

  // ------------------------------------------------------------------ every schedule

  /** A fault-free turn of the outbox worker on one row, or of a consumer on one record. */
  datatype Round = Poll(row: nat, number: nat) | Handle(p: Partition, rowId: Id, now: int)

  predicate Enabled(s: State, owner: Partition -> nat, r: Round) {
    match r
    case Poll(k, number) =>
      && k < |s.pay.outbox| && (PaymentBox, s.pay.outbox[k].eventId) !in s.marked
      && number < PartitionsOf(s.pay.outbox[k].eventType)
    case Handle(p, rowId, _) => p in PAYMENT_PARTITIONS && Behind(s.bus, owner, p) > 0 && Fresh(s, rowId)
  }

  function Perform(s: State, owner: Partition -> nat, r: Round): State {
    match r
    case Poll(k, number) => Exec(Exec(s, Publish(PaymentBox, k, number)), MarkPublished(PaymentBox, k, number))
    case Handle(p, rowId, now) => RunAll(s, Consume(s, Cursor(owner(p), p), rowId, now))
  }

  /** Rounds one after the other, each of them possible when its turn comes. */
  predicate IsSchedule(s: State, owner: Partition -> nat, rs: seq<Round>)
    decreases |rs|
  {
    rs == [] || (Enabled(s, owner, rs[0]) && IsSchedule(Perform(s, owner, rs[0]), owner, rs[1..]))
  }

  function PerformAll(s: State, owner: Partition -> nat, rs: seq<Round>): State
    decreases |rs|
  {
    if rs == [] then s else PerformAll(Perform(s, owner, rs[0]), owner, rs[1..])
  }

  function Polls(rs: seq<Round>): nat {
    if rs == [] then 0 else Polls(rs[1..]) + if rs[0].Poll? then 1 else 0
  }

  lemma {:induction false} RunKeepsInv(s: State, actions: seq<Action>)
    requires Inv(s)
    ensures Inv(RunAll(s, actions))
  {
    if actions == [] {
    } else {
      hide Inv, Exec;
      RunKeepsInv(s, actions[..|actions| - 1]);
      ExecKeepsInv(RunAll(s, actions[..|actions| - 1]), actions[|actions| - 1]);
    }
  }

  lemma {:induction false} LagDrops(a: Bus, b: Bus, owner: Partition -> nat, p: Partition)
    requires p in PAYMENT_PARTITIONS && b.logs == a.logs && Behind(a, owner, p) > 0
    requires var c := Cursor(owner(p), p); b.cursors == a.cursors[c := PositionOf(a, c) + 1]
    ensures Lag(b, owner, PAYMENT_PARTITIONS) < Lag(a, owner, PAYMENT_PARTITIONS)
  {
    var k :| 0 <= k < |PAYMENT_PARTITIONS| && PAYMENT_PARTITIONS[k] == p;
    LagCompare(a, b, owner, PAYMENT_PARTITIONS, k);
  }

  /** What is left to do. */
  function Unpublished(s: State): nat { Unmarked(s.pay.outbox, s.marked) }
  function Unread(s: State, owner: Partition -> nat): nat { Lag(s.bus, owner, PAYMENT_PARTITIONS) }

  lemma {:induction false} PollRound(s: State, owner: Partition -> nat, k: nat, number: nat)
    requires Inv(s) && Enabled(s, owner, Poll(k, number))
    ensures var s' := Perform(s, owner, Poll(k, number));
            && Inv(s') && s'.pay == s.pay && Unpublished(s') < Unpublished(s)
            && Unread(s', owner) <= Unread(s, owner) + 1
  {
    hide Inv, Exec, Lag, Unmarked;
    PollProgress(s, k, number);
    ExecKeepsInv(s, Publish(PaymentBox, k, number));
    ExecKeepsInv(Exec(s, Publish(PaymentBox, k, number)), MarkPublished(PaymentBox, k, number));
    LagGrows(s.bus, owner, Partition(s.pay.outbox[k].eventType, number), Message(s.pay.outbox[k]), PAYMENT_PARTITIONS);
  }

  lemma {:induction false} HandleRound(s: State, owner: Partition -> nat, p: Partition, rowId: Id, now: int)
    requires Inv(s) && Enabled(s, owner, Handle(p, rowId, now))
    ensures var s' := Perform(s, owner, Handle(p, rowId, now));
            && Inv(s') && s'.pay == s.pay && Unpublished(s') == Unpublished(s) && Unread(s', owner) < Unread(s, owner)
  {
    hide Inv, Exec, Lag, Unmarked, Consume, RunAll, Fresh;
    var c := Cursor(owner(p), p);
    ConsumeProgress(s, c, rowId, now);
    RunKeepsInv(s, Consume(s, c, rowId, now));
    LagDrops(s.bus, RunAll(s, Consume(s, c, rowId, now)).bus, owner, p);
  }

  /** From any reachable state, every fault-free schedule ends: it polls at most once for each row
      that was not marked, handles at most once each record that was or comes to be unread, and
      leaves the payments as they were. */
  lemma {:induction false} EveryScheduleEnds(s: State, owner: Partition -> nat, rs: seq<Round>)
    requires Inv(s) && IsSchedule(s, owner, rs)
    ensures var s' := PerformAll(s, owner, rs);
            && Inv(s') && s'.pay == s.pay
            && Polls(rs) + Unpublished(s') <= Unpublished(s)
            && |rs| - Polls(rs) + Unread(s', owner) <= Unread(s, owner) + Polls(rs)
            && |rs| + 2 * Unpublished(s') + Unread(s', owner) <= 2 * Unpublished(s) + Unread(s, owner)
    decreases |rs|
  {
    hide Inv, Enabled, Perform, Unpublished, Unread;
    if rs == [] {
    } else {
      match rs[0] {
        case Poll(k, number) => PollRound(s, owner, k, number);
        case Handle(p, rowId, now) => HandleRound(s, owner, p, rowId, now);
      }
      EveryScheduleEnds(Perform(s, owner, rs[0]), owner, rs[1..]);
    }
  }

  // ------------------------------------------------------------------ agreement

  /** Every payment record is behind its consumer or below its partition's committed offset. */
  predicate CaughtUp(bus: Bus, owner: Partition -> nat) {
    forall p :: p in PAYMENT_PARTITIONS ==>
      PositionOf(bus, Cursor(owner(p), p)) >= |Log(bus, p)| || CommittedAt(bus, p) >= |Log(bus, p)|
  }

  lemma {:induction false} FindRecord(bus: Bus, e: Envelope) returns (p: Partition, i: nat)
    requires OnTopic(bus, e) && (e.eventType == DepositSucceededV1 || e.eventType == RemainingBalanceSucceededV1)
    ensures p in PAYMENT_PARTITIONS && p.topic == e.eventType && i < |Log(bus, p)| && Log(bus, p)[i] == Message(e)
  {
    var n :| 0 <= n < PartitionsOf(e.eventType) && Message(e) in Log(bus, Partition(e.eventType, n));
    p := Partition(e.eventType, n);
    assert PAYMENT_PARTITIONS[(if e.eventType == DepositSucceededV1 then 0 else 3) + n] == p;
    i :| 0 <= i < |Log(bus, p)| && Log(bus, p)[i] == Message(e);
  }

  /** A marked row of a caught-up group has its event processed. */
  lemma {:induction false} RowProcessed(s: State, owner: Partition -> nat, k: nat)
    requires Inv(s) && AllMarked(s) && CaughtUp(s.bus, owner) && k < |s.pay.outbox|
    ensures s.pay.outbox[k].eventId in s.ord.processed
  {
    hide Inv, Decode, OnTopic;
    var e := s.pay.outbox[k];
    MarkedOnTopic(s, PaymentBox, k);
    RowDecodes(s, k);
    var p, i := FindRecord(s.bus, e);
    BelowPosition(s, Cursor(owner(p), p), i);
  }

  lemma {:induction false} RowDecodes(s: State, k: nat)
    requires Inv(s) && k < |s.pay.outbox|
    ensures var e := s.pay.outbox[k];
            && PaymentTopic(Partition(e.eventType, 0)) && Decode(e.eventType, Message(e)).Run?
            && Decode(e.eventType, Message(e)).cmd.eventId == e.eventId
  {
    PaymentRowDecodes(s.ord.orders, s.pay, k);
  }

  lemma {:induction false} BelowPosition(s: State, c: Cursor, i: nat)
    requires Inv(s) && Consumed(c.partition.topic) && i < |Log(s.bus, c.partition)|
    requires i < PositionOf(s.bus, c) || i < CommittedAt(s.bus, c.partition)
    ensures Done(s.ord.processed, c.partition.topic, Log(s.bus, c.partition)[i])
  {
    hide QuotesOk, OrdersOk, OrderIntentsOk, TimelinesOk, PaymentTablesOk, PaymentIntentsOk, PackageTablesOk, EventsOk,
      OrderRowsOk, LogsOk, OffsetsOk, Done;
    PositionDone(s.ord.processed, s.bus, c);
  }

  /** Order and payment tables say the same of an order. */
  ghost predicate Agrees(s: State, o: Id)
    requires o in s.ord.orders
  {
    && (s.ord.orders[o].status == WaitingDeposit <==> !exists id :: Paid(s.pay.payments, id, o, Deposit))
    && (Rank(s.ord.orders[o].status) >= Rank(ReadyForDomesticDelivery)
        <==> exists id :: Paid(s.pay.payments, id, o, RemainingBalance))
  }

  /** Once the payment rows are published and every partition's consumer or committed offset is at the
      log end, however the partitions are shared, an order waits for its deposit exactly when it has no
      succeeded deposit, and has reached domestic delivery exactly when it has a succeeded balance. */
  lemma {:induction false} CaughtUpAgrees(s: State, owner: Partition -> nat, o: Id)
    requires Inv(s) && AllMarked(s) && CaughtUp(s.bus, owner) && o in s.ord.orders
    ensures Agrees(s, o)
  {
    hide Inv, AllMarked, CaughtUp, Paid;
    PaidIsHappened(s, owner, o, Deposit);
    PaidIsHappened(s, owner, o, RemainingBalance);
  }

  lemma {:induction false} PaidIsHappened(s: State, owner: Partition -> nat, o: Id, kind: PaymentKind)
    requires Inv(s) && AllMarked(s) && CaughtUp(s.bus, owner) && o in s.ord.orders && kind != Refund
    ensures (exists id :: Paid(s.pay.payments, id, o, kind))
       <==> Rank(s.ord.orders[o].status) >= Rank(Target(PS.SuccessType(kind)))
  {
    hide QuotesOk, OrdersOk, OrderIntentsOk, TimelinesOk, PaymentIntentsOk, PackageTablesOk, LogsOk, OffsetsOk,
      CaughtUp;
    if id :| Paid(s.pay.payments, id, o, kind) {
      assert HasRowFor(s.pay.outbox, id);
      var k :| 0 <= k < |s.pay.outbox| && s.pay.outbox[k].data.PaymentData? && s.pay.outbox[k].data.paymentId == id;
      assert PaymentRowOk(s.pay.payments, s.pay.outbox[k]);
      RowProcessed(s, owner, k);
      assert HasHappened(s.pay.outbox, s.ord.processed, o, PS.SuccessType(kind));
    }
    if Rank(s.ord.orders[o].status) >= Rank(Target(PS.SuccessType(kind))) {
      assert HasHappened(s.pay.outbox, s.ord.processed, o, PS.SuccessType(kind));
      HappenedIsPaid(s, o, kind);
    }
  }

  /** A state in which no round is possible. */
  ghost predicate AtRest(s: State, owner: Partition -> nat) {
    forall r :: !Enabled(s, owner, r)
  }

  lemma {:induction false} RestIsCaughtUp(s: State, owner: Partition -> nat)
    requires AtRest(s, owner)
    ensures AllMarked(s) && CaughtUp(s.bus, owner)
  {
    forall k | 0 <= k < |s.pay.outbox| ensures (PaymentBox, s.pay.outbox[k].eventId) in s.marked {
      assert !Enabled(s, owner, Poll(k, 0));
    }
    hide Fresh;
    forall p | p in PAYMENT_PARTITIONS ensures PositionOf(s.bus, Cursor(owner(p), p)) >= |Log(s.bus, p)| {
      assert !Enabled(s, owner, Handle(p, Unused(s), 0));
    }
  }

  /** Wherever a fault-free schedule can go no further, orders and payments agree. */
  lemma {:induction false} RestAgrees(s: State, owner: Partition -> nat, rs: seq<Round>)
    requires Inv(s) && IsSchedule(s, owner, rs) && AtRest(PerformAll(s, owner, rs), owner)
    ensures var s' := PerformAll(s, owner, rs);
            s'.pay == s.pay && forall o :: o in s'.ord.orders ==> Agrees(s', o)
  {
    hide Inv, IsSchedule, PerformAll, AtRest, Agrees, Unread, Unpublished;
    EveryScheduleEnds(s, owner, rs);
    var s' := PerformAll(s, owner, rs);
    RestIsCaughtUp(s', owner);
    forall o | o in s'.ord.orders ensures Agrees(s', o) { CaughtUpAgrees(s', owner, o); }
  }

  /** And every reachable state has a schedule that goes that far. */
  lemma {:induction false} FaultFreeDrains(s: State, owner: Partition -> nat) returns (rs: seq<Round>)
    requires Inv(s)
    ensures IsSchedule(s, owner, rs) && AtRest(PerformAll(s, owner, rs), owner)
    ensures |rs| <= 2 * Unpublished(s) + Unread(s, owner)
    ensures var s' := PerformAll(s, owner, rs); forall o :: o in s'.ord.orders ==> Agrees(s', o)
    decreases 2 * Unpublished(s) + Unread(s, owner)
  {
    hide Inv, Enabled, Perform, Agrees, Unread, Unpublished;
    if r :| Enabled(s, owner, r) {
      match r {
        case Poll(k, number) => PollRound(s, owner, k, number);
        case Handle(p, rowId, now) => HandleRound(s, owner, p, rowId, now);
      }
      var later := FaultFreeDrains(Perform(s, owner, r), owner);
      rs := [r] + later;
      assert rs[1..] == later;
    } else {
      rs := [];
      RestAgrees(s, owner, rs);
    }
  }
}
