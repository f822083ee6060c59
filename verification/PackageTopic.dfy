/** Which package events can still be processed, read off the tables and the one log of their topic. */
module PackageTopic {
  import opened Domain
  import opened Text
  import opened OrderStore
  import opened Protocol
  import opened Invariant
  import opened Preservation
  import opened PackageRetries
  import Drain

  /** Where a record is first in a log; its length if it is not there. */
  function FirstIn(log: seq<Record>, r: Record): (j: nat)
    ensures j <= |log| && r !in log[..j] && (j < |log| ==> log[j] == r)
  {
    if log == [] || log[0] == r then 0 else 1 + FirstIn(log[1..], r)
  }

  lemma {:induction false} FirstIsFirst(log: seq<Record>, whole: seq<Record>, r: Record, p: nat)
    requires log <= whole && p < |whole| && whole[p] == r
    ensures FirstIn(log, r) <= p
  {
    if log == [] || log[0] == r {
    } else {
      FirstIsFirst(log[1..], whole[1..], r, p - 1);
    }
  }

  function Before(s: State, e: Envelope): seq<Record> {
    Log(s.bus, PACKAGES)[..FirstIn(Log(s.bus, PACKAGES), Message(e))]
  }

  /** The event itself, and the unprocessed package events ahead of it. */
  predicate Queued(s: State, e: Envelope, x: Envelope) {
    x == e || (x in s.wh.outbox && x.eventId !in s.ord.processed && Message(x) in Before(s, e))
  }

  /** None of them is overtaken, and no two of them belong to one order. */
  ghost predicate CanArrive(s: State, e: Envelope) {
    && (forall x :: Queued(s, e, x) ==> !Overtaken(s, x))
    && (forall x, y :: Queued(s, e, x) && Queued(s, e, y) && x != y ==> x.aggregateId != y.aggregateId)
  }

  ghost predicate Processes(s: State, actions: seq<Action>, e: Envelope) {
    e.eventId in RunAll(s, actions).ord.processed
  }

  // ------------------------------------------------------------------ all ahead are processed first

  lemma {:induction false} PackagesKept(s: State, actions: seq<Action>)
    ensures Extends(s.wh.outbox, RunAll(s, actions).wh.outbox)
  {
    hide Exec;
    if actions == [] {
    } else {
      PackagesKept(s, actions[..|actions| - 1]);
      PackagesStay(RunAll(s, actions[..|actions| - 1]), actions[|actions| - 1]);
    }
  }

  /** Nothing processed becomes unprocessed. */
  lemma {:induction false} ProcessedStays(s: State, a: Action)
    ensures s.ord.processed.Keys <= Exec(s, a).ord.processed.Keys
  {
    hide Exec, ApplyLocked, Decode, CreateOrder;
    OrderWrites(s, a);
    match a
    case InsertOrder(pending, row, now) =>
      CreateKeepsProcessed(s.ord, pending.0, pending.1, CreatedRow(pending.0, pending.1, row, now));
    case Apply(c, row, now) =>
      if Exec(s, a).ord != s.ord {
        var cmd := CommandAt(s, c).value;
        AppliedShape(s.ord, cmd, StatusRow(cmd, row, now));
      }
    case _ =>
  }

  /** When an event gets processed, so is every package event that was ahead of it. */
  lemma {:induction false} AheadIsProcessed(s: State, actions: seq<Action>, e: Envelope, x: Envelope)
    requires Inv(s) && e in s.wh.outbox && x in s.wh.outbox && e.eventId !in s.ord.processed
    requires Message(x) in Before(s, e) && Processes(s, actions, e)
    ensures Processes(s, actions, x)
  {
    hide Inv, Exec;
    if actions == [] {
    } else {
      var init, a := actions[..|actions| - 1], actions[|actions| - 1];
      var before := RunAll(s, init);
      ProcessedStays(before, a);
      if Processes(s, init, e) {
        AheadIsProcessed(s, init, e, x);
      } else {
        Drain.RunKeepsInv(s, init);
        PackagesKept(s, init);
        PackagesStay(before, a);
        LogsStay(s, init, PACKAGES);
        ProcessedBy(before, a, e);
        BelowIsDone(before, a.cursor, Log(s.bus, PACKAGES), e, x);
      }
    }
  }

  /** A consumer at a record is past all that was ahead of its first occurrence. */
  lemma {:induction false} BelowIsDone(s: State, c: Cursor, log: seq<Record>, e: Envelope, x: Envelope)
    requires Inv(s) && c.partition == PACKAGES && Current(s.bus, c) == Some(Message(e)) && x in s.wh.outbox
    requires log <= Log(s.bus, PACKAGES) && Message(x) in log[..FirstIn(log, Message(e))]
    ensures x.eventId in s.ord.processed
  {
    hide Inv, FirstIn;
    var j, p := FirstIn(log, Message(e)), PositionOf(s.bus, c);
    FirstIsFirst(log, Log(s.bus, PACKAGES), Message(e), p);
    var i :| 0 <= i < j && log[i] == Message(x);
    assert Log(s.bus, PACKAGES)[i] == Message(x);
    PastIsProcessed(s, c, i, x);
  }

  /** A package event that is a record below a consumer's position is processed. */
  lemma {:induction false} PastIsProcessed(s: State, c: Cursor, i: nat, x: Envelope)
    requires Inv(s) && c.partition == PACKAGES && x in s.wh.outbox
    requires i < |Log(s.bus, PACKAGES)| && Log(s.bus, PACKAGES)[i] == Message(x)
    ensures i < PositionOf(s.bus, c) ==> x.eventId in s.ord.processed
  {
    RowDecodes(s, x);
    hide Decode, QuotesOk, OrdersOk, OrderIntentsOk, TimelinesOk, PaymentTablesOk, PaymentIntentsOk, PackageTablesOk,
      EventsOk, OrderRowsOk, LogsOk, OffsetsOk;
    PositionDone(s.ord.processed, s.bus, c);
  }

  // ------------------------------------------------------------------ one arrival an order

  /** Of two package events of one order at most one is ever processed. */
  lemma {:induction false} OneArrival(s: State, actions: seq<Action>, x: Envelope, y: Envelope)
    requires Inv(s) && x in s.wh.outbox && y in s.wh.outbox && x != y && x.aggregateId == y.aggregateId
    requires x.eventId !in s.ord.processed && y.eventId !in s.ord.processed
    ensures var s' := RunAll(s, actions);
            (x.eventId !in s'.ord.processed && y.eventId !in s'.ord.processed) || Overtaken(s', x) || Overtaken(s', y)
  {
    hide Inv, Exec, Overtaken;
    if actions == [] {
    } else {
      var init, a := actions[..|actions| - 1], actions[|actions| - 1];
      var before := RunAll(s, init);
      OneArrival(s, init, x, y);
      Drain.RunKeepsInv(s, init);
      if Overtaken(before, x) {
        OvertakenStays(before, a, x);
      } else if Overtaken(before, y) {
        OvertakenStays(before, a, y);
      } else {
        PackagesKept(s, init);
        PackagesStay(before, a);
        if x.eventId in Exec(before, a).ord.processed { ArrivedFirst(before, a, x, y); }
        if y.eventId in Exec(before, a).ord.processed { ArrivedFirst(before, a, y, x); }
      }
    }
  }

  lemma {:induction false} ArrivedFirst(s: State, a: Action, x: Envelope, y: Envelope)
    requires Inv(s) && x in s.wh.outbox && y in s.wh.outbox && x != y && x.aggregateId == y.aggregateId
    requires x.eventId !in s.ord.processed && y.eventId !in s.ord.processed
    requires x in Exec(s, a).wh.outbox && x.eventId in Exec(s, a).ord.processed
    ensures Overtaken(Exec(s, a), y)
  {
    hide Inv, Exec, Overtaken;
    ProcessedBy(s, a, x);
    if x.eventId == y.eventId { SameEvent(s, x, y); }
    ArrivalOvertakes(s, a.cursor, a.row, a.now, y);
  }

  lemma {:induction false} OnlyIfCanArrive(s: State, actions: seq<Action>, e: Envelope)
    requires Inv(s) && e in s.wh.outbox && e.eventId !in s.ord.processed && Processes(s, actions, e)
    ensures CanArrive(s, e)
  {
    hide Inv, RunAll, Overtaken, Before;
    forall x | Queued(s, e, x) ensures x in s.wh.outbox && Processes(s, actions, x) && !Overtaken(s, x) {
      if x != e { AheadIsProcessed(s, actions, e, x); }
      if Overtaken(s, x) { StaysUnprocessed(s, actions, x); }
    }
    forall x, y | Queued(s, e, x) && Queued(s, e, y) && x != y ensures x.aggregateId != y.aggregateId {
      if x.aggregateId == y.aggregateId {
        OneArrival(s, actions, x, y);
        OvertakenFacts(RunAll(s, actions), x);
        OvertakenFacts(RunAll(s, actions), y);
      }
    }
  }

  lemma {:induction false} OvertakenFacts(s: State, x: Envelope)
    ensures Overtaken(s, x) ==> x in s.wh.outbox && x.eventId !in s.ord.processed
  {
  }

  lemma {:induction false} StaysUnprocessed(s: State, actions: seq<Action>, x: Envelope)
    requires Inv(s) && Overtaken(s, x)
    ensures !Processes(s, actions, x)
  {
    hide Inv, RunAll, Overtaken;
    OvertakenForever(s, actions, x);
    OvertakenFacts(RunAll(s, actions), x);
  }

  // ------------------------------------------------------------------ a run that gets there

  /** Getting past one record leaves those behind it in the queue as they were. */
  lemma {:induction false} QueueMoves(s: State, s': State, c: Cursor, e: Envelope)
    requires Inv(s) && c.partition == PACKAGES && Current(s.bus, c).Some? && PastRecord(s, s', c)
    requires CanArrive(s, e) && PositionOf(s.bus, c) < |Before(s, e)| && e in s.wh.outbox
    requires e.eventId !in s.ord.processed && e.eventId !in s'.ord.processed
    ensures CanArrive(s', e)
  {
    hide Inv, Decode, FirstIn;
    var r := Current(s.bus, c).value;
    assert Before(s', e) == Before(s, e);
    forall x | Queued(s', e, x) ensures Queued(s, e, x) { }
    if Decode(PackageReceivedV1, r).Run? {
      var cmd := Decode(PackageReceivedV1, r).cmd;
      RecordIsPackage(s, c);
      if cmd.eventId !in s.ord.processed {
        assert Before(s, e)[PositionOf(s.bus, c)] == r;
        assert Queued(s, e, r.envelope);
        forall x | Queued(s', e, x) ensures x.aggregateId != cmd.orderId && !Overtaken(s', x) {
          assert x != r.envelope;
          assert !Overtaken(s, x);
          assert x in s.wh.outbox;
          RowDecodes(s, x);
        }
      }
    }
  }

  /** What is decoded to a command is a package event with its own ID and order. */
  lemma {:induction false} RecordIsPackage(s: State, c: Cursor)
    requires Inv(s) && c.partition == PACKAGES && Current(s.bus, c).Some?
    requires Decode(PackageReceivedV1, Current(s.bus, c).value).Run?
    ensures var r, cmd := Current(s.bus, c).value, Decode(PackageReceivedV1, Current(s.bus, c).value).cmd;
            r.Message? && r.envelope in s.wh.outbox && cmd.eventId == r.envelope.eventId
            && cmd.orderId == r.envelope.aggregateId
  {
    hide Inv, Decode;
    RunComesFromInv(s, c);
    PackageRecord(s, Current(s.bus, c).value.envelope);
    RowDecodes(s, Current(s.bus, c).value.envelope);
  }

  /** The next record of a consumer that has still to reach the event is none that is overtaken. */
  lemma {:induction false} NotBlocked(s: State, c: Cursor, e: Envelope)
    requires Inv(s) && c.partition == PACKAGES && CanArrive(s, e) && e in s.wh.outbox
    requires e.eventId !in s.ord.processed && FirstIn(Log(s.bus, PACKAGES), Message(e)) < |Log(s.bus, PACKAGES)|
    ensures PositionOf(s.bus, c) <= |Before(s, e)| && Current(s.bus, c).Some?
    ensures PositionOf(s.bus, c) == |Before(s, e)| ==> Current(s.bus, c) == Some(Message(e))
    ensures var r := Current(s.bus, c).value; !(r.Message? && Overtaken(s, r.envelope))
  {
    hide Inv, FirstIn, Overtaken;
    var j, p := FirstIn(Log(s.bus, PACKAGES), Message(e)), PositionOf(s.bus, c);
    PastIsProcessed(s, c, j, e);
    var r := Current(s.bus, c).value;
    assert p < j ==> Before(s, e)[p] == r;
    if r.Message? && r.envelope in s.wh.outbox && r.envelope.eventId !in s.ord.processed {
      assert Queued(s, e, r.envelope);
    } else if r.Message? {
      OvertakenFacts(s, r.envelope);
    }
  }

  /** A consumer goes through the queue record by record. */
  lemma {:induction false} WalkTo(s: State, c: Cursor, e: Envelope) returns (actions: seq<Action>)
    requires Inv(s) && c.partition == PACKAGES && CanArrive(s, e) && e in s.wh.outbox
    requires FirstIn(Log(s.bus, PACKAGES), Message(e)) < |Log(s.bus, PACKAGES)|
    ensures Processes(s, actions, e)
    decreases if PositionOf(s.bus, c) <= |Before(s, e)| then |Before(s, e)| + 1 - PositionOf(s.bus, c) else 0
  {
    hide Inv, CanArrive, RunAll, Overtaken, FirstIn, PastRecord;
    if e.eventId in s.ord.processed {
      actions := [];
      Nothing(s);
    } else {
      NotBlocked(s, c, e);
      var step := WayPast(s, c);
      var s' := RunAll(s, step);
      Drain.RunKeepsInv(s, step);
      PastFacts(s, s', c, e);
      var later := [];
      if PositionOf(s.bus, c) < |Before(s, e)| && e.eventId !in s'.ord.processed {
        QueueMoves(s, s', c, e);
        later := WalkTo(s', c, e);
      } else {
        Nothing(s');
      }
      actions := step + later;
      Drain.RunTwice(s, step, later);
    }
  }

  lemma {:induction false} Nothing(s: State)
    ensures RunAll(s, []) == s
  {
  }

  lemma {:induction false} PastFacts(s: State, s': State, c: Cursor, e: Envelope)
    requires Inv(s) && c.partition == PACKAGES && Current(s.bus, c).Some? && PastRecord(s, s', c) && e in s.wh.outbox
    ensures s'.wh == s.wh && Log(s'.bus, PACKAGES) == Log(s.bus, PACKAGES)
    ensures PositionOf(s'.bus, c) == PositionOf(s.bus, c) + 1
    ensures Current(s.bus, c) == Some(Message(e)) ==> e.eventId in s'.ord.processed
  {
    hide Inv, Decode;
    RowDecodes(s, e);
  }

  /** Publishing an event that is in no record yet puts it behind all of them. */
  lemma {:induction false} Published(s: State, k: nat, e: Envelope)
    requires Inv(s) && k < |s.wh.outbox| && s.wh.outbox[k] == e && CanArrive(s, e)
    requires FirstIn(Log(s.bus, PACKAGES), Message(e)) == |Log(s.bus, PACKAGES)|
    ensures var s' := Exec(s, Publish(WarehouseBox, k, 0));
            && s'.wh == s.wh && CanArrive(s', e)
            && FirstIn(Log(s'.bus, PACKAGES), Message(e)) < |Log(s'.bus, PACKAGES)|
  {
    hide Inv, FirstIn;
    RowDecodes(s, e);
    var s' := Exec(s, Publish(WarehouseBox, k, 0));
    var log := Log(s.bus, PACKAGES);
    assert s' == s.(bus := Append(s.bus, PACKAGES, Message(e)));
    var j := FirstIn(log + [Message(e)], Message(e));
    FirstIsFirst(log + [Message(e)], log + [Message(e)], Message(e), |log|);
    FirstIsFirst(log, log + [Message(e)], Message(e), j);
    assert Before(s', e) == Before(s, e);
    forall x ensures Queued(s', e, x) <==> Queued(s, e, x) { }
    forall x ensures Overtaken(s', x) <==> Overtaken(s, x) { }
  }

  /** A stored package event that is not processed yet is processed in some continuation if and only
      if it and the unprocessed package events ahead of it in the log belong to different orders, none
      of which has arrived. An event that was never published has the whole log ahead of it. */
  lemma {:induction false} ProcessedUnlessBlocked(s: State, e: Envelope)
    requires Inv(s) && e in s.wh.outbox && e.eventId !in s.ord.processed
    ensures (exists actions :: Processes(s, actions, e)) <==> CanArrive(s, e)
  {
    hide Inv, CanArrive, Processes, FirstIn, Exec;
    if actions :| Processes(s, actions, e) {
      OnlyIfCanArrive(s, actions, e);
    }
    if CanArrive(s, e) {
      var actions := WayTo(s, e);
    }
  }

  lemma {:induction false} WayTo(s: State, e: Envelope) returns (actions: seq<Action>)
    requires Inv(s) && e in s.wh.outbox && CanArrive(s, e)
    ensures Processes(s, actions, e)
  {
    hide Inv, CanArrive, FirstIn, Exec, RunAll;
    var c := Cursor(0, PACKAGES);
    if FirstIn(Log(s.bus, PACKAGES), Message(e)) < |Log(s.bus, PACKAGES)| {
      actions := WalkTo(s, c, e);
    } else {
      var k :| 0 <= k < |s.wh.outbox| && s.wh.outbox[k] == e;
      var publish := Publish(WarehouseBox, k, 0);
      Published(s, k, e);
      ExecKeepsInv(s, publish);
      var later := WalkTo(Exec(s, publish), c, e);
      actions := [publish] + later;
      Drain.RunOne(s, publish);
      Drain.RunTwice(s, [publish], later);
    }
  }
}
