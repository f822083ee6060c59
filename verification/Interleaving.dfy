/** Status transactions of concurrent consumers, statement group by statement group: the processed
    check, the row lock with its read, and the guarded writes up to COMMIT interleave freely. */
module Interleaving {
  import opened Domain
  import opened OrderStore

  /** Where a consumer's transaction stands; order is the row it read under its lock. */
  datatype Phase = Idle | Checked(cmd: StatusCommand) | Locked(cmd: StatusCommand, order: Order)

  /** The committed tables, the row locks held, and the open transactions. */
  datatype System = System(db: OrderDb, locks: map<Id, nat>, phases: map<nat, Phase>)

  datatype Step =
    | Check(worker: nat, cmd: StatusCommand)
    | Lock(worker: nat)
    | Finish(worker: nat, row: Envelope)
    | Crash(worker: nat)
    | Insert(orderId: Id, order: Order, row: Envelope)

  function PhaseOf(s: System, w: nat): Phase {
    if w in s.phases then s.phases[w] else Idle
  }

  /** Ending a transaction gives its lock back. */
  function End(s: System, w: nat): System {
    s.(phases := s.phases[w := Idle], locks := map o | o in s.locks && s.locks[o] != w :: s.locks[o])
  }

  /** The guards as the code evaluates them: on the row read earlier, not on the table. */
  predicate Passes(order: Order, cmd: StatusCommand) {
    && (cmd.amount > 0 ==> cmd.amount == ExpectedAmount(order, cmd.target))
    && CanTransition(order.status, cmd.target)
  }

  /** The four writes; the primary keys are checked against what is committed now. */
  function Write(db: OrderDb, cmd: StatusCommand, order: Order, row: Envelope): OrderDb {
    if !Passes(order, cmd) || cmd.eventId in db.processed || HasId(db.outbox, row.eventId) then db
    else
      db.(orders := db.orders[cmd.orderId := order.(status := cmd.target)],
          timeline := db.timeline[cmd.orderId := TimelineOf(db, cmd.orderId) + [cmd.target]],
          processed := db.processed[cmd.eventId := cmd.eventType],
          outbox := db.outbox + [row])
  }

  function Do(s: System, step: Step): System {
    match step
    case Check(w, cmd) =>
      if PhaseOf(s, w) != Idle || cmd.eventId in s.db.processed then s
      else s.(phases := s.phases[w := Checked(cmd)])
    case Lock(w) =>
      var phase := PhaseOf(s, w);
      if !phase.Checked? || phase.cmd.orderId in s.locks then s
      else if phase.cmd.orderId !in s.db.orders then End(s, w)
      else s.(locks := s.locks[phase.cmd.orderId := w],
              phases := s.phases[w := Locked(phase.cmd, s.db.orders[phase.cmd.orderId])])
    case Finish(w, row) =>
      var phase := PhaseOf(s, w);
      if !phase.Locked? then s else End(s.(db := Write(s.db, phase.cmd, phase.order, row)), w)
    case Crash(w) => End(s, w)
    case Insert(o, order, row) => s.(db := CreateOrder(s.db, o, order, row).0)
  }

  function DoAll(s: System, steps: seq<Step>): System {
    if steps == [] then s else Do(DoAll(s, steps[..|steps| - 1]), steps[|steps| - 1])
  }

  /** A locked row is held by one worker, and the row it read is still the row in the table. */
  ghost predicate LocksHold(s: System) {
    && (forall w :: w in s.phases && s.phases[w].Locked? ==>
          var o := s.phases[w].cmd.orderId;
          o in s.locks && s.locks[o] == w && o in s.db.orders && s.db.orders[o] == s.phases[w].order)
    && (forall o :: o in s.locks ==>
          s.locks[o] in s.phases && s.phases[s.locks[o]].Locked? && s.phases[s.locks[o]].cmd.orderId == o)
  }

  /** What a transaction writes from its earlier read is what one atomic transaction would write. */
  lemma {:induction false} WriteIsAtomic(s: System, w: nat, row: Envelope)
    requires LocksHold(s) && PhaseOf(s, w).Locked?
    ensures Write(s.db, PhaseOf(s, w).cmd, PhaseOf(s, w).order, row) == ApplyLocked(s.db, PhaseOf(s, w).cmd, row).0
  {
  }

  lemma {:induction false} DoKeepsLocks(s: System, step: Step)
    requires LocksHold(s)
    ensures LocksHold(Do(s, step))
  {
    hide CanTransition, Refusal;
    if step.Finish? && PhaseOf(s, step.worker).Locked? {
      WriteOneRow(s.db, PhaseOf(s, step.worker).cmd, PhaseOf(s, step.worker).order, step.row);
      EndKeepsLocks(s, s.(db := Write(s.db, PhaseOf(s, step.worker).cmd, PhaseOf(s, step.worker).order, step.row)),
        step.worker);
    } else if step.Crash? || step.Lock? {
      EndKeepsLocks(s, s, step.worker);
    }
  }

  lemma {:induction false} WriteOneRow(db: OrderDb, cmd: StatusCommand, order: Order, row: Envelope)
    ensures forall o :: o in db.orders && o != cmd.orderId ==>
              o in Write(db, cmd, order, row).orders && Write(db, cmd, order, row).orders[o] == db.orders[o]
  {
  }

  /** Ending a transaction after it changed at most the row it had locked. */
  lemma {:induction false} EndKeepsLocks(s: System, s': System, w: nat)
    requires LocksHold(s) && s'.locks == s.locks && s'.phases == s.phases
    requires forall o :: o in s.db.orders && !(PhaseOf(s, w).Locked? && PhaseOf(s, w).cmd.orderId == o) ==>
               o in s'.db.orders && s'.db.orders[o] == s.db.orders[o]
    ensures LocksHold(End(s', w))
  {
  }

  lemma {:induction false} LocksAlwaysHold(db: OrderDb, steps: seq<Step>)
    ensures LocksHold(DoAll(System(db, map[], map[]), steps))
  {
    hide Do, LocksHold;
    if steps != [] {
      LocksAlwaysHold(db, steps[..|steps| - 1]);
      DoKeepsLocks(DoAll(System(db, map[], map[]), steps[..|steps| - 1]), steps[|steps| - 1]);
    } else {
      assert LocksHold(System(db, map[], map[])) by { NoLocks(db); }
    }
  }

  lemma {:induction false} NoLocks(db: OrderDb)
    ensures LocksHold(System(db, map[], map[]))
  {
  }

  /** Every interleaved run changes the tables only by whole atomic transactions. */
  lemma {:induction false} InterleavingIsAtomic(db: OrderDb, steps: seq<Step>, step: Step)
    ensures var s := DoAll(System(db, map[], map[]), steps); var after := Do(s, step).db;
            || after == s.db
            || (step.Insert? && after == CreateOrder(s.db, step.orderId, step.order, step.row).0)
            || (step.Finish? && PhaseOf(s, step.worker).Locked?
                && ApplyLocked(s.db, PhaseOf(s, step.worker).cmd, step.row) == (after, Applied))
  {
    LocksAlwaysHold(db, steps);
    var s := DoAll(System(db, map[], map[]), steps);
    if step.Finish? && PhaseOf(s, step.worker).Locked? {
      WriteIsAtomic(s, step.worker, step.row);
    }
  }

  /** A worker that meets no lock does the whole transaction. */
  lemma {:induction false} Unhindered(s: System, w: nat, cmd: StatusCommand, row: Envelope)
    requires PhaseOf(s, w) == Idle && cmd.orderId !in s.locks
    ensures Do(Do(Do(s, Check(w, cmd)), Lock(w)), Finish(w, row)).db == ProcessEvent(s.db, cmd, row).0
  {
    hide CanTransition, HasId, TimelineOf;
  }

  // ------------------------------------------------------------------ at most one winner per event

  /** The transactions of a run that changed the tables on behalf of an event. */
  function Wins(s: System, steps: seq<Step>, eventId: Id): nat {
    if steps == [] then 0
    else
      var before, step := DoAll(s, steps[..|steps| - 1]), steps[|steps| - 1];
      Wins(s, steps[..|steps| - 1], eventId) +
      if step.Finish? && PhaseOf(before, step.worker).Locked? && PhaseOf(before, step.worker).cmd.eventId == eventId
         && Do(before, step).db != before.db then 1 else 0
  }

  lemma {:induction false} WinsAreProcessed(s: System, steps: seq<Step>, eventId: Id)
    ensures Wins(s, steps, eventId) + (if eventId in s.db.processed then 1 else 0)
         == if eventId in DoAll(s, steps).db.processed then 1 else 0
  {
    if steps == [] {
    } else {
      WinsAreProcessed(s, steps[..|steps| - 1], eventId);
      hide Passes;
    }
  }

  /** However many consumers handle one event at once, exactly one of them changes anything, and it
      does so if and only if the event ends up processed. A transaction that loses the race leaves
      every table as it was, and the next check finds the event processed. */
  lemma {:induction false} OneWinnerPerEvent(s: System, steps: seq<Step>, eventId: Id, w: nat, row: Envelope)
    requires eventId !in s.db.processed
    ensures Wins(s, steps, eventId) <= 1
    ensures Wins(s, steps, eventId) == 1 <==> eventId in DoAll(s, steps).db.processed
    ensures var now := DoAll(s, steps);
            eventId in now.db.processed && PhaseOf(now, w).Locked? && PhaseOf(now, w).cmd.eventId == eventId ==>
              Do(now, Finish(w, row)).db == now.db
              && Do(Do(now, Finish(w, row)), Check(w, PhaseOf(now, w).cmd)) == Do(now, Finish(w, row))
  {
    hide DoAll, Wins, Passes;
    WinsAreProcessed(s, steps, eventId);
  }
}
