/** Settlements of concurrent webhooks and manual confirmations, statement group by statement group:
    the reading before the transaction, the callback check, the row lock with its read, and the
    guarded writes up to COMMIT interleave freely. */
module PaymentInterleaving {
  import opened Domain
  import opened Text
  import opened PaymentStore
  import Guarantees

  /** What a settlement carries into its transaction: the webhook's callback ID, none for a manual
      confirmation, and the outbox row prepared from an earlier reading of the payment. */
  datatype Request = Request(id: Id, callback: Option<string>, row: Envelope)

  /** Where a settlement stands; payment is the row it read under its lock. */
  datatype Phase = Idle | Prepared(r: Request) | Checked(r: Request) | Locked(r: Request, payment: Payment)

  /** The committed tables, the row locks held, and the open settlements. */
  datatype System = System(db: PaymentDb, locks: map<Id, nat>, phases: map<nat, Phase>)

  datatype Step =
    | Read(worker: nat, id: Id, callback: Option<string>, eventId: Id, now: int)
    | Check(worker: nat)
    | Lock(worker: nat)
    | Finish(worker: nat)
    | Crash(worker: nat)
    | Insert(id: Id, payment: Payment)

  function PhaseOf(s: System, w: nat): Phase {
    if w in s.phases then s.phases[w] else Idle
  }

  /** Ending a transaction gives its lock back. */
  function End(s: System, w: nat): System {
    s.(phases := s.phases[w := Idle], locks := map id | id in s.locks && s.locks[id] != w :: s.locks[id])
  }

  predicate IsRecorded(db: PaymentDb, callback: Option<string>) {
    callback.Some? && callback.value in db.callbacks
  }

  /** The writes as the code decides them: on the row read earlier, not on the table. The primary keys
      are checked against what is committed now. */
  function Write(db: PaymentDb, r: Request, payment: Payment): PaymentDb {
    if IsRecorded(db, r.callback) then db
    else
      var noted := if r.callback.Some? then db.(callbacks := db.callbacks[r.callback.value := r.id]) else db;
      if payment.status == Succeeded then noted
      else if !CanSettle(payment.status) || HasId(db.outbox, r.row.eventId) then db
      else
        noted.(payments := db.payments[r.id := payment.(status := Succeeded)], outbox := db.outbox + [r.row])
  }

  /** The whole transaction at once. */
  function Atomic(db: PaymentDb, r: Request): PaymentDb {
    match r.callback
    case Some(callback) => SucceedCallback(db, r.id, callback, r.row).0
    case None => Succeed(db, r.id, r.row).0
  }

  function Do(s: System, step: Step): System {
    match step
    case Read(w, id, callback, eventId, now) =>
      if PhaseOf(s, w) != Idle || id !in s.db.payments || s.db.payments[id].kind == Refund then s
      else
        s.(phases := s.phases[w := Prepared(Request(id, callback, SuccessRow(id, s.db.payments[id], eventId, now)))])
    case Check(w) =>
      var phase := PhaseOf(s, w);
      if !phase.Prepared? then s
      else if IsRecorded(s.db, phase.r.callback) then End(s, w)
      else s.(phases := s.phases[w := Checked(phase.r)])
    case Lock(w) =>
      var phase := PhaseOf(s, w);
      if !phase.Checked? || phase.r.id in s.locks then s
      else if phase.r.id !in s.db.payments then End(s, w)
      else s.(locks := s.locks[phase.r.id := w], phases := s.phases[w := Locked(phase.r, s.db.payments[phase.r.id])])
    case Finish(w) =>
      var phase := PhaseOf(s, w);
      if !phase.Locked? then s else End(s.(db := Write(s.db, phase.r, phase.payment)), w)
    case Crash(w) => End(s, w)
    case Insert(id, payment) =>
      if payment.status == Pending then s.(db := CreatePayment(s.db, id, payment).0) else s
  }

  function DoAll(s: System, steps: seq<Step>): System {
    if steps == [] then s else Do(DoAll(s, steps[..|steps| - 1]), steps[|steps| - 1])
  }

  const EMPTY: System := System(PaymentDb(map[], map[], []), map[], map[])

  // ------------------------------------------------------------------ locks

  /** A locked row is held by one worker, and the row it read is still the row in the table. */
  ghost predicate LocksHold(s: System) {
    && (forall w :: w in s.phases && s.phases[w].Locked? ==>
          var id := s.phases[w].r.id;
          id in s.locks && s.locks[id] == w && id in s.db.payments && s.db.payments[id] == s.phases[w].payment)
    && (forall id :: id in s.locks ==>
          s.locks[id] in s.phases && s.phases[s.locks[id]].Locked? && s.phases[s.locks[id]].r.id == id)
  }

  /** What a settlement writes from its earlier read is what one atomic transaction would write. */
  lemma {:induction false} WriteIsAtomic(s: System, w: nat)
    requires LocksHold(s) && PhaseOf(s, w).Locked?
    ensures Write(s.db, PhaseOf(s, w).r, PhaseOf(s, w).payment) == Atomic(s.db, PhaseOf(s, w).r)
  {
  }

  lemma {:induction false} DoKeepsLocks(s: System, step: Step)
    requires LocksHold(s)
    ensures LocksHold(Do(s, step))
  {
    hide IsRecorded;
    if step.Finish? && PhaseOf(s, step.worker).Locked? {
      var phase := PhaseOf(s, step.worker);
      WriteOneRow(s.db, phase.r, phase.payment);
      EndKeepsLocks(s, s.(db := Write(s.db, phase.r, phase.payment)), step.worker);
    } else if step.Crash? || step.Lock? || step.Check? {
      EndKeepsLocks(s, s, step.worker);
    }
  }

  lemma {:induction false} WriteOneRow(db: PaymentDb, r: Request, payment: Payment)
    ensures forall id :: id in db.payments && id != r.id ==>
              id in Write(db, r, payment).payments && Write(db, r, payment).payments[id] == db.payments[id]
  {
  }

  /** Ending a transaction after it changed at most the row it had locked. */
  lemma {:induction false} EndKeepsLocks(s: System, s': System, w: nat)
    requires LocksHold(s) && s'.locks == s.locks && s'.phases == s.phases
    requires forall id :: id in s.db.payments && !(PhaseOf(s, w).Locked? && PhaseOf(s, w).r.id == id) ==>
               id in s'.db.payments && s'.db.payments[id] == s.db.payments[id]
    ensures LocksHold(End(s', w))
  {
  }

  lemma {:induction false} LocksAlwaysHold(steps: seq<Step>)
    ensures LocksHold(DoAll(EMPTY, steps))
  {
    hide Do;
    if steps == [] {
    } else {
      LocksAlwaysHold(steps[..|steps| - 1]);
      DoKeepsLocks(DoAll(EMPTY, steps[..|steps| - 1]), steps[|steps| - 1]);
    }
  }

  /** Every interleaved run changes the tables only by whole atomic transactions. */
  lemma {:induction false} InterleavingIsAtomic(steps: seq<Step>, step: Step)
    ensures var s := DoAll(EMPTY, steps); var after := Do(s, step).db;
            || after == s.db
            || (step.Insert? && after == CreatePayment(s.db, step.id, step.payment).0)
            || (step.Finish? && PhaseOf(s, step.worker).Locked? && after == Atomic(s.db, PhaseOf(s, step.worker).r))
  {
    hide Write, Atomic;
    LocksAlwaysHold(steps);
    var s := DoAll(EMPTY, steps);
    if step.Finish? && PhaseOf(s, step.worker).Locked? { WriteIsAtomic(s, step.worker); }
  }

  /** A settlement that meets no lock is the whole transaction. */
  lemma {:induction false} Unhindered(s: System, w: nat, id: Id, callback: Option<string>, eventId: Id, now: int)
    requires PhaseOf(s, w) == Idle && id in s.db.payments && s.db.payments[id].kind != Refund && id !in s.locks
    ensures Do(Do(Do(Do(s, Read(w, id, callback, eventId, now)), Check(w)), Lock(w)), Finish(w)).db
         == Atomic(s.db, Request(id, callback, SuccessRow(id, s.db.payments[id], eventId, now)))
  {
    hide HasId;
  }

  // ------------------------------------------------------------------ one success row

  /** A succeeded payment has one success row with its own data, a pending one and an unknown one none. */
  ghost predicate RowsFit(db: PaymentDb, id: Id) {
    var rows := Guarantees.RowsFor(db.outbox, id);
    if id in db.payments && db.payments[id].status == Succeeded
    then |rows| == 1 && rows[0] == SuccessRow(id, db.payments[id], rows[0].eventId, rows[0].occurredAt)
    else rows == [] && (id in db.payments ==> db.payments[id].status == Pending)
  }

  /** The row a settlement carries is one of the payment it names, as that stands now. */
  predicate RequestFits(db: PaymentDb, r: Request) {
    r.id in db.payments && r.row == SuccessRow(r.id, db.payments[r.id], r.row.eventId, r.row.occurredAt)
  }

  ghost predicate RequestsFit(s: System) {
    forall w :: w in s.phases && !s.phases[w].Idle? ==> RequestFits(s.db, s.phases[w].r)
  }

  /** Payments keep everything but their status. */
  predicate TermsStay(a: PaymentDb, b: PaymentDb) {
    forall id :: id in a.payments ==>
      id in b.payments && b.payments[id] == a.payments[id].(status := b.payments[id].status)
  }

  lemma {:induction false} RowsForAppend(rows: seq<Envelope>, e: Envelope, id: Id)
    ensures Guarantees.RowsFor(rows + [e], id)
         == Guarantees.RowsFor(rows, id) + if e.data.PaymentData? && e.data.paymentId == id then [e] else []
  {
  }

  /** A settlement leaves payments and outbox alone or settles its pending payment with its row. */
  lemma {:induction false} AtomicShape(db: PaymentDb, r: Request)
    ensures var db' := Atomic(db, r);
            || (db'.payments == db.payments && db'.outbox == db.outbox)
            || (r.id in db.payments && db.payments[r.id].status == Pending && db'.outbox == db.outbox + [r.row]
                && db'.payments == db.payments[r.id := db.payments[r.id].(status := Succeeded)])
  {
    hide HasId;
  }

  lemma {:induction false} AtomicFits(db: PaymentDb, r: Request, id: Id)
    requires RowsFit(db, id) && RequestFits(db, r)
    ensures RowsFit(Atomic(db, r), id) && TermsStay(db, Atomic(db, r))
  {
    AtomicShape(db, r);
    RowsForAppend(db.outbox, r.row, id);
    hide Atomic, Guarantees.RowsFor;
  }

  lemma {:induction false} CreateFits(db: PaymentDb, x: Id, payment: Payment, id: Id)
    requires RowsFit(db, id) && payment.status == Pending
    ensures RowsFit(CreatePayment(db, x, payment).0, id) && TermsStay(db, CreatePayment(db, x, payment).0)
  {
  }

  lemma {:induction false} RequestsStay(s: System, step: Step)
    requires RequestsFit(s) && TermsStay(s.db, Do(s, step).db)
    ensures RequestsFit(Do(s, step))
  {
    hide Write, CreatePayment, IsRecorded;
  }

  lemma {:induction false} FitsAlways(steps: seq<Step>, id: Id)
    ensures var s := DoAll(EMPTY, steps); RowsFit(s.db, id) && RequestsFit(s)
  {
    if steps == [] {
    } else {
      hide RowsFit, TermsStay, Write, Atomic, CreatePayment;
      var init, step := steps[..|steps| - 1], steps[|steps| - 1];
      var s := DoAll(EMPTY, init);
      FitsAlways(init, id);
      LocksAlwaysHold(init);
      TermsSame(s.db);
      if step.Finish? && PhaseOf(s, step.worker).Locked? {
        WriteIsAtomic(s, step.worker);
        AtomicFits(s.db, PhaseOf(s, step.worker).r, id);
      } else if step.Insert? && step.payment.status == Pending {
        CreateFits(s.db, step.id, step.payment, id);
      }
      RequestsStay(s, step);
    }
  }

  lemma {:induction false} TermsSame(db: PaymentDb)
    ensures TermsStay(db, db)
  {
  }

  /** At any interleaving of any number of webhooks and manual confirmations, a succeeded payment has
      exactly one success row, carrying its own order, amount and type, and a pending one has none. */
  lemma {:induction false} OneSuccessRow(steps: seq<Step>, id: Id)
    requires id in DoAll(EMPTY, steps).db.payments
    ensures var db := DoAll(EMPTY, steps).db; var p := db.payments[id]; var rows := Guarantees.RowsFor(db.outbox, id);
            if p.status == Succeeded
            then |rows| == 1 && rows[0] == SuccessRow(id, p, rows[0].eventId, rows[0].occurredAt)
            else p.status == Pending && rows == []
  {
    FitsAlways(steps, id);
  }

  // ------------------------------------------------------------------ at most one winner per callback

  predicate Carries(phase: Phase, callback: string) {
    !phase.Idle? && phase.r.callback == Some(callback)
  }

  /** The transactions of a run that changed the tables on behalf of a callback. */
  function Wins(s: System, steps: seq<Step>, callback: string): nat {
    if steps == [] then 0
    else
      var before, step := DoAll(s, steps[..|steps| - 1]), steps[|steps| - 1];
      Wins(s, steps[..|steps| - 1], callback) +
      if step.Finish? && Carries(PhaseOf(before, step.worker), callback) && Do(before, step).db != before.db
      then 1 else 0
  }

  lemma {:induction false} WinsAreRecorded(s: System, steps: seq<Step>, callback: string)
    ensures Wins(s, steps, callback) + (if callback in s.db.callbacks then 1 else 0)
         == if callback in DoAll(s, steps).db.callbacks then 1 else 0
  {
    if steps == [] {
    } else {
      WinsAreRecorded(s, steps[..|steps| - 1], callback);
      StepRecords(DoAll(s, steps[..|steps| - 1]), steps[|steps| - 1], callback);
      hide Do, Carries;
    }
  }

  /** A callback gets recorded by exactly those transactions that change anything on its behalf. */
  lemma {:induction false} StepRecords(s: System, step: Step, callback: string)
    ensures callback in Do(s, step).db.callbacks
       <==> callback in s.db.callbacks
            || (step.Finish? && Carries(PhaseOf(s, step.worker), callback) && Do(s, step).db != s.db)
    ensures callback in s.db.callbacks && step.Finish? && Carries(PhaseOf(s, step.worker), callback) ==>
              Do(s, step).db == s.db
  {
  }

  /** However many webhooks carry one callback ID, for one payment or for several, exactly one of them
      changes anything, if the callback ends up recorded at all. One that loses the race leaves every
      table as it was, and a webhook that comes later ends at the check. */
  lemma {:induction false} OneWinnerPerCallback(s: System, steps: seq<Step>, callback: string, w: nat)
    requires callback !in s.db.callbacks
    ensures Wins(s, steps, callback) <= 1
    ensures Wins(s, steps, callback) == 1 <==> callback in DoAll(s, steps).db.callbacks
    ensures var now := DoAll(s, steps);
            callback in now.db.callbacks && Carries(PhaseOf(now, w), callback) ==>
              Do(now, Finish(w)).db == now.db
              && (PhaseOf(now, w).Prepared? ==> Do(now, Check(w)) == End(now, w))
  {
    WinsAreRecorded(s, steps, callback);
    StepRecords(DoAll(s, steps), Finish(w), callback);
    hide DoAll, Wins;
  }
}
