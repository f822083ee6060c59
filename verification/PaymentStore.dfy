/** The payment service's tables, its transactions as functions on them, and the repository that
    runs those transactions statement by statement. */
module PaymentStore {
  import opened Domain

  datatype Payment = Payment(orderId: Id, kind: PaymentKind, amount: int, currency: string,
                             status: PaymentStatus, reference: string)

  /** payments, provider_callbacks and outbox_events. */
  datatype PaymentDb = PaymentDb(payments: map<Id, Payment>, callbacks: map<string, Id>, outbox: seq<Envelope>)

  datatype Error = PaymentNotFound | PaymentConflict | InvalidState | StorageFailure
  datatype Outcome = Applied | Unchanged | Failed(error: Error)

  function SuccessType(kind: PaymentKind): EventType {
    match kind
    case Deposit => DepositSucceededV1
    case RemainingBalance => RemainingBalanceSucceededV1
    case Refund => OtherType
  }

  /** makePaymentSucceededEvent, for the two kinds it accepts. */
  function SuccessRow(id: Id, p: Payment, eventId: Id, now: int): Envelope {
    Envelope(eventId, SuccessType(p.kind), p.orderId, PaymentService, now,
             PaymentData(id, p.orderId, p.amount, p.currency))
  }

  /** The partial unique indexes: one deposit and one balance per order. */
  predicate SlotTaken(payments: map<Id, Payment>, orderId: Id, kind: PaymentKind) {
    kind != Refund && exists q :: q in payments && payments[q].orderId == orderId && payments[q].kind == kind
  }

  predicate ReferenceTaken(payments: map<Id, Payment>, reference: string) {
    exists q :: q in payments && payments[q].reference == reference
  }

  /** What MarkSucceeded checks before it opens its transaction. */
  predicate CanReadToMark(p: Payment) { CanSettle(p.status) && p.kind != Refund }

  function CreatePayment(db: PaymentDb, id: Id, p: Payment): (PaymentDb, Outcome) {
    if id in db.payments || p.amount <= 0 then (db, Failed(StorageFailure))
    else if SlotTaken(db.payments, p.orderId, p.kind) then (db, Failed(PaymentConflict))
    else if ReferenceTaken(db.payments, p.reference) then (db, Failed(StorageFailure))
    else (db.(payments := db.payments[id := p]), Applied)
  }

  /** The status update and outbox insert both success transactions end with. */
  function Settle(db: PaymentDb, id: Id, row: Envelope): (PaymentDb, Outcome)
    requires id in db.payments
  {
    if !CanSettle(db.payments[id].status) then (db, Failed(InvalidState))
    else if HasId(db.outbox, row.eventId) then (db, Failed(StorageFailure))
    else (db.(payments := db.payments[id := db.payments[id].(status := Succeeded)], outbox := db.outbox + [row]),
      Applied)
  }

  function Succeed(db: PaymentDb, id: Id, row: Envelope): (PaymentDb, Outcome) {
    if id !in db.payments then (db, Failed(PaymentNotFound))
    else if db.payments[id].status == Succeeded then (db, Unchanged)
    else Settle(db, id, row)
  }

  function SucceedCallback(db: PaymentDb, id: Id, callback: string, row: Envelope): (PaymentDb, Outcome) {
    if callback in db.callbacks then
      if db.callbacks[callback] != id then (db, Failed(PaymentConflict))
      else if id !in db.payments then (db, Failed(PaymentNotFound))
      else (db, Unchanged)
    else if id !in db.payments then (db, Failed(PaymentNotFound))
    else
      var noted := db.(callbacks := db.callbacks[callback := id]);
      if db.payments[id].status == Succeeded then (noted, Unchanged)
      else
        var (settled, outcome) := Settle(noted, id, row);
        if outcome.Applied? then (settled, Applied) else (db, outcome)
  }

  class PaymentRepository {
    var payments: map<Id, Payment>
    var callbacks: map<string, Id>
    var outbox: seq<Envelope>

    constructor ()
      ensures Db() == PaymentDb(map[], map[], [])
    {
      payments, callbacks, outbox := map[], map[], [];
    }

    function Db(): PaymentDb
      reads this
    {
      PaymentDb(payments, callbacks, outbox)
    }

    method Rollback(snapshot: PaymentDb)
      modifies this
      ensures Db() == snapshot
    {
      payments, callbacks, outbox := snapshot.payments, snapshot.callbacks, snapshot.outbox;
    }

    method Create(id: Id, p: Payment) returns (r: Outcome)
      modifies this
      ensures (Db(), r) == CreatePayment(old(Db()), id, p)
      ensures r.Applied? ==> payments == old(payments)[id := p] && callbacks == old(callbacks) && outbox == old(outbox)
      ensures !r.Applied? ==> Db() == old(Db())
      ensures r.Applied? <==> id !in old(payments) && p.amount > 0
                              && (forall q :: q in old(payments) ==> old(payments)[q].reference != p.reference)
                              && (p.kind != Refund ==>
                                    forall q :: q in old(payments) ==>
                                      old(payments)[q].orderId != p.orderId || old(payments)[q].kind != p.kind)
    {
      if id in payments || p.amount <= 0 { return Failed(StorageFailure); }
      if SlotTaken(payments, p.orderId, p.kind) { return Failed(PaymentConflict); }
      if ReferenceTaken(payments, p.reference) { return Failed(StorageFailure); }
      payments := payments[id := p];
      return Applied;
    }

    /** Succeed, with row lock, status update and outbox insert in one transaction. */
    method SucceedPayment(id: Id, row: Envelope, fault: Fault) returns (r: Outcome)
      modifies this
      ensures fault == NoFault ==> (Db(), r) == Succeed(old(Db()), id, row)
      ensures fault == LostReply ==> Db() == Succeed(old(Db()), id, row).0 && r.Failed?
      ensures fault.AtStatement? ==> Db() == old(Db()) && r.Failed?
      ensures fault == NoFault ==>
                && (r == Failed(PaymentNotFound) <==> id !in old(payments))
                && (r.Unchanged? <==> id in old(payments) && old(payments)[id].status == Succeeded)
                && (r.Applied? <==> id in old(payments) && old(payments)[id].status == Pending
                                    && !HasId(old(outbox), row.eventId))
      ensures r.Applied? ==>
                id in old(payments) && payments == old(payments)[id := old(payments)[id].(status := Succeeded)]
                && outbox == old(outbox) + [row] && callbacks == old(callbacks)
      ensures !r.Applied? && fault != LostReply ==> Db() == old(Db())
    {
      var begin := Db();
      if fault == AtStatement(0) { return Failed(StorageFailure); }
      if id !in payments { return Failed(PaymentNotFound); }
      var payment := payments[id];
      if payment.status == Succeeded {
        if fault != NoFault { return Failed(StorageFailure); }
        return Unchanged;
      }
      if !CanSettle(payment.status) { return Failed(InvalidState); }
      payments := payments[id := payment.(status := Succeeded)];
      if fault == AtStatement(1) || HasId(outbox, row.eventId) { Rollback(begin); return Failed(StorageFailure); }
      outbox := outbox + [row];
      if fault.AtStatement? { Rollback(begin); return Failed(StorageFailure); }
      if fault == LostReply { return Failed(StorageFailure); }
      return Applied;
    }

    /** SucceedCallback: the callback ID is recorded in the same transaction as the settlement. */
    method SucceedByCallback(id: Id, callback: string, row: Envelope, fault: Fault) returns (r: Outcome)
      modifies this
      ensures fault == NoFault ==> (Db(), r) == SucceedCallback(old(Db()), id, callback, row)
      ensures fault == LostReply ==> Db() == SucceedCallback(old(Db()), id, callback, row).0 && r.Failed?
      ensures fault.AtStatement? ==> Db() == old(Db()) && r.Failed?
      ensures fault == NoFault ==>
                && (r == Failed(PaymentConflict) <==> callback in old(callbacks) && old(callbacks)[callback] != id)
                && (r.Unchanged? <==> id in old(payments)
                                      && if callback in old(callbacks) then old(callbacks)[callback] == id
                                         else old(payments)[id].status == Succeeded)
                && (r.Applied? <==> id in old(payments) && callback !in old(callbacks)
                                    && old(payments)[id].status == Pending && !HasId(old(outbox), row.eventId))
      ensures r.Applied? ==>
                id in old(payments) && payments == old(payments)[id := old(payments)[id].(status := Succeeded)]
                && outbox == old(outbox) + [row] && callbacks == old(callbacks)[callback := id]
      ensures r.Unchanged? ==>
                payments == old(payments) && outbox == old(outbox)
                && callbacks == if callback in old(callbacks) then old(callbacks) else old(callbacks)[callback := id]
      ensures r.Failed? && fault != LostReply ==> Db() == old(Db())
    {
      var begin := Db();
      if fault == AtStatement(0) { return Failed(StorageFailure); }
      if callback in callbacks {
        if callbacks[callback] != id { return Failed(PaymentConflict); }
        if id !in payments { return Failed(PaymentNotFound); }
        if fault != NoFault { return Failed(StorageFailure); }
        return Unchanged;
      }
      if id !in payments { return Failed(PaymentNotFound); }
      var payment := payments[id];
      callbacks := callbacks[callback := id];
      if fault == AtStatement(1) { Rollback(begin); return Failed(StorageFailure); }
      var changed := payment.status != Succeeded;
      if changed {
        if !CanSettle(payment.status) { Rollback(begin); return Failed(InvalidState); }
        payments := payments[id := payment.(status := Succeeded)];
        if fault == AtStatement(2) || HasId(outbox, row.eventId) { Rollback(begin); return Failed(StorageFailure); }
        outbox := outbox + [row];
      }
      if fault.AtStatement? { Rollback(begin); return Failed(StorageFailure); }
      if fault == LostReply { return Failed(StorageFailure); }
      return if changed then Applied else Unchanged;
    }
  }
}
