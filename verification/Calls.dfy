/** Calls of the payment and warehouse services run without interruption: what each of them changes,
    and that it changes nothing in every other case. */
module Calls {
  import opened Domain
  import opened Text
  import opened Protocol
  import opened Invariant
  import opened Preservation
  import PS = PaymentStore
  import QS = QuotationStore
  import WS = WarehouseStore

  // ------------------------------------------------------------------ payments

  /** The payment of this kind that the order waits for. */
  function PaymentDueFor(s: State, o: Id, kind: PaymentKind, reference: string): PS.Payment
    requires o in s.ord.orders
  {
    var order := s.ord.orders[o];
    PS.Payment(o, kind, if kind == Deposit then order.deposit else order.remaining, "VND", Pending, reference)
  }

  /** createPayment: for an order that waits for this payment and has none of the kind yet, over the
      amount stored with the order. */
  lemma {:induction false} CreatePaymentCall(s: State, o: Id, kind: PaymentKind, reference: string, id: Id)
    requires Inv(s) && kind != Refund && id != NIL
    ensures var read := Exec(s, ReadSummary(o, kind, reference));
            if o in s.ord.orders
               && s.ord.orders[o].status == (if kind == Deposit then WaitingDeposit else WaitingRemainingPayment)
               && (forall x :: x in s.pay.payments ==>
                     s.pay.payments[x].orderId != o || s.pay.payments[x].kind != kind)
            then
              var p := PaymentDueFor(s, o, kind, reference);
              Exec(read, InsertPayment(p, id))
              == if id in s.pay.payments
                    || (exists x :: x in s.pay.payments && s.pay.payments[x].reference == reference) then read
                 else read.(pay := s.pay.(payments := s.pay.payments[id := p]))
            else read == s
  {
    hide QuotesOk, OrderIntentsOk, TimelinesOk, PaymentTablesOk, PaymentIntentsOk, PackageTablesOk, EventsOk,
      OrderRowsOk, LogsOk, OffsetsOk;
    if o in s.ord.orders { assert OrderOk(s.quotes, o, s.ord.orders[o]); }
  }

  /** The success row of a payment, field by field. */
  function SettledRow(id: Id, p: PS.Payment, row: Id, now: int): Envelope {
    Envelope(row, if p.kind == Deposit then DepositSucceededV1 else RemainingBalanceSucceededV1, p.orderId,
             PaymentService, now, PaymentData(id, p.orderId, p.amount, p.currency))
  }

  /** ProcessSePayWebhook with a new callback ID: a transfer of exactly the amount of a pending payment
      settles it. Any other amount changes nothing. */
  lemma {:induction false} WebhookCall(s: State, id: Id, amount: int, callback: string, row: Id, now: int)
    requires Inv(s) && id in s.pay.payments && s.pay.payments[id].status == Pending
    requires s.pay.payments[id].reference != "" && callback != "" && callback !in s.pay.callbacks && Fresh(s, row)
    ensures var p := s.pay.payments[id];
            var read := Exec(s, ReadPaymentForCallback(id, amount));
            if amount == p.amount
            then Exec(read, Callback((id, p), callback, row, now))
                 == read.(pay := PS.PaymentDb(s.pay.payments[id := p.(status := Succeeded)],
                                              s.pay.callbacks[callback := id],
                                              s.pay.outbox + [SettledRow(id, p, row, now)]))
            else read == s
  {
    hide QuotesOk, OrdersOk, OrderIntentsOk, TimelinesOk, PaymentIntentsOk, PackageTablesOk, EventsOk, OrderRowsOk,
      LogsOk, OffsetsOk, PaymentRowsOk, CallbacksOk, SlotsUnique;
  }

  /** A callback ID that is known, or empty, changes nothing, whatever it is sent for. */
  lemma {:induction false} KnownCallback(s: State, settlement: (Id, PS.Payment), callback: string, row: Id, now: int)
    requires callback in s.pay.callbacks || callback == ""
    ensures Exec(s, Callback(settlement, callback, row, now)) == s
  {
  }

  /** MarkSucceeded: a pending payment is settled by hand. One that is settled stays as it is. */
  lemma {:induction false} MarkSucceededCall(s: State, id: Id, row: Id, now: int)
    requires Inv(s) && id in s.pay.payments && Fresh(s, row)
    ensures var p := s.pay.payments[id];
            var read := Exec(s, ReadPaymentToMark(id));
            if p.status == Pending
            then Exec(read, MarkSucceeded((id, p), row, now))
                 == read.(pay := s.pay.(payments := s.pay.payments[id := p.(status := Succeeded)],
                                        outbox := s.pay.outbox + [SettledRow(id, p, row, now)]))
            else read == s
  {
    hide QuotesOk, OrdersOk, OrderIntentsOk, TimelinesOk, PaymentIntentsOk, PackageTablesOk, EventsOk, OrderRowsOk,
      LogsOk, OffsetsOk, PaymentRowsOk, CallbacksOk, SlotsUnique;
  }

  /** What no reachable state has is refused all the same: an order for a quotation without a quantity or a
      total or in another status, a payment over nothing, a transfer of nothing, for a payment without a
      reference or in another currency, and the settlement of a refund. */
  lemma {:induction false} UnfitRefused(s: State, q: Id, customer: string, address: string, now: int, o: Id,
                                        kind: PaymentKind, reference: string, id: Id, amount: int)
    ensures q in s.quotes && (s.quotes[q].quantity <= 0 || s.quotes[q].total <= 0
                              || s.quotes[q].status == QS.Expired || s.quotes[q].status == QS.Rejected) ==>
              Exec(s, BeginOrder(q, customer, address, now)) == s
    ensures o in s.ord.orders && (if kind == RemainingBalance then s.ord.orders[o].remaining
                                  else s.ord.orders[o].deposit) <= 0 ==>
              Exec(s, ReadSummary(o, kind, reference)) == s
    ensures id in s.pay.payments && (amount <= 0 || s.pay.payments[id].reference == ""
                                     || s.pay.payments[id].currency != "VND" || s.pay.payments[id].kind == Refund) ==>
              Exec(s, ReadPaymentForCallback(id, amount)) == s
    ensures id in s.pay.payments && s.pay.payments[id].kind == Refund ==> Exec(s, ReadPaymentToMark(id)) == s
  {
  }

  // ------------------------------------------------------------------ money came in, or a hand put it there

  /** A bank transfer of exactly this amount for the payment, or the operator's word for it. */
  predicate Vouches(a: Action, id: Id, amount: int) {
    a == ReadPaymentForCallback(id, amount) || a == ReadPaymentToMark(id)
  }

  ghost predicate Vouched(actions: seq<Action>, id: Id, amount: int) {
    exists k :: 0 <= k < |actions| && Vouches(actions[k], id, amount)
  }

  lemma {:induction false} NewReading(s: State, a: Action, i: (Id, PS.Payment))
    requires i in Exec(s, a).flight.settlements && i !in s.flight.settlements
    ensures Vouches(a, i.0, i.1.amount)
  {
  }

  lemma {:induction false} SettledByReading(s: State, a: Action, id: Id)
    requires Inv(s) && id in Exec(s, a).pay.payments && Exec(s, a).pay.payments[id].status == Succeeded
    requires !(id in s.pay.payments && s.pay.payments[id].status == Succeeded)
    ensures exists p :: (id, p) in s.flight.settlements && p.amount == Exec(s, a).pay.payments[id].amount
  {
    hide QuotesOk, OrdersOk, OrderIntentsOk, TimelinesOk, PackageTablesOk, EventsOk, OrderRowsOk, LogsOk, OffsetsOk,
      PaymentRowsOk, CallbacksOk, SlotsUnique, PaymentsOk;
    if a.Callback? || a.MarkSucceeded? {
      assert a.settlement in s.flight.settlements && a.settlement == (id, a.settlement.1);
    } else {
      StatusStays(s, a, id);
    }
  }

  /** No other action makes a payment succeed. */
  lemma {:induction false} StatusStays(s: State, a: Action, id: Id)
    requires PaymentIntentsOk(s.ord.orders, s.flight.payments) && !a.Callback? && !a.MarkSucceeded?
    ensures id in Exec(s, a).pay.payments && Exec(s, a).pay.payments[id].status == Succeeded ==>
              id in s.pay.payments && s.pay.payments[id].status == Succeeded
  {
    hide PaymentOk;
  }

  lemma {:induction false} VouchedEarlier(actions: seq<Action>, a: Action, id: Id, amount: int)
    ensures Vouched(actions, id, amount) ==> Vouched(actions + [a], id, amount)
    ensures Vouches(a, id, amount) ==> Vouched(actions + [a], id, amount)
  {
    if k :| 0 <= k < |actions| && Vouches(actions[k], id, amount) {
      assert (actions + [a])[k] == actions[k];
    }
    assert (actions + [a])[|actions|] == a;
  }

  lemma {:induction false} ReadingsVouched(actions: seq<Action>, i: (Id, PS.Payment))
    requires i in RunAll(INIT, actions).flight.settlements
    ensures Vouched(actions, i.0, i.1.amount)
  {
    if actions == [] {
    } else {
      hide Exec;
      var before, a := actions[..|actions| - 1], actions[|actions| - 1];
      assert actions == before + [a];
      VouchedEarlier(before, a, i.0, i.1.amount);
      if i in RunAll(INIT, before).flight.settlements {
        ReadingsVouched(before, i);
      } else {
        NewReading(RunAll(INIT, before), a, i);
      }
    }
  }

  /** After any run, a succeeded payment had a transfer of exactly its amount reported for it, or was
      marked by hand. */
  lemma {:induction false} SettledIsVouched(actions: seq<Action>, id: Id)
    requires id in RunAll(INIT, actions).pay.payments && RunAll(INIT, actions).pay.payments[id].status == Succeeded
    ensures exists k :: 0 <= k < |actions| && Vouches(actions[k], id, RunAll(INIT, actions).pay.payments[id].amount)
  {
    if actions == [] {
    } else {
      hide Exec, Inv;
      var before, a := actions[..|actions| - 1], actions[|actions| - 1];
      var s := RunAll(INIT, before);
      var amount := RunAll(INIT, actions).pay.payments[id].amount;
      assert actions == before + [a];
      VouchedEarlier(before, a, id, amount);
      if id in s.pay.payments && s.pay.payments[id].status == Succeeded {
        SettledIsVouched(before, id);
        AmountStays(s, a, id);
        assert Vouched(before, id, amount);
      } else {
        EveryRunIsOk(before);
        SettledByReading(s, a, id);
        var p :| (id, p) in s.flight.settlements && p.amount == amount;
        ReadingsVouched(before, (id, p));
      }
      assert Vouched(actions, id, amount);
    }
  }

  lemma {:induction false} AmountStays(s: State, a: Action, id: Id)
    requires id in s.pay.payments
    ensures id in Exec(s, a).pay.payments && Exec(s, a).pay.payments[id].amount == s.pay.payments[id].amount
  {
  }

  // ------------------------------------------------------------------ packages

  predicate Measured(x: real) { 0.0 < x <= 500.0 }

  /** What a package must be to be received. */
  predicate Receivable(p: WS.Package) {
    && p.tracking != "" && TrimSpace(p.tracking) == p.tracking && p.warehouse != ""
    && TrimSpace(p.warehouse) == p.warehouse
    && Measured(p.weight) && Measured(p.length) && Measured(p.width) && Measured(p.height)
  }

  /** ReceivePackage: a well-formed package with a new tracking number, for an order that waits for its
      purchase, is stored together with its event. Any other changes nothing. */
  lemma {:induction false} ReceivePackageCall(s: State, p: WS.Package, id: Id, row: Id, now: int)
    requires id != NIL && id !in s.wh.packages && now != 0 && Fresh(s, row)
    ensures var read := Exec(s, ReadWarehouseSummary(p));
            if Receivable(p) && p.orderId in s.ord.orders && s.ord.orders[p.orderId].status == WaitingPurchase
               && (forall x :: x in s.wh.packages ==> s.wh.packages[x].tracking != p.tracking)
            then Exec(read, InsertPackage(p, id, row, now))
                 == read.(wh := WS.WarehouseDb(s.wh.packages[id := p], s.wh.outbox
                      + [Envelope(row, PackageReceivedV1, p.orderId, WarehouseService, now,
                           PackageData(id, p.orderId, p.tracking, p.warehouse, p.weight, p.length, p.width,
                             p.height))]))
            else read == s
  {
    hide TrimSpace;
  }

  // ------------------------------------------------------------------ unique in every run

  /** What the unique indexes keep: tracking numbers and payment references name one row each. */
  ghost predicate NamesUnique(s: State) {
    && (forall a, b ::
          a in s.wh.packages && b in s.wh.packages && s.wh.packages[a].tracking == s.wh.packages[b].tracking
          ==> a == b)
    && (forall a, b ::
          a in s.pay.payments && b in s.pay.payments && s.pay.payments[a].reference == s.pay.payments[b].reference
          ==> a == b)
  }

  lemma {:induction false} NamesStayUnique(s: State, a: Action)
    requires NamesUnique(s)
    ensures NamesUnique(Exec(s, a))
  {
    match a
    case InsertPackage(p, id, row, now) =>
    case InsertPayment(pending, id) =>
    case _ => SameNames(s, a);
  }

  lemma {:induction false} SameNames(s: State, a: Action)
    requires !a.InsertPackage? && !a.InsertPayment?
    ensures Exec(s, a).wh.packages == s.wh.packages && Exec(s, a).pay.payments.Keys == s.pay.payments.Keys
    ensures forall id :: id in s.pay.payments ==>
              Exec(s, a).pay.payments[id].reference == s.pay.payments[id].reference
  {
  }

  /** After any run two packages have two tracking numbers and two payments two references; every
      package is one that could be received, and belongs to an order past its deposit. */
  lemma {:induction false} NamesAlwaysUnique(actions: seq<Action>)
    ensures var s := RunAll(INIT, actions);
            && NamesUnique(s)
            && forall id :: id in s.wh.packages ==>
                 Receivable(s.wh.packages[id]) && s.wh.packages[id].orderId in s.ord.orders
                 && s.ord.orders[s.wh.packages[id].orderId].status != WaitingDeposit
  {
    if actions == [] {
    } else {
      hide Exec, Inv, NamesUnique, Receivable;
      NamesAlwaysUnique(actions[..|actions| - 1]);
      NamesStayUnique(RunAll(INIT, actions[..|actions| - 1]), actions[|actions| - 1]);
      EveryRunIsOk(actions);
      var s := RunAll(INIT, actions);
      forall id | id in s.wh.packages
        ensures Receivable(s.wh.packages[id]) && s.wh.packages[id].orderId in s.ord.orders
                && s.ord.orders[s.wh.packages[id].orderId].status != WaitingDeposit
      {
        StoredIsReceivable(s, id);
      }
    }
  }

  lemma {:induction false} StoredIsReceivable(s: State, id: Id)
    requires Inv(s) && id in s.wh.packages
    ensures Receivable(s.wh.packages[id]) && s.wh.packages[id].orderId in s.ord.orders
    ensures s.ord.orders[s.wh.packages[id].orderId].status != WaitingDeposit
  {
    hide QuotesOk, OrdersOk, OrderIntentsOk, TimelinesOk, PaymentTablesOk, PaymentIntentsOk, EventsOk, OrderRowsOk,
      LogsOk, OffsetsOk, TrimSpace, PackageRowsOk, PackageIntentsOk;
    assert PackageOk(s.ord.orders, s.wh.packages[id]);
  }
}
