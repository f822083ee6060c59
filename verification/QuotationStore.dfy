/** Quotations: creation, and the confirmation that reserves one for an order. */
module QuotationStore {
  import opened Domain
  import opened Text
  import Pricing

  datatype QuoteStatus = PendingConfirmation | Confirmed | Expired | Rejected

  datatype Quotation = Quotation(customer: string, quantity: int, total: int, status: QuoteStatus,
                                 confirmedOrder: Option<Id>, createdAt: int)

  datatype Error = QuotationNotFound | InvalidQuotationInput | QuotationConflict

  const MINUTE: int := 60_000_000_000

  /** The pricing part of create: refused unless the amounts can be represented. */
  function CreateQuotation(quotes: map<Id, Quotation>, id: Id, customer: string, price: int, quantity: int,
                           rate: int, now: int): map<Id, Quotation>
  {
    if id in quotes || customer == "" then quotes
    else
      match Pricing.Quote(price, quantity, rate)
      case None => quotes
      case Some(amounts) =>
        quotes[id := Quotation(customer, quantity, amounts.total, PendingConfirmation, None, now)]
  }

  /** A new quotation carries the unit price in VND times the quantity, rounded half up to p, a fee f of 5%
      of it, rounded half up, and 120,000 VND for shipping. It is stored for a named customer under a new
      identifier whenever the inputs are positive and the total is an int64, and nothing else is. */
  lemma {:induction false} QuotationMeans(quotes: map<Id, Quotation>, id: Id, customer: string, price: int,
                                          quantity: int, rate: int, now: int, p: int, f: int)
    requires 2_000_000 * p - 1_000_000 <= 2 * (price * quantity * rate) < 2_000_000 * p + 1_000_000
    requires 100 * f - 50 <= 5 * p < 100 * f + 50
    ensures CreateQuotation(quotes, id, customer, price, quantity, rate, now)
         == if id !in quotes && customer != "" && price > 0 && quantity > 0 && rate > 0
               && p + f + 120_000 <= 0x7FFF_FFFF_FFFF_FFFF
            then quotes[id := Quotation(customer, quantity, p + f + 120_000, PendingConfirmation, None, now)]
            else quotes
  {
    Pricing.QuoteMeans(price, quantity, rate, p, f);
  }

  /** The row condition of the UPDATE: not confirmed yet, or confirmed for this very order. */
  predicate Confirmable(q: Quotation, orderId: Id) {
    q.status == PendingConfirmation || (q.status == Confirmed && q.confirmedOrder == Some(orderId))
  }

  function ConfirmQuotation(quotes: map<Id, Quotation>, id: Id, orderId: Id, now: int)
    : (map<Id, Quotation>, Option<Error>)
  {
    if id !in quotes then (quotes, Some(QuotationNotFound))
    else if now - quotes[id].createdAt > 30 * MINUTE then (quotes, Some(InvalidQuotationInput))
    else if !Confirmable(quotes[id], orderId) then (quotes, Some(QuotationConflict))
    else (quotes[id := quotes[id].(status := Confirmed, confirmedOrder := Some(orderId))], None)
  }

  class QuotationRepository {
    var quotes: map<Id, Quotation>

    constructor ()
      ensures quotes == map[]
    {
      quotes := map[];
    }

    /** The conditional UPDATE ... RETURNING. */
    method UpdateIfConfirmable(id: Id, orderId: Id) returns (hit: bool)
      modifies this
      ensures hit <==> id in old(quotes)
                       && (old(quotes)[id].status == PendingConfirmation
                           || (old(quotes)[id].status == Confirmed && old(quotes)[id].confirmedOrder == Some(orderId)))
      ensures quotes == if hit
                        then old(quotes)[id := old(quotes)[id].(status := Confirmed, confirmedOrder := Some(orderId))]
                        else old(quotes)
    {
      if id !in quotes || !Confirmable(quotes[id], orderId) { return false; }
      quotes := quotes[id := quotes[id].(status := Confirmed, confirmedOrder := Some(orderId))];
      return true;
    }

    /** Service and repository Confirm together. */
    method Confirm(id: Id, orderId: Id, now: int) returns (error: Option<Error>)
      modifies this
      ensures (quotes, error) == ConfirmQuotation(old(quotes), id, orderId, now)
      ensures error.None? ==> quotes == old(quotes)[id := old(quotes)[id].(status := Confirmed,
                                                                           confirmedOrder := Some(orderId))]
      ensures error.Some? ==> quotes == old(quotes)
      ensures error == Some(QuotationNotFound) <==> id !in old(quotes)
      ensures error == Some(InvalidQuotationInput) <==>
              id in old(quotes) && now > old(quotes)[id].createdAt + 1_800_000_000_000
      ensures error.None? <==> id in old(quotes) && now <= old(quotes)[id].createdAt + 1_800_000_000_000
                               && (old(quotes)[id].status == PendingConfirmation
                                   || (old(quotes)[id].status == Confirmed
                                       && old(quotes)[id].confirmedOrder == Some(orderId)))
    {
      if id !in quotes { return Some(QuotationNotFound); }
      if now - quotes[id].createdAt > 30 * MINUTE { return Some(InvalidQuotationInput); }
      var hit := UpdateIfConfirmable(id, orderId);
      return if hit then None else Some(QuotationConflict);
    }
  }
}
