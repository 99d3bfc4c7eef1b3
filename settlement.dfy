/**
 * `process_payment_endpoint`: the guarded settlement of a rental. The rental
 * must exist, belong to the payer and cost exactly the amount paid; the
 * payment method then picks a new card (optionally saved) or a saved card of
 * the payer; a pending payment is stored, the gateway's outcome is written to
 * it, and only a successful payment marks the rental paid and frees its
 * scooter.
 */
module Settlement {
  import opened Wrappers
  import opened Http
  import opened PaymentModel
  import CardRules
  import CardSchema
  import CardVault
  import Payments
  import Rentals
  import Scooters

  /** The `card_details` dictionary of a request; an absent key is `None` (or false). */
  datatype CardDetails = CardDetails(
    holderName: Option<string>,
    number: Option<string>,
    expiryMonth: Option<string>,
    expiryYear: Option<string>,
    cvv: Option<string>,
    saveForFuture: bool,
    setAsDefault: bool)

  /** The `PaymentCreate` body of a settlement request. */
  datatype PaymentRequest = PaymentRequest(
    rentalId: nat,
    amount: real,
    currency: Option<string>,
    paymentMethod: PaymentMethod,
    paymentCardId: Option<nat>,
    cardDetails: Option<CardDetails>)

  /** The `PaymentConfirmation` reply. */
  datatype PaymentConfirmation = PaymentConfirmation(
    paymentId: nat,
    status: PaymentStatus,
    transactionId: Option<string>,
    message: string,
    rentalId: nat,
    amount: real,
    currency: string,
    paymentMethod: PaymentMethod,
    paymentDate: int)

  /** `payment_in.currency or "CNY"`. */
  function CurrencyOr(c: Option<string>): (r: string)
    ensures r != ""
    ensures c.Some? && c.value != "" ==> r == c.value
  {
    if c.Some? && c.value != "" then c.value else Payments.DefaultCurrency
  }

  /** The card to save, built with `""` for every key the dictionary lacks. */
  function CardFieldsOf(d: CardDetails): (f: CardSchema.CardFields)
    ensures f.holderName.Some? && f.number.Some? && f.expiryMonth.Some? && f.expiryYear.Some? && f.cvv.Some?
    ensures f.isDefault == Some(d.setAsDefault)
  {
    CardSchema.CardFields(Some(d.holderName.GetOr("")), Some(d.number.GetOr("")),
      Some(d.expiryMonth.GetOr("")), Some(d.expiryYear.GetOr("")), Some(d.cvv.GetOr("")),
      None, Some(d.setAsDefault))
  }

  /** A card payment that asks for the card to be kept. */
  predicate SavesCard(input: PaymentRequest) {
    input.paymentMethod == Card && input.cardDetails.Some? && input.cardDetails.value.saveForFuture
  }

  /**
   * The three guards on the rental, in order: it exists (404), it is the
   * payer's (403), and its cost equals the amount (400).
   */
  function RentalGuard(rental: Option<Rentals.Rental>, u: nat, amount: real): (e: Option<ApiError>)
    ensures e.None? <==> rental.Some? && rental.value.userId == u && rental.value.cost == Some(amount)
    ensures rental.None? ==> e == Some(NotFound)
    ensures rental.Some? && rental.value.userId != u ==> e == Some(Forbidden)
    ensures rental.Some? && rental.value.userId == u && rental.value.cost != Some(amount) ==> e == Some(BadRequest)
  {
    if rental.None? then Some(NotFound)
    else if rental.value.userId != u then Some(Forbidden)
    else if rental.value.cost != Some(amount) then Some(BadRequest)
    else None
  }

  /**
   * The guards of the method branches. A card payment without card details
   * fails on the dictionary access, and a card to save that the card schema
   * rejects fails its construction (both 500). A saved-card payment needs a
   * card id (400) of a card the payer owns (404).
   */
  function CardGuard(cs: seq<CardVault.Card>, input: PaymentRequest, u: nat): (e: Option<ApiError>)
    ensures input.paymentMethod == SavedCard ==>
      (e.None? <==> input.paymentCardId.Some? && input.paymentCardId.value != 0
                    && CardVault.Lookup(cs, input.paymentCardId.value, u).Some?)
    ensures input.paymentMethod == SavedCard && (input.paymentCardId.None? || input.paymentCardId == Some(0))
      ==> e == Some(BadRequest)
    ensures input.paymentMethod == Card ==>
      (e.None? <==> input.cardDetails.Some?
                    && (SavesCard(input) ==> CardSchema.MakeCardCreate(CardFieldsOf(input.cardDetails.value)).Ok?))
    ensures input.paymentMethod == Card && e.Some? ==> e == Some(ServerError)
  {
    match input.paymentMethod
    case Card =>
      if input.cardDetails.None? then Some(ServerError)
      else if SavesCard(input) && CardSchema.MakeCardCreate(CardFieldsOf(input.cardDetails.value)).Err? then
        Some(ServerError)
      else None
    case SavedCard =>
      if input.paymentCardId.None? || input.paymentCardId.value == 0 then Some(BadRequest)
      else if CardVault.Lookup(cs, input.paymentCardId.value, u).None? then Some(NotFound)
      else None
  }

  /** A card to keep: the details are validated as a card, which is then stored as the payer's. */
  method SaveCard(cards: CardVault.CardStore, details: CardDetails, u: nat) returns (r: Result<nat, ApiError>)
    requires cards.Valid()
    modifies cards
    ensures cards.Valid()
    ensures r.Err? <==> CardSchema.MakeCardCreate(CardFieldsOf(details)).Err?
    ensures r.Err? ==> r.error == ServerError && cards.cards == old(cards.cards) && cards.nextId == old(cards.nextId)
    ensures r.Ok? ==>
      r.value == old(cards.nextId) && |cards.cards| > 0
      && cards.cards == CardVault.Created(old(cards.cards), cards.cards[|cards.cards| - 1])
      && cards.cards[|cards.cards| - 1].id == old(cards.nextId)
      && cards.cards[|cards.cards| - 1].userId == u
      && cards.cards[|cards.cards| - 1].isDefault == details.setAsDefault
  {
    var cardCreate := CardSchema.MakeCardCreate(CardFieldsOf(details));
    if cardCreate.Err? {
      return Err(ServerError);
    }
    var saved := cards.CreateWithUser(cardCreate.value, u);
    return Ok(saved.id);
  }

  /**
   * The method branches: returns the card id recorded on the payment (the
   * saved card, the newly stored card, or none), saving a card only for a card
   * payment that asks for it.
   */
  method ResolveCard(cards: CardVault.CardStore, input: PaymentRequest, u: nat) returns (r: Result<Option<nat>, ApiError>)
    requires cards.Valid()
    modifies cards
    ensures cards.Valid()
    ensures r.Err? <==> CardGuard(old(cards.cards), input, u).Some?
    ensures r.Err? ==> r.error == CardGuard(old(cards.cards), input, u).value
    ensures r.Err? || !SavesCard(input) ==>
      cards.cards == old(cards.cards) && cards.nextId == old(cards.nextId)
    ensures r.Ok? && input.paymentMethod == SavedCard ==> r.value == input.paymentCardId
    ensures r.Ok? && input.paymentMethod == Card && !SavesCard(input) ==> r.value == None
    ensures r.Ok? && SavesCard(input) ==>
      r.value == Some(old(cards.nextId)) && |cards.cards| > 0
      && cards.cards == CardVault.Created(old(cards.cards), cards.cards[|cards.cards| - 1])
      && cards.cards[|cards.cards| - 1].id == old(cards.nextId)
      && cards.cards[|cards.cards| - 1].userId == u
      && cards.cards[|cards.cards| - 1].isDefault == input.cardDetails.value.setAsDefault
  {
    match input.paymentMethod
    case Card =>
      if input.cardDetails.None? {
        return Err(ServerError);
      }
      var details := input.cardDetails.value;
      if details.saveForFuture {
        var saved := SaveCard(cards, details, u);
        if saved.Err? {
          return Err(saved.error);
        }
        return Ok(Some(saved.value));
      }
      return Ok(None);
    case SavedCard =>
      if input.paymentCardId.None? || input.paymentCardId.value == 0 {
        return Err(BadRequest);
      }
      var card := cards.GetByIdAndUser(input.paymentCardId.value, u);
      if card.None? {
        return Err(NotFound);
      }
      return Ok(Some(card.value.id));
  }
  /** The stored payment after the gateway outcome is written over the pending row. */
  function SettledPayment(id: nat, u: nat, input: PaymentRequest, cardId: Option<nat>, now: int,
                          res: CardRules.GatewayResult): (p: Payments.Payment)
    ensures p.id == id && p.userId == u && p.rentalId == input.rentalId && p.paymentCardId == cardId
    ensures p.amount == input.amount && p.paymentMethod == input.paymentMethod && p.createdAt == now
    ensures p.status == res.status
  {
    Payments.WithStatus(
      Payments.Payment(id, u, input.rentalId, cardId, input.amount, CurrencyOr(input.currency),
                       Pending, input.paymentMethod, None, now),
      res.status, res.transactionId)
  }

  /** Writing the outcome over the last row, the pending one, is appending the settled row. */
  lemma ReplaceLast(ps: seq<Payments.Payment>, pending: Payments.Payment, settled: Payments.Payment)
    requires forall j :: 0 <= j < |ps| ==> ps[j].id != pending.id
    ensures Payments.ReplaceById(ps + [pending], pending.id, settled) == ps + [settled]
  {
  }

  /** The pending payment is stored, then the gateway's outcome is written over it. */
  method RecordPayment(payments: Payments.PaymentStore, input: PaymentRequest, u: nat, cardId: Option<nat>,
                       res: CardRules.GatewayResult, now: int)
    returns (payment: Payments.Payment)
    requires payments.Valid()
    modifies payments
    ensures payments.Valid()
    ensures payment == SettledPayment(old(payments.nextId), u, input, cardId, now, res)
    ensures payments.payments == old(payments.payments) + [payment]
  {
    var pending := payments.CreateWithUserAndRental(
      Payments.PaymentCreate(input.rentalId, input.amount, CurrencyOr(input.currency), input.paymentMethod,
                             cardId, Some(Pending)),
      u, now);
    ghost var before := payments.payments[..|payments.payments| - 1];
    assert payments.payments == before + [pending];
    payment := payments.UpdatePaymentStatus(pending, res.status, res.transactionId);
    ReplaceLast(before, pending, payment);
  }

  /** A successful payment marks the rental paid and makes its scooter available. */
  method MarkPaid(rentals: Rentals.RentalStore, scooters: Scooters.ScooterStore, rental: Rentals.Rental)
    requires rentals.Valid() && scooters.Valid() && rental in rentals.rentals
    modifies rentals, scooters
    ensures rentals.Valid() && scooters.Valid()
    ensures rentals.rentals == Rentals.ReplaceById(old(rentals.rentals), rental.id, rental.(status := Rentals.Paid))
    ensures scooters.scooters == Scooters.SetStatusById(old(scooters.scooters), rental.scooterId, Scooters.Available)
  {
    rentals.UpdateRentalStatus(rental, Rentals.Paid);
    scooters.SetStatus(rental.scooterId, Scooters.Available);
  }

  /**
   * The writes after the guards: the pending payment, the gateway call, the
   * outcome written to the payment, and on success the rental paid and its
   * scooter available.
   */
  method Settle(rentals: Rentals.RentalStore, scooters: Scooters.ScooterStore, payments: Payments.PaymentStore,
                rental: Rentals.Rental, input: PaymentRequest, u: nat, cardId: Option<nat>,
                draw: CardRules.GatewayDraw, now: int)
    returns (c: PaymentConfirmation)
    requires rentals.Valid() && scooters.Valid() && payments.Valid() && rental in rentals.rentals
    requires CardRules.WellFormedDraw(draw)
    modifies rentals, scooters, payments
    ensures rentals.Valid() && scooters.Valid() && payments.Valid()
    ensures
      var res := CardRules.ProcessPayment(CardRules.Backend, input.amount, draw);
      && payments.payments == old(payments.payments) + [SettledPayment(old(payments.nextId), u, input, cardId, now, res)]
      && c == PaymentConfirmation(old(payments.nextId), res.status, res.transactionId, res.message, input.rentalId,
                                  input.amount, CurrencyOr(input.currency), input.paymentMethod, now)
    ensures CardRules.ProcessPayment(CardRules.Backend, input.amount, draw).success ==>
      && rentals.rentals == Rentals.ReplaceById(old(rentals.rentals), rental.id, rental.(status := Rentals.Paid))
      && scooters.scooters == Scooters.SetStatusById(old(scooters.scooters), rental.scooterId, Scooters.Available)
    ensures !CardRules.ProcessPayment(CardRules.Backend, input.amount, draw).success ==>
      rentals.rentals == old(rentals.rentals) && scooters.scooters == old(scooters.scooters)
  {
    var res := CardRules.ProcessPayment(CardRules.Backend, input.amount, draw);
    var payment := RecordPayment(payments, input, u, cardId, res, now);
    if res.success {
      MarkPaid(rentals, scooters, rental);
    }
    c := PaymentConfirmation(payment.id, payment.status, payment.transactionId, res.message,
                             payment.rentalId, payment.amount, payment.currency, payment.paymentMethod,
                             payment.createdAt);
  }

  /**
   * `process_payment_endpoint`. `draw` is the gateway's random outcome and
   * `now` the insertion time of the payment. Every error leaves all four
   * tables as they were; the payment is stored with the gateway's status and
   * transaction id; only on success does the rental become paid and its
   * scooter available.
   */
  method ProcessPaymentEndpoint(rentals: Rentals.RentalStore, scooters: Scooters.ScooterStore,
                                cards: CardVault.CardStore, payments: Payments.PaymentStore,
                                input: PaymentRequest, u: nat, draw: CardRules.GatewayDraw, now: int)
    returns (r: Result<PaymentConfirmation, ApiError>)
    requires rentals.Valid() && scooters.Valid() && cards.Valid() && payments.Valid()
    requires CardRules.WellFormedDraw(draw)
    modifies rentals, scooters, cards, payments
    ensures rentals.Valid() && scooters.Valid() && cards.Valid() && payments.Valid()
    ensures RentalGuard(old(rentals.GetById(input.rentalId)), u, input.amount).Some? ==>
      r == Err(RentalGuard(old(rentals.GetById(input.rentalId)), u, input.amount).value)
    ensures RentalGuard(old(rentals.GetById(input.rentalId)), u, input.amount).None? ==>
      (r.Err? <==> CardGuard(old(cards.cards), input, u).Some?)
    ensures r.Err? ==>
      rentals.rentals == old(rentals.rentals) && scooters.scooters == old(scooters.scooters)
      && cards.cards == old(cards.cards) && payments.payments == old(payments.payments)
    ensures r.Ok? ==>
      var res := CardRules.ProcessPayment(CardRules.Backend, input.amount, draw);
      && |payments.payments| == |old(payments.payments)| + 1
      && payments.payments[..|old(payments.payments)|] == old(payments.payments)
      && payments.payments[|old(payments.payments)|].id == r.value.paymentId == old(payments.nextId)
      && payments.payments[|old(payments.payments)|].userId == u
      && payments.payments[|old(payments.payments)|].status == res.status
      && r.value.status == res.status && r.value.transactionId == res.transactionId
      && r.value.rentalId == input.rentalId && r.value.amount == input.amount
      && r.value.currency == CurrencyOr(input.currency) && r.value.paymentDate == now
      && (r.value.status == Completed <==> res.success)
    ensures r.Ok? ==>
      var res := CardRules.ProcessPayment(CardRules.Backend, input.amount, draw);
      var cid := if input.paymentMethod == SavedCard then input.paymentCardId
                 else if SavesCard(input) then Some(old(cards.nextId)) else None;
      payments.payments == old(payments.payments) + [SettledPayment(old(payments.nextId), u, input, cid, now, res)]
    ensures r.Ok? && !SavesCard(input) ==> cards.cards == old(cards.cards) && cards.nextId == old(cards.nextId)
    ensures r.Ok? && SavesCard(input) ==>
      |cards.cards| > 0
      && cards.cards == CardVault.Created(old(cards.cards), cards.cards[|cards.cards| - 1])
      && cards.cards[|cards.cards| - 1].id == old(cards.nextId)
      && cards.cards[|cards.cards| - 1].userId == u
      && cards.cards[|cards.cards| - 1].isDefault == input.cardDetails.value.setAsDefault
    ensures r.Ok? && CardRules.ProcessPayment(CardRules.Backend, input.amount, draw).success ==>
      var rental := old(rentals.GetById(input.rentalId)).value;
      && rentals.rentals == Rentals.ReplaceById(old(rentals.rentals), rental.id, rental.(status := Rentals.Paid))
      && scooters.scooters == Scooters.SetStatusById(old(scooters.scooters), rental.scooterId, Scooters.Available)
    ensures r.Ok? && !CardRules.ProcessPayment(CardRules.Backend, input.amount, draw).success ==>
      rentals.rentals == old(rentals.rentals) && scooters.scooters == old(scooters.scooters)
  {
    var found := rentals.GetById(input.rentalId);
    if found.None? {
      return Err(NotFound);
    }
    var rental := found.value;
    if rental.userId != u {
      return Err(Forbidden);
    }
    if rental.cost != Some(input.amount) {
      return Err(BadRequest);
    }
    var cardId := ResolveCard(cards, input, u);
    if cardId.Err? {
      return Err(cardId.error);
    }
    var confirmation := Settle(rentals, scooters, payments, rental, input, u, cardId.value, draw, now);
    return Ok(confirmation);
  }
}
