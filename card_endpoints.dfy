/**
 * The `/payment-cards` endpoints of the current user: list, create (the first
 * card becomes the default), read the default card, read, update and delete.
 * A request body that fails a schema validator is answered with 422 before the
 * handler runs.
 */
module CardEndpoints {
  import opened Wrappers
  import opened Http
  import CardSchema
  import opened CardVault

  /** Page size `get_by_user` uses when the caller gives none. */
  const DefaultLimit: nat := 100

  /** `POST /`: the card is made default when it is the user's first or the body asks for it. */
  method CreatePaymentCard(store: CardStore, body: CardSchema.CardFields, u: nat) returns (r: Result<Card, ApiError>)
    requires store.Valid()
    modifies store
    ensures store.Valid()
    ensures CardSchema.MakeCardCreate(body).Err? <==> r.Err?
    ensures r.Err? ==> r.error == Unprocessable && store.cards == old(store.cards)
    ensures r.Ok? ==> (r.value.userId == u
      && r.value.isDefault == (CardSchema.MakeCardCreate(body).value.isDefault || !OwnsCard(old(store.cards), u))
      && store.cards == Created(old(store.cards), r.value))
    ensures AtMostOneDefault(old(store.cards)) ==> AtMostOneDefault(store.cards)
    ensures OwnersHaveDefault(old(store.cards)) ==> OwnersHaveDefault(store.cards)
    ensures r.Ok? && r.value.isDefault ==> store.GetDefaultCard(u) == Some(r.value)
  {
    var input := CardSchema.MakeCardCreate(body);
    if input.Err? {
      return Err(Unprocessable);
    }
    var cardIn := input.value;
    var existing := store.GetByUser(u, 0, DefaultLimit);
    if existing == [] || cardIn.isDefault {
      cardIn := cardIn.(isDefault := true);
    }
    ghost var before := store.cards;
    var card := store.CreateWithUser(cardIn, u);
    CreatedKeepsDefaultRules(before, card);
    if card.isDefault {
      CreatedDefaultIsFound(before, card);
    }
    return Ok(card);
  }

  /** `GET /default`: 404 when the user has no default card. */
  function ReadDefaultPaymentCard(store: CardStore, u: nat): (r: Result<Card, ApiError>)
    reads store
    ensures r.Err? <==> !HasDefault(store.cards, u)
    ensures r.Err? ==> r.error == NotFound
    ensures r.Ok? ==> r.value in store.cards && r.value.userId == u && r.value.isDefault
  {
    match store.GetDefaultCard(u)
    case None => Err(NotFound)
    case Some(card) => Ok(card)
  }

  /** `GET /{card_id}`: 404 unless the card exists and belongs to the user. */
  function ReadPaymentCard(store: CardStore, id: nat, u: nat): (r: Result<Card, ApiError>)
    reads store
    ensures r.Err? <==> forall i :: 0 <= i < |store.cards| ==> !(store.cards[i].id == id && store.cards[i].userId == u)
    ensures r.Err? ==> r.error == NotFound
    ensures r.Ok? ==> r.value in store.cards && r.value.id == id && r.value.userId == u
  {
    match store.GetByIdAndUser(id, u)
    case None => Err(NotFound)
    case Some(card) => Ok(card)
  }

  /** `PUT /{card_id}`: 422 on a rejected body, 404 on another user's card, else `update_card`. */
  method UpdatePaymentCard(store: CardStore, id: nat, body: CardSchema.CardFields, u: nat)
    returns (r: Result<Card, ApiError>)
    requires store.Valid()
    modifies store
    ensures store.Valid()
    ensures CardSchema.ValidateFields(body).Err? ==> r == Err(Unprocessable)
    ensures CardSchema.ValidateFields(body).Ok? && Lookup(old(store.cards), id, u).None? ==> r == Err(NotFound)
    ensures r.Err? ==> store.cards == old(store.cards)
    ensures r.Ok? ==> (CardSchema.ValidateFields(body).Ok? && Lookup(old(store.cards), id, u).Some?
      && var card := Lookup(old(store.cards), id, u).value;
         r.value == ApplyPatch(card, CardSchema.ValidateFields(body).value)
         && store.cards == Updated(old(store.cards), card, CardSchema.ValidateFields(body).value))
    ensures AtMostOneDefault(old(store.cards)) ==> AtMostOneDefault(store.cards)
    ensures OwnersHaveDefault(old(store.cards)) && body.isDefault != Some(false) ==> OwnersHaveDefault(store.cards)
  {
    var patch := CardSchema.ValidateFields(body);
    if patch.Err? {
      return Err(Unprocessable);
    }
    var found := store.GetByIdAndUser(id, u);
    if found.None? {
      return Err(NotFound);
    }
    ghost var before := store.cards;
    var updated := store.UpdateCard(found.value, patch.value);
    UpdatedKeepsDefaultRules(before, found.value, patch.value);
    return Ok(updated);
  }

  /** `DELETE /{card_id}`: 404 unless the user owns the card. */
  method DeletePaymentCard(store: CardStore, id: nat, u: nat) returns (r: Result<Card, ApiError>)
    requires store.Valid()
    modifies store
    ensures store.Valid()
    ensures r.Err? <==> Lookup(old(store.cards), id, u).None?
    ensures r.Err? ==> r.error == NotFound && store.cards == old(store.cards)
    ensures r.Ok? ==> (r.value.id == id && r.value.userId == u
      && store.cards == Deleted(old(store.cards), r.value))
    ensures AtMostOneDefault(old(store.cards)) ==> AtMostOneDefault(store.cards)
    ensures OwnersHaveDefault(old(store.cards)) ==> OwnersHaveDefault(store.cards)
  {
    ghost var before := store.cards;
    var deleted := store.DeleteByIdAndUser(id, u);
    if deleted.None? {
      return Err(NotFound);
    }
    DeletedKeepsDefaultRules(before, deleted.value);
    return Ok(deleted.value);
  }
}
