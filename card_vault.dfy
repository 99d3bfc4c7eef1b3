/**
 * The saved payment cards of every user (`CRUDPaymentCard`): creation with
 * encryption of the sensitive fields, partial update, deletion with promotion
 * of another card to default, and the rule that a user has at most one default
 * card.
 */
module CardVault {
  import opened Wrappers
  import opened Query
  import CardRules
  import CardSchema

  /** A row of `payment_cards`; the plain number and CVV are never stored. */
  datatype Card = Card(
    id: nat,
    userId: nat,
    holderName: string,
    last4: string,
    encryptedNumber: string,
    expiryMonth: string,
    expiryYear: string,
    encryptedCvv: string,
    cardType: string,
    isDefault: bool)

  function CardId(c: Card): nat { c.id }

  predicate UniqueIds(cs: seq<Card>) {
    DistinctBy(cs, CardId)
  }

  /** Every two default cards of one user are the same row. */
  predicate AtMostOneDefault(cs: seq<Card>) {
    forall i, j ::
      (0 <= i < |cs| && 0 <= j < |cs| && cs[i].userId == cs[j].userId && cs[i].isDefault && cs[j].isDefault)
      ==> cs[i].id == cs[j].id
  }

  predicate HasDefault(cs: seq<Card>, u: nat) {
    exists i :: 0 <= i < |cs| && cs[i].userId == u && cs[i].isDefault
  }

  predicate OwnsCard(cs: seq<Card>, u: nat) {
    exists i :: 0 <= i < |cs| && cs[i].userId == u
  }

  /** Every user who owns a card has a default card. */
  predicate OwnersHaveDefault(cs: seq<Card>) {
    forall i :: 0 <= i < |cs| ==> HasDefault(cs, cs[i].userId)
  }

  /** `card_number[-4:]`. */
  function LastFour(number: string): (r: string)
    ensures |r| == if |number| < 4 then |number| else 4
    ensures number == number[..|number| - |r|] + r
  {
    if |number| <= 4 then number else number[|number| - 4..]
  }

  /**
   * The bulk `UPDATE ... SET is_default = false` over the cards of `u`, except
   * the card whose id is `keep`.
   */
  function Demote(cs: seq<Card>, u: nat, keep: Option<nat>): seq<Card> {
    seq(|cs|, i requires 0 <= i < |cs| =>
      if cs[i].userId == u && keep != Some(cs[i].id) then cs[i].(isDefault := false) else cs[i])
  }

  /** Marks the card whose id is `id` as default. */
  function Promote(cs: seq<Card>, id: nat): seq<Card> {
    seq(|cs|, i requires 0 <= i < |cs| => if cs[i].id == id then cs[i].(isDefault := true) else cs[i])
  }

  /** The columns a `PaymentCardUpdate` sets; number and CVV are not columns and are dropped. */
  function ApplyPatch(c: Card, p: CardSchema.CardFields): Card {
    c.(holderName := p.holderName.GetOr(c.holderName),
       expiryMonth := p.expiryMonth.GetOr(c.expiryMonth),
       expiryYear := p.expiryYear.GetOr(c.expiryYear),
       cardType := p.cardType.GetOr(c.cardType),
       isDefault := p.isDefault.GetOr(c.isDefault))
  }

  /** The table after `create_with_user` inserted `c`. */
  function Created(cs: seq<Card>, c: Card): seq<Card> {
    (if c.isDefault then Demote(cs, c.userId, None) else cs) + [c]
  }

  /** The demotion `update_card` runs first when the patch sets `is_default` to true. */
  function DemoteForPatch(cs: seq<Card>, card: Card, p: CardSchema.CardFields): seq<Card> {
    if p.isDefault == Some(true) then Demote(cs, card.userId, Some(card.id)) else cs
  }

  /** Writes the patch onto the row whose id is `id`. */
  function PatchById(cs: seq<Card>, id: nat, p: CardSchema.CardFields): seq<Card> {
    seq(|cs|, i requires 0 <= i < |cs| => if cs[i].id == id then ApplyPatch(cs[i], p) else cs[i])
  }

  /** The table after `update_card` applied `p` to `card`. */
  function Updated(cs: seq<Card>, card: Card, p: CardSchema.CardFields): seq<Card> {
    PatchById(DemoteForPatch(cs, card, p), card.id, p)
  }

  /** What `update_card` does to one row. */
  lemma UpdatedAt(cs: seq<Card>, card: Card, p: CardSchema.CardFields, i: nat)
    requires i < |cs|
    ensures |Updated(cs, card, p)| == |cs|
    ensures var r := Updated(cs, card, p)[i];
      r.id == cs[i].id && r.userId == cs[i].userId
      && (cs[i].id == card.id ==> r == ApplyPatch(cs[i], p))
      && (cs[i].id != card.id ==>
            r.isDefault == (cs[i].isDefault && !(p.isDefault == Some(true) && cs[i].userId == card.userId)))
  {
    var d := DemoteForPatch(cs, card, p);
    assert |d| == |cs| && d[i].id == cs[i].id;
  }

  function OtherCardOf(cs: seq<Card>, id: nat, u: nat): Option<Card> {
    First(cs, (c: Card) => c.userId == u && c.id != id)
  }

  /** The promotion `delete_by_id_and_user` runs before removing a default card. */
  function PromoteSuccessor(cs: seq<Card>, obj: Card): seq<Card> {
    if obj.isDefault && OtherCardOf(cs, obj.id, obj.userId).Some? then
      Promote(cs, OtherCardOf(cs, obj.id, obj.userId).value.id)
    else cs
  }

  function NotId(id: nat): Card -> bool {
    (c: Card) => c.id != id
  }

  /** The table after `delete_by_id_and_user` removed `obj`, promoting another card if `obj` was default. */
  function Deleted(cs: seq<Card>, obj: Card): seq<Card> {
    Filter(PromoteSuccessor(cs, obj), NotId(obj.id))
  }

  /** What the promotion does to one row. */
  lemma PromoteSuccessorAt(cs: seq<Card>, obj: Card, i: nat)
    requires i < |cs|
    ensures |PromoteSuccessor(cs, obj)| == |cs|
    ensures var r := PromoteSuccessor(cs, obj)[i];
      r.id == cs[i].id && r.userId == cs[i].userId && (cs[i].isDefault ==> r.isDefault)
      && (r.isDefault && !cs[i].isDefault ==>
            obj.isDefault && OtherCardOf(cs, obj.id, obj.userId).Some?
            && OtherCardOf(cs, obj.id, obj.userId).value.id == cs[i].id)
      && ((obj.isDefault && OtherCardOf(cs, obj.id, obj.userId).Some?
            && OtherCardOf(cs, obj.id, obj.userId).value.id == cs[i].id) ==> r.isDefault)
  {
  }

  function Lookup(cs: seq<Card>, id: nat, u: nat): Option<Card> {
    First(cs, (c: Card) => c.id == id && c.userId == u)
  }

  /** Inserting a card never gives a user a second default card; a default insert is the user's only default. */
  lemma CreatedKeepsAtMostOneDefault(cs: seq<Card>, c: Card)
    requires AtMostOneDefault(cs)
    ensures AtMostOneDefault(Created(cs, c))
    ensures c.isDefault ==> forall i :: 0 <= i < |cs| && Created(cs, c)[i].userId == c.userId ==> !Created(cs, c)[i].isDefault
  {
    var r := Created(cs, c);
    forall i, j | 0 <= i < |r| && 0 <= j < |r| && r[i].userId == r[j].userId && r[i].isDefault && r[j].isDefault
      ensures r[i].id == r[j].id
    {
      if i < |cs| && j < |cs| {
        assert r[i].id == cs[i].id && r[j].id == cs[j].id;
      }
    }
  }

  /**
   * The create endpoint makes the new card default when the user had no card:
   * with that, every owner keeps a default card.
   */
  lemma CreatedKeepsOwnersDefault(cs: seq<Card>, c: Card)
    requires OwnersHaveDefault(cs)
    requires c.isDefault || OwnsCard(cs, c.userId)
    ensures OwnersHaveDefault(Created(cs, c))
  {
    var r := Created(cs, c);
    var n := |cs|;
    assert r[n] == c;
    forall k | 0 <= k < |r| ensures HasDefault(r, r[k].userId) {
      var v := r[k].userId;
      if c.isDefault && v == c.userId {
        assert r[n].userId == v && r[n].isDefault;
      } else if k == n {
        var i :| 0 <= i < |cs| && cs[i].userId == c.userId;
        var m :| 0 <= m < |cs| && cs[m].userId == cs[i].userId && cs[m].isDefault;
        assert r[m] == cs[m];
      } else {
        assert cs[k].userId == v;
        var m :| 0 <= m < |cs| && cs[m].userId == v && cs[m].isDefault;
        assert r[m] == cs[m];
      }
    }
  }

  /** Updating a card never gives its owner a second default card. */
  lemma UpdatedKeepsAtMostOneDefault(cs: seq<Card>, card: Card, p: CardSchema.CardFields)
    requires AtMostOneDefault(cs) && UniqueIds(cs) && card in cs
    ensures AtMostOneDefault(Updated(cs, card, p))
  {
    var r := Updated(cs, card, p);
    var c :| 0 <= c < |cs| && cs[c] == card;
    forall i, j | 0 <= i < |r| && 0 <= j < |r| && r[i].userId == r[j].userId && r[i].isDefault && r[j].isDefault
      ensures r[i].id == r[j].id
    {
      UpdatedAt(cs, card, p, i);
      UpdatedAt(cs, card, p, j);
      if cs[i].id == card.id {
        assert CardId(cs[i]) == CardId(cs[c]);
        assert i == c;
      }
      if cs[j].id == card.id {
        assert CardId(cs[j]) == CardId(cs[c]);
        assert j == c;
      }
    }
  }

  /**
   * Setting `is_default` to false on a user's default card leaves that user
   * with no default card: `update_card` does not promote another one.
   */
  lemma UpdateCanClearDefault(cs: seq<Card>, card: Card, p: CardSchema.CardFields)
    requires AtMostOneDefault(cs) && card in cs && card.isDefault
    requires p.isDefault == Some(false)
    ensures !HasDefault(Updated(cs, card, p), card.userId)
  {
    var r := Updated(cs, card, p);
    var c :| 0 <= c < |cs| && cs[c] == card;
    forall i | 0 <= i < |r| && r[i].userId == card.userId ensures !r[i].isDefault {
      UpdatedAt(cs, card, p, i);
    }
  }

  /** Any other update, or one on a card that is not default, keeps every owner's default card. */
  lemma UpdateKeepsOwnersDefault(cs: seq<Card>, card: Card, p: CardSchema.CardFields)
    requires OwnersHaveDefault(cs) && UniqueIds(cs) && card in cs
    requires p.isDefault != Some(false) || !card.isDefault
    ensures OwnersHaveDefault(Updated(cs, card, p))
  {
    var r := Updated(cs, card, p);
    var c :| 0 <= c < |cs| && cs[c] == card;
    forall k | 0 <= k < |r| ensures HasDefault(r, r[k].userId) {
      UpdatedAt(cs, card, p, k);
      UpdatedAt(cs, card, p, c);
      var v := r[k].userId;
      if p.isDefault == Some(true) && v == card.userId {
        assert r[c].userId == v && r[c].isDefault;
      } else {
        var m :| 0 <= m < |cs| && cs[m].userId == v && cs[m].isDefault;
        UpdatedAt(cs, card, p, m);
        if cs[m].id == card.id {
          assert CardId(cs[m]) == CardId(cs[c]);
          assert m == c;
        }
        assert r[m].userId == v && r[m].isDefault;
      }
    }
  }

  lemma DeletedKeepsUniqueIds(cs: seq<Card>, obj: Card)
    requires UniqueIds(cs)
    ensures UniqueIds(Deleted(cs, obj))
  {
    var promoted := PromoteSuccessor(cs, obj);
    assert UniqueIds(promoted) by {
      forall i, j | 0 <= i < j < |promoted| ensures CardId(promoted[i]) != CardId(promoted[j]) {
        PromoteSuccessorAt(cs, obj, i);
        PromoteSuccessorAt(cs, obj, j);
        assert CardId(cs[i]) != CardId(cs[j]);
      }
    }
    FilterKeepsDistinct(promoted, NotId(obj.id), CardId);
  }

  /** `obj` was a default card and the card whose id is `id` is the one promoted in its place. */
  predicate PromotedId(cs: seq<Card>, obj: Card, id: nat) {
    obj.isDefault && OtherCardOf(cs, obj.id, obj.userId).Some? && OtherCardOf(cs, obj.id, obj.userId).value.id == id
  }

  /** Where a row of the table after deletion comes from: row `a` of the table before. */
  lemma DeletedRowOrigin(cs: seq<Card>, obj: Card, x: Card) returns (a: nat)
    requires x in Deleted(cs, obj)
    ensures x.id != obj.id
    ensures a < |cs| && cs[a].id == x.id && cs[a].userId == x.userId
    ensures x.isDefault ==> cs[a].isDefault || PromotedId(cs, obj, x.id)
  {
    var promoted := PromoteSuccessor(cs, obj);
    assert x in promoted && NotId(obj.id)(x);
    var k :| 0 <= k < |promoted| && promoted[k] == x;
    PromoteSuccessorAt(cs, obj, k);
    a := k;
  }

  /** The promoted card belongs to the owner of the deleted default card. */
  lemma PromotedOwner(cs: seq<Card>, obj: Card, a: nat)
    requires UniqueIds(cs) && a < |cs| && PromotedId(cs, obj, cs[a].id)
    ensures obj.isDefault && cs[a].userId == obj.userId
  {
    var other := OtherCardOf(cs, obj.id, obj.userId).value;
    var w :| 0 <= w < |cs| && cs[w] == other;
    assert CardId(cs[a]) == CardId(cs[w]);
  }

  /** Every row left after deletion was already in the table under an id other than the deleted one. */
  lemma DeletedIdsBelow(cs: seq<Card>, obj: Card, n: nat)
    requires forall i :: 0 <= i < |cs| ==> cs[i].id < n
    ensures forall x :: x in Deleted(cs, obj) ==> x.id < n && x.id != obj.id
  {
    forall x | x in Deleted(cs, obj) ensures x.id < n && x.id != obj.id {
      var _ := DeletedRowOrigin(cs, obj, x);
    }
  }

  /** Deleting a card never gives a user a second default card. */
  lemma DeletedKeepsAtMostOneDefault(cs: seq<Card>, obj: Card)
    requires AtMostOneDefault(cs) && UniqueIds(cs) && obj in cs
    ensures AtMostOneDefault(Deleted(cs, obj))
  {
    var r := Deleted(cs, obj);
    forall i, j | 0 <= i < |r| && 0 <= j < |r| && r[i].userId == r[j].userId && r[i].isDefault && r[j].isDefault
      ensures r[i].id == r[j].id
    {
      DeletedPair(cs, obj, r[i], r[j]);
    }
  }

  lemma DeletedPair(cs: seq<Card>, obj: Card, x: Card, y: Card)
    requires AtMostOneDefault(cs) && UniqueIds(cs) && obj in cs
    requires x in Deleted(cs, obj) && y in Deleted(cs, obj)
    requires x.userId == y.userId && x.isDefault && y.isDefault
    ensures x.id == y.id
  {
    var a := DeletedRowOrigin(cs, obj, x);
    var b := DeletedRowOrigin(cs, obj, y);
    var o :| 0 <= o < |cs| && cs[o] == obj;
    if !cs[a].isDefault && cs[b].isDefault {
      PromotedOwner(cs, obj, a);
      assert false;
    } else if cs[a].isDefault && !cs[b].isDefault {
      PromotedOwner(cs, obj, b);
      assert false;
    }
  }

  /**
   * Deleting a default card promotes the first other card of its owner, so
   * every user who still owns a card keeps a default card.
   */
  lemma DeletedKeepsOwnersDefault(cs: seq<Card>, obj: Card)
    requires OwnersHaveDefault(cs) && UniqueIds(cs) && obj in cs
    ensures OwnersHaveDefault(Deleted(cs, obj))
  {
    var promoted := PromoteSuccessor(cs, obj);
    var r := Deleted(cs, obj);
    var o :| 0 <= o < |cs| && cs[o] == obj;
    forall k | 0 <= k < |r| ensures HasDefault(r, r[k].userId) {
      var v := r[k].userId;
      assert r[k] in promoted && NotId(obj.id)(r[k]);
      var a :| 0 <= a < |promoted| && promoted[a] == r[k];
      PromoteSuccessorAt(cs, obj, a);
      assert cs[a].userId == v && cs[a].id != obj.id;
      var m :| 0 <= m < |cs| && cs[m].userId == v && cs[m].isDefault;
      PromoteSuccessorAt(cs, obj, m);
      if cs[m].id != obj.id {
        assert NotId(obj.id)(promoted[m]);
        assert promoted[m] in r;
        assert r[k].userId == promoted[m].userId && promoted[m].isDefault;
      } else {
        assert CardId(cs[m]) == CardId(cs[o]);
        assert m == o;
        var other := OtherCardOf(cs, obj.id, obj.userId);
        assert other.Some? by {
          assert cs[a].userId == obj.userId && cs[a].id != obj.id;
        }
        var w :| 0 <= w < |cs| && cs[w] == other.value;
        PromoteSuccessorAt(cs, obj, w);
        assert NotId(obj.id)(promoted[w]);
        assert promoted[w] in r;
        assert promoted[w].userId == v && promoted[w].isDefault;
      }
    }
  }

  /** Both default-card rules survive `create_with_user`, the second one when the endpoint's first-card rule applies. */
  lemma CreatedKeepsDefaultRules(cs: seq<Card>, c: Card)
    ensures AtMostOneDefault(cs) ==> AtMostOneDefault(Created(cs, c))
    ensures OwnersHaveDefault(cs) && (c.isDefault || OwnsCard(cs, c.userId)) ==> OwnersHaveDefault(Created(cs, c))
  {
    if AtMostOneDefault(cs) {
      CreatedKeepsAtMostOneDefault(cs, c);
    }
    if OwnersHaveDefault(cs) && (c.isDefault || OwnsCard(cs, c.userId)) {
      CreatedKeepsOwnersDefault(cs, c);
    }
  }

  /** A card created as default is the one the default-card lookup of its owner finds. */
  lemma CreatedDefaultIsFound(cs: seq<Card>, c: Card)
    requires c.isDefault
    ensures First(Created(cs, c), (x: Card) => x.userId == c.userId && x.isDefault) == Some(c)
  {
    var r := Created(cs, c);
    forall j | 0 <= j < |cs| ensures !(r[j].userId == c.userId && r[j].isDefault) {
      assert r[j] == Demote(cs, c.userId, None)[j];
    }
    FirstIs(r, (x: Card) => x.userId == c.userId && x.isDefault, |cs|);
  }

  /** Both default-card rules survive `update_card`, the second one unless the patch clears a default card. */
  lemma UpdatedKeepsDefaultRules(cs: seq<Card>, card: Card, p: CardSchema.CardFields)
    requires UniqueIds(cs) && card in cs
    ensures AtMostOneDefault(cs) ==> AtMostOneDefault(Updated(cs, card, p))
    ensures OwnersHaveDefault(cs) && (p.isDefault != Some(false) || !card.isDefault) ==> OwnersHaveDefault(Updated(cs, card, p))
  {
    if AtMostOneDefault(cs) {
      UpdatedKeepsAtMostOneDefault(cs, card, p);
    }
    if OwnersHaveDefault(cs) && (p.isDefault != Some(false) || !card.isDefault) {
      UpdateKeepsOwnersDefault(cs, card, p);
    }
  }

  /** Both default-card rules survive `delete_by_id_and_user`. */
  lemma DeletedKeepsDefaultRules(cs: seq<Card>, obj: Card)
    requires UniqueIds(cs) && obj in cs
    ensures AtMostOneDefault(cs) ==> AtMostOneDefault(Deleted(cs, obj))
    ensures OwnersHaveDefault(cs) ==> OwnersHaveDefault(Deleted(cs, obj))
  {
    if AtMostOneDefault(cs) {
      DeletedKeepsAtMostOneDefault(cs, obj);
    }
    if OwnersHaveDefault(cs) {
      DeletedKeepsOwnersDefault(cs, obj);
    }
  }

  /** The `payment_cards` table. */
  class CardStore {
    var cards: seq<Card>
    var nextId: nat
    const cipher: CardRules.Cipher

    ghost predicate Valid()
      reads this
    {
      UniqueIds(cards) && forall i :: 0 <= i < |cards| ==> cards[i].id < nextId
    }

    constructor (cipher: CardRules.Cipher)
      ensures Valid() && cards == [] && this.cipher == cipher
    {
      cards := [];
      nextId := 1;
      this.cipher := cipher;
    }

    /** `get_by_user`: the user's cards, `skip` rows in, at most `limit` of them. */
    function GetByUser(u: nat, skip: nat, limit: nat): (r: seq<Card>)
      reads this
      ensures |r| <= limit
      ensures forall k :: 0 <= k < |r| ==> r[k] in cards && r[k].userId == u
      ensures skip == 0 && limit >= |cards| ==>
        forall i :: 0 <= i < |cards| && cards[i].userId == u ==> cards[i] in r
      ensures skip == 0 && limit > 0 ==> (r == [] <==> !OwnsCard(cards, u))
      ensures IsWindow(r, Filter(cards, (c: Card) => c.userId == u), skip, limit)
    {
      var mine := Filter(cards, (c: Card) => c.userId == u);
      assert skip == 0 && limit >= |cards| ==> Window(mine, skip, limit) == mine;
      var w := Window(mine, skip, limit);
      assert OwnsCard(cards, u) ==> |mine| > 0 by {
        if OwnsCard(cards, u) {
          var i :| 0 <= i < |cards| && cards[i].userId == u;
          assert cards[i] in mine;
        }
      }
      assert |w| > 0 ==> OwnsCard(cards, u) by {
        if |w| > 0 {
          assert w[0] in mine;
          var i :| 0 <= i < |cards| && cards[i] == w[0];
        }
      }
      w
    }

    /** `get_by_id_and_user`: the card only when it belongs to `u`. */
    function GetByIdAndUser(id: nat, u: nat): (r: Option<Card>)
      reads this
      ensures r.Some? ==> r.value in cards && r.value.id == id && r.value.userId == u
      ensures r.None? <==> forall i :: 0 <= i < |cards| ==> !(cards[i].id == id && cards[i].userId == u)
    {
      Lookup(cards, id, u)
    }

    /** `get_default_card`. */
    function GetDefaultCard(u: nat): (r: Option<Card>)
      reads this
      ensures r.Some? ==> r.value in cards && r.value.userId == u && r.value.isDefault
      ensures r.None? <==> !HasDefault(cards, u)
    {
      First(cards, (c: Card) => c.userId == u && c.isDefault)
    }

    /**
     * `create_with_user`: stores the card type, the last four digits and the
     * encrypted number and CVV; a default card first demotes every card the
     * user already has.
     */
    method CreateWithUser(input: CardSchema.CardCreate, u: nat) returns (card: Card)
      requires Valid()
      modifies this
      ensures Valid()
      ensures card.id == old(nextId) && card.userId == u
      ensures card.holderName == input.holderName && card.isDefault == input.isDefault
      ensures card.expiryMonth == input.expiryMonth && card.expiryYear == input.expiryYear
      ensures card.last4 == LastFour(input.number)
      ensures card.cardType == CardRules.CardTypeName(CardRules.GetCardType(input.number))
      ensures card.encryptedNumber == CardRules.EncryptCardData(cipher, input.number)
      ensures card.encryptedCvv == CardRules.EncryptCardData(cipher, input.cvv)
      ensures cards == Created(old(cards), card)
    {
      var cardType := CardRules.GetCardType(input.number);
      var encryptedNumber := CardRules.EncryptCardData(cipher, input.number);
      var encryptedCvv := CardRules.EncryptCardData(cipher, input.cvv);
      card := Card(nextId, u, input.holderName, LastFour(input.number), encryptedNumber,
                   input.expiryMonth, input.expiryYear, encryptedCvv,
                   CardRules.CardTypeName(cardType), input.isDefault);
      if input.isDefault {
        cards := Demote(cards, u, None);
      }
      cards := cards + [card];
      nextId := nextId + 1;
      assert forall i :: 0 <= i < |cards| - 1 ==> cards[i].id == old(cards)[i].id;
    }

    /**
     * `update_card`: a patch that sets `is_default` to true first demotes the
     * owner's other cards; then the columns the patch names are written.
     */
    method UpdateCard(card: Card, p: CardSchema.CardFields) returns (updated: Card)
      requires Valid() && card in cards
      modifies this
      ensures Valid() && nextId == old(nextId)
      ensures updated == ApplyPatch(card, p) && updated in cards
      ensures cards == Updated(old(cards), card, p)
    {
      var c :| 0 <= c < |cards| && cards[c] == card;
      if p.isDefault == Some(true) {
        cards := Demote(cards, card.userId, Some(card.id));
      }
      cards := PatchById(cards, card.id, p);
      updated := cards[c];
      forall i | 0 <= i < |cards| ensures cards[i].id == old(cards)[i].id {
        UpdatedAt(old(cards), card, p, i);
      }
      UpdatedAt(old(cards), card, p, c);
    }

    /**
     * `delete_by_id_and_user`: nothing when the user has no such card;
     * otherwise the card is removed, and when it was the default the first
     * other card of the user becomes default.
     */
    method DeleteByIdAndUser(id: nat, u: nat) returns (deleted: Option<Card>)
      requires Valid()
      modifies this
      ensures Valid() && nextId == old(nextId)
      ensures deleted == Lookup(old(cards), id, u)
      ensures deleted.None? ==> cards == old(cards)
      ensures deleted.Some? ==> cards == Deleted(old(cards), deleted.value)
      ensures deleted.Some? ==> forall i :: 0 <= i < |cards| ==> cards[i].id != id
    {
      deleted := Lookup(cards, id, u);
      if deleted.None? {
        return;
      }
      var obj := deleted.value;
      if obj.isDefault {
        var other := OtherCardOf(cards, id, u);
        if other.Some? {
          cards := Promote(cards, other.value.id);
        }
      }
      assert cards == PromoteSuccessor(old(cards), obj);
      cards := Filter(cards, NotId(obj.id));
      DeletedKeepsUniqueIds(old(cards), obj);
      DeletedIdsBelow(old(cards), obj, nextId);
    }
  }
}
