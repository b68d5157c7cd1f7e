/**
 * The stamp-card bookkeeping of the stamp provider.
 *
 * The document store holds three collections: cards, per-user stamp records and
 * history entries. Every operation checks the signed-in user, reads what the
 * provider has loaded, writes documents with `setDoc` / `deleteDoc` and then
 * reloads. The provider's loaded `userStamps` are the records stored under the
 * signed-in user's key. A record is always stored under the key of its own
 * `userId`, so that list is the records whose `userId` is that key.
 *
 * Each operation is a function from the store before to the store after, or to
 * the error it throws (`CreateCardIn`, `DeleteCardIn`, `AddStampIn`,
 * `AddAutoStampIn`, `ClaimRewardIn`). The class `StampProvider` performs the same
 * steps on its fields.
 */
module StampContext {
  import opened Common
  import opened Lists
  import opened StampTypes

  /** The messages of the `Error`s the operations throw. */
  datatype StampError =
    | NotAuthenticated                 // 'User must be authenticated'
    | CardNotFound                     // 'Stamp card not found'
    | NotAuthorized                    // 'Not authorized to delete this card'
    | AlreadyFull                      // 'Stamp card is already full'
    | NoOwnedCards                     // 'No stamp cards owned by this user'
    | SelectedCardNotOwned             // 'Selected card not found or not owned by user'
    | MultipleCardsRequireSelection    // 'MULTIPLE_CARDS_REQUIRE_SELECTION'
    | StampDataNotFound                // 'Stamp data not found'
    | NotEnoughStamps                  // 'Not enough stamps to claim reward'

  /** The three collections of the document store, each in listing order. */
  datatype Store = Store(cards: seq<StampCard>, records: seq<UserStamp>, history: seq<StampHistory>)

  // ---------------------------------------------------------------------------
  // Lookups
  // ---------------------------------------------------------------------------

  /** `c => c.id === id` */
  function CardIs(id: string): StampCard -> bool { (c: StampCard) => c.id == id }

  /** `card => card.shopOwner === key` */
  function OwnedBy(key: string): StampCard -> bool { (c: StampCard) => c.shopOwner == key }

  /** The records listed under `userId:<key>`. */
  function BelongsTo(key: string): UserStamp -> bool { (r: UserStamp) => r.userId == key }

  /** `s => s.cardId === cardId` */
  function OnCard(cardId: string): UserStamp -> bool { (r: UserStamp) => r.cardId == cardId }

  /** `s => s.cardId === cardId && s.userId === userId` */
  function RecordOf(userId: string, cardId: string): UserStamp -> bool {
    (r: UserStamp) => r.cardId == cardId && r.userId == userId
  }

  /** The provider's `userStamps` after a refresh for the user `key`. */
  function LoadedStamps(records: seq<UserStamp>, key: string): (loaded: seq<UserStamp>)
    ensures forall r :: r in loaded <==> r in records && r.userId == key
  {
    Filter(records, BelongsTo(key))
  }

  /**
   * `getUserStamp(cardId)` for the user `key`: the first loaded record for the card.
   * It is the first record of the whole collection that is both the user's and the card's.
   */
  function UserStampFor(records: seq<UserStamp>, key: string, cardId: string): (r: Option<UserStamp>)
    ensures r == Find(records, RecordOf(key, cardId))
    ensures r.Some? ==> r.value in records && r.value.userId == key && r.value.cardId == cardId
  {
    FindInFilter(records, BelongsTo(key), OnCard(cardId), RecordOf(key, cardId));
    Find(LoadedStamps(records, key), OnCard(cardId))
  }

  /** `stampCards.find(c => c.id === cardId)` */
  function CardFor(cards: seq<StampCard>, cardId: string): (c: Option<StampCard>)
    ensures c.Some? ==> c.value in cards && c.value.id == cardId
    ensures c.None? <==> !HasKey(cards, cardId, CardKey)
  {
    CardLookup(cards, cardId);
    Find(cards, CardIs(cardId))
  }

  lemma CardLookup(cards: seq<StampCard>, cardId: string)
    ensures Find(cards, CardIs(cardId)).None? <==> !HasKey(cards, cardId, CardKey)
  {
    if Find(cards, CardIs(cardId)).None? {
      forall i | 0 <= i < |cards| ensures CardKey(cards[i]) != cardId {
        assert cards[i] in cards;
      }
    }
  }

  // ---------------------------------------------------------------------------
  // The documents the operations write
  // ---------------------------------------------------------------------------

  /** The card `createStampCard` stores: the draft, a new id, the creation time and the owner. */
  function NewCard(draft: CardDraft, id: string, now: int, owner: string): (c: StampCard)
    ensures DraftOf(c) == draft
    ensures c.id == id && c.createdAt == now && c.shopOwner == owner
  {
    StampCard(id, draft.shopName, draft.description, draft.requiredStamps, draft.reward, now,
              draft.expiresAt, draft.expirationDays, owner, draft.pointsPerStamp)
  }

  /** The owner-supplied fields of a card. */
  function DraftOf(c: StampCard): CardDraft {
    CardDraft(c.shopName, c.description, c.requiredStamps, c.reward, c.expiresAt, c.expirationDays, c.pointsPerStamp)
  }

  /** An existing record with one more stamp. */
  function Stamped(r: UserStamp, now: int): (s: UserStamp)
    ensures s.id == r.id && s.userId == r.userId && s.cardId == r.cardId
    ensures s.stampCount == r.stampCount + 1 && s.completedCount == r.completedCount
  {
    r.(stampCount := r.stampCount + 1, lastStampedAt := now, updatedAt := now)
  }

  /** A new record holding its first stamp. */
  function FirstStamp(id: string, userId: string, cardId: string, now: int): UserStamp {
    UserStamp(id, userId, cardId, 1, now, 0, now, now, None, None)
  }

  /** A record after its reward has been claimed. */
  function Claimed(r: UserStamp, now: int): (s: UserStamp)
    ensures s.id == r.id && s.userId == r.userId && s.cardId == r.cardId
    ensures s.stampCount == 0 && s.completedCount == r.completedCount + 1
  {
    r.(stampCount := 0, completedCount := r.completedCount + 1, updatedAt := now)
  }

  /** The stamp a record write gives: one more on the found record, or a first one. */
  function StampedRecord(existing: Option<UserStamp>, id: string, userId: string, cardId: string, now: int): UserStamp {
    if existing.Some? then Stamped(existing.value, now) else FirstStamp(id, userId, cardId, now)
  }

  /** The history entry of `addStamp`: `stampNumber` is the previous count (`|| 0`) plus one. */
  function StampEntry(id: string, userId: string, cardId: string, now: int, existing: Option<UserStamp>): StampHistory {
    var before := if existing.Some? then existing.value.stampCount else 0;
    StampHistory(id, userId, cardId, Stamp, now, Some(NoMetadata().(stampNumber := Some(before + 1))))
  }

  /** The history entry of `addAutoStamp`: written for the recipient, naming the caller. */
  function AutoStampEntry(id: string, recipient: string, cardId: string, now: int, caller: string): StampHistory {
    StampHistory(id, recipient, cardId, Stamp, now,
                 Some(NoMetadata().(autoStamp := Some(true), paymentReceiver := Some(caller))))
  }

  /** The history entry of `claimReward`. */
  function CompleteEntry(id: string, userId: string, cardId: string, now: int): StampHistory {
    StampHistory(id, userId, cardId, Complete, now, Some(NoMetadata().(rewardClaimed := Some(true))))
  }

  // ---------------------------------------------------------------------------
  // The operations on the store
  // ---------------------------------------------------------------------------

  /** `createStampCard(card)` with `nanoid()` = `id` and `Date.now()` = `now`. */
  function CreateCardIn(user: Option<string>, s: Store, draft: CardDraft, id: string, now: int): (r: Result<Store, StampError>)
    ensures user.None? <==> r == Err(NotAuthenticated)
    ensures r.Ok? ==> r.value.records == s.records && r.value.history == s.history
    ensures r.Ok? ==> CardFor(r.value.cards, id) == Some(NewCard(draft, id, now, user.value))
    ensures r.Ok? && !HasKey(s.cards, id, CardKey) ==> r.value.cards == s.cards + [NewCard(draft, id, now, user.value)]
  {
    if user.None? then Err(NotAuthenticated)
    else
      var card := NewCard(draft, id, now, user.value);
      FindAfterUpsert(s.cards, card, CardKey, CardIs(id));
      assert !HasKey(s.cards, id, CardKey) ==> Upsert(s.cards, card, CardKey) == s.cards + [card] by {
        if !HasKey(s.cards, id, CardKey) {
          UpsertNew(s.cards, card, CardKey);
        }
      }
      Ok(s.(cards := Upsert(s.cards, card, CardKey)))
  }

  /** `deleteStampCard(cardId)`. */
  function DeleteCardIn(user: Option<string>, s: Store, cardId: string): (r: Result<Store, StampError>)
    ensures user.None? ==> r == Err(NotAuthenticated)
    ensures user.Some? && !HasKey(s.cards, cardId, CardKey) ==> r == Err(CardNotFound)
    ensures r.Ok? ==> r.value.records == s.records && r.value.history == s.history
    ensures r.Ok? ==> forall c :: c in r.value.cards <==> c in s.cards && c.id != cardId
  {
    if user.None? then Err(NotAuthenticated)
    else match CardFor(s.cards, cardId)
      case None => Err(CardNotFound)
      case Some(card) =>
        if card.shopOwner != user.value then Err(NotAuthorized)
        else Ok(s.(cards := Delete(s.cards, cardId, CardKey)))
  }

  /** `addStamp(cardId)`, with `nanoid()` = `recordId` for a new record and `entryId` for the history entry. */
  function AddStampIn(user: Option<string>, s: Store, cardId: string, recordId: string, entryId: string, now: int)
    : (r: Result<Store, StampError>)
    ensures user.None? ==> r == Err(NotAuthenticated)
    ensures user.Some? && !HasKey(s.cards, cardId, CardKey) ==> r == Err(CardNotFound)
    ensures r.Ok? ==> r.value.cards == s.cards && |r.value.records| >= |s.records|
  {
    if user.None? then Err(NotAuthenticated)
    else
      var existing := UserStampFor(s.records, user.value, cardId);
      match CardFor(s.cards, cardId)
      case None => Err(CardNotFound)
      case Some(card) =>
        if existing.Some? && existing.value.stampCount >= card.requiredStamps then Err(AlreadyFull)
        else
          var record := StampedRecord(existing, recordId, user.value, cardId, now);
          UpsertLength(s.records, record, StampKey);
          Ok(Store(s.cards,
                   Upsert(s.records, record, StampKey),
                   Upsert(s.history, StampEntry(entryId, user.value, cardId, now, existing), EntryKey)))
  }

  /** `setDoc` never shortens a listing. */
  lemma {:induction false} UpsertLength<T(!new)>(docs: seq<T>, doc: T, key: T -> string)
    ensures |docs| <= |Upsert(docs, doc, key)| <= |docs| + 1
  {
    if docs != [] && key(docs[0]) != key(doc) {
      UpsertLength(docs[1..], doc, key);
    }
  }

  /**
   * The card `addAutoStamp` stamps. A selection (`selectedCardId`, where the empty
   * string is falsy like `undefined`) must be among the owned cards; without one,
   * a single owned card is chosen and several are refused.
   */
  function SelectAutoStampCard(owned: seq<StampCard>, selected: Option<string>): (r: Result<StampCard, StampError>)
    ensures owned == [] ==> r == Err(NoOwnedCards)
    ensures r.Ok? ==> r.value in owned
    ensures owned != [] && selected.Some? && selected.value != "" ==>
      (r.Ok? <==> exists c :: c in owned && c.id == selected.value) &&
      (r.Ok? ==> r.value.id == selected.value) &&
      (r.Err? ==> r.error == SelectedCardNotOwned)
    ensures owned != [] && (selected.None? || selected.value == "") ==>
      r == if |owned| == 1 then Ok(owned[0]) else Err(MultipleCardsRequireSelection)
  {
    if |owned| == 0 then Err(NoOwnedCards)
    else if selected.Some? && selected.value != "" then
      match Find(owned, CardIs(selected.value))
      case Some(card) => Ok(card)
      case None => Err(SelectedCardNotOwned)
    else if |owned| == 1 then Ok(owned[0])
    else Err(MultipleCardsRequireSelection)
  }

  /** The part of `addAutoStamp` after the card is chosen, given the record the lookup found. */
  function AutoStampWith(caller: string, s: Store, recipient: string, card: StampCard, existing: Option<UserStamp>,
                         recordId: string, entryId: string, now: int): Result<Store, StampError>
  {
    if existing.Some? && existing.value.stampCount >= card.requiredStamps then Err(AlreadyFull)
    else
      Ok(Store(s.cards,
               Upsert(s.records, StampedRecord(existing, recordId, recipient, card.id, now), StampKey),
               Upsert(s.history, AutoStampEntry(entryId, recipient, card.id, now, caller), EntryKey)))
  }

  /**
   * `addAutoStamp(recipient, selectedCardId)` as written: the recipient's record is
   * looked up in the caller's own loaded `userStamps`.
   */
  function AddAutoStampAsWritten(user: Option<string>, s: Store, recipient: string, selected: Option<string>,
                                 recordId: string, entryId: string, now: int): (r: Result<Store, StampError>)
    ensures user.None? ==> r == Err(NotAuthenticated)
    ensures r.Ok? ==> r.value.cards == s.cards
  {
    if user.None? then Err(NotAuthenticated)
    else match SelectAutoStampCard(Filter(s.cards, OwnedBy(user.value)), selected)
      case Err(e) => Err(e)
      case Ok(card) =>
        var existing := Find(LoadedStamps(s.records, user.value), RecordOf(recipient, card.id));
        AutoStampWith(user.value, s, recipient, card, existing, recordId, entryId, now)
  }

  /**
   * `addAutoStamp(recipient, selectedCardId)` with the recipient's record looked up
   * where it is stored: the record the recipient's own `getUserStamp` finds.
   */
  function AddAutoStampIn(user: Option<string>, s: Store, recipient: string, selected: Option<string>,
                          recordId: string, entryId: string, now: int): (r: Result<Store, StampError>)
    ensures user.None? ==> r == Err(NotAuthenticated)
    ensures user.Some? && Filter(s.cards, OwnedBy(user.value)) == [] ==> r == Err(NoOwnedCards)
    ensures r.Ok? ==> r.value.cards == s.cards
  {
    if user.None? then Err(NotAuthenticated)
    else match SelectAutoStampCard(Filter(s.cards, OwnedBy(user.value)), selected)
      case Err(e) => Err(e)
      case Ok(card) =>
        AutoStampWith(user.value, s, recipient, card, UserStampFor(s.records, recipient, card.id), recordId, entryId, now)
  }

  /** `claimReward(cardId)`. */
  function ClaimRewardIn(user: Option<string>, s: Store, cardId: string, entryId: string, now: int)
    : (r: Result<Store, StampError>)
    ensures user.None? ==> r == Err(NotAuthenticated)
    ensures user.Some? && UserStampFor(s.records, user.value, cardId).None? ==> r == Err(StampDataNotFound)
    ensures r.Ok? ==> r.value.cards == s.cards && |r.value.records| == |s.records|
  {
    if user.None? then Err(NotAuthenticated)
    else
      var stamp := UserStampFor(s.records, user.value, cardId);
      var card := CardFor(s.cards, cardId);
      if stamp.None? || card.None? then Err(StampDataNotFound)
      else if stamp.value.stampCount < card.value.requiredStamps then Err(NotEnoughStamps)
      else
        var record := Claimed(stamp.value, now);
        ReplaceFound(s.records, RecordOf(user.value, cardId), record);
        Ok(Store(s.cards, Upsert(s.records, record, StampKey), Upsert(s.history, CompleteEntry(entryId, user.value, cardId, now), EntryKey)))
  }

  /**
   * The hand-over an owner's scan of a customer's claim code calls for: the
   * reward claimed on the record of the customer named in the code, by a
   * signed-in owner.
   */
  function HandOverRewardIn(user: Option<string>, s: Store, customer: string, cardId: string, entryId: string, now: int)
    : (r: Result<Store, StampError>)
    ensures user.None? ==> r == Err(NotAuthenticated)
    ensures user.Some? && UserStampFor(s.records, customer, cardId).None? ==> r == Err(StampDataNotFound)
    ensures r.Ok? ==> r.value.cards == s.cards && |r.value.records| == |s.records|
  {
    if user.None? then Err(NotAuthenticated) else ClaimRewardIn(Some(customer), s, cardId, entryId, now)
  }

  /** A record written back under the key of a record already in the collection keeps its length. */
  lemma {:induction false} ReplaceFound(records: seq<UserStamp>, p: UserStamp -> bool, record: UserStamp)
    requires Find(records, p).Some? && Find(records, p).value.id == record.id
    ensures |Upsert(records, record, StampKey)| == |records|
  {
    if records[0].id != record.id {
      FindCons(records, p);
      ReplaceFound(records[1..], p, record);
    }
  }

  // ---------------------------------------------------------------------------
  // The invariant of the store
  // ---------------------------------------------------------------------------

  /** No record holds more stamps than its card requires, nor fewer than none. */
  predicate StampsWithinLimit(s: Store) {
    forall r, c :: r in s.records && c in s.cards && r.cardId == c.id ==> 0 <= r.stampCount <= c.requiredStamps
  }

  /** Keys are distinct in every collection, every card asks for at least one stamp, and records stay within their card. */
  predicate WellFormed(s: Store) {
    && UniqueKeys(s.cards, CardKey)
    && UniqueKeys(s.records, StampKey)
    && UniqueKeys(s.history, EntryKey)
    && (forall c :: c in s.cards ==> c.requiredStamps >= 1)
    && StampsWithinLimit(s)
  }

  /** A card created with a new id and at least one required stamp keeps the store well formed. */
  lemma CreateCardKeepsWellFormed(user: Option<string>, s: Store, draft: CardDraft, id: string, now: int)
    requires WellFormed(s) && draft.requiredStamps >= 1
    requires forall r :: r in s.records ==> r.cardId != id
    requires CreateCardIn(user, s, draft, id, now).Ok?
    ensures WellFormed(CreateCardIn(user, s, draft, id, now).value)
  {
    var card := NewCard(draft, id, now, user.value);
    var after := CreateCardIn(user, s, draft, id, now).value;
    UpsertKeepsUnique(s.cards, card, CardKey);
    forall r, c | r in after.records && c in after.cards && r.cardId == c.id
      ensures 0 <= r.stampCount <= c.requiredStamps
    {
      assert c != card;
    }
  }

  /** Deleting a card keeps the store well formed (its records stay, with no card to exceed). */
  lemma DeleteCardKeepsWellFormed(user: Option<string>, s: Store, cardId: string)
    requires WellFormed(s) && DeleteCardIn(user, s, cardId).Ok?
    ensures WellFormed(DeleteCardIn(user, s, cardId).value)
  {
    DeleteKeepsUnique(s.cards, cardId, CardKey);
  }

  /** The record a stamp writes stays within its card's requirement. */
  lemma StampedWithinLimit(s: Store, existing: Option<UserStamp>, card: StampCard, record: UserStamp, c: StampCard)
    requires WellFormed(s) && card in s.cards && c in s.cards && c.id == card.id
    requires existing.Some? ==> existing.value in s.records && existing.value.cardId == card.id
    requires existing.Some? ==> existing.value.stampCount < card.requiredStamps && record.stampCount == existing.value.stampCount + 1
    requires existing.None? ==> record.stampCount == 1
    ensures 0 <= record.stampCount <= c.requiredStamps
  {
    SameKeySameDoc(s.cards, CardKey, c, card);
  }

  /** `addStamp` keeps the store well formed: a full record is refused, so no count passes its card. */
  lemma AddStampKeepsWellFormed(user: Option<string>, s: Store, cardId: string, recordId: string, entryId: string, now: int)
    requires WellFormed(s) && AddStampIn(user, s, cardId, recordId, entryId, now).Ok?
    ensures WellFormed(AddStampIn(user, s, cardId, recordId, entryId, now).value)
  {
    var after := AddStampIn(user, s, cardId, recordId, entryId, now).value;
    var existing := UserStampFor(s.records, user.value, cardId);
    var card := CardFor(s.cards, cardId).value;
    var record := StampedRecord(existing, recordId, user.value, cardId, now);
    var entry := StampEntry(entryId, user.value, cardId, now, existing);
    UpsertKeepsUnique(s.records, record, StampKey);
    UpsertKeepsUnique(s.history, entry, EntryKey);
    forall r, c | r in after.records && c in after.cards && r.cardId == c.id
      ensures 0 <= r.stampCount <= c.requiredStamps
    {
      if r !in s.records {
        StampedWithinLimit(s, existing, card, record, c);
      }
    }
  }

  /** `addAutoStamp` keeps the store well formed. */
  lemma AddAutoStampKeepsWellFormed(user: Option<string>, s: Store, recipient: string, selected: Option<string>,
                                    recordId: string, entryId: string, now: int)
    requires WellFormed(s) && AddAutoStampIn(user, s, recipient, selected, recordId, entryId, now).Ok?
    ensures WellFormed(AddAutoStampIn(user, s, recipient, selected, recordId, entryId, now).value)
  {
    var after := AddAutoStampIn(user, s, recipient, selected, recordId, entryId, now).value;
    var card := SelectAutoStampCard(Filter(s.cards, OwnedBy(user.value)), selected).value;
    var existing := UserStampFor(s.records, recipient, card.id);
    var record := StampedRecord(existing, recordId, recipient, card.id, now);
    UpsertKeepsUnique(s.records, record, StampKey);
    UpsertKeepsUnique(s.history, AutoStampEntry(entryId, recipient, card.id, now, user.value), EntryKey);
    forall r, c | r in after.records && c in after.cards && r.cardId == c.id
      ensures 0 <= r.stampCount <= c.requiredStamps
    {
      if r !in s.records {
        StampedWithinLimit(s, existing, card, record, c);
      }
    }
  }

  /** `claimReward` keeps the store well formed: the claimed record restarts at zero. */
  lemma ClaimRewardKeepsWellFormed(user: Option<string>, s: Store, cardId: string, entryId: string, now: int)
    requires WellFormed(s) && ClaimRewardIn(user, s, cardId, entryId, now).Ok?
    ensures WellFormed(ClaimRewardIn(user, s, cardId, entryId, now).value)
  {
    var after := ClaimRewardIn(user, s, cardId, entryId, now).value;
    var stamp := UserStampFor(s.records, user.value, cardId).value;
    var record := Claimed(stamp, now);
    UpsertKeepsUnique(s.records, record, StampKey);
    UpsertKeepsUnique(s.history, CompleteEntry(entryId, user.value, cardId, now), EntryKey);
    forall r, c | r in after.records && c in after.cards && r.cardId == c.id
      ensures 0 <= r.stampCount <= c.requiredStamps
    {
    }
  }

  /** In a well-formed store a reward is claimed exactly when the record holds all the stamps its card requires. */
  lemma ClaimOnlyWhenFull(user: string, s: Store, cardId: string, entryId: string, now: int)
    requires WellFormed(s)
    requires UserStampFor(s.records, user, cardId).Some? && CardFor(s.cards, cardId).Some?
    ensures ClaimRewardIn(Some(user), s, cardId, entryId, now).Ok? <==>
      UserStampFor(s.records, user, cardId).value.stampCount == CardFor(s.cards, cardId).value.requiredStamps
  {
    var stamp := UserStampFor(s.records, user, cardId).value;
    var card := CardFor(s.cards, cardId).value;
    assert 0 <= stamp.stampCount <= card.requiredStamps;
  }

  // ---------------------------------------------------------------------------
  // What each operation does to the record it finds
  // ---------------------------------------------------------------------------

  /** `deleteStampCard` removes exactly the card with the id when the user owns it, and refuses otherwise. */
  lemma DeleteCardOutcome(user: string, s: Store, i: nat)
    requires UniqueKeys(s.cards, CardKey) && i < |s.cards|
    ensures DeleteCardIn(Some(user), s, s.cards[i].id) ==
      if s.cards[i].shopOwner == user then Ok(s.(cards := s.cards[..i] + s.cards[i + 1..]))
      else Err(NotAuthorized)
  {
    var card := CardFor(s.cards, s.cards[i].id).value;
    SameKeySameDoc(s.cards, CardKey, card, s.cards[i]);
    DeleteExisting(s.cards, i, CardKey);
  }

  /**
   * `addStamp` on a card whose record is at position `j`: a full record is refused;
   * otherwise exactly that record gains one stamp, one history entry is appended
   * with the new stamp number, and `getUserStamp` then returns the stamped record.
   */
  lemma AddStampOnRecord(user: string, s: Store, cardId: string, recordId: string, entryId: string, now: int,
                         j: nat, card: StampCard)
    requires UniqueKeys(s.records, StampKey) && !HasKey(s.history, entryId, EntryKey)
    requires j < |s.records| && FirstIndex(s.records, RecordOf(user, cardId)) == j
    requires CardFor(s.cards, cardId) == Some(card)
    ensures AddStampIn(Some(user), s, cardId, recordId, entryId, now) ==
      if s.records[j].stampCount >= card.requiredStamps then Err(AlreadyFull)
      else Ok(Store(s.cards,
                    s.records[j := Stamped(s.records[j], now)],
                    s.history + [StampEntry(entryId, user, cardId, now, Some(s.records[j]))]))
    ensures UserStampFor(s.records[j := Stamped(s.records[j], now)], user, cardId) == Some(Stamped(s.records[j], now))
  {
    var e := s.records[j];
    UpsertExisting(s.records, j, Stamped(e, now), StampKey);
    UpsertNew(s.history, StampEntry(entryId, user, cardId, now, Some(e)), EntryKey);
    FindAfterReplace(s.records, RecordOf(user, cardId), j, Stamped(e, now));
  }

  /**
   * `addStamp` on a card the user has no record for: a record with one stamp and no
   * completion is appended, with a history entry numbered 1.
   */
  lemma AddStampFirstRecord(user: string, s: Store, cardId: string, recordId: string, entryId: string, now: int,
                            card: StampCard)
    requires UserStampFor(s.records, user, cardId).None? && CardFor(s.cards, cardId) == Some(card)
    requires !HasKey(s.records, recordId, StampKey) && !HasKey(s.history, entryId, EntryKey)
    ensures AddStampIn(Some(user), s, cardId, recordId, entryId, now) ==
      Ok(Store(s.cards,
               s.records + [FirstStamp(recordId, user, cardId, now)],
               s.history + [StampEntry(entryId, user, cardId, now, None)]))
    ensures UserStampFor(s.records + [FirstStamp(recordId, user, cardId, now)], user, cardId) ==
      Some(FirstStamp(recordId, user, cardId, now))
  {
    UpsertNew(s.records, FirstStamp(recordId, user, cardId, now), StampKey);
    UpsertNew(s.history, StampEntry(entryId, user, cardId, now, None), EntryKey);
    FindAfterAppend(s.records, RecordOf(user, cardId), FirstStamp(recordId, user, cardId, now));
  }

  /**
   * `claimReward` on a card whose record is at position `j`: refused below the
   * requirement; otherwise the record restarts at zero stamps with one more
   * completion, and one `'complete'` entry is appended.
   */
  lemma ClaimRewardOnRecord(user: string, s: Store, cardId: string, entryId: string, now: int, j: nat, card: StampCard)
    requires UniqueKeys(s.records, StampKey) && !HasKey(s.history, entryId, EntryKey)
    requires j < |s.records| && FirstIndex(s.records, RecordOf(user, cardId)) == j
    requires CardFor(s.cards, cardId) == Some(card)
    ensures ClaimRewardIn(Some(user), s, cardId, entryId, now) ==
      if s.records[j].stampCount < card.requiredStamps then Err(NotEnoughStamps)
      else Ok(Store(s.cards,
                    s.records[j := Claimed(s.records[j], now)],
                    s.history + [CompleteEntry(entryId, user, cardId, now)]))
    ensures UserStampFor(s.records[j := Claimed(s.records[j], now)], user, cardId) == Some(Claimed(s.records[j], now))
  {
    var e := s.records[j];
    UpsertExisting(s.records, j, Claimed(e, now), StampKey);
    UpsertNew(s.history, CompleteEntry(entryId, user, cardId, now), EntryKey);
    FindAfterReplace(s.records, RecordOf(user, cardId), j, Claimed(e, now));
  }

  /**
   * `addAutoStamp` stamps the recipient's record of the chosen card, not the
   * caller's: that record gains one stamp, and the history entry is the
   * recipient's, marked automatic and naming the caller as payment receiver.
   */
  lemma AutoStampOnRecipient(caller: string, s: Store, recipient: string, selected: Option<string>,
                             recordId: string, entryId: string, now: int, card: StampCard, j: nat)
    requires UniqueKeys(s.records, StampKey) && !HasKey(s.history, entryId, EntryKey)
    requires SelectAutoStampCard(Filter(s.cards, OwnedBy(caller)), selected) == Ok(card)
    requires j < |s.records| && FirstIndex(s.records, RecordOf(recipient, card.id)) == j
    ensures AddAutoStampIn(Some(caller), s, recipient, selected, recordId, entryId, now) ==
      if s.records[j].stampCount >= card.requiredStamps then Err(AlreadyFull)
      else Ok(Store(s.cards,
                    s.records[j := Stamped(s.records[j], now)],
                    s.history + [AutoStampEntry(entryId, recipient, card.id, now, caller)]))
    ensures UserStampFor(s.records[j := Stamped(s.records[j], now)], recipient, card.id) == Some(Stamped(s.records[j], now))
  {
    var e := s.records[j];
    UpsertExisting(s.records, j, Stamped(e, now), StampKey);
    UpsertNew(s.history, AutoStampEntry(entryId, recipient, card.id, now, caller), EntryKey);
    FindAfterReplace(s.records, RecordOf(recipient, card.id), j, Stamped(e, now));
  }

  /**
   * The first `addAutoStamp` for a recipient: a record of the recipient on the
   * chosen card, holding one stamp and no completion, is appended, with the
   * recipient's automatic history entry naming the caller.
   */
  lemma AutoStampFirstRecord(caller: string, s: Store, recipient: string, selected: Option<string>,
                             recordId: string, entryId: string, now: int, card: StampCard)
    requires SelectAutoStampCard(Filter(s.cards, OwnedBy(caller)), selected) == Ok(card)
    requires UserStampFor(s.records, recipient, card.id).None?
    requires !HasKey(s.records, recordId, StampKey) && !HasKey(s.history, entryId, EntryKey)
    ensures AddAutoStampIn(Some(caller), s, recipient, selected, recordId, entryId, now) ==
      Ok(Store(s.cards,
               s.records + [FirstStamp(recordId, recipient, card.id, now)],
               s.history + [AutoStampEntry(entryId, recipient, card.id, now, caller)]))
    ensures var added := FirstStamp(recordId, recipient, card.id, now);
            added.userId == recipient && added.stampCount == 1 && added.completedCount == 0 &&
            UserStampFor(s.records + [added], recipient, card.id) == Some(added)
  {
    var added := FirstStamp(recordId, recipient, card.id, now);
    UpsertNew(s.records, added, StampKey);
    UpsertNew(s.history, AutoStampEntry(entryId, recipient, card.id, now, caller), EntryKey);
    FindAfterAppend(s.records, RecordOf(recipient, card.id), added);
  }

  /**
   * As written, `addAutoStamp` cannot see a recipient's existing record: the shop
   * `"shop"` stamps `"alice"`, who already holds 3 stamps, and a second record with
   * one stamp is added, while `"alice"`'s `getUserStamp` still returns 3 stamps.
   */
  lemma AutoStampAsWrittenMissesRecipient()
    ensures var card := StampCard("c1", "Cafe", "", 10, "coffee", 0, None, None, "shop", None);
            var held := UserStamp("r1", "alice", "c1", 3, 0, 0, 0, 0, None, None);
            var s := Store([card], [held], []);
            var after := AddAutoStampAsWritten(Some("shop"), s, "alice", None, "r2", "h1", 5);
            && after == Ok(Store([card], [held, FirstStamp("r2", "alice", "c1", 5)], [AutoStampEntry("h1", "alice", "c1", 5, "shop")]))
            && UserStampFor(after.value.records, "alice", "c1") == Some(held)
  {
    var card := StampCard("c1", "Cafe", "", 10, "coffee", 0, None, None, "shop", None);
    var held := UserStamp("r1", "alice", "c1", 3, 0, 0, 0, 0, None, None);
    var s := Store([card], [held], []);
    assert Filter(s.cards, OwnedBy("shop")) == [card];
    assert SelectAutoStampCard([card], None) == Ok(card);
    assert LoadedStamps(s.records, "shop") == [];
    assert Find([], RecordOf("alice", "c1")) == None;
    var added := FirstStamp("r2", "alice", "c1", 5);
    assert StampedRecord(None, "r2", "alice", "c1", 5) == added;
    assert Upsert([held], added, StampKey) == [held, added];
    assert Upsert([], AutoStampEntry("h1", "alice", "c1", 5, "shop"), EntryKey) == [AutoStampEntry("h1", "alice", "c1", 5, "shop")];
    FindCons([held, added], RecordOf("alice", "c1"));
  }

  // ---------------------------------------------------------------------------
  // The provider
  // ---------------------------------------------------------------------------

  /** The result of an operation applied to the state: its outcome, and the new state or the unchanged one. */
  predicate Applied(r: Result<Store, StampError>, before: Store, outcome: Outcome<StampError>, after: Store) {
    match r
    case Ok(next) => outcome == Pass && after == next
    case Err(e) => outcome == Fail(e) && after == before
  }

  /** The stamp provider: the signed-in user and the collections it reads and writes. */
  class StampProvider {
    /** The signed-in user's key, `useAuth().user?.key`. */
    var user: Option<string>
    var cards: seq<StampCard>
    var records: seq<UserStamp>
    var history: seq<StampHistory>

    function Contents(): Store
      reads this
    {
      Store(cards, records, history)
    }

    constructor (user: Option<string>, initial: Store)
      ensures this.user == user && Contents() == initial
    {
      this.user := user;
      cards := initial.cards;
      records := initial.records;
      history := initial.history;
    }

    /** The provider's `userStamps`: the signed-in user's records, none without a user. */
    function UserStamps(): (loaded: seq<UserStamp>)
      reads this
      ensures user.None? ==> loaded == []
      ensures user.Some? ==> forall r :: r in loaded <==> r in records && r.userId == user.value
    {
      if user.None? then [] else LoadedStamps(records, user.value)
    }

    /** `getUserStamp(cardId)`. */
    function GetUserStamp(cardId: string): (r: Option<UserStamp>)
      reads this
      ensures user.None? ==> r.None?
      ensures r.Some? ==> r.value in records && Some(r.value.userId) == user && r.value.cardId == cardId
    {
      if user.None? then None else UserStampFor(records, user.value, cardId)
    }

    method CreateStampCard(draft: CardDraft, id: string, now: int) returns (outcome: Outcome<StampError>)
      modifies this
      ensures user == old(user)
      ensures Applied(CreateCardIn(old(user), old(Contents()), draft, id, now), old(Contents()), outcome, Contents())
    {
      if user.None? {
        return Fail(NotAuthenticated);
      }
      cards := Upsert(cards, NewCard(draft, id, now, user.value), CardKey);
      return Pass;
    }

    method DeleteStampCard(cardId: string) returns (outcome: Outcome<StampError>)
      modifies this
      ensures user == old(user)
      ensures Applied(DeleteCardIn(old(user), old(Contents()), cardId), old(Contents()), outcome, Contents())
    {
      if user.None? {
        return Fail(NotAuthenticated);
      }
      var card := CardFor(cards, cardId);
      if card.None? {
        return Fail(CardNotFound);
      }
      if card.value.shopOwner != user.value {
        return Fail(NotAuthorized);
      }
      cards := Delete(cards, cardId, CardKey);
      return Pass;
    }

    method AddStamp(cardId: string, recordId: string, entryId: string, now: int) returns (outcome: Outcome<StampError>)
      modifies this
      ensures user == old(user)
      ensures Applied(AddStampIn(old(user), old(Contents()), cardId, recordId, entryId, now), old(Contents()), outcome, Contents())
    {
      if user.None? {
        return Fail(NotAuthenticated);
      }
      var existing := UserStampFor(records, user.value, cardId);
      var card := CardFor(cards, cardId);
      if card.None? {
        return Fail(CardNotFound);
      }
      if existing.Some? && existing.value.stampCount >= card.value.requiredStamps {
        return Fail(AlreadyFull);
      }
      records := Upsert(records, StampedRecord(existing, recordId, user.value, cardId, now), StampKey);
      history := Upsert(history, StampEntry(entryId, user.value, cardId, now, existing), EntryKey);
      return Pass;
    }

    method AddAutoStamp(recipient: string, selected: Option<string>, recordId: string, entryId: string, now: int)
      returns (outcome: Outcome<StampError>)
      modifies this
      ensures user == old(user)
      ensures Applied(AddAutoStampIn(old(user), old(Contents()), recipient, selected, recordId, entryId, now), old(Contents()), outcome, Contents())
    {
      if user.None? {
        return Fail(NotAuthenticated);
      }
      var owned := Filter(cards, OwnedBy(user.value));
      var target := SelectAutoStampCard(owned, selected);
      if target.Err? {
        return Fail(target.error);
      }
      var card := target.value;
      var existing := UserStampFor(records, recipient, card.id);
      if existing.Some? && existing.value.stampCount >= card.requiredStamps {
        return Fail(AlreadyFull);
      }
      records := Upsert(records, StampedRecord(existing, recordId, recipient, card.id, now), StampKey);
      history := Upsert(history, AutoStampEntry(entryId, recipient, card.id, now, user.value), EntryKey);
      return Pass;
    }

    method ClaimReward(cardId: string, entryId: string, now: int) returns (outcome: Outcome<StampError>)
      modifies this
      ensures user == old(user)
      ensures Applied(ClaimRewardIn(old(user), old(Contents()), cardId, entryId, now), old(Contents()), outcome, Contents())
    {
      if user.None? {
        return Fail(NotAuthenticated);
      }
      var stamp := UserStampFor(records, user.value, cardId);
      var card := CardFor(cards, cardId);
      if stamp.None? || card.None? {
        return Fail(StampDataNotFound);
      }
      if stamp.value.stampCount < card.value.requiredStamps {
        return Fail(NotEnoughStamps);
      }
      records := Upsert(records, Claimed(stamp.value, now), StampKey);
      history := Upsert(history, CompleteEntry(entryId, user.value, cardId, now), EntryKey);
      return Pass;
    }

    /** The reward of `customer` on `cardId`, handed over by the signed-in owner. */
    method HandOverReward(customer: string, cardId: string, entryId: string, now: int) returns (outcome: Outcome<StampError>)
      modifies this
      ensures user == old(user)
      ensures Applied(HandOverRewardIn(old(user), old(Contents()), customer, cardId, entryId, now), old(Contents()), outcome, Contents())
    {
      if user.None? {
        return Fail(NotAuthenticated);
      }
      var stamp := UserStampFor(records, customer, cardId);
      var card := CardFor(cards, cardId);
      if stamp.None? || card.None? {
        return Fail(StampDataNotFound);
      }
      if stamp.value.stampCount < card.value.requiredStamps {
        return Fail(NotEnoughStamps);
      }
      records := Upsert(records, Claimed(stamp.value, now), StampKey);
      history := Upsert(history, CompleteEntry(entryId, customer, cardId, now), EntryKey);
      return Pass;
    }
  }
}
