/**
 * The shop owner's dashboard: the owner's own cards, the handling of a scanned
 * QR code, the confirmation before a card is deleted, and the auto-stamp
 * settings.
 *
 * A scanned `claim://<cardId>/<userId>` code hands over the reward of card
 * `cardId` when the owner owns that card. As written, the handler drops the
 * customer's id and calls `claimReward(cardId)`, which looks for the owner's own
 * record (`ScanAsWritten`); the dashboard here hands over the reward of the
 * customer named in the code (`ScanIn`).
 */
module OwnerDashboard {
  import opened Common
  import opened Text
  import opened Lists
  import opened StampTypes
  import opened StampContext
  import opened QrCodes

  /** `myStampCards`: the cards the signed-in owner owns, none without a user. */
  function MyStampCards(user: Option<string>, stampCards: seq<StampCard>): (mine: seq<StampCard>)
    ensures user.None? ==> mine == []
    ensures Subsequence(mine, stampCards)
    ensures forall c :: c in mine <==> c in stampCards && Some(c.shopOwner) == user
  {
    if user.None? then []
    else
      FilterIsSubsequence(stampCards, OwnedBy(user.value));
      Filter(stampCards, OwnedBy(user.value))
  }

  // ---------------------------------------------------------------------------
  // Reading a scanned code
  // ---------------------------------------------------------------------------

  /** What a scanned text is. */
  datatype ScanKind =
    | ClaimCode(cardId: string, customer: string)   // `claim://` and two parts
    | InvalidClaim                                  // `claim://` and not two parts
    | StampCode(stampId: string)                    // `stamp://`
    | Unrecognised

  /**
   * The handler's tests: a `claim://` text with the scheme removed is split on
   * `/` and must give exactly two parts; a `stamp://` text with the scheme
   * removed is the card id.
   */
  function Classify(text: string): (k: ScanKind)
    ensures k.ClaimCode? || k.InvalidClaim? <==> StartsWith(text, ClaimScheme)
    ensures k.StampCode? <==> !StartsWith(text, ClaimScheme) && StartsWith(text, StampScheme)
  {
    if StartsWith(text, ClaimScheme) then
      var parts := Split(ReplaceFirst(text, ClaimScheme, ""), '/');
      if |parts| == 2 then ClaimCode(parts[0], parts[1]) else InvalidClaim
    else if StartsWith(text, StampScheme) then StampCode(ReplaceFirst(text, StampScheme, ""))
    else Unrecognised
  }

  /** A claim code whose ids hold no `/` is read back as the same card and customer. */
  lemma ClaimCodeRoundTrip(cardId: string, userId: string)
    requires '/' !in cardId && '/' !in userId
    ensures Classify(ClaimPayload(cardId, userId)) == ClaimCode(cardId, userId)
  {
    var code := ClaimPayload(cardId, userId);
    RemovePrefix(code, ClaimScheme);
    assert Join([cardId, userId], '/') == code[8..];
    SplitJoin([cardId, userId], '/');
  }

  /** A claim code with a `/` in either id splits into more than two parts and is rejected. */
  lemma ClaimCodeWithSlash(cardId: string, userId: string)
    requires '/' in cardId || '/' in userId
    ensures Classify(ClaimPayload(cardId, userId)) == InvalidClaim
  {
    var code := ClaimPayload(cardId, userId);
    var rest := code[8..];
    RemovePrefix(code, ClaimScheme);
    SplitCount(rest, '/');
    assert rest == cardId + ['/'] + userId;
    assert multiset(rest) == multiset(cardId) + multiset{'/'} + multiset(userId);
  }

  /** A stamp code is read back as the same card id, whatever it holds. */
  lemma StampCodeRoundTrip(stampCardId: string)
    ensures Classify(StampPayload(stampCardId)) == StampCode(stampCardId)
  {
    var code := StampPayload(stampCardId);
    SchemesExclusive(code);
    RemovePrefix(code, StampScheme);
  }

  /** Every text read as a claim code is the claim code of its card and customer, neither holding a `/`. */
  lemma ClaimCodeIsPayload(text: string)
    requires Classify(text).ClaimCode?
    ensures var k := Classify(text);
            text == ClaimPayload(k.cardId, k.customer) && '/' !in k.cardId && '/' !in k.customer
  {
    var rest := text[8..];
    RemovePrefix(text, ClaimScheme);
    var parts := Split(rest, '/');
    SplitJoins(rest, '/');
    assert parts[0] in parts && parts[1] in parts;
    assert Join(parts, '/') == parts[0] + ['/'] + parts[1];
    assert text == text[..8] + rest;
  }

  /** Every text read as a stamp code is the stamp code of its card id. */
  lemma StampCodeIsPayload(text: string)
    requires Classify(text).StampCode?
    ensures text == StampPayload(Classify(text).stampId)
  {
    RemovePrefix(text, StampScheme);
    assert text == text[..8] + text[8..];
  }

  // ---------------------------------------------------------------------------
  // Acting on a scanned code
  // ---------------------------------------------------------------------------

  /** The message the owner is shown. */
  datatype ScanResult =
    | Ignored                                          // a scan while busy, or a quick repeat
    | RewardHandedOver(card: StampCard)
    | HandOverFailed(card: StampCard, error: StampError)
    | OtherShopCard                                    // a claim code of a card the owner does not own
    | InvalidCode
    | StampCodeSeen(ownCard: Option<StampCard>)        // the owner's card, if the code is one of them
    | NotRecognised

  /** A scan's message and the store after it. */
  datatype Scanned = Scanned(result: ScanResult, store: Store)

  /** The owner's card with the given id, if any. */
  function OwnedCard(owner: Option<string>, cards: seq<StampCard>, cardId: string): (c: Option<StampCard>)
    ensures c.Some? ==> c.value in cards && c.value.id == cardId && Some(c.value.shopOwner) == owner
    ensures c.None? <==> forall x :: x in cards && Some(x.shopOwner) == owner ==> x.id != cardId
  {
    Find(MyStampCards(owner, cards), CardIs(cardId))
  }

  /**
   * The handler after its debounce, as written: for an owned card of a claim
   * code, `claimReward(cardId)` of the signed-in owner.
   */
  function ScanAsWritten(owner: Option<string>, s: Store, text: string, entryId: string, now: int): (r: Scanned)
    ensures r.store != s ==> Classify(text).ClaimCode? && OwnedCard(owner, s.cards, Classify(text).cardId).Some?
  {
    match Classify(text)
    case ClaimCode(cardId, _) =>
      (match OwnedCard(owner, s.cards, cardId)
       case None => Scanned(OtherShopCard, s)
       case Some(card) =>
         match ClaimRewardIn(owner, s, cardId, entryId, now)
         case Ok(after) => Scanned(RewardHandedOver(card), after)
         case Err(e) => Scanned(HandOverFailed(card, e), s))
    case InvalidClaim => Scanned(InvalidCode, s)
    case StampCode(stampId) => Scanned(StampCodeSeen(OwnedCard(owner, s.cards, stampId)), s)
    case Unrecognised => Scanned(NotRecognised, s)
  }

  /**
   * The handler after its debounce: for an owned card of a claim code, the reward
   * of the customer the code names is handed over. Only such a scan changes the
   * store; every other scan leaves it as it is.
   */
  function ScanIn(owner: Option<string>, s: Store, text: string, entryId: string, now: int): (r: Scanned)
    ensures r.store != s ==> Classify(text).ClaimCode? && OwnedCard(owner, s.cards, Classify(text).cardId).Some?
    ensures !Classify(text).ClaimCode? ==> r.store == s
    ensures Classify(text).InvalidClaim? <==> r.result == InvalidCode
    ensures Classify(text).Unrecognised? <==> r.result == NotRecognised
  {
    match Classify(text)
    case ClaimCode(cardId, customer) =>
      (match OwnedCard(owner, s.cards, cardId)
       case None => Scanned(OtherShopCard, s)
       case Some(card) =>
         match HandOverRewardIn(owner, s, customer, cardId, entryId, now)
         case Ok(after) => Scanned(RewardHandedOver(card), after)
         case Err(e) => Scanned(HandOverFailed(card, e), s))
    case InvalidClaim => Scanned(InvalidCode, s)
    case StampCode(stampId) => Scanned(StampCodeSeen(OwnedCard(owner, s.cards, stampId)), s)
    case Unrecognised => Scanned(NotRecognised, s)
  }

  /**
   * Scanning a customer's claim code for a card the owner owns claims that
   * customer's reward: the scan succeeds exactly when the customer's own claim
   * would, with the same store after it.
   */
  lemma ScanHandsOverCustomerReward(owner: string, s: Store, card: StampCard, customer: string, entryId: string, now: int)
    requires UniqueKeys(s.cards, CardKey) && card in s.cards && card.shopOwner == owner
    requires '/' !in card.id && '/' !in customer
    ensures ScanIn(Some(owner), s, ClaimPayload(card.id, customer), entryId, now) ==
            match ClaimRewardIn(Some(customer), s, card.id, entryId, now)
            case Ok(after) => Scanned(RewardHandedOver(card), after)
            case Err(e) => Scanned(HandOverFailed(card, e), s)
  {
    ClaimCodeRoundTrip(card.id, customer);
    var found := OwnedCard(Some(owner), s.cards, card.id);
    assert found.Some?;
    SameKeySameDoc(s.cards, CardKey, found.value, card);
  }

  /** A claim code of a card the owner does not own is refused and changes nothing. */
  lemma ScanRefusesOtherShops(owner: Option<string>, s: Store, cardId: string, customer: string, entryId: string, now: int)
    requires '/' !in cardId && '/' !in customer
    requires forall c :: c in s.cards && c.id == cardId ==> Some(c.shopOwner) != owner
    ensures ScanIn(owner, s, ClaimPayload(cardId, customer), entryId, now) == Scanned(OtherShopCard, s)
    ensures ScanAsWritten(owner, s, ClaimPayload(cardId, customer), entryId, now) == Scanned(OtherShopCard, s)
  {
    ClaimCodeRoundTrip(cardId, customer);
  }

  /**
   * As written, the owner cannot hand over a reward: the shop `"shop"` scans the
   * claim code of `"alice"`, whose card is full; `claimReward` looks for a record
   * of the shop's own, finds none and fails.
   */
  lemma ScanAsWrittenMissesCustomer()
    ensures var card := StampCard("c1", "Cafe", "", 10, "coffee", 0, None, None, "shop", None);
            var full := UserStamp("r1", "alice", "c1", 10, 0, 0, 0, 0, None, None);
            var s := Store([card], [full], []);
            ScanAsWritten(Some("shop"), s, ClaimPayload("c1", "alice"), "h1", 5) == Scanned(HandOverFailed(card, StampDataNotFound), s)
  {
    var card := StampCard("c1", "Cafe", "", 10, "coffee", 0, None, None, "shop", None);
    var full := UserStamp("r1", "alice", "c1", 10, 0, 0, 0, 0, None, None);
    var s := Store([card], [full], []);
    ClaimCodeRoundTrip("c1", "alice");
    assert MyStampCards(Some("shop"), s.cards) == [card];
    FindCons([card], CardIs("c1"));
    assert UserStampFor(s.records, "shop", "c1") == None;
  }

  /** The same scan, handing over the customer's reward: `"alice"`'s record restarts and the completion is logged. */
  lemma ScanHandsOverFullCard()
    ensures var card := StampCard("c1", "Cafe", "", 10, "coffee", 0, None, None, "shop", None);
            var full := UserStamp("r1", "alice", "c1", 10, 0, 0, 0, 0, None, None);
            var s := Store([card], [full], []);
            ScanIn(Some("shop"), s, ClaimPayload("c1", "alice"), "h1", 5)
            == Scanned(RewardHandedOver(card), Store([card], [Claimed(full, 5)], [CompleteEntry("h1", "alice", "c1", 5)]))
  {
    var card := StampCard("c1", "Cafe", "", 10, "coffee", 0, None, None, "shop", None);
    var full := UserStamp("r1", "alice", "c1", 10, 0, 0, 0, 0, None, None);
    var s := Store([card], [full], []);
    FindCons(s.cards, CardIs("c1"));
    FirstIndexIs(s.records, RecordOf("alice", "c1"), 0);
    ClaimRewardOnRecord("alice", s, "c1", "h1", 5, 0, card);
    ScanHandsOverCustomerReward("shop", s, card, "alice", "h1", 5);
  }

  // ---------------------------------------------------------------------------
  // The scan handler's state
  // ---------------------------------------------------------------------------

  /** The debounce state of `handleScanResult`: busy, the last accepted code and when it came. */
  class ScanController {
    var processing: bool
    var lastCode: Option<string>
    var lastTime: int

    constructor ()
      ensures !processing && lastCode == None && lastTime == 0
    {
      processing := false;
      lastCode := None;
      lastTime := 0;
    }

    /** The same code as the last accepted one, less than 2000 ms after it. */
    predicate IsRepeat(text: string, now: int)
      reads this
    {
      lastCode == Some(text) && now - lastTime < 2000
    }

    /**
     * The start of `handleScanResult`: a scan while another is processed, or a
     * quick repeat, is ignored and changes nothing; any other scan is accepted,
     * and the handler is busy with it.
     */
    method BeginScan(text: string, now: int) returns (accepted: bool)
      modifies this
      ensures accepted <==> !old(processing) && !old(IsRepeat(text, now))
      ensures accepted ==> processing && lastCode == Some(text) && lastTime == now
      ensures !accepted ==> processing == old(processing) && lastCode == old(lastCode) && lastTime == old(lastTime)
    {
      if processing {
        return false;
      }
      if lastCode == Some(text) && now - lastTime < 2000 {
        return false;
      }
      processing := true;
      lastCode := Some(text);
      lastTime := now;
      return true;
    }

    /** The rest of `handleScanResult`: the code is acted on and the handler is free again. */
    method FinishScan(provider: StampProvider, text: string, entryId: string, now: int) returns (result: ScanResult)
      modifies this, provider
      ensures !processing && lastCode == old(lastCode) && lastTime == old(lastTime)
      ensures provider.user == old(provider.user)
      ensures Scanned(result, provider.Contents()) == ScanIn(old(provider.user), old(provider.Contents()), text, entryId, now)
    {
      match Classify(text) {
        case ClaimCode(cardId, customer) =>
          var card := OwnedCard(provider.user, provider.cards, cardId);
          if card.None? {
            result := OtherShopCard;
          } else {
            var outcome := provider.HandOverReward(customer, cardId, entryId, now);
            result := if outcome.Pass? then RewardHandedOver(card.value) else HandOverFailed(card.value, outcome.error);
          }
        case InvalidClaim =>
          result := InvalidCode;
        case StampCode(stampId) =>
          result := StampCodeSeen(OwnedCard(provider.user, provider.cards, stampId));
        case Unrecognised =>
          result := NotRecognised;
      }
      processing := false;
    }

    /** `handleScanResult(decodedText)` at the instant `now`. */
    method HandleScanResult(provider: StampProvider, text: string, now: int, entryId: string) returns (result: ScanResult)
      modifies this, provider
      ensures provider.user == old(provider.user)
      ensures old(processing) || old(IsRepeat(text, now)) ==>
                result == Ignored && provider.Contents() == old(provider.Contents())
                && processing == old(processing) && lastCode == old(lastCode) && lastTime == old(lastTime)
      ensures !old(processing) && !old(IsRepeat(text, now)) ==>
                !processing && lastCode == Some(text) && lastTime == now
                && Scanned(result, provider.Contents()) == ScanIn(old(provider.user), old(provider.Contents()), text, entryId, now)
    {
      var accepted := BeginScan(text, now);
      if !accepted {
        return Ignored;
      }
      result := FinishScan(provider, text, entryId, now);
    }
  }

  // ---------------------------------------------------------------------------
  // Deleting a card, and the auto-stamp settings
  // ---------------------------------------------------------------------------

  /** Enabling auto-stamp with a single owned card selects it, and `addAutoStamp` then stamps that card. */
  lemma OnlyCardSelected(owned: seq<StampCard>)
    requires |owned| == 1
    ensures SelectAutoStampCard(owned, Some(owned[0].id)) == Ok(owned[0])
  {
    if owned[0].id != "" {
      FindCons(owned, CardIs(owned[0].id));
    }
  }

  /** The dashboard's delete dialog and auto-stamp settings. */
  class Dashboard {
    var deleteModalOpen: bool
    var cardToDelete: Option<string>
    var deleteConfirmText: string
    var autoStampEnabled: bool
    var selectedCardId: Option<string>

    constructor ()
      ensures !deleteModalOpen && cardToDelete == None && deleteConfirmText == ""
      ensures !autoStampEnabled && selectedCardId == None
    {
      deleteModalOpen := false;
      cardToDelete := None;
      deleteConfirmText := "";
      autoStampEnabled := false;
      selectedCardId := None;
    }

    /** The guard of `handleDeleteCard`: a card is chosen and `削除` was typed. */
    predicate DeleteConfirmed()
      reads this
    {
      cardToDelete.Some? && cardToDelete.value != "" && deleteConfirmText == "削除"
    }

    /** `openDeleteModal(cardId)` */
    method OpenDeleteModal(cardId: string)
      modifies this
      ensures deleteModalOpen && cardToDelete == Some(cardId) && deleteConfirmText == ""
      ensures autoStampEnabled == old(autoStampEnabled) && selectedCardId == old(selectedCardId)
    {
      cardToDelete := Some(cardId);
      deleteModalOpen := true;
      deleteConfirmText := "";
    }

    /** `closeDeleteModal()` */
    method CloseDeleteModal()
      modifies this
      ensures !deleteModalOpen && cardToDelete == None && deleteConfirmText == ""
      ensures autoStampEnabled == old(autoStampEnabled) && selectedCardId == old(selectedCardId)
    {
      deleteModalOpen := false;
      cardToDelete := None;
      deleteConfirmText := "";
    }

    /** Typing into the confirmation box. */
    method SetDeleteConfirmText(text: string)
      modifies this
      ensures deleteConfirmText == text && deleteModalOpen == old(deleteModalOpen) && cardToDelete == old(cardToDelete)
      ensures autoStampEnabled == old(autoStampEnabled) && selectedCardId == old(selectedCardId)
    {
      deleteConfirmText := text;
    }

    /**
     * `handleDeleteCard()`: without a chosen card or the typed `削除` nothing
     * happens (`outcome` is `None`); otherwise the card is deleted through the
     * provider and the dialog closes when the deletion succeeds.
     */
    method HandleDeleteCard(provider: StampProvider) returns (outcome: Option<Outcome<StampError>>)
      modifies this, provider
      ensures provider.user == old(provider.user)
      ensures outcome.None? <==> !old(DeleteConfirmed())
      ensures outcome.None? ==> provider.Contents() == old(provider.Contents())
      ensures outcome.Some? ==> Applied(DeleteCardIn(old(provider.user), old(provider.Contents()), old(cardToDelete).value),
                                        old(provider.Contents()), outcome.value, provider.Contents())
      ensures outcome == Some(Pass) ==> !deleteModalOpen && cardToDelete == None && deleteConfirmText == ""
      ensures outcome != Some(Pass) ==>
                deleteModalOpen == old(deleteModalOpen) && cardToDelete == old(cardToDelete)
                && deleteConfirmText == old(deleteConfirmText)
      ensures autoStampEnabled == old(autoStampEnabled) && selectedCardId == old(selectedCardId)
    {
      if cardToDelete.None? || cardToDelete.value == "" || deleteConfirmText != "削除" {
        return None;
      }
      var result := provider.DeleteStampCard(cardToDelete.value);
      if result.Pass? {
        CloseDeleteModal();
      }
      return Some(result);
    }

    /**
     * The auto-stamp checkbox: checking it with a single owned card selects that
     * card and otherwise keeps the selection; unchecking it clears the selection.
     */
    method ToggleAutoStamp(provider: StampProvider, checked: bool)
      modifies this
      ensures autoStampEnabled == checked
      ensures var mine := MyStampCards(provider.user, provider.cards);
              selectedCardId == if !checked then None else if |mine| == 1 then Some(mine[0].id) else old(selectedCardId)
      ensures deleteModalOpen == old(deleteModalOpen) && cardToDelete == old(cardToDelete)
      ensures deleteConfirmText == old(deleteConfirmText)
    {
      var mine := MyStampCards(provider.user, provider.cards);
      autoStampEnabled := checked;
      selectedCardId := if checked then (if |mine| == 1 then Some(mine[0].id) else selectedCardId) else None;
    }

    /** The card selector: the empty choice is no selection. */
    method SelectCard(value: string)
      modifies this
      ensures selectedCardId == if value == "" then None else Some(value)
      ensures autoStampEnabled == old(autoStampEnabled)
      ensures deleteModalOpen == old(deleteModalOpen) && cardToDelete == old(cardToDelete)
      ensures deleteConfirmText == old(deleteConfirmText)
    {
      selectedCardId := if value == "" then None else Some(value);
    }
  }
}
