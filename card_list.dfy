/**
 * The customer's list of stamp cards: how many cards are in progress and how
 * many were completed, and which cards the search box and the filter buttons
 * keep. A card's status is read from the first of the customer's records for it.
 */
module CardList {
  import opened Common
  import opened Text
  import opened Lists
  import opened StampTypes
  import opened StampContext

  /** The three filter buttons. */
  datatype FilterType = All | Active | Completed

  /** `userStamps.find(s => s.cardId === card.id)` */
  function RecordFor(userStamps: seq<UserStamp>, card: StampCard): (r: Option<UserStamp>)
    ensures r.Some? ==> r.value in userStamps && r.value.cardId == card.id
    ensures r.None? <==> forall s :: s in userStamps ==> s.cardId != card.id
  {
    Find(userStamps, OnCard(card.id))
  }

  /**
   * The test that counts a card as in progress: a record that is started and not
   * full, or a record never completed that holds no stamp. A card without a
   * record is not in progress.
   */
  function CountsAsActive(rec: Option<UserStamp>, card: StampCard): (b: bool)
    ensures b <==> rec.Some? && ((0 < rec.value.stampCount < card.requiredStamps)
                                 || (rec.value.completedCount <= 0 && rec.value.stampCount == 0))
  {
    var hasCompletedBefore := if rec.Some? then rec.value.completedCount > 0 else false;
    var isCurrentlyComplete := if rec.Some? then rec.value.stampCount >= card.requiredStamps else false;
    var isActive := if rec.Some? then rec.value.stampCount > 0 && !isCurrentlyComplete else false;
    isActive || (!hasCompletedBefore && rec.Some? && rec.value.stampCount == 0)
  }

  /** The test that counts a card as completed: completed before, or full now. A card without a record is not. */
  function CountsAsCompleted(rec: Option<UserStamp>, card: StampCard): (b: bool)
    ensures b <==> rec.Some? && (rec.value.completedCount > 0 || rec.value.stampCount >= card.requiredStamps)
  {
    var hasCompletedBefore := if rec.Some? then rec.value.completedCount > 0 else false;
    var isCurrentlyComplete := if rec.Some? then rec.value.stampCount >= card.requiredStamps else false;
    hasCompletedBefore || isCurrentlyComplete
  }

  /**
   * A card counts both as in progress and as completed when it was completed
   * before and is part-way through another round, or, for a card asking for no
   * stamp, when its record holds none and was never completed.
   */
  lemma ActiveAndCompleted(rec: Option<UserStamp>, card: StampCard)
    ensures CountsAsActive(rec, card) && CountsAsCompleted(rec, card) <==>
            rec.Some? && ((rec.value.completedCount > 0 && 0 < rec.value.stampCount < card.requiredStamps)
                          || (rec.value.stampCount == 0 && rec.value.completedCount <= 0 && card.requiredStamps <= 0))
  {
  }

  /** The card is in progress for the customer whose records are `userStamps`. */
  function IsActiveIn(userStamps: seq<UserStamp>): StampCard -> bool {
    (card: StampCard) => CountsAsActive(RecordFor(userStamps, card), card)
  }

  /** The card is completed for the customer whose records are `userStamps`. */
  function IsCompletedIn(userStamps: seq<UserStamp>): StampCard -> bool {
    (card: StampCard) => CountsAsCompleted(RecordFor(userStamps, card), card)
  }

  /** The `forEach` callback of `counts`: one card adds to the counters it counts in. */
  method CountCard(card: StampCard, userStamps: seq<UserStamp>, active: nat, completed: nat)
    returns (active': nat, completed': nat)
    ensures active' == active + (if IsActiveIn(userStamps)(card) then 1 else 0)
    ensures completed' == completed + (if IsCompletedIn(userStamps)(card) then 1 else 0)
  {
    var userStamp := RecordFor(userStamps, card);
    active', completed' := active, completed;
    if CountsAsActive(userStamp, card) {
      active' := active' + 1;
    }
    if CountsAsCompleted(userStamp, card) {
      completed' := completed' + 1;
    }
  }

  /**
   * `counts`: one pass over the cards, counting those in progress and those
   * completed; `all` is the number of cards.
   */
  method Counts(stampCards: seq<StampCard>, userStamps: seq<UserStamp>) returns (all: nat, active: nat, completed: nat)
    ensures all == |stampCards|
    ensures active == |Filter(stampCards, IsActiveIn(userStamps))|
    ensures completed == |Filter(stampCards, IsCompletedIn(userStamps))|
    ensures active <= all && completed <= all
  {
    active, completed := 0, 0;
    for i := 0 to |stampCards|
      invariant active == |Filter(stampCards[..i], IsActiveIn(userStamps))|
      invariant completed == |Filter(stampCards[..i], IsCompletedIn(userStamps))|
    {
      FilterPrefix(stampCards, i, IsActiveIn(userStamps));
      FilterPrefix(stampCards, i, IsCompletedIn(userStamps));
      active, completed := CountCard(stampCards[i], userStamps, active, completed);
    }
    assert stampCards[..|stampCards|] == stampCards;
    all := |stampCards|;
  }

  /**
   * The search box: an empty term keeps every card; otherwise the lower-cased
   * term must occur in the lower-cased shop name or description.
   */
  function SearchMatches(card: StampCard, searchTerm: string): (b: bool)
    ensures b <==> searchTerm == []
                   || (exists i: nat :: OccursAt(Lower(card.shopName), Lower(searchTerm), i))
                   || (exists i: nat :: OccursAt(Lower(card.description), Lower(searchTerm), i))
  {
    searchTerm == ""
    || Includes(Lower(card.shopName), Lower(searchTerm))
    || Includes(Lower(card.description), Lower(searchTerm))
  }

  /** The filter buttons: 'all' keeps every card, the others keep the cards the counts count. */
  function MatchesFilter(filterType: FilterType, rec: Option<UserStamp>, card: StampCard): (b: bool)
    ensures filterType == All ==> b
    ensures filterType == Active ==> (b <==> CountsAsActive(rec, card))
    ensures filterType == Completed ==> (b <==> CountsAsCompleted(rec, card))
  {
    match filterType
    case All => true
    case Active => CountsAsActive(rec, card)
    case Completed => CountsAsCompleted(rec, card)
  }

  /** The `filteredCards` predicate. */
  function Keeps(userStamps: seq<UserStamp>, searchTerm: string, filterType: FilterType): StampCard -> bool {
    (card: StampCard) => SearchMatches(card, searchTerm) && MatchesFilter(filterType, RecordFor(userStamps, card), card)
  }

  /** `filteredCards`: the cards the search and the filter both keep, in their order. */
  function FilteredCards(stampCards: seq<StampCard>, userStamps: seq<UserStamp>, searchTerm: string, filterType: FilterType)
    : (r: seq<StampCard>)
    ensures Subsequence(r, stampCards)
    ensures forall card :: card in r <==>
              card in stampCards && SearchMatches(card, searchTerm) && MatchesFilter(filterType, RecordFor(userStamps, card), card)
  {
    FilterIsSubsequence(stampCards, Keeps(userStamps, searchTerm, filterType));
    Filter(stampCards, Keeps(userStamps, searchTerm, filterType))
  }

  /** With no search term and 'all', every card is listed, in its order. */
  lemma UnfilteredIsAll(stampCards: seq<StampCard>, userStamps: seq<UserStamp>)
    ensures FilteredCards(stampCards, userStamps, "", All) == stampCards
  {
    FilterKeepsAll(stampCards, Keeps(userStamps, "", All));
  }

  /**
   * With no search term, the 'active' and 'completed' lists are as long as the
   * counts on their buttons, and the 'all' list as long as the number of cards.
   */
  lemma FilteredMatchesCounts(stampCards: seq<StampCard>, userStamps: seq<UserStamp>)
    ensures |FilteredCards(stampCards, userStamps, "", All)| == |stampCards|
    ensures |FilteredCards(stampCards, userStamps, "", Active)| == |Filter(stampCards, IsActiveIn(userStamps))|
    ensures |FilteredCards(stampCards, userStamps, "", Completed)| == |Filter(stampCards, IsCompletedIn(userStamps))|
  {
    UnfilteredIsAll(stampCards, userStamps);
    FilterCongruent(stampCards, Keeps(userStamps, "", Active), IsActiveIn(userStamps));
    FilterCongruent(stampCards, Keeps(userStamps, "", Completed), IsCompletedIn(userStamps));
  }

  /**
   * After a successful `claimReward`, the record the list reads for the claimed
   * card is the customer's record with its stamps reset and one more completion.
   */
  lemma ClaimedRecordShown(user: string, s: Store, cardId: string, entryId: string, now: int, after: Store)
    requires UniqueKeys(s.records, StampKey) && !HasKey(s.history, entryId, EntryKey)
    requires ClaimRewardIn(Some(user), s, cardId, entryId, now) == Ok(after)
    ensures UserStampFor(s.records, user, cardId).Some? && CardFor(after.cards, cardId).Some?
    ensures RecordFor(LoadedStamps(after.records, user), CardFor(after.cards, cardId).value)
            == Some(Claimed(UserStampFor(s.records, user, cardId).value, now))
  {
    var card := CardFor(s.cards, cardId).value;
    var j := FirstIndex(s.records, RecordOf(user, cardId));
    ClaimRewardOnRecord(user, s, cardId, entryId, now, j, card);
    var claimed := Claimed(s.records[j], now);
    assert after.records == s.records[j := claimed];
    assert RecordFor(LoadedStamps(after.records, user), card) == UserStampFor(after.records, user, cardId);
  }

  /**
   * After a successful `claimReward`, the claimed card is listed under
   * 'completed' and no longer under 'active' for the customer who claimed it,
   * provided no record counted a negative number of completions.
   */
  lemma ClaimedCardIsCompleted(user: string, s: Store, cardId: string, entryId: string, now: int, after: Store)
    requires UniqueKeys(s.records, StampKey) && !HasKey(s.history, entryId, EntryKey)
    requires forall r :: r in s.records ==> r.completedCount >= 0
    requires ClaimRewardIn(Some(user), s, cardId, entryId, now) == Ok(after)
    ensures CardFor(after.cards, cardId).Some?
    ensures var card := CardFor(after.cards, cardId).value;
            && card in FilteredCards(after.cards, LoadedStamps(after.records, user), "", Completed)
            && card !in FilteredCards(after.cards, LoadedStamps(after.records, user), "", Active)
  {
    ClaimedRecordShown(user, s, cardId, entryId, now, after);
    var before := UserStampFor(s.records, user, cardId).value;
    var claimed := Claimed(before, now);
    assert claimed.stampCount == 0 && claimed.completedCount > 0;
    var card := CardFor(after.cards, cardId).value;
    var loaded := LoadedStamps(after.records, user);
    assert RecordFor(loaded, card) == Some(claimed);
    assert SearchMatches(card, "");
    assert MatchesFilter(Completed, RecordFor(loaded, card), card) && !MatchesFilter(Active, RecordFor(loaded, card), card);
  }

  /** The list's own state: the search term and the selected filter. */
  class CardListView {
    var searchTerm: string
    var filterType: FilterType

    constructor ()
      ensures searchTerm == "" && filterType == All
    {
      searchTerm := "";
      filterType := All;
    }

    /** The cards on screen for the provider's loaded cards and records. */
    function Shown(provider: StampProvider): (r: seq<StampCard>)
      reads this, provider
      ensures Subsequence(r, provider.cards)
    {
      FilteredCards(provider.cards, provider.UserStamps(), searchTerm, filterType)
    }

    /** Typing into the search box. */
    method SetSearchTerm(term: string)
      modifies this
      ensures searchTerm == term && filterType == old(filterType)
    {
      searchTerm := term;
    }

    /** Pressing a filter button. */
    method SetFilterType(f: FilterType)
      modifies this
      ensures filterType == f && searchTerm == old(searchTerm)
    {
      filterType := f;
    }

    /**
     * `handleClaimReward(cardId)`: the claim is made through the provider; when
     * it succeeds the list switches to 'completed', when it fails the filter stays.
     */
    method HandleClaimReward(provider: StampProvider, cardId: string, entryId: string, now: int)
      returns (outcome: Outcome<StampError>)
      modifies this, provider
      ensures provider.user == old(provider.user)
      ensures Applied(ClaimRewardIn(old(provider.user), old(provider.Contents()), cardId, entryId, now),
                      old(provider.Contents()), outcome, provider.Contents())
      ensures searchTerm == old(searchTerm)
      ensures filterType == if outcome.Pass? then Completed else old(filterType)
    {
      outcome := provider.ClaimReward(cardId, entryId, now);
      if outcome.Pass? {
        filterType := Completed;
      }
    }
  }
}
