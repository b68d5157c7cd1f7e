/** The documents of the three collections: stamp cards, per-user stamp records and history entries. */
module StampTypes {
  import opened Common

  /** A shop's stamp card (collection `stampCards`). Times are milliseconds since the epoch. */
  datatype StampCard = StampCard(
    id: string,
    shopName: string,
    description: string,
    requiredStamps: int,
    reward: string,
    createdAt: int,
    expiresAt: Option<int>,
    expirationDays: Option<int>,
    shopOwner: string,
    pointsPerStamp: Option<int>)

  /** The fields a shop owner fills in; the store adds `id`, `createdAt` and `shopOwner`. */
  datatype CardDraft = CardDraft(
    shopName: string,
    description: string,
    requiredStamps: int,
    reward: string,
    expiresAt: Option<int>,
    expirationDays: Option<int>,
    pointsPerStamp: Option<int>)

  /** One customer's progress on one card (collection `userStamps`). */
  datatype UserStamp = UserStamp(
    id: string,
    userId: string,
    cardId: string,
    stampCount: int,
    lastStampedAt: int,
    completedCount: int,
    createdAt: int,
    updatedAt: int,
    firstStampedAt: Option<int>,
    totalPointsEarned: Option<int>)

  datatype Action = Stamp | Complete | Reward

  datatype HistoryMetadata = HistoryMetadata(
    stampNumber: Option<int>,
    rewardClaimed: Option<bool>,
    autoStamp: Option<bool>,
    paymentReceiver: Option<string>,
    expired: Option<bool>)

  /** An entry of the collection `stampHistory`. */
  datatype StampHistory = StampHistory(
    id: string,
    userId: string,
    cardId: string,
    action: Action,
    timestamp: int,
    metadata: Option<HistoryMetadata>)

  /** Metadata with no field set. */
  function NoMetadata(): HistoryMetadata {
    HistoryMetadata(None, None, None, None, None)
  }

  /** The document key of each collection. */
  function CardKey(c: StampCard): string { c.id }
  function StampKey(r: UserStamp): string { r.id }
  function EntryKey(h: StampHistory): string { h.id }
}
