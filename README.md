# my-qr stamp cards, modelled in Dafny

my-qr is a stamp-card web application on the Internet Computer. Shops create
stamp cards. Customers collect a stamp per visit, either by scanning the shop's
`stamp://<cardId>` code or automatically when they pay the shop. A full card is
redeemed: the customer shows a `claim://<cardId>/<userId>` code and the shop
scans it. The shop's payment address is the customer-facing ICP account
identifier of its principal.

This project models the logic of that application:

- `AccountIdentifier`: the legacy ICP account identifier. The payload is
  `0x0A "account-id" ‖ principal ‖ 32 zero bytes`. It is hashed with SHA-224.
  The identifier is the CRC-32/ISO-HDLC of the digest, in big-endian order,
  followed by the digest, written as 64 lower-case hexadecimal digits.
  - The CRC is built imperatively: a 256-entry table filled in nested loops,
    then a byte loop.
  - It is proved equal to the bitwise reference CRC, and to give the standard
    check value 0xCBF43926.
  - The hexadecimal text is proved to decode back to the 32 bytes.
- `StampContext`: the stamp provider. This is a class over the three
  collections of the document store (cards, per-user stamp records, history).
  - Its methods create and delete cards, stamp, auto-stamp, and claim rewards.
  - Each method is proved against a function from the store before to the store
    after, or to the error thrown.
  - Properties proved: the store invariant (unique keys, at least one required
    stamp, counts within 0..requiredStamps), and the exact effect of each
    operation on the record it finds.
- `CardList`: the customer's card list. It covers the active and completed
  counts (a `forEach` loop), the search and filter predicate, and the switch to
  'completed' after a claim.
- `CardView`: one card. It covers the displayed counts, the grid of cells, the
  expiry arithmetic (ceiling division by 86 400 000 ms), the claim-QR button and
  panel, and the confirmation dialog.
- `OwnerDashboard`: the owner page. It covers:
  - the owner's cards;
  - classifying scanned codes, with the round trips of both code kinds;
  - the debounce of the scan handler;
  - the delete confirmation;
  - the auto-stamp settings.
- `QrCodes`: the two code payloads and the two download file names (a
  white-space slug).
- `WrapText`: the greedy per-character line wrapping of the poster's
  description. The canvas text width is a parameter.
- `AuthConfig`: the thirty-day sign-in constants in nanoseconds and in
  milliseconds.
- `Common`, `Lists`, `Text`, `StampTypes`: the shared vocabulary.
  - `Option`, `Result` and `Outcome`.
  - `find`, `filter`, and the document store's `setDoc`/`deleteDoc` on a keyed
    listing.
  - `startsWith`, `includes`, `replace`, `split` on one character,
    `toLowerCase`, and `replace(/\s+/g, '-')`.
  - The record types.

Identifiers from `nanoid()` and instants from `Date.now()` are parameters of the
operations. SHA-224 is a function parameter returning 28 bytes.

The scan handler of the owner page and `addAutoStamp` both look for a customer's
record among the signed-in owner's own records (see "## Findings"). Each is
modelled twice: as written, with a concrete input that shows the problem, and
corrected. The provider class and the dashboard use the corrected versions
(`AddAutoStampIn`, `HandOverRewardIn` / `ScanIn`).

## Model

| member | source | states |
|---|---|---|
| `AccountIdentifier.DomainSeparatorEncodesTag` | src/utils/accountIdentifier.ts:6-8 | the separator bytes are the 11 byte encoding of "\x0Aaccount-id" |
| `AccountIdentifier.Payload` | src/utils/accountIdentifier.ts:7-11 | the hashed bytes are the separator, then the principal, then 32 zeros; length 43 + \|principal\| |
| `AccountIdentifier.PayloadInjective` | src/utils/accountIdentifier.ts:5-11 | the payload determines the principal, and nothing but the principal enters it |
| `AccountIdentifier.ComputeTableEntry` | src/utils/accountIdentifier.ts:35-38 | the inner loop gives eight applications of the bitwise rule to `i` |
| `AccountIdentifier.BuildCrcTable` | src/utils/accountIdentifier.ts:31-40 | a fresh 256-entry array whose every entry is the table value of its index |
| `AccountIdentifier.TableLandmarks` | src/utils/accountIdentifier.ts:33-40 | table[0] = 0, table[1] = 0x77073096, table[128] = 0xEDB88320, table[255] = 0x2D02EF8D |
| `AccountIdentifier.CalculateCrc32` | src/utils/accountIdentifier.ts:30-47 | the loop returns the table-driven CRC-32 of the bytes; the register is 32 bits on every iteration |
| `AccountIdentifier.Crc32OfEmpty` | src/utils/accountIdentifier.ts:42-47 | the CRC of no bytes is 0 |
| `AccountIdentifier.ByteStepIsEightBitSteps` | src/utils/accountIdentifier.ts:36-38 | the table-driven byte step equals eight bitwise steps on the register XOR the byte |
| `AccountIdentifier.RegisterIsBitwise` | src/utils/accountIdentifier.ts:42-45 | after every prefix, the table-driven register equals the bitwise reference register |
| `AccountIdentifier.Crc32IsBitwise` | src/utils/accountIdentifier.ts:30-47 | the table-driven CRC equals the bitwise CRC on every input |
| `AccountIdentifier.Crc32CheckValue` | src/utils/accountIdentifier.ts:30-47 | the CRC of "123456789" is 0xCBF43926, the check value of CRC-32/ISO-HDLC |
| `AccountIdentifier.BigEndianRoundTrip` | src/utils/accountIdentifier.ts:21 | reading back the four big-endian bytes gives the number |
| `AccountIdentifier.BigEndianBytesRoundTrip` | src/utils/accountIdentifier.ts:21 | writing the number read from four bytes gives the bytes |
| `AccountIdentifier.IdentifierBytes` | src/utils/accountIdentifier.ts:16-22 | 32 bytes: the big-endian CRC of the digest, then the unchanged digest; the checksum is valid |
| `AccountIdentifier.FillIdentifierBuffer` | src/utils/accountIdentifier.ts:19-22 | the fresh 32-byte buffer holds the big-endian CRC and then the digest |
| `AccountIdentifier.ByteToHexDigits` | src/utils/accountIdentifier.ts:25 | each byte becomes two digits, the high nibble first, zero-padded |
| `AccountIdentifier.ToHexDigits` | src/utils/accountIdentifier.ts:24-26 | every character of the text is one of 0-9a-f |
| `AccountIdentifier.FromHexToHex` | src/utils/accountIdentifier.ts:24-26 | decoding the hexadecimal text gives the bytes back |
| `AccountIdentifier.ToHexFromHex` | src/utils/accountIdentifier.ts:24-26 | every decodable text is the encoding of what it decodes to |
| `AccountIdentifier.HexString` | src/utils/accountIdentifier.ts:24-26 | the map/join loop produces the two-digit encoding of every byte in order |
| `AccountIdentifier.PrincipalToAccountIdentifier` | src/utils/accountIdentifier.ts:5-27 | 64 lower-case hex digits that decode to the identifier of the principal, whose checksum is valid |
| `AccountIdentifier.IdentifierFromParts` | src/utils/accountIdentifier.ts:7-22 | the buffer built from payload, hash and CRC is the identifier of the principal, with a valid checksum |
| `AuthConfig.ThirtyDays` | src/config/auth.ts:3-7 | 2 592 000 000 000 000 ns and 2 592 000 000 ms, the same 30 days; the first is below 2^64, the second an exact JavaScript number |
| `Lists.Find` | src/components/context/StampContext.tsx:147 | the first element satisfying the predicate, or none when no element does |
| `Lists.Filter` | src/app/owner/page.tsx:65 | exactly the elements satisfying the predicate |
| `Lists.FilterIsSubsequence` | src/components/StampCardList.tsx:33-50 | a filter keeps the elements in their order |
| `Lists.Upsert` | src/components/context/StampContext.tsx:116-122 | `setDoc` replaces the document under its key in place, or appends it |
| `Lists.UpsertNew` | src/components/context/StampContext.tsx:210-217 | a document under a new key is appended at the end |
| `Lists.UpsertExisting` | src/components/context/StampContext.tsx:169-176 | a document under an existing key replaces that position and nothing else |
| `Lists.UpsertKeepsUnique` | src/components/context/StampContext.tsx:116-122 | `setDoc` keeps keys distinct |
| `Lists.Delete` | src/components/context/StampContext.tsx:135-141 | `deleteDoc` removes the documents under the key and keeps the others |
| `Lists.DeleteExisting` | src/components/context/StampContext.tsx:135-141 | with distinct keys, deleting the key at position i removes exactly position i |
| `Text.Includes` | src/components/StampCardList.tsx:36-37 | `includes` holds iff the pattern occurs at some position |
| `Text.IndexOf` | src/app/owner/page.tsx:108 | the first position where the pattern occurs, none iff it does not occur |
| `Text.RemovePrefix` | src/app/owner/page.tsx:108 | replacing a prefix by the empty string leaves what follows it |
| `Text.SplitCount` | src/app/owner/page.tsx:108-109 | `split` gives one more part than there are separators |
| `Text.SplitJoins` | src/app/owner/page.tsx:108 | no part holds the separator, and joining the parts with it gives the string back |
| `Text.SplitJoin` | src/app/owner/page.tsx:108 | splitting a join of separator-free parts gives the parts back |
| `Text.Lower` | src/components/StampCardList.tsx:36 | ASCII upper-case letters lowered, every other character kept, same length |
| `Text.LowerIdempotent` | src/components/StampQRCode.tsx:39 | lowering twice is lowering once |
| `Text.DashedHasNoWhitespace` | src/components/StampQRCode.tsx:39 | `replace(/\s+/g, '-')` leaves no white space |
| `Text.DashWithoutWhitespace` | src/components/StampQRCode.tsx:39 | a string without white space is left as it is |
| `Text.DashedFromSource` | src/components/StampQRCode.tsx:39 | every character of the result is a dash or a non-white-space character of the input |
| `Text.DashRun` | src/components/StampQRCode.tsx:39 | a maximal run of white space between two texts becomes exactly one dash, and each side is dashed on its own |
| `StampContext.LoadedStamps` | src/components/context/StampContext.tsx:54-71 | the loaded records are exactly the store's records of the signed-in user |
| `StampContext.UserStampFor` | src/components/context/StampContext.tsx:146-148 | `getUserStamp`: the first record of the user for the card, found among all records |
| `StampContext.CardFor` | src/components/context/StampContext.tsx:131 | the card with the id, none iff no card has that key |
| `StampContext.NewCard` | src/components/context/StampContext.tsx:109-114 | the stored card carries the draft's fields, the new id, the creation time and the user as owner |
| `StampContext.Stamped` | src/components/context/StampContext.tsx:162-167 | same record, one more stamp, completions unchanged |
| `StampContext.Claimed` | src/components/context/StampContext.tsx:331-336 | same record, zero stamps, one more completion |
| `StampContext.CreateCardIn` | src/components/context/StampContext.tsx:106-125 | refused iff no user; otherwise records and history unchanged and the card under the new id is the new card; with a fresh id the existing cards are kept, in order, and the new card is appended |
| `StampContext.DeleteCardIn` | src/components/context/StampContext.tsx:127-144 | refused without a user or with an unknown card; on success exactly the cards with other ids remain |
| `StampContext.AddStampIn` | src/components/context/StampContext.tsx:150-220 | refused without a user or with an unknown card; on success the cards are unchanged and no record is lost |
| `StampContext.SelectAutoStampCard` | src/components/context/StampContext.tsx:226-246 | no owned card, a selection not owned, or several cards with no selection are refused; one card with no selection is chosen |
| `StampContext.AddAutoStampAsWritten` | src/components/context/StampContext.tsx:222-318 | the as-written `addAutoStamp`: refused without a user, and the cards are unchanged |
| `StampContext.AddAutoStampIn` | src/components/context/StampContext.tsx:222-318 | the corrected `addAutoStamp`: refused without a user or an owned card, and the cards are unchanged |
| `StampContext.ClaimRewardIn` | src/components/context/StampContext.tsx:320-368 | refused without a user or the user's record; on success the cards are unchanged and no record is added |
| `StampContext.HandOverRewardIn` | src/app/owner/page.tsx:106-121 | the hand-over of the scanned customer's reward: refused without a signed-in owner or the customer's record |
| `StampContext.UpsertLength` | src/components/context/StampContext.tsx:169-196 | a record write lengthens the listing by at most one |
| `StampContext.CreateCardKeepsWellFormed` | src/components/context/StampContext.tsx:106-125 | a card with a new id and at least one required stamp keeps the store invariant |
| `StampContext.DeleteCardKeepsWellFormed` | src/components/context/StampContext.tsx:127-144 | deleting a card keeps the store invariant |
| `StampContext.AddStampKeepsWellFormed` | src/components/context/StampContext.tsx:157-160 | `addStamp` keeps every count within 0..requiredStamps, because a full record is refused |
| `StampContext.AddAutoStampKeepsWellFormed` | src/components/context/StampContext.tsx:253-256 | `addAutoStamp` keeps the store invariant |
| `StampContext.ClaimRewardKeepsWellFormed` | src/components/context/StampContext.tsx:326-336 | `claimReward` keeps the store invariant |
| `StampContext.ClaimOnlyWhenFull` | src/components/context/StampContext.tsx:326-329 | in a well-formed store a claim succeeds iff the count equals the requirement |
| `StampContext.DeleteCardOutcome` | src/components/context/StampContext.tsx:131-141 | the owner's delete removes exactly the card at its position; anyone else's is refused |
| `StampContext.AddStampOnRecord` | src/components/context/StampContext.tsx:157-217 | a full record is refused; otherwise only that record gains a stamp, one entry numbered count + 1 is appended, and `getUserStamp` then returns the stamped record |
| `StampContext.AddStampFirstRecord` | src/components/context/StampContext.tsx:177-217 | without a record, one with 1 stamp and 0 completions is appended, with an entry numbered 1 |
| `StampContext.ClaimRewardOnRecord` | src/components/context/StampContext.tsx:326-365 | below the requirement the claim is refused; otherwise only that record resets to 0 stamps with one more completion, and a 'complete' entry is appended |
| `StampContext.AutoStampOnRecipient` | src/components/context/StampContext.tsx:249-315 | the recipient's record gains one stamp, and the entry is the recipient's, marked automatic, naming the caller |
| `StampContext.AutoStampFirstRecord` | src/components/context/StampContext.tsx:273-315 | a recipient without a record gets a new record appended, with 1 stamp and 0 completions; the recipient's automatic entry names the caller, and `getUserStamp` then finds the new record |
| `StampContext.AutoStampAsWrittenMissesRecipient` | src/components/context/StampContext.tsx:249-251 | as written, an auto-stamp for a customer who already holds 3 stamps adds a second record with 1 stamp |
| `StampContext.StampProvider.constructor` | src/components/context/StampContext.tsx:34-38 | the provider starts with the signed-in user and the loaded collections |
| `StampContext.StampProvider.UserStamps` | src/components/context/StampContext.tsx:37 | `userStamps`: the signed-in user's records, none without a user |
| `StampContext.StampProvider.GetUserStamp` | src/components/context/StampContext.tsx:146-148 | a record of the signed-in user for the card, none without a user |
| `StampContext.StampProvider.CreateStampCard` | src/components/context/StampContext.tsx:106-125 | the new state and outcome are those of `CreateCardIn` |
| `StampContext.StampProvider.DeleteStampCard` | src/components/context/StampContext.tsx:127-144 | the new state and outcome are those of `DeleteCardIn` |
| `StampContext.StampProvider.AddStamp` | src/components/context/StampContext.tsx:150-220 | the new state and outcome are those of `AddStampIn` |
| `StampContext.StampProvider.AddAutoStamp` | src/components/context/StampContext.tsx:222-318 | the new state and outcome are those of `AddAutoStampIn` |
| `StampContext.StampProvider.ClaimReward` | src/components/context/StampContext.tsx:320-368 | the new state and outcome are those of `ClaimRewardIn` |
| `StampContext.StampProvider.HandOverReward` | src/app/owner/page.tsx:113-121 | the new state and outcome are those of `HandOverRewardIn` |
| `CardList.RecordFor` | src/components/StampCardList.tsx:19 | a record of the list for the card, none iff there is none |
| `CardList.CountsAsActive` | src/components/StampCardList.tsx:19-24 | active iff a record exists and 0 < stamps < required, or it was never completed and holds no stamp |
| `CardList.CountsAsCompleted` | src/components/StampCardList.tsx:19-25 | completed iff a record exists with completions > 0 or stamps >= required |
| `CardList.ActiveAndCompleted` | src/components/StampCardList.tsx:24-25 | the exact cases a card counts as both |
| `CardList.CountCard` | src/components/StampCardList.tsx:19-25 | one turn of the loop adds one to each counter whose test the card passes |
| `CardList.Counts` | src/components/StampCardList.tsx:14-29 | all is the number of cards; active and completed are the numbers of cards passing each test |
| `CardList.SearchMatches` | src/components/StampCardList.tsx:35-37 | kept iff the term is empty or its lower-case form occurs in the lower-cased shop name or description |
| `CardList.MatchesFilter` | src/components/StampCardList.tsx:40-47 | 'all' keeps every card; 'active' and 'completed' use the counting tests |
| `CardList.FilteredCards` | src/components/StampCardList.tsx:32-51 | an order-preserving subsequence holding exactly the cards the search and the filter keep |
| `CardList.UnfilteredIsAll` | src/components/StampCardList.tsx:33-49 | with no term and 'all', the list is every card in order |
| `CardList.FilteredMatchesCounts` | src/components/StampCardList.tsx:24-25 | with no term, each list is as long as the count on its button |
| `CardList.ClaimedRecordShown` | src/components/StampCardList.tsx:78-83 | after a claim, the list reads the reset record with one more completion |
| `CardList.ClaimedCardIsCompleted` | src/components/StampCardList.tsx:78-83 | after a claim, the card is listed under 'completed' and not under 'active' |
| `CardList.CardListView.constructor` | src/components/StampCardList.tsx:10-11 | empty search and 'all' |
| `CardList.CardListView.Shown` | src/components/StampCardList.tsx:148-149 | the cards on screen are a subsequence of the loaded cards |
| `CardList.CardListView.SetSearchTerm` | src/components/StampCardList.tsx:100 | the term changes, the filter stays |
| `CardList.CardListView.SetFilterType` | src/components/StampCardList.tsx:107-127 | the filter changes, the term stays |
| `CardList.CardListView.HandleClaimReward` | src/components/StampCardList.tsx:78-88 | the claim is `ClaimRewardIn`; the filter becomes 'completed' iff it succeeds |
| `CardView.DisplayedStamps` | src/components/StampCard.tsx:22 | a missing record shows 0 stamps, otherwise its count |
| `CardView.DisplayedCompletions` | src/components/StampCard.tsx:24 | a missing record shows 0 completions, otherwise its count |
| `CardView.IsComplete` | src/components/StampCard.tsx:23 | complete iff the shown stamps reach the requirement |
| `CardView.HasCompletedBefore` | src/components/StampCard.tsx:25 | iff the record has a positive completion count |
| `CardView.CompleteIsCounted` | src/components/StampCard.tsx:22-25 | complete-or-completed-before agrees with the list's 'completed' test |
| `CardView.Cells` | src/components/StampCard.tsx:64-72 | max(0, required) cells, cell i filled iff i < stamps |
| `CardView.FilledCells` | src/components/StampCard.tsx:64-72 | the filled cells number min(max(stamps, 0), max(required, 0)) |
| `CardView.ExpiryInstant` | src/components/StampCard.tsx:156 | first stamp + days × 86 400 000 ms |
| `CardView.CeilDiv` | src/components/StampCard.tsx:158 | `Math.ceil(a / b)`: the least q with a <= q·b |
| `CardView.DaysLeft` | src/components/StampCard.tsx:158 | the whole days to the expiry instant, rounded up |
| `CardView.ExpiredIff` | src/components/StampCard.tsx:159 | expired iff at least one whole day has passed since the expiry instant |
| `CardView.NearExpiryIff` | src/components/StampCard.tsx:160 | near expiry iff the instant is less than one day past and at most seven days ahead |
| `CardView.Notice` | src/components/StampCard.tsx:152-182 | which expiry line is shown, and the bounds each line's numbers satisfy |
| `CardView.StampCardView.constructor` | src/components/StampCard.tsx:20-21 | the QR code and the dialog start closed |
| `CardView.StampCardView.ClaimCode` | src/components/StampCard.tsx:125-132 | a claim code is shown iff complete, opened and signed in, and it is the claim payload |
| `CardView.StampCardView.ButtonOrCode` | src/components/StampCard.tsx:116-125 | the button and the code are never shown together, and either only for a complete card |
| `CardView.StampCardView.OpenClaimQR` | src/components/StampCard.tsx:118 | opens the QR code, dialog unchanged |
| `CardView.StampCardView.CloseClaimQR` | src/components/StampCard.tsx:135 | closes the QR code, dialog unchanged |
| `CardView.StampCardView.HandleManualComplete` | src/components/StampCard.tsx:27-29 | opens the dialog |
| `CardView.StampCardView.HandleConfirmComplete` | src/components/StampCard.tsx:31-36 | closes the dialog and calls the claim exactly once when there is one |
| `CardView.StampCardView.HandleCancelComplete` | src/components/StampCard.tsx:38-40 | closes the dialog and calls nothing |
| `QrCodes.ClaimPayload` | src/components/RewardClaimQRCode.tsx:25 | "claim://" then card id, "/", user id; length 9 + both ids |
| `QrCodes.StampPayload` | src/components/StampQRCode.tsx:20 | "stamp://" then the card id; length 8 + id |
| `QrCodes.SchemesExclusive` | src/app/owner/page.tsx:106-128 | no text starts with both schemes |
| `QrCodes.PosterFilename` | src/components/DownloadableQRCode.tsx:114 | the shop name followed by "_スタンプカード_QR.png" |
| `QrCodes.Slug` | src/components/StampQRCode.tsx:39 | the slug holds no white space |
| `QrCodes.SlugIdempotent` | src/components/StampQRCode.tsx:39 | the slug of a slug is the slug |
| `QrCodes.SlugOfPlainName` | src/components/StampQRCode.tsx:39 | a lower-case name without white space is its own slug |
| `QrCodes.StampImageFilename` | src/components/StampQRCode.tsx:39 | "stamp-qr-" + slug + ".png", with no white space |
| `QrCodes.StampImageDownload` | src/components/StampQRCode.tsx:36-43 | a download happens iff the image data exists, under the slug file name |
| `QrCodes.PosterDownload` | src/components/DownloadableQRCode.tsx:47-52 | a download happens iff the image data, canvas and context exist, under the poster file name |
| `OwnerDashboard.MyStampCards` | src/app/owner/page.tsx:63-66 | the order-preserving sub-list of cards the user owns, empty without a user |
| `OwnerDashboard.Classify` | src/app/owner/page.tsx:106-139 | claim kinds iff the claim scheme; a stamp code iff the stamp scheme and not the claim one |
| `OwnerDashboard.ClaimCodeRoundTrip` | src/components/RewardClaimQRCode.tsx:25 | a claim code of slash-free ids is read back as the same card and customer |
| `OwnerDashboard.ClaimCodeWithSlash` | src/app/owner/page.tsx:108-126 | a claim code with a slash in either id is rejected as invalid |
| `OwnerDashboard.StampCodeRoundTrip` | src/app/owner/page.tsx:128-130 | a stamp code is read back as its id, slashes included |
| `OwnerDashboard.ClaimCodeIsPayload` | src/app/owner/page.tsx:106-110 | every accepted claim text is the claim payload of its slash-free parts |
| `OwnerDashboard.StampCodeIsPayload` | src/app/owner/page.tsx:128-130 | every stamp text is the stamp payload of its id |
| `OwnerDashboard.OwnedCard` | src/app/owner/page.tsx:113 | an owned card with the id, none iff the owner owns none |
| `OwnerDashboard.ScanAsWritten` | src/app/owner/page.tsx:106-139 | the as-written handler changes the store only for a claim code of an owned card |
| `OwnerDashboard.ScanIn` | src/app/owner/page.tsx:106-139 | only a claim code of an owned card changes the store; invalid and unrecognised codes are reported as such |
| `OwnerDashboard.ScanHandsOverCustomerReward` | src/app/owner/page.tsx:110-121 | the scan of a customer's code for an owned card succeeds iff that customer's claim would, with the same store |
| `OwnerDashboard.ScanRefusesOtherShops` | src/app/owner/page.tsx:113-124 | a code for a card the owner does not own is refused and changes nothing |
| `OwnerDashboard.ScanAsWrittenMissesCustomer` | src/app/owner/page.tsx:110-116 | as written, the scan of a full card's code fails with 'Stamp data not found' |
| `OwnerDashboard.ScanHandsOverFullCard` | src/app/owner/page.tsx:110-117 | the corrected scan resets the customer's record and logs the completion |
| `OwnerDashboard.ScanController.constructor` | src/app/owner/page.tsx:58-60 | not busy, no last code, time 0 |
| `OwnerDashboard.ScanController.BeginScan` | src/app/owner/page.tsx:79-92 | accepted iff not busy and not a repeat within 2000 ms; when accepted the handler is busy and remembers the code and time, otherwise nothing changes |
| `OwnerDashboard.ScanController.FinishScan` | src/app/owner/page.tsx:105-142 | the result and the store are those of `ScanIn`, and the handler is free again |
| `OwnerDashboard.ScanController.HandleScanResult` | src/app/owner/page.tsx:75-143 | an ignored scan changes nothing; any other ends free, remembers the code, and acts as `ScanIn` |
| `OwnerDashboard.OnlyCardSelected` | src/app/owner/page.tsx:490 | with one owned card, the selection the toggle makes is what `addAutoStamp` stamps |
| `OwnerDashboard.Dashboard.constructor` | src/app/owner/page.tsx:350-361 | the delete dialog starts closed and auto-stamp off |
| `OwnerDashboard.Dashboard.OpenDeleteModal` | src/app/owner/page.tsx:350-354 | remembers the card, opens the dialog, clears the text |
| `OwnerDashboard.Dashboard.CloseDeleteModal` | src/app/owner/page.tsx:357-361 | closes the dialog, forgets the card, clears the text |
| `OwnerDashboard.Dashboard.SetDeleteConfirmText` | src/app/owner/page.tsx:365 | the typed text changes and nothing else |
| `OwnerDashboard.Dashboard.HandleDeleteCard` | src/app/owner/page.tsx:364-377 | nothing happens unless a card is chosen and '削除' typed; otherwise the deletion is `DeleteCardIn`, and the dialog closes iff it succeeds |
| `OwnerDashboard.Dashboard.ToggleAutoStamp` | src/app/owner/page.tsx:487-491 | checking with one owned card selects it, otherwise keeps the selection; unchecking clears it |
| `OwnerDashboard.Dashboard.SelectCard` | src/app/owner/page.tsx:506-509 | the empty choice is no selection |
| `WrapText.ConcatSnoc` | src/components/DownloadableQRCode.tsx:141-148 | drawing one more line appends its text |
| `WrapText.FitsPrefixes` | src/components/DownloadableQRCode.tsx:136-146 | every prefix of a line built within the width, other than its first character, is within the width |
| `WrapText.BreakStep` | src/components/DownloadableQRCode.tsx:140-143 | a break draws the line and starts the next with the character, keeping the loop state |
| `WrapText.ExtendStep` | src/components/DownloadableQRCode.tsx:144-146 | the character joins the line, keeping the loop state |
| `WrapText.WrapStep` | src/components/DownloadableQRCode.tsx:135-147 | one turn of the loop keeps the loop state and the y position |
| `WrapText.LastLine` | src/components/DownloadableQRCode.tsx:148 | the last line completes the text at its position; empty text draws one empty line |
| `WrapText.LastLineGreedy` | src/components/DownloadableQRCode.tsx:148 | the last line of a non-empty text keeps the lines greedy |
| `WrapText.Wrap` | src/components/DownloadableQRCode.tsx:123-149 | the drawn lines give back the text; line k is at y + k·lineHeight; lines are non-empty, within the width except for their first character, and each ends only where the next character would overflow it |

## Left out

- SHA-224 (`js-sha256`) is a function parameter returning 28 bytes, and
  nothing else is assumed about it. `Principal.toUint8Array` is the principal
  given as bytes. `Buffer.from(hash, 'hex')` is the digest given as bytes: the
  hash is used as bytes directly.
- The document store's `listDocs`, `setDoc` and `deleteDoc` are sequences
  updated in memory.
  - The reload after each write (`refreshStamps`, `Promise.all`, the
    `loading`/`error` state) is not modelled. The provider's fields are the
    store itself.
  - The description matcher `userId:<key>` is modelled as equality of
    `userId`.
  - Listing order is fixed by the model: `Lists.Upsert` appends a new key at
    the end, and `Find` takes the first match. The store does not promise an
    order. So when two records share a user and a card, the model chooses
    which one `getUserStamp` returns. The as-written `addAutoStamp` creates
    such duplicates.
  - Version tokens are not modelled. The store can reject an update whose
    version does not match. The calls to `setDoc` and `deleteDoc` pass no
    version, and `Lists.Upsert` and `Lists.Delete` always succeed.
  - Partial failure is not modelled. The record write and the history write
    are two separate awaits, so the first can succeed while the second
    fails. The model applies both writes together or neither.
- `nanoid()` and `Date.now()` are parameters. The invariant lemmas require that
  fresh ids are not already in use.
- The asynchronous interleavings are left out: React state updates arriving
  late, stale closures, and a second scan arriving while `await claimReward` is
  pending. The scan handler is split into `BeginScan` and `FinishScan` and
  each runs atomically.
- The camera, the QR scanner, QR image generation (`QRCode.toDataURL`) and
  canvas drawing other than the text lines of `wrapText` are left out. So are
  `alert`, `localStorage`, `setTimeout`, `visibilitychange` and routing.
- `measureText` is an abstract function from text to a real width.
- Text is modelled as sequences of Unicode scalar values (Dafny `char`).
  JavaScript strings are UTF-16 code units. The two agree only for text
  inside the Basic Multilingual Plane. Outside it the model differs in three
  places:
  - `WrapText.Wrap` keeps such a character whole. `text.split('')` splits it
    into two surrogate halves and measures each one.
  - The lengths stated for `QrCodes.ClaimPayload` and `QrCodes.StampPayload`
    count scalar values, where `.length` counts code units.
  - `Text.IndexOf` positions are positions in the sequence of scalar values.
- `toLowerCase` covers ASCII letters only. `\s` is the set of JavaScript
  white-space and line-terminator characters.
- `toLocaleDateString` is left out. The expiry notice carries the instant, not
  its rendering.
- Numbers are unbounded integers: `Date` range, floating-point precision of
  large millisecond values, and `NaN` are not modelled.
- The owner page's card-creation form (`handleCreateCard`, its `parseInt` of
  the required stamps and the modal) is not part of this model. The operation it
  calls, `createStampCard`, is modelled.
- The ledger interface declarations (`src/icp_index_idl.ts`,
  `src/icrc1_idl.ts`) describe no behaviour and are not modelled. Neither are
  the points fields of the record types: nothing in the modelled code reads or
  writes them.
- `CardView.Notice` does not carry the `isNearExpiry`/`isExpired` styling, only
  which line is shown.

## Findings

| source | as written | input that shows it | evidently intended | confidence | as-written member | corrected member |
|---|---|---|---|---|---|---|
| src/components/context/StampContext.tsx:249-251 | `addAutoStamp` looks up the recipient's record in `userStamps`, which holds only the signed-in shop owner's own records | the owner "shop" auto-stamps "alice", who holds a record with 3 stamps on card "c1": a second record with 1 stamp is added, and alice's `getUserStamp` still shows 3 | look up the recipient's own record, so that it gains one stamp | not executed | `StampContext.AutoStampAsWrittenMissesRecipient` | `StampContext.AutoStampOnRecipient` |
| src/app/owner/page.tsx:110-116 | the scan of `claim://<cardId>/<userId>` drops the user id and calls `claimReward(cardId)`, which looks for the owner's own record of the card | the owner "shop" scans alice's code for card "c1", which alice has filled (10 of 10): the hand-over fails with 'Stamp data not found' and nothing changes | claim the reward on the record of the customer named in the code | not executed | `OwnerDashboard.ScanAsWrittenMissesCustomer` | `OwnerDashboard.ScanHandsOverFullCard` |

The as-written operations are modelled by `StampContext.AddAutoStampAsWritten`
and `OwnerDashboard.ScanAsWritten`. The corrected ones are
`StampContext.AddAutoStampIn` and `OwnerDashboard.ScanIn` (through
`StampContext.HandOverRewardIn`). Their general properties are
`StampContext.AutoStampOnRecipient` and
`OwnerDashboard.ScanHandsOverCustomerReward`.
