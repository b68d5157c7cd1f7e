/**
 * One stamp card as the customer sees it: the stamps shown, the grid of cells,
 * the expiry notice, and the flags for the claim QR code and the confirmation
 * dialog of a manual hand-over.
 */
module CardView {
  import opened Common
  import opened Text
  import opened StampTypes
  import opened QrCodes
  import opened CardList

  /** `userStamp?.stampCount || 0`: a missing record shows no stamp. */
  function DisplayedStamps(rec: Option<UserStamp>): (n: int)
    ensures rec.None? ==> n == 0
    ensures rec.Some? ==> n == rec.value.stampCount
  {
    if rec.Some? && rec.value.stampCount != 0 then rec.value.stampCount else 0
  }

  /** `userStamp?.completedCount || 0`: a missing record shows no completion. */
  function DisplayedCompletions(rec: Option<UserStamp>): (n: int)
    ensures rec.None? ==> n == 0
    ensures rec.Some? ==> n == rec.value.completedCount
  {
    if rec.Some? && rec.value.completedCount != 0 then rec.value.completedCount else 0
  }

  /** `isComplete`: the shown stamps reach the requirement. */
  function IsComplete(card: StampCard, rec: Option<UserStamp>): (b: bool)
    ensures b <==> if rec.Some? then rec.value.stampCount >= card.requiredStamps else card.requiredStamps <= 0
  {
    DisplayedStamps(rec) >= card.requiredStamps
  }

  /** `hasCompletedBefore`: the shown completions are positive. */
  function HasCompletedBefore(rec: Option<UserStamp>): (b: bool)
    ensures b <==> rec.Some? && rec.value.completedCount > 0
  {
    DisplayedCompletions(rec) > 0
  }

  /**
   * A card the customer sees as complete is counted as completed by the list,
   * unless it has no record and asks for no stamp.
   */
  lemma CompleteIsCounted(card: StampCard, rec: Option<UserStamp>)
    requires rec.Some? || card.requiredStamps >= 1
    ensures IsComplete(card, rec) || HasCompletedBefore(rec) <==> CountsAsCompleted(rec, card)
  {
  }

  // ---------------------------------------------------------------------------
  // The grid
  // ---------------------------------------------------------------------------

  /**
   * The grid: `Array.from({ length: requiredStamps })`, cell `index` filled when
   * `index < stampCount`. A negative length gives no cell.
   */
  function Cells(requiredStamps: int, stampCount: int): (cells: seq<bool>)
    ensures |cells| == if requiredStamps < 0 then 0 else requiredStamps
    ensures forall i :: 0 <= i < |cells| ==> (cells[i] <==> i < stampCount)
  {
    var n := if requiredStamps < 0 then 0 else requiredStamps;
    seq(n, i requires 0 <= i < n => i < stampCount)
  }

  /** The number of filled cells. */
  function Filled(cells: seq<bool>): nat {
    multiset(cells)[true]
  }

  /** The grid shows as many filled cells as there are stamps, up to the number of cells. */
  lemma {:induction false} FilledCells(requiredStamps: int, stampCount: int)
    ensures Filled(Cells(requiredStamps, stampCount)) == Clamp(stampCount, requiredStamps)
    decreases requiredStamps
  {
    if requiredStamps > 0 {
      var cells := Cells(requiredStamps, stampCount);
      var shorter := Cells(requiredStamps - 1, stampCount);
      FilledCells(requiredStamps - 1, stampCount);
      assert cells == shorter + [requiredStamps - 1 < stampCount];
      assert multiset(cells) == multiset(shorter) + multiset{requiredStamps - 1 < stampCount};
    }
  }

  /** `min(max(a, 0), max(bound, 0))`. */
  function Clamp(a: int, bound: int): nat {
    if a <= 0 || bound <= 0 then 0 else if a < bound then a else bound
  }

  // ---------------------------------------------------------------------------
  // Expiry
  // ---------------------------------------------------------------------------

  const DayMillis: int := 24 * 60 * 60 * 1000

  /** An optional number that JavaScript reads as true: present and not zero. */
  predicate Truthy(v: Option<int>) {
    v.Some? && v.value != 0
  }

  /** The expiry instant, `expirationDays` days after the first stamp, in milliseconds. */
  function ExpiryInstant(firstStampedAt: int, expirationDays: int): (t: int)
    ensures t - firstStampedAt == expirationDays * 86_400_000
  {
    firstStampedAt + expirationDays * DayMillis
  }

  /** `Math.ceil(a / b)` for whole milliseconds and a positive divisor. */
  function CeilDiv(a: int, b: int): (q: int)
    requires b > 0
    ensures (q - 1) * b < a <= q * b
  {
    -((-a) / b)
  }

  /** `daysLeft`: the whole days up to the expiry instant, rounded up. */
  function DaysLeft(expiry: int, now: int): (d: int)
    ensures (d - 1) * DayMillis < expiry - now <= d * DayMillis
  {
    CeilDiv(expiry - now, DayMillis)
  }

  /**
   * `isExpired` holds from one whole day after the expiry instant: during the
   * first day after it the days left round up to zero.
   */
  lemma ExpiredIff(expiry: int, now: int)
    ensures DaysLeft(expiry, now) < 0 <==> now - expiry >= DayMillis
  {
    var d := DaysLeft(expiry, now);
    if d < 0 {
      assert d * DayMillis <= -DayMillis;
    } else {
      assert (d - 1) * DayMillis >= -DayMillis;
    }
  }

  /** `isNearExpiry` holds from seven days before the expiry instant until one day after it. */
  lemma NearExpiryIff(expiry: int, now: int)
    ensures 0 <= DaysLeft(expiry, now) <= 7 <==> -DayMillis < expiry - now <= 7 * DayMillis
  {
    var d := DaysLeft(expiry, now);
    if d < 0 {
      assert d * DayMillis <= -DayMillis;
    } else if d > 7 {
      assert (d - 1) * DayMillis >= 7 * DayMillis;
    } else {
      assert (d - 1) * DayMillis >= -DayMillis;
      assert d * DayMillis <= 7 * DayMillis;
    }
  }

  /** What the expiry part of the card shows. */
  datatype ExpiryNotice =
    | NoNotice
    | ExpiredNotice(expiry: int)                // the expired warning
    | NearExpiryNotice(daysLeft: int, expiry: int)
    | ExpiresOn(expiry: int)                    // the expiry date
    | DaysFromFirstStamp(days: int)             // the validity from the first stamp
    | FixedDate(expiresAt: int)                 // the card's fixed expiry date

  /** The expiry part of the card at `now`. */
  function Notice(card: StampCard, rec: Option<UserStamp>, now: int): (n: ExpiryNotice)
    ensures n == NoNotice <==> !Truthy(card.expirationDays) && !Truthy(card.expiresAt)
    ensures n.ExpiredNotice? || n.NearExpiryNotice? || n.ExpiresOn? <==>
              Truthy(card.expirationDays) && rec.Some? && Truthy(rec.value.firstStampedAt)
    ensures n.ExpiredNotice? ==> now - n.expiry >= DayMillis
    ensures n.NearExpiryNotice? ==> 0 <= n.daysLeft <= 7 && -DayMillis < n.expiry - now <= 7 * DayMillis
    ensures n.ExpiresOn? ==> n.expiry - now > 7 * DayMillis
    ensures n.DaysFromFirstStamp? ==> Some(n.days) == card.expirationDays
    ensures n.FixedDate? ==> !Truthy(card.expirationDays) && Some(n.expiresAt) == card.expiresAt
  {
    if !Truthy(card.expirationDays) && !Truthy(card.expiresAt) then NoNotice
    else if Truthy(card.expirationDays) && rec.Some? && Truthy(rec.value.firstStampedAt) then
      var expirationDate := ExpiryInstant(rec.value.firstStampedAt.value, card.expirationDays.value);
      var daysLeft := DaysLeft(expirationDate, now);
      ExpiredIff(expirationDate, now);
      NearExpiryIff(expirationDate, now);
      if daysLeft < 0 then ExpiredNotice(expirationDate)
      else if daysLeft <= 7 then NearExpiryNotice(daysLeft, expirationDate)
      else ExpiresOn(expirationDate)
    else if Truthy(card.expirationDays) then DaysFromFirstStamp(card.expirationDays.value)
    else FixedDate(card.expiresAt.value)
  }

  // ---------------------------------------------------------------------------
  // The card's own state
  // ---------------------------------------------------------------------------

  /** The card's two flags: the claim QR code is open, the confirmation dialog is open. */
  class StampCardView {
    var showClaimQR: bool
    var showConfirmDialog: bool

    constructor ()
      ensures !showClaimQR && !showConfirmDialog
    {
      showClaimQR := false;
      showConfirmDialog := false;
    }

    /** The button that opens the claim QR code is shown. */
    predicate ShowsClaimButton(card: StampCard, rec: Option<UserStamp>)
      reads this
    {
      IsComplete(card, rec) && !showClaimQR
    }

    /**
     * The text of the claim QR code on screen, if it is shown: the card's id and
     * the signed-in customer's key. It is shown only for a complete card.
     */
    function ClaimCode(card: StampCard, rec: Option<UserStamp>, user: Option<string>): (code: Option<string>)
      reads this
      ensures code.Some? <==> IsComplete(card, rec) && showClaimQR && user.Some?
      ensures code.Some? ==> code.value == ClaimPayload(card.id, user.value)
    {
      if IsComplete(card, rec) && showClaimQR && user.Some? then Some(ClaimPayload(card.id, user.value)) else None
    }

    /** The claim button and the claim QR code are never on screen together. */
    lemma ButtonOrCode(card: StampCard, rec: Option<UserStamp>, user: Option<string>)
      ensures !(ShowsClaimButton(card, rec) && ClaimCode(card, rec, user).Some?)
      ensures ShowsClaimButton(card, rec) || ClaimCode(card, rec, user).Some? ==> IsComplete(card, rec)
    {
    }

    /** The button that shows the claim QR code. */
    method OpenClaimQR()
      modifies this
      ensures showClaimQR && showConfirmDialog == old(showConfirmDialog)
    {
      showClaimQR := true;
    }

    /** The close button under the claim QR code. */
    method CloseClaimQR()
      modifies this
      ensures !showClaimQR && showConfirmDialog == old(showConfirmDialog)
    {
      showClaimQR := false;
    }

    /** `handleManualComplete`: opens the confirmation dialog. */
    method HandleManualComplete()
      modifies this
      ensures showConfirmDialog && showClaimQR == old(showClaimQR)
    {
      showConfirmDialog := true;
    }

    /**
     * `handleConfirmComplete`: closes the dialog and calls `onClaimReward` once,
     * when the card was given one; `claims` is the number of calls made.
     */
    method HandleConfirmComplete(hasOnClaimReward: bool) returns (claims: nat)
      modifies this
      ensures !showConfirmDialog && showClaimQR == old(showClaimQR)
      ensures claims == if hasOnClaimReward then 1 else 0
    {
      showConfirmDialog := false;
      claims := 0;
      if hasOnClaimReward {
        claims := claims + 1;
      }
    }

    /** `handleCancelComplete`: closes the dialog and makes no call. */
    method HandleCancelComplete() returns (claims: nat)
      modifies this
      ensures !showConfirmDialog && showClaimQR == old(showClaimQR)
      ensures claims == 0
    {
      showConfirmDialog := false;
      claims := 0;
    }
  }
}
