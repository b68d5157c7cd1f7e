/**
 * The sign-in settings: how long a delegation lives, in nanoseconds, and after
 * how long without activity the session ends, in milliseconds. Both are thirty
 * days.
 */
module AuthConfig {
  /** `MAX_TIME_TO_LIVE`, a `BigInt` of nanoseconds. */
  const MaxTimeToLive: nat := 30 * 24 * 60 * 60 * 1_000_000_000

  /** `IDLE_TIMEOUT`, a `number` of milliseconds. */
  const IdleTimeout: nat := 30 * 24 * 60 * 60 * 1000

  const Windowed: bool := false
  const AllowPin: bool := true
  const DisableDefaultIdleCallback: bool := true

  /**
   * The two settings are the same thirty days, one in nanoseconds and one in
   * milliseconds. The time to live fits the unsigned 64-bit field it is sent in,
   * and the timeout is a number JavaScript holds exactly.
   */
  lemma ThirtyDays()
    ensures MaxTimeToLive == 2_592_000_000_000_000
    ensures IdleTimeout == 2_592_000_000
    ensures MaxTimeToLive == IdleTimeout * 1_000_000
    ensures MaxTimeToLive < 0x1_0000_0000_0000_0000
    ensures IdleTimeout <= 0x1F_FFFF_FFFF_FFFF
  {
  }
}
