/** Time values and the default interframe-spacing and timeout formulas of the
    wireless MAC. The defaults follow the OFDM PHY of IEEE 802.11a (clause 17)
    and the DCF timing relations of IEEE 802.11 (section 9.2.10). */
module MacTiming {

  /** A simulation time, as a whole number of nanoseconds. */
  type Time = int

  const NanoSecondsPerMicroSecond: int := 1000
  const NanoSecondsPerSecond: int := 1_000_000_000

  function MicroSeconds(us: int): Time { us * NanoSecondsPerMicroSecond }

  function Seconds(s: int): Time { s * NanoSecondsPerSecond }

  /** Longest link the defaults are sized for, in metres. */
  const MaxLinkRange: nat := 1000

  /** Propagation speed of the radio signal, in metres per second. */
  const SpeedOfLight: nat := 300_000_000

  /** One-way propagation time over MaxLinkRange, truncated to whole nanoseconds:
      the largest d with d ns × SpeedOfLight m/s ≤ MaxLinkRange m × 10⁹ ns/s. */
  function DefaultMaxPropagationDelay(): (d: Time)
    ensures 0 <= d
    ensures d * SpeedOfLight <= MaxLinkRange * NanoSecondsPerSecond < (d + 1) * SpeedOfLight
  {
    MaxLinkRange * NanoSecondsPerSecond / SpeedOfLight
  }

  /** Slot time of the 802.11a OFDM PHY: exactly 9 microseconds. */
  function DefaultSlot(): (t: Time)
    ensures t == 9_000
  {
    MicroSeconds(9)
  }

  /** Short interframe space of the 802.11a OFDM PHY: exactly 16 microseconds. */
  function DefaultSifs(): (t: Time)
    ensures t == 16_000
  {
    MicroSeconds(16)
  }

  /** Duration of a CTS or ACK frame sent at 6 Mb/s: exactly 44 microseconds. */
  function DefaultCtsAckDelay(): (t: Time)
    ensures t == 44_000
  {
    MicroSeconds(44)
  }

  /** Extended interframe space without its DIFS part: one SIFS and one CTS/ACK,
      60 microseconds in all. */
  function DefaultEifsNoDifs(): (t: Time)
    ensures t == 60_000
    ensures t - DefaultSifs() == DefaultCtsAckDelay()
  {
    DefaultSifs() + DefaultCtsAckDelay()
  }

  /** How long a sender waits for a CTS or an ACK before giving up: the SIFS gap,
      the response frame, the propagation there and back, and one slot of margin.
      ns-3's GetDefaultCtsAckTimeout accumulates the four terms into one local
      time value; the lets below follow its steps. */
  function DefaultCtsAckTimeout(): (t: Time)
    ensures t == DefaultSifs() + DefaultCtsAckDelay() + 2 * DefaultMaxPropagationDelay() + DefaultSlot()
    ensures t == DefaultEifsNoDifs() + 2 * DefaultMaxPropagationDelay() + DefaultSlot()
    ensures t == MicroSeconds(69) + 2 * DefaultMaxPropagationDelay()
    // the timer never expires before the earliest moment a response can have arrived
    ensures t > DefaultSifs() + DefaultCtsAckDelay() + 2 * DefaultMaxPropagationDelay()
  {
    var afterSifs := DefaultSifs();
    var afterResponse := afterSifs + DefaultCtsAckDelay();
    var afterRoundTrip := afterResponse + DefaultMaxPropagationDelay() * 2;
    var withMargin := afterRoundTrip + DefaultSlot();
    withMargin
  }

  /** The 802.11a defaults are ordered
      SIFS < PIFS = SIFS + slot < EIFS-without-DIFS < CTS/ACK timeout. */
  lemma DefaultSpacingOrder()
    ensures 0 < DefaultSlot()
    ensures DefaultSifs() < DefaultSifs() + DefaultSlot() < DefaultEifsNoDifs()
    ensures DefaultEifsNoDifs() < DefaultCtsAckTimeout()
  {
  }
}
