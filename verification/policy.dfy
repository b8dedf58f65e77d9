// Constants and predicates shared by the relay firmware. Times are whole milliseconds; heights are
// real numbers of centimetres.
module Policy {

  const MIN_HOLD_MS: nat := 50
  const MAX_HOLD_MS: nat := 500
  const MIN_MEASURED_CM: real := 73.0
  const MAX_MEASURED_CM: real := 118.0
  const MIN_CONTROL_CM: real := 75.0
  const MAX_CONTROL_CM: real := 115.0
  const HEIGHT_LEASE_MS: nat := 1500
  const ARM_DELAY_MS: nat := 500
  const BREAK_BEFORE_MAKE_MS: nat := 30
  const HEARTBEAT_MS: nat := 5000
  const RETRY_MS: nat := 5000
  const MAX_OBSERVED_AT_BYTES: nat := 40

  /** One more than the largest value millis() returns. */
  const WRAP: nat := 0x1_0000_0000

  type uint32 = x: nat | x < 0x1_0000_0000

  datatype Option<+T> = None | Some(value: T)

  /** The value of millis() at the unbounded time t. */
  function Millis(t: nat): uint32 {
    t % WRAP
  }

  predicate Elapsed(now: uint32, since: uint32, interval: nat) {
    (now - since) % WRAP >= interval
  }

  predicate HoldAllowed(holdMs: int) {
    MIN_HOLD_MS <= holdMs <= MAX_HOLD_MS
  }

  predicate MeasuredHeightAllowed(height: real) {
    MIN_MEASURED_CM <= height <= MAX_MEASURED_CM
  }

  predicate DirectionAllowed(height: real, up: bool) {
    && MeasuredHeightAllowed(height)
    && (if up then height < MAX_CONTROL_CM else height > MIN_CONTROL_CM)
  }

  /** Reading the wrapping clock twice tells the true age up to whole turns of the clock. */
  lemma ElapsedCountsModulo(now: nat, since: nat, interval: nat)
    requires since <= now
    ensures Elapsed(Millis(now), Millis(since), interval) <==> (now - since) % WRAP >= interval
  {
  }
}
