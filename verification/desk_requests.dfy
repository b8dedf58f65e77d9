// What each request, stop, start and shutdown must answer and record, said of heights, reports, times
// and the record alone.
module DeskRequests {
  import opened Policy
  import opened HeightMonitors
  import opened DeskModel
  import opened DeskRecord
  import opened DeskFacts

  // ---- Records

  function NoMotionFields(): Motion {
    Motion(None, None, None, None, None, None, None, None, false)
  }

  /** The live intent is over, and with it everything recorded of its motion. */
  predicate Ended(d: Desk, public: Public, t: Desk) {
    t == d.(pending := None, motion := NoMotionFields(),
            control := Control(public, NoMotion, None, None, None, d.control.generation + 1, false, None, None))
  }

  /** A STOP has begun: the intent is over, and the last report known is the one to be outdated. */
  predicate StopBegun(d: Desk, e: Env, t: Desk) {
    && t.stopping && t.lastStopBaseline == e.relay.receivedAt
    && Ended(d.(stopping := true, lastStopBaseline := e.relay.receivedAt), IsStopped, t)
  }

  /** A new HOLD: its first pulse is due at once, and the watchdog counts from now. */
  predicate HoldBegun(d: Desk, way: Way, e: Env, t: Desk) {
    t == d.(control := Control(InManual, Manual, None, None, Some(way), d.control.generation + 1, false, None, None),
            motion := Motion(Some(e.mono), Some(e.mono), Some(e.mono), None, None,
                             e.relay.receivedAt, e.relay.receivedAt, None, false))
  }

  /** A new target run: continuous, in the direction of its target, due at once. */
  predicate TargetBegun(d: Desk, target: real, way: Way, e: Env, t: Desk) {
    t == d.(control := Control(Moving, Target, Some(Continuous), Some(target), Some(way), d.control.generation + 1,
                               false, None, None),
            motion := Motion(Some(e.mono), None, Some(e.mono), None, None,
                             e.relay.receivedAt, e.relay.receivedAt, None, false))
  }

  /** A new intent that waits for the sensor, and the WAKE it sends. */
  predicate WakeBegun(d: Desk, mode: Mode, way: Way, target: Option<real>, e: Env, t: Desk, next: Next) {
    && e.monitor.height.Some?
    && next == SendWake(WakeOrder(d.control.generation + 1, way, e.monitor.height.value))
    && t == d.(control := Control(Waking, mode, if mode == Target then Some(Continuous) else None, target, Some(way),
                                  d.control.generation + 1, true, e.monitor.observedAt, Some(e.mono)),
               motion := Motion(Some(e.mono), if mode == Manual then Some(e.mono) else None, None, None, None,
                                e.relay.receivedAt, e.relay.receivedAt, None, false))
  }

  // ---- HOLD

  /** Only the time of the last HOLD moves. */
  predicate Renewed(d: Desk, e: Env, t: Desk) {
    t == d.(motion := d.motion.(lastHoldAt := Some(e.mono)))
  }

  /** There is something to stop before a new intent may move the desk. */
  predicate Busy(d: Desk, e: Env) {
    d.control.mode != NoMotion || Running(e)
  }

  predicate HoldServed(c: Settings, d: Desk, way: Way, e: Env, t: Desk, next: Next) {
    var u := d.(pending := None);
    var same := d.control.mode == Manual && d.control.direction == Some(way);
    if !InService(d) then next == Refuse && t == d
    else if d.control.awaiting then
      if same then next == Return && Renewed(u, e, t) else next == Refuse && t == u
    else if LiveHeight(c, e) && LiveRelay(c, e) && Room(c, e.monitor.height.value, way) then
      if same then next == Return && Renewed(u, e, t)
      else if Busy(d, e) then next == HandOver && StopBegun(u, e, t)
      else next == Go && HoldBegun(u, way, e, t)
    else if OldHeight(c, e) && AnsweringRelay(c, e) && Resting(e) && Room(c, e.monitor.height.value, way) then
      WakeBegun(u, Manual, way, None, e, t, next)
    else next == Refuse && t == u
  }

  /** After the hand-over. */
  predicate HoldFollows(c: Settings, d: Desk, way: Way, e: Env, t: Desk, next: Next) {
    if InService(d) && LiveHeight(c, e) && LiveRelay(c, e) && Resting(e) && Room(c, e.monitor.height.value, way)
    then next == Go && HoldBegun(d, way, e, t)
    else next == Refuse && t == d
  }

  lemma HoldRequestIsExact(c: Settings, d: Desk, way: Way, e: Env)
    requires Consistent(e.monitor)
    ensures HoldServed(c, d, way, e, HoldEnters(c, d, way, e).0, HoldEnters(c, d, way, e).1)
    ensures HoldFollows(c, d, way, e, HoldProceeds(c, d, way, e).0, HoldProceeds(c, d, way, e).1)
  {
    TestsAreFacts(c, e);
    RelayTestsAreFacts(c, d, e);
    if e.monitor.height.Some? { DistancesAreFacts(c, 0.0, e.monitor.height.value, 0.0); }
    hide RelayAvailable, RelayReady, LiveRelay, AnsweringRelay, WayAllowed, Room;
  }

  // ---- Targets

  /** The request once nothing is left to stop. */
  predicate TargetFollows(c: Settings, d: Desk, target: real, e: Env, t: Desk, next: Next) {
    var height := if e.monitor.height.Some? then e.monitor.height.value else target;
    var way := if target > height then Up else Down;
    if !InService(d) then next == Refuse && t == d
    else if LiveHeight(c, e) && LiveRelay(c, e) && Resting(e) then
      if Near(target, height, c.tolerance) then next == Reached && t == d
      else next == Go && TargetBegun(d, target, way, e, t)
    else if OldHeight(c, e) && AnsweringRelay(c, e) && Resting(e) then
      if Near(target, height, c.tolerance) then
        && next == Return
        && t == d.(motion := NoMotionFields(),
                   control := Control(Idle, NoMotion, None, None, None, d.control.generation + 1, false, None, None))
      else WakeBegun(d, Target, way, Some(target), e, t, next)
    else next == Refuse && t == d
  }

  predicate TargetServed(c: Settings, d: Desk, target: real, e: Env, t: Desk, next: Next) {
    var u := d.(pending := None);
    var same := d.control.mode == Target && d.control.target == Some(target);
    if target < c.opMin || c.opMax < target then
      next == (if d.control.mode == NoMotion then Refuse else Halt) && t == d
    else if same then next == Return && t == u
    else if d.control.awaiting then next == Refuse && t == u
    else if Busy(d, e) then
      if InService(d) then next == HandOver && StopBegun(u, e, t) else next == Refuse && t == u
    else TargetFollows(c, u, target, e, t, next)
  }

  lemma TargetFollowsExactly(c: Settings, d: Desk, target: real, e: Env)
    requires ValidSettings(c) && Consistent(e.monitor) && c.opMin <= target <= c.opMax && !d.control.awaiting
    ensures TargetFollows(c, d, target, e, TargetProceeds(c, d, target, e).0, TargetProceeds(c, d, target, e).1)
  {
    TestsAreFacts(c, e);
    RelayTestsAreFacts(c, d, e);
    if e.monitor.height.Some? {
      DistancesAreFacts(c, target, e.monitor.height.value, c.tolerance);
      if !Near(target, e.monitor.height.value, c.tolerance) { RoomTowardTarget(c, target, e.monitor.height.value); }
    }
    hide RelayAvailable, RelayReady, LiveRelay, AnsweringRelay, WayAllowed, Room, Abs, Near, Snapshot;
  }

  lemma TargetRequestIsExact(c: Settings, d: Desk, target: real, e: Env)
    requires ValidSettings(c) && RecordOk(c, d) && Consistent(e.monitor)
    ensures TargetServed(c, d, target, e, TargetEnters(c, d, target, e).0, TargetEnters(c, d, target, e).1)
  {
    if c.opMin <= target <= c.opMax && !d.control.awaiting { TargetFollowsExactly(c, d.(pending := None), target, e); }
    RelayTestsAreFacts(c, d.(pending := None), e);
    hide TargetProceeds, TargetFollows, RelayAvailable, RelayReady, FreshStop;
  }

  // ---- Stop, start and shutdown

  /** A stop begins unless one is under way or the controller has ended. */
  lemma StopIsExact(c: Settings, d: Desk, e: Env, failed: bool)
    ensures var (t, begun) := StopBegins(d, e);
      && (begun <==> (d.running || d.closing) && !d.stopping)
      && (if begun then StopBegun(d, e, t) else t == d)
    ensures var t := StopEnds(d, failed);
      t == d.(stopping := false, control := d.control.(public := if failed then InError else IsStopped))
  {
  }

  /** The end of start(): the startup WAKE is pending exactly when the height in range is an old one. */
  predicate StartFollows(c: Settings, d: Desk, failed: bool, e: Env, t: Desk) {
    && t == d.(stopping := false, pending := t.pending, control := d.control.(public := t.control.public))
    && (!failed && d.running && !d.closing && OldHeight(c, e) ==> t.pending == Some(e.mono + c.wakeTimeoutMs))
    && (!failed && !LiveReading(c, e) && !OldHeight(c, e) ==> t.pending == None)
    && (failed || LiveReading(c, e) || (OldHeight(c, e) && !(d.running && !d.closing)) ==> t.pending == d.pending)
    && t.control.public == if failed then InError else Idle
  }

  lemma StartIsExact(c: Settings, d: Desk, failed: bool, e: Env)
    requires ValidSettings(c) && Consistent(e.monitor)
    ensures StartFollows(c, d, failed, e, StartEnds(c, d, failed, e))
    ensures var s := Started(d.control.generation);
      s.running && !s.closing && s.stopping && Ended(s.(control := d.control), Idle, s)
  {
    TestsAreFacts(c, e);
    RelayTestsAreFacts(c, d, e);
  }

  lemma CloseIsExact(d: Desk, failed: bool)
    ensures Ended(d.(closing := true, stopping := true), IsStopped, CloseBegins(d))
    ensures CloseEnds(d, failed) ==
      d.(running := false, stopping := false, control := d.control.(public := if failed then InError else IsStopped))
  {
  }

  // ---- What a published pulse leaves behind

  /**
   * The next pulse is due one refresh after this one was decided on, and the first of them dates the
   * answer of the relay. After a fine pulse the desk settles for its hold and the settling time.
   */
  predicate PulseNoted(c: Settings, d: Desk, p: Pulse, mono: int, t: Desk) {
    && t.motion.nextRefreshAt == Some(p.startedAt + c.refreshMs)
    && t.motion.firstPulseAt == (if d.motion.firstPulseAt.Some? then d.motion.firstPulseAt else Some(p.startedAt))
    && (if p.fineAt.Some? then
          && t.control == d.control.(phase := Some(Settling), direction := None)
          && t.motion.lastFineAt == p.fineAt
          && t.motion.settleUntil == Some(mono + p.holdMs + c.fineSettleMs)
        else
          && t.control == d.control
          && t.motion.lastFineAt == d.motion.lastFineAt && t.motion.settleUntil == d.motion.settleUntil)
    && t == d.(control := t.control,
               motion := d.motion.(nextRefreshAt := t.motion.nextRefreshAt, firstPulseAt := t.motion.firstPulseAt,
                                   lastFineAt := t.motion.lastFineAt, settleUntil := t.motion.settleUntil))
  }

  lemma PulseIsNoted(c: Settings, d: Desk, p: Pulse, mono: int)
    ensures PulseNoted(c, d, p, mono, PulseDone(c, d, p, mono))
    ensures SettleDone(c, d, mono) == d.(motion := d.motion.(settleUntil := Some(mono + c.fineSettleMs)))
  {
  }
}
