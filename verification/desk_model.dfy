// The desk controller's records and what each uninterrupted section of its methods does to them. A
// section is the code between two awaits that can really suspend. Times are milliseconds.
module DeskModel {
  import opened Policy
  import opened HeightMonitors

  datatype Way = Up | Down

  datatype Mode = NoMotion | Wake | Target | Manual

  datatype Phase = Continuous | Settling | Fine

  datatype Public = Idle | Moving | InManual | IsStopped | InError | Waking

  datatype Settings = Settings(
    measureMin: real, measureMax: real, opMin: real, opMax: real, tolerance: real, fineDistance: real,
    continuousHoldMs: nat, manualHoldMs: nat, fineHoldMs: nat,
    refreshMs: nat, pollMs: nat, watchdogMs: nat, targetTimeoutMs: nat, fineSettleMs: nat,
    heightStaleMs: nat, relayStaleMs: nat, ackMs: nat, wakeTimeoutMs: nat)

  predicate ValidSettings(c: Settings) {
    && 73.0 <= c.measureMin < c.measureMax <= 118.0
    && 75.0 <= c.opMin < c.opMax <= 115.0
    && c.measureMin <= c.opMin && c.opMax <= c.measureMax
    && 0 < c.refreshMs < c.continuousHoldMs <= MAX_HOLD_MS
    && c.refreshMs < c.manualHoldMs <= MAX_HOLD_MS
    && MIN_HOLD_MS <= c.fineHoldMs <= MAX_HOLD_MS
    && MIN_HOLD_MS <= c.continuousHoldMs && MIN_HOLD_MS <= c.manualHoldMs
    && 0 < c.pollMs <= c.refreshMs
    && c.pollMs < c.watchdogMs
    && 0.0 < c.tolerance < c.fineDistance
    && c.ackMs < c.relayStaleMs
    && c.pollMs < c.wakeTimeoutMs
  }

  datatype RelayEvent = OnlineEvent | Heartbeat | MovingEvent | StoppedEvent | RejectedEvent | Offline

  datatype RelayState = RelayUp | RelayDown | RelayStop

  datatype Code = Ready | HeightWaiting | HeightNotReady | HeightStale | OtherCode

  datatype RelayReport = RelayReport(
    event: Option<RelayEvent>, state: Option<RelayState>, supported: bool, code: Option<Code>,
    receivedAt: Option<int>, faulty: bool)

  /** What a section reads from outside: both clocks, the height monitor and the last relay report. */
  datatype Env = Env(mono: int, wall: int, monitor: Monitor, serial: Serial, relay: RelayReport)

  function HeightIn(c: Settings, e: Env): HeightSnapshot {
    Snapshot(e.monitor, e.serial, e.wall, c.heightStaleMs)
  }

  datatype Control = Control(
    public: Public, mode: Mode, phase: Option<Phase>, target: Option<real>, direction: Option<Way>,
    generation: nat, awaiting: bool, wakeObservedAt: Option<int>, wakeStartedAt: Option<int>)

  datatype Motion = Motion(
    startedAt: Option<int>, lastHoldAt: Option<int>, nextRefreshAt: Option<int>, settleUntil: Option<int>,
    lastFineAt: Option<int>, relayBaseline: Option<int>, relayLastSeen: Option<int>,
    firstPulseAt: Option<int>, confirmed: bool)

  datatype Desk = Desk(
    control: Control, running: bool, closing: bool, stopping: bool, pending: Option<int>, motion: Motion,
    lastUnexpected: Option<int>, lastStopBaseline: Option<int>)

  function NoIntent(public: Public, generation: nat): Control {
    Control(public, NoMotion, None, None, None, generation, false, None, None)
  }

  function NoFields(): Motion {
    Motion(None, None, None, None, None, None, None, None, false)
  }

  function Tracking(m: Motion, r: RelayReport): Motion {
    m.(relayBaseline := r.receivedAt, relayLastSeen := r.receivedAt, firstPulseAt := None, confirmed := false)
  }

  // ---- Admission

  predicate InRange(c: Settings, height: Option<real>) {
    height.Some? && c.measureMin <= height.value <= c.measureMax
  }

  predicate HeightUsable(c: Settings, h: HeightSnapshot) {
    h.status == Online && h.observedAt.Some? && InRange(c, h.height)
  }

  predicate WakeBasis(c: Settings, h: HeightSnapshot) {
    h.status in {Stale, SensorSleeping} && h.observedAt.Some? && InRange(c, h.height)
  }

  predicate RelayAvailable(c: Settings, r: RelayReport, wall: int) {
    && !r.faulty
    && r.event.Some? && r.event.value !in {Offline, RejectedEvent}
    && r.supported
    && r.receivedAt.Some?
    && 0 <= wall - r.receivedAt.value <= c.relayStaleMs
  }

  predicate RelayReady(c: Settings, r: RelayReport, wall: int) {
    RelayAvailable(c, r, wall) && r.code !in {Some(HeightWaiting), Some(HeightNotReady), Some(HeightStale)}
  }

  predicate WayAllowed(c: Settings, height: real, way: Way) {
    match way
    case Up => height < c.opMax
    case Down => height > c.opMin
  }

  predicate Accepting(d: Desk) {
    d.running && !d.closing && !d.stopping
  }

  predicate AdmitMotion(c: Settings, d: Desk, e: Env) {
    && Accepting(d)
    && HeightUsable(c, HeightIn(c, e))
    && RelayReady(c, e.relay, e.wall)
    && e.relay.state == Some(RelayStop)
  }

  predicate AdmitWake(c: Settings, d: Desk, e: Env) {
    Accepting(d) && RelayAvailable(c, e.relay, e.wall) && e.relay.state == Some(RelayStop)
  }

  predicate RelayMoves(r: RelayReport) {
    r.state in {Some(RelayUp), Some(RelayDown)}
  }

  function Abs(x: real): real {
    if x < 0.0 then -x else x
  }

  function Toward(delta: real): Way {
    if delta > 0.0 then Up else Down
  }

  function Reported(way: Way): RelayState {
    match way
    case Up => RelayUp
    case Down => RelayDown
  }

  // ---- Replacing the intent

  function Invalidate(d: Desk): Desk {
    d.(pending := None, control := NoIntent(IsStopped, d.control.generation + 1), motion := NoFields())
  }

  function InstallTarget(d: Desk, target: real, way: Way, e: Env): Desk {
    d.(control := Control(Moving, Target, Some(Continuous), Some(target), Some(way), d.control.generation + 1,
                          false, None, None),
       motion := Tracking(Motion(Some(e.mono), None, Some(e.mono), None, None, None, None, None, false), e.relay))
  }

  function InstallManual(d: Desk, way: Way, e: Env): Desk {
    d.(control := Control(InManual, Manual, None, None, Some(way), d.control.generation + 1, false, None, None),
       motion := Tracking(Motion(Some(e.mono), Some(e.mono), Some(e.mono), None, None, None, None, None, false), e.relay))
  }

  function InstallWake(d: Desk, mode: Mode, way: Way, target: Option<real>, basisAt: int, e: Env): Desk {
    d.(control := Control(Waking, mode, if mode == Target then Some(Continuous) else None, target, Some(way),
                          d.control.generation + 1, true, Some(basisAt), Some(e.mono)),
       motion := Tracking(Motion(if mode != Wake then Some(e.mono) else None,
                                 if mode == Manual then Some(e.mono) else None,
                                 None, None, None, None, None, None, false), e.relay))
  }

  /** An intent that ends without a STOP: the sensor is awake, or has to be looked at first. */
  function EndIdle(d: Desk): Desk {
    d.(control := NoIntent(Idle, d.control.generation + 1), motion := NoFields())
  }

  function RefreshHold(d: Desk, e: Env): Desk {
    d.(motion := d.motion.(lastHoldAt := Some(e.mono)))
  }

  /** The first section of _stop_and_confirm; false when it returns or raises at once. */
  function StopBegins(d: Desk, e: Env): (Desk, bool) {
    if !(d.running || d.closing) || d.stopping then (d, false)
    else (Invalidate(d).(stopping := true, lastStopBaseline := e.relay.receivedAt), true)
  }

  function StopEnds(d: Desk, failed: bool): Desk {
    d.(stopping := false, control := d.control.(public := if failed then InError else IsStopped))
  }

  predicate FreshStop(baseline: Option<int>, r: RelayReport) {
    && r.state == Some(RelayStop)
    && r.receivedAt.Some?
    && (baseline.None? || r.receivedAt.value > baseline.value)
    && r.event !in {Some(Offline), Some(RejectedEvent)}
  }

  // ---- Lifetime

  function Started(generation: nat): Desk {
    Desk(NoIntent(Idle, generation + 1), true, false, true, None, NoFields(), None, None)
  }

  function CheckNeeded(d: Desk): Desk {
    if !d.running || d.closing then d.(pending := None)
    else d.(pending := None, control := d.control.(public := Idle))
  }

  function WakeWay(c: Settings, height: real): Way {
    if height < (c.opMin + c.opMax) / 2.0 then Up else Down
  }

  /** The last section of start(): the flag falls and the startup WAKE is registered. */
  function StartEnds(c: Settings, d: Desk, failed: bool, e: Env): Desk {
    var t := d.(stopping := false, control := d.control.(public := if failed then InError else Idle));
    var h := HeightIn(c, e);
    if failed || h.status == Online then t
    else if !WakeBasis(c, h) || !WayAllowed(c, h.height.value, WakeWay(c, h.height.value)) then CheckNeeded(t)
    else if !Accepting(t) then t
    else t.(pending := Some(e.mono + c.wakeTimeoutMs), control := t.control.(public := Idle))
  }

  function CloseBegins(d: Desk): Desk {
    Invalidate(d.(closing := true, stopping := true))
  }

  function CloseEnds(d: Desk, failed: bool): Desk {
    d.(running := false, stopping := false,
       control := d.control.(public := if failed then InError else IsStopped))
  }

  // ---- Intents

  /** What a WAKE message carries. */
  datatype WakeOrder = WakeOrder(generation: nat, way: Way, basis: real)

  datatype Next =
    | Return                       // done, or already in effect
    | Refuse                       // an exception for the caller
    | HandOver                     // the live intent has been invalidated; its STOP must be confirmed
    | SendWake(order: WakeOrder)   // a WAKE intent has been installed
    | Reached                      // the target needs no motion: a stop task is created
    | Halt                         // validation failed with a live intent: a stop task, then an exception
    | Go                           // the new intent has been installed

  function BeginWake(c: Settings, d: Desk, mode: Mode, way: Way, target: Option<real>, e: Env): (Desk, Next)
    requires WakeBasis(c, HeightIn(c, e))
  {
    var h := HeightIn(c, e);
    if !Accepting(d) || d.control.awaiting then (d, Refuse)
    else
      var t := InstallWake(d, mode, way, target, h.observedAt.value, e);
      (t, SendWake(WakeOrder(t.control.generation, way, h.height.value)))
  }

  /** The part of _set_target after the live intent, if any, has been stopped. */
  function TargetProceeds(c: Settings, d: Desk, target: real, e: Env): (Desk, Next) {
    var h := HeightIn(c, e);
    if h.status != Online then
      if !WakeBasis(c, h) || !AdmitWake(c, d, e) then (d, Refuse)
      else
        var delta := target - h.height.value;
        if Abs(delta) <= c.tolerance then (EndIdle(d), Return)
        else if !WayAllowed(c, h.height.value, Toward(delta)) then (d, Refuse)
        else BeginWake(c, d, Target, Toward(delta), Some(target), e)
    else if !AdmitMotion(c, d, e) then (d, Refuse)
    else
      var delta := target - h.height.value;
      if Abs(delta) <= c.tolerance then (d, Reached)
      else if !WayAllowed(c, h.height.value, Toward(delta)) then (d, Refuse)
      else (InstallTarget(d, target, Toward(delta), e), Go)
  }

  /** _set_target from the check of its argument to its first await. */
  function TargetEnters(c: Settings, d: Desk, target: real, e: Env): (Desk, Next) {
    if !(c.opMin <= target <= c.opMax) then (d, if d.control.mode == NoMotion then Refuse else Halt)
    else
      var t := d.(pending := None);
      var same := t.control.mode == Target && t.control.target == Some(target);
      if t.control.awaiting then (t, if same then Return else Refuse)
      else if same && !t.stopping then (t, Return)
      else if t.control.mode != NoMotion || RelayMoves(e.relay) then
        if !Accepting(t) then (t, Refuse) else (StopBegins(t, e).0, HandOver)
      else TargetProceeds(c, t, target, e)
  }

  function HoldInstalls(c: Settings, d: Desk, way: Way, e: Env): (Desk, Next) {
    (InstallManual(d, way, e), Go)
  }

  /** The part of _hold after the live intent has been stopped. */
  function HoldProceeds(c: Settings, d: Desk, way: Way, e: Env): (Desk, Next) {
    if !AdmitMotion(c, d, e) || !WayAllowed(c, HeightIn(c, e).height.value, way) then (d, Refuse)
    else HoldInstalls(c, d, way, e)
  }

  function HoldEnters(c: Settings, d: Desk, way: Way, e: Env): (Desk, Next) {
    if !Accepting(d) then (d, Refuse)
    else
      var h := HeightIn(c, e);
      var t := d.(pending := None);
      var same := t.control.mode == Manual && t.control.direction == Some(way);
      if t.control.awaiting then
        if same then (RefreshHold(t, e), Return) else (t, Refuse)
      else if h.status != Online then
        if !WakeBasis(c, h) || !AdmitWake(c, t, e) || !WayAllowed(c, h.height.value, way) then (t, Refuse)
        else BeginWake(c, t, Manual, way, None, e)
      else if !HeightUsable(c, h) || !RelayReady(c, e.relay, e.wall) || !WayAllowed(c, h.height.value, way) then
        (t, Refuse)
      else if same then (RefreshHold(t, e), Return)
      else if t.control.mode != NoMotion || RelayMoves(e.relay) then (StopBegins(t, e).0, HandOver)
      else HoldInstalls(c, t, way, e)
  }

  // ---- The runner

  /** A pulse the runner has decided on, with everything the decision was made from. */
  datatype Pulse = Pulse(
    generation: nat, way: Way, holdMs: nat, fineAt: Option<int>, startedAt: int,
    control: Control, motion: Motion, env: Env)

  datatype Act =
    | Rest
    | Stop(blamed: bool)          // a stop task is created; an error is on record if `blamed`
    | Publish(pulse: Pulse)
    | SendStop                    // the STOP of _enter_settling
    | Lock                        // the intent lock is needed to look at the startup WAKE
    | Nudge(order: WakeOrder)     // the startup WAKE

  function PulseOf(c: Settings, d: Desk, way: Way, holdMs: nat, fineAt: Option<int>, e: Env): Pulse {
    Pulse(d.control.generation, way, holdMs, fineAt, e.mono, d.control, d.motion, e)
  }

  /** _evaluate_relay_status: the report of an answer that is missing, late or wrong ends the motion. */
  function RelayAnswer(c: Settings, d: Desk, e: Env): (Desk, bool) {
    var r := e.relay;
    var m := d.motion;
    var late := m.firstPulseAt.Some? && e.mono - m.firstPulseAt.value > c.ackMs;
    if d.control.direction.None? || r.receivedAt.None? then (d, true)
    else if m.relayBaseline.Some? && r.receivedAt.value <= m.relayBaseline.value then (d, !late)
    else if m.relayLastSeen.Some? && r.receivedAt.value <= m.relayLastSeen.value then (d, true)
    else
      var t := d.(motion := m.(relayLastSeen := r.receivedAt));
      if r.state == Some(Reported(d.control.direction.value)) then (t.(motion := t.motion.(confirmed := true)), true)
      else if RelayMoves(r) then (t, false)
      else if r.state == Some(RelayStop) && m.confirmed then (t, false)
      else if r.state == Some(RelayStop) && late then (t, false)
      else (t, true)
  }

  function Due(m: Motion, e: Env): bool {
    m.nextRefreshAt.None? || e.mono >= m.nextRefreshAt.value
  }

  function TargetCycle(c: Settings, d: Desk, e: Env): (Desk, Act)
    requires d.control.target.Some? && HeightUsable(c, HeightIn(c, e))
  {
    var h := HeightIn(c, e);
    var delta := d.control.target.value - h.height.value;
    var needed := Toward(delta);
    if Abs(delta) <= c.tolerance then (d, Stop(false))
    else if !WayAllowed(c, h.height.value, needed) then (d, Stop(true))
    else match d.control.phase
         case Some(Settling) =>
           if d.motion.settleUntil.Some? && e.mono < d.motion.settleUntil.value then (d, Rest)
           else if e.relay.state != Some(RelayStop) then (d, Stop(true))
           else FineCycle(c, d.(control := d.control.(phase := Some(Fine), direction := Some(needed)),
                                motion := d.motion.(nextRefreshAt := Some(e.mono))), needed, e)
         case Some(Continuous) =>
           if Abs(delta) <= c.fineDistance || d.control.direction != Some(needed) then
             (d.(control := d.control.(phase := Some(Settling), direction := None,
                                       generation := d.control.generation + 1),
                 motion := d.motion.(nextRefreshAt := None, confirmed := false)), SendStop)
           else if Due(d.motion, e) then (d, Publish(PulseOf(c, d, needed, c.continuousHoldMs, None, e)))
           else (d, Rest)
         case Some(Fine) => FineCycle(c, d, needed, e)
         case None => (d, Rest)
  }

  function FineCycle(c: Settings, d: Desk, needed: Way, e: Env): (Desk, Act)
    requires HeightUsable(c, HeightIn(c, e))
  {
    var observedAt := HeightIn(c, e).observedAt;
    if d.motion.lastFineAt.Some? && observedAt.value <= d.motion.lastFineAt.value then (d, Rest)
    else (d, Publish(PulseOf(c, d, needed, c.fineHoldMs, observedAt, e)))
  }

  function WakeCycle(c: Settings, d: Desk, e: Env): (Desk, Act) {
    var k := d.control;
    var h := HeightIn(c, e);
    if k.wakeStartedAt.None? || e.mono - k.wakeStartedAt.value > c.wakeTimeoutMs then (d, Stop(true))
    else if k.mode == Manual && d.motion.lastHoldAt.Some?
            && e.mono - d.motion.lastHoldAt.value > c.watchdogMs then (d, Stop(false))
    else if h.status == Faulty then (d, Stop(true))
    else if h.status != Online || h.observedAt.None? || k.wakeObservedAt.None?
            || h.observedAt.value <= k.wakeObservedAt.value then (d, Rest)
    else if !RelayAvailable(c, e.relay, e.wall) then (d, Stop(true))
    else if e.relay.state != Some(RelayStop) || e.relay.code != Some(Ready) then (d, Rest)
    else if h.height.None? then (d, Stop(true))
    else Activate(c, d, h.height.value, e)
  }

  function Awake(d: Desk, public: Public, e: Env): Desk {
    d.(control := d.control.(public := public, awaiting := false, wakeObservedAt := None, wakeStartedAt := None),
       motion := Tracking(d.motion.(nextRefreshAt := Some(e.mono)), e.relay))
  }

  function Activate(c: Settings, d: Desk, height: real, e: Env): (Desk, Act) {
    match d.control.mode
    case Wake => (EndIdle(d), Rest)
    case Manual =>
      if d.control.direction.None? || !WayAllowed(c, height, d.control.direction.value) then (d, Stop(true))
      else (Awake(d, InManual, e), Rest)
    case Target =>
      if d.control.target.None? then (d, Stop(true))
      else
        var delta := d.control.target.value - height;
        if Abs(delta) <= c.tolerance then (d, Stop(false))
        else if !WayAllowed(c, height, Toward(delta)) then (d, Stop(true))
        else
          var t := Awake(d, Moving, e);
          (t.(control := t.control.(phase := Some(Continuous), direction := Some(Toward(delta)))), Rest)
    case NoMotion => (d, Rest)
  }

  /** _run_cycle up to its first await. */
  function Cycle(c: Settings, d: Desk, e: Env): (Desk, Act) {
    var h := HeightIn(c, e);
    if !Accepting(d) then (d, Rest)
    else if d.control.mode == NoMotion then (d, Lock)
    else if d.control.awaiting then WakeCycle(c, d, e)
    else if !HeightUsable(c, h) || !RelayReady(c, e.relay, e.wall) then (d, Stop(true))
    else if d.control.mode == Target && d.motion.startedAt.Some?
            && e.mono - d.motion.startedAt.value > c.targetTimeoutMs then (d, Stop(true))
    else if d.control.mode == Manual && d.motion.lastHoldAt.Some?
            && e.mono - d.motion.lastHoldAt.value > c.watchdogMs then (d, Stop(false))
    else
      var (t, fine) := RelayAnswer(c, d, e);
      if !fine then (t, Stop(true))
      else if t.control.mode == Manual then
        if t.control.direction.None? || !WayAllowed(c, h.height.value, t.control.direction.value) then (t, Stop(true))
        else if Due(t.motion, e) then (t, Publish(PulseOf(c, t, t.control.direction.value, c.manualHoldMs, None, e)))
        else (t, Rest)
      else if t.control.target.None? then (t, Stop(true))
      else TargetCycle(c, t, e)
  }

  /** _watch_inactive_relay: a motion nobody asked for. */
  function Watch(d: Desk, e: Env): (Desk, Act) {
    var r := e.relay;
    if d.stopping || !RelayMoves(r) || r.receivedAt.None? then (d, Rest)
    else if d.lastStopBaseline.Some? && r.receivedAt.value <= d.lastStopBaseline.value then (d, Rest)
    else if r.receivedAt == d.lastUnexpected then (d, Rest)
    else (d.(lastUnexpected := r.receivedAt), Stop(true))
  }

  /** _run_startup_wake_cycle with the intent lock held, and what follows when nothing is pending. */
  function StartupCycle(c: Settings, d: Desk, e: Env): (Desk, Act) {
    var h := HeightIn(c, e);
    if d.pending.None? then Watch(d, e)
    else if !Accepting(d) || h.status == Online then (d.(pending := None), Rest)
    else if !WakeBasis(c, h) then (CheckNeeded(d), Rest)
    else if e.mono > d.pending.value then (CheckNeeded(d), Rest)
    else if !AdmitWake(c, d, e) then (d, Rest)
    else
      var way := WakeWay(c, h.height.value);
      if !WayAllowed(c, h.height.value, way) then (CheckNeeded(d), Rest)
      else match BeginWake(c, d.(pending := None), Wake, way, None, e)
           case (t, SendWake(order)) => (t, Nudge(order))
           case (t, _) => (CheckNeeded(t), Rest)
  }

  /** The check _publish_pulse makes once it holds the relay lock. */
  predicate StillWanted(d: Desk, p: Pulse) {
    && d.control.generation == p.generation
    && d.control.mode != NoMotion
    && d.control.direction == Some(p.way)
    && !d.closing
    && !d.stopping
  }

  /** What _publish_pulse records after a successful publish of the current generation. */
  function PulseDone(c: Settings, d: Desk, p: Pulse, mono: int): Desk {
    var m := d.motion.(
      firstPulseAt := if d.motion.firstPulseAt.None? then Some(p.startedAt) else d.motion.firstPulseAt,
      nextRefreshAt := Some(p.startedAt + c.refreshMs));
    if p.fineAt.None? then d.(motion := m)
    else d.(control := d.control.(phase := Some(Settling), direction := None),
            motion := m.(lastFineAt := p.fineAt, settleUntil := Some(mono + p.holdMs + c.fineSettleMs)))
  }

  function SettleDone(c: Settings, d: Desk, mono: int): Desk {
    d.(motion := d.motion.(settleUntil := Some(mono + c.fineSettleMs)))
  }
}
