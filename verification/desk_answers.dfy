// What each cycle of the runner must answer and record, said of heights, reports, times and the record
// alone: when it publishes, when it rests, and when and how it stops.
module DeskAnswers {
  import opened Policy
  import opened HeightMonitors
  import opened DeskModel
  import opened DeskRecord
  import opened DeskFacts

  // ---- The relay's answer to a moving intent

  /** A report newer than the one known at the start and than the last one seen. */
  predicate News(m: Motion, e: Env) {
    && e.relay.receivedAt.Some?
    && (m.relayBaseline.Some? ==> m.relayBaseline.value < e.relay.receivedAt.value)
    && (m.relayLastSeen.Some? ==> m.relayLastSeen.value < e.relay.receivedAt.value)
  }

  /** The first pulse went out longer ago than an answer may take. */
  predicate Late(c: Settings, m: Motion, e: Env) {
    m.firstPulseAt.Some? && c.ackMs < e.mono - m.firstPulseAt.value
  }

  predicate SameWay(d: Desk, e: Env) {
    || (d.control.direction == Some(Up) && e.relay.state == Some(RelayUp))
    || (d.control.direction == Some(Down) && e.relay.state == Some(RelayDown))
  }

  predicate OtherWay(d: Desk, e: Env) {
    || (d.control.direction == Some(Up) && e.relay.state == Some(RelayDown))
    || (d.control.direction == Some(Down) && e.relay.state == Some(RelayUp))
  }

  /** The answer is missing, wrong, or a STOP that comes too soon or too late. */
  predicate Troubled(c: Settings, d: Desk, e: Env) {
    d.control.direction.Some? && e.relay.receivedAt.Some?
    && (|| (d.motion.relayBaseline.Some? && e.relay.receivedAt.value <= d.motion.relayBaseline.value
            && Late(c, d.motion, e))
        || (News(d.motion, e) && OtherWay(d, e))
        || (News(d.motion, e) && Resting(e) && (d.motion.confirmed || Late(c, d.motion, e))))
  }

  /** The record once the report has been looked at. */
  function Noted(d: Desk, e: Env): Desk {
    var news := d.control.direction.Some? && News(d.motion, e);
    d.(motion := d.motion.(relayLastSeen := if news then e.relay.receivedAt else d.motion.relayLastSeen,
                                confirmed := d.motion.confirmed || (news && SameWay(d, e))))
  }

  lemma AnswerIsExact(c: Settings, d: Desk, e: Env)
    ensures RelayAnswer(c, d, e).0 == Noted(d, e)
    ensures RelayAnswer(c, d, e).1 <==> !Troubled(c, d, e)
  {
  }

  // ---- Moving intents

  /** A pulse decided on now, from this record. */
  predicate Decided(t: Desk, e: Env, way: Way, holdMs: nat, fineAt: Option<int>, act: Act) {
    act == Publish(Pulse(t.control.generation, way, holdMs, fineAt, e.mono, t.control, t.motion, e))
  }

  /** No refresh time is on record, or it has come. */
  predicate Come(m: Motion, e: Env) {
    m.nextRefreshAt.Some? ==> m.nextRefreshAt.value <= e.mono
  }

  predicate Sighted(c: Settings, e: Env) {
    LiveHeight(c, e) && LiveRelay(c, e)
  }

  /** The last HOLD is further away than the watchdog allows. */
  predicate Abandoned(c: Settings, d: Desk, e: Env) {
    d.control.mode == Manual && d.motion.lastHoldAt.Some? && c.watchdogMs < e.mono - d.motion.lastHoldAt.value
  }

  predicate Overtime(c: Settings, d: Desk, e: Env) {
    d.control.mode == Target && d.motion.startedAt.Some? && c.targetTimeoutMs < e.mono - d.motion.startedAt.value
  }

  /** A HOLD: it moves on in its direction, pulse by pulse, until its time, its room or its relay ends it. */
  predicate ManualAnswers(c: Settings, d: Desk, e: Env, t: Desk, act: Act)
    requires d.control.direction.Some?
  {
    var way := d.control.direction.value;
    var heard := Sighted(c, e) && !Abandoned(c, d, e);
    var moves := heard && !Troubled(c, d, e) && Room(c, e.monitor.height.value, way);
    && (act == Stop(false) <==> Sighted(c, e) && Abandoned(c, d, e))
    && (act == Stop(true) <==> !Sighted(c, e) || (heard && !moves))
    && (act.Publish? <==> moves && Come(d.motion, e))
    && (act == Rest <==> moves && !Come(d.motion, e))
    && (act.Publish? ==> Decided(t, e, way, c.manualHoldMs, None, act))
    && (if heard then t == Noted(d, e) else t == d)
  }

  /** The settling time after a pulse or after the continuous phase is over. */
  predicate Settled(m: Motion, e: Env) {
    m.settleUntil.Some? ==> m.settleUntil.value <= e.mono
  }

  /** The height is newer than the one the last fine pulse was decided on. */
  predicate NewHeight(m: Motion, e: Env) {
    e.monitor.observedAt.Some? && (m.lastFineAt.Some? ==> m.lastFineAt.value < e.monitor.observedAt.value)
  }

  /** What a target run is to do that has looked at its relay and is not at its target. */
  predicate TargetMoves(c: Settings, d: Desk, e: Env, t: Desk, act: Act)
    requires d.control.target.Some? && e.monitor.height.Some? && d.control.phase.Some?
  {
    var target, height := d.control.target.value, e.monitor.height.value;
    var way := if target > height then Up else Down;
    match d.control.phase.value
    case Continuous =>
      if Near(target, height, c.fineDistance) || d.control.direction != Some(way) then
        && act == SendStop
        && t == d.(control := d.control.(phase := Some(Settling), direction := None,
                                         generation := d.control.generation + 1),
                   motion := d.motion.(nextRefreshAt := None, confirmed := false))
      else
        && t == d
        && (act.Publish? <==> Come(d.motion, e))
        && (act == Rest <==> !Come(d.motion, e))
        && (act.Publish? ==> Decided(t, e, way, c.continuousHoldMs, None, act))
    case Settling =>
      if !Settled(d.motion, e) then act == Rest && t == d
      else if !Resting(e) then act == Stop(true) && t == d
      else
        && t == d.(control := d.control.(phase := Some(Fine), direction := Some(way)),
                   motion := d.motion.(nextRefreshAt := Some(e.mono)))
        && FineMoves(c, d, e, way, t, act)
    case Fine =>
      t == d && FineMoves(c, d, e, way, t, act)
  }

  /** A fine pulse is sent for every new height, and for no other one. */
  predicate FineMoves(c: Settings, d: Desk, e: Env, way: Way, t: Desk, act: Act) {
    && (act.Publish? <==> NewHeight(d.motion, e))
    && (act == Rest <==> !NewHeight(d.motion, e))
    && (act.Publish? ==> Decided(t, e, way, c.fineHoldMs, e.monitor.observedAt, act))
  }

  predicate TargetRuns(c: Settings, d: Desk, e: Env, t: Desk, act: Act)
    requires d.control.target.Some? && e.monitor.height.Some? && d.control.phase.Some?
  {
    if Near(d.control.target.value, e.monitor.height.value, c.tolerance) then act == Stop(false) && t == d
    else TargetMoves(c, d, e, t, act)
  }

  predicate TargetAnswers(c: Settings, d: Desk, e: Env, t: Desk, act: Act)
    requires d.control.target.Some? && d.control.phase.Some?
  {
    var heard := Sighted(c, e) && !Overtime(c, d, e);
    if !heard then act == Stop(true) && t == d
    else if Troubled(c, d, e) then act == Stop(true) && t == Noted(d, e)
    else TargetRuns(c, Noted(d, e), e, t, act)
  }

  // ---- Waiting intents

  /** A measurement of this process, newer than the one the WAKE was based on. */
  predicate Woken(c: Settings, d: Desk, e: Env) {
    && LiveReading(c, e)
    && d.control.wakeObservedAt.Some? && d.control.wakeObservedAt.value < e.monitor.observedAt.value
  }

  predicate Overslept(c: Settings, d: Desk, e: Env) {
    d.control.wakeStartedAt.Some? && c.wakeTimeoutMs < e.mono - d.control.wakeStartedAt.value
  }

  /** The relay reports STOP and is ready. */
  predicate Prepared(e: Env) {
    Resting(e) && e.relay.code == Some(Ready)
  }

  /** The intent stops waiting: it keeps its generation, and its first pulse is due at once. */
  predicate Awoken(d: Desk, e: Env, public: Public, phase: Option<Phase>, way: Way, t: Desk) {
    && t.control == d.control.(public := public, phase := phase, direction := Some(way),
                               awaiting := false, wakeObservedAt := None, wakeStartedAt := None)
    && t == d.(control := t.control,
               motion := d.motion.(nextRefreshAt := Some(e.mono), relayBaseline := e.relay.receivedAt,
                                   relayLastSeen := e.relay.receivedAt, firstPulseAt := None, confirmed := false))
  }

  /** The sensor is awake and the relay is prepared: what becomes of the intent that waited for them. */
  predicate WakeEnds(c: Settings, d: Desk, e: Env, t: Desk, act: Act)
    requires e.monitor.height.Some? && d.control.direction.Some?
    requires d.control.mode == Target ==> d.control.target.Some?
  {
    var height := e.monitor.height.value;
    match d.control.mode
    case Wake =>
      && act == Rest
      && t == d.(control := Control(Idle, NoMotion, None, None, None, d.control.generation + 1, false, None, None),
                 motion := Motion(None, None, None, None, None, None, None, None, false))
    case Manual =>
      var way := d.control.direction.value;
      if Room(c, height, way) then act == Rest && Awoken(d, e, InManual, None, way, t) else act == Stop(true) && t == d
    case Target =>
      var target := d.control.target.value;
      if Near(target, height, c.tolerance) then act == Stop(false) && t == d
      else act == Rest && Awoken(d, e, Moving, Some(Continuous), if target > height then Up else Down, t)
    case NoMotion => act == Rest && t == d
  }

  predicate WaitingAnswers(c: Settings, d: Desk, e: Env, t: Desk, act: Act)
    requires d.control.direction.Some?
    requires d.control.mode == Target ==> d.control.target.Some?
  {
    if Overslept(c, d, e) then act == Stop(true) && t == d
    else if Abandoned(c, d, e) then act == Stop(false) && t == d
    else if BrokenHeight(c, e) then act == Stop(true) && t == d
    else if !Woken(c, d, e) then act == Rest && t == d
    else if !AnsweringRelay(c, e) then act == Stop(true) && t == d
    else if !Prepared(e) then act == Rest && t == d
    else WakeEnds(c, d, e, t, act)
  }

  // ---- Every cycle

  /** The answer to every record, height, report and time. */
  predicate CycleAnswers(c: Settings, d: Desk, e: Env, t: Desk, act: Act)
    requires RecordOk(c, d)
  {
    if !InService(d) then act == Rest && t == d
    else if d.control.mode == NoMotion then act == Lock && t == d
    else if d.control.awaiting then WaitingAnswers(c, d, e, t, act)
    else if d.control.mode == Manual then ManualAnswers(c, d, e, t, act)
    else TargetAnswers(c, d, e, t, act)
  }

  lemma ManualIsExact(c: Settings, d: Desk, e: Env)
    requires RecordOk(c, d) && Consistent(e.monitor)
    requires InService(d) && d.control.mode == Manual && !d.control.awaiting
    ensures ManualAnswers(c, d, e, Cycle(c, d, e).0, Cycle(c, d, e).1)
  {
    TestsAreFacts(c, e);
    RelayTestsAreFacts(c, d, e);
    AnswerIsExact(c, d, e);
    if LiveHeight(c, e) { DistancesAreFacts(c, 0.0, e.monitor.height.value, 0.0); }
    hide RelayAnswer, HeightUsable, RelayReady, LiveHeight, LiveRelay, Troubled, HeightIn, TargetCycle, WakeCycle, WayAllowed;
  }

  lemma TargetRunsExactly(c: Settings, d: Desk, e: Env)
    requires ValidSettings(c) && RecordOk(c, d) && Consistent(e.monitor)
    requires d.control.mode == Target && !d.control.awaiting && HeightUsable(c, HeightIn(c, e))
    ensures TargetRuns(c, d, e, TargetCycle(c, d, e).0, TargetCycle(c, d, e).1)
  {
    TestsAreFacts(c, e);
    DistancesAreFacts(c, d.control.target.value, e.monitor.height.value, c.tolerance);
    DistancesAreFacts(c, d.control.target.value, e.monitor.height.value, c.fineDistance);
    if !Near(d.control.target.value, e.monitor.height.value, c.tolerance) {
      RoomTowardTarget(c, d.control.target.value, e.monitor.height.value);
    }
    hide HeightUsable, LiveHeight, Near, WayAllowed, Abs, Room;
  }

  lemma TargetIsExact(c: Settings, d: Desk, e: Env)
    requires ValidSettings(c) && RecordOk(c, d) && Consistent(e.monitor)
    requires InService(d) && d.control.mode == Target && !d.control.awaiting
    ensures TargetAnswers(c, d, e, Cycle(c, d, e).0, Cycle(c, d, e).1)
  {
    TestsAreFacts(c, e);
    RelayTestsAreFacts(c, d, e);
    AnswerIsExact(c, d, e);
    if LiveHeight(c, e) { TargetRunsExactly(c, Noted(d, e), e); }
    hide RelayAnswer, HeightUsable, RelayReady, LiveHeight, LiveRelay, Troubled, HeightIn, TargetCycle, WakeCycle,
      TargetRuns, News;
  }

  lemma WaitingIsExact(c: Settings, d: Desk, e: Env)
    requires ValidSettings(c) && RecordOk(c, d) && Consistent(e.monitor) && d.control.awaiting
    ensures WaitingAnswers(c, d, e, WakeCycle(c, d, e).0, WakeCycle(c, d, e).1)
  {
    TestsAreFacts(c, e);
    RelayTestsAreFacts(c, d, e);
    if LiveReading(c, e) {
      WakeEndsExactly(c, d, e);
    }
    hide HeightUsable, RelayAvailable, AnsweringRelay, HeightIn, LiveReading, BrokenHeight, Activate, WakeEnds;
  }

  lemma WakeEndsExactly(c: Settings, d: Desk, e: Env)
    requires ValidSettings(c) && RecordOk(c, d) && d.control.awaiting && e.monitor.height.Some?
    ensures var (t, act) := Activate(c, d, e.monitor.height.value, e);
      WakeEnds(c, d, e, t, act)
  {
    var height := e.monitor.height.value;
    DistancesAreFacts(c, if d.control.target.Some? then d.control.target.value else height, height, c.tolerance);
    hide Near, Abs, WayAllowed;
    if d.control.mode == Target && !Near(d.control.target.value, height, c.tolerance) {
      RoomTowardTarget(c, d.control.target.value, height);
    }
  }

  /** Every cycle answers as it must. */
  lemma CycleIsExact(c: Settings, d: Desk, e: Env)
    requires ValidSettings(c) && RecordOk(c, d) && Consistent(e.monitor)
    ensures CycleAnswers(c, d, e, Cycle(c, d, e).0, Cycle(c, d, e).1)
  {
    if InService(d) && d.control.awaiting {
      WaitingIsExact(c, d, e);
    } else if InService(d) && d.control.mode == Manual {
      ManualIsExact(c, d, e);
    } else if InService(d) && d.control.mode == Target {
      TargetIsExact(c, d, e);
    }
    hide WakeCycle, TargetCycle, RelayAnswer, WaitingAnswers, ManualAnswers, TargetAnswers, HeightUsable, RelayReady;
  }

  // ---- Without an intent

  /** The relay reports a motion nobody asked for, not the one being stopped and not one stopped before. */
  predicate Unasked(d: Desk, e: Env) {
    && Running(e) && e.relay.receivedAt.Some?
    && (d.lastStopBaseline.Some? ==> d.lastStopBaseline.value < e.relay.receivedAt.value)
    && d.lastUnexpected != e.relay.receivedAt
  }

  /** The startup WAKE: sent, dropped, or kept; without one, an unasked motion is stopped once. */
  predicate StartupAnswers(c: Settings, d: Desk, e: Env, t: Desk, act: Act) {
    if d.pending.None? then
      if Unasked(d, e) && !d.stopping then act == Stop(true) && t == d.(lastUnexpected := e.relay.receivedAt)
      else act == Rest && t == d
    else
      var stays := InService(d) && OldHeight(c, e) && e.mono <= d.pending.value;
      if stays && AnsweringRelay(c, e) && Resting(e) then
        var way := if 2.0 * e.monitor.height.value < c.opMin + c.opMax then Up else Down;
        var order := WakeOrder(d.control.generation + 1, way, e.monitor.height.value);
        && act == Nudge(order)
        && t == d.(pending := None,
                   control := Control(Waking, Wake, None, None, Some(way), order.generation, true,
                                      e.monitor.observedAt, Some(e.mono)),
                   motion := Motion(None, None, None, None, None, e.relay.receivedAt, e.relay.receivedAt, None, false))
      else
        && act == Rest
        && (stays ==> t == d)
        && (!stays ==> t == d.(pending := None,
                               control := if !InService(d) || LiveReading(c, e) then d.control
                                          else d.control.(public := Idle)))
  }

  lemma StartupIsExact(c: Settings, d: Desk, e: Env)
    requires ValidSettings(c) && RecordOk(c, d) && Consistent(e.monitor)
    ensures StartupAnswers(c, d, e, StartupCycle(c, d, e).0, StartupCycle(c, d, e).1)
  {
    TestsAreFacts(c, e);
    RelayTestsAreFacts(c, d, e);
    hide HeightUsable, RelayAvailable, AnsweringRelay, HeightIn;
  }
}
