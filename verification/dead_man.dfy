// The controller and the firmware together: when HOLD requests stop coming the motor goes off within a
// fixed time, even if every STOP is lost.
module DeadMan {
  import opened Policy
  import opened HeightMonitors
  import opened DeskModel
  import opened DeskWorld
  import opened DeskRecord
  import opened DeskWire
  import opened DeskPulses
  import Relays
  import Sessions
  import FirmwareRuns

  // ---- HOLD times in the controller

  predicate NotedAt(trace: seq<Entry>, at: Option<int>) {
    at.Some? ==> HoldAt(at.value) in trace
  }

  /** No HOLD on the trace is later than the one a HOLD intent has on record. */
  predicate HoldsPast(trace: seq<Entry>, now: int, d: Desk) {
    forall e :: e in trace && e.HoldAt? ==>
      e.mono <= now && (d.control.mode == Manual ==> d.motion.lastHoldAt.Some? && e.mono <= d.motion.lastHoldAt.value)
  }

  /** The last HOLD known to the desk, to a pulse being sent and to every pulse sent is on the trace. */
  predicate Noted(w: World) {
    && NotedAt(w.trace, w.desk.motion.lastHoldAt)
    && (w.runner.Sending? && w.runner.message.PulseMessage? ==> NotedAt(w.trace, w.runner.message.pulse.motion.lastHoldAt))
    && (forall e :: e in w.trace && PulseIn(e).Some? ==> NotedAt(w.trace, PulseIn(e).value.motion.lastHoldAt))
    && HoldsPast(w.trace, w.now, w.desk)
  }

  /** Nobody but a HOLD taking effect sets the time of the last HOLD. */
  predicate HoldsAs(d: Desk, t: Desk) {
    || (t.motion.lastHoldAt == d.motion.lastHoldAt && (t.control.mode == Manual ==> d.control.mode == Manual))
    || (t.motion.lastHoldAt.None? && t.control.mode != Manual)
  }

  lemma RunnerHoldsAs(c: Settings, d: Desk, e: Env)
    ensures var (t, act) := Cycle(c, d, e);
      HoldsAs(d, t) && (act.Publish? ==> act.pulse.motion.lastHoldAt == t.motion.lastHoldAt)
    ensures HoldsAs(d, StartupCycle(c, d, e).0) && !StartupCycle(c, d, e).1.Publish?
  {
    CycleHoldsAs(c, d, e);
    hide Cycle, RelayReady, RelayAvailable, InRange, HeightIn, WayAllowed;
  }

  lemma CycleHoldsAs(c: Settings, d: Desk, e: Env)
    ensures var (t, act) := Cycle(c, d, e);
      HoldsAs(d, t) && (act.Publish? ==> act.pulse.motion.lastHoldAt == t.motion.lastHoldAt)
  {
    hide RelayReady, RelayAvailable, InRange, HeightIn, WayAllowed, Toward, Abs, Due;
  }

  lemma RequestHoldsAs(c: Settings, d: Desk, e: Env)
    ensures forall target: real :: var t := TargetEnters(c, d, target, e).0; HoldsAs(d, t)
    ensures forall target: real :: var t := TargetProceeds(c, d, target, e).0; HoldsAs(d, t)
    ensures forall way: Way :: var t := HoldEnters(c, d, way, e).0; HoldsAs(d, t) || t.motion.lastHoldAt == Some(e.mono)
    ensures forall way: Way :: var t := HoldProceeds(c, d, way, e).0; HoldsAs(d, t) || t.motion.lastHoldAt == Some(e.mono)
  {
  }

  lemma RequestNotes(w: World, d: Desk, next: Next, goal: Goal, origin: Origin, env: Env)
    requires Noted(w) && w.now <= env.mono && (HoldsAs(w.desk, d) || d.motion.lastHoldAt == Some(env.mono))
    ensures Noted(RequestActs(w, d, next, goal, origin, env))
  {
  }

  lemma AskNotes(c: Settings, w: World, env: Env)
    requires Noted(w) && w.now <= env.mono
    ensures forall target: real :: Noted(AsksTarget(c, w, target, env))
    ensures forall way: Way :: Noted(AsksHold(c, w, way, env))
  {
    hide TargetEnters, HoldEnters, RequestActs;
    RequestHoldsAs(c, w.desk, env);
    var asked := w.(trace := w.trace + [Asked(w.desk.control.generation)]);
    AddNotes(w, Asked(w.desk.control.generation));
    forall target: real ensures Noted(AsksTarget(c, w, target, env)) {
      var (d, next) := TargetEnters(c, w.desk, target, env);
      RequestNotes(w, d, next, ToTarget(target), Direct(LiveIntent(w.desk)), env);
      RequestNotes(asked, d, next, ToTarget(target), Direct(LiveIntent(w.desk)), env);
    }
    forall way: Way ensures Noted(AsksHold(c, w, way, env)) {
      var (d, next) := HoldEnters(c, w.desk, way, env);
      RequestNotes(w, d, next, ToHold(way), Direct(LiveIntent(w.desk)), env);
      RequestNotes(asked, d, next, ToHold(way), Direct(LiveIntent(w.desk)), env);
    }
  }

  lemma AddNotes(w: World, e: Entry)
    requires Noted(w) && PulseIn(e).None? && !e.HoldAt?
    ensures Noted(w.(trace := w.trace + [e]))
  {
  }

  /** Another record with the same HOLD, or a later time, changes nothing. */
  lemma HoldStays(w: World, t: World)
    requires Noted(w) && HoldsAs(w.desk, t.desk) && w.now <= t.now && t.trace == w.trace
    requires t.runner == w.runner || !t.runner.Sending?
    ensures Noted(t)
  {
  }

  lemma StopFinishNotes(c: Settings, w: World, failed: bool, env: Env)
    requires Noted(w) && w.now <= env.mono && w.stopper.Stopping?
    ensures Noted(StopFinishes(c, w, failed, env))
  {
    var t := StopFinishes(c, w, failed, env);
    if w.stopper.owner == ByRequest && !failed && w.request.HandingOver? {
      var u := w.(stopper := NoStop, now := env.mono, desk := StopEnds(w.desk, failed));
      HoldStays(w, u);
      ProceedNotes(c, u, env);
    } else if w.stopper.owner == ByStart {
      HoldStays(w, t.(trace := w.trace));
      AddNotes(t.(trace := w.trace), Registered);
    } else {
      HoldStays(w, t);
    }
  }

  lemma ProceedNotes(c: Settings, u: World, env: Env)
    requires Noted(u) && u.now <= env.mono && u.request.HandingOver?
    ensures Noted(RequestProceeds(c, u, env))
  {
    RequestHoldsAs(c, u.desk, env);
    hide TargetProceeds, HoldProceeds, RequestActs, Noted;
    var origin := After(u.request.replaced, u.request.since);
    match u.request.goal
    case ToTarget(target) =>
      var (d, next) := TargetProceeds(c, u.desk, target, env);
      RequestNotes(u, d, next, u.request.goal, origin, env);
    case ToHold(way) =>
      var (d, next) := HoldProceeds(c, u.desk, way, env);
      RequestNotes(u, d, next, u.request.goal, origin, env);
  }

  lemma RunnerNotes(c: Settings, w: World, d: Desk, act: Act, env: Env)
    requires Noted(w) && w.now <= env.mono && HoldsAs(w.desk, d) && (act.Publish? ==> act.pulse.motion.lastHoldAt == d.motion.lastHoldAt)
    ensures Noted(RunnerActs(w, d, act, env))
  {
  }

  lemma StepNotes(c: Settings, w: World, move: Label)
    requires WorldOk(c, w) && Noted(w)
    ensures Noted(Step(c, w, move))
  {
    hide Cycle, StartupCycle, RunnerActs, AsksTarget, AdjustsTarget, AsksHold, StopFinishes, Releases, Wires, Acquires,
      StopTask, RequestStopTask, RecordOk, TasksOk, Consistent, NotedAt, HoldsPast;
    match move
    case RunCycle(env) =>
      if w.now <= env.mono {
        RunnerHoldsAs(c, w.desk, env);
        RunnerNotes(c, w, Cycle(c, w.desk, env).0, Cycle(c, w.desk, env).1, env);
      }
    case TakeIntentLock(env) =>
      if w.now <= env.mono {
        RunnerHoldsAs(c, w.desk, env);
        RunnerNotes(c, w.(runner := Waiting), StartupCycle(c, w.desk, env).0, StartupCycle(c, w.desk, env).1, env);
      }
    case SetTarget(target, env) => if w.now <= env.mono { AskNotes(c, w, env); }
    case AdjustTarget(amount, increase, env) => if w.now <= env.mono { AdjustNotes(c, w, amount, increase, env); }
    case RunnerStops(env) => if w.now <= env.mono { StopTaskNotes(w, w.runner.MustStop? && w.runner.blamed, env); }
    case RequestStops(env) => if w.now <= env.mono { StopTaskNotes(w, w.request.Halting? && w.request.blamed, env); }
    case Acquire(client) => AcquireNotes(c, w, client);
    case Hold(way, env) => if w.now <= env.mono { AskNotes(c, w, env); }
    case Confirm(env) =>
      if w.stopper.Stopping? && w.now <= env.mono {
        AddNotes(w, Confirmed(w.stopper.baseline, env.relay));
        StopFinishNotes(c, w.(trace := w.trace + [Confirmed(w.stopper.baseline, env.relay)]), false, env);
      }
    case GiveUp(env) => if w.stopper.Stopping? && w.now <= env.mono { StopFinishNotes(c, w, true, env); }
    case Release(ok, env) => if w.now <= env.mono { ReleaseNotes(c, w, ok, env); }
    case Wire => WireNotes(c, w);
    case _ => HoldStays(w, Step(c, w, move));
  }

  lemma AcquireNotes(c: Settings, w: World, client: Client)
    requires Noted(w)
    ensures Noted(Acquires(w, client))
  {
    hide StillWanted, NotedAt;
  }

  lemma StopTaskNotes(w: World, blamed: bool, env: Env)
    requires Noted(w) && w.now <= env.mono
    ensures forall r: Runner :: !r.Sending? ==> Noted(StopTask(w, blamed, env).(runner := r))
    ensures w.request.Halting? ==> Noted(RequestStopTask(w, env))
  {
  }

  lemma AdjustNotes(c: Settings, w: World, amount: real, increase: bool, env: Env)
    requires Noted(w) && w.now <= env.mono
    ensures Noted(AdjustsTarget(c, w, amount, increase, env))
  {
    hide AsksTarget, NotedAt;
    AddNotes(w.(now := env.mono, request := Halting(false)), Invalid(w.desk.control.generation));
    AddNotes(w.(desk := w.desk.(pending := None)), Asked(w.desk.control.generation));
    AskNotes(c, w.(desk := w.desk.(pending := None), trace := w.trace + [Asked(w.desk.control.generation)]), env);
  }

  lemma ReleaseNotes(c: Settings, w: World, ok: bool, env: Env)
    requires Noted(w) && w.now <= env.mono
    ensures Noted(Releases(c, w, ok, env))
  {
    if w.lock.Held? {
      AddNotes(w, Published(w.lock.client));
      var t := w.(lock := Free, now := env.mono, trace := if ok then w.trace + [Published(w.lock.client)] else w.trace);
      assert Noted(t);
      if w.lock.client == TheRunner {
        ReturnNotes(c, t, w.lock.message, ok, env);
        hide Noted, RunnerReturns, StopFinishes;
      } else {
        if w.lock.client == TheStopper && w.stopper.Stopping? && !ok { StopFinishNotes(c, t, true, env); }
        hide StopFinishes, NotedAt, HoldsPast, RunnerReturns;
      }
    }
  }

  lemma ReturnNotes(c: Settings, t: World, message: Message, ok: bool, env: Env)
    requires Noted(t) && t.now == env.mono
    ensures Noted(RunnerReturns(c, t, message, ok, env))
  {
    HoldStays(t, RunnerReturns(c, t, message, ok, env));
  }

  lemma WireNotes(c: Settings, w: World)
    requires WorldOk(c, w) && Noted(w)
    ensures Noted(Wires(w))
  {
  }

  lemma {:induction false} HoldsAreNoted(c: Settings, generation: nat, first: Env, labels: seq<Label>)
    ensures Noted(Run(c, generation, first, labels))
  {
    if labels != [] {
      var n := |labels| - 1;
      HoldsAreNoted(c, generation, first, labels[..n]);
      RecordHolds(c, generation, first, labels[..n]);
      StepNotes(c, Run(c, generation, first, labels[..n]), labels[n]);
    }
  }

  // ---- Commands in the firmware

  predicate MoveFor(e: Sessions.Event, direction: Relays.Direction) {
    e.act.Control? && e.act.command.Move? && e.act.command.direction == direction
  }

  /** The motor is on because of a move command, and not longer than that command asked for. */
  predicate Commanded(events: seq<Sessions.Event>, r: Relays.Relay, jitter: nat) {
    r.direction != Relays.Stop ==>
      r.timer.Some? &&
      exists k :: 0 <= k < |events| && MoveFor(events[k], r.direction)
        && r.timer.value <= events[k].at + BREAK_BEFORE_MAKE_MS + jitter + events[k].act.command.holdMs
  }

  lemma {:induction false} MotorIsCommanded(events: seq<Sessions.Event>, jitter: nat)
    requires FirmwareRuns.Ordered(events, jitter)
    ensures Commanded(events, FirmwareRuns.Play(events).handler.relay, jitter)
  {
    if events != [] {
      var n := |events| - 1;
      MotorIsCommanded(events[..n], jitter);
      CommandedAfter(events[..n], events[n], FirmwareRuns.Play(events[..n]).handler, jitter);
      assert events == events[..n] + [events[n]];
    }
  }

  lemma CommandedAfter(events: seq<Sessions.Event>, e: Sessions.Event, h: Sessions.Handler, jitter: nat)
    requires Commanded(events, h.relay, jitter) && Sessions.Timely(e, jitter)
    ensures Commanded(events + [e], Sessions.RelayAfter(h, e), jitter)
  {
    var r, more := Sessions.RelayAfter(h, e), events + [e];
    if r.direction != Relays.Stop {
      if e.act.Control? && !e.failed && Sessions.Admits(h.session, e.act.command, e.at) {
        assert MoveFor(more[|events|], r.direction);
      } else {
        var k :| 0 <= k < |events| && MoveFor(events[k], h.relay.direction)
          && h.relay.timer.value <= events[k].at + BREAK_BEFORE_MAKE_MS + jitter + events[k].act.command.holdMs;
        assert MoveFor(more[k], r.direction);
      }
    }
  }

  // ---- Together

  function Direction(way: Way): Relays.Direction {
    match way
    case Up => Relays.Up
    case Down => Relays.Down
  }

  /** Every move command the firmware ever receives was decided by the controller at most `delay` before. */
  predicate Delivered(trace: seq<Entry>, events: seq<Sessions.Event>, delay: nat) {
    forall k :: 0 <= k < |events| && events[k].act.Control? && events[k].act.command.Move? ==>
      exists e :: e in trace && PulseIn(e).Some? && DeliveredAs(PulseIn(e).value, events[k], delay)
  }

  predicate DeliveredAs(p: Pulse, e: Sessions.Event, delay: nat)
    requires e.act.Control? && e.act.command.Move?
  {
    && e.act.command.direction == Direction(p.way)
    && e.act.command.holdMs == p.holdMs
    && e.at <= p.startedAt + delay
  }

  /**
   * After the last HOLD took effect at `held`, and with no other intent since, the motor is off from
   * held + watchdog + delay + break + manual hold on: whatever the interleaving, whatever the firmware
   * receives besides, however long its loop stalls, and if no STOP ever arrives.
   */
  lemma {:induction false} DeadManStops(c: Settings, generation: nat, first: Env, labels: seq<Label>, events: seq<Sessions.Event>,
                     jitter: nat, delay: nat, held: int, t: nat)
    requires ValidSettings(c)
    requires var trace := Run(c, generation, first, labels).trace;
      && Delivered(trace, events, delay)
      && (forall at: int :: HoldAt(at) in trace ==> at <= held)
      && (forall e :: e in trace && PulseIn(e).Some? && PulseIn(e).value.control.mode != Manual ==>
            PulseIn(e).value.startedAt + PulseIn(e).value.holdMs <= held + c.watchdogMs + c.manualHoldMs)
    requires FirmwareRuns.Ordered(events, jitter) && FirmwareRuns.Play(events).now <= t
    requires t >= held + c.watchdogMs + delay + BREAK_BEFORE_MAKE_MS + jitter + c.manualHoldMs
    ensures Relays.Fire(FirmwareRuns.Play(events).handler.relay, t).direction == Relays.Stop
  {
    var trace := Run(c, generation, first, labels).trace;
    var relay := FirmwareRuns.Play(events).handler.relay;
    MotorIsCommanded(events, jitter);
    if relay.direction != Relays.Stop {
      var k :| 0 <= k < |events| && MoveFor(events[k], relay.direction)
        && relay.timer.value <= events[k].at + BREAK_BEFORE_MAKE_MS + jitter + events[k].act.command.holdMs;
      var e :| e in trace && PulseIn(e).Some? && DeliveredAs(PulseIn(e).value, events[k], delay);
      PulseEndsInTime(c, generation, first, labels, e, held);
    }
  }

  lemma PulseEndsInTime(c: Settings, generation: nat, first: Env, labels: seq<Label>, e: Entry, held: int)
    requires ValidSettings(c)
    requires var trace := Run(c, generation, first, labels).trace;
      && e in trace && PulseIn(e).Some?
      && (forall at: int :: HoldAt(at) in trace ==> at <= held)
      && (PulseIn(e).value.control.mode != Manual ==>
            PulseIn(e).value.startedAt + PulseIn(e).value.holdMs <= held + c.watchdogMs + c.manualHoldMs)
    ensures PulseIn(e).value.startedAt + PulseIn(e).value.holdMs <= held + c.watchdogMs + c.manualHoldMs
  {
    EveryPulseIsJustified(c, generation, first, labels);
    HoldsAreNoted(c, generation, first, labels);
    assert Justified(c, PulseIn(e).value);
  }
}
