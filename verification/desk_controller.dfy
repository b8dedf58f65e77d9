// The controller object. A method is one uninterrupted section of the asynchronous code, or a helper
// that such a section calls; what it does to the fields and what it answers is a function of DeskModel.
module DeskControllers {
  import opened Policy
  import opened HeightMonitors
  import opened DeskModel
  import opened DeskWorld
  import opened DeskRecord
  import opened DeskPulses
  import opened DeskAdmission
  import opened DeskFacts
  import opened DeskAnswers
  import opened DeskRequests

  /** One pass of the waiting loop: the clock and the report when it is entered, the clock when it waits. */
  datatype Look = Look(checkedAt: int, relay: RelayReport, waitsAt: int)

  datatype Awaited = FoundStop | TimedOut | StillLooking

  /** A pass of the loop that neither finds the STOP nor reaches the deadline. */
  predicate Passes(baseline: Option<int>, deadline: int, k: Look) {
    k.checkedAt <= deadline && !NewStop(baseline, k.relay) && k.waitsAt < deadline
  }

  /** What a HOLD keeps and answers, whichever way its section takes. */
  predicate HoldPromised(c: Settings, d: Desk, way: Way, e: Env, t: Desk, next: Next) {
    && RecordOk(c, t) && t.control.generation >= d.control.generation
    && HoldServed(c, d, way, e, t, next)
    && Admitted(c, d, t, next, e)
  }

  lemma HoldPromises(c: Settings, d: Desk, way: Way, e: Env)
    requires RecordOk(c, d) && Consistent(e.monitor)
    ensures RecordOk(c, d.(pending := None))
    ensures HoldPromised(c, d, way, e, HoldEnters(c, d, way, e).0, HoldEnters(c, d, way, e).1)
  {
    HoldKeeps(c, d, way, e);
    HoldIsAdmitted(c, d, way, e);
    HoldRequestIsExact(c, d, way, e);
    PendingKeeps(c, d);
    StopKeeps(c, d.(pending := None), e);
    hide HoldServed, Admitted, HoldEnters;
  }

  class DeskController {
    const c: Settings
    var control: Control
    var running: bool
    var closing: bool
    var stopInProgress: bool
    var startupWakePending: Option<int>
    var motionStartedAt: Option<int>
    var lastHoldAt: Option<int>
    var nextRefreshAt: Option<int>
    var settleUntil: Option<int>
    var lastFineObservedAt: Option<int>
    var relayBaselineReceivedAt: Option<int>
    var relayLastSeenAt: Option<int>
    var firstPulseSentAt: Option<int>
    var relayDirectionConfirmed: bool
    var lastUnexpectedRelayAt: Option<int>
    var lastStopBaselineReceivedAt: Option<int>

    function View(): Desk
      reads this
    {
      Desk(control, running, closing, stopInProgress, startupWakePending,
           Motion(motionStartedAt, lastHoldAt, nextRefreshAt, settleUntil, lastFineObservedAt,
                  relayBaselineReceivedAt, relayLastSeenAt, firstPulseSentAt, relayDirectionConfirmed),
           lastUnexpectedRelayAt, lastStopBaselineReceivedAt)
    }

    /** The settings have been validated, and between any two sections the intent record is consistent. */
    ghost predicate Valid()
      reads this
    {
      ValidSettings(c) && RecordOk(c, View())
    }

    constructor (c: Settings)
      requires ValidSettings(c)
      ensures Valid() && this.c == c
      ensures View() == Desk(NoIntent(Idle, 0), false, false, false, None, NoFields(), None, None)
    {
      this.c := c;
      control := Control(Idle, NoMotion, None, None, None, 0, false, None, None);
      running, closing, stopInProgress := false, false, false;
      startupWakePending := None;
      motionStartedAt, lastHoldAt, nextRefreshAt, settleUntil, lastFineObservedAt := None, None, None, None, None;
      relayBaselineReceivedAt, relayLastSeenAt, firstPulseSentAt := None, None, None;
      relayDirectionConfirmed := false;
      lastUnexpectedRelayAt, lastStopBaselineReceivedAt := None, None;
    }

    // ---- Fields

    method ResetMotionFields()
      modifies this`motionStartedAt, this`lastHoldAt, this`nextRefreshAt, this`settleUntil, this`lastFineObservedAt,
               this`relayBaselineReceivedAt, this`relayLastSeenAt, this`firstPulseSentAt, this`relayDirectionConfirmed
      ensures View() == old(View()).(motion := NoFields())
    {
      motionStartedAt := None;
      lastHoldAt := None;
      nextRefreshAt := None;
      settleUntil := None;
      lastFineObservedAt := None;
      relayBaselineReceivedAt := None;
      relayLastSeenAt := None;
      firstPulseSentAt := None;
      relayDirectionConfirmed := false;
    }

    method InitializeRelayTracking(relay: RelayReport)
      modifies this`relayBaselineReceivedAt, this`relayLastSeenAt, this`firstPulseSentAt, this`relayDirectionConfirmed
      ensures View() == old(View()).(motion := Tracking(old(View()).motion, relay))
    {
      relayBaselineReceivedAt := relay.receivedAt;
      relayLastSeenAt := relay.receivedAt;
      firstPulseSentAt := None;
      relayDirectionConfirmed := false;
    }

    /** The fields of a new intent, next to its record. */
    method Install(k: Control, startedAt: Option<int>, holdAt: Option<int>, refreshAt: Option<int>, relay: RelayReport)
      modifies this
      ensures View() == old(View()).(
                control := k,
                motion := Tracking(Motion(startedAt, holdAt, refreshAt, None, None, None, None, None, false), relay))
    {
      control := k;
      motionStartedAt := startedAt;
      lastHoldAt := holdAt;
      nextRefreshAt := refreshAt;
      settleUntil := None;
      lastFineObservedAt := None;
      InitializeRelayTracking(relay);
    }

    /** _cancel_startup_wake_pending_locked. */
    method CancelStartupWake()
      modifies this`startupWakePending
      ensures View() == old(View()).(pending := None)
    {
      startupWakePending := None;
    }

    method InvalidateMotion()
      modifies this
      ensures RecordOk(c, View()) && View() == Invalidate(old(View()))
    {
      startupWakePending := None;
      control := Control(IsStopped, NoMotion, None, None, None, control.generation + 1, false, None, None);
      ResetMotionFields();
    }

    method SetPublic(public: Public)
      modifies this`control
      ensures View() == old(View()).(control := old(control).(public := public))
    {
      control := control.(public := public);
    }

    // ---- Lifetime

    /**
     * start() up to its first await. It raises at once while the controller runs or the runner task of the
     * last lifetime still does, and takes its flags back when the new task cannot be created.
     */
    method Start(lingering: bool, created: bool) returns (ok: bool)
      requires Valid()
      modifies this
      ensures Valid() && ok == (!old(running) && !lingering && created)
      ensures old(running) || lingering ==> View() == old(View())
      ensures !old(running) && !lingering ==>
        View() == Started(old(control).generation).(running := created, stopping := created,
                                                    lastUnexpected := old(lastUnexpectedRelayAt),
                                                    lastStopBaseline := old(lastStopBaselineReceivedAt),
                                                    pending := old(startupWakePending))
    {
      if running || lingering { return false; }
      running := true;
      closing := false;
      stopInProgress := true;
      ResetMotionFields();
      control := Control(Idle, NoMotion, None, None, None, control.generation + 1, false, None, None);
      if !created {
        running := false;
        stopInProgress := false;
      }
      ok := created;
    }

    /** What start() does once its STOP has been confirmed, or not. */
    method FinishStart(failed: bool, e: Env)
      requires Valid() && (stopInProgress || closing) && Consistent(e.monitor)
      modifies this
      ensures Valid() && View() == StartEnds(c, old(View()), failed, e)
      ensures StartFollows(c, old(View()), failed, e, View())
    {
      StartIsExact(c, View(), failed, e);
      hide StartFollows, ValidSettings;
      stopInProgress := false;
      SetPublic(if failed then InError else Idle);
      if !failed { RegisterStartupWake(e); }
    }

    method RegisterStartupWake(e: Env)
      requires Valid() && !stopInProgress && control.public == Idle && control.mode == NoMotion
      modifies this
      ensures Valid() && View() == StartEnds(c, old(View()), false, e)
    {
      var h := HeightIn(c, e);
      if h.status == Online { return; }
      if !WakeBasis(c, h) {
        SetStartupSensorCheckNeeded();
        return;
      }
      var way := if h.height.value < (c.opMin + c.opMax) / 2.0 then Up else Down;
      if !WayAllowed(c, h.height.value, way) {
        SetStartupSensorCheckNeeded();
        return;
      }
      if !running || closing || stopInProgress { return; }
      startupWakePending := Some(e.mono + c.wakeTimeoutMs);
      SetPublic(Idle);
    }

    method SetStartupSensorCheckNeeded()
      requires Valid() && control.mode == NoMotion
      modifies this
      ensures Valid() && View() == CheckNeeded(old(View()))
    {
      startupWakePending := None;
      if !running || closing { return; }
      SetPublic(Idle);
    }

    /** stop() up to its first await; false if there is nothing to stop, not even a runner task. */
    method BeginClosing(hasTask: bool) returns (begun: bool)
      requires Valid()
      modifies this
      ensures Valid() && begun == (old(running) || hasTask)
      ensures View() == if begun then CloseBegins(old(View())) else old(View())
      ensures begun ==> Ended(old(View()).(closing := true, stopping := true), IsStopped, View())
    {
      if !running && !hasTask { return false; }
      closing := true;
      stopInProgress := true;
      InvalidateMotion();
      begun := true;
    }

    method FinishClosing(failed: bool)
      requires Valid() && closing
      modifies this
      ensures Valid() && View() == CloseEnds(old(View()), failed)
    {
      running := false;
      stopInProgress := false;
      SetPublic(if failed then InError else IsStopped);
    }

    // ---- STOP

    /** _stop_and_confirm up to its first await. */
    method BeginStop(rejectIfStopping: bool, e: Env) returns (begun: bool, refused: bool)
      requires Valid()
      modifies this
      ensures Valid()
      ensures if refused then View() == old(View()) && !begun else (View(), begun) == StopBegins(old(View()), e)
      ensures refused <==> if rejectIfStopping then !Accepting(old(View())) else !(old(running) || old(closing))
      ensures begun <==> !refused && !old(stopInProgress)
      ensures begun ==> StopBegun(old(View()), e, View())
    {
      begun, refused := false, false;
      if rejectIfStopping {
        if !running || closing || stopInProgress { return false, true; }
      } else if !running && !closing {
        return false, true;
      }
      if stopInProgress { return; }
      var baseline := e.relay.receivedAt;
      stopInProgress := true;
      InvalidateMotion();
      lastStopBaselineReceivedAt := baseline;
      begun := true;
    }

    /** _wait_for_fresh_stop, over the first passes of its loop. */
    method WaitForFreshStop(baseline: Option<int>, since: int, looks: seq<Look>) returns (r: Awaited, at: nat)
      ensures at <= |looks|
      ensures forall i :: 0 <= i < at ==> Passes(baseline, since + c.ackMs, looks[i])
      ensures r == StillLooking <==> at == |looks|
      ensures r == FoundStop <==>
        at < |looks| && looks[at].checkedAt <= since + c.ackMs && NewStop(baseline, looks[at].relay)
      ensures at < |looks| ==> !Passes(baseline, since + c.ackMs, looks[at])
    {
      var deadline := since + c.ackMs;
      at := 0;
      while at < |looks| && looks[at].checkedAt <= deadline
        invariant at <= |looks|
        invariant forall i :: 0 <= i < at ==> Passes(baseline, deadline, looks[i])
      {
        if FreshStop(baseline, looks[at].relay) { return FoundStop, at; }
        var remaining := deadline - looks[at].waitsAt;
        if remaining <= 0 { return TimedOut, at; }
        at := at + 1;
      }
      r := if at < |looks| then TimedOut else StillLooking;
    }

    /** `failed`: the STOP was not sent or not confirmed, or the stop itself came with an error. */
    method FinishStop(failed: bool)
      requires Valid() && (stopInProgress || closing)
      modifies this
      ensures Valid() && View() == StopEnds(old(View()), failed)
    {
      stopInProgress := false;
      SetPublic(if failed then InError else IsStopped);
    }

    // ---- Intents

    method BeginWakeIntent(mode: Mode, way: Way, target: Option<real>, e: Env) returns (next: Next)
      requires Valid() && WakeBasis(c, HeightIn(c, e)) && mode != NoMotion && startupWakePending == None
      requires if mode == Target then target.Some? && c.opMin <= target.value <= c.opMax else target == None
      modifies this
      ensures Valid()
      ensures next.SendWake? ==> control.generation == old(control).generation + 1 && next.order.generation == control.generation
      ensures (View(), next) == BeginWake(c, old(View()), mode, way, target, e)
    {
      var h := HeightIn(c, e);
      if !running || closing || stopInProgress { return Refuse; }
      if control.awaiting { return Refuse; }
      var generation := control.generation + 1;
      Install(Control(Waking, mode, if mode == Target then Some(Continuous) else None, target, Some(way),
                      generation, true, h.observedAt, Some(e.mono)),
              if mode != Wake then Some(e.mono) else None, if mode == Manual then Some(e.mono) else None, None, e.relay);
      next := SendWake(WakeOrder(generation, way, h.height.value));
    }

    /** _set_target up to its first await. */
    method SetTarget(target: real, e: Env) returns (next: Next)
      requires Valid() && Consistent(e.monitor)
      modifies this
      ensures Valid() && control.generation >= old(control).generation
      ensures (View(), next) == TargetEnters(c, old(View()), target, e)
      ensures TargetServed(c, old(View()), target, e, View(), next)
      ensures Admitted(c, old(View()), View(), next, e)
    {
      TargetKeeps(c, View(), target, e);
      TargetRequestIsExact(c, View(), target, e);
      TargetEntryIsAdmitted(c, View(), target, e);
      PendingKeeps(c, View());
      StopKeeps(c, View().(pending := None), e);
      hide RecordOk, Admitted, Within, Steady, HeightUsable, RelayReady, RelayAvailable, Snapshot, WakeBasis,
        TargetServed, ValidSettings;
      if !(c.opMin <= target <= c.opMax) { return if control.mode == NoMotion then Refuse else Halt; }
      startupWakePending := None;
      if control.awaiting {
        if control.mode == Target && control.target == Some(target) { return Return; }
        return Refuse;
      }
      if control.mode == Target && control.target == Some(target) && !stopInProgress { return Return; }
      var active := control.mode != NoMotion;
      if active || e.relay.state in {Some(RelayUp), Some(RelayDown)} {
        var _, refused := BeginStop(true, e);
        return if refused then Refuse else HandOver;
      }
      next := ProceedTarget(target, e);
    }

    method ProceedTarget(target: real, e: Env) returns (next: Next)
      requires Valid() && Consistent(e.monitor) && c.opMin <= target <= c.opMax && startupWakePending == None
      requires !control.awaiting
      modifies this
      ensures Valid() && control.generation >= old(control).generation
      ensures (View(), next) == TargetProceeds(c, old(View()), target, e)
      ensures TargetFollows(c, old(View()), target, e, View(), next)
      ensures Admitted(c, old(View()), View(), next, e)
    {
      TargetProceedKeeps(c, View(), target, e);
      TargetIsAdmitted(c, View(), target, e);
      TargetFollowsExactly(c, View(), target, e);
      hide TargetFollows, ValidSettings, Admitted;
      var h := HeightIn(c, e);
      if h.status != Online {
        if !WakeBasis(c, h) || !AdmitWake(c, View(), e) { return Refuse; }
        var delta := target - h.height.value;
        if Abs(delta) <= c.tolerance {
          control := Control(Idle, NoMotion, None, None, None, control.generation + 1, false, None, None);
          ResetMotionFields();
          return Return;
        }
        var way := if delta > 0.0 then Up else Down;
        if !WayAllowed(c, h.height.value, way) { return Refuse; }
        next := BeginWakeIntent(Target, way, Some(target), e);
        return;
      }
      if !AdmitMotion(c, View(), e) { return Refuse; }
      var delta := target - h.height.value;
      if Abs(delta) <= c.tolerance { return Reached; }
      var way := if delta > 0.0 then Up else Down;
      if !WayAllowed(c, h.height.value, way) { return Refuse; }
      Install(Control(Moving, Target, Some(Continuous), Some(target), Some(way), control.generation + 1,
                      false, None, None),
              Some(e.mono), None, Some(e.mono), e.relay);
      next := Go;
    }

    /** _hold up to its first await. */
    method Hold(way: Way, e: Env) returns (next: Next)
      requires Valid() && Consistent(e.monitor)
      modifies this
      ensures Valid()
      ensures (View(), next) == HoldEnters(c, old(View()), way, e)
      ensures HoldPromised(c, old(View()), way, e, View(), next)
    {
      HoldPromises(c, View(), way, e);
      hide HoldPromised, RecordOk, RelayReady, RelayAvailable, InRange, Snapshot, WayAllowed, HoldServed,
        ValidSettings, HeightUsable, StopBegun, Consistent;
      if !running || closing { return Refuse; }
      if stopInProgress { return Refuse; }
      var h := HeightIn(c, e);
      startupWakePending := None;
      if control.awaiting {
        if control.mode == Manual && control.direction == Some(way) {
          lastHoldAt := Some(e.mono);
          return Return;
        }
        return Refuse;
      }
      if h.status != Online {
        if !WakeBasis(c, h) || !AdmitWake(c, View(), e) { return Refuse; }
        if !WayAllowed(c, h.height.value, way) { return Refuse; }
        next := BeginWakeIntent(Manual, way, None, e);
        return;
      }
      if !HeightUsable(c, h) || !RelayReady(c, e.relay, e.wall) { return Refuse; }
      if !WayAllowed(c, h.height.value, way) { return Refuse; }
      if control.mode == Manual && control.direction == Some(way) && !stopInProgress {
        lastHoldAt := Some(e.mono);
        return Return;
      }
      var active := control.mode != NoMotion;
      if active || e.relay.state in {Some(RelayUp), Some(RelayDown)} {
        var _, refused := BeginStop(true, e);
        return if refused then Refuse else HandOver;
      }
      next := InstallHold(way, e);
    }

    method ProceedHold(way: Way, e: Env) returns (next: Next)
      requires Valid() && Consistent(e.monitor) && startupWakePending == None
      modifies this
      ensures Valid() && control.generation >= old(control).generation
      ensures (View(), next) == HoldProceeds(c, old(View()), way, e)
      ensures HoldFollows(c, old(View()), way, e, View(), next)
      ensures Admitted(c, old(View()), View(), next, e)
    {
      HoldProceedKeeps(c, View(), way, e);
      HoldIsAdmitted(c, View(), way, e);
      HoldRequestIsExact(c, View(), way, e);
      hide HoldFollows, ValidSettings, Admitted;
      if !AdmitMotion(c, View(), e) { return Refuse; }
      if !WayAllowed(c, HeightIn(c, e).height.value, way) { return Refuse; }
      next := InstallHold(way, e);
    }

    method InstallHold(way: Way, e: Env) returns (next: Next)
      requires Valid() && running && !closing && !stopInProgress && startupWakePending == None
      modifies this
      ensures Valid() && View() == InstallManual(old(View()), way, e) && next == Go
    {
      Install(Control(InManual, Manual, None, None, Some(way), control.generation + 1, false, None, None),
              Some(e.mono), Some(e.mono), Some(e.mono), e.relay);
      next := Go;
    }

    // ---- The runner

    /** _run_cycle up to its first await. */
    method RunCycle(e: Env) returns (act: Act)
      requires Valid() && Consistent(e.monitor)
      modifies this
      ensures Valid() && control.generation >= old(control).generation
      ensures (View(), act) == Cycle(c, old(View()), e)
      ensures CycleAnswers(c, old(View()), e, View(), act)
      ensures act.Publish? ==> Justified(c, act.pulse) && Carries(View(), act.pulse)
    {
      CycleKeeps(c, View(), e);
      CycleJustifies(c, View(), e);
      CycleIsExact(c, View(), e);
      hide TargetCycle, WakeCycle, RelayAnswer, RelayReady, Justified, Carries, RecordOk, CycleAnswers, ValidSettings;
      if !running || closing || stopInProgress { return Rest; }
      if control.mode == NoMotion { return Lock; }
      if control.awaiting {
        act := RunWakeCycle(e);
        return;
      }
      if !HeightUsable(c, HeightIn(c, e)) { return Stop(true); }
      if !RelayReady(c, e.relay, e.wall) { return Stop(true); }
      if control.mode == Target && motionStartedAt.Some? && e.mono - motionStartedAt.value > c.targetTimeoutMs {
        return Stop(true);
      }
      if control.mode == Manual && lastHoldAt.Some? && e.mono - lastHoldAt.value > c.watchdogMs {
        return Stop(false);
      }
      var fine := EvaluateRelayStatus(e);
      if !fine { return Stop(true); }
      if control.mode == Manual {
        if control.direction.None? || !WayAllowed(c, HeightIn(c, e).height.value, control.direction.value) {
          return Stop(true);
        }
        if nextRefreshAt.None? || e.mono >= nextRefreshAt.value {
          return Publish(PulseOf(c, View(), control.direction.value, c.manualHoldMs, None, e));
        }
        return Rest;
      }
      if control.target.None? { return Stop(true); }
      act := RunTargetCycle(e);
    }

    /** _evaluate_relay_status; false is its exception. */
    method EvaluateRelayStatus(e: Env) returns (fine: bool)
      requires Valid()
      modifies this
      ensures Valid()
      ensures (View(), fine) == RelayAnswer(c, old(View()), e)
      ensures View() == Noted(old(View()), e) && fine == !Troubled(c, old(View()), e)
      ensures control == old(control)
    {
      AnswerIsExact(c, View(), e);
      hide Noted, Troubled, ValidSettings;
      if control.direction == None { return true; }
      var receivedAt := e.relay.receivedAt;
      if receivedAt == None { return true; }
      if relayBaselineReceivedAt.Some? && receivedAt.value <= relayBaselineReceivedAt.value {
        return !(firstPulseSentAt.Some? && e.mono - firstPulseSentAt.value > c.ackMs);
      }
      if relayLastSeenAt.Some? && receivedAt.value <= relayLastSeenAt.value { return true; }
      relayLastSeenAt := receivedAt;
      var expected := Reported(control.direction.value);
      if e.relay.state == Some(expected) {
        relayDirectionConfirmed := true;
        return true;
      }
      if e.relay.state in {Some(RelayUp), Some(RelayDown)} { return false; }
      if e.relay.state == Some(RelayStop) && relayDirectionConfirmed { return false; }
      if e.relay.state == Some(RelayStop) && firstPulseSentAt.Some? && e.mono - firstPulseSentAt.value > c.ackMs {
        return false;
      }
      fine := true;
    }

    method RunTargetCycle(e: Env) returns (act: Act)
      requires Valid() && control.mode == Target && !control.awaiting && HeightUsable(c, HeightIn(c, e))
      requires Consistent(e.monitor)
      modifies this
      ensures Valid()
      ensures (View(), act) == TargetCycle(c, old(View()), e)
      ensures TargetRuns(c, old(View()), e, View(), act)
    {
      TargetRunsExactly(c, View(), e);
      hide TargetRuns, ValidSettings;
      var h := HeightIn(c, e);
      var delta := control.target.value - h.height.value;
      if Abs(delta) <= c.tolerance { return Stop(false); }
      var needed := if delta > 0.0 then Up else Down;
      if !WayAllowed(c, h.height.value, needed) { return Stop(true); }
      if control.phase == Some(Settling) {
        if settleUntil.Some? && e.mono < settleUntil.value { return Rest; }
        if e.relay.state != Some(RelayStop) { return Stop(true); }
        control := control.(phase := Some(Fine), direction := Some(needed));
        nextRefreshAt := Some(e.mono);
      }
      if control.phase == Some(Continuous) {
        if Abs(delta) <= c.fineDistance || control.direction != Some(needed) {
          var _ := EnterSettling(control.generation);
          return SendStop;
        }
        if nextRefreshAt.None? || e.mono >= nextRefreshAt.value {
          return Publish(PulseOf(c, View(), needed, c.continuousHoldMs, None, e));
        }
        return Rest;
      }
      if control.phase == Some(Fine) {
        if lastFineObservedAt.Some? && h.observedAt.Some? && h.observedAt.value <= lastFineObservedAt.value {
          return Rest;
        }
        return Publish(PulseOf(c, View(), needed, c.fineHoldMs, h.observedAt, e));
      }
      act := Rest;
    }

    /** _enter_settling up to its STOP; nothing if the intent has been replaced. */
    method EnterSettling(generation: nat) returns (entered: bool)
      requires Valid() && control.mode == Target && !control.awaiting
      modifies this`control, this`nextRefreshAt, this`relayDirectionConfirmed
      ensures Valid() && entered == (generation == old(control).generation)
      ensures !entered ==> View() == old(View())
      ensures entered ==>
        && control == old(control).(phase := Some(Settling), direction := None,
                                    generation := old(control).generation + 1)
        && View() == old(View()).(control := control,
                                  motion := old(View()).motion.(nextRefreshAt := None, confirmed := false))
    {
      if control.generation != generation { return false; }
      control := control.(phase := Some(Settling), direction := None, generation := generation + 1);
      nextRefreshAt := None;
      relayDirectionConfirmed := false;
      entered := true;
    }

    method FinishSettling(mono: int)
      requires Valid()
      modifies this
      ensures Valid() && View() == SettleDone(c, old(View()), mono)
    {
      settleUntil := Some(mono + c.fineSettleMs);
    }

    /** What _publish_pulse looks at once it holds the relay lock. */
    method PulseIsWanted(p: Pulse) returns (wanted: bool)
      ensures wanted == StillWanted(View(), p)
    {
      if control.generation != p.generation || control.mode == NoMotion || control.direction != Some(p.way)
         || closing || stopInProgress {
        return false;
      }
      wanted := true;
    }

    /** What _publish_pulse records after a successful publish. */
    method RecordPulse(p: Pulse, mono: int)
      requires Valid() && Carries(View(), p)
      modifies this
      ensures Valid() && control.generation == old(control).generation
      ensures View() == if p.generation != old(control).generation then old(View())
                        else PulseDone(c, old(View()), p, mono)
      ensures p.generation == old(control).generation ==> PulseNoted(c, old(View()), p, mono, View())
    {
      PulseIsNoted(c, View(), p, mono);
      hide PulseNoted, ValidSettings;
      if control.generation != p.generation { return; }
      if firstPulseSentAt == None { firstPulseSentAt := Some(p.startedAt); }
      nextRefreshAt := Some(p.startedAt + c.refreshMs);
      if p.fineAt != None {
        lastFineObservedAt := p.fineAt;
        control := control.(phase := Some(Settling), direction := None);
        settleUntil := Some(mono + p.holdMs + c.fineSettleMs);
      }
    }

    method RunWakeCycle(e: Env) returns (act: Act)
      requires Valid() && control.awaiting && Consistent(e.monitor)
      modifies this
      ensures Valid()
      ensures (View(), act) == WakeCycle(c, old(View()), e)
      ensures WaitingAnswers(c, old(View()), e, View(), act)
    {
      WaitingIsExact(c, View(), e);
      hide WaitingAnswers, ValidSettings;
      if control.wakeStartedAt.None? || e.mono - control.wakeStartedAt.value > c.wakeTimeoutMs { return Stop(true); }
      if control.mode == Manual && lastHoldAt.Some? && e.mono - lastHoldAt.value > c.watchdogMs { return Stop(false); }
      var h := HeightIn(c, e);
      if h.status == Faulty { return Stop(true); }
      if h.status != Online || h.observedAt.None? || control.wakeObservedAt.None?
         || h.observedAt.value <= control.wakeObservedAt.value {
        return Rest;
      }
      if !RelayAvailable(c, e.relay, e.wall) { return Stop(true); }
      if e.relay.state != Some(RelayStop) || e.relay.code != Some(Ready) { return Rest; }
      if h.height.None? { return Stop(true); }
      act := ActivateAfterWake(h.height.value, e);
    }

    method ActivateAfterWake(height: real, e: Env) returns (act: Act)
      requires Valid() && control.awaiting && e.monitor.height == Some(height)
      modifies this
      ensures Valid()
      ensures (View(), act) == Activate(c, old(View()), height, e)
      ensures WakeEnds(c, old(View()), e, View(), act)
    {
      WakeEndsExactly(c, View(), e);
      hide WakeEnds, ValidSettings;
      if control.mode == NoMotion { return Rest; }
      if control.mode == Wake {
        control := Control(Idle, NoMotion, None, None, None, control.generation + 1, false, None, None);
        ResetMotionFields();
        return Rest;
      }
      if control.mode == Manual {
        if control.direction.None? || !WayAllowed(c, height, control.direction.value) { return Stop(true); }
        control := control.(public := InManual, awaiting := false, wakeObservedAt := None, wakeStartedAt := None);
        nextRefreshAt := Some(e.mono);
        InitializeRelayTracking(e.relay);
        return Rest;
      }
      if control.target.None? { return Stop(true); }
      var delta := control.target.value - height;
      if Abs(delta) <= c.tolerance { return Stop(false); }
      var way := if delta > 0.0 then Up else Down;
      if !WayAllowed(c, height, way) { return Stop(true); }
      control := control.(public := Moving, phase := Some(Continuous), direction := Some(way),
                          awaiting := false, wakeObservedAt := None, wakeStartedAt := None);
      nextRefreshAt := Some(e.mono);
      InitializeRelayTracking(e.relay);
      act := Rest;
    }

    /** The part of a cycle without an intent that runs under the intent lock. */
    method RunStartupWakeCycle(e: Env) returns (act: Act)
      requires Valid() && Consistent(e.monitor)
      modifies this
      ensures Valid() && control.generation >= old(control).generation
      ensures (View(), act) == StartupCycle(c, old(View()), e)
      ensures StartupAnswers(c, old(View()), e, View(), act)
    {
      StartupKeeps(c, View(), e);
      StartupIsExact(c, View(), e);
      hide StartupAnswers, ValidSettings;
      if startupWakePending == None {
        act := WatchInactiveRelay(e);
        return;
      }
      if !running || closing || stopInProgress {
        startupWakePending := None;
        return Rest;
      }
      var h := HeightIn(c, e);
      if h.status == Online {
        startupWakePending := None;
        return Rest;
      }
      if !WakeBasis(c, h) || e.mono > startupWakePending.value {
        SetStartupSensorCheckNeeded();
        return Rest;
      }
      if !AdmitWake(c, View(), e) { return Rest; }
      var way := if h.height.value < (c.opMin + c.opMax) / 2.0 then Up else Down;
      if !WayAllowed(c, h.height.value, way) {
        SetStartupSensorCheckNeeded();
        return Rest;
      }
      startupWakePending := None;
      var next := BeginWakeIntent(Wake, way, None, e);
      if !next.SendWake? {
        assert false;   // nothing stands between the checks above and the new intent
      }
      act := Nudge(next.order);
    }

    method WatchInactiveRelay(e: Env) returns (act: Act)
      requires Valid()
      modifies this
      ensures Valid()
      ensures (View(), act) == Watch(old(View()), e)
    {
      if stopInProgress { return Rest; }
      if e.relay.state !in {Some(RelayUp), Some(RelayDown)} { return Rest; }
      if e.relay.receivedAt.None? { return Rest; }
      if lastStopBaselineReceivedAt.Some? && e.relay.receivedAt.value <= lastStopBaselineReceivedAt.value { return Rest; }
      if e.relay.receivedAt == lastUnexpectedRelayAt { return Rest; }
      lastUnexpectedRelayAt := e.relay.receivedAt;
      act := Stop(true);
    }
  }
}
