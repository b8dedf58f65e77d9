// What every section keeps of the intent record, and what every interleaving keeps of the tasks.
module DeskRecord {
  import opened Policy
  import opened HeightMonitors
  import opened DeskModel
  import opened DeskWorld

  predicate RecordOk(c: Settings, d: Desk) {
    var k := d.control;
    && (d.stopping || d.closing ==> k.mode == NoMotion)
    && (d.pending.Some? ==> k.mode == NoMotion)
    && (k.awaiting <==> k.public == Waking)
    && (k.awaiting <==> k.wakeObservedAt.Some?)
    && (k.awaiting <==> k.wakeStartedAt.Some?)
    && match k.mode
       case NoMotion =>
         k.phase.None? && k.target.None? && k.direction.None? && k.public in {Idle, IsStopped, InError}
       case Wake =>
         k.phase.None? && k.target.None? && k.direction.Some? && k.awaiting
       case Manual =>
         k.phase.None? && k.target.None? && k.direction.Some? && k.public in {Waking, InManual}
         && d.motion.lastHoldAt.Some?
       case Target =>
         && k.target.Some? && c.opMin <= k.target.value <= c.opMax
         && k.phase.Some? && (k.phase == Some(Settling) <==> k.direction.None?)
         && k.public in {Waking, Moving}
         && (k.awaiting ==> k.phase == Some(Continuous))
         && d.motion.startedAt.Some?
  }

  /** Sections of the runner and of requests leave the lifetime flags alone. */
  predicate Within(c: Settings, d: Desk, t: Desk) {
    && RecordOk(c, t)
    && t.control.generation >= d.control.generation
    && t.running == d.running && t.closing == d.closing && t.stopping == d.stopping
    && (d.pending.None? ==> t.pending.None?)
  }

  /**
   * Whoever is not the runner replaces an intent only together with its generation, and touches the
   * fields of the motion otherwise only to note a HOLD.
   */
  predicate Steady(d: Desk, t: Desk, e: Env) {
    || (t.control.generation > d.control.generation
        && (t.control.mode == Target ==>
              t.motion.startedAt == Some(e.mono) && t.control.phase == Some(Continuous) && t.motion.lastFineAt.None?))
    || (t.control == d.control && (t.motion == d.motion || d.control.mode == Manual))
  }

  predicate Aside(c: Settings, d: Desk, t: Desk, e: Env) {
    Within(c, d, t) && Steady(d, t, e)
  }

  /** A decided pulse carries the record it was decided on. */
  predicate Carries(d: Desk, p: Pulse) {
    && p.control.generation == p.generation
    && p.control.mode != NoMotion
    && p.generation <= d.control.generation
    && (p.generation == d.control.generation ==> p.control == d.control)
    && (p.fineAt.Some? <==> p.control.phase == Some(Fine))
  }

  lemma TargetCycleKeeps(c: Settings, d: Desk, e: Env)
    requires RecordOk(c, d) && d.control.mode == Target && !d.control.awaiting
    requires HeightUsable(c, HeightIn(c, e))
    ensures var (t, act) := TargetCycle(c, d, e);
      Within(c, d, t) && (act.Publish? ==> Carries(t, act.pulse)) && !act.Nudge?
  {
  }

  lemma WakeCycleKeeps(c: Settings, d: Desk, e: Env)
    requires RecordOk(c, d) && d.control.awaiting
    ensures var (t, act) := WakeCycle(c, d, e);
      Within(c, d, t) && (act == Rest || act.Stop?)
  {
  }

  lemma RelayAnswerKeeps(c: Settings, d: Desk, e: Env)
    ensures var t := RelayAnswer(c, d, e).0;
      t == d.(motion := d.motion.(relayLastSeen := t.motion.relayLastSeen, confirmed := t.motion.confirmed))
  {
  }

  lemma CycleKeeps(c: Settings, d: Desk, e: Env)
    requires RecordOk(c, d)
    ensures var (t, act) := Cycle(c, d, e);
      Within(c, d, t) && (act.Publish? ==> Carries(t, act.pulse)) && !act.Nudge?
  {
    hide TargetCycle, WakeCycle, RelayAnswer;
    if d.control.awaiting {
      WakeCycleKeeps(c, d, e);
    } else {
      RelayAnswerKeeps(c, d, e);
      if d.control.mode == Target && HeightUsable(c, HeightIn(c, e)) {
        TargetCycleKeeps(c, RelayAnswer(c, d, e).0, e);
      }
    }
  }

  lemma StartupKeeps(c: Settings, d: Desk, e: Env)
    requires RecordOk(c, d)
    ensures Within(c, d, StartupCycle(c, d, e).0)
    ensures !StartupCycle(c, d, e).1.Publish? && !StartupCycle(c, d, e).1.SendStop?
  {
  }

  lemma StopKeeps(c: Settings, d: Desk, e: Env)
    requires RecordOk(c, d)
    ensures var (t, begun) := StopBegins(d, e);
      && RecordOk(c, t) && t.running == d.running && t.closing == d.closing
      && (begun ==> !d.stopping && t.stopping && t.pending.None? && t.control.generation == d.control.generation + 1)
      && (!begun ==> t == d)
  {
  }

  lemma TargetProceedKeeps(c: Settings, d: Desk, target: real, e: Env)
    requires RecordOk(c, d) && c.opMin <= target <= c.opMax && d.pending.None?
    ensures Aside(c, d, TargetProceeds(c, d, target, e).0, e)
    ensures TargetProceeds(c, d, target, e).1 != HandOver
  {
  }

  lemma TargetKeeps(c: Settings, d: Desk, target: real, e: Env)
    requires RecordOk(c, d)
    ensures var (t, next) := TargetEnters(c, d, target, e);
      && (next == HandOver ==> !d.stopping && d.running && StopBegins(d.(pending := None), e) == (t, true)
                               && c.opMin <= target <= c.opMax)
      && (next != HandOver ==> Aside(c, d, t, e))
  {
    if c.opMin <= target <= c.opMax {
      TargetProceedKeeps(c, d.(pending := None), target, e);
    }
  }

  lemma HoldProceedKeeps(c: Settings, d: Desk, way: Way, e: Env)
    requires RecordOk(c, d) && d.pending.None?
    ensures Aside(c, d, HoldProceeds(c, d, way, e).0, e)
    ensures HoldProceeds(c, d, way, e).1 != HandOver
  {
  }

  lemma HoldKeeps(c: Settings, d: Desk, way: Way, e: Env)
    requires RecordOk(c, d)
    ensures var (t, next) := HoldEnters(c, d, way, e);
      && (next == HandOver ==> !d.stopping && d.running && StopBegins(d.(pending := None), e) == (t, true))
      && (next != HandOver ==> Aside(c, d, t, e))
  {
  }

  // ---- All interleavings

  predicate LockOk(w: World) {
    w.lock.Held? ==>
      match w.lock.client
      case TheRunner => w.runner == Sending(w.lock.message)
      case TheRequest => w.request.Ordering? && w.lock.message == WakeMessage(w.request.order)
      case TheStopper => w.stopper.Stopping? && !w.stopper.confirming && w.lock.message == StopMessage
      case TheShutdown => w.shutdown == Closing && w.lock.message == StopMessage
  }

  predicate PulseOk(w: World) {
    w.runner.Sending? && w.runner.message.PulseMessage? ==> Carries(w.desk, w.runner.message.pulse)
  }

  predicate TasksOk(c: Settings, w: World) {
    && (w.shutdown != Over ==> w.desk.running)
    && (w.desk.closing <==> w.shutdown != Alive)
    && (w.stopper.Stopping? && w.shutdown == Alive ==> w.desk.stopping)
    && (w.stopper.Stopping? ==> w.desk.stopping || w.desk.closing)
    && (!w.desk.stopping && w.shutdown != Over ==> w.stopper == NoStop)
    && (w.request.HandingOver? ==>
          && w.stopper.Stopping? && w.stopper.owner == ByRequest
          && (w.request.goal.ToTarget? ==> c.opMin <= w.request.goal.target <= c.opMax)
          && w.desk.pending.None?)
    && (w.stopper.Stopping? && w.stopper.owner == ByRequest ==> w.request.HandingOver?)
    && (w.request == Halted ==> w.stopper.Stopping? && w.stopper.owner.ByTask?)
    && LockOk(w)
    && PulseOk(w)
  }

  predicate WorldOk(c: Settings, w: World) {
    RecordOk(c, w.desk) && TasksOk(c, w)
  }

  lemma RunnerCyclesKeepWorld(c: Settings, w: World, env: Env)
    requires WorldOk(c, w) && w.shutdown != Over && w.runner == Waiting
    ensures WorldOk(c, RunnerCycles(c, w, env))
  {
    hide Cycle;
    CycleKeeps(c, w.desk, env);
  }

  lemma RunnerLocksKeepsWorld(c: Settings, w: World, env: Env)
    requires WorldOk(c, w) && w.shutdown != Over && w.runner == WantsIntentLock
    ensures WorldOk(c, RunnerLocks(c, w, env))
  {
    hide StartupCycle;
    StartupKeeps(c, w.desk, env);
  }

  lemma StopTaskKeepsWorld(c: Settings, w: World, blamed: bool, env: Env)
    requires WorldOk(c, w) && w.shutdown != Over
    ensures WorldOk(c, StopTask(w, blamed, env))
  {
  }

  lemma RequestStopKeepsWorld(c: Settings, w: World, env: Env)
    requires WorldOk(c, w) && w.shutdown != Over && w.request.Halting?
    ensures WorldOk(c, RequestStopTask(w, env))
  {
    StopKeeps(c, w.desk, env);
  }

  /** What a request leaves behind: a STOP that begins, or a step aside. */
  predicate Enters(c: Settings, w: World, d: Desk, next: Next, goal: Goal, env: Env) {
    if next == HandOver then
      && RecordOk(c, d) && d.running == w.desk.running && d.closing == w.desk.closing && d.running
      && !w.desk.stopping && d.stopping && d.pending.None? && d.control.generation > w.desk.control.generation
      && (goal.ToTarget? ==> c.opMin <= goal.target <= c.opMax)
    else Aside(c, w.desk, d, env)
  }

  lemma RequestKeepsWorld(c: Settings, w: World, d: Desk, next: Next, goal: Goal, origin: Origin, env: Env)
    requires WorldOk(c, w) && w.shutdown != Over && w.request == NoRequest && Enters(c, w, d, next, goal, env)
    ensures WorldOk(c, RequestActs(w, d, next, goal, origin, env))
  {
    hide RecordOk;
  }

  lemma TargetKeepsWorld(c: Settings, w: World, target: real, env: Env)
    requires WorldOk(c, w) && w.shutdown != Over && w.request == NoRequest
    ensures WorldOk(c, AsksTarget(c, w, target, env))
  {
    hide TargetEnters, RequestActs, RecordOk, TasksOk, Steady;
    TargetKeeps(c, w.desk, target, env);
    StopKeeps(c, w.desk.(pending := None), env) by { PendingKeeps(c, w.desk); }
    var (d, next) := TargetEnters(c, w.desk, target, env);
    AskedKeeps(c, w);
    RequestKeepsWorld(c, w, d, next, ToTarget(target), Direct(LiveIntent(w.desk)), env);
    RequestKeepsWorld(c, Asks(w), d, next, ToTarget(target), Direct(LiveIntent(w.desk)), env);
  }

  function Asks(w: World): World {
    w.(trace := w.trace + [Asked(w.desk.control.generation)])
  }

  lemma AskedKeeps(c: Settings, w: World)
    requires WorldOk(c, w)
    ensures WorldOk(c, Asks(w))
  {
  }

  lemma PendingKeeps(c: Settings, d: Desk)
    requires RecordOk(c, d)
    ensures RecordOk(c, d.(pending := None))
  {
  }

  lemma HoldKeepsWorld(c: Settings, w: World, way: Way, env: Env)
    requires WorldOk(c, w) && w.shutdown != Over && w.request == NoRequest
    ensures WorldOk(c, AsksHold(c, w, way, env))
  {
    hide HoldEnters, RequestActs, RecordOk, TasksOk, Steady;
    HoldKeeps(c, w.desk, way, env);
    StopKeeps(c, w.desk.(pending := None), env) by { PendingKeeps(c, w.desk); }
    var (d, next) := HoldEnters(c, w.desk, way, env);
    AskedKeeps(c, w);
    RequestKeepsWorld(c, w, d, next, ToHold(way), Direct(LiveIntent(w.desk)), env);
    RequestKeepsWorld(c, Asks(w), d, next, ToHold(way), Direct(LiveIntent(w.desk)), env);
  }

  lemma ProceedKeepsWorld(c: Settings, w: World, env: Env)
    requires RecordOk(c, w.desk) && w.desk.pending.None? && w.shutdown != Over && w.desk.running
    requires w.desk.closing <==> w.shutdown != Alive
    requires w.stopper == NoStop && w.request.HandingOver? && !w.desk.stopping
    requires w.request.goal.ToTarget? ==> c.opMin <= w.request.goal.target <= c.opMax
    requires w.lock.Held? ==> w.lock.client !in {TheRequest, TheStopper} && LockOk(w)
    requires PulseOk(w)
    ensures WorldOk(c, RequestProceeds(c, w, env))
  {
    hide TargetProceeds, HoldProceeds, RecordOk, Steady, PulseOk;
    var u := w.(request := NoRequest);
    assert WorldOk(c, u) by { PulseOnlyLooksAtRunner(w, u); }
    hide TasksOk;
    match w.request.goal
    case ToTarget(target) =>
      TargetProceedKeeps(c, w.desk, target, env);
      var (d, next) := TargetProceeds(c, w.desk, target, env);
      RequestKeepsWorld(c, u, d, next, w.request.goal, After(w.request.replaced, w.request.since), env);
    case ToHold(way) =>
      HoldProceedKeeps(c, w.desk, way, env);
      var (d, next) := HoldProceeds(c, w.desk, way, env);
      RequestKeepsWorld(c, u, d, next, w.request.goal, After(w.request.replaced, w.request.since), env);
  }

  lemma PulseOnlyLooksAtRunner(w: World, t: World)
    requires t.runner == w.runner && t.desk == w.desk
    ensures PulseOk(t) <==> PulseOk(w)
  {
  }

  lemma StopFinishKeepsWorld(c: Settings, w: World, failed: bool, env: Env)
    requires WorldOk(c, w) && w.shutdown != Over && w.stopper.Stopping?
    requires w.lock.Held? ==> w.lock.client != TheStopper
    ensures WorldOk(c, StopFinishes(c, w, failed, env))
  {
    hide RequestProceeds;
    if w.stopper.owner == ByRequest && !failed {
      ProceedKeepsWorld(c, w.(stopper := NoStop, now := env.mono, desk := StopEnds(w.desk, false)), env);
    }
  }

  lemma ReleaseKeepsWorld(c: Settings, w: World, ok: bool, env: Env)
    requires WorldOk(c, w) && w.shutdown != Over
    ensures WorldOk(c, Releases(c, w, ok, env))
  {
    hide StopFinishes;
    if w.lock.Held? && w.lock.client == TheStopper && !ok {
      StopFinishKeepsWorld(c, w.(lock := Free, now := env.mono), true, env);
    }
  }

  lemma AdjustKeepsWorld(c: Settings, w: World, amount: real, increase: bool, env: Env)
    requires WorldOk(c, w) && w.shutdown != Over && w.request == NoRequest
    ensures WorldOk(c, AdjustsTarget(c, w, amount, increase, env))
  {
    hide AsksTarget, RecordOk;
    var t := Asks(w.(desk := w.desk.(pending := None)));
    PendingKeeps(c, w.desk);
    if t.desk.control.target.Some? {
      TargetKeepsWorld(c, t, t.desk.control.target.value + if increase then amount else -amount, env);
    }
  }

  lemma ShareKeepsWorld(c: Settings, w: World, move: Label)
    requires WorldOk(c, w) && w.shutdown != Over
    requires move in {RunnerFails, RequestFails, StopTaskFails, StartFails, Wire} || move.Acquire? || move.StopMotion?
    ensures WorldOk(c, Step(c, w, move))
  {
    hide RunnerCycles, RunnerLocks, StopBegins, AsksTarget, AsksHold, StopFinishes, Releases, RecordOk;
  }

  lemma ShutdownKeepsWorld(c: Settings, w: World)
    requires WorldOk(c, w) && w.shutdown != Over
    ensures WorldOk(c, Step(c, w, BeginShutdown))
    ensures WorldOk(c, Step(c, w, EndShutdown))
  {
  }

  lemma StepKeepsWorld(c: Settings, w: World, move: Label)
    requires WorldOk(c, w)
    ensures WorldOk(c, Step(c, w, move))
  {
    hide RunnerCycles, RunnerLocks, StopTask, RequestStopTask, AsksTarget, AdjustsTarget, AsksHold, StopFinishes,
      Releases, RecordOk, PulseOk, LockOk, Consistent;
    if w.shutdown == Over { return; }
    match move
    case RunCycle(env) => if w.runner == Waiting { RunnerCyclesKeepWorld(c, w, env); }
    case TakeIntentLock(env) => if w.runner == WantsIntentLock { RunnerLocksKeepsWorld(c, w, env); }
    case RunnerStops(env) => RunnerStopKeepsWorld(c, w, env);
    case RequestStops(env) => if w.request.Halting? { RequestStopKeepsWorld(c, w, env); }
    case SetTarget(target, env) => if IntentLockFree(w) { TargetKeepsWorld(c, w, target, env); }
    case AdjustTarget(amount, increase, env) =>
      if IntentLockFree(w) { AdjustKeepsWorld(c, w, amount, increase, env); }
    case Hold(way, env) => if IntentLockFree(w) { HoldKeepsWorld(c, w, way, env); }
    case Confirm(env) => ConfirmKeepsWorld(c, w, env);
    case GiveUp(env) => GiveUpKeepsWorld(c, w, env);
    case Release(ok, env) => ReleaseKeepsWorld(c, w, ok, env);
    case BeginShutdown => ShutdownKeepsWorld(c, w);
    case EndShutdown => ShutdownKeepsWorld(c, w);
    case _ => ShareKeepsWorld(c, w, move);
  }

  lemma RunnerStopKeepsWorld(c: Settings, w: World, env: Env)
    requires WorldOk(c, w) && w.shutdown != Over
    ensures WorldOk(c, Step(c, w, RunnerStops(env)))
  {
    hide StopBegins, RecordOk;
    if w.runner.MustStop? { StopTaskKeepsWorld(c, w, w.runner.blamed, env); }
  }

  lemma ConfirmKeepsWorld(c: Settings, w: World, env: Env)
    requires WorldOk(c, w) && w.shutdown != Over
    ensures WorldOk(c, Step(c, w, Confirm(env)))
  {
    hide StopFinishes, RecordOk;
    if w.stopper.Stopping? && w.stopper.confirming {
      StopFinishKeepsWorld(c, w.(trace := w.trace + [Confirmed(w.stopper.baseline, env.relay)]), false, env);
    }
  }

  lemma GiveUpKeepsWorld(c: Settings, w: World, env: Env)
    requires WorldOk(c, w) && w.shutdown != Over
    ensures WorldOk(c, Step(c, w, GiveUp(env)))
  {
    hide StopFinishes, RecordOk;
    if w.stopper.Stopping? && w.stopper.confirming { StopFinishKeepsWorld(c, w, true, env); }
  }

  /** The intent record is consistent in every reachable state of a lifetime. */
  lemma {:induction false} RecordHolds(c: Settings, generation: nat, first: Env, labels: seq<Label>)
    ensures WorldOk(c, Run(c, generation, first, labels))
  {
    if labels != [] {
      var n := |labels| - 1;
      RecordHolds(c, generation, first, labels[..n]);
      StepKeepsWorld(c, Run(c, generation, first, labels[..n]), labels[n]);
    }
  }
}
