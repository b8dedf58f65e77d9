// A request that fails validation while an intent is live: the intent is stopped, and only then does the
// caller get its exception.
module DeskHalts {
  import opened Policy
  import opened HeightMonitors
  import opened DeskModel
  import opened DeskWorld
  import opened DeskRecord
  import opened DeskWire

  /** The request is not valid: a target out of range, or an adjustment that is not positive or leads there. */
  predicate IsInvalid(c: Settings, w: World, move: Label) {
    match move
    case SetTarget(target, _) => !(c.opMin <= target <= c.opMax)
    case AdjustTarget(amount, increase, _) =>
      || amount <= 0.0
      || (w.desk.control.mode == Target && w.desk.control.target.Some?
          && var target := w.desk.control.target.value + if increase then amount else -amount;
             !(c.opMin <= target <= c.opMax))
    case _ => false
  }

  predicate IsServed(w: World, move: Label) {
    w.shutdown != Over && IntentLockFree(w) &&
    match move
    case SetTarget(_, env) => Timed(w, env)
    case AdjustTarget(_, _, env) => Timed(w, env)
    case _ => false
  }

  /** Such a request, once it has the intent lock, keeps it for a stop task; without an intent nothing is done. */
  lemma InvalidRequestHalts(c: Settings, w: World, move: Label)
    requires IsServed(w, move) && IsInvalid(c, w, move)
    ensures var t := Step(c, w, move);
      && t.desk.control == w.desk.control && t.desk.motion == w.desk.motion
      && (if w.desk.control.mode == NoMotion then t.request == NoRequest
          else t.request == Halting(false) && Invalid(w.desk.control.generation) in t.trace)
  {
    var t := Step(c, w, move);
    if w.desk.control.mode != NoMotion {
      assert t.trace[|t.trace| - 1] == Invalid(w.desk.control.generation);
    }
  }

  /** The intent has been replaced, or the stop task that will replace it is due and nothing prevents it. */
  predicate Heeds(w: World, g: nat) {
    || g < w.desk.control.generation
    || (g == w.desk.control.generation && w.request.Halting? && !w.desk.stopping && !w.desk.closing)
  }

  predicate Heeded(w: World) {
    forall e :: e in w.trace && e.Invalid? ==> Heeds(w, e.generation)
  }

  lemma RequestIsFirm(c: Settings, w: World, d: Desk, next: Next, goal: Goal, origin: Origin, env: Env)
    requires w.request == NoRequest && RecordOk(c, w.desk) && d.control.generation >= w.desk.control.generation
    requires next == HandOver ==> d.control.generation > w.desk.control.generation
    requires next != HandOver ==> d.stopping == w.desk.stopping && d.closing == w.desk.closing
    requires next == Halt ==> d == w.desk && d.control.mode != NoMotion
    requires Heeded(w)
    ensures Heeded(RequestActs(w, d, next, goal, origin, env))
  {
    var t := RequestActs(w, d, next, goal, origin, env);
    forall e | e in t.trace && e.Invalid? ensures Heeds(t, e.generation) {
      assert e in w.trace || e == Invalid(w.desk.control.generation);
    }
  }

  lemma TargetHeeds(c: Settings, w: World, target: real, env: Env)
    requires WorldOk(c, w) && Heeded(w) && w.request == NoRequest
    ensures Heeded(AsksTarget(c, w, target, env))
  {
    hide TargetEnters, RequestActs, RecordOk, TasksOk, Heeds;
    TargetKeeps(c, w.desk, target, env);
    TargetHalts(c, w.desk, target, env);
    PendingKeeps(c, w.desk);
    StopKeeps(c, w.desk.(pending := None), env);
    var (d, next) := TargetEnters(c, w.desk, target, env);
    AskedHeeds(w);
    RequestIsFirm(c, w, d, next, ToTarget(target), Direct(LiveIntent(w.desk)), env);
    RequestIsFirm(c, Asks(w), d, next, ToTarget(target), Direct(LiveIntent(w.desk)), env);
  }

  lemma TargetHalts(c: Settings, d: Desk, target: real, e: Env)
    ensures TargetEnters(c, d, target, e).1 == Halt ==> TargetEnters(c, d, target, e).0 == d && d.control.mode != NoMotion
  {
  }

  lemma AskedHeeds(w: World)
    requires Heeded(w)
    ensures Heeded(Asks(w))
  {
    forall e | e in Asks(w).trace && e.Invalid? ensures Heeds(Asks(w), e.generation) { assert e in w.trace; }
  }

  lemma HoldHeeds(c: Settings, w: World, way: Way, env: Env)
    requires WorldOk(c, w) && Heeded(w) && w.request == NoRequest
    ensures Heeded(AsksHold(c, w, way, env))
  {
    hide HoldEnters, RequestActs, RecordOk, TasksOk, Heeds;
    HoldKeeps(c, w.desk, way, env);
    HoldNeverHalts(c, w.desk, way, env);
    PendingKeeps(c, w.desk);
    StopKeeps(c, w.desk.(pending := None), env);
    var (d, next) := HoldEnters(c, w.desk, way, env);
    AskedHeeds(w);
    RequestIsFirm(c, w, d, next, ToHold(way), Direct(LiveIntent(w.desk)), env);
    RequestIsFirm(c, Asks(w), d, next, ToHold(way), Direct(LiveIntent(w.desk)), env);
  }

  lemma HoldNeverHalts(c: Settings, d: Desk, way: Way, e: Env)
    ensures HoldEnters(c, d, way, e).1 != Halt
    ensures HoldProceeds(c, d, way, e).1 != Halt
  {
  }

  lemma AdjustHeeds(c: Settings, w: World, amount: real, increase: bool, env: Env)
    requires WorldOk(c, w) && Heeded(w) && w.request == NoRequest
    ensures Heeded(AdjustsTarget(c, w, amount, increase, env))
  {
    hide AsksTarget, RecordOk, TasksOk;
    var t := Asks(w.(desk := w.desk.(pending := None)));
    CancellingKeeps(c, w);
    AskedHeeds(w.(desk := w.desk.(pending := None)));
    if amount > 0.0 {
      if t.desk.control.target.Some? {
        TargetHeeds(c, t, t.desk.control.target.value + if increase then amount else -amount, env);
      }
    } else {
      assert RecordOk(c, w.desk);
      InvalidHeeds(c, w, env);
    }
  }

  lemma InvalidHeeds(c: Settings, w: World, env: Env)
    requires RecordOk(c, w.desk) && Heeded(w) && w.request == NoRequest
    ensures Heeded(w.(now := env.mono))
    ensures w.desk.control.mode != NoMotion ==>
      Heeded(w.(now := env.mono, request := Halting(false), trace := w.trace + [Invalid(w.desk.control.generation)]))
  {
  }

  /** Everything invalid lies behind: no later generation can be wrong about it. */
  predicate AllPast(w: World) {
    forall e :: e in w.trace && e.Invalid? ==> e.generation < w.desk.control.generation
  }

  predicate AddsNone(w: World, t: World) {
    t.desk.control.generation >= w.desk.control.generation && forall e :: e in t.trace && e.Invalid? ==> e in w.trace
  }

  lemma ActsAddNone(w: World, d: Desk, next: Next, goal: Goal, origin: Origin, env: Env)
    requires next != Halt && d.control.generation >= w.desk.control.generation
    ensures AddsNone(w, RequestActs(w, d, next, goal, origin, env))
  {
  }

  lemma StopFinishAddsNone(c: Settings, w: World, failed: bool, env: Env)
    requires WorldOk(c, w) && w.shutdown != Over && w.stopper.Stopping?
    ensures AddsNone(w, StopFinishes(c, w, failed, env))
  {
    hide TargetProceeds, HoldProceeds, RequestActs, RecordOk, StartEnds;
    assert RecordOk(c, StopEnds(w.desk, false)) by { EndKeeps(c, w.desk); }
    StartKeepsGeneration(c, w.desk, failed, env);
    if w.stopper.owner == ByRequest && !failed {
      var u := w.(stopper := NoStop, now := env.mono, desk := StopEnds(w.desk, false));
      var origin := After(w.request.replaced, w.request.since);
      match w.request.goal
      case ToTarget(target) =>
        TargetProceedKeeps(c, u.desk, target, env);
        ProceedNeverHalts(c, u.desk, target, env);
        var (d, next) := TargetProceeds(c, u.desk, target, env);
        ActsAddNone(u, d, next, w.request.goal, origin, env);
      case ToHold(way) =>
        HoldProceedKeeps(c, u.desk, way, env);
        HoldNeverHalts(c, u.desk, way, env);
        var (d, next) := HoldProceeds(c, u.desk, way, env);
        ActsAddNone(u, d, next, w.request.goal, origin, env);
    }
  }

  lemma EndKeeps(c: Settings, d: Desk)
    requires RecordOk(c, d) && (d.stopping || d.closing)
    ensures RecordOk(c, StopEnds(d, false))
  {
  }

  lemma StartKeepsGeneration(c: Settings, d: Desk, failed: bool, e: Env)
    ensures StartEnds(c, d, failed, e).control.generation == d.control.generation
  {
  }

  lemma ProceedNeverHalts(c: Settings, d: Desk, target: real, e: Env)
    ensures TargetProceeds(c, d, target, e).1 != Halt
  {
  }

  /** While some STOP is under way everything invalid is past, and it stays past. */
  lemma FinishHeeds(c: Settings, w: World, failed: bool, env: Env)
    requires WorldOk(c, w) && w.shutdown != Over && w.stopper.Stopping? && Heeded(w)
    ensures Heeded(StopFinishes(c, w, failed, env))
  {
    StopFinishAddsNone(c, w, failed, env);
    hide StopFinishes, RecordOk;
  }

  lemma RunnerIsFirm(w: World, d: Desk, act: Act, env: Env)
    requires d.control.generation >= w.desk.control.generation
    requires d.stopping == w.desk.stopping && d.closing == w.desk.closing && Heeded(w)
    ensures Heeded(RunnerActs(w, d, act, env))
  {
  }

  lemma StopTaskHeeds(c: Settings, w: World, blamed: bool, env: Env)
    requires WorldOk(c, w) && Heeded(w) && w.shutdown != Over
    ensures Heeded(StopTask(w, blamed, env))
    ensures forall r: Runner :: Heeded(StopTask(w, blamed, env).(runner := r))
    ensures w.request.Halting? ==> Heeded(RequestStopTask(w, env))
  {
  }

  lemma ReleaseHeeds(c: Settings, w: World, ok: bool, env: Env)
    requires WorldOk(c, w) && Heeded(w) && w.shutdown != Over
    ensures Heeded(Releases(c, w, ok, env))
  {
    hide StopFinishes, RecordOk;
    if w.lock.Held? && w.lock.client == TheStopper && !ok && w.stopper.Stopping? {
      FinishHeeds(c, w.(lock := Free, now := env.mono), true, env);
    }
  }

  lemma ConfirmHeeds(c: Settings, w: World, env: Env)
    requires WorldOk(c, w) && w.shutdown != Over && w.stopper.Stopping? && Heeded(w)
    ensures Heeded(StopFinishes(c, w.(trace := w.trace + [Confirmed(w.stopper.baseline, env.relay)]), false, env))
  {
    hide StopFinishes, RecordOk;
    FinishHeeds(c, w.(trace := w.trace + [Confirmed(w.stopper.baseline, env.relay)]), false, env);
  }

  lemma ShareHeeds(c: Settings, w: World, move: Label)
    requires WorldOk(c, w) && Heeded(w) && w.shutdown != Over
    requires move in {RunnerFails, RequestFails, StopTaskFails, StartFails, Wire, BeginShutdown, EndShutdown}
             || move.Acquire? || move.StopMotion?
    ensures Heeded(Step(c, w, move))
  {
    hide RecordOk;
  }

  lemma StepHeeds(c: Settings, w: World, move: Label)
    requires WorldOk(c, w) && Heeded(w)
    ensures Heeded(Step(c, w, move))
  {
    hide Cycle, StartupCycle, RunnerActs, StopTask, RequestStopTask, AsksTarget, AdjustsTarget, AsksHold, StopFinishes,
      Releases, RecordOk, TasksOk, Timed, Heeded;
    if w.shutdown == Over { return; }
    match move
    case RunCycle(env) =>
      CycleKeeps(c, w.desk, env);
      RunnerIsFirm(w, Cycle(c, w.desk, env).0, Cycle(c, w.desk, env).1, env);
    case TakeIntentLock(env) =>
      StartupKeeps(c, w.desk, env);
      RunnerWaits(w);
      RunnerIsFirm(w.(runner := Waiting), StartupCycle(c, w.desk, env).0, StartupCycle(c, w.desk, env).1, env);
    case RunnerStops(env) => StopTaskHeeds(c, w, w.runner.MustStop? && w.runner.blamed, env);
    case RequestStops(env) => StopTaskHeeds(c, w, w.request.Halting? && w.request.blamed, env);
    case SetTarget(target, env) => if IntentLockFree(w) { TargetHeeds(c, w, target, env); }
    case AdjustTarget(amount, increase, env) => if IntentLockFree(w) { AdjustHeeds(c, w, amount, increase, env); }
    case Hold(way, env) => if IntentLockFree(w) { HoldHeeds(c, w, way, env); }
    case Confirm(env) => if w.stopper.Stopping? { ConfirmHeeds(c, w, env); }
    case GiveUp(env) => if w.stopper.Stopping? { FinishHeeds(c, w, true, env); }
    case Release(ok, env) => ReleaseHeeds(c, w, ok, env);
    case _ => ShareHeeds(c, w, move);
  }

  lemma RunnerWaits(w: World)
    requires Heeded(w)
    ensures Heeded(w.(runner := Waiting))
  {
  }

  /** After any run, whoever has sent an invalid replacement of a live intent: it is being, or has been, stopped. */
  lemma {:induction false} InvalidReplacementStops(c: Settings, generation: nat, first: Env, labels: seq<Label>)
    ensures Heeded(Run(c, generation, first, labels))
  {
    if labels != [] {
      var n := |labels| - 1;
      InvalidReplacementStops(c, generation, first, labels[..n]);
      RecordHolds(c, generation, first, labels[..n]);
      StepHeeds(c, Run(c, generation, first, labels[..n]), labels[n]);
    }
  }

  /** So before anybody else is served, the intent it was sent against is no longer the live one. */
  lemma ServedAfterHalting(w: World)
    requires Heeded(w) && IntentLockFree(w)
    ensures AllPast(w)
  {
  }
}
